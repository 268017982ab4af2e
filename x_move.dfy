/** `XMove` (utils/commands/x.ts): the whole-cube rotation about the L–R axis, as the program
    performs it. The U, F, D and B grids change places as whole grids, without turning, and
    only the two axis grids R and L are turned. */
module XRotation {
  import opened CubeTypes
  import opened Grids
  import opened RubiksCubes

  /** What `execute` leaves, as a value. */
  function Apply(c: Cube, prime: bool): Cube
  {
    if !prime then
      Cube(c.f, c.b, c.d, c.u, c.l.Anticlockwise(), c.r.Clockwise())
    else
      Cube(c.b, c.f, c.u, c.d, c.l.Clockwise(), c.r.Anticlockwise())
  }

  /** `execute(cube)`: the four face slots are reassigned, so the cube keeps the same six grids
      in other slots; then R and L are rotated in place. */
  method Execute(cube: RubiksCube, prime: bool)
    requires cube.Valid()
    modifies cube, cube.R, cube.L
    ensures cube.Valid() && cube.Repr() == old(cube.Repr())
    ensures cube.R == old(cube.R) && cube.L == old(cube.L)
    ensures cube.State() == Apply(old(cube.State()), prime)
  {
    var f, u, b, d := cube.F, cube.U, cube.B, cube.D;
    if !prime {
      cube.F, cube.D, cube.B, cube.U := d, b, u, f;
      RotateClockwise(cube.R);
      RotateAnticlockwise(cube.L);
    } else {
      cube.F, cube.D, cube.B, cube.U := u, f, d, b;
      RotateAnticlockwise(cube.R);
      RotateClockwise(cube.L);
    }
  }

  /** X then X' (or X' then X) restores every sticker. */
  lemma Inverse(c: Cube, prime: bool)
    ensures Apply(Apply(c, prime), !prime) == c
  {
    RotationLaws(c.l);
    RotationLaws(c.r);
  }

  /** Four X rotations in the same direction restore every sticker. */
  lemma FourTimes(c: Cube, prime: bool)
    ensures Apply(Apply(Apply(Apply(c, prime), prime), prime), prime) == c
  {
    RotationLaws(c.l);
    RotationLaws(c.r);
  }

  /** The centres travel with their grids: after X the front centre is the old down centre, and
      the R and L centres stay. */
  lemma Centres(c: Cube)
    ensures Apply(c, false).Centres() ==
            [c.f.Center(), c.b.Center(), c.d.Center(), c.u.Center(), c.l.Center(), c.r.Center()]
    ensures Apply(c, true).Centres() ==
            [c.b.Center(), c.f.Center(), c.u.Center(), c.d.Center(), c.l.Center(), c.r.Center()]
  {
    RotationLaws(c.l);
    RotationLaws(c.r);
  }

  /** So, unlike the face turns, X does not keep the centres: on the solved cube the front
      centre changes from red to white. */
  lemma MovesCentres()
    ensures Apply(SolvedCube(), false).f.Center() == White
    ensures Apply(SolvedCube(), false).Centres() != SolvedCube().Centres()
  {
    assert Apply(SolvedCube(), false).Centres()[2] == White;
  }

  /** The number of stickers of each colour is unchanged. */
  lemma Counts(c: Cube, prime: bool, x: Color)
    ensures Apply(c, prime).Count(x) == c.Count(x)
  {
    ClockwiseCount(c.l, x);
    AnticlockwiseCount(c.l, x);
    ClockwiseCount(c.r, x);
    AnticlockwiseCount(c.r, x);
  }
}
