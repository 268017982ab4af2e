/** `YMove` (utils/commands/y.ts): the whole-cube rotation about the U–D axis. The F, R, B and
    L grids change places as whole grids, and the two axis grids U and D are turned. */
module YRotation {
  import opened CubeTypes
  import opened Grids
  import opened RubiksCubes

  /** What `execute` leaves, as a value. */
  function Apply(c: Cube, prime: bool): Cube
  {
    if !prime then
      Cube(c.u.Clockwise(), c.d.Anticlockwise(), c.r, c.l, c.f, c.b)
    else
      Cube(c.u.Anticlockwise(), c.d.Clockwise(), c.l, c.r, c.b, c.f)
  }

  /** `execute(cube)`: the four face slots are reassigned, so the cube keeps the same six grids
      in other slots; then U and D are rotated in place. */
  method Execute(cube: RubiksCube, prime: bool)
    requires cube.Valid()
    modifies cube, cube.U, cube.D
    ensures cube.Valid() && cube.Repr() == old(cube.Repr())
    ensures cube.U == old(cube.U) && cube.D == old(cube.D)
    ensures cube.State() == Apply(old(cube.State()), prime)
  {
    var f, r, b, l := cube.F, cube.R, cube.B, cube.L;
    if !prime {
      cube.F, cube.R, cube.B, cube.L := r, b, l, f;
      RotateClockwise(cube.U);
      RotateAnticlockwise(cube.D);
    } else {
      cube.F, cube.R, cube.B, cube.L := l, f, r, b;
      RotateAnticlockwise(cube.U);
      RotateClockwise(cube.D);
    }
  }

  /** Y then Y' (or Y' then Y) restores every sticker. */
  lemma Inverse(c: Cube, prime: bool)
    ensures Apply(Apply(c, prime), !prime) == c
  {
    RotationLaws(c.u);
    RotationLaws(c.d);
  }

  /** Four Y rotations in the same direction restore every sticker. */
  lemma FourTimes(c: Cube, prime: bool)
    ensures Apply(Apply(Apply(Apply(c, prime), prime), prime), prime) == c
  {
    RotationLaws(c.u);
    RotationLaws(c.d);
  }

  /** After Y the front face is the old right face, centre included, and the old front face
      is on the left: each solver stage ends with Y to bring the next side to the front. */
  lemma NextSide(c: Cube)
    ensures Apply(c, false).f == c.r && Apply(c, false).l == c.f
    ensures Apply(c, false).f.Center() == c.r.Center()
    ensures Apply(c, false).u.Center() == c.u.Center() && Apply(c, false).d.Center() == c.d.Center()
  {
    RotationLaws(c.u);
    RotationLaws(c.d);
  }

  /** The number of stickers of each colour is unchanged. */
  lemma Counts(c: Cube, prime: bool, x: Color)
    ensures Apply(c, prime).Count(x) == c.Count(x)
  {
    ClockwiseCount(c.u, x);
    AnticlockwiseCount(c.u, x);
    ClockwiseCount(c.d, x);
    AnticlockwiseCount(c.d, x);
  }
}
