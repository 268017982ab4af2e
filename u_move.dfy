/** `UMove` (utils/commands/u.ts): the up-face turn. Row 0 of F, R, B and L is cycled and the U grid is turned. */
module UTurn {
  import opened CubeTypes
  import opened Grids
  import opened RubiksCubes

  /** What `execute` leaves, as a value. */
  function Apply(c: Cube, prime: bool): Cube
  {
    if !prime then
      c.(f := c.f.WithRow(0, c.r.Row(0)),
         r := c.r.WithRow(0, c.b.Row(0)),
         b := c.b.WithRow(0, c.l.Row(0)),
         l := c.l.WithRow(0, c.f.Row(0)),
         u := c.u.Clockwise())
    else
      c.(f := c.f.WithRow(0, c.l.Row(0)),
         r := c.r.WithRow(0, c.f.Row(0)),
         b := c.b.WithRow(0, c.r.Row(0)),
         l := c.l.WithRow(0, c.b.Row(0)),
         u := c.u.Anticlockwise())
  }

  /** `execute(cube)`: the four strips are copied out first and written back in their new
      places, then the U grid is rotated through a copy of itself. */
  method Execute(cube: RubiksCube, prime: bool)
    requires cube.Valid()
    modifies cube.U, cube.F, cube.B, cube.L, cube.R
    ensures cube.Valid()
    ensures cube.State() == Apply(old(cube.State()), prime)
  {
    var r := RowOf(cube.R, 0);
    var f := RowOf(cube.F, 0);
    var b := RowOf(cube.B, 0);
    var l := RowOf(cube.L, 0);
    if !prime {
      WriteRow(cube.F, 0, r);
      WriteRow(cube.R, 0, b);
      WriteRow(cube.B, 0, l);
      WriteRow(cube.L, 0, f);
      RotateClockwise(cube.U);
    } else {
      WriteRow(cube.F, 0, l);
      WriteRow(cube.R, 0, f);
      WriteRow(cube.B, 0, r);
      WriteRow(cube.L, 0, b);
      RotateAnticlockwise(cube.U);
    }
  }

  /** U then U' (or U' then U) restores every sticker. */
  lemma Inverse(c: Cube, prime: bool)
    ensures Apply(Apply(c, prime), !prime) == c
  {
    RotationLaws(c.u);
  }

  /** Four U turns in the same direction restore every sticker. */
  lemma FourTimes(c: Cube, prime: bool)
    ensures Apply(Apply(Apply(Apply(c, prime), prime), prime), prime) == c
  {
    RotationLaws(c.u);
  }

  /** U changes only row 0 of F, R, B and L, and U itself. */
  lemma Frame(c: Cube, prime: bool)
    ensures Apply(c, prime).d == c.d
    ensures forall i: Idx :: i != 0 ==> Apply(c, prime).f.Row(i) == c.f.Row(i)
    ensures forall i: Idx :: i != 0 ==> Apply(c, prime).r.Row(i) == c.r.Row(i)
    ensures forall i: Idx :: i != 0 ==> Apply(c, prime).b.Row(i) == c.b.Row(i)
    ensures forall i: Idx :: i != 0 ==> Apply(c, prime).l.Row(i) == c.l.Row(i)
  {
  }

  /** No centre sticker moves. */
  lemma Centres(c: Cube, prime: bool)
    ensures Apply(c, prime).Centres() == c.Centres()
  {
    RotationLaws(c.u);
  }

  /** The number of stickers of each colour is unchanged. */
  lemma Counts(c: Cube, prime: bool, x: Color)
    ensures Apply(c, prime).Count(x) == c.Count(x)
  {
    ClockwiseCount(c.u, x);
    AnticlockwiseCount(c.u, x);

    if !prime {
      WithRowCount(c.f, 0, c.r.Row(0), x);
      WithRowCount(c.r, 0, c.b.Row(0), x);
      WithRowCount(c.b, 0, c.l.Row(0), x);
      WithRowCount(c.l, 0, c.f.Row(0), x);
    } else {
      WithRowCount(c.f, 0, c.l.Row(0), x);
      WithRowCount(c.r, 0, c.f.Row(0), x);
      WithRowCount(c.b, 0, c.r.Row(0), x);
      WithRowCount(c.l, 0, c.b.Row(0), x);
    }
  }
}
