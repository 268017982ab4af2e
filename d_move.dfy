/** `DMove` (utils/commands/d.ts): the down-face turn. Row 2 of F, R, B and L is cycled and the D grid is turned. */
module DTurn {
  import opened CubeTypes
  import opened Grids
  import opened RubiksCubes

  /** What `execute` leaves, as a value. */
  function Apply(c: Cube, prime: bool): Cube
  {
    if !prime then
      c.(f := c.f.WithRow(2, c.l.Row(2)),
         r := c.r.WithRow(2, c.f.Row(2)),
         b := c.b.WithRow(2, c.r.Row(2)),
         l := c.l.WithRow(2, c.b.Row(2)),
         d := c.d.Clockwise())
    else
      c.(f := c.f.WithRow(2, c.r.Row(2)),
         r := c.r.WithRow(2, c.b.Row(2)),
         b := c.b.WithRow(2, c.l.Row(2)),
         l := c.l.WithRow(2, c.f.Row(2)),
         d := c.d.Anticlockwise())
  }

  /** `execute(cube)`: the four strips are copied out first and written back in their new
      places, then the D grid is rotated through a copy of itself. */
  method Execute(cube: RubiksCube, prime: bool)
    requires cube.Valid()
    modifies cube.D, cube.F, cube.B, cube.L, cube.R
    ensures cube.Valid()
    ensures cube.State() == Apply(old(cube.State()), prime)
  {
    var r := RowOf(cube.R, 2);
    var f := RowOf(cube.F, 2);
    var b := RowOf(cube.B, 2);
    var l := RowOf(cube.L, 2);
    if !prime {
      WriteRow(cube.F, 2, l);
      WriteRow(cube.R, 2, f);
      WriteRow(cube.B, 2, r);
      WriteRow(cube.L, 2, b);
      RotateClockwise(cube.D);
    } else {
      WriteRow(cube.F, 2, r);
      WriteRow(cube.R, 2, b);
      WriteRow(cube.B, 2, l);
      WriteRow(cube.L, 2, f);
      RotateAnticlockwise(cube.D);
    }
  }

  /** D then D' (or D' then D) restores every sticker. */
  lemma Inverse(c: Cube, prime: bool)
    ensures Apply(Apply(c, prime), !prime) == c
  {
    RotationLaws(c.d);
  }

  /** Four D turns in the same direction restore every sticker. */
  lemma FourTimes(c: Cube, prime: bool)
    ensures Apply(Apply(Apply(Apply(c, prime), prime), prime), prime) == c
  {
    RotationLaws(c.d);
  }

  /** D changes only row 2 of F, R, B and L, and D itself. */
  lemma Frame(c: Cube, prime: bool)
    ensures Apply(c, prime).u == c.u
    ensures forall i: Idx :: i != 2 ==> Apply(c, prime).f.Row(i) == c.f.Row(i)
    ensures forall i: Idx :: i != 2 ==> Apply(c, prime).r.Row(i) == c.r.Row(i)
    ensures forall i: Idx :: i != 2 ==> Apply(c, prime).b.Row(i) == c.b.Row(i)
    ensures forall i: Idx :: i != 2 ==> Apply(c, prime).l.Row(i) == c.l.Row(i)
  {
  }

  /** No centre sticker moves. */
  lemma Centres(c: Cube, prime: bool)
    ensures Apply(c, prime).Centres() == c.Centres()
  {
    RotationLaws(c.d);
  }

  /** The number of stickers of each colour is unchanged. */
  lemma Counts(c: Cube, prime: bool, x: Color)
    ensures Apply(c, prime).Count(x) == c.Count(x)
  {
    ClockwiseCount(c.d, x);
    AnticlockwiseCount(c.d, x);

    if !prime {
      WithRowCount(c.f, 2, c.l.Row(2), x);
      WithRowCount(c.r, 2, c.f.Row(2), x);
      WithRowCount(c.b, 2, c.r.Row(2), x);
      WithRowCount(c.l, 2, c.b.Row(2), x);
    } else {
      WithRowCount(c.f, 2, c.r.Row(2), x);
      WithRowCount(c.r, 2, c.b.Row(2), x);
      WithRowCount(c.b, 2, c.l.Row(2), x);
      WithRowCount(c.l, 2, c.f.Row(2), x);
    }
  }
}
