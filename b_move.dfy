/** `BMove` (utils/commands/b.ts): the back-face turn. Row 0 of U, column 0 of L, row 2 of D and column 2 of R are cycled, two of them read backwards. */
module BTurn {
  import opened CubeTypes
  import opened Grids
  import opened RubiksCubes

  /** What `execute` leaves, as a value. */
  function Apply(c: Cube, prime: bool): Cube
  {
    if !prime then
      c.(u := c.u.WithRow(0, c.r.Col(2)),
         l := c.l.WithCol(0, c.u.Row(0).Reversed()),
         d := c.d.WithRow(2, c.l.Col(0)),
         r := c.r.WithCol(2, c.d.Row(2).Reversed()),
         b := c.b.Clockwise())
    else
      c.(u := c.u.WithRow(0, c.l.Col(0).Reversed()),
         r := c.r.WithCol(2, c.u.Row(0)),
         d := c.d.WithRow(2, c.r.Col(2).Reversed()),
         l := c.l.WithCol(0, c.d.Row(2)),
         b := c.b.Anticlockwise())
  }

  /** `execute(cube)`: the four strips are copied out first and written back in their new
      places, then the B grid is rotated through a copy of itself. */
  method Execute(cube: RubiksCube, prime: bool)
    requires cube.Valid()
    modifies cube.U, cube.D, cube.B, cube.L, cube.R
    ensures cube.Valid()
    ensures cube.State() == Apply(old(cube.State()), prime)
  {
    var u := RowOf(cube.U, 0);
    var r := ColumnOf(cube.R, 2);
    var l := ColumnOf(cube.L, 0);
    var d := RowOf(cube.D, 2);
    if !prime {
      WriteRow(cube.U, 0, r);
      WriteColumn(cube.L, 0, u.Reversed());
      WriteRow(cube.D, 2, l);
      WriteColumn(cube.R, 2, d.Reversed());
      RotateClockwise(cube.B);
    } else {
      WriteRow(cube.U, 0, l.Reversed());
      WriteColumn(cube.R, 2, u);
      WriteRow(cube.D, 2, r.Reversed());
      WriteColumn(cube.L, 0, d);
      RotateAnticlockwise(cube.B);
    }
  }

  /** B then B' (or B' then B) restores every sticker. */
  lemma Inverse(c: Cube, prime: bool)
    ensures Apply(Apply(c, prime), !prime) == c
  {
    RotationLaws(c.b);
  }

  /** Four B turns in the same direction restore every sticker. */
  lemma FourTimes(c: Cube, prime: bool)
    ensures Apply(Apply(Apply(Apply(c, prime), prime), prime), prime) == c
  {
    RotationLaws(c.b);
  }

  /** B changes only row 0 of U, row 2 of D, column 2 of R, column 0 of L, and B itself. */
  lemma Frame(c: Cube, prime: bool)
    ensures Apply(c, prime).f == c.f
    ensures forall i: Idx :: i != 0 ==> Apply(c, prime).u.Row(i) == c.u.Row(i)
    ensures forall i: Idx :: i != 2 ==> Apply(c, prime).d.Row(i) == c.d.Row(i)
    ensures forall j: Idx :: j != 2 ==> Apply(c, prime).r.Col(j) == c.r.Col(j)
    ensures forall j: Idx :: j != 0 ==> Apply(c, prime).l.Col(j) == c.l.Col(j)
  {
  }

  /** No centre sticker moves. */
  lemma Centres(c: Cube, prime: bool)
    ensures Apply(c, prime).Centres() == c.Centres()
  {
    RotationLaws(c.b);
  }

  /** The number of stickers of each colour is unchanged. */
  lemma Counts(c: Cube, prime: bool, x: Color)
    ensures Apply(c, prime).Count(x) == c.Count(x)
  {
    ClockwiseCount(c.b, x);
    AnticlockwiseCount(c.b, x);
    ReversedCount(c.d.Row(2), x);
    ReversedCount(c.l.Col(0), x);
    ReversedCount(c.r.Col(2), x);
    ReversedCount(c.u.Row(0), x);
    if !prime {
      WithRowCount(c.u, 0, c.r.Col(2), x);
      WithColCount(c.l, 0, c.u.Row(0).Reversed(), x);
      WithRowCount(c.d, 2, c.l.Col(0), x);
      WithColCount(c.r, 2, c.d.Row(2).Reversed(), x);
    } else {
      WithRowCount(c.u, 0, c.l.Col(0).Reversed(), x);
      WithColCount(c.r, 2, c.u.Row(0), x);
      WithRowCount(c.d, 2, c.r.Col(2).Reversed(), x);
      WithColCount(c.l, 0, c.d.Row(2), x);
    }
  }
}
