/** `FMove` (utils/commands/f.ts): the front-face turn. Row 2 of U, column 0 of R, row 0 of D and column 2 of L are cycled, two of them read backwards. */
module FTurn {
  import opened CubeTypes
  import opened Grids
  import opened RubiksCubes

  /** What `execute` leaves, as a value. */
  function Apply(c: Cube, prime: bool): Cube
  {
    if !prime then
      c.(u := c.u.WithRow(2, c.l.Col(2).Reversed()),
         r := c.r.WithCol(0, c.u.Row(2)),
         d := c.d.WithRow(0, c.r.Col(0).Reversed()),
         l := c.l.WithCol(2, c.d.Row(0)),
         f := c.f.Clockwise())
    else
      c.(u := c.u.WithRow(2, c.r.Col(0)),
         r := c.r.WithCol(0, c.d.Row(0).Reversed()),
         d := c.d.WithRow(0, c.l.Col(2)),
         l := c.l.WithCol(2, c.u.Row(2).Reversed()),
         f := c.f.Anticlockwise())
  }

  /** `execute(cube)`: the four strips are copied out first and written back in their new
      places, then the F grid is rotated through a copy of itself. */
  method Execute(cube: RubiksCube, prime: bool)
    requires cube.Valid()
    modifies cube.U, cube.D, cube.F, cube.L, cube.R
    ensures cube.Valid()
    ensures cube.State() == Apply(old(cube.State()), prime)
  {
    var u := RowOf(cube.U, 2);
    var r := ColumnOf(cube.R, 0);
    var d := RowOf(cube.D, 0);
    var l := ColumnOf(cube.L, 2);
    if !prime {
      WriteRow(cube.U, 2, l.Reversed());
      WriteColumn(cube.R, 0, u);
      WriteRow(cube.D, 0, r.Reversed());
      WriteColumn(cube.L, 2, d);
      RotateClockwise(cube.F);
    } else {
      WriteRow(cube.U, 2, r);
      WriteColumn(cube.R, 0, d.Reversed());
      WriteRow(cube.D, 0, l);
      WriteColumn(cube.L, 2, u.Reversed());
      RotateAnticlockwise(cube.F);
    }
  }

  /** F then F' (or F' then F) restores every sticker. */
  lemma Inverse(c: Cube, prime: bool)
    ensures Apply(Apply(c, prime), !prime) == c
  {
    RotationLaws(c.f);
  }

  /** Four F turns in the same direction restore every sticker. */
  lemma FourTimes(c: Cube, prime: bool)
    ensures Apply(Apply(Apply(Apply(c, prime), prime), prime), prime) == c
  {
    RotationLaws(c.f);
  }

  /** F changes only row 2 of U, row 0 of D, column 0 of R, column 2 of L, and F itself. */
  lemma Frame(c: Cube, prime: bool)
    ensures Apply(c, prime).b == c.b
    ensures forall i: Idx :: i != 2 ==> Apply(c, prime).u.Row(i) == c.u.Row(i)
    ensures forall i: Idx :: i != 0 ==> Apply(c, prime).d.Row(i) == c.d.Row(i)
    ensures forall j: Idx :: j != 0 ==> Apply(c, prime).r.Col(j) == c.r.Col(j)
    ensures forall j: Idx :: j != 2 ==> Apply(c, prime).l.Col(j) == c.l.Col(j)
  {
  }

  /** No centre sticker moves. */
  lemma Centres(c: Cube, prime: bool)
    ensures Apply(c, prime).Centres() == c.Centres()
  {
    RotationLaws(c.f);
  }

  /** The number of stickers of each colour is unchanged. */
  lemma Counts(c: Cube, prime: bool, x: Color)
    ensures Apply(c, prime).Count(x) == c.Count(x)
  {
    ClockwiseCount(c.f, x);
    AnticlockwiseCount(c.f, x);
    ReversedCount(c.d.Row(0), x);
    ReversedCount(c.l.Col(2), x);
    ReversedCount(c.r.Col(0), x);
    ReversedCount(c.u.Row(2), x);
    if !prime {
      WithRowCount(c.u, 2, c.l.Col(2).Reversed(), x);
      WithColCount(c.r, 0, c.u.Row(2), x);
      WithRowCount(c.d, 0, c.r.Col(0).Reversed(), x);
      WithColCount(c.l, 2, c.d.Row(0), x);
    } else {
      WithRowCount(c.u, 2, c.r.Col(0), x);
      WithColCount(c.r, 0, c.d.Row(0).Reversed(), x);
      WithRowCount(c.d, 0, c.l.Col(2), x);
      WithColCount(c.l, 2, c.u.Row(2).Reversed(), x);
    }
  }
}
