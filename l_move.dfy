/** `LMove` (utils/commands/l.ts): the left-face turn. Column 0 of U, F and D and column 2 of B are cycled; B's column is read upside down on both sides of the back face. */
module LTurn {
  import opened CubeTypes
  import opened Grids
  import opened RubiksCubes

  /** What `execute` leaves, as a value. */
  function Apply(c: Cube, prime: bool): Cube
  {
    if !prime then
      c.(u := c.u.WithCol(0, c.b.Col(2).Reversed()),
         f := c.f.WithCol(0, c.u.Col(0)),
         d := c.d.WithCol(0, c.f.Col(0)),
         b := c.b.WithCol(2, c.d.Col(0).Reversed()),
         l := c.l.Clockwise())
    else
      c.(u := c.u.WithCol(0, c.f.Col(0)),
         f := c.f.WithCol(0, c.d.Col(0)),
         d := c.d.WithCol(0, c.b.Col(2).Reversed()),
         b := c.b.WithCol(2, c.u.Col(0).Reversed()),
         l := c.l.Anticlockwise())
  }

  /** `execute(cube)`: the four strips are copied out first and written back in their new
      places, then the L grid is rotated through a copy of itself. */
  method Execute(cube: RubiksCube, prime: bool)
    requires cube.Valid()
    modifies cube.U, cube.D, cube.F, cube.B, cube.L
    ensures cube.Valid()
    ensures cube.State() == Apply(old(cube.State()), prime)
  {
    var u := ColumnOf(cube.U, 0);
    var f := ColumnOf(cube.F, 0);
    var d := ColumnOf(cube.D, 0);
    var b := ColumnOf(cube.B, 2);
    if !prime {
      WriteColumn(cube.U, 0, b.Reversed());
      WriteColumn(cube.F, 0, u);
      WriteColumn(cube.D, 0, f);
      WriteColumn(cube.B, 2, d.Reversed());
      RotateClockwise(cube.L);
    } else {
      WriteColumn(cube.U, 0, f);
      WriteColumn(cube.F, 0, d);
      WriteColumn(cube.D, 0, b.Reversed());
      WriteColumn(cube.B, 2, u.Reversed());
      RotateAnticlockwise(cube.L);
    }
  }

  /** L then L' (or L' then L) restores every sticker. */
  lemma Inverse(c: Cube, prime: bool)
    ensures Apply(Apply(c, prime), !prime) == c
  {
    RotationLaws(c.l);
  }

  /** Four L turns in the same direction restore every sticker. */
  lemma FourTimes(c: Cube, prime: bool)
    ensures Apply(Apply(Apply(Apply(c, prime), prime), prime), prime) == c
  {
    RotationLaws(c.l);
  }

  /** L changes only column 0 of U, F and D, column 2 of B, and L itself. */
  lemma Frame(c: Cube, prime: bool)
    ensures Apply(c, prime).r == c.r
    ensures forall j: Idx :: j != 0 ==> Apply(c, prime).u.Col(j) == c.u.Col(j)
    ensures forall j: Idx :: j != 0 ==> Apply(c, prime).f.Col(j) == c.f.Col(j)
    ensures forall j: Idx :: j != 0 ==> Apply(c, prime).d.Col(j) == c.d.Col(j)
    ensures forall j: Idx :: j != 2 ==> Apply(c, prime).b.Col(j) == c.b.Col(j)
  {
  }

  /** No centre sticker moves. */
  lemma Centres(c: Cube, prime: bool)
    ensures Apply(c, prime).Centres() == c.Centres()
  {
    RotationLaws(c.l);
  }

  /** The number of stickers of each colour is unchanged. */
  lemma Counts(c: Cube, prime: bool, x: Color)
    ensures Apply(c, prime).Count(x) == c.Count(x)
  {
    ClockwiseCount(c.l, x);
    AnticlockwiseCount(c.l, x);
    ReversedCount(c.b.Col(2), x);
    ReversedCount(c.d.Col(0), x);
    ReversedCount(c.u.Col(0), x);
    if !prime {
      WithColCount(c.u, 0, c.b.Col(2).Reversed(), x);
      WithColCount(c.f, 0, c.u.Col(0), x);
      WithColCount(c.d, 0, c.f.Col(0), x);
      WithColCount(c.b, 2, c.d.Col(0).Reversed(), x);
    } else {
      WithColCount(c.u, 0, c.f.Col(0), x);
      WithColCount(c.f, 0, c.d.Col(0), x);
      WithColCount(c.d, 0, c.b.Col(2).Reversed(), x);
      WithColCount(c.b, 2, c.u.Col(0).Reversed(), x);
    }
  }
}
