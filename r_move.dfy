/** `RMove` (utils/commands/r.ts): the right-face turn. Column 2 of U, F and D and column 0 of B are cycled; B's column is read upside down on both sides of the back face. */
module RTurn {
  import opened CubeTypes
  import opened Grids
  import opened RubiksCubes

  /** What `execute` leaves, as a value. */
  function Apply(c: Cube, prime: bool): Cube
  {
    if !prime then
      c.(u := c.u.WithCol(2, c.f.Col(2)),
         f := c.f.WithCol(2, c.d.Col(2)),
         d := c.d.WithCol(2, c.b.Col(0).Reversed()),
         b := c.b.WithCol(0, c.u.Col(2).Reversed()),
         r := c.r.Clockwise())
    else
      c.(f := c.f.WithCol(2, c.u.Col(2)),
         d := c.d.WithCol(2, c.f.Col(2)),
         b := c.b.WithCol(0, c.d.Col(2).Reversed()),
         u := c.u.WithCol(2, c.b.Col(0).Reversed()),
         r := c.r.Anticlockwise())
  }

  /** `execute(cube)`: the four strips are copied out first and written back in their new
      places, then the R grid is rotated through a copy of itself. */
  method Execute(cube: RubiksCube, prime: bool)
    requires cube.Valid()
    modifies cube.U, cube.D, cube.F, cube.B, cube.R
    ensures cube.Valid()
    ensures cube.State() == Apply(old(cube.State()), prime)
  {
    var u := ColumnOf(cube.U, 2);
    var f := ColumnOf(cube.F, 2);
    var d := ColumnOf(cube.D, 2);
    var b := ColumnOf(cube.B, 0);
    if !prime {
      WriteColumn(cube.U, 2, f);
      WriteColumn(cube.F, 2, d);
      WriteColumn(cube.D, 2, b.Reversed());
      WriteColumn(cube.B, 0, u.Reversed());
      RotateClockwise(cube.R);
    } else {
      WriteColumn(cube.F, 2, u);
      WriteColumn(cube.D, 2, f);
      WriteColumn(cube.B, 0, d.Reversed());
      WriteColumn(cube.U, 2, b.Reversed());
      RotateAnticlockwise(cube.R);
    }
  }

  /** R then R' (or R' then R) restores every sticker. */
  lemma Inverse(c: Cube, prime: bool)
    ensures Apply(Apply(c, prime), !prime) == c
  {
    RotationLaws(c.r);
  }

  /** Four R turns in the same direction restore every sticker. */
  lemma FourTimes(c: Cube, prime: bool)
    ensures Apply(Apply(Apply(Apply(c, prime), prime), prime), prime) == c
  {
    RotationLaws(c.r);
  }

  /** R changes only column 2 of U, F and D, column 0 of B, and R itself. */
  lemma Frame(c: Cube, prime: bool)
    ensures Apply(c, prime).l == c.l
    ensures forall j: Idx :: j != 2 ==> Apply(c, prime).u.Col(j) == c.u.Col(j)
    ensures forall j: Idx :: j != 2 ==> Apply(c, prime).f.Col(j) == c.f.Col(j)
    ensures forall j: Idx :: j != 2 ==> Apply(c, prime).d.Col(j) == c.d.Col(j)
    ensures forall j: Idx :: j != 0 ==> Apply(c, prime).b.Col(j) == c.b.Col(j)
  {
  }

  /** No centre sticker moves. */
  lemma Centres(c: Cube, prime: bool)
    ensures Apply(c, prime).Centres() == c.Centres()
  {
    RotationLaws(c.r);
  }

  /** The number of stickers of each colour is unchanged. */
  lemma Counts(c: Cube, prime: bool, x: Color)
    ensures Apply(c, prime).Count(x) == c.Count(x)
  {
    ClockwiseCount(c.r, x);
    AnticlockwiseCount(c.r, x);
    ReversedCount(c.b.Col(0), x);
    ReversedCount(c.d.Col(2), x);
    ReversedCount(c.u.Col(2), x);
    if !prime {
      WithColCount(c.u, 2, c.f.Col(2), x);
      WithColCount(c.f, 2, c.d.Col(2), x);
      WithColCount(c.d, 2, c.b.Col(0).Reversed(), x);
      WithColCount(c.b, 0, c.u.Col(2).Reversed(), x);
    } else {
      WithColCount(c.f, 2, c.u.Col(2), x);
      WithColCount(c.d, 2, c.f.Col(2), x);
      WithColCount(c.b, 0, c.d.Col(2).Reversed(), x);
      WithColCount(c.u, 2, c.b.Col(0).Reversed(), x);
    }
  }
}
