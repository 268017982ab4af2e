/** The grid-level steps every move repeats in place: reading and writing one row or one column
    of a 3×3 array, the copy-then-rotate loops, and building a fresh one-colour grid. */
module Grids {
  import opened CubeTypes

  /** A face grid in memory: a 3×3 array of colours. */
  predicate Is3x3(g: array2<Color>)
  {
    g.Length0 == 3 && g.Length1 == 3
  }

  /** The value a grid holds. */
  function FaceOf(g: array2<Color>): Face
    requires Is3x3(g)
    reads g
  {
    Face(Strip(g[0, 0], g[0, 1], g[0, 2]),
         Strip(g[1, 0], g[1, 1], g[1, 2]),
         Strip(g[2, 0], g[2, 1], g[2, 2]))
  }

  /** Row `i` of a grid, copied out as three colours. */
  function RowOf(g: array2<Color>, i: Idx): (s: Strip)
    requires Is3x3(g)
    reads g
    ensures s == FaceOf(g).Row(i)
  {
    Strip(g[i, 0], g[i, 1], g[i, 2])
  }

  /** Column `j` of a grid, copied out top-down as three colours. */
  function ColumnOf(g: array2<Color>, j: Idx): (s: Strip)
    requires Is3x3(g)
    reads g
    ensures s == FaceOf(g).Col(j)
  {
    Strip(g[0, j], g[1, j], g[2, j])
  }

  /** `createFace`: a new grid whose nine cells hold `c`. */
  method CreateFace(c: Color) returns (g: array2<Color>)
    ensures fresh(g) && Is3x3(g)
    ensures FaceOf(g) == Uniform(c)
  {
    g := new Color[3, 3]((i, j) => c);
  }

  /** `face.map((row) => [...row])`: a new grid with the same cells. */
  method CopyGrid(g: array2<Color>) returns (h: array2<Color>)
    requires Is3x3(g)
    ensures fresh(h) && Is3x3(h)
    ensures FaceOf(h) == FaceOf(g)
  {
    h := new Color[3, 3]((i, j) requires 0 <= i < 3 && 0 <= j < 3 reads g => g[i, j]);
  }

  /** Three cell writes down column `j`: `g[0][j] = s[0]; g[1][j] = s[1]; g[2][j] = s[2]`. */
  method WriteColumn(g: array2<Color>, j: Idx, s: Strip)
    requires Is3x3(g)
    modifies g
    ensures FaceOf(g) == old(FaceOf(g)).WithCol(j, s)
  {
    g[0, j] := s.c0;
    g[1, j] := s.c1;
    g[2, j] := s.c2;
  }

  /** Replacing row `i` by the colours `s` (the program assigns a row array into the slot). */
  method WriteRow(g: array2<Color>, i: Idx, s: Strip)
    requires Is3x3(g)
    modifies g
    ensures FaceOf(g) == old(FaceOf(g)).WithRow(i, s)
  {
    g[i, 0] := s.c0;
    g[i, 1] := s.c1;
    g[i, 2] := s.c2;
  }

  /** The clockwise loop: copy the grid, then `g[j][2 - i] = old[i][j]` for every cell. */
  method RotateClockwise(g: array2<Color>)
    requires Is3x3(g)
    modifies g
    ensures FaceOf(g) == old(FaceOf(g)).Clockwise()
  {
    var prev := CopyGrid(g);
    for i := 0 to 3
      modifies g
      invariant forall p, q :: 0 <= p < i && 0 <= q < 3 ==> g[q, 2 - p] == prev[p, q]
    {
      for j := 0 to 3
        modifies g
        invariant forall p, q :: 0 <= p < i && 0 <= q < 3 ==> g[q, 2 - p] == prev[p, q]
        invariant forall q :: 0 <= q < j ==> g[q, 2 - i] == prev[i, q]
      {
        g[j, 2 - i] := prev[i, j];
      }
    }
    assert FaceOf(g) == FaceOf(prev).Clockwise();
  }

  /** The anticlockwise loop: copy the grid, then `g[2 - j][i] = old[i][j]` for every cell. */
  method RotateAnticlockwise(g: array2<Color>)
    requires Is3x3(g)
    modifies g
    ensures FaceOf(g) == old(FaceOf(g)).Anticlockwise()
  {
    var prev := CopyGrid(g);
    for i := 0 to 3
      modifies g
      invariant forall p, q :: 0 <= p < i && 0 <= q < 3 ==> g[2 - q, p] == prev[p, q]
    {
      for j := 0 to 3
        modifies g
        invariant forall p, q :: 0 <= p < i && 0 <= q < 3 ==> g[2 - q, p] == prev[p, q]
        invariant forall q :: 0 <= q < j ==> g[2 - q, i] == prev[i, q]
      {
        g[2 - j, i] := prev[i, j];
      }
    }
    assert FaceOf(g) == FaceOf(prev).Anticlockwise();
  }
}
