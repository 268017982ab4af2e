/** Colours, face names and the 3×3 face grids of a cube, as values. */
module CubeTypes {

  datatype Option<T> = None | Some(value: T)

  /** The six sticker colours; the type is closed. */
  datatype Color = Red | Orange | Blue | Green | Yellow | White

  /** The six faces of the cube: Up, Down, Front, Back, Left, Right. */
  datatype FaceId = U | D | F | B | L | R

  /** A row or column index into a 3×3 grid. */
  type Idx = i: int | 0 <= i < 3

  /** The colour's name as the program spells it. */
  function Name(c: Color): string
  {
    match c
    case Red => "red"
    case Orange => "orange"
    case Blue => "blue"
    case Green => "green"
    case Yellow => "yellow"
    case White => "white"
  }

  /** Three stickers in a line: one row or one column of a grid. */
  datatype Strip = Strip(c0: Color, c1: Color, c2: Color) {

    function Get(k: Idx): Color
    {
      if k == 0 then c0 else if k == 1 then c1 else c2
    }

    function With(k: Idx, c: Color): Strip
    {
      if k == 0 then this.(c0 := c) else if k == 1 then this.(c1 := c) else this.(c2 := c)
    }

    function Reversed(): Strip
    {
      Strip(c2, c1, c0)
    }

    /** How many of the three stickers are `x`. */
    function Count(x: Color): nat
    {
      (if c0 == x then 1 else 0) + (if c1 == x then 1 else 0) + (if c2 == x then 1 else 0)
    }
  }

  /** A 3×3 grid of colours (a `Face`), stored row by row; `At(i, j)` is `face[i][j]`. */
  datatype Face = Face(row0: Strip, row1: Strip, row2: Strip) {

    function Row(i: Idx): Strip
    {
      if i == 0 then row0 else if i == 1 then row1 else row2
    }

    function At(i: Idx, j: Idx): Color
    {
      Row(i).Get(j)
    }

    function Col(j: Idx): Strip
    {
      Strip(row0.Get(j), row1.Get(j), row2.Get(j))
    }

    function Center(): Color
    {
      row1.c1
    }

    function WithRow(i: Idx, s: Strip): Face
    {
      if i == 0 then this.(row0 := s) else if i == 1 then this.(row1 := s) else this.(row2 := s)
    }

    function WithCol(j: Idx, s: Strip): Face
    {
      Face(row0.With(j, s.c0), row1.With(j, s.c1), row2.With(j, s.c2))
    }

    /** The grid a clockwise quarter turn leaves: row k of the result is column k read bottom-up. */
    function Clockwise(): Face
    {
      Face(Col(0).Reversed(), Col(1).Reversed(), Col(2).Reversed())
    }

    /** The grid an anticlockwise quarter turn leaves: row k of the result is column 2-k read top-down. */
    function Anticlockwise(): Face
    {
      Face(Col(2), Col(1), Col(0))
    }

    /** How many of the nine stickers are `x`. */
    function Count(x: Color): nat
    {
      row0.Count(x) + row1.Count(x) + row2.Count(x)
    }
  }

  /** A grid whose nine cells all hold `c`. */
  function Uniform(c: Color): (g: Face)
    ensures forall i: Idx, j: Idx :: g.At(i, j) == c
  {
    Face(Strip(c, c, c), Strip(c, c, c), Strip(c, c, c))
  }

  /** True when every cell of `g` holds `c`: the tests' `face.flat().every(x => x === c)`. */
  predicate AllOf(g: Face, c: Color)
  {
    forall i: Idx, j: Idx :: g.At(i, j) == c
  }

  /** The position of one sticker: a face and a cell of its grid. */
  datatype Coord = Coord(face: FaceId, i: Idx, j: Idx)

  /** The six grids of a cube, one per face (the `faces` record). */
  datatype Cube = Cube(u: Face, d: Face, f: Face, b: Face, l: Face, r: Face) {

    function Get(id: FaceId): Face
    {
      match id
      case U => u
      case D => d
      case F => f
      case B => b
      case L => l
      case R => r
    }

    function With(id: FaceId, g: Face): Cube
    {
      match id
      case U => this.(u := g)
      case D => this.(d := g)
      case F => this.(f := g)
      case B => this.(b := g)
      case L => this.(l := g)
      case R => this.(r := g)
    }

    function Sticker(s: Coord): Color
    {
      Get(s.face).At(s.i, s.j)
    }

    /** How many of the 54 stickers are `x`. */
    function Count(x: Color): nat
    {
      u.Count(x) + d.Count(x) + f.Count(x) + b.Count(x) + l.Count(x) + r.Count(x)
    }

    /** The six centre stickers, in the order U, D, F, B, L, R. */
    function Centres(): seq<Color>
    {
      [u.Center(), d.Center(), f.Center(), b.Center(), l.Center(), r.Center()]
    }
  }

  /** The write the rotation loops perform, `new[j][2-i] = old[i][j]`, is what `Clockwise` gives. */
  lemma ClockwiseAt(g: Face, i: Idx, j: Idx)
    ensures g.Clockwise().At(j, 2 - i) == g.At(i, j)
  {
  }

  /** The anticlockwise loops write `new[2-j][i] = old[i][j]`; `Anticlockwise` gives the same. */
  lemma AnticlockwiseAt(g: Face, i: Idx, j: Idx)
    ensures g.Anticlockwise().At(2 - j, i) == g.At(i, j)
  {
  }

  /** The two rotations undo each other, four clockwise turns are the identity, and a
      rotation keeps the centre and the colours of the grid. */
  lemma RotationLaws(g: Face)
    ensures g.Clockwise().Anticlockwise() == g
    ensures g.Anticlockwise().Clockwise() == g
    ensures g.Clockwise().Clockwise().Clockwise().Clockwise() == g
    ensures g.Anticlockwise().Anticlockwise().Anticlockwise().Anticlockwise() == g
    ensures g.Clockwise().Center() == g.Center() && g.Anticlockwise().Center() == g.Center()
  {
  }

  /** Reading a strip backwards keeps its colours. */
  lemma ReversedCount(s: Strip, x: Color)
    ensures s.Reversed().Count(x) == s.Count(x)
  {
  }

  /** Overwriting one sticker of a strip trades it for the new one. */
  lemma StripWithCount(s: Strip, k: Idx, c: Color, x: Color)
    ensures s.With(k, c).Count(x) + (if s.Get(k) == x then 1 else 0) ==
            s.Count(x) + (if c == x then 1 else 0)
  {
    if k == 0 {
      assert s.With(k, c) == Strip(c, s.c1, s.c2);
    } else if k == 1 {
      assert s.With(k, c) == Strip(s.c0, c, s.c2);
    } else {
      assert s.With(k, c) == Strip(s.c0, s.c1, c);
    }
  }

  /** Replacing column `j` by `s` trades that column's stickers for those of `s`. */
  lemma WithColCount(g: Face, j: Idx, s: Strip, x: Color)
    ensures g.WithCol(j, s).Count(x) + g.Col(j).Count(x) == g.Count(x) + s.Count(x)
  {
    var h := g.WithCol(j, s);
    assert h == Face(g.row0.With(j, s.c0), g.row1.With(j, s.c1), g.row2.With(j, s.c2));
    StripWithCount(g.row0, j, s.c0, x);
    StripWithCount(g.row1, j, s.c1, x);
    StripWithCount(g.row2, j, s.c2, x);
  }

  /** Replacing row `i` by `s` trades that row's stickers for those of `s`. */
  lemma WithRowCount(g: Face, i: Idx, s: Strip, x: Color)
    ensures g.WithRow(i, s).Count(x) + g.Row(i).Count(x) == g.Count(x) + s.Count(x)
  {
    if i == 0 {
      assert g.WithRow(i, s) == Face(s, g.row1, g.row2);
    } else if i == 1 {
      assert g.WithRow(i, s) == Face(g.row0, s, g.row2);
    } else {
      assert g.WithRow(i, s) == Face(g.row0, g.row1, s);
    }
  }

  /** A clockwise turn of a grid keeps how many stickers of each colour it holds. */
  lemma ClockwiseCount(g: Face, x: Color)
    ensures g.Clockwise().Count(x) == g.Count(x)
  {
  }

  /** An anticlockwise turn of a grid keeps how many stickers of each colour it holds. */
  lemma AnticlockwiseCount(g: Face, x: Color)
    ensures g.Anticlockwise().Count(x) == g.Count(x)
  {
  }
}
