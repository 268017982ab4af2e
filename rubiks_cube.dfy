/** The cube object: six named 3×3 grids that the moves rewrite in place. */
module RubiksCubes {
  import opened CubeTypes
  import opened Grids

  /** The colour scheme of a solved cube: U yellow, D white, F red, B orange, L blue, R green. */
  function SolvedColor(id: FaceId): Color
  {
    match id
    case U => Yellow
    case D => White
    case F => Red
    case B => Orange
    case L => Blue
    case R => Green
  }

  /** The solved cube as a value. */
  function SolvedCube(): Cube
  {
    Cube(Uniform(Yellow), Uniform(White), Uniform(Red), Uniform(Orange), Uniform(Blue), Uniform(Green))
  }

  /** Every face of the solved cube is one colour, the face's own, and no two faces share one. */
  lemma SolvedScheme(id: FaceId, other: FaceId)
    ensures AllOf(SolvedCube().Get(id), SolvedColor(id))
    ensures id != other ==> SolvedColor(id) != SolvedColor(other)
  {
  }

  /** The order in which `findFaceWithCenterColor` looks at the centres. */
  function SearchRank(id: FaceId): nat
  {
    match id
    case U => 0
    case D => 1
    case F => 2
    case B => 3
    case L => 4
    case R => 5
  }

  /** Six grids of which no two are the same grid. */
  predicate Distinct6<T(==)>(u: T, d: T, f: T, b: T, l: T, r: T)
  {
    u != d && u != f && u != b && u != l && u != r &&
    d != f && d != b && d != l && d != r &&
    f != b && f != l && f != r &&
    b != l && b != r &&
    l != r
  }

  /** The grid given, else the default. */
  function Pick(x: Option<array2<Color>>, default: array2<Color>): array2<Color>
  {
    if x.Some? then x.value else default
  }

  /** An optional grid that, when present, is 3×3. */
  predicate Fits(x: Option<array2<Color>>)
  {
    x.None? || Is3x3(x.value)
  }

  /** Two optional grids that are not the same grid. */
  predicate Apart(x: Option<array2<Color>>, y: Option<array2<Color>>)
  {
    x.None? || y.None? || x.value != y.value
  }

  /** The constructor's argument, `Partial<Faces>`: a grid for some of the six faces. */
  datatype PartialFaces = PartialFaces(u: Option<array2<Color>>, d: Option<array2<Color>>,
                                       f: Option<array2<Color>>, b: Option<array2<Color>>,
                                       l: Option<array2<Color>>, r: Option<array2<Color>>)
  {
    /** Every grid given is 3×3 and no grid is given for two faces. */
    predicate WellFormed()
    {
      Fits(u) && Fits(d) && Fits(f) && Fits(b) && Fits(l) && Fits(r) &&
      Apart(u, d) && Apart(u, f) && Apart(u, b) && Apart(u, l) && Apart(u, r) &&
      Apart(d, f) && Apart(d, b) && Apart(d, l) && Apart(d, r) &&
      Apart(f, b) && Apart(f, l) && Apart(f, r) &&
      Apart(b, l) && Apart(b, r) &&
      Apart(l, r)
    }
  }

  /** `x` is none of the grids `faces` gives. */
  predicate NotGiven(faces: PartialFaces, x: array2<Color>)
  {
    Apart(faces.u, Some(x)) && Apart(faces.d, Some(x)) && Apart(faces.f, Some(x)) &&
    Apart(faces.b, Some(x)) && Apart(faces.l, Some(x)) && Apart(faces.r, Some(x))
  }

  /** No face given: the argument of `new RubiksCube()`. */
  const NoFaces := PartialFaces(None, None, None, None, None, None)

  /** Spreading distinct grids over six distinct defaults none of which is given keeps the six
      faces apart. */
  lemma SpreadDistinct(faces: PartialFaces, u: array2<Color>, d: array2<Color>, f: array2<Color>,
                       b: array2<Color>, l: array2<Color>, r: array2<Color>)
    requires faces.WellFormed() && Distinct6(u, d, f, b, l, r)
    requires NotGiven(faces, u) && NotGiven(faces, d) && NotGiven(faces, f)
    requires NotGiven(faces, b) && NotGiven(faces, l) && NotGiven(faces, r)
    ensures Distinct6(Pick(faces.u, u), Pick(faces.d, d), Pick(faces.f, f),
                      Pick(faces.b, b), Pick(faces.l, l), Pick(faces.r, r))
  {
  }

  /** The six `createFace` calls of the constructor: new grids in the solved colours. */
  method SolvedGrids() returns (u: array2<Color>, d: array2<Color>, f: array2<Color>,
                                b: array2<Color>, l: array2<Color>, r: array2<Color>)
    ensures fresh(u) && fresh(d) && fresh(f) && fresh(b) && fresh(l) && fresh(r)
    ensures Distinct6(u, d, f, b, l, r)
    ensures Is3x3(u) && Is3x3(d) && Is3x3(f) && Is3x3(b) && Is3x3(l) && Is3x3(r)
    ensures FaceOf(u) == Uniform(Yellow) && FaceOf(d) == Uniform(White)
    ensures FaceOf(f) == Uniform(Red) && FaceOf(b) == Uniform(Orange)
    ensures FaceOf(l) == Uniform(Blue) && FaceOf(r) == Uniform(Green)
  {
    u := CreateFace(Yellow);
    d := CreateFace(White);
    f := CreateFace(Red);
    b := CreateFace(Orange);
    l := CreateFace(Blue);
    r := CreateFace(Green);
  }

  class RubiksCube {
    var U: array2<Color>
    var D: array2<Color>
    var F: array2<Color>
    var B: array2<Color>
    var L: array2<Color>
    var R: array2<Color>

    /** Every face is a 3×3 grid and no grid is shared by two faces. */
    ghost predicate Valid()
      reads this
    {
      Is3x3(U) && Is3x3(D) && Is3x3(F) && Is3x3(B) && Is3x3(L) && Is3x3(R) &&
      Distinct6(U, D, F, B, L, R)
    }

    /** The six grids. */
    function Repr(): set<object>
      reads this
    {
      {U, D, F, B, L, R}
    }

    /** `faces[id]`. */
    function Grid(id: FaceId): array2<Color>
      reads this
    {
      match id
      case U => U
      case D => D
      case F => F
      case B => B
      case L => L
      case R => R
    }

    /** `faces[s.face][s.i][s.j]`: one sticker. */
    function At(s: Coord): (x: Color)
      requires Valid()
      reads this, U, D, F, B, L, R
      ensures x == State().Sticker(s)
    {
      Grid(s.face)[s.i, s.j]
    }

    /** The colours the cube holds, as a value. */
    ghost function State(): Cube
      requires Valid()
      reads this, U, D, F, B, L, R
    {
      Cube(FaceOf(U), FaceOf(D), FaceOf(F), FaceOf(B), FaceOf(L), FaceOf(R))
    }

    /** The constructor: six grids in the solved colour scheme, of which every face `faces`
        names is replaced by the grid given for it (the grid itself, not a copy). */
    constructor (faces: PartialFaces)
      requires faces.WellFormed()
      ensures Valid()
      ensures faces.u.Some? ==> U == faces.u.value
      ensures faces.d.Some? ==> D == faces.d.value
      ensures faces.f.Some? ==> F == faces.f.value
      ensures faces.b.Some? ==> B == faces.b.value
      ensures faces.l.Some? ==> L == faces.l.value
      ensures faces.r.Some? ==> R == faces.r.value
      ensures faces.u.None? ==> fresh(U) && FaceOf(U) == Uniform(Yellow)
      ensures faces.d.None? ==> fresh(D) && FaceOf(D) == Uniform(White)
      ensures faces.f.None? ==> fresh(F) && FaceOf(F) == Uniform(Red)
      ensures faces.b.None? ==> fresh(B) && FaceOf(B) == Uniform(Orange)
      ensures faces.l.None? ==> fresh(L) && FaceOf(L) == Uniform(Blue)
      ensures faces.r.None? ==> fresh(R) && FaceOf(R) == Uniform(Green)
    {
      var u, d, f, b, l, r := SolvedGrids();
      SpreadDistinct(faces, u, d, f, b, l, r);
      U, D, F, B, L, R := Pick(faces.u, u), Pick(faces.d, d), Pick(faces.f, f),
                          Pick(faces.b, b), Pick(faces.l, l), Pick(faces.r, r);
    }

    /** `solved()`: a new cube with the solved colour scheme. */
    static method Solved() returns (c: RubiksCube)
      ensures fresh(c) && fresh(c.Repr()) && c.Valid()
      ensures c.State() == SolvedCube()
    {
      c := new RubiksCube(NoFaces);
    }

    /** `paintFace`: face `id` becomes a new grid of one colour; the other five are kept. */
    method PaintFace(id: FaceId, color: Color)
      requires Valid()
      modifies this
      ensures Valid() && fresh(Grid(id))
      ensures forall k :: k != id ==> Grid(k) == old(Grid(k))
      ensures State() == old(State()).With(id, Uniform(color))
    {
      var g := CreateFace(color);
      match id
      case U => U := g;
      case D => D := g;
      case F => F := g;
      case B => B := g;
      case L => L := g;
      case R => R := g;
    }

    /** `setFace`: face `id` becomes the grid given; the other five are kept. */
    method SetFace(id: FaceId, g: array2<Color>)
      requires Valid() && Is3x3(g)
      requires g == Grid(id) || g !in Repr()
      modifies this
      ensures Valid() && Grid(id) == g
      ensures forall k :: k != id ==> Grid(k) == old(Grid(k))
      ensures State() == old(State()).With(id, FaceOf(g))
    {
      match id
      case U => U := g;
      case D => D := g;
      case F => F := g;
      case B => B := g;
      case L => L := g;
      case R => R := g;
    }

    /** `findFaceWithCenterColor`: the first of U, D, F, B, L whose centre is `color`, and R
        when none of those five is, whatever R's own centre holds. */
    function FindFaceWithCenterColor(color: Color): (id: FaceId)
      requires Valid()
      reads this, Repr()
      ensures id != FaceId.R ==> State().Get(id).Center() == color
      ensures forall k :: SearchRank(k) < SearchRank(id) ==> State().Get(k).Center() != color
    {
      if U[1, 1] == color then FaceId.U
      else if D[1, 1] == color then FaceId.D
      else if F[1, 1] == color then FaceId.F
      else if B[1, 1] == color then FaceId.B
      else if L[1, 1] == color then FaceId.L
      else FaceId.R
    }

    /** `clone`: a cube with new grids holding the same colours. */
    method Clone() returns (c: RubiksCube)
      requires Valid()
      ensures fresh(c) && fresh(c.Repr()) && c.Valid()
      ensures c.State() == State()
    {
      var u := CopyGrid(U);
      var d := CopyGrid(D);
      var f := CopyGrid(F);
      var b := CopyGrid(B);
      var l := CopyGrid(L);
      var r := CopyGrid(R);
      c := new RubiksCube(PartialFaces(Some(u), Some(d), Some(f), Some(b), Some(l), Some(r)));
    }
  }

  /** On a solved cube the centre lookup finds each face by its own colour, and R only when
      R's colour is asked for. */
  lemma FindFaceOnSolved(cube: RubiksCube, id: FaceId)
    requires cube.Valid() && cube.State() == SolvedCube()
    ensures cube.FindFaceWithCenterColor(SolvedColor(id)) == id
  {
  }

  /** The lookup answers R for a colour no centre holds: the fall-through is not a match. */
  lemma FindFaceFallsBackToR(cube: RubiksCube, color: Color)
    requires cube.Valid()
    requires forall k :: cube.State().Get(k).Center() != color
    ensures cube.FindFaceWithCenterColor(color) == FaceId.R
    ensures cube.State().r.Center() != color
  {
    assert cube.State().Get(FaceId.R) == cube.State().r;
  }

  /** What the clone test checks: repainting the clone's front face leaves the original's front
      face as it was. */
  method RepaintClone(cube: RubiksCube, color: Color) returns (copy: RubiksCube)
    requires cube.Valid()
    ensures fresh(copy) && copy.Valid()
    ensures copy.State() == cube.State().With(FaceId.F, Uniform(color))
  {
    copy := cube.Clone();
    copy.PaintFace(FaceId.F, color);
  }
}
