/** The sticker map of the 3-D view (components/Cube3D.tsx): which face cell each visible side of
    each of the 27 cubelets shows, and the hex colour it is drawn in. */
module Cubelets {
  import opened CubeTypes

  /** A cubelet coordinate; the view enumerates -1, 0 and 1 on each axis. */
  type Axis = x: int | -1 <= x <= 1

  /** A side of a cubelet, as the keys of the colours record name them. */
  datatype Side = Front | Back | Right | Left | Top | Bottom

  /** One side of one cubelet. */
  datatype Spot = Spot(x: Axis, y: Axis, z: Axis, side: Side)

  /** The side lies on the outside of the cube: z = 1 for the front, z = -1 for the back, x = 1
      for the right, x = -1 for the left, y = 1 for the top and y = -1 for the bottom. */
  predicate Outward(p: Spot)
  {
    match p.side
    case Front => p.z == 1
    case Back => p.z == -1
    case Right => p.x == 1
    case Left => p.x == -1
    case Top => p.y == 1
    case Bottom => p.y == -1
  }

  /** Where the view draws a face cell: the cubelet and side that show sticker `s`. */
  function Placement(s: Coord): Spot
  {
    match s.face
    case F => Spot(s.j - 1, 1 - s.i, 1, Front)
    case B => Spot(1 - s.j, 1 - s.i, -1, Back)
    case R => Spot(1, 1 - s.i, 1 - s.j, Right)
    case L => Spot(-1, 1 - s.i, s.j - 1, Left)
    case U => Spot(s.j - 1, 1, s.i - 1, Top)
    case D => Spot(s.j - 1, -1, 1 - s.i, Bottom)
  }

  /** `getCubeletColors(x, y, z, faces)`: the colour of each outward side of the cubelet. */
  function CubeletColors(x: Axis, y: Axis, z: Axis, c: Cube): (m: map<Side, Color>)
    ensures forall side :: side in m <==> Outward(Spot(x, y, z, side))
  {
    var front := if z == 1 then map[Front := c.f.At(1 - y, 1 + x)] else map[];
    var back := if z == -1 then front[Back := c.b.At(1 - y, 1 - x)] else front;
    var right := if x == 1 then back[Right := c.r.At(1 - y, 1 - z)] else back;
    var left := if x == -1 then right[Left := c.l.At(1 - y, 1 + z)] else right;
    var top := if y == 1 then left[Top := c.u.At(1 + z, 1 + x)] else left;
    if y == -1 then top[Bottom := c.d.At(1 - z, 1 + x)] else top
  }

  /** Where each face's cell (i, j) is shown, one face at a time. */
  lemma FrontShown(c: Cube, i: Idx, j: Idx)
    ensures var m := CubeletColors(j - 1, 1 - i, 1, c); Front in m && m[Front] == c.f.At(i, j)
  {
  }

  lemma BackShown(c: Cube, i: Idx, j: Idx)
    ensures var m := CubeletColors(1 - j, 1 - i, -1, c); Back in m && m[Back] == c.b.At(i, j)
  {
  }

  lemma RightShown(c: Cube, i: Idx, j: Idx)
    ensures var m := CubeletColors(1, 1 - i, 1 - j, c); Right in m && m[Right] == c.r.At(i, j)
  {
  }

  lemma LeftShown(c: Cube, i: Idx, j: Idx)
    ensures var m := CubeletColors(-1, 1 - i, j - 1, c); Left in m && m[Left] == c.l.At(i, j)
  {
  }

  lemma TopShown(c: Cube, i: Idx, j: Idx)
    ensures var m := CubeletColors(j - 1, 1, i - 1, c); Top in m && m[Top] == c.u.At(i, j)
  {
  }

  lemma BottomShown(c: Cube, i: Idx, j: Idx)
    ensures var m := CubeletColors(j - 1, -1, 1 - i, c); Bottom in m && m[Bottom] == c.d.At(i, j)
  {
  }

  /** The cubelet side a sticker is placed on shows that sticker's colour. */
  lemma PlacedStickerShown(c: Cube, s: Coord)
    ensures var p := Placement(s);
            p.side in CubeletColors(p.x, p.y, p.z, c) && CubeletColors(p.x, p.y, p.z, c)[p.side] == c.Sticker(s)
  {
    match s.face
    case F =>
      assert c.Sticker(s) == c.f.At(s.i, s.j);
      FrontShown(c, s.i, s.j);
    case B =>
      assert c.Sticker(s) == c.b.At(s.i, s.j);
      BackShown(c, s.i, s.j);
    case R =>
      assert c.Sticker(s) == c.r.At(s.i, s.j);
      RightShown(c, s.i, s.j);
    case L =>
      assert c.Sticker(s) == c.l.At(s.i, s.j);
      LeftShown(c, s.i, s.j);
    case U =>
      assert c.Sticker(s) == c.u.At(s.i, s.j);
      TopShown(c, s.i, s.j);
    case D =>
      assert c.Sticker(s) == c.d.At(s.i, s.j);
      BottomShown(c, s.i, s.j);
  }

  /** Every sticker is drawn on an outward side, and no two stickers are drawn on the same one. */
  lemma PlacementInjective(s: Coord, t: Coord)
    ensures Outward(Placement(s))
    ensures Placement(s) == Placement(t) ==> s == t
  {
  }

  /** Every outward side of every cubelet shows some sticker. */
  lemma PlacementOnto(p: Spot)
    requires Outward(p)
    ensures exists s :: Placement(s) == p
  {
    var s := match p.side
      case Front => Coord(FaceId.F, 1 - p.y, p.x + 1)
      case Back => Coord(FaceId.B, 1 - p.y, 1 - p.x)
      case Right => Coord(FaceId.R, 1 - p.y, 1 - p.z)
      case Left => Coord(FaceId.L, 1 - p.y, p.z + 1)
      case Top => Coord(FaceId.U, p.z + 1, p.x + 1)
      case Bottom => Coord(FaceId.D, 1 - p.z, p.x + 1);
    assert Placement(s) == p;
  }

  /** Over the 27 cubelets each of the 54 stickers is shown exactly once: every shown side
      holds the colour of exactly one sticker, the one placed there. */
  lemma EachStickerShownOnce(c: Cube, p: Spot)
    requires p.side in CubeletColors(p.x, p.y, p.z, c)
    ensures exists s :: Placement(s) == p && CubeletColors(p.x, p.y, p.z, c)[p.side] == c.Sticker(s)
    ensures forall s, t :: Placement(s) == p && Placement(t) == p ==> s == t
  {
    PlacementOnto(p);
    var s :| Placement(s) == p;
    PlacedStickerShown(c, s);
    forall s1, t1 | Placement(s1) == p && Placement(t1) == p
      ensures s1 == t1
    {
      PlacementInjective(s1, t1);
    }
  }

  /** The centre of the cube has no outward side and shows nothing. */
  lemma CoreShowsNothing(c: Cube)
    ensures CubeletColors(0, 0, 0, c) == map[]
  {
  }

  /** `getColorHex(name)`: the hex colour of a colour name, black for any other string. */
  function ColorHex(name: string): (hex: string)
    ensures forall c :: Name(c) == name ==> hex != "#000000"
    ensures hex == "#000000" <==> name !in {"white", "yellow", "red", "orange", "blue", "green"}
  {
    if name == "white" then "#ffffff"
    else if name == "yellow" then "#ffff00"
    else if name == "red" then "#ff0000"
    else if name == "orange" then "#ff8000"
    else if name == "blue" then "#0000ff"
    else if name == "green" then "#00ff00"
    else "#000000"
  }

  /** The drawing colour of each sticker colour. */
  function Hex(c: Color): string
  {
    match c
    case White => "#ffffff"
    case Yellow => "#ffff00"
    case Red => "#ff0000"
    case Orange => "#ff8000"
    case Blue => "#0000ff"
    case Green => "#00ff00"
  }

  /** Looking a colour up by its name gives that colour's drawing colour, which is never black. */
  lemma ColorHexOfName(c: Color)
    ensures ColorHex(Name(c)) == Hex(c)
    ensures Hex(c) != "#000000"
  {
  }

  /** The six colours are drawn in six different hex colours. */
  lemma HexDistinct(c: Color, d: Color)
    requires c != d
    ensures ColorHex(Name(c)) != ColorHex(Name(d))
  {
  }
}
