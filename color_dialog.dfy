/** The two lookup tables of the colour dialog (components/ColorDialog.tsx): the letter a user
    types for a sticker and the colour it stands for. Both tables are keyed by strings. */
module ColorCodes {
  import opened CubeTypes

  /** The letter of each colour, as `colorToChar` stores it. */
  function Code(c: Color): string
  {
    match c
    case Red => "r"
    case Yellow => "y"
    case Blue => "b"
    case Green => "g"
    case White => "w"
    case Orange => "o"
  }

  /** `charToColor[key]`: the colour a typed key stands for; only the six lower-case letters
      have an entry. */
  function CharToColor(key: string): (r: Option<Color>)
    ensures r.Some? ==> Code(r.value) == key
    ensures r.None? <==> forall c :: Code(c) != key
  {
    if key == "r" then Some(Red)
    else if key == "y" then Some(Yellow)
    else if key == "b" then Some(Blue)
    else if key == "g" then Some(Green)
    else if key == "w" then Some(White)
    else if key == "o" then Some(Orange)
    else None
  }

  /** `colorToChar[name]`: the letter of a colour given by its name; any other string has no
      entry. */
  function ColorToChar(name: string): (r: Option<string>)
    ensures forall c :: Name(c) == name ==> r == Some(Code(c))
    ensures r.None? <==> name !in {"red", "yellow", "blue", "green", "white", "orange"}
  {
    if name == "red" then Some("r")
    else if name == "yellow" then Some("y")
    else if name == "blue" then Some("b")
    else if name == "green" then Some("g")
    else if name == "white" then Some("w")
    else if name == "orange" then Some("o")
    else None
  }

  /** Looking a key up and then the colour's letter gives the key back. */
  lemma KeyRoundTrip(key: string)
    requires CharToColor(key).Some?
    ensures ColorToChar(Name(CharToColor(key).value)) == Some(key)
  {
  }

  /** Looking a colour's letter up gives the colour back. */
  lemma ColorRoundTrip(c: Color)
    ensures ColorToChar(Name(c)).Some?
    ensures CharToColor(ColorToChar(Name(c)).value) == Some(c)
  {
  }

  /** The keys of `charToColor` are exactly r, y, b, g, w and o, and its values are exactly the
      six colours, each once. */
  lemma CharToColorTable(key: string, c: Color)
    ensures CharToColor(key).Some? <==> key in {"r", "y", "b", "g", "w", "o"}
    ensures CharToColor(Code(c)) == Some(c)
  {
  }

  /** The dialog's hint advertises upper-case letters, but an upper-case key has no entry. */
  lemma UpperCaseHasNoEntry(ch: char)
    requires 'A' <= ch <= 'Z'
    ensures CharToColor([ch]).None?
  {
  }
}
