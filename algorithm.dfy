/** `Algorithm` (utils/commands/algorithm.ts): an ordered list of move objects that is itself a
    move. Its `execute` runs the list front to back, its `undo` calls every move's own `undo`
    back to front, and `toString` prints the list in cube notation. */
module Algorithms {
  import opened CubeTypes
  import opened RubiksCubes
  import opened Moves

  /** The `prime` flag of every move object in the list. */
  function Flags(ms: seq<Move>): (p: map<Move, bool>)
    reads ms
    ensures forall m :: m in ms ==> m in p
  {
    map m | m in ms :: m.prime
  }

  /** The list read as move values, given every object's flag. */
  function Turns(ms: seq<Move>, p: map<Move, bool>): (ts: seq<Turn>)
    requires forall m :: m in ms ==> m in p
    ensures |ts| == |ms|
    ensures forall i :: 0 <= i < |ms| ==> ts[i] == Turn(ms[i].kind, p[ms[i]])
  {
    if ms == [] then [] else [Turn(ms[0].kind, p[ms[0]])] + Turns(ms[1..], p)
  }

  /** The moves of the list as values, in order. */
  function Values(ms: seq<Move>): (ts: seq<Turn>)
    reads ms
    ensures |ts| == |ms|
    ensures forall i :: 0 <= i < |ms| ==> ts[i] == ms[i].Value()
  {
    if ms == [] then [] else [ms[0].Value()] + Values(ms[1..])
  }

  /** The cube after the moves, in list order. */
  function Run(ts: seq<Turn>, c: Cube): Cube
  {
    if ts == [] then c else Run(ts[1..], Apply(ts[0], c))
  }

  /** Running `a ++ b` is running `a` and then `b`. */
  lemma {:induction false} RunAppend(a: seq<Turn>, b: seq<Turn>, c: Cube)
    ensures Run(a + b, c) == Run(b, Run(a, c))
  {
    if a == [] {
      assert a + b == b;
    } else {
      assert (a + b)[0] == a[0];
      assert (a + b)[1..] == a[1..] + b;
      RunAppend(a[1..], b, Apply(a[0], c));
    }
  }

  /** A run of moves keeps the number of stickers of each colour. */
  lemma {:induction false} RunCounts(ts: seq<Turn>, c: Cube, x: Color)
    ensures Run(ts, c).Count(x) == c.Count(x)
  {
    if ts != [] {
      ApplyCounts(ts[0], c, x);
      RunCounts(ts[1..], Apply(ts[0], c), x);
    }
  }

  /** The scramble R B' R F2 R' B R F2 R2, one value per move object of the list. */
  function Scramble(): (ts: seq<Turn>)
    ensures |ts| == 12
  {
    [Turn(RMove, false), Turn(BMove, true), Turn(RMove, false), Turn(FMove, false),
     Turn(FMove, false), Turn(RMove, true), Turn(BMove, false), Turn(RMove, false),
     Turn(FMove, false), Turn(FMove, false), Turn(RMove, false), Turn(RMove, false)]
  }

  /** Four moves in a row, as nested `Apply`s. */
  lemma RunFour(t0: Turn, t1: Turn, t2: Turn, t3: Turn, c: Cube)
    ensures Run([t0, t1, t2, t3], c) == Apply(t3, Apply(t2, Apply(t1, Apply(t0, c))))
  {
    var ts := [t0, t1, t2, t3];
    var c1 := Apply(t0, c);
    var c2 := Apply(t1, c1);
    var c3 := Apply(t2, c2);
    assert ts[1..] == [t1, t2, t3] && Run(ts, c) == Run([t1, t2, t3], c1);
    assert [t1, t2, t3][1..] == [t2, t3] && Run([t1, t2, t3], c1) == Run([t2, t3], c2);
    assert [t2, t3][1..] == [t3] && Run([t2, t3], c2) == Run([t3], c3);
    assert [t3][1..] == [] && Run([t3], c3) == Apply(t3, c3);
  }

  /** The cube R B' R F leaves on a solved cube. */
  function AfterFirstFour(): Cube
  {
    Cube(Face(Strip(Blue, Blue, White), Strip(Yellow, Yellow, White), Strip(Blue, Blue, Blue)),
         Face(Strip(Red, Green, Green), Strip(White, White, Orange), Strip(Green, Green, Orange)),
         Face(Strip(Red, Red, Red), Strip(Red, Red, Red), Strip(Green, Orange, Orange)),
         Face(Strip(Red, Orange, Orange), Strip(Red, Orange, Orange), Strip(Blue, Yellow, Yellow)),
         Face(Strip(White, Blue, White), Strip(White, Blue, White), Strip(Orange, Blue, Yellow)),
         Face(Strip(Yellow, Green, Green), Strip(Yellow, Green, Green), Strip(White, Yellow, Yellow)))
  }

  /** The cube the next four moves, F R' B R, leave after that. */
  function AfterSecondFour(): Cube
  {
    Cube(Face(Strip(Yellow, Yellow, White), Strip(Yellow, Yellow, White), Strip(Yellow, White, White)),
         Face(Strip(White, Yellow, Yellow), Strip(White, White, Yellow), Strip(White, White, Yellow)),
         Face(Strip(Green, Red, Red), Strip(Orange, Red, Red), Strip(Orange, Red, Orange)),
         Face(Strip(Red, Orange, Orange), Strip(Red, Orange, Orange), Strip(Blue, Orange, Orange)),
         Face(Strip(Blue, Blue, Red), Strip(Blue, Blue, Green), Strip(Blue, Blue, Green)),
         Face(Strip(Blue, Green, Green), Strip(Blue, Green, Green), Strip(Green, Green, Red)))
  }

  /** The cube the last four moves, F2 R2, leave after that: the whole scramble's result. */
  function AfterScramble(): Cube
  {
    Cube(Uniform(Yellow), Uniform(White),
         Face(Strip(Orange, Red, Blue), Strip(Red, Red, Red), Strip(Red, Red, Red)),
         Face(Strip(Green, Orange, Orange), Strip(Orange, Orange, Orange), Strip(Orange, Orange, Orange)),
         Face(Strip(Blue, Blue, Green), Strip(Blue, Blue, Blue), Strip(Blue, Blue, Blue)),
         Face(Strip(Red, Green, Red), Strip(Green, Green, Green), Strip(Green, Green, Green)))
  }

  /** The first four moves of the scramble take a solved cube to `AfterFirstFour()`. */
  lemma FirstFour()
    ensures Run(Scramble()[..4], SolvedCube()) == AfterFirstFour()
  {
    assert Scramble()[..4] == [Turn(RMove, false), Turn(BMove, true), Turn(RMove, false), Turn(FMove, false)];
    RunFour(Turn(RMove, false), Turn(BMove, true), Turn(RMove, false), Turn(FMove, false), SolvedCube());
  }

  /** The next four take `AfterFirstFour()` to `AfterSecondFour()`. */
  lemma SecondFour()
    ensures Run(Scramble()[4..8], AfterFirstFour()) == AfterSecondFour()
  {
    assert Scramble()[4..8] == [Turn(FMove, false), Turn(RMove, true), Turn(BMove, false), Turn(RMove, false)];
    RunFour(Turn(FMove, false), Turn(RMove, true), Turn(BMove, false), Turn(RMove, false), AfterFirstFour());
  }

  /** The last four take `AfterSecondFour()` to `AfterScramble()`. */
  lemma LastFour()
    ensures Run(Scramble()[8..], AfterSecondFour()) == AfterScramble()
  {
    assert Scramble()[8..] == [Turn(FMove, false), Turn(FMove, false), Turn(RMove, false), Turn(RMove, false)];
    RunFour(Turn(FMove, false), Turn(FMove, false), Turn(RMove, false), Turn(RMove, false), AfterSecondFour());
  }

  /** The scramble on a solved cube leaves U all yellow and D all white, while none of F, B, L
      and R is still one colour. The run is taken four moves at a time. */
  lemma ScrambleKeepsTopAndBottom()
    ensures var c := Run(Scramble(), SolvedCube());
            AllOf(c.u, Yellow) && AllOf(c.d, White) &&
            !AllOf(c.f, Red) && !AllOf(c.b, Orange) && !AllOf(c.l, Blue) && !AllOf(c.r, Green)
  {
    var ts := Scramble();
    assert ts[..4] + ts[4..] == ts;
    assert ts[4..8] + ts[8..] == ts[4..];
    RunAppend(ts[..4], ts[4..], SolvedCube());
    RunAppend(ts[4..8], ts[8..], Run(ts[..4], SolvedCube()));
    FirstFour();
    SecondFour();
    LastFour();
    var c := AfterScramble();
    assert c.f.At(0, 0) != Red;
    assert c.b.At(0, 0) != Orange;
    assert c.l.At(0, 2) != Blue;
    assert c.r.At(0, 0) != Green;
  }

  /** `undo` of the whole list as a value: the flags and the cube after calling every move's
      `undo` from the last move to the first. A move object listed twice is undone twice, the
      second time with the flag the first call left. */
  function UndoAll(ms: seq<Move>, p: map<Move, bool>, c: Cube): (r: (map<Move, bool>, Cube))
    requires forall m :: m in ms ==> m in p
    ensures r.0.Keys == p.Keys
  {
    if ms == [] then (p, c) else UndoNext(ms[0], UndoAll(ms[1..], p, c))
  }

  /** One move's `undo` on the flags and the cube: the move reads its own flag from the map and
      writes the flag it leaves back into it. */
  function UndoNext(m: Move, r: (map<Move, bool>, Cube)): (r': (map<Move, bool>, Cube))
    requires m in r.0
    ensures m in r'.0 && r'.0 == r.0[m := r'.0[m]]
  {
    var (t, c) := UndoStep(Turn(m.kind, r.0[m]), r.1);
    (r.0[m := t.prime], c)
  }

  /** A move's `undo`, stated against the flags map it reads from and writes to. */
  method UndoOne(m: Move, cube: RubiksCube, ghost r: (map<Move, bool>, Cube), ghost ms: seq<Move>)
    requires cube.Valid() && m in r.0 && m.prime == r.0[m] && cube.State() == r.1
    requires forall o :: o in ms ==> o in r.0 && o.prime == r.0[o]
    modifies m, cube, cube.Repr()
    ensures cube.Valid() && cube.Repr() == old(cube.Repr())
    ensures cube.State() == UndoNext(m, r).1
    ensures forall o :: o in ms ==> o in UndoNext(m, r).0 && o.prime == UndoNext(m, r).0[o]
  {
    m.Undo(cube);
  }

  /** Undoing the list from position `i` is undoing the rest and then move `i`. */
  lemma UndoAllFrom(ms: seq<Move>, i: nat, p: map<Move, bool>, c: Cube)
    requires i < |ms| && forall m :: m in ms ==> m in p
    ensures UndoAll(ms[i..], p, c) == UndoNext(ms[i], UndoAll(ms[i + 1..], p, c))
  {
    assert ms[i..][1..] == ms[i + 1..];
  }

  /** No move object is listed twice. */
  predicate Distinct(ms: seq<Move>)
  {
    forall i, j :: 0 <= i < j < |ms| ==> ms[i] != ms[j]
  }

  /** Every flag in `p` negated for the listed objects. */
  function Negated(ms: seq<Move>, p: map<Move, bool>): map<Move, bool>
    requires forall m :: m in ms ==> m in p
  {
    map m | m in p :: if m in ms then !p[m] else p[m]
  }

  /** When every move object is listed once and has the default `undo`, undoing the list right
      after executing it restores the cube, and every flag is left negated. */
  lemma {:induction false} UndoAllAfterRun(ms: seq<Move>, p: map<Move, bool>, c: Cube)
    requires forall m :: m in ms ==> m in p
    requires Distinct(ms)
    requires forall i :: 0 <= i < |ms| ==> !HasEmptyUndo(ms[i].kind)
    ensures UndoAll(ms, p, Run(Turns(ms, p), c)) == (Negated(ms, p), c)
  {
    if ms == [] {
      assert Negated(ms, p) == p;
    } else {
      var t := Turn(ms[0].kind, p[ms[0]]);
      var ts := Turns(ms, p);
      assert ts[1..] == Turns(ms[1..], p);
      assert Run(ts, c) == Run(ts[1..], Apply(t, c));
      assert Distinct(ms[1..]) by {
        forall i, j | 0 <= i < j < |ms[1..]|
          ensures ms[1..][i] != ms[1..][j]
        {
          assert ms[1..][i] == ms[i + 1] && ms[1..][j] == ms[j + 1];
        }
      }
      assert ms[0] !in ms[1..] by {
        forall i | 0 <= i < |ms[1..]|
          ensures ms[1..][i] != ms[0]
        {
          assert ms[1..][i] == ms[i + 1];
        }
      }
      UndoAllAfterRun(ms[1..], p, Apply(t, c));
      var p1 := Negated(ms[1..], p);
      assert UndoAll(ms, p, Run(ts, c)) == UndoNext(ms[0], (p1, Apply(t, c)));
      assert p1[ms[0]] == p[ms[0]];
      ApplyFlip(t, c);
      assert UndoStep(t, Apply(t, c)) == (Flip(t), c);
      NegatedFirst(ms, p);
    }
  }

  /** Negating the flags of a list is negating those of its tail, then the first one. */
  lemma NegatedFirst(ms: seq<Move>, p: map<Move, bool>)
    requires ms != [] && forall m :: m in ms ==> m in p
    ensures Negated(ms[1..], p)[ms[0] := !p[ms[0]]] == Negated(ms, p)
  {
    var p1 := Negated(ms[1..], p)[ms[0] := !p[ms[0]]];
    forall m | m in p
      ensures p1[m] == Negated(ms, p)[m]
    {
      assert m in ms <==> m == ms[0] || m in ms[1..];
    }
  }

  /** The token `toString` prints for one move: its letter, and `'` when primed. */
  function Token(t: Turn): string
  {
    [Letter(t.kind)] + (if t.prime then "'" else "")
  }

  /** The tokens of a list of moves, in order. */
  function Tokens(ts: seq<Turn>): (ss: seq<string>)
    ensures |ss| == |ts|
    ensures forall i :: 0 <= i < |ts| ==> ss[i] == Token(ts[i])
  {
    if ts == [] then [] else [Token(ts[0])] + Tokens(ts[1..])
  }

  /** The merge `toString` performs, scanning left to right: a token equal to the one after it
      is printed once with a `2` and both are consumed; any other token is kept. */
  function Merged(ss: seq<string>): seq<string>
  {
    if ss == [] then []
    else if |ss| >= 2 && ss[0] == ss[1] then [ss[0] + "2"] + Merged(ss[2..])
    else [ss[0]] + Merged(ss[1..])
  }

  /** `join(" ")`. */
  function Join(ss: seq<string>): string
  {
    if ss == [] then "" else if |ss| == 1 then ss[0] else ss[0] + " " + Join(ss[1..])
  }

  /** A token that is not itself a doubled one: non-empty, and not ending in `2`. */
  predicate Plain(s: string)
  {
    |s| >= 1 && s[|s| - 1] != '2'
  }

  /** Every move token is plain. */
  lemma TokenPlain(t: Turn)
    ensures Plain(Token(t))
  {
  }

  /** Reading a printed token list back: a token ending in `2` stands for the plain token
      twice. */
  function Expanded(ss: seq<string>): seq<string>
  {
    if ss == [] then []
    else if |ss[0]| >= 2 && ss[0][|ss[0]| - 1] == '2' then
      [ss[0][..|ss[0]| - 1], ss[0][..|ss[0]| - 1]] + Expanded(ss[1..])
    else [ss[0]] + Expanded(ss[1..])
  }

  /** The merge loses nothing: expanding the merged tokens gives the move tokens back. */
  lemma {:induction false} ExpandMerged(ss: seq<string>)
    requires forall i :: 0 <= i < |ss| ==> Plain(ss[i])
    ensures Expanded(Merged(ss)) == ss
  {
    if ss == [] {
    } else if |ss| >= 2 && ss[0] == ss[1] {
      var d := ss[0] + "2";
      assert d[..|d| - 1] == ss[0];
      assert ([d] + Merged(ss[2..]))[1..] == Merged(ss[2..]);
      assert forall i :: 0 <= i < |ss[2..]| ==> ss[2..][i] == ss[i + 2];
      ExpandMerged(ss[2..]);
      assert ss == [ss[0], ss[0]] + ss[2..];
    } else {
      assert ([ss[0]] + Merged(ss[1..]))[1..] == Merged(ss[1..]);
      assert forall i :: 0 <= i < |ss[1..]| ==> ss[1..][i] == ss[i + 1];
      ExpandMerged(ss[1..]);
      assert ss == [ss[0]] + ss[1..];
    }
  }

  /** The merge is taken pairwise from the left: three equal tokens print as the doubled
      token followed by the token (`U U U` prints as `U2 U`). */
  lemma ThreeInARow(x: string)
    ensures Merged([x, x, x]) == [x + "2", x]
  {
    MergedPair(x, [x]);
    MergedSingle(x, []);
    assert [x, x, x] == [x, x] + [x];
    assert Merged([]) == [];
  }

  /** Merging a pair of equal tokens in front of the rest. */
  lemma MergedPair(x: string, rest: seq<string>)
    ensures Merged([x, x] + rest) == [x + "2"] + Merged(rest)
  {
    assert ([x, x] + rest)[2..] == rest;
  }

  /** Keeping a token that differs from the next one. */
  lemma MergedSingle(x: string, rest: seq<string>)
    requires rest == [] || rest[0] != x
    ensures Merged([x] + rest) == [x] + Merged(rest)
  {
    assert ([x] + rest)[1..] == rest;
  }

  /** The shape of the scramble R B' R F F R' B R F F R R: with its five distinct tokens
      written `r`, `bp`, `f`, `rp`, `b`, it prints as R B' R F2 R' B R F2 R2, the two F F
      pairs and the final R R pair merged and nothing else. */
  lemma ScrambleShape(r: string, bp: string, f: string, rp: string, b: string)
    requires r != bp && r != f && f != rp && rp != b && b != r
    ensures Merged([r] + ([bp] + ([r] + ([f, f] + ([rp] + ([b] + ([r] + ([f, f] + ([r, r] + [])))))))))
         == [r] + ([bp] + ([r] + ([f + "2"] + ([rp] + ([b] + ([r] + ([f + "2"] + ([r + "2"] + []))))))))
  {
    assert Merged([]) == [];
    MergedPair(r, []);
    MergedPair(f, [r, r] + []);
    MergedSingle(r, [f, f] + ([r, r] + []));
    MergedSingle(b, [r] + ([f, f] + ([r, r] + [])));
    MergedSingle(rp, [b] + ([r] + ([f, f] + ([r, r] + []))));
    MergedPair(f, [rp] + ([b] + ([r] + ([f, f] + ([r, r] + [])))));
    MergedSingle(r, [f, f] + ([rp] + ([b] + ([r] + ([f, f] + ([r, r] + []))))));
    MergedSingle(bp, [r] + ([f, f] + ([rp] + ([b] + ([r] + ([f, f] + ([r, r] + [])))))));
    MergedSingle(r, [bp] + ([r] + ([f, f] + ([rp] + ([b] + ([r] + ([f, f] + ([r, r] + []))))))));
  }

  class Algorithm {
    var moves: seq<Move>
    /** The flag every move carries; an algorithm's own starts false and nothing sets it. */
    var prime: bool

    /** `new Algorithm(moves)`. */
    constructor (moves: seq<Move>)
      ensures this.moves == moves && !prime
    {
      this.moves := moves;
      prime := false;
    }

    /** The list as move values. */
    function Value(): seq<Turn>
      reads this, moves
    {
      Values(moves)
    }

    /** `get length()`. */
    function Length(): (n: nat)
      reads this
      ensures n == 0 <==> moves == []
    {
      |moves|
    }

    /** The length counts the move values the algorithm executes, one per move object. */
    lemma LengthCountsMoves()
      ensures Length() == |Value()|
      ensures forall k :: 0 <= k < Length() ==> Value()[k] == moves[k].Value()
    {
    }

    /** `execute(cube)`: every move's `execute`, in list order. */
    method Execute(cube: RubiksCube)
      requires cube.Valid()
      modifies cube, cube.Repr()
      ensures cube.Valid() && cube.Repr() == old(cube.Repr())
      ensures cube.State() == Run(old(Value()), old(cube.State()))
    {
      ghost var ts := Value();
      var i := 0;
      while i < |moves|
        invariant 0 <= i <= |moves|
        invariant cube.Valid() && cube.Repr() == old(cube.Repr())
        invariant Run(ts[i..], cube.State()) == Run(ts, old(cube.State()))
      {
        assert ts[i] == moves[i].Value();
        assert ts[i..][1..] == ts[i + 1..];
        moves[i].Execute(cube);
        i := i + 1;
      }
    }

    /** `addMove(move)`: the move is appended. */
    method AddMove(m: Move)
      modifies this`moves
      ensures moves == old(moves) + [m]
      ensures Length() == old(Length()) + 1
    {
      moves := moves + [m];
    }

    /** `addMoves(moves)`: the moves are appended, in order. */
    method AddMoves(ms: seq<Move>)
      modifies this`moves
      ensures moves == old(moves) + ms
    {
      moves := moves + ms;
    }

    /** `undo(cube)`: every move's own `undo`, from the last move to the first. The list itself
        and the algorithm's own flag are left as they were. */
    method Undo(cube: RubiksCube)
      requires cube.Valid()
      modifies moves, cube, cube.Repr()
      ensures cube.Valid() && cube.Repr() == old(cube.Repr())
      ensures moves == old(moves) && prime == old(prime)
      ensures cube.State() == UndoAll(moves, old(Flags(moves)), old(cube.State())).1
      ensures forall m :: m in moves ==> m.prime == UndoAll(moves, old(Flags(moves)), old(cube.State())).0[m]
    {
      ghost var p0 := Flags(moves);
      ghost var c0 := cube.State();
      ghost var r := (p0, c0);
      var i := |moves|;
      while i > 0
        invariant 0 <= i <= |moves|
        invariant cube.Valid() && cube.Repr() == old(cube.Repr())
        invariant r == UndoAll(moves[i..], p0, c0)
        invariant cube.State() == r.1
        invariant forall m :: m in moves ==> m in r.0 && m.prime == r.0[m]
      {
        i := i - 1;
        UndoAllFrom(moves, i, p0, c0);
        UndoOne(moves[i], cube, r, moves);
        r := UndoNext(moves[i], r);
      }
      assert moves[0..] == moves;
    }

    /** `clone()`: a new algorithm over a copy of the list; the moves themselves are shared. */
    method Clone() returns (a: Algorithm)
      ensures fresh(a) && a.moves == moves && !a.prime
    {
      a := new Algorithm(moves);
    }

    /** `clean()`: the algorithm itself, unchanged. */
    function Clean(): (a: Algorithm)
      ensures a == this
    {
      this
    }

    /** `isOpposite(move)`: never. */
    function IsOpposite(other: Move): (r: bool)
      ensures !r
    {
      false
    }

    /** `isSame(move)`: never. */
    function IsSame(other: Move): (r: bool)
      ensures !r
    {
      false
    }

    /** `toString()`: the move tokens, equal neighbours merged pairwise from the left, joined
        by single spaces. */
    method ToString() returns (s: string)
      ensures s == Join(Merged(Tokens(Value())))
    {
      var tokens := Tokens(Value());
      var merged: seq<string> := [];
      var i := 0;
      while i < |tokens|
        invariant 0 <= i <= |tokens|
        invariant merged + Merged(tokens[i..]) == Merged(tokens)
      {
        if i + 1 < |tokens| && tokens[i] == tokens[i + 1] {
          assert tokens[i..][2..] == tokens[i + 2..];
          assert Merged(tokens[i..]) == [tokens[i] + "2"] + Merged(tokens[i + 2..]);
          merged := merged + [tokens[i] + "2"];
          i := i + 2;
        } else {
          assert tokens[i..][1..] == tokens[i + 1..];
          assert Merged(tokens[i..]) == [tokens[i]] + Merged(tokens[i + 1..]);
          merged := merged + [tokens[i]];
          i := i + 1;
        }
      }
      assert tokens[i..] == [];
      assert merged == Merged(tokens);
      s := Join(merged);
      assert s == Join(Merged(Tokens(Value())));
    }
  }

  /** Appending to a clone leaves the original's list, and so its length, as it was. */
  method CloneThenAdd(a: Algorithm, m: Move) returns (copy: Algorithm)
    modifies {}
    ensures copy.moves == a.moves + [m] && a.moves == old(a.moves)
  {
    copy := a.Clone();
    copy.AddMove(m);
  }
}
