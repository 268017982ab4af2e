/** The first three stages of the layer-by-layer solver (utils/solver.ts). Each stage looks up
    the first entry of a pattern table whose stickers hold the colours it wants, starts from a
    copy of that entry's algorithm, and appends a fixed trigger and a Y rotation so that the
    next call works on the next side. The tables are parameters of the model. */
module Solver {
  import opened CubeTypes
  import opened RubiksCubes
  import opened Moves
  import opened Algorithms

  /** An entry of the white-edge or middle-edge table: two stickers and an optional setup. */
  datatype EdgeEntry = EdgeEntry(first: Coord, second: Coord, algorithm: Option<Algorithm>)

  /** An entry of the white-corner table: three stickers and an optional setup. */
  datatype CornerEntry = CornerEntry(first: Coord, second: Coord, third: Coord,
                                     algorithm: Option<Algorithm>)

  /** The index of the first entry of `table` that `fits`, if there is one. */
  function FirstFit<T>(table: seq<T>, fits: T -> bool): (r: Option<nat>)
    ensures r.Some? ==> r.value < |table| && fits(table[r.value])
    ensures r.Some? ==> forall k :: 0 <= k < r.value ==> !fits(table[k])
    ensures r.None? <==> forall k :: 0 <= k < |table| ==> !fits(table[k])
  {
    if table == [] then None
    else if fits(table[0]) then Some(0)
    else match FirstFit(table[1..], fits)
      case None => None
      case Some(k) => Some(k + 1)
  }

  /** `checkColor(colors, color)`: whether `color` occurs in `colors`. */
  function CheckColor(colors: seq<Color>, color: Color): (r: bool)
    ensures r <==> exists i :: 0 <= i < |colors| && colors[i] == color
  {
    color in colors
  }

  /** The white-cross test: the first sticker has the front centre's colour and the second is
      white. */
  predicate WhiteEdgeFits(e: EdgeEntry, c: Cube)
  {
    c.Sticker(e.first) == c.f.Center() && c.Sticker(e.second) == White
  }

  /** The white-corner test: the three stickers include white, the front centre's colour and
      the right centre's colour. */
  predicate CornerFits(e: CornerEntry, c: Cube)
  {
    var colors := [c.Sticker(e.first), c.Sticker(e.second), c.Sticker(e.third)];
    CheckColor(colors, White) && CheckColor(colors, c.f.Center()) && CheckColor(colors, c.r.Center())
  }

  /** The middle-edge test: the two stickers include the front and the right centre's
      colours. */
  predicate MiddleEdgeFits(e: EdgeEntry, c: Cube)
  {
    var colors := [c.Sticker(e.first), c.Sticker(e.second)];
    CheckColor(colors, c.f.Center()) && CheckColor(colors, c.r.Center())
  }

  /** The entry `solveWhiteCross` picks: the first that passes the white-cross test. */
  function WhiteEdgeIndex(edges: seq<EdgeEntry>, c: Cube): (r: Option<nat>)
    ensures r.Some? ==> r.value < |edges| && WhiteEdgeFits(edges[r.value], c)
    ensures r.Some? ==> forall k :: 0 <= k < r.value ==> !WhiteEdgeFits(edges[k], c)
    ensures r.None? <==> forall k :: 0 <= k < |edges| ==> !WhiteEdgeFits(edges[k], c)
  {
    FirstFit(edges, e => WhiteEdgeFits(e, c))
  }

  /** The entry `bringWhiteCorner` picks: the first that passes the corner test. */
  function CornerIndex(corners: seq<CornerEntry>, c: Cube): (r: Option<nat>)
    ensures r.Some? ==> r.value < |corners| && CornerFits(corners[r.value], c)
    ensures r.Some? ==> forall k :: 0 <= k < r.value ==> !CornerFits(corners[k], c)
    ensures r.None? <==> forall k :: 0 <= k < |corners| ==> !CornerFits(corners[k], c)
  {
    FirstFit(corners, e => CornerFits(e, c))
  }

  /** The entry `bringMiddleEdge` picks: the first that passes the middle-edge test. */
  function MiddleEdgeIndex(edges: seq<EdgeEntry>, c: Cube): (r: Option<nat>)
    ensures r.Some? ==> r.value < |edges| && MiddleEdgeFits(edges[r.value], c)
    ensures r.Some? ==> forall k :: 0 <= k < r.value ==> !MiddleEdgeFits(edges[k], c)
    ensures r.None? <==> forall k :: 0 <= k < |edges| ==> !MiddleEdgeFits(edges[k], c)
  {
    FirstFit(edges, e => MiddleEdgeFits(e, c))
  }

  /** The corner test does not depend on the order of the three stickers: it holds exactly when
      white and both centre colours are among them. */
  lemma CornerFitsAsSet(e: CornerEntry, c: Cube)
    ensures CornerFits(e, c) <==>
            {White, c.f.Center(), c.r.Center()} <= {c.Sticker(e.first), c.Sticker(e.second), c.Sticker(e.third)}
  {
    var colors := [c.Sticker(e.first), c.Sticker(e.second), c.Sticker(e.third)];
    var s := {c.Sticker(e.first), c.Sticker(e.second), c.Sticker(e.third)};
    forall x | true
      ensures CheckColor(colors, x) <==> x in s
    {
      if x in s {
        assert x == colors[0] || x == colors[1] || x == colors[2];
      }
    }
  }

  /** The moves of the table entry's algorithm, or none when the entry has no algorithm. */
  function Setup(a: Option<Algorithm>): seq<Move>
    reads if a.Some? then {a.value} else {}
  {
    if a.Some? then a.value.moves else []
  }

  /** The rotation every stage ends with. */
  const Y := Turn(YMove, false)

  /** The corner triggers: F' U' F when the white sticker faces front, R U R' when it faces
      right, and R U U R' U' R U R' when it faces up. */
  const FrontCornerTrigger: seq<Turn> := [Turn(FMove, true), Turn(UMove, true), Turn(FMove, false)]
  const RightCornerTrigger: seq<Turn> := [Turn(RMove, false), Turn(UMove, false), Turn(RMove, true)]
  const TopCornerTrigger: seq<Turn> :=
    [Turn(RMove, false), Turn(UMove, false), Turn(UMove, false), Turn(RMove, true),
     Turn(UMove, true), Turn(RMove, false), Turn(UMove, false), Turn(RMove, true)]

  /** The corner trigger, chosen by where the white sticker is once the setup has run. */
  function CornerTrigger(sim: Cube): seq<Turn>
  {
    if sim.f.At(0, 2) == White then FrontCornerTrigger
    else if sim.r.At(0, 0) == White then RightCornerTrigger
    else TopCornerTrigger
  }

  /** The left insertion U' L' U L U F U' F'. */
  const LeftInsertion: seq<Turn> :=
    [Turn(UMove, true), Turn(LMove, true), Turn(UMove, false), Turn(LMove, false),
     Turn(UMove, false), Turn(FMove, false), Turn(UMove, true), Turn(FMove, true)]

  /** The trigger that inserts the edge from the left: U', then Y, then the left insertion. */
  const LeftTrigger: seq<Turn> := [Turn(UMove, true), Y] + LeftInsertion

  /** The trigger that inserts the edge from the right. */
  const RightTrigger: seq<Turn> :=
    [Turn(UMove, false), Turn(RMove, false), Turn(UMove, true), Turn(RMove, true),
     Turn(UMove, true), Turn(FMove, true), Turn(UMove, false), Turn(FMove, false)]

  /** The middle-edge trigger: from the left when the sticker on top of the front face has the
      right centre's colour once the setup has run, otherwise from the right. */
  function MiddleTrigger(sim: Cube, right: Color): seq<Turn>
  {
    if sim.f.At(0, 1) == right then LeftTrigger else RightTrigger
  }

  /** The corner already sits in place: white below the front-right corner and the front
      colour beside it. */
  predicate CornerInPlace(c: Cube)
  {
    c.d.At(0, 2) == White && c.f.At(2, 2) == c.f.Center()
  }

  /** The middle edge between the front and right faces already sits in place. */
  predicate MiddleEdgeInPlace(c: Cube)
  {
    c.f.Center() == c.f.At(1, 2) && c.r.Center() == c.r.At(1, 0)
  }

  /** The moves `insertWhiteCorners` returns, as values: Y alone when there is no setup
      (`None`), otherwise the setup, the trigger for the cube the setup leaves, and Y. */
  function CornerPlan(setup: Option<seq<Turn>>, c: Cube): (ts: seq<Turn>)
    ensures |ts| >= 1 && ts[|ts| - 1] == Y
    ensures setup.Some? ==> |setup.value| < |ts| && ts[..|setup.value|] == setup.value
  {
    match setup
    case None => [Y]
    case Some(s) => s + CornerTrigger(Run(s, c)) + [Y]
  }

  /** The moves `solveMiddleEdge` returns, as values: Y alone when the edge is in place
      (`None`), otherwise the setup, the trigger for the cube the setup leaves, and Y. */
  function MiddlePlan(setup: Option<seq<Turn>>, c: Cube): (ts: seq<Turn>)
    ensures |ts| >= 1 && ts[|ts| - 1] == Y
    ensures setup.Some? ==> |setup.value| < |ts| && ts[..|setup.value|] == setup.value
  {
    match setup
    case None => [Y]
    case Some(s) => s + MiddleTrigger(Run(s, c), c.r.Center()) + [Y]
  }

  /** No move of the list is a whole-cube rotation. */
  predicate FaceTurnsOnly(ts: seq<Turn>)
  {
    forall t :: t in ts ==> t.kind != XMove && t.kind != YMove
  }

  /** A run of face turns keeps all six centres. */
  lemma {:induction false} RunKeepsCentres(ts: seq<Turn>, c: Cube)
    requires FaceTurnsOnly(ts)
    ensures Run(ts, c).Centres() == c.Centres()
  {
    if ts != [] {
      assert ts[0] in ts;
      ApplyCentres(ts[0], c);
      assert FaceTurnsOnly(ts[1..]) by {
        forall t | t in ts[1..] ensures t in ts {
        }
      }
      RunKeepsCentres(ts[1..], Apply(ts[0], c));
    }
  }

  /** Running a single move. */
  lemma RunOne(t: Turn, c: Cube)
    ensures Run([t], c) == Apply(t, c)
  {
    assert [t][1..] == [];
  }

  /** After a run of face turns and a final Y, the front centre is the old right centre: the
      next call of a stage works on the next side. */
  lemma FaceTurnsThenY(ts: seq<Turn>, c: Cube)
    requires FaceTurnsOnly(ts)
    ensures Run(ts + [Y], c).f.Center() == c.r.Center()
  {
    var d := Run(ts, c);
    assert d.Centres() == c.Centres() by { RunKeepsCentres(ts, c); }
    assert Run(ts + [Y], c) == Apply(Y, d) by {
      RunAppend(ts, [Y], c);
      RunOne(Y, d);
    }
    YRotation.NextSide(d);
  }

  /** Every corner trigger followed by Y moves the front by one side. */
  lemma CornerTriggerNextSide(sim: Cube, c: Cube)
    ensures Run(CornerTrigger(sim) + [Y], c).f.Center() == c.r.Center()
  {
    if sim.f.At(0, 2) == White {
      FaceTurnsThenY(FrontCornerTrigger, c);
    } else if sim.r.At(0, 0) == White {
      FaceTurnsThenY(RightCornerTrigger, c);
    } else {
      FaceTurnsThenY(TopCornerTrigger, c);
    }
  }

  /** The right trigger followed by Y moves the front by one side. */
  lemma RightTriggerNextSide(c: Cube)
    ensures Run(RightTrigger + [Y], c).f.Center() == c.r.Center()
  {
    FaceTurnsThenY(RightTrigger, c);
  }

  /** Y puts the old back face on the right. */
  lemma BackToRight(c: Cube)
    ensures Apply(Y, c).r == c.b
  {
  }

  /** A face turn, Y, face turns and Y: the old back centre ends up in front. */
  lemma TwoSides(t: Turn, ts: seq<Turn>, c: Cube)
    requires t.kind != XMove && t.kind != YMove && FaceTurnsOnly(ts)
    ensures Run([t, Y] + (ts + [Y]), c).f.Center() == c.b.Center()
  {
    var c2 := Apply(Y, Apply(t, c));
    assert Run([t, Y] + (ts + [Y]), c) == Run(ts + [Y], c2) by {
      RunAppend([t, Y], ts + [Y], c);
      assert [t, Y][1..] == [Y];
      RunOne(Y, Apply(t, c));
    }
    assert c2.r.Center() == c.b.Center() by {
      BackToRight(Apply(t, c));
      ApplyCentres(t, c);
      assert Apply(t, c).Centres()[3] == c.Centres()[3];
    }
    FaceTurnsThenY(ts, c2);
  }

  /** The left trigger holds a Y of its own, so with the final Y the front moves by two sides:
      the old back centre ends up in front. */
  lemma LeftTriggerTwoSides(c: Cube)
    ensures Run(LeftTrigger + [Y], c).f.Center() == c.b.Center()
  {
    assert LeftTrigger + [Y] == [Turn(UMove, true), Y] + (LeftInsertion + [Y]);
    TwoSides(Turn(UMove, true), LeftInsertion, c);
  }

  /** A new algorithm over a copy of the entry's moves, or an empty one when the entry has
      none. */
  method StartFrom(a: Option<Algorithm>) returns (r: Algorithm)
    ensures fresh(r) && r.moves == Setup(a) && !r.prime
  {
    if a.Some? {
      r := a.value.Clone();
    } else {
      r := new Algorithm([]);
    }
  }

  /** Successive `addMove` calls with new move objects for `ts`. */
  method AddTurns(a: Algorithm, ts: seq<Turn>)
    modifies a`moves
    ensures |a.moves| == |old(a.moves)| + |ts| && a.moves[..|old(a.moves)|] == old(a.moves)
    ensures Values(a.moves) == old(Values(a.moves)) + ts
  {
    ghost var start := a.moves;
    var i := 0;
    while i < |ts|
      invariant 0 <= i <= |ts|
      invariant |a.moves| == |start| + i && a.moves[..|start|] == start
      invariant forall k :: 0 <= k < i ==> a.moves[|start| + k].Value() == ts[k]
    {
      var m := new Move(ts[i].kind, ts[i].prime);
      a.AddMove(m);
      i := i + 1;
    }
    assert forall k :: 0 <= k < |start| ==> a.moves[k] == start[k];
  }

  /** A copy of the entry's algorithm with `ts` appended. */
  method StartThenAdd(entry: Option<Algorithm>, ts: seq<Turn>) returns (a: Algorithm)
    ensures fresh(a) && !a.prime
    ensures |Setup(entry)| <= |a.moves| && a.moves[..|Setup(entry)|] == Setup(entry)
    ensures Values(a.moves) == Values(Setup(entry)) + ts
  {
    a := StartFrom(entry);
    AddTurns(a, ts);
  }

  /** The cube a copy of `cube` becomes when `a` is executed on it; `cube` is not changed. */
  method Simulate(a: Algorithm, cube: RubiksCube) returns (copy: RubiksCube)
    requires cube.Valid()
    ensures fresh(copy) && fresh(copy.Repr()) && copy.Valid()
    ensures copy.State() == Run(old(Values(a.moves)), old(cube.State()))
  {
    copy := cube.Clone();
    a.Execute(copy);
  }

  /** The white-cross scan: the index of the first entry that passes the test. */
  method ScanWhiteEdges(cube: RubiksCube, edges: seq<EdgeEntry>) returns (k: Option<nat>)
    requires cube.Valid()
    ensures k == WhiteEdgeIndex(edges, cube.State())
  {
    ghost var c := cube.State();
    var front := cube.F[1, 1];
    var i := 0;
    while i < |edges|
      invariant 0 <= i <= |edges|
      invariant forall k :: 0 <= k < i ==> !WhiteEdgeFits(edges[k], c)
    {
      if cube.At(edges[i].first) == front && cube.At(edges[i].second) == White {
        return Some(i);
      }
      i := i + 1;
    }
    return None;
  }

  /** `solveWhiteCross(cube)`: nothing when no entry fits; otherwise a copy of the first
      fitting entry's algorithm with Y appended. */
  method SolveWhiteCross(cube: RubiksCube, edges: seq<EdgeEntry>) returns (r: Option<Algorithm>)
    requires cube.Valid()
    ensures r.None? <==> WhiteEdgeIndex(edges, cube.State()).None?
    ensures r.Some? ==>
              var setup := Setup(edges[WhiteEdgeIndex(edges, cube.State()).value].algorithm);
              fresh(r.value) && !r.value.prime &&
              |setup| <= |r.value.moves| && r.value.moves[..|setup|] == setup &&
              Values(r.value.moves) == Values(setup) + [Y]
  {
    var k := ScanWhiteEdges(cube, edges);
    if k.Some? {
      var a := StartThenAdd(edges[k.value].algorithm, [Y]);
      r := Some(a);
    } else {
      r := None;
    }
  }

  /** The white-corner scan: the index of the first entry that passes the test. */
  method ScanCorners(cube: RubiksCube, corners: seq<CornerEntry>) returns (k: Option<nat>)
    requires cube.Valid()
    ensures k == CornerIndex(corners, cube.State())
  {
    ghost var c := cube.State();
    var front := cube.F[1, 1];
    var right := cube.R[1, 1];
    var i := 0;
    while i < |corners|
      invariant 0 <= i <= |corners|
      invariant forall k :: 0 <= k < i ==> !CornerFits(corners[k], c)
    {
      var e := corners[i];
      var colors := [cube.At(e.first), cube.At(e.second), cube.At(e.third)];
      if CheckColor(colors, White) && CheckColor(colors, front) && CheckColor(colors, right) {
        return Some(i);
      }
      i := i + 1;
    }
    return None;
  }

  /** `bringWhiteCorner(cube)`: nothing when the corner is already in place or when no entry
      fits (the source answers `null` and `undefined` there, both falsy); otherwise a copy of
      the first fitting entry's algorithm. */
  method BringWhiteCorner(cube: RubiksCube, corners: seq<CornerEntry>) returns (r: Option<Algorithm>)
    requires cube.Valid()
    ensures CornerInPlace(cube.State()) ==> r.None?
    ensures !CornerInPlace(cube.State()) ==> (r.Some? <==> CornerIndex(corners, cube.State()).Some?)
    ensures cube.State() == old(cube.State())
    ensures r.Some? ==>
              var k := CornerIndex(corners, old(cube.State())).value;
              fresh(r.value) && !r.value.prime && r.value.moves == old(Setup(corners[k].algorithm)) &&
              Values(r.value.moves) == old(Values(Setup(corners[k].algorithm)))
  {
    if cube.D[0, 2] == White && cube.F[2, 2] == cube.F[1, 1] {
      assert CornerInPlace(cube.State());
      return None;
    }
    assert !CornerInPlace(cube.State());
    var k := ScanCorners(cube, corners);
    if k.Some? {
      var a := StartFrom(corners[k.value].algorithm);
      r := Some(a);
    } else {
      r := None;
    }
  }

  /** The corner trigger for the cube `a` leaves, chosen on a copy, then Y. */
  method AddCornerTrigger(a: Algorithm, cube: RubiksCube)
    requires cube.Valid()
    modifies a`moves
    ensures Values(a.moves) == CornerPlan(Some(old(Values(a.moves))), old(cube.State()))
  {
    ghost var ts0, c := Values(a.moves), cube.State();
    var copy := Simulate(a, cube);
    var trigger: seq<Turn>;
    if copy.F[0, 2] == White {
      trigger := FrontCornerTrigger;
    } else if copy.R[0, 0] == White {
      trigger := RightCornerTrigger;
    } else {
      trigger := TopCornerTrigger;
    }
    assert trigger == CornerTrigger(Run(ts0, c));
    AddTurns(a, trigger);
    AddTurns(a, [Y]);
  }

  /** `insertWhiteCorners(cube)`: the setup of `bringWhiteCorner`, when there is one, run on a
      copy of the cube to choose the trigger; then Y. The cube itself is not changed. */
  method InsertWhiteCorners(cube: RubiksCube, corners: seq<CornerEntry>) returns (a: Algorithm)
    requires cube.Valid()
    ensures fresh(a)
    ensures var c := old(cube.State());
            var k := CornerIndex(corners, c);
            if CornerInPlace(c) || k.None? then Values(a.moves) == CornerPlan(None, c)
            else Values(a.moves) == CornerPlan(Some(old(Values(Setup(corners[k.value].algorithm)))), c)
  {
    var found := BringWhiteCorner(cube, corners);
    if found.Some? {
      a := found.value;
      AddCornerTrigger(a, cube);
    } else {
      a := new Algorithm([]);
      AddTurns(a, [Y]);
    }
  }

  /** The middle-edge scan: the index of the first entry that passes the test. */
  method ScanMiddleEdges(cube: RubiksCube, edges: seq<EdgeEntry>) returns (k: Option<nat>)
    requires cube.Valid()
    ensures k == MiddleEdgeIndex(edges, cube.State())
  {
    ghost var c := cube.State();
    var front := cube.F[1, 1];
    var right := cube.R[1, 1];
    var i := 0;
    while i < |edges|
      invariant 0 <= i <= |edges|
      invariant forall k :: 0 <= k < i ==> !MiddleEdgeFits(edges[k], c)
    {
      var e := edges[i];
      var colors := [cube.At(e.first), cube.At(e.second)];
      if CheckColor(colors, front) && CheckColor(colors, right) {
        return Some(i);
      }
      i := i + 1;
    }
    return None;
  }

  /** `bringMiddleEdge(cube)`: a copy of the first fitting entry's algorithm, or an empty
      algorithm when none fits. */
  method BringMiddleEdge(cube: RubiksCube, edges: seq<EdgeEntry>) returns (a: Algorithm)
    requires cube.Valid()
    ensures fresh(a) && !a.prime && cube.State() == old(cube.State())
    ensures var k := MiddleEdgeIndex(edges, old(cube.State()));
            a.moves == old(if k.Some? then Setup(edges[k.value].algorithm) else []) &&
            Values(a.moves) == old(Values(if k.Some? then Setup(edges[k.value].algorithm) else []))
  {
    var k := ScanMiddleEdges(cube, edges);
    if k.Some? {
      a := StartFrom(edges[k.value].algorithm);
    } else {
      a := new Algorithm([]);
    }
  }

  /** The middle-edge trigger for the cube `a` leaves, chosen on a copy, then Y. */
  method AddMiddleTrigger(a: Algorithm, cube: RubiksCube)
    requires cube.Valid()
    modifies a`moves
    ensures Values(a.moves) == MiddlePlan(Some(old(Values(a.moves))), old(cube.State()))
  {
    ghost var ts0, c := Values(a.moves), cube.State();
    var right := cube.R[1, 1];
    var copy := Simulate(a, cube);
    var trigger := if copy.F[0, 1] == right then LeftTrigger else RightTrigger;
    assert trigger == MiddleTrigger(Run(ts0, c), c.r.Center());
    AddTurns(a, trigger);
    AddTurns(a, [Y]);
  }

  /** `solveMiddleEdge(cube)`: Y alone when the edge is in place; otherwise the setup of
      `bringMiddleEdge`, run on a copy of the cube to choose the trigger, then Y. The cube
      itself is not changed. */
  method SolveMiddleEdge(cube: RubiksCube, edges: seq<EdgeEntry>) returns (a: Algorithm)
    requires cube.Valid()
    ensures fresh(a)
    ensures var c := old(cube.State());
            var k := MiddleEdgeIndex(edges, c);
            if MiddleEdgeInPlace(c) then Values(a.moves) == MiddlePlan(None, c)
            else
              var setup := old(Values(if k.Some? then Setup(edges[k.value].algorithm) else []));
              Values(a.moves) == MiddlePlan(Some(setup), c)
  {
    var front := cube.F[1, 1];
    var right := cube.R[1, 1];
    if front == cube.F[1, 2] && right == cube.R[1, 0] {
      assert MiddleEdgeInPlace(cube.State());
      a := new Algorithm([]);
      AddTurns(a, [Y]);
      return;
    }
    assert !MiddleEdgeInPlace(cube.State());
    a := BringMiddleEdge(cube, edges);
    ghost var ts := Values(a.moves);
    AddMiddleTrigger(a, cube);
    assert Values(a.moves) == MiddlePlan(Some(ts), old(cube.State()));
  }
}
