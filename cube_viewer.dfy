/** The flat view (components/CubeViewer.tsx): the 9×12 net the six faces are drawn on, and the
    undo/redo history of manual moves from which the shown cube is rebuilt. */
module CubeViewers {
  import opened CubeTypes
  import opened RubiksCubes
  import opened Moves
  import opened Algorithms

  /** The net has 9 rows and 12 columns. */
  const GridSize := 9
  const GridCols := 12

  /** The cells that hold a sticker: U above F, then L, F, R and B side by side, then D below F. */
  predicate OnNet(row: int, col: int)
  {
    (0 <= row < 3 && 3 <= col < 6) || (3 <= row < 6 && 0 <= col < 12) || (6 <= row < 9 && 3 <= col < 6)
  }

  /** The cell of the net that shows sticker `s`. */
  function NetPosition(s: Coord): (int, int)
  {
    match s.face
    case U => (s.i, s.j + 3)
    case L => (s.i + 3, s.j)
    case F => (s.i + 3, s.j + 3)
    case R => (s.i + 3, s.j + 6)
    case B => (s.i + 3, s.j + 9)
    case D => (s.i + 6, s.j + 3)
  }

  /** The sticker `getNetCell` reads for a cell, or `None` where it returns null. */
  function NetCoord(row: int, col: int): (s: Option<Coord>)
    ensures s.Some? <==> OnNet(row, col)
    ensures s.Some? ==> NetPosition(s.value) == (row, col)
  {
    if 0 <= row < 3 && 3 <= col < 6 then Some(Coord(FaceId.U, row, col - 3))
    else if 3 <= row < 6 && 0 <= col < 3 then Some(Coord(FaceId.L, row - 3, col))
    else if 3 <= row < 6 && 3 <= col < 6 then Some(Coord(FaceId.F, row - 3, col - 3))
    else if 3 <= row < 6 && 6 <= col < 9 then Some(Coord(FaceId.R, row - 3, col - 6))
    else if 3 <= row < 6 && 9 <= col < 12 then Some(Coord(FaceId.B, row - 3, col - 9))
    else if 6 <= row < 9 && 3 <= col < 6 then Some(Coord(FaceId.D, row - 6, col - 3))
    else None
  }

  /** Each sticker appears at exactly one cell: its own position, which lies on the net. */
  lemma NetShowsEachStickerOnce(s: Coord, row: int, col: int)
    ensures NetCoord(NetPosition(s).0, NetPosition(s).1) == Some(s)
    ensures NetCoord(row, col) == Some(s) ==> (row, col) == NetPosition(s)
  {
  }

  /** `getNetCell(cube, row, col)`: the colour of the sticker drawn at the cell, or `None`
      off the net. */
  function NetCell(cube: RubiksCube, row: int, col: int): (r: Option<Color>)
    requires cube.Valid()
    reads cube, cube.Repr()
    ensures r.Some? <==> OnNet(row, col)
    ensures forall s :: NetPosition(s) == (row, col) ==> r == Some(cube.State().Sticker(s))
  {
    if 0 <= row < 3 && 3 <= col < 6 then Some(cube.U[row, col - 3])
    else if 3 <= row < 6 && 0 <= col < 3 then Some(cube.L[row - 3, col])
    else if 3 <= row < 6 && 3 <= col < 6 then Some(cube.F[row - 3, col - 3])
    else if 3 <= row < 6 && 6 <= col < 9 then Some(cube.R[row - 3, col - 6])
    else if 3 <= row < 6 && 9 <= col < 12 then Some(cube.B[row - 3, col - 9])
    else if 6 <= row < 9 && 3 <= col < 6 then Some(cube.D[row - 6, col - 3])
    else None
  }

  /** How many of the first `k` cells of net row `row` hold a sticker. */
  function RowShown(row: int, k: nat): nat
  {
    if k == 0 then 0 else RowShown(row, k - 1) + (if OnNet(row, k - 1) then 1 else 0)
  }

  /** How many cells of the first `n` rows of the net hold a sticker. */
  function NetShown(n: nat): nat
  {
    if n == 0 then 0 else NetShown(n - 1) + RowShown(n - 1, GridCols)
  }

  /** A row of the net holds three stickers, or twelve in the middle band. */
  lemma {:induction false} RowShownCount(row: int, k: nat)
    requires k <= GridCols
    ensures RowShown(row, k) ==
            if 3 <= row < 6 then k
            else if 0 <= row < 9 then (if k <= 3 then 0 else if k <= 6 then k - 3 else 3)
            else 0
  {
    if k > 0 {
      RowShownCount(row, k - 1);
    }
  }

  /** Exactly 54 of the 108 cells of the net hold a sticker. */
  lemma NetHolds54()
    ensures GridSize * GridCols == 108
    ensures NetShown(GridSize) == 54
  {
    forall row | 0 <= row < GridSize
      ensures RowShown(row, GridCols) == if 3 <= row < 6 then 12 else 3
    {
      RowShownCount(row, GridCols);
    }
  }

  /** The two stacks of the history: the moves made (last on top) and the moves undone. */
  datatype History<T> = History(undo: seq<T>, redo: seq<T>)

  /** `executeCommand`: the command goes on top of the undo stack and the redo stack empties. */
  function Executed<T>(h: History<T>, command: T): (r: History<T>)
    ensures r.undo == h.undo + [command] && r.redo == []
  {
    History(h.undo + [command], [])
  }

  /** `handleUndo`: nothing on an empty undo stack; otherwise its top moves to the redo stack. */
  function Undone<T>(h: History<T>): (r: History<T>)
    ensures |r.undo| + |r.redo| == |h.undo| + |h.redo|
    ensures h.undo == [] ==> r == h
    ensures h.undo != [] ==> |r.redo| == |h.redo| + 1 && r.redo[..|h.redo|] == h.redo &&
                             r.undo + [r.redo[|h.redo|]] == h.undo
  {
    if |h.undo| == 0 then h
    else History(h.undo[..|h.undo| - 1], h.redo + [h.undo[|h.undo| - 1]])
  }

  /** `handleRedo`: nothing on an empty redo stack; otherwise its top moves to the undo stack. */
  function Redone<T>(h: History<T>): (r: History<T>)
    ensures |r.undo| + |r.redo| == |h.undo| + |h.redo|
    ensures h.redo == [] ==> r == h
    ensures h.redo != [] ==> |r.undo| == |h.undo| + 1 && r.undo[..|h.undo|] == h.undo &&
                             r.redo + [r.undo[|h.undo|]] == h.redo
  {
    if |h.redo| == 0 then h
    else History(h.undo + [h.redo[|h.redo| - 1]], h.redo[..|h.redo| - 1])
  }

  /** Undo and then redo gives back both stacks, and so does redo and then undo. */
  lemma UndoRedoRestores<T>(h: History<T>)
    ensures h.undo != [] ==> Redone(Undone(h)) == h
    ensures h.redo != [] ==> Undone(Redone(h)) == h
  {
    if h.undo != [] {
      assert h.undo[..|h.undo| - 1] + [h.undo[|h.undo| - 1]] == h.undo;
    }
    if h.redo != [] {
      assert h.redo[..|h.redo| - 1] + [h.redo[|h.redo| - 1]] == h.redo;
    }
  }

  /** A new command drops what was undone: undoing it offers only that command for redo. */
  lemma ExecuteThenUndo<T>(h: History<T>, command: T)
    ensures Undone(Executed(h, command)) == History(h.undo, [command])
  {
    assert (h.undo + [command])[..|h.undo|] == h.undo;
  }

  /** A command on the viewer's stacks: a single move from the move buttons, or a whole
      algorithm from the algorithm controls, which is itself a move in the source. */
  datatype Command = Single(move: Move) | Whole(algorithm: Algorithm)

  /** The algorithm objects on a list of commands. */
  function AlgorithmsOf(cmds: seq<Command>): set<Algorithm>
  {
    set c | c in cmds && c.Whole? :: c.algorithm
  }

  /** The move objects a list of commands executes: its single moves and its algorithms' moves. */
  function MovesOf(cmds: seq<Command>): set<Move>
    reads AlgorithmsOf(cmds)
  {
    if cmds == [] then {}
    else
      var first := match cmds[0]
        case Single(m) => {m}
        case Whole(a) => set m | m in a.moves;
      first + MovesOf(cmds[1..])
  }

  /** What executing a command does, as move values: the move itself, or the algorithm's list. */
  function CommandTurns(c: Command): seq<Turn>
    reads if c.Single? then {c.move} else {}, if c.Whole? then {c.algorithm} else {}
    reads if c.Whole? then c.algorithm.moves else []
  {
    match c
    case Single(m) => [m.Value()]
    case Whole(a) => a.Value()
  }

  /** What executing a list of commands in order does, as move values. */
  function StackTurns(cmds: seq<Command>): seq<Turn>
    reads AlgorithmsOf(cmds), MovesOf(cmds)
  {
    if cmds == [] then [] else CommandTurns(cmds[0]) + StackTurns(cmds[1..])
  }

  /** A command does what it did before as long as none of its objects changed. */
  twostate lemma CommandFrame(c: Command)
    requires c.Single? ==> unchanged(c.move)
    requires c.Whole? ==> unchanged(c.algorithm) && forall m :: m in old(c.algorithm.moves) ==> unchanged(m)
    ensures CommandTurns(c) == old(CommandTurns(c))
  {
    if c.Whole? {
      var a := c.algorithm;
      forall k | 0 <= k < |a.moves|
        ensures a.moves[k].Value() == old(a.moves[k].Value())
      {
        assert a.moves[k] in old(a.moves);
      }
    }
  }

  /** A list of commands does what it did before as long as none of its objects changed. */
  twostate lemma {:induction false} StackTurnsFrame(cmds: seq<Command>)
    requires unchanged(AlgorithmsOf(cmds)) && unchanged(set d | d in cmds && d.Single? :: d.move)
    requires unchanged(old(set d, n | d in cmds && d.Whole? && n in d.algorithm.moves :: n))
    ensures StackTurns(cmds) == old(StackTurns(cmds))
  {
    if cmds != [] {
      var c := cmds[0];
      assert c in cmds;
      if c.Whole? {
        assert forall m :: m in old(c.algorithm.moves) ==> m in old(set d, n | d in cmds && d.Whole? && n in d.algorithm.moves :: n);
      }
      CommandFrame(c);
      assert forall x :: x in cmds[1..] ==> x in cmds;
      StackTurnsFrame(cmds[1..]);
    }
  }

  /** Each move of a list as a command of its own. */
  function Singles(ms: seq<Move>): (cmds: seq<Command>)
    ensures |cmds| == |ms| && forall k :: 0 <= k < |ms| ==> cmds[k] == Single(ms[k])
  {
    if ms == [] then [] else [Single(ms[0])] + Singles(ms[1..])
  }

  /** Commands made of single moves do exactly those moves. */
  lemma {:induction false} SinglesTurns(ms: seq<Move>)
    ensures StackTurns(Singles(ms)) == Values(ms)
  {
    if ms != [] {
      assert Singles(ms)[1..] == Singles(ms[1..]);
      SinglesTurns(ms[1..]);
    }
  }

  /** Executing a list of commands one after another is executing their concatenation. */
  lemma {:induction false} StackTurnsAppend(a: seq<Command>, b: seq<Command>)
    ensures StackTurns(a + b) == StackTurns(a) + StackTurns(b)
  {
    if a != [] {
      assert (a + b)[0] == a[0];
      assert (a + b)[1..] == a[1..] + b;
      StackTurnsAppend(a[1..], b);
      assert StackTurns(a + b) == CommandTurns(a[0]) + StackTurns(a[1..] + b);
      assert StackTurns(a) == CommandTurns(a[0]) + StackTurns(a[1..]);
    } else {
      assert a + b == b;
    }
  }

  /** An algorithm executed as one command shows the cube its moves show when executed as
      separate commands, in the same order. */
  lemma AlgorithmAsMoves(a: Algorithm, cmds: seq<Command>)
    ensures StackTurns(cmds + [Whole(a)]) == StackTurns(cmds + Singles(a.moves))
  {
    StackTurnsAppend(cmds, [Whole(a)]);
    StackTurnsAppend(cmds, Singles(a.moves));
    SinglesTurns(a.moves);
  }

  /** `command.execute(cube)`: a single move's `execute`, or the algorithm's, which runs its list
      in order. */
  method Perform(command: Command, cube: RubiksCube)
    requires cube.Valid()
    modifies cube, cube.Repr()
    ensures cube.Valid() && cube.Repr() == old(cube.Repr())
    ensures cube.State() == Run(old(CommandTurns(command)), old(cube.State()))
  {
    match command
    case Single(m) =>
      m.Execute(cube);
      assert Run([old(m.Value())], old(cube.State())) == cube.State();
    case Whole(a) =>
      a.Execute(cube);
  }

  /** `applyMoves(moves)`: a copy of the solved cube with every command's `execute` run on it
      in order. */
  method ApplyMoves(moves: seq<Command>) returns (newCube: RubiksCube)
    ensures fresh(newCube) && fresh(newCube.Repr()) && newCube.Valid()
    ensures newCube.State() == Run(old(StackTurns(moves)), SolvedCube())
  {
    var initialCube := RubiksCube.Solved();
    newCube := initialCube.Clone();
    var i := 0;
    while i < |moves|
      invariant 0 <= i <= |moves|
      invariant fresh(newCube) && fresh(newCube.Repr()) && newCube.Valid()
      invariant Run(old(StackTurns(moves[i..])), newCube.State()) == old(Run(StackTurns(moves), SolvedCube()))
    {
      assert moves[i..][1..] == moves[i + 1..];
      ghost var now := old(CommandTurns(moves[i]));
      CommandFrame(moves[i]);
      RunAppend(now, old(StackTurns(moves[i + 1..])), newCube.State());
      Perform(moves[i], newCube);
      i := i + 1;
    }
  }

  /** The component's state: the cube shown and the two stacks of commands. */
  class CubeViewer {
    var cube: RubiksCube
    var undoStack: seq<Command>
    var redoStack: seq<Command>

    /** The two stacks as a history. */
    function Stacks(): History<Command>
      reads this
    {
      History(undoStack, redoStack)
    }

    /** The cube shown is the solved cube with the undo stack's commands run in order. */
    ghost predicate Valid()
      reads this, cube, cube.Repr(), AlgorithmsOf(undoStack), MovesOf(undoStack)
    {
      cube.Valid() && cube.State() == Run(StackTurns(undoStack), SolvedCube())
    }

    /** The initial state: a copy of the solved cube and two empty stacks. */
    constructor ()
      ensures Valid() && undoStack == [] && redoStack == []
    {
      var initialCube := RubiksCube.Solved();
      var copy := initialCube.Clone();
      cube, undoStack, redoStack := copy, [], [];
    }

    /** The three state setters together: both stacks are replaced and the cube shown is
        rebuilt from the new undo stack with `applyMoves`. */
    method Show(newUndoStack: seq<Command>, newRedoStack: seq<Command>)
      modifies this
      ensures undoStack == newUndoStack && redoStack == newRedoStack
      ensures fresh(cube) && Valid()
    {
      var newCube := ApplyMoves(newUndoStack);
      ghost var shown := newCube.State();
      undoStack, redoStack, cube := newUndoStack, newRedoStack, newCube;
      assert cube.Valid() && cube.State() == shown;
      StackTurnsFrame(newUndoStack);
    }

    /** `executeCommand(command)`. */
    method ExecuteCommand(command: Command)
      modifies this
      ensures Stacks() == Executed(old(Stacks()), command)
      ensures fresh(cube) && Valid()
    {
      Show(undoStack + [command], []);
    }

    /** `handleUndo()`: a no-op on an empty undo stack. */
    method HandleUndo()
      requires Valid()
      modifies this
      ensures Stacks() == Undone(old(Stacks()))
      ensures Valid()
      ensures old(undoStack) == [] ==> cube == old(cube)
      ensures old(undoStack) != [] ==> fresh(cube)
    {
      if |undoStack| == 0 {
        return;
      }
      var newUndoStack := undoStack[..|undoStack| - 1];
      var undoneMove := undoStack[|undoStack| - 1];
      Show(newUndoStack, redoStack + [undoneMove]);
    }

    /** `handleRedo()`: a no-op on an empty redo stack. */
    method HandleRedo()
      requires Valid()
      modifies this
      ensures Stacks() == Redone(old(Stacks()))
      ensures Valid()
      ensures old(redoStack) == [] ==> cube == old(cube)
      ensures old(redoStack) != [] ==> fresh(cube)
    {
      if |redoStack| == 0 {
        return;
      }
      var redoMove := redoStack[|redoStack| - 1];
      var newRedoStack := redoStack[..|redoStack| - 1];
      var newUndoStack := undoStack + [redoMove];
      Show(newUndoStack, newRedoStack);
    }
  }
}
