/** `Move` (utils/commands/move.ts) and the eight concrete moves: a move is its kind, fixed
    when it is built, and a `prime` flag that `undo` and `changePrime` flip. */
module Moves {
  import opened CubeTypes
  import opened RubiksCubes
  import RTurn
  import LTurn
  import UTurn
  import DTurn
  import FTurn
  import BTurn
  import XRotation
  import YRotation

  /** Which concrete class a move is. */
  datatype Kind = UMove | DMove | FMove | BMove | LMove | RMove | XMove | YMove

  /** A move as a value: its kind and its direction. */
  datatype Turn = Turn(kind: Kind, prime: bool)

  /** The letter `toString` prints for a move: its class name without "Move". */
  function Letter(k: Kind): char
  {
    match k
    case UMove => 'U'
    case DMove => 'D'
    case FMove => 'F'
    case BMove => 'B'
    case LMove => 'L'
    case RMove => 'R'
    case XMove => 'X'
    case YMove => 'Y'
  }

  /** The kinds whose class overrides `undo` with an empty body. */
  predicate HasEmptyUndo(k: Kind)
  {
    k == UMove || k == LMove
  }

  /** The kinds whose class defines `isSame` and `isOpposite`. */
  predicate HasComparisons(k: Kind)
  {
    k == RMove || k == FMove
  }

  /** Each class's `execute`, as a function of the cube and the flag. */
  function Effect(k: Kind): (Cube, bool) -> Cube
  {
    match k
    case UMove => UTurn.Apply
    case DMove => DTurn.Apply
    case FMove => FTurn.Apply
    case BMove => BTurn.Apply
    case LMove => LTurn.Apply
    case RMove => RTurn.Apply
    case XMove => XRotation.Apply
    case YMove => YRotation.Apply
  }

  /** `execute` of the move's class, as a value. */
  function Apply(t: Turn, c: Cube): Cube
  {
    Effect(t.kind)(c, t.prime)
  }

  /** The same move in the other direction. */
  function Flip(t: Turn): Turn
  {
    t.(prime := !t.prime)
  }

  /** Every move followed by its primed twin (or the primed one by the plain one) restores the
      cube. */
  lemma ApplyFlip(t: Turn, c: Cube)
    ensures Apply(Flip(t), Apply(t, c)) == c
  {
    match t.kind
    case UMove => UTurn.Inverse(c, t.prime);
    case DMove => DTurn.Inverse(c, t.prime);
    case FMove => FTurn.Inverse(c, t.prime);
    case BMove => BTurn.Inverse(c, t.prime);
    case LMove => LTurn.Inverse(c, t.prime);
    case RMove => RTurn.Inverse(c, t.prime);
    case XMove => XRotation.Inverse(c, t.prime);
    case YMove => YRotation.Inverse(c, t.prime);
  }

  /** Every move keeps the number of stickers of each colour. */
  lemma ApplyCounts(t: Turn, c: Cube, x: Color)
    ensures Apply(t, c).Count(x) == c.Count(x)
  {
    match t.kind
    case UMove => UTurn.Counts(c, t.prime, x);
    case DMove => DTurn.Counts(c, t.prime, x);
    case FMove => FTurn.Counts(c, t.prime, x);
    case BMove => BTurn.Counts(c, t.prime, x);
    case LMove => LTurn.Counts(c, t.prime, x);
    case RMove => RTurn.Counts(c, t.prime, x);
    case XMove => XRotation.Counts(c, t.prime, x);
    case YMove => YRotation.Counts(c, t.prime, x);
  }

  /** The six face turns keep every centre. */
  lemma ApplyCentres(t: Turn, c: Cube)
    requires t.kind != XMove && t.kind != YMove
    ensures Apply(t, c).Centres() == c.Centres()
  {
    match t.kind
    case UMove => UTurn.Centres(c, t.prime);
    case DMove => DTurn.Centres(c, t.prime);
    case FMove => FTurn.Centres(c, t.prime);
    case BMove => BTurn.Centres(c, t.prime);
    case LMove => LTurn.Centres(c, t.prime);
    case RMove => RTurn.Centres(c, t.prime);
  }

  /** `undo` as a value: the move after the call and the cube after the call. The default
      flips `prime`, executes in the new direction and leaves `prime` flipped; U and L
      override it with an empty body. */
  function UndoStep(t: Turn, c: Cube): (Turn, Cube)
  {
    if HasEmptyUndo(t.kind) then (t, c) else (Flip(t), Apply(Flip(t), c))
  }

  /** For a move with the default `undo`: undoing right after executing restores the cube, and
      undoing twice restores both the cube and `prime`. */
  lemma UndoInverts(t: Turn, c: Cube)
    requires !HasEmptyUndo(t.kind)
    ensures UndoStep(t, Apply(t, c)).1 == c
    ensures UndoStep(UndoStep(t, c).0, UndoStep(t, c).1) == (t, c)
  {
    ApplyFlip(t, c);
    ApplyFlip(Flip(t), c);
    assert Flip(Flip(t)) == t;
  }

  /** Because `prime` stays flipped, executing the same move object again after `undo` turns
      the cube the undone way a second time: after R, undo, execute, any cube is left with
      R' applied. */
  lemma ExecuteAfterUndo(c: Cube)
    ensures var (t, c1) := UndoStep(Turn(RMove, false), Apply(Turn(RMove, false), c));
            Apply(t, c1) == Apply(Turn(RMove, true), c)
  {
    ApplyFlip(Turn(RMove, false), c);
  }

  /** For U and L, `undo` does not undo: U on the solved cube changes it, and undo leaves the
      changed cube and the flag as they are. */
  lemma EmptyUndo(prime: bool)
    ensures var c := Apply(Turn(UMove, prime), SolvedCube());
            c != SolvedCube() && UndoStep(Turn(UMove, prime), c) == (Turn(UMove, prime), c)
  {
    var c := Apply(Turn(UMove, prime), SolvedCube());
    assert c.f.row0 != SolvedCube().f.row0;
  }

  /** A move object: its class is fixed, its `prime` flag can be flipped. */
  class Move {
    const kind: Kind
    var prime: bool

    /** `new RMove(prime)` and the like. */
    constructor (kind: Kind, prime: bool)
      ensures this.kind == kind && this.prime == prime
    {
      this.kind := kind;
      this.prime := prime;
    }

    /** The move as a value. */
    function Value(): Turn
      reads this
    {
      Turn(kind, prime)
    }

    /** `execute(cube)`: the move of this kind in this move's direction. */
    method Execute(cube: RubiksCube)
      requires cube.Valid()
      modifies cube, cube.Repr()
      ensures cube.Valid() && cube.Repr() == old(cube.Repr())
      ensures cube.State() == Apply(Value(), old(cube.State()))
    {
      match kind
      case UMove => UTurn.Execute(cube, prime);
      case DMove => DTurn.Execute(cube, prime);
      case FMove => FTurn.Execute(cube, prime);
      case BMove => BTurn.Execute(cube, prime);
      case LMove => LTurn.Execute(cube, prime);
      case RMove => RTurn.Execute(cube, prime);
      case XMove => XRotation.Execute(cube, prime);
      case YMove => YRotation.Execute(cube, prime);
    }

    /** `undo(cube)`: empty for U and L; otherwise flip `prime`, then execute. */
    method Undo(cube: RubiksCube)
      requires cube.Valid()
      modifies this, cube, cube.Repr()
      ensures cube.Valid() && cube.Repr() == old(cube.Repr())
      ensures (Value(), cube.State()) == UndoStep(old(Value()), old(cube.State()))
    {
      if !HasEmptyUndo(kind) {
        prime := !prime;
        Execute(cube);
      }
    }

    /** `changePrime()`: flips the flag and touches no cube. */
    method ChangePrime()
      modifies this
      ensures prime == !old(prime)
    {
      prime := !prime;
    }

    /** `isOpposite(move)`: defined only by RMove and FMove (`None` for the other kinds); true
        when the argument is of the same class and the other direction. */
    function IsOpposite(other: Move): (r: Option<bool>)
      reads this, other
      ensures r.Some? <==> HasComparisons(kind)
      ensures r == Some(true) <==> HasComparisons(kind) && other.kind == kind && other.prime != prime
    {
      if HasComparisons(kind) then Some(other.kind == kind && prime != other.prime) else None
    }

    /** `isSame(move)`: defined only by RMove and FMove; true when the argument is of the same
        class and the same direction. */
    function IsSame(other: Move): (r: Option<bool>)
      reads this, other
      ensures r.Some? <==> HasComparisons(kind)
      ensures r == Some(true) <==> HasComparisons(kind) && other.Value() == Value()
    {
      if HasComparisons(kind) then Some(other.kind == kind && prime == other.prime) else None
    }
  }

  /** Calling `changePrime` twice restores the flag. */
  method ChangePrimeTwice(m: Move)
    modifies m
    ensures m.prime == old(m.prime)
  {
    m.ChangePrime();
    m.ChangePrime();
  }

  /** Where both are defined, a move is the same as a second one exactly when it is not its
      opposite, given that both are of its class. */
  lemma SameOrOpposite(m: Move, other: Move)
    requires HasComparisons(m.kind) && other.kind == m.kind
    ensures m.IsSame(other) == Some(true) <==> m.IsOpposite(other) == Some(false)
  {
  }
}
