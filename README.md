# Rubik's cube engine — a Dafny model

This project models the cube engine of a Rubik's cube web application, written in TypeScript,
and proves properties of that model. It covers five parts.

- **The cube object** (`RubiksCube`). It holds six 3×3 colour grids, named U, D, F, B, L and R.
  Its operations are the constructor, `createFace`, `solved`, `paintFace`, `setFace`,
  `findFaceWithCenterColor` and the deep `clone`.
- **The eight move classes.**
  - Six face turns: U, D, F, B, L and R.
  - Two whole-cube rotations: X and Y.
  - The abstract `Move`, with its `prime` flag, its default `undo` and `changePrime`.
  - Each class's `execute` rewrites the grids in place, in both directions.
- **The composite `Algorithm`.** It is an ordered list of moves with `execute`, reverse-order
  `undo`, `addMove`/`addMoves`, shallow `clone`, `clean`, `toString`, `length`, `isOpposite`
  and `isSame`.
- **The first three stages of the layer-by-layer solver.** These are `solveWhiteCross`,
  `insertWhiteCorners` and `solveMiddleEdge`, with their helpers `checkColor`,
  `bringWhiteCorner` and `bringMiddleEdge`.
- **The small pure helpers of three view components.**
  - The 9×12 net and the undo/redo history of the flat viewer.
  - The 27-cubelet sticker map and the hex colours of the 3-D view.
  - The colour ↔ letter tables of the colour dialog.

Each side of the model has its own form.

- **Values.** `Color`, `FaceId`, `Strip` (three stickers), `Face` (three strips) and `Cube`
  (six faces) are datatypes. Every move has a function `Apply(c, prime)` that says what its
  `execute` leaves. The group laws, frame conditions, centre facts and colour counts are proved
  about those functions.
- **The heap.**
  - `RubiksCube` is a class with six `array2<Color>` fields.
  - `State()` reads them back as a `Cube`.
  - Every move's `Execute` is an in-place method over those arrays, proved to leave
    `State() == Apply(old(State()), prime)`.
  - `Move` and `Algorithm` are classes. `prime` is a mutable field. `Algorithm.moves` is a
    `seq<Move>` that the methods reassign.
  - The solver stages are methods that build a fresh algorithm and simulate it on a clone.
    Each is proved against a value-level plan (`CornerPlan`, `MiddlePlan`).

The pattern tables the solver scans are not part of this model. They are parameters: a
sequence of `EdgeEntry` or `CornerEntry`, each with sticker coordinates and an optional
algorithm.

## Model

| member | source | states |
|---|---|---|
| CubeTypes.ClockwiseAt | utils/commands/r.ts:31-36 | The clockwise loop's write `new[j][2-i] = old[i][j]` is what `Clockwise` gives |
| CubeTypes.AnticlockwiseAt | utils/commands/r.ts:54-59 | The anticlockwise loop's write `new[2-j][i] = old[i][j]` is what `Anticlockwise` gives |
| CubeTypes.RotationLaws | utils/commands/r.ts:31-59 | The two grid rotations undo each other; four turns either way are the identity; both keep the centre |
| CubeTypes.ClockwiseCount | utils/commands/r.ts:31-36 | A clockwise grid rotation keeps the number of stickers of each colour |
| CubeTypes.AnticlockwiseCount | utils/commands/r.ts:54-59 | An anticlockwise grid rotation keeps the number of stickers of each colour |
| Grids.CreateFace | utils/rubiksCube.ts:25-29 | `createFace(c)` returns a new 3×3 grid whose nine cells are all `c` |
| Grids.CopyGrid | utils/rubiksCube.ts:64-69 | The row-by-row copy is a new 3×3 grid holding the same colours |
| Grids.WriteColumn | utils/commands/r.ts:15-29 | Writing one column replaces exactly that column of the grid |
| Grids.WriteRow | utils/commands/u.ts:15-18 | Writing one row replaces exactly that row of the grid |
| Grids.RotateClockwise | utils/commands/r.ts:31-36 | The copy-then-write loop leaves the grid turned clockwise |
| Grids.RotateAnticlockwise | utils/commands/r.ts:54-59 | The copy-then-write loop leaves the grid turned anticlockwise |
| RubiksCubes.SolvedScheme | utils/rubiksCube.ts:13-23 | The solved cube has each face in one colour (U yellow, D white, F red, B orange, L blue, R green), and no two faces share a colour |
| RubiksCubes.SolvedGrids | utils/rubiksCube.ts:14-20 | The six `createFace` calls give six distinct new 3×3 grids in the solved colours |
| RubiksCubes.RubiksCube.constructor | utils/rubiksCube.ts:13-23 | Each face given in the partial record is that very grid; each face not given is a new grid in its solved colour |
| RubiksCubes.RubiksCube.Solved | utils/rubiksCube.ts:31-33 | `solved()` is a new cube whose state is the solved cube |
| RubiksCubes.RubiksCube.At | utils/solver.ts:14-15 | Reading `faces[face][i][j]` gives that sticker of the cube's state |
| RubiksCubes.RubiksCube.PaintFace | utils/rubiksCube.ts:35-37 | The named face becomes a new grid of one colour; the other five grids and their colours stay |
| RubiksCubes.RubiksCube.SetFace | utils/rubiksCube.ts:39-41 | The named face becomes the given grid; the other five stay |
| RubiksCubes.RubiksCube.FindFaceWithCenterColor | utils/rubiksCube.ts:43-60 | Returns the first of U, D, F, B, L whose centre is the colour; otherwise R, with no check of R's centre |
| RubiksCubes.FindFaceOnSolved | utils/rubiksCube.ts:43-60 | On a solved cube the lookup finds every face by its own colour |
| RubiksCubes.FindFaceFallsBackToR | utils/rubiksCube.ts:56-59 | For a colour no centre holds, the lookup still answers R, although R's centre differs |
| RubiksCubes.RubiksCube.Clone | utils/rubiksCube.ts:62-72 | The clone is a new cube with six new grids and the same state |
| RubiksCubes.RepaintClone | utils/rubiksCube.ts:62-72 | Repainting the clone's front face changes only the clone: the original keeps its state |
| RTurn.Execute | utils/commands/r.ts:9-61 | The in-place writes leave the state `Apply(old state, prime)` and touch neither the L grid nor any grid reference |
| RTurn.Inverse | utils/commands/r.ts:14-60 | R then R' (and R' then R) restores all 54 stickers |
| RTurn.FourTimes | utils/commands/r.ts:14-36 | Four R turns in the same direction restore the cube |
| RTurn.Frame | utils/commands/r.ts:10-36 | R leaves L, columns 0–1 of U, F and D, and columns 1–2 of B unchanged |
| RTurn.Centres | utils/commands/r.ts:14-60 | R and R' keep all six centres |
| RTurn.Counts | utils/commands/r.ts:10-60 | R keeps the number of stickers of each colour |
| LTurn.Execute | utils/commands/l.ts:9-61 | The in-place writes leave the state `Apply(old state, prime)` and do not touch the R grid |
| LTurn.Inverse | utils/commands/l.ts:14-60 | L then L' (and L' then L) restores the cube |
| LTurn.FourTimes | utils/commands/l.ts:14-36 | Four L turns in the same direction restore the cube |
| LTurn.Frame | utils/commands/l.ts:10-36 | L leaves R, columns 1–2 of U, F and D, and columns 0–1 of B unchanged |
| LTurn.Centres | utils/commands/l.ts:14-60 | L and L' keep all six centres |
| LTurn.Counts | utils/commands/l.ts:10-60 | L keeps the number of stickers of each colour |
| UTurn.Execute | utils/commands/u.ts:9-39 | The row-slot swaps and the rotation leave the state `Apply(old state, prime)`; D is not touched |
| UTurn.Inverse | utils/commands/u.ts:14-38 | U then U' (and U' then U) restores the cube |
| UTurn.FourTimes | utils/commands/u.ts:14-25 | Four U turns in the same direction restore the cube |
| UTurn.Frame | utils/commands/u.ts:10-38 | U leaves D and rows 1–2 of F, R, B and L unchanged |
| UTurn.Centres | utils/commands/u.ts:14-38 | U and U' keep all six centres |
| UTurn.Counts | utils/commands/u.ts:10-38 | U keeps the number of stickers of each colour |
| DTurn.Execute | utils/commands/d.ts:9-39 | The row-slot swaps and the rotation leave the state `Apply(old state, prime)`; U is not touched |
| DTurn.Inverse | utils/commands/d.ts:14-38 | D then D' (and D' then D) restores the cube |
| DTurn.FourTimes | utils/commands/d.ts:14-25 | Four D turns in the same direction restore the cube |
| DTurn.Frame | utils/commands/d.ts:10-38 | D leaves U and rows 0–1 of F, R, B and L unchanged |
| DTurn.Centres | utils/commands/d.ts:14-38 | D and D' keep all six centres |
| DTurn.Counts | utils/commands/d.ts:10-38 | D keeps the number of stickers of each colour |
| FTurn.Execute | utils/commands/f.ts:9-59 | The in-place writes leave the state `Apply(old state, prime)`; B is not touched |
| FTurn.Inverse | utils/commands/f.ts:10-58 | F then F' (and F' then F) restores the cube |
| FTurn.FourTimes | utils/commands/f.ts:10-33 | Four F turns in the same direction restore the cube |
| FTurn.Frame | utils/commands/f.ts:10-58 | F leaves B, rows 0–1 of U, rows 1–2 of D, columns 1–2 of R and columns 0–1 of L unchanged |
| FTurn.Centres | utils/commands/f.ts:10-58 | F and F' keep all six centres |
| FTurn.Counts | utils/commands/f.ts:10-58 | F keeps the number of stickers of each colour |
| BTurn.Execute | utils/commands/b.ts:9-59 | The in-place writes leave the state `Apply(old state, prime)`; F is not touched |
| BTurn.Inverse | utils/commands/b.ts:10-58 | B then B' (and B' then B) restores the cube |
| BTurn.FourTimes | utils/commands/b.ts:10-33 | Four B turns in the same direction restore the cube |
| BTurn.Frame | utils/commands/b.ts:10-58 | B leaves F, rows 1–2 of U, rows 0–1 of D, columns 1–2 of L and columns 0–1 of R unchanged |
| BTurn.Centres | utils/commands/b.ts:10-58 | B and B' keep all six centres |
| BTurn.Counts | utils/commands/b.ts:10-58 | B keeps the number of stickers of each colour |
| XRotation.Execute | utils/commands/x.ts:9-54 | The four slot reassignments and the two rotations leave the state `Apply(old state, prime)`; the cube keeps the same six grids, only in other slots |
| XRotation.Inverse | utils/commands/x.ts:15-53 | X then X' (and X' then X) restores the cube |
| XRotation.FourTimes | utils/commands/x.ts:15-33 | Four X rotations in the same direction restore the cube |
| XRotation.Centres | utils/commands/x.ts:15-53 | X moves the centres: F takes D's, D takes B's, B takes U's and U takes F's; X' the other way |
| XRotation.MovesCentres | utils/commands/x.ts:16 | On the solved cube X brings white to the front, so centres are not invariant under a rotation |
| XRotation.Counts | utils/commands/x.ts:10-53 | X keeps the number of stickers of each colour |
| YRotation.Execute | utils/commands/y.ts:9-53 | The four slot reassignments and the two rotations leave the state `Apply(old state, prime)`; U and D stay the same grids |
| YRotation.Inverse | utils/commands/y.ts:14-52 | Y then Y' (and Y' then Y) restores the cube |
| YRotation.FourTimes | utils/commands/y.ts:14-32 | Four Y rotations in the same direction restore the cube |
| YRotation.NextSide | utils/commands/y.ts:14-18 | After Y the front is the old right grid, so the front centre is the old right centre; the U and D centres stay |
| YRotation.Counts | utils/commands/y.ts:10-52 | Y keeps the number of stickers of each colour |
| Moves.ApplyFlip | utils/commands/move.ts:5 | For each of the eight classes, a move followed by the same move in the other direction restores the cube |
| Moves.ApplyCounts | utils/commands/move.ts:5 | Every move of every class keeps the number of stickers of each colour |
| Moves.ApplyCentres | utils/commands/move.ts:5 | The six face turns keep all centres |
| Moves.UndoInverts | utils/commands/move.ts:7-10 | With the default `undo`, undoing right after executing restores the cube, and two undos restore both the cube and `prime` |
| Moves.ExecuteAfterUndo | utils/commands/move.ts:7-10 | `prime` stays flipped after `undo`, so executing R again after R and undo applies R' |
| Moves.EmptyUndo | utils/commands/u.ts:42 | U's `undo` is empty: after U, undo leaves the turned cube and the flag as they are |
| Moves.Move.constructor | utils/commands/r.ts:5-7 | A move of the given class with the given flag; the source's default flag `false` is passed explicitly by every caller |
| Moves.Move.Execute | utils/commands/move.ts:5 | Dispatches to the class's `execute`: the state becomes `Apply(Value(), old state)` |
| Moves.Move.Undo | utils/commands/move.ts:7-10 | The flag and the cube become `UndoStep` of the old ones: flipped and re-executed by default, untouched for U and L |
| Moves.Move.ChangePrime | utils/commands/move.ts:12-14 | `changePrime` flips `prime` and touches no cube |
| Moves.ChangePrimeTwice | utils/commands/move.ts:12-14 | Two `changePrime` calls restore the flag |
| Moves.Move.IsOpposite | utils/commands/r.ts:63-65 | Only R and F define it; it holds iff the argument is of the same class with the other flag |
| Moves.Move.IsSame | utils/commands/r.ts:67-69 | Only R and F define it; it holds iff the argument is of the same class with the same flag |
| Moves.SameOrOpposite | utils/commands/f.ts:61-67 | For two R (or two F) moves, exactly one of `isSame` and `isOpposite` holds |
| Algorithms.RunAppend | utils/commands/algorithm.ts:12-14 | Executing the list `a ++ b` is executing `a` and then `b` |
| Algorithms.RunCounts | utils/commands/algorithm.ts:12-14 | Executing any list of moves keeps the number of stickers of each colour |
| Algorithms.ScrambleKeepsTopAndBottom | utils/rubiksCube.test.ts:46-70 | Executing R B' R F2 R' B R F2 R2 on a solved cube leaves U all yellow and D all white, while F, B, L and R are each no longer one colour; a sticker-level check on the direction of the R, B and F turns |
| Algorithms.UndoAll | utils/commands/algorithm.ts:52-54 | Undoing a list, last move first, keeps the set of move objects whose flags it tracks |
| Algorithms.UndoAllAfterRun | utils/commands/algorithm.ts:52-54 | If each move object is listed once and has the default `undo`, undo right after execute restores the cube and leaves every flag negated |
| Algorithms.Tokens | utils/commands/algorithm.ts:61-71 | One token per move, in order: its letter, with `'` when primed |
| Algorithms.TokenPlain | utils/commands/algorithm.ts:66-70 | A move token never ends in `2` |
| Algorithms.ExpandMerged | utils/commands/algorithm.ts:73-89 | The `X2` merge loses nothing: expanding every `X2` to `X X` gives back the move tokens |
| Algorithms.ThreeInARow | utils/commands/algorithm.ts:77-87 | Merging is pairwise from the left: three equal tokens print as `X2 X` |
| Algorithms.MergedPair | utils/commands/algorithm.ts:80-82 | Two equal leading tokens print as one doubled token |
| Algorithms.MergedSingle | utils/commands/algorithm.ts:83-86 | A leading token unlike its successor is printed as it is |
| Algorithms.ScrambleShape | utils/commands/algorithm.ts:73-89 | Any tokens with the shape `R B' R F F R' B R F F R R`, neighbours distinct where the scramble has them distinct, merge to `R B' R F2 R' B R F2 R2` |
| Algorithms.Algorithm.Length | utils/commands/algorithm.ts:92-94 | `get length()` is zero exactly for the empty list |
| Algorithms.Algorithm.LengthCountsMoves | utils/commands/algorithm.ts:92-94 | The length is the number of move values the algorithm executes, the k-th being the k-th move's |
| Algorithms.Algorithm.constructor | utils/commands/algorithm.ts:7-10 | A new algorithm holds the given list, with `prime` false |
| Algorithms.Algorithm.Execute | utils/commands/algorithm.ts:12-14 | The state becomes `Run(moves, old state)`: every move's `execute`, in list order |
| Algorithms.Algorithm.AddMove | utils/commands/algorithm.ts:16-18 | The move is appended at the end, and `length` grows by one |
| Algorithms.Algorithm.AddMoves | utils/commands/algorithm.ts:48-50 | The moves are appended at the end, in order |
| Algorithms.Algorithm.Undo | utils/commands/algorithm.ts:52-54 | Every move's own `undo` runs, last first; the list and the algorithm's own flag are unchanged |
| Algorithms.Algorithm.Clone | utils/commands/algorithm.ts:56-58 | A new algorithm with the same moves in the same order, with `prime` false |
| Algorithms.CloneThenAdd | utils/commands/algorithm.ts:56-58 | Appending to a clone leaves the original's list and length unchanged |
| Algorithms.Algorithm.Clean | utils/commands/algorithm.ts:20-21 | `clean()` is the algorithm itself |
| Algorithms.Algorithm.IsOpposite | utils/commands/algorithm.ts:97-99 | Always false |
| Algorithms.Algorithm.IsSame | utils/commands/algorithm.ts:102-104 | Always false |
| Algorithms.Algorithm.ToString | utils/commands/algorithm.ts:60-90 | The scan loop prints the tokens, with equal neighbours merged pairwise from the left, joined by single spaces |
| Solver.FirstFit | utils/solver.ts:13-25 | The index is of an entry that fits, with no earlier entry fitting; none exactly when no entry fits |
| Solver.CheckColor | utils/solver.ts:28-30 | True iff the colour occurs in the list |
| Solver.WhiteEdgeIndex | utils/solver.ts:13-17 | The entry chosen is the first whose first sticker has the front centre's colour and whose second is white |
| Solver.CornerIndex | utils/solver.ts:41-51 | The entry chosen is the first whose three stickers include white, the front centre and the right centre |
| Solver.CornerFitsAsSet | utils/solver.ts:47-51 | The corner test is the set inclusion {white, front, right} ⊆ {the three stickers}, whatever their order |
| Solver.MiddleEdgeIndex | utils/solver.ts:97-102 | The entry chosen is the first whose two stickers include the front and right centres |
| Solver.CornerPlan | utils/solver.ts:62-91 | The move list of `insertWhiteCorners` ends in a plain Y and starts with the setup when there is one |
| Solver.MiddlePlan | utils/solver.ts:110-144 | The move list of `solveMiddleEdge` ends in a plain Y and starts with the setup when there is one |
| Solver.RunKeepsCentres | utils/solver.ts:68-85 | A list of face turns keeps all six centres |
| Solver.FaceTurnsThenY | utils/solver.ts:88 | Face turns followed by Y leave the old right centre at the front |
| Solver.CornerTriggerNextSide | utils/solver.ts:68-88 | After any corner trigger and Y, the front centre is the old right centre |
| Solver.RightTriggerNextSide | utils/solver.ts:132-142 | After the right middle-edge trigger and Y, the front centre is the old right centre |
| Solver.BackToRight | utils/commands/y.ts:16 | After Y the right face is the old back face |
| Solver.LeftTriggerTwoSides | utils/solver.ts:121-142 | The left trigger holds a Y of its own, so with the final Y the front centre becomes the old back centre, two sides on |
| Solver.StartFrom | utils/solver.ts:18-20 | A clone of the entry's algorithm, or a new empty one |
| Solver.AddTurns | utils/solver.ts:69-71 | Appending new moves keeps the old list as a prefix and adds exactly the given turns |
| Solver.Simulate | utils/solver.ts:65-66 | Executing the algorithm on a clone gives the run of its moves on the cube's state; the cube itself is not changed |
| Solver.ScanWhiteEdges | utils/solver.ts:13-25 | The scan loop finds `WhiteEdgeIndex` |
| Solver.SolveWhiteCross | utils/solver.ts:10-26 | None exactly when no edge entry fits; otherwise a new algorithm, the chosen entry's moves followed by one plain Y |
| Solver.ScanCorners | utils/solver.ts:41-59 | The scan loop finds `CornerIndex` |
| Solver.BringWhiteCorner | utils/solver.ts:32-60 | None when the corner is in place; otherwise present exactly when an entry fits, and then a copy of that entry's moves; the cube is not changed |
| Solver.AddCornerTrigger | utils/solver.ts:64-88 | Appends the trigger chosen on the simulated cube, then Y |
| Solver.InsertWhiteCorners | utils/solver.ts:62-91 | Exactly [Y] when the corner is in place or no entry fits; otherwise setup, trigger, Y as `CornerPlan` gives |
| Solver.ScanMiddleEdges | utils/solver.ts:97-106 | The scan loop finds `MiddleEdgeIndex` |
| Solver.BringMiddleEdge | utils/solver.ts:93-108 | A copy of the first fitting entry's moves, or an empty algorithm; the cube is not changed |
| Solver.AddMiddleTrigger | utils/solver.ts:117-142 | Appends the left or right trigger chosen on the simulated cube, then Y |
| Solver.SolveMiddleEdge | utils/solver.ts:110-144 | Exactly [Y] when the edge is in place; otherwise setup, trigger, Y as `MiddlePlan` gives |
| CubeViewers.NetCoord | components/CubeViewer.tsx:17-43 | A cell holds a sticker exactly on the net's cross shape, and that sticker is the one whose position is that cell |
| CubeViewers.NetShowsEachStickerOnce | components/CubeViewer.tsx:17-43 | Every sticker appears at its own position and at no other cell |
| CubeViewers.NetCell | components/CubeViewer.tsx:17-43 | `getNetCell` is null exactly off the net, and elsewhere gives the colour of the sticker placed there |
| CubeViewers.RowShownCount | components/CubeViewer.tsx:94-97 | Each net row shows 3 stickers, or 12 in rows 3–5 |
| CubeViewers.NetHolds54 | components/CubeViewer.tsx:94-97 | Exactly 54 of the 108 cells are non-null |
| CubeViewers.Executed | components/CubeViewer.tsx:57-63 | The command goes on top of the undo stack and the redo stack empties |
| CubeViewers.Undone | components/CubeViewer.tsx:65-72 | Nothing changes on an empty undo stack; otherwise the top moves to the redo stack; the total length is kept |
| CubeViewers.Redone | components/CubeViewer.tsx:74-82 | Nothing changes on an empty redo stack; otherwise the top moves back to the undo stack; the total length is kept |
| CubeViewers.UndoRedoRestores | components/CubeViewer.tsx:65-82 | Undo then redo restores both stacks, and so does redo then undo |
| CubeViewers.ExecuteThenUndo | components/CubeViewer.tsx:57-72 | A new command discards the redo stack: undoing it offers only that command |
| CubeViewers.SinglesTurns | components/CubeViewer.tsx:51-55 | A list of single-move commands does exactly those moves, in order |
| CubeViewers.StackTurnsAppend | components/CubeViewer.tsx:51-55 | Running a list of commands after another is running their concatenation |
| CubeViewers.AlgorithmAsMoves | utils/commands/algorithm.ts:12-14 | After any history, one algorithm command gives the cube its moves give when sent one by one |
| CubeViewers.Perform | components/CubeViewer.tsx:53 | A single move does its own move value; an algorithm command runs its whole list in order |
| CubeViewers.ApplyMoves | components/CubeViewer.tsx:51-55 | A new cube: the solved cube with the commands run in order, algorithm commands contributing their whole lists |
| CubeViewers.CubeViewer.constructor | components/CubeViewer.tsx:46-49 | A copy of the solved cube and two empty stacks |
| CubeViewers.CubeViewer.Show | components/CubeViewer.tsx:59-62 | Both stacks take the given values, and the cube shown is rebuilt from the new undo stack |
| CubeViewers.CubeViewer.ExecuteCommand | components/CubeViewer.tsx:57-63 | For a single move or a whole algorithm, the stacks follow `Executed` and the cube shown is the solved cube run through the undo stack |
| CubeViewers.CubeViewer.HandleUndo | components/CubeViewer.tsx:65-72 | The stacks follow `Undone`; the cube shown is always the solved cube run through the undo stack, and an empty stack keeps the cube object |
| CubeViewers.CubeViewer.HandleRedo | components/CubeViewer.tsx:74-82 | The stacks follow `Redone`; the cube shown is always the solved cube run through the undo stack, and an empty stack keeps the cube object |
| Cubelets.CubeletColors | components/Cube3D.tsx:93-147 | A cubelet shows a side exactly where its coordinate on that axis is ±1 |
| Cubelets.PlacedStickerShown | components/Cube3D.tsx:104-145 | The side a face cell is placed on shows that cell's colour, for every face and cell |
| Cubelets.PlacementInjective | components/Cube3D.tsx:104-145 | Every sticker lands on an outward side, and no two stickers land on the same one |
| Cubelets.PlacementOnto | components/Cube3D.tsx:104-145 | Every outward side of every cubelet receives a sticker |
| Cubelets.EachStickerShownOnce | components/Cube3D.tsx:104-145 | Every side shown holds the colour of exactly one sticker |
| Cubelets.CoreShowsNothing | components/Cube3D.tsx:104-145 | The cubelet at (0, 0, 0) shows no side |
| Cubelets.ColorHex | components/Cube3D.tsx:150-160 | `#000000` exactly for strings that are not colour names |
| Cubelets.ColorHexOfName | components/Cube3D.tsx:151-158 | Each colour's name is drawn in that colour's fixed hex value, none of them black |
| Cubelets.HexDistinct | components/Cube3D.tsx:151-158 | The six colours get six different hex strings |
| ColorCodes.CharToColor | components/ColorDialog.tsx:5-12 | A key maps to a colour exactly when it is that colour's letter |
| ColorCodes.ColorToChar | components/ColorDialog.tsx:15-22 | A colour name maps to that colour's letter; any other string has no entry |
| ColorCodes.KeyRoundTrip | components/ColorDialog.tsx:5-22 | `colorToChar[charToColor[k]] == k` for every key `k` |
| ColorCodes.ColorRoundTrip | components/ColorDialog.tsx:5-22 | `charToColor[colorToChar[c]] == c` for every colour `c` |
| ColorCodes.CharToColorTable | components/ColorDialog.tsx:5-12 | The keys are exactly r, y, b, g, w and o, and every colour is the value of its letter |
| ColorCodes.UpperCaseHasNoEntry | components/ColorDialog.tsx:80-82 | The hint shows upper-case letters, but no upper-case letter has an entry |

## Left out

- I/O and logging. The `console.log` calls of the solver (utils/solver.ts:22, 52, 103) are not modelled.
- React. The component state setters are modelled as assignments to the fields of `CubeViewers.CubeViewer`. The rendering and the JSX are not modelled.
- The 3-D view. three.js and the `Cubelet` mesh are not modelled. The view builds one hex record per cubelet by mapping `getColorHex` over `getCubeletColors`; that record is not modelled separately.
- The pattern tables `whiteEdges`, `whiteCorners` and `middleEdges`. Their contents are not part of this model, so the tables are parameters.
- Move letters. `constructor.name` is modelled as a fixed letter per move class (`Moves.Letter`).
- Row objects. A JavaScript face is an array of row arrays. The model stores each face as one `array2`.
  - A row-slot assignment (`F[0] = r` in U and D) becomes three cell writes.
  - No move leaves one row array in two slots, so this write is equivalent.
  - Aliasing between rows is therefore not modelled.
- Setting a face from outside. `RubiksCubes.RubiksCube.SetFace` requires a 3×3 grid that is not already another face of the cube. The source accepts any value. utils/rubiksCube.test.ts:28-32 passes a bare colour string, which the typed model cannot express.
- Constructor aliasing. `Algorithms.Algorithm.constructor` stores the caller's array by reference in the source; the model's `seq` is a value, so that aliasing is not modelled. `clone` does copy the array in the source, so it is unaffected.
- Nested algorithms. An `Algorithm` inside an `Algorithm` is not modelled, so `toString`'s parenthesised form (utils/commands/algorithm.ts:62-64) is left out. The viewer's stacks do hold whole algorithms (components/AlgorithmControls.tsx:156 via components/CubeViewer.tsx:233); they are the `Whole` case of `CubeViewers.Command`.
- CubeViewers.CubeViewer.HandleUndo: requires that the cube shown matches the undo stack. That fails only if an algorithm already on the stack has had its list changed since the last rebuild; the controls never change their algorithms. The source then shows a stale cube until the next command.
- CubeViewers.CubeViewer.HandleRedo: requires the same as `HandleUndo`, for the same reason.
- Algorithms.UndoAllAfterRun: the round trip is proved only when each move object appears once in the list and has the default `undo`. With a repeated object, or with a U or L move, the source does not restore the cube. `Algorithms.Algorithm.Undo` itself is specified for every list.
- Algorithms.ScrambleShape: stated over abstract tokens with the scramble's shape, not over the literal string "R B' R F2 R' B R F2 R2".
- Moves.Move.IsOpposite: a class without `isOpposite` or `isSame` (U, D, B, L, X, Y) declares only the abstract method. There a call has no defined answer, which the model writes as `None`.
- Solver.InsertWhiteCorners: states the move values of the result, not which objects the list holds. The chosen entry's own move objects are shared with the result, as in the source.
- Solver.SolveMiddleEdge: states the move values of the result, not which objects the list holds, as for the corners.
- Solver stages and the input cube. The stages leave the input cube unchanged because they declare no `modifies` for it.
- Null and undefined. `bringWhiteCorner` returns `null` when the corner is in place and `undefined` when no entry fits; `solveWhiteCross` returns `undefined` when no entry fits. The model writes all of these as `None`.
- Cubelets.CubeletColors: coordinates are restricted to -1, 0 and 1, which are the only values the view passes.
- Cubelets.ColorHex: lookups of keys inherited from the object prototype (such as `"constructor"`) are not modelled.
- ColorCodes.CharToColor: lookups of keys inherited from the object prototype are not modelled.
- ColorCodes.ColorToChar: lookups of keys inherited from the object prototype are not modelled.
- The remaining solver stages (`makeTopCross`, `solveTopCorners`, `permuteTopCorners`, `permuteTopEdges`) are not defined in utils/solver.ts and are not modelled.
