# Chess move predictor, modelled in Dafny

This project models the move generator of the chess board's `ChessMovePredictor`.

**Inputs.** The predictor is given:
- a piece's name, its square (row, column) and its team's name;
- the pieces standing on the board, each with a row, a column and a team.

**Outputs.** It computes the squares that piece may move to on the 8x8 board. Along the way it tells the board's presenter what to show:
- it clears the old highlights;
- it marks enemy-held squares the piece bears on, during generation;
- it highlights each move, in list order.

## Modules

- `Board` (`board.dfy`) holds the occupancy side:
  - the pieces, as a sequence of `Piece(row, column, teamOption)` records;
  - `WithinBounds`;
  - `TeamAtGivenPosition`, a first-match search answering `"Team1"`, `"Team2"` or `"Empty"`;
  - `NotBlocked`.
- `Highlights` (`highlights.dfy`) holds two classes:
  - the presenter, as a `Presenter` class that records every call in its `log`, in order (`Clear`, `Enemy(at)`, `Move(at)`);
  - the list the generator appends to, as a `MoveList` class.
- `MoveRules` (`move_rules.dfy`) gives what one prediction computes, as functions:
  - the case-sensitive name parser `ParseKind`;
  - a ray (`Ray`, walking `RaySquares` with `Walk`);
  - the knight and king tables (`Steps`);
  - the pawn rules (`PawnMoves`, `DiagonalAttack`);
  - the per-kind dispatch `PossibleMoves`;
  - the presenter calls of a whole prediction, `PredictEvents`.

  Each of these returns a `Gen`, which holds the move list and, separately, the enemy squares reported.
- `MovePredictor` (`move_predictor.dfy`) is the class `ChessMovePredictor`:
  - its methods follow the source's loops and branches;
  - they append in place to a `MoveList` and call the `Presenter`;
  - each one is proved to append exactly the moves and to make exactly the calls that the `MoveRules` functions describe.
- `MoveProperties` (`move_properties.dfy`) proves what those functions promise:
  - the shape and soundness of rays;
  - the membership rules of the stepping tables;
  - the pawn rules as if-and-only-ifs;
  - the order of the presenter calls;
  - a few worked positions.

`WithinBounds` is the predicate `0 <= row < 8 && 0 <= column < 8`.

`NotBlocked` is `TeamAtGivenPosition(...) == "Empty"`, as the source has it. `Board.NotBlockedIff` turns this into "no piece stands there".

## Model

| member | source | states |
|---|---|---|
| Board.WithinBounds | Assets/Chess/Scripts/Core/ChessMovePredictor.cs:230-233 | Defined as the source's test: 0 <= row < 8 and 0 <= column < 8. |
| Board.TeamAtGivenPosition | Assets/Chess/Scripts/Core/ChessMovePredictor.cs:242-256 | The first-match search over the pieces in collection order. It answers the team label of the first piece on the square, or "Empty" if there is none. It is a function, so it cannot change the pieces. Its properties are proved by TeamAtEmptyIff and TeamAtIsFirstMatch. |
| Board.NotBlocked | Assets/Chess/Scripts/Core/ChessMovePredictor.cs:236-239 | Defined as the search answering "Empty". NotBlockedIff proves that this means no piece stands on the square. |
| Board.TeamAtEmptyIff | Assets/Chess/Scripts/Core/ChessMovePredictor.cs:242-256 | The search answers "Empty" iff no piece stands on the square. Otherwise it answers one of the two team labels. |
| Board.TeamAtIsFirstMatch | Assets/Chess/Scripts/Core/ChessMovePredictor.cs:245-253 | The answer is the team of the first piece, in collection order, that stands on the square. Later pieces on the same square are ignored. |
| Board.NotBlockedIff | Assets/Chess/Scripts/Core/ChessMovePredictor.cs:236-239 | A square is not blocked iff no piece in the collection stands on it. |
| MoveRules.ParseKind | Assets/Chess/Scripts/Core/ChessMovePredictor.cs:34 | A successful parse gives the kind whose enum name is exactly the input, matched case-sensitively. A failed parse means no kind has that name. |
| MoveRules.QueenIsRookThenBishop | Assets/Chess/Scripts/Core/ChessMovePredictor.cs:118-127 | The queen's moves are the rook's four rays followed by the bishop's four. Its enemy reports are also the rook's followed by the bishop's. |
| MovePredictor.ChessMovePredictor.PredictMoves | Assets/Chess/Scripts/Core/ChessMovePredictor.cs:30-47 | The presenter log grows by exactly `PredictEvents`. The error flag is set iff the name does not parse. |
| MovePredictor.ChessMovePredictor.GetPossibleMoves | Assets/Chess/Scripts/Core/ChessMovePredictor.cs:51-151 | Returns a fresh list holding exactly `PossibleMoves(kind).moves`. The presenter receives exactly one `Enemy` call per reported square, in order. |
| MovePredictor.ChessMovePredictor.AddPawn1Moves | Assets/Chess/Scripts/Core/ChessMovePredictor.cs:57-68 | Appends the Pawn1 moves in order: single step up, double step from row 1, then the diagonal attack. Reports as the attack does. |
| MovePredictor.ChessMovePredictor.AddPawn2Moves | Assets/Chess/Scripts/Core/ChessMovePredictor.cs:70-81 | Appends the Pawn2 moves in order: single step down, double step from row 6, then the diagonal attack. Reports as the attack does. |
| MovePredictor.ChessMovePredictor.AddRookRays | Assets/Chess/Scripts/Core/ChessMovePredictor.cs:83-88 | Appends the rays up, down, right and left, in that order. This is `PossibleMoves(Rook)`. |
| MovePredictor.ChessMovePredictor.AddBishopRays | Assets/Chess/Scripts/Core/ChessMovePredictor.cs:111-116 | Appends the four diagonal rays in the source's order. This is `PossibleMoves(Bishop)`. |
| MovePredictor.ChessMovePredictor.AddQueenMoves | Assets/Chess/Scripts/Core/ChessMovePredictor.cs:118-127 | Appends the rook's four rays, then the bishop's four, in the source's order. This is `PossibleMoves(Queen)`. |
| MovePredictor.ChessMovePredictor.AddOffsetMoves | Assets/Chess/Scripts/Core/ChessMovePredictor.cs:95-108 | The loop over an offset table, shared by the knight and the identical king loop at 134-147. It appends exactly `Steps(...).moves` and reports exactly `Steps(...).enemies`. |
| MovePredictor.ChessMovePredictor.AddStraightLineMoves | Assets/Chess/Scripts/Core/ChessMovePredictor.cs:156-173 | Appends exactly the ray's moves and reports exactly its enemy square, if any. |
| MovePredictor.ChessMovePredictor.AddDiagonalMoves | Assets/Chess/Scripts/Core/ChessMovePredictor.cs:178-195 | Behaves the same as AddStraightLineMoves, along a diagonal. |
| MovePredictor.ChessMovePredictor.CheckDiagonalAttackForPawn1 | Assets/Chess/Scripts/Core/ChessMovePredictor.cs:200-211 | Appends (row+1, column-1) and (row+1, column+1), and reports (row+1, column), exactly when the attack fires (see `DiagonalAttack`). Otherwise it does nothing. |
| MovePredictor.ChessMovePredictor.CheckDiagonalAttackForPawn2 | Assets/Chess/Scripts/Core/ChessMovePredictor.cs:215-227 | The same rule, one row down. |
| MovePredictor.PredictTwice | Assets/Chess/Scripts/Core/ChessMovePredictor.cs:30-47 | Generation only reads the board, so two predictions of the same piece append the same calls twice. |
| MoveProperties.OpenRun | Assets/Chess/Scripts/Core/ChessMovePredictor.cs:158-171 | The length of the leading run of in-bounds free squares. Every square before it is open. The square at that position, if there is one, is not open. |
| MoveProperties.WalkShape | Assets/Chess/Scripts/Core/ChessMovePredictor.cs:158-172 | A walk's moves are exactly the leading run of open squares. The square ending the run is reported iff it is on the board and held by another team. |
| MoveProperties.FirstStop | Assets/Chess/Scripts/Core/ChessMovePredictor.cs:158-163 | The first step k in 1..7 that is off the board or occupied, or 8 if there is none. All earlier steps are open. |
| MoveProperties.RayShape | Assets/Chess/Scripts/Core/ChessMovePredictor.cs:156-173 | A ray's moves are exactly origin + i·delta for i = 1..k-1, in order, where k is FirstStop. Its only possible report is step k, made iff step k is on the board and held by another team. If step k is friendly, nothing is reported. |
| MoveProperties.RayBounds | Assets/Chess/Scripts/Core/ChessMovePredictor.cs:164-171 | A ray has at most 7 moves, and every move is in bounds and free. It reports only enemy-held squares. The blocking square is never a move. |
| MoveProperties.RayLeavesOrigin | Assets/Chess/Scripts/Core/ChessMovePredictor.cs:158-161 | Along a nonzero direction, the origin is never a move. |
| MoveProperties.StepsMembers | Assets/Chess/Scripts/Core/ChessMovePredictor.cs:95-108 | A square is a move iff it is origin + some table offset and is in bounds and free. It is reported iff it is such a target held by another team. Moves plus reports number at most the table size. |
| MoveProperties.StepsAllOpen | Assets/Chess/Scripts/Core/ChessMovePredictor.cs:95-108 | When every target is open, the moves are all targets in table order and nothing is reported. |
| MoveProperties.KnightInOpenField | Assets/Chess/Scripts/Core/ChessMovePredictor.cs:90-109 | A knight on rows and columns 2..5, with no other piece on the board, gets exactly its 8 table targets. This covers (3,3). |
| MoveProperties.NonPawnSound | Assets/Chess/Scripts/Core/ChessMovePredictor.cs:83-148 | For the rook, knight, bishop, queen and king, every move is in bounds and free. Every reported square is in bounds and held by another team. No reported square is also a move. |
| MoveProperties.NonPawnLeavesOrigin | Assets/Chess/Scripts/Core/ChessMovePredictor.cs:83-148 | For the rook, knight, bishop, queen and king, the square the piece stands on is never one of its moves. |
| MoveProperties.PawnForwardSteps | Assets/Chess/Scripts/Core/ChessMovePredictor.cs:57-81 | The single step is a move iff the square ahead is in bounds and free. The double step is a move iff the pawn is on its home row (1 or 6) and both squares ahead are free. |
| MoveProperties.PawnDiagonalAttack | Assets/Chess/Scripts/Core/ChessMovePredictor.cs:200-227 | Both forward diagonals are moves, and the square ahead is the only report, iff the pawn is on the board and the square ahead holds another team. |
| MoveProperties.PawnMovesOnly | Assets/Chess/Scripts/Core/ChessMovePredictor.cs:57-81 | A pawn's moves are only its single step, its double step and its two forward diagonals, so it has at most four. |
| MoveProperties.PawnOnEdgeColumnLeavesBoard | Assets/Chess/Scripts/Core/ChessMovePredictor.cs:205-206 | A Pawn1 on (1,0) facing an enemy on (2,0) gets the off-board square (2,-1) as a move, because the diagonals are not checked. |
| MoveProperties.PawnOnHomeRow | Assets/Chess/Scripts/Core/ChessMovePredictor.cs:61-65 | A lone Pawn1 on (1,4) gets (2,4) then (3,4), and nothing is reported. |
| MoveProperties.RayStoppedByEnemy | Assets/Chess/Scripts/Core/ChessMovePredictor.cs:164-171 | Along row 0 from the corner, with an enemy on (0,3), the ray gives moves (0,1) and (0,2). The enemy square is reported but is not a move. |
| MoveProperties.PredictEventsShape | Assets/Chess/Scripts/Core/ChessMovePredictor.cs:34-46 | An unparsable name makes no presenter call. Otherwise the calls are:<br>1. exactly one clear, first;<br>2. the enemy reports in generation order;<br>3. one highlight per move, in list order. |

## Left out

- **The presenter.** `ChessBoardPlacementHandler` is not part of this model. Its `ClearHighlights`, `Highlight` and `EnemyHighlight` are modelled only as entries appended to the presenter's log.
- **Singleton and scene lookup.** The `Instance` singleton and `Awake` are left out. So is `GameObject.Find("Player Positions")` with its walk over child transforms: the pieces are a constant sequence given to the predictor's constructor.
- **Error logging.** `Debug.LogError` becomes a boolean `errorLogged` field. The message text is not modelled.
- **Name parsing.** `ParseKind` is an exact, case-sensitive match against the seven names. `Enum.TryParse` also accepts other forms, which is library behaviour left out here:
  - numeric strings ("3");
  - names with surrounding whitespace (" Rook");
  - comma-separated lists whose values are ORed ("Pawn2, Rook" parses as `Knight`).
- **Input handling.** `InputHandler` is mouse-event plumbing with a floating-point tolerance. It also calls `PredictMoves` with three arguments, against the four-argument method that is modelled here.
- **Placement handler.** Only the `row`, `column` and `teamOption` fields of `ChessPlayerPlacementHandler` are kept. Its `Start` only positions a transform.
- **Integer width.** Coordinates are unbounded integers, while the source uses 32-bit `int`. Serialized coordinates can take any value, so `row + i * deltaRow` can wrap for coordinates within 7 of `int`'s limits. Every wrapped value is then off the board. The source always tests `WithinBounds` before it appends a square, reports it or looks it up, and the diagonal attack first requires the pawn itself to be on the board. So the outputs are the same as the model's.
- **Helper methods.** `AddPawn1Moves`, `AddPawn2Moves`, `AddRookRays`, `AddBishopRays`, `AddQueenMoves` and `AddOffsetMoves` are not separate methods in the source. They group code the source writes inline in the `switch` of `GetPossibleMoves`, in the same order. The knight and king loops share `AddOffsetMoves` because their bodies are identical.
- **Blockers are not moves.** When a ray is stopped by an enemy piece, that square is reported to the presenter but not added to the move list. The model follows the code here, not the reading that captures appear among the moves.
- **Pawn diagonals.** The diagonal attack adds both diagonal squares without looking at bounds or occupancy. The model keeps this, and `PawnOnEdgeColumnLeavesBoard` exhibits an off-board result.
