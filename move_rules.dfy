/** What one prediction computes, as functions of the board: the piece-kind
    parser, the sliding rays, the fixed-offset steps, the pawn rules, the
    per-kind dispatch, and the calls the presenter receives. The imperative
    predictor is proved to do exactly this. */
module MoveRules {
  import opened Board
  import opened Highlights

  /** The piece kinds; the pawn label fixes the direction of travel. */
  datatype ChessPieceType = Pawn1 | Pawn2 | Rook | Knight | Bishop | Queen | King

  datatype Option<T> = None | Some(value: T)

  /** The enum constant's name. */
  function KindName(k: ChessPieceType): string {
    match k
    case Pawn1 => "Pawn1"
    case Pawn2 => "Pawn2"
    case Rook => "Rook"
    case Knight => "Knight"
    case Bishop => "Bishop"
    case Queen => "Queen"
    case King => "King"
  }

  /** Case-sensitive parse of a piece's name into its kind; it succeeds
      exactly on the seven constant names, and gives back the kind so named. */
  function ParseKind(name: string): (r: Option<ChessPieceType>)
    ensures r.Some? ==> KindName(r.value) == name
    ensures r.None? ==> forall k: ChessPieceType :: KindName(k) != name
  {
    if name == "Pawn1" then Some(Pawn1)
    else if name == "Pawn2" then Some(Pawn2)
    else if name == "Rook" then Some(Rook)
    else if name == "Knight" then Some(Knight)
    else if name == "Bishop" then Some(Bishop)
    else if name == "Queen" then Some(Queen)
    else if name == "King" then Some(King)
    else None
  }

  /** The result of generation: the move list in the order it is built, and
      the squares reported to EnemyHighlight in the order they are reported. */
  datatype Gen = Gen(moves: seq<Pos>, enemies: seq<Pos>)

  const Nothing: Gen := Gen([], [])

  /** One part of the generation followed by another. */
  function Then(a: Gen, b: Gen): Gen {
    Gen(a.moves + b.moves, a.enemies + b.enemies)
  }

  lemma ThenAssoc(a: Gen, b: Gen, c: Gen)
    ensures Then(Then(a, b), c) == Then(a, Then(b, c))
  {
    assert (a.moves + b.moves) + c.moves == a.moves + (b.moves + c.moves);
    assert (a.enemies + b.enemies) + c.enemies == a.enemies + (b.enemies + c.enemies);
  }

  /** The square i steps from (row, column) along (deltaRow, deltaCol). */
  function Step(row: int, column: int, deltaRow: int, deltaCol: int, i: int): Pos {
    Pos(row + i * deltaRow, column + i * deltaCol)
  }

  /** The seven squares a ray visits in turn, steps 1 to 7. */
  function RaySquares(row: int, column: int, deltaRow: int, deltaCol: int): seq<Pos> {
    seq(7, j requires 0 <= j < 7 => Step(row, column, deltaRow, deltaCol, j + 1))
  }

  /** A ray over the squares it still has to visit: free squares are moves,
      the first square off the board or occupied ends it, and an occupied
      square of another team is reported as an enemy but is not a move. */
  function Walk(pieces: seq<Piece>, squares: seq<Pos>, teamName: string): Gen
    decreases |squares|
  {
    if squares == [] then Nothing
    else
      var p := squares[0];
      if !WithinBounds(p.row, p.column) then Nothing
      else if NotBlocked(pieces, p.row, p.column) then Then(Gen([p], []), Walk(pieces, squares[1..], teamName))
      else if TeamAtGivenPosition(pieces, p.row, p.column) != teamName then Gen([], [p])
      else Nothing
  }

  /** One step of a walk, case by case, with the moves so far in front. */
  lemma WalkAt(pieces: seq<Piece>, squares: seq<Pos>, j: int, teamName: string, items: seq<Pos>)
    requires 0 <= j < |squares|
    ensures !WithinBounds(squares[j].row, squares[j].column) ==> Walk(pieces, squares[j..], teamName) == Nothing
    ensures WithinBounds(squares[j].row, squares[j].column) && NotBlocked(pieces, squares[j].row, squares[j].column) ==>
              items + Walk(pieces, squares[j..], teamName).moves == items + [squares[j]] + Walk(pieces, squares[j + 1..], teamName).moves
              && Walk(pieces, squares[j..], teamName).enemies == Walk(pieces, squares[j + 1..], teamName).enemies
    ensures WithinBounds(squares[j].row, squares[j].column) && !NotBlocked(pieces, squares[j].row, squares[j].column) ==>
              Walk(pieces, squares[j..], teamName).moves == []
              && EnemyEvents(Walk(pieces, squares[j..], teamName).enemies)
                 == if TeamAtGivenPosition(pieces, squares[j].row, squares[j].column) != teamName
                    then [Enemy(squares[j])] else []
  {
    assert squares[j..][0] == squares[j];
    assert squares[j..][1..] == squares[j + 1..];
  }

  /** The ray from (row, column) along (deltaRow, deltaCol). */
  function Ray(pieces: seq<Piece>, row: int, column: int, deltaRow: int, deltaCol: int,
               teamName: string): Gen
  {
    Walk(pieces, RaySquares(row, column, deltaRow, deltaCol), teamName)
  }

  /** Several generation parts, one after another. */
  function Concat(parts: seq<Gen>): Gen
    decreases |parts|
  {
    if parts == [] then Nothing else Then(parts[0], Concat(parts[1..]))
  }

  /** The rays along a table of directions, one after another. */
  function Rays(pieces: seq<Piece>, row: int, column: int, dirs: seq<(int, int)>, teamName: string): Gen {
    Concat(seq(|dirs|, i requires 0 <= i < |dirs| => Ray(pieces, row, column, dirs[i].0, dirs[i].1, teamName)))
  }

  /** Up, down, right, left: the order of the rook's four calls. */
  const RookDirections: seq<(int, int)> := [(1, 0), (-1, 0), (0, 1), (0, -1)]
  /** Top-right, bottom-right, top-left, bottom-left. */
  const BishopDirections: seq<(int, int)> := [(1, 1), (-1, 1), (1, -1), (-1, -1)]
  /** The queen makes the rook's four calls, then the bishop's four. */
  const QueenDirections: seq<(int, int)> := [(1, 0), (-1, 0), (0, 1), (0, -1), (1, 1), (-1, 1), (1, -1), (-1, -1)]

  const KnightOffsets: seq<(int, int)> := [(2, 1), (1, 2), (-1, 2), (-2, 1), (-2, -1), (-1, -2), (1, -2), (2, -1)]
  const KingOffsets: seq<(int, int)> := [(1, 0), (1, 1), (0, 1), (-1, 1), (-1, 0), (-1, -1), (0, -1), (1, -1)]

  /** The square one table offset away. */
  function Target(row: int, column: int, offset: (int, int)): Pos {
    Pos(row + offset.0, column + offset.1)
  }

  /** One entry of a knight or king table: an off-board target gives
      nothing, a free one is a move, one held by another team is only
      reported as an enemy, one held by the own team gives nothing. */
  function StepAt(pieces: seq<Piece>, row: int, column: int, offset: (int, int), teamName: string): Gen {
    var p := Target(row, column, offset);
    if !WithinBounds(p.row, p.column) then Nothing
    else if NotBlocked(pieces, p.row, p.column) then Gen([p], [])
    else if TeamAtGivenPosition(pieces, p.row, p.column) != teamName then Gen([], [p])
    else Nothing
  }

  /** A whole offset table, entry by entry in table order. */
  function Steps(pieces: seq<Piece>, row: int, column: int, offsets: seq<(int, int)>, teamName: string): Gen {
    Concat(seq(|offsets|, i requires 0 <= i < |offsets| => StepAt(pieces, row, column, offsets[i], teamName)))
  }

  /** The diagonal-attack trigger: the pawn stands on the board and the
      square straight ahead holds a piece of another team. */
  predicate AttackFires(pieces: seq<Piece>, row: int, column: int, ahead: int, teamName: string) {
    WithinBounds(row, column)
    && TeamAtGivenPosition(pieces, ahead, column) != EmptyLabel
    && TeamAtGivenPosition(pieces, ahead, column) != teamName
  }

  /** The pawn's "diagonal attack": when the square straight ahead (row
      ahead, same column) holds a piece of another team, both forward
      diagonals become moves, unchecked against the board's edge or its
      occupants, and the square ahead is reported as an enemy. Nothing
      happens when the pawn itself is off the board. */
  function DiagonalAttack(pieces: seq<Piece>, row: int, column: int, ahead: int, teamName: string): Gen {
    if AttackFires(pieces, row, column, ahead, teamName)
    then Gen([Pos(ahead, column - 1), Pos(ahead, column + 1)], [Pos(ahead, column)])
    else Nothing
  }

  /** A pawn travelling by `forward` rows per move from home row `home`:
      single step, double step from the home row, then the diagonal attack. */
  function PawnMoves(pieces: seq<Piece>, row: int, column: int, forward: int, home: int,
                     teamName: string): Gen
  {
    var single :=
      if WithinBounds(row + forward, column) && NotBlocked(pieces, row + forward, column)
      then [Pos(row + forward, column)] else [];
    var double :=
      if row == home && WithinBounds(row + 2 * forward, column)
         && NotBlocked(pieces, row + 2 * forward, column) && NotBlocked(pieces, row + forward, column)
      then [Pos(row + 2 * forward, column)] else [];
    Then(Gen(single + double, []), DiagonalAttack(pieces, row, column, row + forward, teamName))
  }

  /** Rows per move of a pawn kind: Pawn1 climbs, Pawn2 descends. */
  function Forward(kind: ChessPieceType): int {
    if kind == Pawn2 then -1 else 1
  }

  /** The home row of a pawn kind, from which the double step is allowed. */
  function HomeRow(kind: ChessPieceType): int {
    if kind == Pawn2 then 6 else 1
  }

  /** Generation for one piece, dispatched on its kind. */
  function PossibleMoves(pieces: seq<Piece>, row: int, column: int, kind: ChessPieceType,
                         teamName: string): Gen
  {
    match kind
    case Pawn1 => PawnMoves(pieces, row, column, Forward(Pawn1), HomeRow(Pawn1), teamName)
    case Pawn2 => PawnMoves(pieces, row, column, Forward(Pawn2), HomeRow(Pawn2), teamName)
    case Rook => Rays(pieces, row, column, RookDirections, teamName)
    case Knight => Steps(pieces, row, column, KnightOffsets, teamName)
    case Bishop => Rays(pieces, row, column, BishopDirections, teamName)
    case Queen => Rays(pieces, row, column, QueenDirections, teamName)
    case King => Steps(pieces, row, column, KingOffsets, teamName)
  }

  /** The calls the presenter receives from one prediction: none when the
      name does not parse; otherwise one clear, the enemy marks made during
      generation, then one highlight per move in list order. */
  function PredictEvents(pieces: seq<Piece>, row: int, column: int, pieceName: string,
                         teamName: string): seq<Event>
  {
    match ParseKind(pieceName)
    case None => []
    case Some(kind) =>
      var g := PossibleMoves(pieces, row, column, kind, teamName);
      [Clear] + EnemyEvents(g.enemies) + MoveEvents(g.moves)
  }

  /** The events of a recognised name, appended to an existing log. */
  lemma PredictEventsOf(log: seq<Event>, pieces: seq<Piece>, row: int, column: int, pieceName: string,
                        teamName: string, kind: ChessPieceType)
    requires ParseKind(pieceName) == Some(kind)
    ensures log + PredictEvents(pieces, row, column, pieceName, teamName)
            == log + [Clear] + EnemyEvents(PossibleMoves(pieces, row, column, kind, teamName).enemies)
               + MoveEvents(PossibleMoves(pieces, row, column, kind, teamName).moves)
  {
  }

  /** Appending the results of one more part to a prefix already output. */
  lemma ThenOutput(items: seq<Pos>, log: seq<Event>, done: Gen, part: Gen)
    ensures items + done.moves + part.moves == items + Then(done, part).moves
    ensures log + EnemyEvents(done.enemies) + EnemyEvents(part.enemies) == log + EnemyEvents(Then(done, part).enemies)
  {
    EnemyEventsAppend(done.enemies, part.enemies);
  }

  /** Concatenating two lists of parts is concatenating their results. */
  lemma {:induction false} ConcatAppend(a: seq<Gen>, b: seq<Gen>)
    ensures Concat(a + b) == Then(Concat(a), Concat(b))
    decreases |a|
  {
    if a == [] {
      assert a + b == b;
    } else {
      assert (a + b)[1..] == a[1..] + b;
      ConcatAppend(a[1..], b);
    }
  }

  /** Parts from index k on: part k, then the rest. */
  lemma ConcatFrom(parts: seq<Gen>, k: nat)
    requires k < |parts|
    ensures Concat(parts[k..]) == Then(parts[k], Concat(parts[k + 1..]))
  {
    assert parts[k..][1..] == parts[k + 1..];
  }

  /** Four parts, flattened: their moves, and their enemy marks, in turn. */
  lemma Concat4(parts: seq<Gen>)
    requires |parts| == 4
    ensures Concat(parts).moves == parts[0].moves + parts[1].moves + parts[2].moves + parts[3].moves
    ensures EnemyEvents(Concat(parts).enemies)
            == EnemyEvents(parts[0].enemies) + EnemyEvents(parts[1].enemies)
             + EnemyEvents(parts[2].enemies) + EnemyEvents(parts[3].enemies)
  {
    var p0, p1, p2, p3 := parts[0], parts[1], parts[2], parts[3];
    assert parts == [p0] + [p1] + [p2] + [p3];
    ConcatAppend([p0] + [p1] + [p2], [p3]);
    ConcatAppend([p0] + [p1], [p2]);
    ConcatAppend([p0], [p1]);
    var g := Then(Then(Then(Concat([p0]), Concat([p1])), Concat([p2])), Concat([p3]));
    assert Concat(parts) == g;
    assert Concat([p0]) == p0 by { assert [p0][1..] == []; }
    assert Concat([p1]) == p1 by { assert [p1][1..] == []; }
    assert Concat([p2]) == p2 by { assert [p2][1..] == []; }
    assert Concat([p3]) == p3 by { assert [p3][1..] == []; }
    EnemyEventsAppend(p0.enemies + p1.enemies + p2.enemies, p3.enemies);
    EnemyEventsAppend(p0.enemies + p1.enemies, p2.enemies);
    EnemyEventsAppend(p0.enemies, p1.enemies);
  }

  /** The rook's rays, in the order of its four calls, appended to a move
      list `ms` and a presenter log `log`. */
  lemma RookRaysInOrder(pieces: seq<Piece>, row: int, column: int, teamName: string, ms: seq<Pos>, log: seq<Event>)
    ensures ms + PossibleMoves(pieces, row, column, Rook, teamName).moves
            == ms + Ray(pieces, row, column, 1, 0, teamName).moves + Ray(pieces, row, column, -1, 0, teamName).moves
                  + Ray(pieces, row, column, 0, 1, teamName).moves + Ray(pieces, row, column, 0, -1, teamName).moves
    ensures log + EnemyEvents(PossibleMoves(pieces, row, column, Rook, teamName).enemies)
            == log + EnemyEvents(Ray(pieces, row, column, 1, 0, teamName).enemies) + EnemyEvents(Ray(pieces, row, column, -1, 0, teamName).enemies)
                   + EnemyEvents(Ray(pieces, row, column, 0, 1, teamName).enemies) + EnemyEvents(Ray(pieces, row, column, 0, -1, teamName).enemies)
  {
    var parts := seq(4, i requires 0 <= i < 4 => Ray(pieces, row, column, RookDirections[i].0, RookDirections[i].1, teamName));
    Concat4(parts);
    var m0, m1, m2, m3 := parts[0].moves, parts[1].moves, parts[2].moves, parts[3].moves;
    assert ms + (m0 + m1 + m2 + m3) == ms + m0 + m1 + m2 + m3;
    var e0, e1, e2, e3 := EnemyEvents(parts[0].enemies), EnemyEvents(parts[1].enemies), EnemyEvents(parts[2].enemies), EnemyEvents(parts[3].enemies);
    assert log + (e0 + e1 + e2 + e3) == log + e0 + e1 + e2 + e3;
  }

  /** The bishop's rays, in the order of its four calls, appended to a move
      list `ms` and a presenter log `log`. */
  lemma BishopRaysInOrder(pieces: seq<Piece>, row: int, column: int, teamName: string, ms: seq<Pos>, log: seq<Event>)
    ensures ms + PossibleMoves(pieces, row, column, Bishop, teamName).moves
            == ms + Ray(pieces, row, column, 1, 1, teamName).moves + Ray(pieces, row, column, -1, 1, teamName).moves
                  + Ray(pieces, row, column, 1, -1, teamName).moves + Ray(pieces, row, column, -1, -1, teamName).moves
    ensures log + EnemyEvents(PossibleMoves(pieces, row, column, Bishop, teamName).enemies)
            == log + EnemyEvents(Ray(pieces, row, column, 1, 1, teamName).enemies) + EnemyEvents(Ray(pieces, row, column, -1, 1, teamName).enemies)
                   + EnemyEvents(Ray(pieces, row, column, 1, -1, teamName).enemies) + EnemyEvents(Ray(pieces, row, column, -1, -1, teamName).enemies)
  {
    var parts := seq(4, i requires 0 <= i < 4 => Ray(pieces, row, column, BishopDirections[i].0, BishopDirections[i].1, teamName));
    Concat4(parts);
    var m0, m1, m2, m3 := parts[0].moves, parts[1].moves, parts[2].moves, parts[3].moves;
    assert ms + (m0 + m1 + m2 + m3) == ms + m0 + m1 + m2 + m3;
    var e0, e1, e2, e3 := EnemyEvents(parts[0].enemies), EnemyEvents(parts[1].enemies), EnemyEvents(parts[2].enemies), EnemyEvents(parts[3].enemies);
    assert log + (e0 + e1 + e2 + e3) == log + e0 + e1 + e2 + e3;
  }

  /** The queen's moves are the rook's four rays followed by the bishop's
      four, and so are her enemy marks. */
  lemma QueenIsRookThenBishop(pieces: seq<Piece>, row: int, column: int, teamName: string)
    ensures PossibleMoves(pieces, row, column, Queen, teamName)
            == Then(PossibleMoves(pieces, row, column, Rook, teamName), PossibleMoves(pieces, row, column, Bishop, teamName))
  {
    var q := seq(8, i requires 0 <= i < 8 => Ray(pieces, row, column, QueenDirections[i].0, QueenDirections[i].1, teamName));
    var r := seq(4, i requires 0 <= i < 4 => Ray(pieces, row, column, RookDirections[i].0, RookDirections[i].1, teamName));
    var b := seq(4, i requires 0 <= i < 4 => Ray(pieces, row, column, BishopDirections[i].0, BishopDirections[i].1, teamName));
    assert forall i :: 0 <= i < 8 ==> QueenDirections[i] == (RookDirections + BishopDirections)[i];
    assert q == r + b;
    ConcatAppend(r, b);
  }
}
