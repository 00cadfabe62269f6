/** What the generated moves are, proved about the functions of MoveRules
    (and so, through the predictor's postconditions, about what the
    predictor appends and reports): the shape of a ray, the soundness of
    the stepping tables, the pawn rules one by one, and the order of the
    calls the presenter receives. */
module MoveProperties {
  import opened Board
  import opened Highlights
  import opened MoveRules

  /** A square a piece may move to: on the board and free. */
  predicate OpenSquare(pieces: seq<Piece>, p: Pos) {
    WithinBounds(p.row, p.column) && NotBlocked(pieces, p.row, p.column)
  }

  /** A square reported as an enemy: on the board, held by another team. */
  predicate EnemySquare(pieces: seq<Piece>, p: Pos, teamName: string) {
    WithinBounds(p.row, p.column) && !NotBlocked(pieces, p.row, p.column)
    && TeamAtGivenPosition(pieces, p.row, p.column) != teamName
  }

  /** Every move is open and every reported square holds an enemy. */
  predicate Sound(pieces: seq<Piece>, g: Gen, teamName: string) {
    (forall p :: p in g.moves ==> OpenSquare(pieces, p))
    && (forall p :: p in g.enemies ==> EnemySquare(pieces, p, teamName))
  }

  // ---------------------------------------------------------------------
  // Sliding rays
  // ---------------------------------------------------------------------

  /** The length of the run of open squares at the front of `squares`. */
  function OpenRun(pieces: seq<Piece>, squares: seq<Pos>): (k: nat)
    ensures k <= |squares|
    ensures forall j :: 0 <= j < k ==> OpenSquare(pieces, squares[j])
    ensures k < |squares| ==> !OpenSquare(pieces, squares[k])
    decreases |squares|
  {
    if squares == [] || !OpenSquare(pieces, squares[0]) then 0
    else 1 + OpenRun(pieces, squares[1..])
  }

  /** A walk yields exactly its run of open squares as moves, and reports
      the square that ends the run iff that square is on the board and
      held by another team. */
  lemma {:induction false} WalkShape(pieces: seq<Piece>, squares: seq<Pos>, teamName: string)
    ensures Walk(pieces, squares, teamName).moves == squares[..OpenRun(pieces, squares)]
    ensures Walk(pieces, squares, teamName).enemies
            == var k := OpenRun(pieces, squares);
               if k < |squares| && EnemySquare(pieces, squares[k], teamName) then [squares[k]] else []
    decreases |squares|
  {
    if squares != [] && OpenSquare(pieces, squares[0]) {
      WalkShape(pieces, squares[1..], teamName);
      var k := OpenRun(pieces, squares[1..]);
      assert [squares[0]] + squares[1..][..k] == squares[..k + 1];
    }
  }

  /** The first step, counted from 1, whose square is off the board or
      occupied; 8 when all seven steps are open. */
  function FirstStop(pieces: seq<Piece>, row: int, column: int, deltaRow: int, deltaCol: int): (k: int)
    ensures 1 <= k <= 8
    ensures forall i :: 1 <= i < k ==> OpenSquare(pieces, Step(row, column, deltaRow, deltaCol, i))
    ensures k <= 7 ==> !OpenSquare(pieces, Step(row, column, deltaRow, deltaCol, k))
  {
    var squares := RaySquares(row, column, deltaRow, deltaCol);
    var k := OpenRun(pieces, squares);
    assert forall i :: 1 <= i <= 7 ==> squares[i - 1] == Step(row, column, deltaRow, deltaCol, i);
    k + 1
  }

  /** A ray's moves are exactly the steps 1 .. FirstStop - 1, in order; its
      only possible enemy report is the stopping square, made iff that
      square is on the board and held by another team. */
  lemma RayShape(pieces: seq<Piece>, row: int, column: int, deltaRow: int, deltaCol: int, teamName: string)
    ensures |Ray(pieces, row, column, deltaRow, deltaCol, teamName).moves| == FirstStop(pieces, row, column, deltaRow, deltaCol) - 1
    ensures forall j :: 0 <= j < |Ray(pieces, row, column, deltaRow, deltaCol, teamName).moves| ==>
              Ray(pieces, row, column, deltaRow, deltaCol, teamName).moves[j] == Step(row, column, deltaRow, deltaCol, j + 1)
    ensures Ray(pieces, row, column, deltaRow, deltaCol, teamName).enemies
            == var k := FirstStop(pieces, row, column, deltaRow, deltaCol);
               if k <= 7 && EnemySquare(pieces, Step(row, column, deltaRow, deltaCol, k), teamName)
               then [Step(row, column, deltaRow, deltaCol, k)] else []
  {
    WalkShape(pieces, RaySquares(row, column, deltaRow, deltaCol), teamName);
  }

  /** A ray never gives more than seven moves, every one of them open,
      and reports only an enemy; so it never lists the square that stops
      it, which is not open. */
  lemma RayBounds(pieces: seq<Piece>, row: int, column: int, deltaRow: int, deltaCol: int, teamName: string)
    ensures |Ray(pieces, row, column, deltaRow, deltaCol, teamName).moves| <= 7
    ensures Sound(pieces, Ray(pieces, row, column, deltaRow, deltaCol, teamName), teamName)
    ensures var k := FirstStop(pieces, row, column, deltaRow, deltaCol);
            k <= 7 ==> Step(row, column, deltaRow, deltaCol, k) !in Ray(pieces, row, column, deltaRow, deltaCol, teamName).moves
  {
    var g := Ray(pieces, row, column, deltaRow, deltaCol, teamName);
    RayShape(pieces, row, column, deltaRow, deltaCol, teamName);
    forall p | p in g.moves
      ensures OpenSquare(pieces, p)
    {
      var j :| 0 <= j < |g.moves| && g.moves[j] == p;
      assert p == Step(row, column, deltaRow, deltaCol, j + 1);
    }
  }

  /** A ray along a nonzero direction never comes back to its origin. */
  lemma RayLeavesOrigin(pieces: seq<Piece>, row: int, column: int, deltaRow: int, deltaCol: int, teamName: string)
    requires (deltaRow, deltaCol) != (0, 0)
    ensures Pos(row, column) !in Ray(pieces, row, column, deltaRow, deltaCol, teamName).moves
  {
    var g := Ray(pieces, row, column, deltaRow, deltaCol, teamName);
    RayShape(pieces, row, column, deltaRow, deltaCol, teamName);
    if Pos(row, column) in g.moves {
      var j :| 0 <= j < |g.moves| && g.moves[j] == Pos(row, column);
      assert Step(row, column, deltaRow, deltaCol, j + 1) == Pos(row, column);
      if deltaRow != 0 {
        StepMoves(j + 1, deltaRow);
      } else {
        StepMoves(j + 1, deltaCol);
      }
    }
  }

  /** Moving i >= 1 times by a nonzero amount gets somewhere. */
  lemma {:induction false} StepMoves(i: int, delta: int)
    requires i >= 1 && delta != 0
    ensures i * delta != 0
    ensures delta > 0 ==> i * delta >= i
    ensures delta < 0 ==> i * delta <= -i
    decreases i
  {
    if i > 1 {
      StepMoves(i - 1, delta);
      assert i * delta == (i - 1) * delta + delta;
    }
  }

  // ---------------------------------------------------------------------
  // Stepping tables (knight, king)
  // ---------------------------------------------------------------------

  /** Whether p is one table offset away from (row, column). */
  predicate IsTarget(row: int, column: int, offsets: seq<(int, int)>, p: Pos) {
    exists i :: 0 <= i < |offsets| && Target(row, column, offsets[i]) == p
  }

  /** A table is its first entry followed by the rest of the table. */
  lemma StepsCons(pieces: seq<Piece>, row: int, column: int, offsets: seq<(int, int)>, teamName: string)
    requires |offsets| > 0
    ensures Steps(pieces, row, column, offsets, teamName)
            == Then(StepAt(pieces, row, column, offsets[0], teamName), Steps(pieces, row, column, offsets[1..], teamName))
  {
    var parts := seq(|offsets|, i requires 0 <= i < |offsets| => StepAt(pieces, row, column, offsets[i], teamName));
    assert parts[1..] == seq(|offsets| - 1, i requires 0 <= i < |offsets| - 1 => StepAt(pieces, row, column, offsets[1..][i], teamName));
  }

  /** The moves of a table are exactly its open targets and its enemy
      reports exactly its targets held by another team; each entry gives
      at most one of the two. */
  lemma {:induction false} StepsMembers(pieces: seq<Piece>, row: int, column: int, offsets: seq<(int, int)>, teamName: string)
    ensures forall p :: p in Steps(pieces, row, column, offsets, teamName).moves
                        <==> IsTarget(row, column, offsets, p) && OpenSquare(pieces, p)
    ensures forall p :: p in Steps(pieces, row, column, offsets, teamName).enemies
                        <==> IsTarget(row, column, offsets, p) && EnemySquare(pieces, p, teamName)
    ensures |Steps(pieces, row, column, offsets, teamName).moves| + |Steps(pieces, row, column, offsets, teamName).enemies| <= |offsets|
    decreases |offsets|
  {
    if offsets == [] {
      assert Steps(pieces, row, column, offsets, teamName) == Nothing;
    } else {
      StepsCons(pieces, row, column, offsets, teamName);
      StepsMembers(pieces, row, column, offsets[1..], teamName);
      forall p
        ensures IsTarget(row, column, offsets, p)
                <==> Target(row, column, offsets[0]) == p || IsTarget(row, column, offsets[1..], p)
      {
        if IsTarget(row, column, offsets, p) {
          var i :| 0 <= i < |offsets| && Target(row, column, offsets[i]) == p;
          if i > 0 {
            assert offsets[1..][i - 1] == offsets[i];
          }
        }
        if IsTarget(row, column, offsets[1..], p) {
          var i :| 0 <= i < |offsets[1..]| && Target(row, column, offsets[1..][i]) == p;
          assert offsets[i + 1] == offsets[1..][i];
        }
      }
    }
  }

  /** When every target is open, the moves are all the targets in table
      order and nothing is reported. */
  lemma {:induction false} StepsAllOpen(pieces: seq<Piece>, row: int, column: int, offsets: seq<(int, int)>, teamName: string)
    requires forall i :: 0 <= i < |offsets| ==> OpenSquare(pieces, Target(row, column, offsets[i]))
    ensures Steps(pieces, row, column, offsets, teamName).moves
            == seq(|offsets|, i requires 0 <= i < |offsets| => Target(row, column, offsets[i]))
    ensures Steps(pieces, row, column, offsets, teamName).enemies == []
    decreases |offsets|
  {
    if offsets == [] {
      assert Steps(pieces, row, column, offsets, teamName) == Nothing;
    } else {
      StepsCons(pieces, row, column, offsets, teamName);
      assert forall i :: 0 <= i < |offsets[1..]| ==> offsets[1..][i] == offsets[i + 1];
      StepsAllOpen(pieces, row, column, offsets[1..], teamName);
    }
  }

  /** A knight two or more squares away from every edge, alone on the
      board, gets all eight of its moves in table order. */
  lemma KnightInOpenField(pieces: seq<Piece>, row: int, column: int, teamName: string)
    requires 2 <= row <= 5 && 2 <= column <= 5
    requires forall k :: 0 <= k < |pieces| ==> IsAt(pieces[k], row, column)
    ensures PossibleMoves(pieces, row, column, Knight, teamName).moves
            == seq(8, i requires 0 <= i < 8 => Target(row, column, KnightOffsets[i]))
    ensures |PossibleMoves(pieces, row, column, Knight, teamName).moves| == 8
    ensures PossibleMoves(pieces, row, column, Knight, teamName).enemies == []
  {
    forall i | 0 <= i < |KnightOffsets|
      ensures OpenSquare(pieces, Target(row, column, KnightOffsets[i]))
    {
      var t := Target(row, column, KnightOffsets[i]);
      assert t != Pos(row, column);
      NotBlockedIff(pieces, t.row, t.column);
    }
    StepsAllOpen(pieces, row, column, KnightOffsets, teamName);
  }

  // ---------------------------------------------------------------------
  // Soundness of the sliding and stepping pieces
  // ---------------------------------------------------------------------

  /** Parts that are each sound give a sound whole. */
  lemma {:induction false} ConcatSound(pieces: seq<Piece>, parts: seq<Gen>, teamName: string)
    requires forall i :: 0 <= i < |parts| ==> Sound(pieces, parts[i], teamName)
    ensures Sound(pieces, Concat(parts), teamName)
    decreases |parts|
  {
    if parts != [] {
      ConcatSound(pieces, parts[1..], teamName);
    }
  }

  /** For every kind but the pawns, each move is on the board and free,
      and each reported square is on the board and held by another team;
      in particular no reported square is also a move. */
  lemma NonPawnSound(pieces: seq<Piece>, row: int, column: int, kind: ChessPieceType, teamName: string)
    requires kind != Pawn1 && kind != Pawn2
    ensures Sound(pieces, PossibleMoves(pieces, row, column, kind, teamName), teamName)
    ensures forall p :: p in PossibleMoves(pieces, row, column, kind, teamName).enemies
                        ==> p !in PossibleMoves(pieces, row, column, kind, teamName).moves
  {
    match kind {
      case Rook => RaysSound(pieces, row, column, RookDirections, teamName);
      case Bishop => RaysSound(pieces, row, column, BishopDirections, teamName);
      case Queen => RaysSound(pieces, row, column, QueenDirections, teamName);
      case Knight => StepsMembers(pieces, row, column, KnightOffsets, teamName);
      case King => StepsMembers(pieces, row, column, KingOffsets, teamName);
    }
  }

  lemma RaysSound(pieces: seq<Piece>, row: int, column: int, dirs: seq<(int, int)>, teamName: string)
    ensures Sound(pieces, Rays(pieces, row, column, dirs, teamName), teamName)
  {
    var parts := seq(|dirs|, i requires 0 <= i < |dirs| => Ray(pieces, row, column, dirs[i].0, dirs[i].1, teamName));
    forall i | 0 <= i < |parts|
      ensures Sound(pieces, parts[i], teamName)
    {
      RayBounds(pieces, row, column, dirs[i].0, dirs[i].1, teamName);
    }
    ConcatSound(pieces, parts, teamName);
  }

  /** A square that no part moves to is not moved to by the whole. */
  lemma {:induction false} ConcatAvoids(parts: seq<Gen>, p: Pos)
    requires forall i :: 0 <= i < |parts| ==> p !in parts[i].moves
    ensures p !in Concat(parts).moves
    decreases |parts|
  {
    if parts != [] {
      ConcatAvoids(parts[1..], p);
    }
  }

  lemma RaysLeaveOrigin(pieces: seq<Piece>, row: int, column: int, dirs: seq<(int, int)>, teamName: string)
    requires forall i :: 0 <= i < |dirs| ==> dirs[i] != (0, 0)
    ensures Pos(row, column) !in Rays(pieces, row, column, dirs, teamName).moves
  {
    var parts := seq(|dirs|, i requires 0 <= i < |dirs| => Ray(pieces, row, column, dirs[i].0, dirs[i].1, teamName));
    forall i | 0 <= i < |parts|
      ensures Pos(row, column) !in parts[i].moves
    {
      RayLeavesOrigin(pieces, row, column, dirs[i].0, dirs[i].1, teamName);
    }
    ConcatAvoids(parts, Pos(row, column));
  }

  lemma StepsLeaveOrigin(pieces: seq<Piece>, row: int, column: int, offsets: seq<(int, int)>, teamName: string)
    requires forall i :: 0 <= i < |offsets| ==> offsets[i] != (0, 0)
    ensures Pos(row, column) !in Steps(pieces, row, column, offsets, teamName).moves
  {
    StepsMembers(pieces, row, column, offsets, teamName);
    assert forall i :: 0 <= i < |offsets| ==> Target(row, column, offsets[i]) != Pos(row, column);
  }

  /** No kind but the pawns ever lists the square the piece stands on. */
  lemma NonPawnLeavesOrigin(pieces: seq<Piece>, row: int, column: int, kind: ChessPieceType, teamName: string)
    requires kind != Pawn1 && kind != Pawn2
    ensures Pos(row, column) !in PossibleMoves(pieces, row, column, kind, teamName).moves
  {
    match kind {
      case Rook => RaysLeaveOrigin(pieces, row, column, RookDirections, teamName);
      case Bishop => RaysLeaveOrigin(pieces, row, column, BishopDirections, teamName);
      case Queen => RaysLeaveOrigin(pieces, row, column, QueenDirections, teamName);
      case Knight => StepsLeaveOrigin(pieces, row, column, KnightOffsets, teamName);
      case King => StepsLeaveOrigin(pieces, row, column, KingOffsets, teamName);
    }
  }

  // ---------------------------------------------------------------------
  // Pawns
  // ---------------------------------------------------------------------

  /** The forward steps of a pawn: the single step is a move iff the square
      ahead is on the board and free; the double step iff the pawn is on
      its home row and both squares ahead are free (the farther one on the
      board). */
  lemma PawnForwardSteps(pieces: seq<Piece>, row: int, column: int, kind: ChessPieceType, teamName: string)
    requires kind == Pawn1 || kind == Pawn2
    ensures Pos(row + Forward(kind), column) in PossibleMoves(pieces, row, column, kind, teamName).moves
            <==> OpenSquare(pieces, Pos(row + Forward(kind), column))
    ensures Pos(row + 2 * Forward(kind), column) in PossibleMoves(pieces, row, column, kind, teamName).moves
            <==> row == HomeRow(kind) && OpenSquare(pieces, Pos(row + 2 * Forward(kind), column))
                 && NotBlocked(pieces, row + Forward(kind), column)
  {
  }

  /** The diagonal attack of a pawn: both forward diagonals are moves, and
      the square straight ahead is reported, exactly when the attack fires. */
  lemma PawnDiagonalAttack(pieces: seq<Piece>, row: int, column: int, kind: ChessPieceType, teamName: string)
    requires kind == Pawn1 || kind == Pawn2
    ensures Pos(row + Forward(kind), column - 1) in PossibleMoves(pieces, row, column, kind, teamName).moves
            <==> AttackFires(pieces, row, column, row + Forward(kind), teamName)
    ensures Pos(row + Forward(kind), column + 1) in PossibleMoves(pieces, row, column, kind, teamName).moves
            <==> AttackFires(pieces, row, column, row + Forward(kind), teamName)
    ensures PossibleMoves(pieces, row, column, kind, teamName).enemies
            == if AttackFires(pieces, row, column, row + Forward(kind), teamName)
               then [Pos(row + Forward(kind), column)] else []
  {
  }

  /** Beside the forward steps and the two diagonals a pawn has no moves,
      so it has at most four. */
  lemma PawnMovesOnly(pieces: seq<Piece>, row: int, column: int, kind: ChessPieceType, teamName: string)
    requires kind == Pawn1 || kind == Pawn2
    ensures forall p :: p in PossibleMoves(pieces, row, column, kind, teamName).moves ==>
              p in {Pos(row + Forward(kind), column), Pos(row + 2 * Forward(kind), column),
                    Pos(row + Forward(kind), column - 1), Pos(row + Forward(kind), column + 1)}
    ensures |PossibleMoves(pieces, row, column, kind, teamName).moves| <= 4
  {
  }

  // ---------------------------------------------------------------------
  // The presenter's calls
  // ---------------------------------------------------------------------

  /** The calls made for a generation `g`: one clear, first; then the
      enemy reports in order; then one highlight per move in order. */
  predicate CallsFor(events: seq<Event>, g: Gen) {
    |events| == 1 + |g.enemies| + |g.moves|
    && events[0] == Clear
    && (forall i :: 1 <= i < |events| ==> !events[i].Clear?)
    && (forall j :: 0 <= j < |g.enemies| ==> events[1 + j] == Enemy(g.enemies[j]))
    && (forall j :: 0 <= j < |g.moves| ==> events[1 + |g.enemies| + j] == Move(g.moves[j]))
  }

  lemma CallsForGen(g: Gen)
    ensures CallsFor([Clear] + EnemyEvents(g.enemies) + MoveEvents(g.moves), g)
  {
    var es, ms := EnemyEvents(g.enemies), MoveEvents(g.moves);
    var events := [Clear] + es + ms;
    forall i | 1 <= i < |events|
      ensures !events[i].Clear?
    {
      if i < 1 + |es| {
        assert events[i] == es[i - 1];
      } else {
        assert events[i] == ms[i - 1 - |es|];
      }
    }
  }

  /** An unknown name reaches the presenter not at all. A known one gives
      exactly one clear, first; then the enemy reports made during
      generation, in order; then one highlight per move, in list order. */
  lemma PredictEventsShape(pieces: seq<Piece>, row: int, column: int, pieceName: string, teamName: string)
    ensures ParseKind(pieceName).None? ==> PredictEvents(pieces, row, column, pieceName, teamName) == []
    ensures ParseKind(pieceName).Some? ==>
              CallsFor(PredictEvents(pieces, row, column, pieceName, teamName),
                       PossibleMoves(pieces, row, column, ParseKind(pieceName).value, teamName))
  {
    if ParseKind(pieceName).Some? {
      CallsForGen(PossibleMoves(pieces, row, column, ParseKind(pieceName).value, teamName));
    }
  }

  // ---------------------------------------------------------------------
  // Worked positions
  // ---------------------------------------------------------------------

  /** A pawn on the edge column whose square ahead holds an enemy gets a
      "move" off the board: the diagonal squares are not checked. */
  lemma PawnOnEdgeColumnLeavesBoard()
    ensures var pieces := [Piece(1, 0, Team1), Piece(2, 0, Team2)];
            PossibleMoves(pieces, 1, 0, Pawn1, "Team1") == Gen([Pos(2, -1), Pos(2, 1)], [Pos(2, 0)])
            && !WithinBounds(2, -1)
  {
  }

  /** A lone Pawn1 on its home row steps one or two rows up. */
  lemma PawnOnHomeRow()
    ensures PossibleMoves([Piece(1, 4, Team1)], 1, 4, Pawn1, "Team1") == Gen([Pos(2, 4), Pos(3, 4)], [])
  {
  }

  /** A ray along the bottom row from the corner, with an enemy on the
      fourth square: the two squares before the enemy are moves, and the
      enemy is reported but not listed. */
  lemma RayStoppedByEnemy()
    ensures Ray([Piece(0, 0, Team1), Piece(0, 3, Team2)], 0, 0, 0, 1, "Team1")
            == Gen([Pos(0, 1), Pos(0, 2)], [Pos(0, 3)])
  {
    var pieces := [Piece(0, 0, Team1), Piece(0, 3, Team2)];
    RayShape(pieces, 0, 0, 0, 1, "Team1");
    assert OpenSquare(pieces, Step(0, 0, 0, 1, 1)) && OpenSquare(pieces, Step(0, 0, 0, 1, 2));
    assert !OpenSquare(pieces, Step(0, 0, 0, 1, 3));
    assert FirstStop(pieces, 0, 0, 0, 1) == 3;
  }
}
