/** The move predictor itself: a class whose methods append to a shared
    move list and notify the presenter step by step, each proved to do what
    the functions of MoveRules describe. */
module MovePredictor {
  import opened Board
  import opened Highlights
  import opened MoveRules

  class ChessMovePredictor {
    /** The pieces on the board. Generation only reads them. */
    const pieces: seq<Piece>
    /** Where the highlight calls go. */
    const presenter: Presenter
    /** Whether an invalid piece name has been logged as an error. */
    var errorLogged: bool

    constructor(pieces: seq<Piece>, presenter: Presenter)
      ensures this.pieces == pieces && this.presenter == presenter && !errorLogged
    {
      this.pieces := pieces;
      this.presenter := presenter;
      errorLogged := false;
    }

    /** Highlights the moves of the piece named `pieceName` at (row, column).
        An unknown name is logged and nothing reaches the presenter. */
    method PredictMoves(row: int, column: int, pieceName: string, teamName: string)
      modifies this, presenter
      ensures presenter.log == old(presenter.log) + PredictEvents(pieces, row, column, pieceName, teamName)
      ensures errorLogged == (old(errorLogged) || ParseKind(pieceName).None?)
    {
      var parsed := ParseKind(pieceName);
      if parsed.None? {
        errorLogged := true;
        return;
      }
      var pieceType := parsed.value;
      PredictEventsOf(presenter.log, pieces, row, column, pieceName, teamName, pieceType);
      presenter.ClearHighlights();
      var possibleMoves := GetPossibleMoves(row, column, pieceType, teamName);
      var moves := possibleMoves.items;
      ghost var before := presenter.log;
      for i := 0 to |moves|
        modifies presenter
        invariant presenter.log == before + MoveEvents(moves[..i])
      {
        presenter.Highlight(moves[i].row, moves[i].column);
        MoveEventsPrefix(moves, i);
      }
      assert moves[..|moves|] == moves;
    }

    /** The moves of a piece of kind `pieceType` at (row, column), enemy
        squares being reported to the presenter on the way. */
    method GetPossibleMoves(row: int, column: int, pieceType: ChessPieceType, teamName: string)
      returns (moves: MoveList)
      modifies presenter
      ensures fresh(moves)
      ensures moves.items == PossibleMoves(pieces, row, column, pieceType, teamName).moves
      ensures presenter.log == old(presenter.log) + EnemyEvents(PossibleMoves(pieces, row, column, pieceType, teamName).enemies)
    {
      moves := new MoveList();
      match pieceType {
        case Pawn1 =>
          AddPawn1Moves(row, column, moves, teamName);
        case Pawn2 =>
          AddPawn2Moves(row, column, moves, teamName);
        case Rook =>
          AddRookRays(row, column, moves, teamName);
        case Knight =>
          AddOffsetMoves(row, column, KnightOffsets, moves, teamName);
        case Bishop =>
          AddBishopRays(row, column, moves, teamName);
        case Queen =>
          AddQueenMoves(row, column, moves, teamName);
        case King =>
          AddOffsetMoves(row, column, KingOffsets, moves, teamName);
      }
    }

    /** The Pawn1 branch: single step, double step from row 1, diagonal
        attack, all towards increasing rows. */
    method AddPawn1Moves(row: int, column: int, moves: MoveList, teamName: string)
      modifies moves, presenter
      ensures moves.items == old(moves.items) + PossibleMoves(pieces, row, column, Pawn1, teamName).moves
      ensures presenter.log == old(presenter.log) + EnemyEvents(PossibleMoves(pieces, row, column, Pawn1, teamName).enemies)
    {
      var forwardDir := 1;
      var startRow := 1;
      if WithinBounds(row + forwardDir, column) && NotBlocked(pieces, row + forwardDir, column) {
        moves.Add(Pos(row + forwardDir, column));
      }
      if row == startRow && WithinBounds(row + 2 * forwardDir, column)
         && NotBlocked(pieces, row + 2 * forwardDir, column) && NotBlocked(pieces, row + forwardDir, column) {
        moves.Add(Pos(row + 2 * forwardDir, column));
      }
      CheckDiagonalAttackForPawn1(row, column, moves, teamName);
    }

    /** The Pawn2 branch: single step, double step from row 6, diagonal
        attack, all towards decreasing rows. */
    method AddPawn2Moves(row: int, column: int, moves: MoveList, teamName: string)
      modifies moves, presenter
      ensures moves.items == old(moves.items) + PossibleMoves(pieces, row, column, Pawn2, teamName).moves
      ensures presenter.log == old(presenter.log) + EnemyEvents(PossibleMoves(pieces, row, column, Pawn2, teamName).enemies)
    {
      var backwardDir := 1;
      var startingRow := 6;
      if WithinBounds(row - backwardDir, column) && NotBlocked(pieces, row - backwardDir, column) {
        moves.Add(Pos(row - backwardDir, column));
      }
      if row == startingRow && WithinBounds(row - 2 * backwardDir, column)
         && NotBlocked(pieces, row - 2 * backwardDir, column) && NotBlocked(pieces, row - backwardDir, column) {
        moves.Add(Pos(row - 2 * backwardDir, column));
      }
      CheckDiagonalAttackForPawn2(row, column, moves, teamName);
    }

    /** The block of four calls the rook and the queen make: up, down,
        right, left. */
    method AddRookRays(row: int, column: int, moves: MoveList, teamName: string)
      modifies moves, presenter
      ensures moves.items == old(moves.items) + PossibleMoves(pieces, row, column, Rook, teamName).moves
      ensures presenter.log == old(presenter.log) + EnemyEvents(PossibleMoves(pieces, row, column, Rook, teamName).enemies)
    {
      AddStraightLineMoves(row, column, 1, 0, moves, teamName);
      AddStraightLineMoves(row, column, -1, 0, moves, teamName);
      AddStraightLineMoves(row, column, 0, 1, moves, teamName);
      AddStraightLineMoves(row, column, 0, -1, moves, teamName);
      RookRaysInOrder(pieces, row, column, teamName, old(moves.items), old(presenter.log));
    }

    /** The block of four calls the bishop and the queen make: top-right,
        bottom-right, top-left, bottom-left. */
    method AddBishopRays(row: int, column: int, moves: MoveList, teamName: string)
      modifies moves, presenter
      ensures moves.items == old(moves.items) + PossibleMoves(pieces, row, column, Bishop, teamName).moves
      ensures presenter.log == old(presenter.log) + EnemyEvents(PossibleMoves(pieces, row, column, Bishop, teamName).enemies)
    {
      AddDiagonalMoves(row, column, 1, 1, moves, teamName);
      AddDiagonalMoves(row, column, -1, 1, moves, teamName);
      AddDiagonalMoves(row, column, 1, -1, moves, teamName);
      AddDiagonalMoves(row, column, -1, -1, moves, teamName);
      BishopRaysInOrder(pieces, row, column, teamName, old(moves.items), old(presenter.log));
    }

    /** The queen's block: the rook's four calls, then the bishop's four. */
    method AddQueenMoves(row: int, column: int, moves: MoveList, teamName: string)
      modifies moves, presenter
      ensures moves.items == old(moves.items) + PossibleMoves(pieces, row, column, Queen, teamName).moves
      ensures presenter.log == old(presenter.log) + EnemyEvents(PossibleMoves(pieces, row, column, Queen, teamName).enemies)
    {
      AddRookRays(row, column, moves, teamName);
      AddBishopRays(row, column, moves, teamName);
      QueenIsRookThenBishop(pieces, row, column, teamName);
      EnemyEventsAppend(PossibleMoves(pieces, row, column, Rook, teamName).enemies,
                        PossibleMoves(pieces, row, column, Bishop, teamName).enemies);
    }

    /** Walks one line from (row, column) along (deltaRow, deltaCol). */
    method AddStraightLineMoves(row: int, column: int, deltaRow: int, deltaCol: int,
                                moves: MoveList, teamName: string)
      modifies moves, presenter
      ensures moves.items == old(moves.items) + Ray(pieces, row, column, deltaRow, deltaCol, teamName).moves
      ensures presenter.log == old(presenter.log) + EnemyEvents(Ray(pieces, row, column, deltaRow, deltaCol, teamName).enemies)
    {
      ghost var squares := RaySquares(row, column, deltaRow, deltaCol);
      for i := 1 to 8
        invariant moves.items + Walk(pieces, squares[i - 1..], teamName).moves
                  == old(moves.items) + Ray(pieces, row, column, deltaRow, deltaCol, teamName).moves
        invariant Walk(pieces, squares[i - 1..], teamName).enemies
                  == Ray(pieces, row, column, deltaRow, deltaCol, teamName).enemies
        invariant presenter.log == old(presenter.log)
      {
        var newRow := row + i * deltaRow;
        var newCol := column + i * deltaCol;
        assert squares[i - 1] == Pos(newRow, newCol);
        WalkAt(pieces, squares, i - 1, teamName, moves.items);
        if !WithinBounds(newRow, newCol) {
          break;
        }
        if NotBlocked(pieces, newRow, newCol) {
          moves.Add(Pos(newRow, newCol));
        } else {
          if TeamAtGivenPosition(pieces, newRow, newCol) != teamName {
            presenter.EnemyHighlight(newRow, newCol);
          }
          break;
        }
      }
    }

    /** Walks one diagonal from (row, column) along (deltaRow, deltaCol);
        the same walk as AddStraightLineMoves. */
    method AddDiagonalMoves(row: int, column: int, deltaRow: int, deltaCol: int,
                            moves: MoveList, teamName: string)
      modifies moves, presenter
      ensures moves.items == old(moves.items) + Ray(pieces, row, column, deltaRow, deltaCol, teamName).moves
      ensures presenter.log == old(presenter.log) + EnemyEvents(Ray(pieces, row, column, deltaRow, deltaCol, teamName).enemies)
    {
      ghost var squares := RaySquares(row, column, deltaRow, deltaCol);
      for i := 1 to 8
        invariant moves.items + Walk(pieces, squares[i - 1..], teamName).moves
                  == old(moves.items) + Ray(pieces, row, column, deltaRow, deltaCol, teamName).moves
        invariant Walk(pieces, squares[i - 1..], teamName).enemies
                  == Ray(pieces, row, column, deltaRow, deltaCol, teamName).enemies
        invariant presenter.log == old(presenter.log)
      {
        var newRow := row + i * deltaRow;
        var newCol := column + i * deltaCol;
        assert squares[i - 1] == Pos(newRow, newCol);
        WalkAt(pieces, squares, i - 1, teamName, moves.items);
        if !WithinBounds(newRow, newCol) {
          break;
        }
        if NotBlocked(pieces, newRow, newCol) {
          moves.Add(Pos(newRow, newCol));
        } else {
          if TeamAtGivenPosition(pieces, newRow, newCol) != teamName {
            presenter.EnemyHighlight(newRow, newCol);
          }
          break;
        }
      }
    }

    /** The knight's and the king's loop over their offset tables. */
    method AddOffsetMoves(row: int, column: int, offsets: seq<(int, int)>, moves: MoveList, teamName: string)
      modifies moves, presenter
      ensures moves.items == old(moves.items) + Steps(pieces, row, column, offsets, teamName).moves
      ensures presenter.log == old(presenter.log) + EnemyEvents(Steps(pieces, row, column, offsets, teamName).enemies)
    {
      ghost var parts := seq(|offsets|, i requires 0 <= i < |offsets| => StepAt(pieces, row, column, offsets[i], teamName));
      ghost var done := Nothing;
      for k := 0 to |offsets|
        invariant Then(done, Concat(parts[k..])) == Concat(parts)
        invariant moves.items == old(moves.items) + done.moves
        invariant presenter.log == old(presenter.log) + EnemyEvents(done.enemies)
      {
        var move := offsets[k];
        var newRow := row + move.0;
        var newCol := column + move.1;
        ghost var part := StepAt(pieces, row, column, move, teamName);
        assert parts[k] == part;
        ConcatFrom(parts, k);
        ThenAssoc(done, part, Concat(parts[k + 1..]));
        ThenOutput(old(moves.items), old(presenter.log), done, part);
        if WithinBounds(newRow, newCol) {
          if NotBlocked(pieces, newRow, newCol) {
            moves.Add(Pos(newRow, newCol));
          } else if TeamAtGivenPosition(pieces, newRow, newCol) != teamName {
            presenter.EnemyHighlight(newRow, newCol);
          }
        }
        done := Then(done, part);
      }
      assert parts[|offsets|..] == [];
    }

    /** Pawn1's diagonal attack, looking one row up. */
    method CheckDiagonalAttackForPawn1(row: int, column: int, moves: MoveList, teamName: string)
      modifies moves, presenter
      ensures moves.items == old(moves.items) + DiagonalAttack(pieces, row, column, row + 1, teamName).moves
      ensures presenter.log == old(presenter.log) + EnemyEvents(DiagonalAttack(pieces, row, column, row + 1, teamName).enemies)
    {
      if WithinBounds(row, column) {
        if TeamAtGivenPosition(pieces, row + 1, column) != EmptyLabel
           && TeamAtGivenPosition(pieces, row + 1, column) != teamName {
          moves.Add(Pos(row + 1, column - 1));
          moves.Add(Pos(row + 1, column + 1));
          presenter.EnemyHighlight(row + 1, column);
        }
      }
    }

    /** Pawn2's diagonal attack, looking one row down. */
    method CheckDiagonalAttackForPawn2(row: int, column: int, moves: MoveList, teamName: string)
      modifies moves, presenter
      ensures moves.items == old(moves.items) + DiagonalAttack(pieces, row, column, row - 1, teamName).moves
      ensures presenter.log == old(presenter.log) + EnemyEvents(DiagonalAttack(pieces, row, column, row - 1, teamName).enemies)
    {
      if WithinBounds(row, column) {
        if TeamAtGivenPosition(pieces, row - 1, column) != EmptyLabel
           && TeamAtGivenPosition(pieces, row - 1, column) != teamName {
          moves.Add(Pos(row - 1, column - 1));
          moves.Add(Pos(row - 1, column + 1));
          presenter.EnemyHighlight(row - 1, column);
        }
      }
    }
  }

  /** Generation only reads the board, so predicting the same piece twice
      sends the presenter the same calls twice. */
  method PredictTwice(predictor: ChessMovePredictor, row: int, column: int, pieceName: string, teamName: string)
    modifies predictor, predictor.presenter
    ensures predictor.presenter.log
            == old(predictor.presenter.log) + PredictEvents(predictor.pieces, row, column, pieceName, teamName)
               + PredictEvents(predictor.pieces, row, column, pieceName, teamName)
  {
    predictor.PredictMoves(row, column, pieceName, teamName);
    predictor.PredictMoves(row, column, pieceName, teamName);
  }
}
