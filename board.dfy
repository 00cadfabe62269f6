/** The occupancy side of the move predictor: the pieces standing on the
    board, and the three queries the generator asks of them (is a square on
    the 8x8 board, which team stands on it, is it free). */
module Board {

  /** The two teams a placed piece can belong to. */
  datatype Team = Team1 | Team2

  /** One placed piece: the serialized row, column and team of a piece
      under the "Player Positions" object. The coordinates are whatever the
      scene holds, so they are not constrained to the board. */
  datatype Piece = Piece(row: int, column: int, teamOption: Team)

  /** A square, as (row, column); the source's Vector2Int(x, y) with x the
      row and y the column. */
  datatype Pos = Pos(row: int, column: int)

  /** The text the source compares team names by: the enum constant's name. */
  function TeamLabel(t: Team): string {
    match t
    case Team1 => "Team1"
    case Team2 => "Team2"
  }

  /** The answer of the occupancy query for a square no piece stands on. */
  const EmptyLabel: string := "Empty"

  predicate IsAt(p: Piece, row: int, column: int) {
    p.row == row && p.column == column
  }

  /** Whether (row, column) lies on the 8x8 board. */
  predicate WithinBounds(row: int, column: int) {
    0 <= row < 8 && 0 <= column < 8
  }

  /** The team standing on (row, column): the pieces are searched in order
      and the first one on that square answers; "Empty" when none is there.
      Being a function, the query cannot change the pieces it reads. */
  function TeamAtGivenPosition(pieces: seq<Piece>, row: int, column: int): string
  {
    if |pieces| == 0 then EmptyLabel
    else if IsAt(pieces[0], row, column) then TeamLabel(pieces[0].teamOption)
    else TeamAtGivenPosition(pieces[1..], row, column)
  }

  /** A square is free when the occupancy query answers "Empty". */
  predicate NotBlocked(pieces: seq<Piece>, row: int, column: int) {
    TeamAtGivenPosition(pieces, row, column) == EmptyLabel
  }

  /** The query answers "Empty" exactly when no piece stands on the square,
      and otherwise the label of one of the two teams. */
  lemma {:induction false} TeamAtEmptyIff(pieces: seq<Piece>, row: int, column: int)
    ensures TeamAtGivenPosition(pieces, row, column) == EmptyLabel
            <==> forall k :: 0 <= k < |pieces| ==> !IsAt(pieces[k], row, column)
    ensures TeamAtGivenPosition(pieces, row, column) in {EmptyLabel, TeamLabel(Team1), TeamLabel(Team2)}
  {
    if |pieces| > 0 && !IsAt(pieces[0], row, column) {
      TeamAtEmptyIff(pieces[1..], row, column);
      assert forall k :: 1 <= k < |pieces| ==> pieces[k] == pieces[1..][k - 1];
    }
  }

  /** A square is free exactly when no piece stands on it. */
  lemma NotBlockedIff(pieces: seq<Piece>, row: int, column: int)
    ensures NotBlocked(pieces, row, column) <==> forall k :: 0 <= k < |pieces| ==> !IsAt(pieces[k], row, column)
  {
    TeamAtEmptyIff(pieces, row, column);
  }

  /** The answer is the team of the FIRST piece on the square, whatever
      pieces further on in the collection also claim it. */
  lemma {:induction false} TeamAtIsFirstMatch(pieces: seq<Piece>, row: int, column: int, k: nat)
    requires k < |pieces| && IsAt(pieces[k], row, column)
    requires forall j :: 0 <= j < k ==> !IsAt(pieces[j], row, column)
    ensures TeamAtGivenPosition(pieces, row, column) == TeamLabel(pieces[k].teamOption)
  {
    if k > 0 {
      assert !IsAt(pieces[0], row, column);
      TeamAtIsFirstMatch(pieces[1..], row, column, k - 1);
    }
  }
}
