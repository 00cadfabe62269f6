/** The collaborators the predictor writes to: the board's highlight
    presenter, seen only as the log of calls it receives, and the growing
    list of candidate moves. */
module Highlights {
  import opened Board

  /** One call received by the presenter: ClearHighlights, EnemyHighlight at
      a square, or Highlight of a candidate move (Move). */
  datatype Event = Clear | Enemy(at: Pos) | Move(at: Pos)

  /** The enemy marks for a list of squares, in order. */
  function EnemyEvents(ps: seq<Pos>): seq<Event> {
    seq(|ps|, i requires 0 <= i < |ps| => Enemy(ps[i]))
  }

  /** The candidate-move marks for a list of squares, in order. */
  function MoveEvents(ps: seq<Pos>): seq<Event> {
    seq(|ps|, i requires 0 <= i < |ps| => Move(ps[i]))
  }

  lemma EnemyEventsAppend(a: seq<Pos>, b: seq<Pos>)
    ensures EnemyEvents(a + b) == EnemyEvents(a) + EnemyEvents(b)
  {
    assert forall i :: 0 <= i < |a| + |b| ==> (a + b)[i] == if i < |a| then a[i] else b[i - |a|];
  }

  lemma MoveEventsAppend(a: seq<Pos>, b: seq<Pos>)
    ensures MoveEvents(a + b) == MoveEvents(a) + MoveEvents(b)
  {
    assert forall i :: 0 <= i < |a| + |b| ==> (a + b)[i] == if i < |a| then a[i] else b[i - |a|];
  }

  lemma MoveEventsPrefix(ps: seq<Pos>, i: nat)
    requires i < |ps|
    ensures MoveEvents(ps[..i + 1]) == MoveEvents(ps[..i]) + [Move(ps[i])]
  {
    assert ps[..i + 1] == ps[..i] + [ps[i]];
    MoveEventsAppend(ps[..i], [ps[i]]);
  }

  /** The highlight presenter (the board placement handler's highlighting
      calls), recorded as the sequence of calls it has received. */
  class Presenter {
    var log: seq<Event>

    constructor()
      ensures log == []
    {
      log := [];
    }

    method ClearHighlights()
      modifies this
      ensures log == old(log) + [Clear]
    {
      log := log + [Clear];
    }

    method Highlight(row: int, column: int)
      modifies this
      ensures log == old(log) + [Move(Pos(row, column))]
    {
      log := log + [Move(Pos(row, column))];
    }

    method EnemyHighlight(row: int, column: int)
      modifies this
      ensures log == old(log) + [Enemy(Pos(row, column))]
    {
      log := log + [Enemy(Pos(row, column))];
    }
  }

  /** The move list the generator appends to in place. */
  class MoveList {
    var items: seq<Pos>

    constructor()
      ensures items == []
    {
      items := [];
    }

    method Add(p: Pos)
      modifies this
      ensures items == old(items) + [p]
    {
      items := items + [p];
    }
  }
}
