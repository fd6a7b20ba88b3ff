/** Streams of one worker's events, in which sequence numbers increase. */
module Streams {
  import opened OpsTypes

  ghost predicate Increasing(events: seq<Event>) {
    forall i, j :: 0 <= i < j < |events| ==> events[i].seqNo < events[j].seqNo
  }

  /** The events after a sequence number, in order. */
  function Later(events: seq<Event>, seen: Option<int>): seq<Event> {
    if events == [] then []
    else Later(events[..|events| - 1], seen)
         + if seen.None? || events[|events| - 1].seqNo > seen.value then [events[|events| - 1]] else []
  }

  lemma {:induction false} LaterThanNothing(events: seq<Event>)
    ensures Later(events, None) == events
  {
    if events != [] {
      LaterThanNothing(events[..|events| - 1]);
    }
  }

  ghost predicate AllBeyond(events: seq<Event>, seen: int) {
    forall e :: e in events ==> e.seqNo > seen
  }

  ghost predicate NoneBeyond(events: seq<Event>, seen: int) {
    forall e :: e in events ==> e.seqNo <= seen
  }

  lemma {:induction false} AllLater(events: seq<Event>, seen: int)
    requires AllBeyond(events, seen)
    ensures Later(events, Some(seen)) == events
  {
    if events != [] {
      AllLater(events[..|events| - 1], seen);
    }
  }

  lemma {:induction false} NoneLater(events: seq<Event>, seen: int)
    requires NoneBeyond(events, seen)
    ensures Later(events, Some(seen)) == []
  {
    if events != [] {
      NoneLater(events[..|events| - 1], seen);
    }
  }

  lemma {:induction false} LaterJoin(one: seq<Event>, other: seq<Event>, seen: Option<int>)
    ensures Later(one + other, seen) == Later(one, seen) + Later(other, seen)
  {
    if other == [] {
      assert one + other == one;
    } else {
      LaterJoin(one, other[..|other| - 1], seen);
      assert (one + other)[..|one + other| - 1] == one + other[..|other| - 1];
    }
  }

  lemma SplitAt(events: seq<Event>, n: nat, seen: int)
    requires Increasing(events) && n <= |events|
    requires (n > 0 ==> events[n - 1].seqNo <= seen) && (n < |events| ==> events[n].seqNo > seen)
    ensures NoneBeyond(events[..n], seen) && AllBeyond(events[n..], seen)
  {
  }

  lemma LaterOfParts(before: seq<Event>, after: seq<Event>, seen: int)
    requires NoneBeyond(before, seen) && AllBeyond(after, seen)
    ensures Later(before + after, Some(seen)) == after
  {
    hide *;
    NoneLater(before, seen);
    AllLater(after, seen);
    LaterJoin(before, after, Some(seen));
    assert [] + after == after;
  }

  /** Where the events have passed a sequence number, all that follow have. */
  lemma LaterIsTail(events: seq<Event>, n: nat, seen: int)
    requires Increasing(events) && n <= |events|
    requires (n > 0 ==> events[n - 1].seqNo <= seen) && (n < |events| ==> events[n].seqNo > seen)
    ensures Later(events, Some(seen)) == events[n..]
  {
    SplitAt(events, n, seen);
    hide *;
    LaterOfParts(events[..n], events[n..], seen);
    assert events == events[..n] + events[n..];
  }

  function LastSeq(events: seq<Event>): Option<int> {
    if events == [] then None else Some(events[|events| - 1].seqNo)
  }

  /** After the last event of a prefix come exactly the events that follow it. */
  lemma LaterIsRest(events: seq<Event>, n: nat)
    requires Increasing(events) && n <= |events|
    ensures Later(events, LastSeq(events[..n])) == events[n..]
  {
    hide Later;
    if n == 0 {
      LaterThanNothing(events);
    } else {
      LaterIsTail(events, n, events[n - 1].seqNo);
    }
  }
}
