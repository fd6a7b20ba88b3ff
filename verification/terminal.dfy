/** The terminal view: it prints a worker's events from a bucket that only keeps the last 500. */
module Terminal {
  import opened OpsTypes
  import opened Streams

  function Reversed(events: seq<Event>): seq<Event> {
    if events == [] then [] else [events[|events| - 1]] + Reversed(events[..|events| - 1])
  }

  lemma {:induction false} ReversedJoin(one: seq<Event>, other: seq<Event>)
    ensures Reversed(one + other) == Reversed(other) + Reversed(one)
  {
    if other == [] {
      assert one + other == one;
    } else {
      ReversedJoin(one, other[..|other| - 1]);
      assert (one + other)[..|one + other| - 1] == one + other[..|other| - 1];
    }
  }

  /** The longest tail of events that are all after a sequence number. */
  function TailBeyond(events: seq<Event>, seen: int): seq<Event> {
    if events == [] || events[|events| - 1].seqNo <= seen then []
    else TailBeyond(events[..|events| - 1], seen) + [events[|events| - 1]]
  }

  /** On an increasing stream that tail is all there is after the number. */
  lemma {:induction false} TailIsLater(events: seq<Event>, seen: int)
    requires Increasing(events)
    ensures TailBeyond(events, seen) == Later(events, Some(seen))
  {
    if events != [] {
      if events[|events| - 1].seqNo <= seen {
        NoneLater(events, seen);
      } else {
        TailIsLater(events[..|events| - 1], seen);
      }
    }
  }

  /** Walks back from the newest event to the first one already seen, then turns the walk round. */
  method EventsAfterSeq(events: seq<Event>, seen: Option<int>) returns (newer: seq<Event>)
    ensures newer == if seen.None? then events else TailBeyond(events, seen.value)
    ensures Increasing(events) ==> newer == Later(events, seen)
  {
    if events == [] {
      return [];
    }
    if seen.None? {
      LaterThanNothing(events);
      return events;
    }
    var tail: seq<Event> := [];
    var i := |events|;
    assert events[..i] == events;
    while i > 0
      invariant 0 <= i <= |events|
      invariant TailBeyond(events, seen.value) == TailBeyond(events[..i], seen.value) + Reversed(tail)
    {
      if events[i - 1].seqNo <= seen.value {
        break;
      }
      assert events[..i][..i - 1] == events[..i - 1];
      ReversedJoin(tail, [events[i - 1]]);
      assert Reversed([events[i - 1]]) == [events[i - 1]];
      tail := tail + [events[i - 1]];
      i := i - 1;
    }
    newer := Reverse(tail);
    if Increasing(events) {
      TailIsLater(events, seen.value);
    }
  }

  method Reverse(events: seq<Event>) returns (turned: seq<Event>)
    ensures turned == Reversed(events)
  {
    turned := [];
    for n := 0 to |events|
      invariant turned == Reversed(events[..n])
    {
      assert events[..n + 1][..n] == events[..n];
      turned := [events[n]] + turned;
    }
    assert events[..|events|] == events;
  }

  // ----- reading a growing stream through the bucket

  datatype Screen = Screen(printed: seq<Event>, seen: Option<int>)

  const BLANK := Screen([], None)

  /** One rendering, when `arrived` events of the stream have arrived. */
  function Rendered(s: Screen, stream: seq<Event>, arrived: nat): Screen
    requires arrived <= |stream|
  {
    var bucket := Last(stream[..arrived], MAX_EVENTS_PER_WORKER);
    if bucket == [] then s
    else Screen(s.printed + Later(bucket, s.seen), LastSeq(bucket))
  }

  /** Renderings happen as the stream grows. */
  ghost predicate Arrivals(times: seq<nat>, stream: seq<Event>) {
    && (forall i :: 0 <= i < |times| ==> times[i] <= |stream|)
    && (forall i, j :: 0 <= i < j < |times| ==> times[i] <= times[j])
  }

  function Watch(stream: seq<Event>, times: seq<nat>): Screen
    requires forall i :: 0 <= i < |times| ==> times[i] <= |stream|
  {
    if times == [] then BLANK
    else Rendered(Watch(stream, times[..|times| - 1]), stream, times[|times| - 1])
  }

  /** The first event that the bucket still has. */
  function Oldest(arrived: nat): nat {
    if arrived <= MAX_EVENTS_PER_WORKER then 0 else arrived - MAX_EVENTS_PER_WORKER
  }

  function LastTime(times: seq<nat>): nat {
    if times == [] then 0 else times[|times| - 1]
  }

  /** Where the first bucket that was not empty began. */
  function FirstShown(times: seq<nat>): nat {
    if times == [] then 0
    else if LastTime(times[..|times| - 1]) > 0 then FirstShown(times[..|times| - 1])
    else Oldest(times[|times| - 1])
  }

  lemma BucketIs(stream: seq<Event>, arrived: nat)
    requires Increasing(stream) && arrived <= |stream|
    ensures Oldest(arrived) <= arrived
    ensures Last(stream[..arrived], MAX_EVENTS_PER_WORKER) == stream[Oldest(arrived)..arrived]
    ensures Increasing(stream[Oldest(arrived)..arrived])
  {
  }

  lemma BucketEnds(stream: seq<Event>, arrived: nat)
    requires arrived <= |stream|
    ensures LastSeq(Last(stream[..arrived], MAX_EVENTS_PER_WORKER)) == LastSeq(stream[..arrived])
    ensures Last(stream[..arrived], MAX_EVENTS_PER_WORKER) == [] <==> arrived == 0
  {
  }

  /** Where printing goes on: after what is printed, or with the oldest event still there. */
  function Resumes(before: nat, arrived: nat): (n: nat)
    requires before <= arrived
    ensures before <= n <= arrived && Oldest(arrived) <= n
    ensures n == before <==> Oldest(arrived) <= before
  {
    if before < Oldest(arrived) then Oldest(arrived) else before
  }

  lemma SliceOfSlice(stream: seq<Event>, oldest: nat, from: nat, arrived: nat)
    requires oldest <= from <= arrived <= |stream|
    ensures stream[oldest..arrived][from - oldest..] == stream[from..arrived]
    ensures from > oldest ==> stream[oldest..arrived][from - oldest - 1] == stream[from - 1]
    ensures from < arrived ==> stream[oldest..arrived][from - oldest] == stream[from]
  {
  }

  lemma LaterInBucket(stream: seq<Event>, before: nat, arrived: nat)
    requires Increasing(stream) && before <= arrived <= |stream|
    ensures Later(stream[Oldest(arrived)..arrived], LastSeq(stream[..before]))
         == stream[Resumes(before, arrived)..arrived]
  {
    var oldest, from := Oldest(arrived), Resumes(before, arrived);
    if before == 0 {
      LaterThanNothing(stream[oldest..arrived]);
    } else {
      var seen := stream[before - 1].seqNo;
      assert LastSeq(stream[..before]) == Some(seen);
      assert from < arrived ==> stream[from].seqNo > seen;
      assert from > oldest ==> from == before;
      BucketIs(stream, arrived);
      hide *;
      SliceOfSlice(stream, oldest, from, arrived);
      LaterIsTail(stream[oldest..arrived], from - oldest, seen);
    }
  }

  /** How one rendering extends what is printed: by what arrived since, as far as the bucket still has it. */
  lemma RenderedPrints(s: Screen, stream: seq<Event>, before: nat, arrived: nat)
    requires Increasing(stream) && before <= arrived <= |stream|
    requires s.seen == LastSeq(stream[..before])
    ensures Rendered(s, stream, arrived).seen == LastSeq(stream[..arrived])
    ensures Rendered(s, stream, arrived).printed == s.printed + stream[Resumes(before, arrived)..arrived]
  {
    BucketIs(stream, arrived);
    BucketEnds(stream, arrived);
    if arrived == 0 {
      assert stream[..before] == stream[..arrived] && Resumes(before, arrived) == 0;
      hide Last, Increasing, Later, Resumes, Oldest, LastSeq;
      assert s.printed + stream[0..0] == s.printed;
    } else {
      hide Last, Increasing, Later, Resumes, Oldest, LastSeq;
      LaterInBucket(stream, before, arrived);
    }
  }

  /** No more than a bucketful arrives between one rendering and the next, once something has been shown. */
  predicate KeepsUp(times: seq<nat>) {
    times == []
    || (KeepsUp(times[..|times| - 1])
        && (LastTime(times[..|times| - 1]) > 0 ==>
              times[|times| - 1] - LastTime(times[..|times| - 1]) <= MAX_EVENTS_PER_WORKER))
  }

  lemma TimesGrow(times: seq<nat>, stream: seq<Event>)
    requires Arrivals(times, stream) && times != []
    ensures Arrivals(times[..|times| - 1], stream) && LastTime(times[..|times| - 1]) <= LastTime(times) <= |stream|
  {
  }

  /** What is printed never exceeds what arrived, and falls short of it if the terminal does not keep up. */
  lemma {:induction false} PrintsNoMore(stream: seq<Event>, times: seq<nat>)
    requires Increasing(stream) && Arrivals(times, stream)
    ensures FirstShown(times) <= LastTime(times) <= |stream|
    ensures Watch(stream, times).seen == LastSeq(stream[..LastTime(times)])
    ensures |Watch(stream, times).printed| <= LastTime(times) - FirstShown(times)
    ensures !KeepsUp(times) ==> |Watch(stream, times).printed| < LastTime(times) - FirstShown(times)
    ensures LastTime(times) == 0 ==> Watch(stream, times).printed == [] && KeepsUp(times)
  {
    hide Rendered, Increasing;
    if times != [] {
      var before := times[..|times| - 1];
      TimesGrow(times, stream);
      PrintsNoMore(stream, before);
      RenderedPrints(Watch(stream, before), stream, LastTime(before), LastTime(times));
    }
  }

  /** A terminal that keeps up prints every event from its first rendering on, once and in order. */
  lemma {:induction false} PrintsAll(stream: seq<Event>, times: seq<nat>)
    requires Increasing(stream) && Arrivals(times, stream) && KeepsUp(times)
    ensures FirstShown(times) <= LastTime(times) <= |stream|
    ensures Watch(stream, times).printed == stream[FirstShown(times)..LastTime(times)]
  {
    hide Rendered, Increasing;
    PrintsNoMore(stream, times);
    if times != [] {
      var before := times[..|times| - 1];
      TimesGrow(times, stream);
      PrintsAll(stream, before);
      PrintsNoMore(stream, before);
      var seen, arrived := LastTime(before), LastTime(times);
      RenderedPrints(Watch(stream, before), stream, seen, arrived);
      if seen > 0 {
        Slices(stream, FirstShown(before), seen, arrived);
      }
    }
  }

  lemma Slices(stream: seq<Event>, from: nat, middle: nat, end: nat)
    requires from <= middle <= end <= |stream|
    ensures stream[from..middle] + stream[middle..end] == stream[from..end]
  {
  }

  /**
   * From its first rendering on the terminal prints every event once and in order if, and only if, no more than
   * 500 arrive between two renderings.
   */
  lemma PrintsEverythingIff(stream: seq<Event>, times: seq<nat>)
    requires Increasing(stream) && Arrivals(times, stream)
    ensures FirstShown(times) <= LastTime(times) <= |stream|
    ensures Watch(stream, times).printed == stream[FirstShown(times)..LastTime(times)] <==> KeepsUp(times)
  {
    PrintsNoMore(stream, times);
    if KeepsUp(times) {
      PrintsAll(stream, times);
    }
  }
}
