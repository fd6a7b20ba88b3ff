/** The worker identity lookup: a shared cache with retries, fed by replies that arrive in any order. */
module Identity {
  import opened OpsTypes

  const TRANSPORT_RETRY_DELAYS: seq<int> := [1000, 5000]
  const TRANSPORT_FAILURE_TTL := 30000
  const MISSING_TTL := 10000

  datatype WorkerIdentity = WorkerIdentity(vendor: string, model: Option<string>)

  datatype Entry =
    | Pending(attempt: nat, requestId: nat)
    | Missing(retryAt: int)
    | Failed(retryAt: int, nextAttempt: nat)
    | Resolved(identity: WorkerIdentity)
  {
    predicate Waits() {
      Missing? || Failed?
    }

    /** The attempt that a retry of this entry makes. */
    function Retry(): nat {
      if Failed? then nextAttempt else 1
    }
  }

  datatype Request = Request(worker: Id, attempt: nat)

  /** How a request ends: the transport fails, or the row is found or not. */
  datatype Reply = TransportError | Found(identity: WorkerIdentity) | NotFound

  /** The module's state, with the requests the host has not answered yet and the clock. */
  datatype Book = Book(
    cache: map<Id, Entry>,
    subscribers: map<Id, set<nat>>,
    timers: map<Id, int>,
    sequence: nat,
    inFlight: map<nat, Request>,
    now: int)

  const EMPTY_BOOK := Book(map[], map[], map[], 0, map[], 0)

  predicate Subscribed(b: Book, w: Id) {
    w in b.subscribers && b.subscribers[w] != {}
  }

  function Scheduled(b: Book, w: Id, retryAt: int): Book {
    b.(timers := if Subscribed(b, w) then b.timers[w := retryAt] else b.timers - {w})
  }

  predicate IsCurrent(b: Book, w: Id, requestId: nat) {
    w in b.cache && b.cache[w].Pending? && b.cache[w].requestId == requestId
  }

  function Delay(attempt: nat): int {
    if 1 <= attempt <= |TRANSPORT_RETRY_DELAYS| then TRANSPORT_RETRY_DELAYS[attempt - 1] else TRANSPORT_FAILURE_TTL
  }

  function AfterFailure(attempt: nat): nat {
    if 1 <= attempt <= |TRANSPORT_RETRY_DELAYS| then attempt + 1 else 1
  }

  function FailureRecorded(b: Book, w: Id, requestId: nat, attempt: nat): Book {
    if !IsCurrent(b, w, requestId) then b
    else
      var retryAt := b.now + Delay(attempt);
      Scheduled(b.(cache := b.cache[w := Entry.Failed(retryAt, AfterFailure(attempt))]), w, retryAt)
  }

  /** A request is sent, or the call to send it fails at once. */
  function Started(b: Book, w: Id, attempt: nat, refused: bool): Book {
    var id := b.sequence + 1;
    var asked := b.(timers := b.timers - {w}, sequence := id, cache := b.cache[w := Pending(attempt, id)]);
    if refused then FailureRecorded(asked, w, id, attempt)
    else asked.(inFlight := asked.inFlight[id := Request(w, attempt)])
  }

  function Ensured(b: Book, w: Id, refused: bool): Book {
    if w !in b.cache then Started(b, w, 1, refused)
    else if !b.cache[w].Waits() then b
    else if b.now >= b.cache[w].retryAt then Started(b, w, b.cache[w].Retry(), refused)
    else Scheduled(b, w, b.cache[w].retryAt)
  }

  function SubscribedTo(b: Book, w: Id, callback: nat, refused: bool): Book {
    Ensured(b.(subscribers := b.subscribers[w := (if w in b.subscribers then b.subscribers[w] else {}) + {callback}]),
            w, refused)
  }

  function Unsubscribed(b: Book, w: Id, callback: nat): Book {
    if w !in b.subscribers then b
    else
      var left := b.subscribers[w] - {callback};
      if left == {} then b.(subscribers := b.subscribers - {w}, timers := b.timers - {w})
      else b.(subscribers := b.subscribers[w := left])
  }

  /** A retry timer goes off. It knows the deadline it was set for. */
  function Fired(b: Book, w: Id, refused: bool): Book {
    if w !in b.timers then b
    else
      var retryAt := b.timers[w];
      var gone := b.(timers := b.timers - {w});
      if !Subscribed(b, w) || w !in b.cache || !b.cache[w].Waits() || b.cache[w].retryAt != retryAt then gone
      else Started(gone, w, b.cache[w].Retry(), refused)
  }

  function Replied(b: Book, requestId: nat, reply: Reply): Book {
    if requestId !in b.inFlight then b
    else
      var Request(w, attempt) := b.inFlight[requestId];
      var done := b.(inFlight := b.inFlight - {requestId});
      if !IsCurrent(b, w, requestId) then done
      else
        match reply
        case TransportError => FailureRecorded(done, w, requestId, attempt)
        case Found(identity) => done.(cache := b.cache[w := Resolved(identity)])
        case NotFound =>
          Scheduled(done.(cache := b.cache[w := Missing(b.now + MISSING_TTL)]), w, b.now + MISSING_TTL)
  }

  // ----- the module itself, which changes its maps in place

  class IdentityCache {
    var cache: map<Id, Entry>
    var subscribers: map<Id, set<nat>>
    var retryTimers: map<Id, int>
    var requestSequence: nat
    var inFlight: map<nat, Request>
    var now: int

    ghost function View(): Book
      reads this
    {
      Book(cache, subscribers, retryTimers, requestSequence, inFlight, now)
    }

    constructor ()
      ensures View() == EMPTY_BOOK
    {
      cache, subscribers, retryTimers, requestSequence, inFlight, now := map[], map[], map[], 0, map[], 0;
    }

    method ClearRetryTimer(w: Id)
      modifies this`retryTimers
      ensures retryTimers == old(retryTimers) - {w}
    {
      if w in retryTimers {
        retryTimers := retryTimers - {w};
      }
    }

    method ScheduleRetry(w: Id, retryAt: int)
      modifies this`retryTimers
      ensures View() == Scheduled(old(View()), w, retryAt)
    {
      ClearRetryTimer(w);
      if w !in subscribers || subscribers[w] == {} {
        return;
      }
      retryTimers := retryTimers[w := retryAt];
      assert (old(retryTimers) - {w})[w := retryAt] == old(retryTimers)[w := retryAt];
    }

    method RecordTransportFailure(w: Id, requestId: nat, attempt: nat)
      modifies this`cache, this`retryTimers
      ensures View() == FailureRecorded(old(View()), w, requestId, attempt)
    {
      if w !in cache || !cache[w].Pending? || cache[w].requestId != requestId {
        return;
      }
      var retryDelay :=
        if 1 <= attempt <= |TRANSPORT_RETRY_DELAYS| then Some(TRANSPORT_RETRY_DELAYS[attempt - 1]) else None;
      var retryAt := now + retryDelay.GetOr(TRANSPORT_FAILURE_TTL);
      cache := cache[w := Entry.Failed(retryAt, if retryDelay.None? then 1 else attempt + 1)];
      ScheduleRetry(w, retryAt);
    }

    method StartFetch(w: Id, attempt: nat, refused: bool)
      modifies this
      ensures View() == Started(old(View()), w, attempt, refused)
    {
      ClearRetryTimer(w);
      requestSequence := requestSequence + 1;
      var requestId := requestSequence;
      cache := cache[w := Pending(attempt, requestId)];
      if refused {
        RecordTransportFailure(w, requestId, attempt);
        return;
      }
      inFlight := inFlight[requestId := Request(w, attempt)];
    }

    method EnsureFetch(w: Id, refused: bool)
      modifies this
      ensures View() == Ensured(old(View()), w, refused)
    {
      if w !in cache {
        StartFetch(w, 1, refused);
        return;
      }
      var current := cache[w];
      if !current.Failed? && !current.Missing? {
        return;
      }
      if now >= current.retryAt {
        StartFetch(w, if current.Failed? then current.nextAttempt else 1, refused);
      } else {
        ScheduleRetry(w, current.retryAt);
      }
    }

    method Subscribe(w: Id, callback: nat, refused: bool)
      modifies this
      ensures View() == SubscribedTo(old(View()), w, callback, refused)
    {
      var callbacks := if w in subscribers then subscribers[w] else {};
      subscribers := subscribers[w := callbacks + {callback}];
      EnsureFetch(w, refused);
    }

    method Unsubscribe(w: Id, callback: nat)
      modifies this
      ensures View() == Unsubscribed(old(View()), w, callback)
    {
      if w in subscribers {
        subscribers := subscribers[w := subscribers[w] - {callback}];
        if subscribers[w] == {} {
          subscribers := subscribers - {w};
          ClearRetryTimer(w);
        }
      }
    }

    method FireTimer(w: Id, refused: bool)
      modifies this
      ensures View() == Fired(old(View()), w, refused)
    {
      if w in retryTimers {
        var retryAt := retryTimers[w];
        retryTimers := retryTimers - {w};
        if w !in subscribers || subscribers[w] == {} {
          return;
        }
        if w !in cache || (!cache[w].Failed? && !cache[w].Missing?) || cache[w].retryAt != retryAt {
          return;
        }
        StartFetch(w, if cache[w].Failed? then cache[w].nextAttempt else 1, refused);
      }
    }

    method HandleReply(requestId: nat, reply: Reply)
      modifies this
      ensures View() == Replied(old(View()), requestId, reply)
      ensures requestId in old(inFlight) && IsCurrent(old(View()), old(inFlight)[requestId].worker, requestId) ==>
                var w := old(inFlight)[requestId].worker;
                && (reply.Found? ==> cache == old(cache)[w := Resolved(reply.identity)])
                && (reply.NotFound? ==> cache == old(cache)[w := Missing(now + 10000)])
    {
      if requestId in inFlight {
        var Request(w, attempt) := inFlight[requestId];
        inFlight := inFlight - {requestId};
        if w !in cache || !cache[w].Pending? || cache[w].requestId != requestId {
          return;
        }
        match reply {
          case TransportError => RecordTransportFailure(w, requestId, attempt);
          case Found(identity) => cache := cache[w := Resolved(identity)];
          case NotFound =>
            var retryAt := now + MISSING_TTL;
            cache := cache[w := Missing(retryAt)];
            ScheduleRetry(w, retryAt);
        }
      }
    }
  }

  // ----- every interleaving

  datatype Step =
    | Subscribe(worker: Id, callback: nat, refused: bool)
    | Unsubscribe(worker: Id, callback: nat)
    | FireTimer(worker: Id, refused: bool)
    | HandleReply(requestId: nat, reply: Reply)
    | Tick(ms: nat)

  function Next(b: Book, step: Step): Book {
    match step
    case Subscribe(w, callback, refused) => SubscribedTo(b, w, callback, refused)
    case Unsubscribe(w, callback) => Unsubscribed(b, w, callback)
    case FireTimer(w, refused) => Fired(b, w, refused)
    case HandleReply(requestId, reply) => Replied(b, requestId, reply)
    case Tick(ms) => b.(now := b.now + ms)
  }

  function EntryOf(b: Book, w: Id): Option<Entry> {
    Get(b.cache, w)
  }

  /**
   * A worker has a retry timer exactly when it is watched and waits, and for the moment its entry names;
   * attempts are numbered one to three; and whoever is watched has been asked about.
   */
  ghost predicate WorkerFits(b: Book, w: Id) {
    && Get(b.timers, w)
       == (if Subscribed(b, w) && w in b.cache && b.cache[w].Waits() then Some(b.cache[w].retryAt) else None)
    && (w in b.cache && b.cache[w].Pending? ==> 1 <= b.cache[w].attempt <= 3)
    && (w in b.cache && b.cache[w].Failed? ==> 1 <= b.cache[w].nextAttempt <= 3)
    && (w in b.subscribers ==> b.subscribers[w] != {} && w in b.cache)
  }

  /** The requests under way are exactly those the pending entries stand for. */
  ghost predicate RequestsFit(b: Book) {
    && (forall id :: id in b.inFlight ==>
          id <= b.sequence && EntryOf(b, b.inFlight[id].worker) == Some(Pending(b.inFlight[id].attempt, id)))
    && (forall w :: w in b.cache && b.cache[w].Pending? ==>
          b.cache[w].requestId in b.inFlight && b.inFlight[b.cache[w].requestId] == Request(w, b.cache[w].attempt))
  }

  ghost predicate Inv(b: Book) {
    RequestsFit(b) && forall w :: WorkerFits(b, w)
  }

  /** Only worker `w` is touched. */
  ghost predicate Elsewhere(b: Book, after: Book, w: Id) {
    forall v :: v != w ==>
      && EntryOf(after, v) == EntryOf(b, v) && Get(after.timers, v) == Get(b.timers, v)
      && Get(after.subscribers, v) == Get(b.subscribers, v)
  }

  lemma ElsewhereFits(b: Book, after: Book, w: Id, v: Id)
    requires Elsewhere(b, after, w) && v != w && WorkerFits(b, v)
    ensures WorkerFits(after, v)
  {
  }

  lemma AllFit(b: Book, after: Book, w: Id)
    requires Elsewhere(b, after, w) && WorkerFits(after, w) && forall v :: v != w ==> WorkerFits(b, v)
    ensures forall v :: WorkerFits(after, v)
  {
    forall v ensures WorkerFits(after, v) {
      if v != w {
        ElsewhereFits(b, after, w, v);
      }
    }
  }

  lemma StartedFits(b: Book, w: Id, attempt: nat, refused: bool)
    requires 1 <= attempt <= 3 && (w in b.subscribers ==> b.subscribers[w] != {})
    ensures WorkerFits(Started(b, w, attempt, refused), w) && Elsewhere(b, Started(b, w, attempt, refused), w)
  {
  }

  lemma StartedRequests(b: Book, w: Id, attempt: nat, refused: bool)
    requires RequestsFit(b) && (w in b.cache ==> !b.cache[w].Pending?)
    ensures RequestsFit(Started(b, w, attempt, refused))
  {
  }

  /** A fetch is only ever started for a worker that has none under way. */
  lemma StartedKeeps(b: Book, w: Id, attempt: nat, refused: bool)
    requires RequestsFit(b) && forall v :: v != w ==> WorkerFits(b, v)
    requires 1 <= attempt <= 3
    requires (w in b.subscribers ==> b.subscribers[w] != {}) && (w in b.cache ==> !b.cache[w].Pending?)
    ensures Inv(Started(b, w, attempt, refused))
  {
    hide WorkerFits, RequestsFit, Elsewhere;
    StartedFits(b, w, attempt, refused);
    StartedRequests(b, w, attempt, refused);
    AllFit(b, Started(b, w, attempt, refused), w);
  }

  lemma ScheduledKeeps(b: Book, w: Id)
    requires RequestsFit(b) && w in b.cache && b.cache[w].Waits() && forall v :: v != w ==> WorkerFits(b, v)
    requires WorkerFits(Scheduled(b, w, b.cache[w].retryAt), w)
    ensures Inv(Scheduled(b, w, b.cache[w].retryAt))
  {
    AllFit(b, Scheduled(b, w, b.cache[w].retryAt), w);
  }

  lemma SubscribeKeeps(b: Book, w: Id, callback: nat, refused: bool)
    requires Inv(b)
    ensures Inv(SubscribedTo(b, w, callback, refused))
  {
    var callbacks := (if w in b.subscribers then b.subscribers[w] else {}) + {callback};
    var watched := b.(subscribers := b.subscribers[w := callbacks]);
    assert WorkerFits(b, w);
    forall v | v != w ensures WorkerFits(watched, v) {
      ElsewhereFits(b, watched, w, v);
    }
    assert RequestsFit(watched);
    assert callback in watched.subscribers[w];
    if w !in b.cache {
      StartedKeeps(watched, w, 1, refused);
    } else if b.cache[w].Waits() {
      if b.now >= b.cache[w].retryAt {
        StartedKeeps(watched, w, b.cache[w].Retry(), refused);
      } else {
        ScheduledKeeps(watched, w);
      }
    } else {
      AllFit(b, watched, w);
    }
  }

  lemma UnsubscribeKeeps(b: Book, w: Id, callback: nat)
    requires Inv(b)
    ensures Inv(Unsubscribed(b, w, callback))
  {
    assert WorkerFits(b, w);
    AllFit(b, Unsubscribed(b, w, callback), w);
  }

  lemma FireKeeps(b: Book, w: Id, refused: bool)
    requires Inv(b)
    ensures Inv(Fired(b, w, refused))
  {
    assert WorkerFits(b, w);
    if w in b.timers {
      var gone := b.(timers := b.timers - {w});
      forall v | v != w ensures WorkerFits(gone, v) {
        ElsewhereFits(b, gone, w, v);
      }
      StartedKeeps(gone, w, b.cache[w].Retry(), refused);
    }
  }

  lemma ReplyRequests(b: Book, requestId: nat, reply: Reply)
    requires RequestsFit(b)
    ensures RequestsFit(Replied(b, requestId, reply))
  {
  }

  lemma ReplyKeeps(b: Book, requestId: nat, reply: Reply)
    requires Inv(b)
    ensures Inv(Replied(b, requestId, reply))
  {
    ReplyRequests(b, requestId, reply);
    if requestId in b.inFlight {
      var w := b.inFlight[requestId].worker;
      assert WorkerFits(b, w);
      hide RequestsFit;
      AllFit(b, Replied(b, requestId, reply), w);
    }
  }

  lemma NextKeeps(b: Book, step: Step)
    requires Inv(b)
    ensures Inv(Next(b, step))
  {
    match step
    case Subscribe(w, callback, refused) => SubscribeKeeps(b, w, callback, refused);
    case Unsubscribe(w, callback) => UnsubscribeKeeps(b, w, callback);
    case FireTimer(w, refused) => FireKeeps(b, w, refused);
    case HandleReply(requestId, reply) => ReplyKeeps(b, requestId, reply);
    case Tick(ms) =>
      forall v ensures WorkerFits(Next(b, step), v) {
        assert WorkerFits(b, v);
      }
  }

  function Run(steps: seq<Step>): Book {
    if steps == [] then EMPTY_BOOK else Next(Run(steps[..|steps| - 1]), steps[|steps| - 1])
  }

  lemma {:induction false} RunFits(steps: seq<Step>)
    ensures Inv(Run(steps))
  {
    hide Next;
    if steps != [] {
      RunFits(steps[..|steps| - 1]);
      NextKeeps(Run(steps[..|steps| - 1]), steps[|steps| - 1]);
    }
  }

  /** In every run: a retry timer exists exactly for the watched workers whose entry waits, and fits the entry. */
  lemma TimerIffWatchedAndWaiting(steps: seq<Step>, w: Id)
    ensures var b := Run(steps);
      && (w in b.timers <==> Subscribed(b, w) && w in b.cache && b.cache[w].Waits())
      && (w in b.timers ==> b.timers[w] == b.cache[w].retryAt)
  {
    RunFits(steps);
    assert WorkerFits(Run(steps), w);
  }

  /** In every run: no worker has two requests under way. */
  lemma OneRequestEach(steps: seq<Step>, one: nat, other: nat)
    requires one in Run(steps).inFlight && other in Run(steps).inFlight
    requires Run(steps).inFlight[one].worker == Run(steps).inFlight[other].worker
    ensures one == other
  {
    var b := Run(steps);
    RunFits(steps);
    hide Run;
    assert EntryOf(b, b.inFlight[one].worker) == Some(Pending(b.inFlight[one].attempt, one));
    assert EntryOf(b, b.inFlight[other].worker) == Some(Pending(b.inFlight[other].attempt, other));
  }

  /** In every run: a watched worker is resolved, or a reply is under way, or a timer is set. Nothing is forgotten. */
  lemma WatchedMakeProgress(steps: seq<Step>, w: Id)
    requires Subscribed(Run(steps), w)
    ensures var b := Run(steps);
      && w in b.cache
      && (b.cache[w].Resolved? || w in b.timers
          || (exists id :: id in b.inFlight && b.inFlight[id].worker == w))
  {
    var b := Run(steps);
    RunFits(steps);
    hide Run;
    assert WorkerFits(b, w);
    if b.cache[w].Pending? {
      assert b.inFlight[b.cache[w].requestId].worker == w;
    }
  }

  /** A reply that is no longer awaited changes nothing. */
  lemma StaleReplyIsIgnored(b: Book, requestId: nat, reply: Reply)
    requires requestId in b.inFlight && !IsCurrent(b, b.inFlight[requestId].worker, requestId)
    ensures Replied(b, requestId, reply) == b.(inFlight := b.inFlight - {requestId})
  {
  }

  /** Once resolved, an identity stays. */
  lemma ResolvedStays(b: Book, step: Step, w: Id)
    requires Inv(b) && w in b.cache && b.cache[w].Resolved?
    ensures EntryOf(Next(b, step), w) == Some(b.cache[w])
  {
  }

  // ----- the retry schedule

  function NextRow(before: Option<Entry>, after: Option<Entry>, row: nat): nat {
    if after == before then row
    else if after.Some? && after.value.Failed? then row + 1
    else if after.Some? && after.value.Pending? then row
    else 0
  }

  /** Transport failures in a row for a worker: each leaves a new failed entry, and a reply of the host ends the row. */
  function Row(steps: seq<Step>, w: Id): nat {
    if steps == [] then 0
    else NextRow(EntryOf(Run(steps[..|steps| - 1]), w), EntryOf(Run(steps), w), Row(steps[..|steps| - 1], w))
  }

  ghost predicate OnSchedule(entry: Option<Entry>, row: nat) {
    match entry
    case None => row == 0
    case Some(Pending(attempt, _)) => attempt == row % 3 + 1
    case Some(Failed(_, nextAttempt)) => row > 0 && nextAttempt == row % 3 + 1
    case Some(_) => row == 0
  }

  /** The attempt that fetching for an entry that is not pending makes. */
  function FirstAttempt(entry: Option<Entry>): nat {
    if entry.Some? then entry.value.Retry() else 1
  }

  predicate FailedWith(entry: Option<Entry>, attempt: nat, now: int) {
    entry == Some(Entry.Failed(now + Delay(attempt), AfterFailure(attempt)))
  }

  /** How one step can move an entry. */
  ghost predicate Moves(before: Option<Entry>, after: Option<Entry>, now: int) {
    || after == before
    || (before.Some? && before.value.Pending?
        && (FailedWith(after, before.value.attempt, now)
            || (after.Some? && (after.value.Missing? || after.value.Resolved?))))
    || ((before.None? || before.value.Waits())
        && (FailedWith(after, FirstAttempt(before), now)
            || (after.Some? && after.value.Pending? && after.value.attempt == FirstAttempt(before))))
  }

  lemma NextMoves(b: Book, step: Step, w: Id)
    requires Inv(b)
    ensures Moves(EntryOf(b, w), EntryOf(Next(b, step), w), Next(b, step).now)
  {
    if step.HandleReply? && step.requestId in b.inFlight {
      var request := b.inFlight[step.requestId];
      assert EntryOf(b, request.worker) == Some(Pending(request.attempt, step.requestId));
    }
  }

  lemma MoveOnSchedule(before: Option<Entry>, after: Option<Entry>, now: int, row: nat)
    requires OnSchedule(before, row) && Moves(before, after, now)
    ensures OnSchedule(after, NextRow(before, after, row))
  {
  }

  /** In every run, the attempt under way or to come is one more than the failures in a row, counted in threes. */
  lemma {:induction false} AttemptsFollowFailures(steps: seq<Step>, w: Id)
    ensures OnSchedule(EntryOf(Run(steps), w), Row(steps, w))
  {
    hide Next, OnSchedule, Moves, NextRow, Inv;
    if steps == [] {
      NothingYet(w);
    } else {
      var before := steps[..|steps| - 1];
      AttemptsFollowFailures(before, w);
      RunFits(before);
      NextMoves(Run(before), steps[|steps| - 1], w);
      MoveOnSchedule(EntryOf(Run(before), w), EntryOf(Run(steps), w), Run(steps).now, Row(before, w));
    }
  }

  lemma NothingYet(w: Id)
    ensures OnSchedule(EntryOf(EMPTY_BOOK, w), 0)
  {
  }

  /** The first failure in a row is retried after one second, the second after five, and the third rests for thirty. */
  lemma FailuresRest(steps: seq<Step>, w: Id)
    requires steps != [] && EntryOf(Run(steps), w) != EntryOf(Run(steps[..|steps| - 1]), w)
    requires EntryOf(Run(steps), w).Some? && EntryOf(Run(steps), w).value.Failed?
    ensures var failed, row := EntryOf(Run(steps), w).value, Row(steps, w) % 3;
      && failed.retryAt == Run(steps).now + (if row == 1 then 1000 else if row == 2 then 5000 else 30000)
      && failed.nextAttempt == row + 1
  {
    var before := steps[..|steps| - 1];
    AttemptsFollowFailures(before, w);
    AttemptsFollowFailures(steps, w);
    RunFits(before);
    NextMoves(Run(before), steps[|steps| - 1], w);
  }
}
