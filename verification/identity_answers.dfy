/** What the host's answers, and nothing else, put into the identity cache. */
module IdentityAnswers {
  import opened OpsTypes
  import opened Identity

  /** Worker `w` waits for the answer to this request. */
  predicate Awaits(b: Book, w: Id, requestId: nat) {
    && requestId in b.inFlight && b.inFlight[requestId].worker == w
    && w in b.cache && b.cache[w].Pending? && b.cache[w].requestId == requestId
  }

  /** What a failed attempt leaves: a wait of one second, of five, or of thirty, and the number of the next attempt. */
  function GivenUpFor(attempt: nat, now: int): Entry {
    if attempt == 1 then Entry.Failed(now + 1000, 2)
    else if attempt == 2 then Entry.Failed(now + 5000, 3)
    else Entry.Failed(now + 30000, 1)
  }

  /** An awaited answer decides the entry of its worker, and of no other. */
  lemma AnswerDecides(b: Book, w: Id, requestId: nat, reply: Reply)
    requires Inv(b) && Awaits(b, w, requestId)
    ensures var after := Next(b, HandleReply(requestId, reply));
      && EntryOf(after, w) == Some(match reply
                                   case Found(identity) => Resolved(identity)
                                   case NotFound => Missing(b.now + 10000)
                                   case TransportError => GivenUpFor(b.cache[w].attempt, b.now))
      && (forall v :: v != w ==> EntryOf(after, v) == EntryOf(b, v))
  {
    assert WorkerFits(b, w);
  }

  /** An answer that nobody waits for changes no entry. */
  lemma UnawaitedIsIgnored(b: Book, requestId: nat, reply: Reply)
    requires forall w :: !Awaits(b, w, requestId)
    ensures Next(b, HandleReply(requestId, reply)).cache == b.cache
  {
    if requestId in b.inFlight {
      assert !Awaits(b, b.inFlight[requestId].worker, requestId);
    }
  }

  // ----- asking

  /** The step has the host asked about this worker. */
  predicate AsksFor(b: Book, step: Step, w: Id) {
    match step
    case Subscribe(v, _, _) =>
      v == w && (w !in b.cache || ((b.cache[w].Missing? || b.cache[w].Failed?) && b.now >= b.cache[w].retryAt))
    case FireTimer(v, _) => v == w && w in b.timers
    case _ => false
  }

  predicate RefusedAtOnce(step: Step) {
    (step.Subscribe? || step.FireTimer?) && step.refused
  }

  function NextAttempt(b: Book, w: Id): nat {
    if w in b.cache && b.cache[w].Failed? then b.cache[w].nextAttempt else 1
  }

  /**
   * The host is asked when a worker is first watched, or watched again after its wait, or when its timer goes off:
   * with a number not used before, and the attempt that is due.
   */
  lemma Asking(b: Book, step: Step, w: Id)
    requires Inv(b) && AsksFor(b, step, w)
    ensures var after, attempt := Next(b, step), NextAttempt(b, w);
      && after.sequence == b.sequence + 1 && after.sequence !in b.inFlight
      && (if RefusedAtOnce(step) then
            EntryOf(after, w) == Some(GivenUpFor(attempt, b.now)) && after.inFlight == b.inFlight
          else
            && EntryOf(after, w) == Some(Pending(attempt, after.sequence))
            && after.inFlight == b.inFlight[after.sequence := Request(w, attempt)])
      && (forall v :: v != w ==> EntryOf(after, v) == EntryOf(b, v))
  {
    assert WorkerFits(b, w);
  }

  /** Otherwise nothing is asked, and only answers change entries. */
  lemma NotAsking(b: Book, step: Step)
    requires Inv(b) && forall w :: !AsksFor(b, step, w)
    ensures Next(b, step).sequence == b.sequence
    ensures !step.HandleReply? ==> Next(b, step).cache == b.cache && Next(b, step).inFlight == b.inFlight
  {
    if step.Subscribe? || step.FireTimer? {
      assert !AsksFor(b, step, step.worker);
    }
  }

  // ----- every run

  /** Step `n` answers an awaited request for the worker. */
  ghost predicate Answered(steps: seq<Step>, n: int, w: Id, reply: Reply) {
    && 0 <= n < |steps| && steps[n].HandleReply? && steps[n].reply == reply
    && Awaits(Run(steps[..n]), w, steps[n].requestId)
  }

  lemma AnsweredBefore(steps: seq<Step>, n: int, w: Id, reply: Reply)
    requires steps != []
    ensures n < |steps| - 1 ==> (Answered(steps, n, w, reply) <==> Answered(steps[..|steps| - 1], n, w, reply))
    ensures Answered(steps, |steps| - 1, w, reply)
       <==> var step := steps[|steps| - 1];
            step.HandleReply? && step.reply == reply && Awaits(Run(steps[..|steps| - 1]), w, step.requestId)
  {
    if 0 <= n < |steps| - 1 {
      assert steps[..|steps| - 1][..n] == steps[..n];
    }
  }

  /** How an entry comes to be resolved, or missing, in one step. */
  lemma BecomesAnswered(b: Book, step: Step, w: Id, reply: Reply)
    requires Inv(b) && (reply.Found? || reply.NotFound?)
    ensures var before, after := EntryOf(b, w), EntryOf(Next(b, step), w);
      var answered := step.HandleReply? && step.reply == reply && Awaits(b, w, step.requestId);
      && (reply.Found? ==>
            (after == Some(Resolved(reply.identity)) <==> before == Some(Resolved(reply.identity)) || answered))
      && (reply.NotFound? && after.Some? && after.value.Missing? ==>
            before == after || (answered && after == Some(Missing(b.now + 10000))))
  {
    assert WorkerFits(b, w);
  }

  /** An identity is resolved if and only if the host gave it in answer to an awaited request for that worker. */
  lemma {:induction false} ResolvedIff(steps: seq<Step>, w: Id, identity: WorkerIdentity)
    ensures EntryOf(Run(steps), w) == Some(Resolved(identity))
       <==> exists n :: Answered(steps, n, w, Found(identity))
  {
    hide Next, Inv, Awaits;
    if steps != [] {
      var before, last := steps[..|steps| - 1], |steps| - 1;
      RunFits(before);
      ResolvedIff(before, w, identity);
      BecomesAnswered(Run(before), steps[last], w, Found(identity));
      forall n ensures n < last ==>
                (Answered(steps, n, w, Found(identity)) <==> Answered(before, n, w, Found(identity)))
      {
        AnsweredBefore(steps, n, w, Found(identity));
      }
      AnsweredBefore(steps, last, w, Found(identity));
    }
  }

  /** After `n` steps the worker is missing until then. */
  predicate MissingAt(steps: seq<Step>, n: int, w: Id, retryAt: int) {
    0 <= n <= |steps| && EntryOf(Run(steps[..n]), w) == Some(Missing(retryAt))
  }

  lemma MissingBefore(steps: seq<Step>, n: int, w: Id, retryAt: int)
    requires steps != [] && n <= |steps| - 1
    ensures MissingAt(steps, n, w, retryAt) <==> MissingAt(steps[..|steps| - 1], n, w, retryAt)
  {
    if 0 <= n {
      assert steps[..|steps| - 1][..n] == steps[..n];
    }
  }

  lemma MissingNow(steps: seq<Step>, w: Id, retryAt: int)
    ensures MissingAt(steps, |steps|, w, retryAt) <==> EntryOf(Run(steps), w) == Some(Missing(retryAt))
  {
    assert steps[..|steps|] == steps;
  }

  ghost predicate MissingFrom(steps: seq<Step>, n: int, w: Id, retryAt: int) {
    && Answered(steps, n, w, NotFound) && retryAt == Run(steps[..n]).now + 10000
    && forall m :: n < m <= |steps| ==> MissingAt(steps, m, w, retryAt)
  }

  /** A worker is missing until ten seconds after the answer that it was not found. */
  lemma {:induction false} MissingSince(steps: seq<Step>, w: Id, retryAt: int)
    ensures EntryOf(Run(steps), w) == Some(Missing(retryAt)) <==> exists n :: MissingFrom(steps, n, w, retryAt)
  {
    hide Next, Inv, Awaits, MissingAt, Answered;
    MissingNow(steps, w, retryAt);
    if n :| MissingFrom(steps, n, w, retryAt) {
      assert MissingAt(steps, |steps|, w, retryAt) by {
        AnswerIsAStep(steps, n, w, NotFound);
      }
    }
    if steps != [] && EntryOf(Run(steps), w) == Some(Missing(retryAt)) {
      var before, last := steps[..|steps| - 1], |steps| - 1;
      RunFits(before);
      BecomesAnswered(Run(before), steps[last], w, NotFound);
      AnsweredBefore(steps, last, w, NotFound);
      if EntryOf(Run(before), w) == Some(Missing(retryAt)) {
        MissingSince(before, w, retryAt);
        var n :| MissingFrom(before, n, w, retryAt);
        MissingLonger(steps, n, w, retryAt);
      } else {
        assert MissingFrom(steps, last, w, retryAt);
      }
    }
  }

  lemma AnswerIsAStep(steps: seq<Step>, n: int, w: Id, reply: Reply)
    requires Answered(steps, n, w, reply)
    ensures 0 <= n < |steps|
  {
  }

  lemma MissingLonger(steps: seq<Step>, n: int, w: Id, retryAt: int)
    requires steps != [] && MissingFrom(steps[..|steps| - 1], n, w, retryAt)
    requires MissingAt(steps, |steps|, w, retryAt)
    ensures MissingFrom(steps, n, w, retryAt)
  {
    var before := steps[..|steps| - 1];
    AnswerIsAStep(before, n, w, NotFound);
    AnsweredBefore(steps, n, w, NotFound);
    assert before[..n] == steps[..n];
    hide Run, Answered, MissingAt;
    forall m | n < m <= |before| ensures MissingAt(steps, m, w, retryAt) {
      MissingBefore(steps, m, w, retryAt);
    }
  }

  // ----- who watches

  predicate Watches(b: Book, w: Id, callback: nat) {
    w in b.subscribers && callback in b.subscribers[w]
  }

  lemma FetchingKeepsWatchers(b: Book, w: Id, refused: bool, requestId: nat, reply: Reply)
    ensures Ensured(b, w, refused).subscribers == b.subscribers
    ensures Fired(b, w, refused).subscribers == b.subscribers
    ensures Replied(b, requestId, reply).subscribers == b.subscribers
  {
  }

  lemma OthersStay(callbacks: set<nat>, gone: nat, callback: nat)
    ensures callback in callbacks && callback != gone ==> callback in callbacks - {gone} && callbacks - {gone} != {}
  {
  }

  /** A callback watches a worker from its subscription to its unsubscription. */
  lemma WatchesAfter(b: Book, step: Step, w: Id, callback: nat)
    ensures Watches(Next(b, step), w, callback)
       <==> match step
            case Subscribe(v, c, _) => (v == w && c == callback) || Watches(b, w, callback)
            case Unsubscribe(v, c) => !(v == w && c == callback) && Watches(b, w, callback)
            case _ => Watches(b, w, callback)
  {
    hide Ensured, Fired, Replied;
    match step
    case Subscribe(v, c, refused) =>
      var callbacks := (if v in b.subscribers then b.subscribers[v] else {}) + {c};
      var watched := b.(subscribers := b.subscribers[v := callbacks]);
      FetchingKeepsWatchers(watched, v, refused, 0, TransportError);
      assert Next(b, step) == Ensured(watched, v, refused);
    case Unsubscribe(v, c) =>
      if v in b.subscribers {
        OthersStay(b.subscribers[v], c, callback);
      }
    case FireTimer(v, refused) => FetchingKeepsWatchers(b, v, refused, 0, TransportError);
    case HandleReply(id, reply) => FetchingKeepsWatchers(b, "", false, id, reply);
    case _ =>
  }
}
