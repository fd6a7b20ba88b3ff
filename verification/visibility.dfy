/** Asking how visible a mission event is: one cache slot and at most one request per kind of event. */
module Visibility {
  import opened OpsTypes

  datatype Verdict = Internal | Inbox(kind: string, severity: string) | Other(name: string)

  /** What parsing the payload's embedded JSON gives. */
  datatype Decision = NoDecision | Decision(kind: Option<string>, reworkKind: Option<string>)
  datatype Recovery = NoRecovery | ActionKeys(keys: seq<string>)

  /** The parts of a mission event that its visibility can depend on; `decision` is what `decisionJson` parses to. */
  datatype MissionEvent = MissionEvent(
    tag: string,
    bound: Option<string>,
    decision: Decision,
    decisionJson: string,
    recovery: Recovery,
    recommendation: Option<string>)

  const ARBITER := "arbiter.decided"
  const RECOVERY := "supervisor.recovery_decided"
  const VERDICT := "mission.completion_verdict_rendered"

  function DecisionText(d: Decision): string {
    if d.NoDecision? || d.kind.None? then "unknown"
    else if d.kind.value != "extend" then d.kind.value
    else "extend:" + d.reworkKind.GetOr("unknown")
  }

  function RecoveryText(r: Recovery): string {
    if r.ActionKeys? && |r.keys| == 1 then r.keys[0] else "unknown"
  }

  function RecommendationText(e: MissionEvent): string {
    e.recommendation.GetOr("unknown")
  }

  function CacheKey(e: MissionEvent): string {
    if e.tag == ARBITER then e.tag + (":" + (e.bound.GetOr("none") + ":" + DecisionText(e.decision)))
    else if e.tag == RECOVERY then e.tag + (":" + RecoveryText(e.recovery))
    else if e.tag == VERDICT then e.tag + (":" + RecommendationText(e))
    else e.tag
  }

  function Fallback(e: MissionEvent): Verdict {
    if e.tag in ["mission.completed", "mission.merge_resolved", "mission.reverted", "mission.paused"] then
      Inbox("completion", "info")
    else if e.tag in ["mission.aborted", "boundary.sub_supervisor_refused"] then Inbox("escalation", "warning")
    else if e.tag == "boundary.side_effect_logged" then Inbox("side_effect", "warning")
    else if e.tag in ["plan.proposed", "supervisor.decomposition_rejected"] then Inbox("escalation", "action_required")
    else if e.tag == "plan.rejected" then Internal
    else if e.tag == ARBITER then Inbox("escalation", "warning")
    else if e.tag == VERDICT then
      if RecommendationText(e) in ["extend", "escalate"] then Inbox("escalation", "action_required")
      else if RecommendationText(e) == "scrub" then Inbox("escalation", "warning")
      else Inbox("completion", "info")
    else Internal
  }

  // ----- the key tells events apart as far as the fallback does

  /** The text up to the first colon. */
  function UpToColon(text: string): string {
    if text == [] || text[0] == ':' then [] else [text[0]] + UpToColon(text[1..])
  }

  predicate Colonless(text: string) {
    ':' !in text
  }

  lemma {:induction false} UpToColonIs(text: string, rest: string)
    requires Colonless(text) && (rest == "" || rest[0] == ':')
    ensures UpToColon(text + rest) == text
  {
    if text == "" {
      assert text + rest == rest;
    } else {
      UpToColonIs(text[1..], rest);
      assert (text + rest)[1..] == text[1..] + rest;
    }
  }

  lemma KeyTellsTag(e: MissionEvent)
    requires Colonless(e.tag)
    ensures UpToColon(CacheKey(e)) == e.tag
  {
    UpToColonIs(e.tag, "");
    assert e.tag + "" == e.tag;
    UpToColonIs(e.tag, ":" + (e.bound.GetOr("none") + ":" + DecisionText(e.decision)));
    UpToColonIs(e.tag, ":" + RecoveryText(e.recovery));
    UpToColonIs(e.tag, ":" + RecommendationText(e));
  }

  lemma SameTail(head: string, one: string, other: string)
    requires head + one == head + other
    ensures one == other
  {
    assert (head + one)[|head|..] == one;
    assert (head + other)[|head|..] == other;
  }

  /** Events that share a key, and so may share a reply, have the same fallback. */
  lemma FallbackFactors(one: MissionEvent, other: MissionEvent)
    requires Colonless(one.tag) && Colonless(other.tag) && CacheKey(one) == CacheKey(other)
    ensures Fallback(one) == Fallback(other)
  {
    KeyTellsTag(one);
    KeyTellsTag(other);
    if one.tag == VERDICT {
      SameTail(one.tag, ":" + RecommendationText(one), ":" + RecommendationText(other));
      SameTail(":", RecommendationText(one), RecommendationText(other));
    }
  }

  /** The verdict, for every event type, when the host cannot be asked. */
  lemma FallbackIs(e: MissionEvent)
    ensures var rendered := e.tag == "mission.completion_verdict_rendered";
      var completes := e.tag in ["mission.completed", "mission.merge_resolved", "mission.reverted", "mission.paused"];
      && (Fallback(e) == Inbox("escalation", "action_required") <==>
            e.tag in ["plan.proposed", "supervisor.decomposition_rejected"]
            || (rendered && e.recommendation in [Some("extend"), Some("escalate")]))
      && (Fallback(e) == Inbox("escalation", "warning") <==>
            e.tag in ["mission.aborted", "boundary.sub_supervisor_refused", "arbiter.decided"]
            || (rendered && e.recommendation == Some("scrub")))
      && (Fallback(e) == Inbox("completion", "info") <==>
            completes || (rendered && e.recommendation !in [Some("extend"), Some("escalate"), Some("scrub")]))
      && (Fallback(e) == Inbox("side_effect", "warning") <==> e.tag == "boundary.side_effect_logged")
      && (Fallback(e) == Internal || Fallback(e).Inbox?)
  {
    assert |"warning"| == 7 && |"info"| == 4 && |"action_required"| == 15;
    assert "completion"[0] == 'c' && "escalation"[0] == 'e' && "side_effect"[0] == 's' && "unknown"[0] == 'u';
  }

  /** Recovery decisions share a slot exactly when they have the same single action, or neither has one. */
  lemma RecoveryKeys(one: MissionEvent, other: MissionEvent)
    requires one.tag == "supervisor.recovery_decided" && other.tag == "supervisor.recovery_decided"
    ensures CacheKey(one) == CacheKey(other) <==> RecoveryText(one.recovery) == RecoveryText(other.recovery)
    ensures one.recovery.ActionKeys? && |one.recovery.keys| == 1 ==> RecoveryText(one.recovery) == one.recovery.keys[0]
    ensures !(one.recovery.ActionKeys? && |one.recovery.keys| == 1) ==> RecoveryText(one.recovery) == "unknown"
  {
    if CacheKey(one) == CacheKey(other) {
      SameTail(one.tag, ":" + RecoveryText(one.recovery), ":" + RecoveryText(other.recovery));
      SameTail(":", RecoveryText(one.recovery), RecoveryText(other.recovery));
    }
  }

  /** Completion verdicts share a slot exactly when they recommend the same. */
  lemma VerdictKeys(one: MissionEvent, other: MissionEvent)
    requires one.tag == "mission.completion_verdict_rendered" && other.tag == "mission.completion_verdict_rendered"
    ensures CacheKey(one) == CacheKey(other)
       <==> one.recommendation.GetOr("unknown") == other.recommendation.GetOr("unknown")
  {
    if CacheKey(one) == CacheKey(other) {
      SameTail(one.tag, ":" + RecommendationText(one), ":" + RecommendationText(other));
      SameTail(":", RecommendationText(one), RecommendationText(other));
    }
  }

  /** Arbiter decisions share a slot only if their bound and their discriminator are the same. */
  lemma ArbiterKeys(one: MissionEvent, other: MissionEvent)
    requires one.tag == ARBITER && other.tag == ARBITER
    requires Colonless(one.bound.GetOr("none")) && Colonless(other.bound.GetOr("none"))
    ensures CacheKey(one) == CacheKey(other)
       <==> && one.bound.GetOr("none") == other.bound.GetOr("none")
            && DecisionText(one.decision) == DecisionText(other.decision)
  {
    var b, c := one.bound.GetOr("none"), other.bound.GetOr("none");
    var d, e := ":" + DecisionText(one.decision), ":" + DecisionText(other.decision);
    if CacheKey(one) == CacheKey(other) {
      assert b + ":" + DecisionText(one.decision) == b + d && c + ":" + DecisionText(other.decision) == c + e;
      SameTail(ARBITER, ":" + (b + d), ":" + (c + e));
      SameTail(":", b + d, c + e);
      UpToColonIs(b, d);
      UpToColonIs(c, e);
      SameTail(b, d, e);
      SameTail(":", DecisionText(one.decision), DecisionText(other.decision));
    }
  }

  /** A bound with a colon in it can be mistaken for another bound and discriminator. */
  lemma ColonsMislead()
    ensures var one := MissionEvent(ARBITER, Some("a:b"), Decision(Some("c"), None), "", NoRecovery, None);
            var other := MissionEvent(ARBITER, Some("a"), Decision(Some("b:c"), None), "", NoRecovery, None);
            CacheKey(one) == CacheKey(other) && DecisionText(one.decision) != DecisionText(other.decision)
  {
  }

  // ----- the client

  /** How a request ended: with the host's verdict, or with the fallback because the host could not be asked. */
  datatype Outcome = Authoritative(verdict: Verdict) | Degraded(verdict: Verdict)

  /** A request and all the events that wait for it, the asking one first. */
  datatype Request = Request(key: string, askedFor: seq<MissionEvent>, outcome: Option<Outcome>)

  datatype Answer = Hit(verdict: Verdict) | Wait(request: nat)

  datatype Desk = Desk(cache: map<string, Verdict>, inFlight: map<string, nat>, requests: seq<Request>)

  function Joined(d: Desk, id: nat, e: MissionEvent): Desk {
    if id >= |d.requests| then d
    else d.(requests := d.requests[id := d.requests[id].(askedFor := d.requests[id].askedFor + [e])])
  }

  function Asked(d: Desk, e: MissionEvent, refused: bool): Desk {
    d.(requests := d.requests + [Request(CacheKey(e), [e], if refused then Some(Degraded(Fallback(e))) else None)],
       inFlight := d.inFlight[CacheKey(e) := |d.requests|])
  }

  function Fetched(d: Desk, e: MissionEvent, refused: bool): Desk {
    if CacheKey(e) in d.cache then d
    else if CacheKey(e) in d.inFlight then Joined(d, d.inFlight[CacheKey(e)], e)
    else Asked(d, e, refused)
  }

  /** The host's reply, or none if it could not be reached. */
  function Settled(d: Desk, id: nat, reply: Option<Verdict>): Desk {
    if id >= |d.requests| || d.requests[id].outcome.Some? || d.requests[id].askedFor == [] then d
    else
      var request := d.requests[id];
      var outcome := if reply.Some? then Authoritative(reply.value) else Degraded(Fallback(request.askedFor[0]));
      d.(requests := d.requests[id := request.(outcome := Some(outcome))],
         cache := if reply.Some? then d.cache[request.key := reply.value] else d.cache)
  }

  /** The cleanup that runs after a request has settled. */
  function Released(d: Desk, id: nat): Desk {
    if id >= |d.requests| || d.requests[id].outcome.None? || Get(d.inFlight, d.requests[id].key) != Some(id) then d
    else d.(inFlight := d.inFlight - {d.requests[id].key})
  }

  class VisibilityClient {
    var cache: map<string, Verdict>
    var inFlight: map<string, nat>
    var requests: seq<Request>

    ghost function View(): Desk
      reads this
    {
      Desk(cache, inFlight, requests)
    }

    constructor ()
      ensures View() == Desk(map[], map[], [])
    {
      cache, inFlight, requests := map[], map[], [];
    }

    method FetchVisibility(e: MissionEvent, refused: bool) returns (answer: Answer)
      modifies this
      ensures View() == Fetched(old(View()), e, refused)
      ensures answer == if CacheKey(e) in old(cache) then Hit(old(cache)[CacheKey(e)]) else Wait(inFlight[CacheKey(e)])
    {
      var key := CacheKey(e);
      if key in cache {
        return Hit(cache[key]);
      }
      if key in inFlight {
        var pending := inFlight[key];
        if pending < |requests| {
          requests := requests[pending := requests[pending].(askedFor := requests[pending].askedFor + [e])];
        }
        return Wait(pending);
      }
      var outcome := None;
      if refused {
        outcome := Some(Degraded(Fallback(e)));
      }
      inFlight := inFlight[key := |requests|];
      requests := requests + [Request(key, [e], outcome)];
      return Wait(inFlight[key]);
    }

    method Settle(id: nat, reply: Option<Verdict>)
      modifies this
      ensures View() == Settled(old(View()), id, reply)
    {
      if id < |requests| && requests[id].outcome.None? && requests[id].askedFor != [] {
        var request := requests[id];
        if reply.Some? {
          cache := cache[request.key := reply.value];
          requests := requests[id := request.(outcome := Some(Authoritative(reply.value)))];
        } else {
          requests := requests[id := request.(outcome := Some(Degraded(Fallback(request.askedFor[0]))))];
        }
      }
    }

    method Release(id: nat)
      modifies this
      ensures View() == Released(old(View()), id)
    {
      if id < |requests| && requests[id].outcome.Some? {
        var key := requests[id].key;
        if key in inFlight && inFlight[key] == id {
          inFlight := inFlight - {key};
        }
      }
    }
  }

  // ----- every interleaving

  datatype Step =
    | Fetch(event: MissionEvent, refused: bool)
    | Settle(request: nat, reply: Option<Verdict>)
    | Release(request: nat)

  function Next(d: Desk, step: Step): Desk {
    match step
    case Fetch(e, refused) => Fetched(d, e, refused)
    case Settle(id, reply) => Settled(d, id, reply)
    case Release(id) => Released(d, id)
  }

  /** All who wait for a request asked under its key; what is open is in flight, under its own key only. */
  ghost predicate RequestOk(d: Desk, id: nat)
    requires id < |d.requests|
  {
    var request := d.requests[id];
    && request.askedFor != []
    && (forall e :: e in request.askedFor ==> CacheKey(e) == request.key && Colonless(e.tag))
    && (request.outcome.None? ==> Get(d.inFlight, request.key) == Some(id) && request.key !in d.cache)
    && (request.outcome.Some? && request.outcome.value.Degraded? ==>
          request.outcome.value.verdict == Fallback(request.askedFor[0]))
    && (request.outcome.Some? && request.outcome.value.Authoritative? ==>
          Get(d.cache, request.key) == Some(request.outcome.value.verdict))
  }

  ghost predicate CacheOk(d: Desk) {
    forall k :: k in d.cache ==>
      exists id :: 0 <= id < |d.requests| && d.requests[id].key == k
                   && d.requests[id].outcome == Some(Authoritative(d.cache[k]))
  }

  ghost predicate Inv(d: Desk) {
    && (forall id :: 0 <= id < |d.requests| ==> RequestOk(d, id))
    && (forall k :: k in d.inFlight ==> d.inFlight[k] < |d.requests| && d.requests[d.inFlight[k]].key == k)
    && CacheOk(d)
  }

  /** Cached verdicts stay vouched for as long as the requests keep their keys and outcomes. */
  lemma StillVouchedFor(d: Desk, after: Desk)
    requires CacheOk(d) && |d.requests| <= |after.requests| && after.cache == d.cache
    requires forall id :: 0 <= id < |d.requests| && d.requests[id].outcome.Some? ==>
               after.requests[id].key == d.requests[id].key && after.requests[id].outcome == d.requests[id].outcome
    ensures CacheOk(after)
  {
  }

  lemma FetchRequests(d: Desk, e: MissionEvent, refused: bool)
    requires Inv(d) && Colonless(e.tag)
    ensures var after := Fetched(d, e, refused); forall id :: 0 <= id < |after.requests| ==> RequestOk(after, id)
  {
    hide CacheOk, Fallback, CacheKey;
    var after := Fetched(d, e, refused);
    forall id | 0 <= id < |after.requests| ensures RequestOk(after, id) {
      if id < |d.requests| {
        assert RequestOk(d, id);
      }
    }
  }

  lemma FetchKeeps(d: Desk, e: MissionEvent, refused: bool)
    requires Inv(d) && Colonless(e.tag)
    ensures Inv(Fetched(d, e, refused))
  {
    FetchRequests(d, e, refused);
    hide RequestOk, CacheOk, Fallback, CacheKey;
    StillVouchedFor(d, Fetched(d, e, refused));
  }

  lemma SettleKeeps(d: Desk, id: nat, reply: Option<Verdict>)
    requires Inv(d)
    ensures Inv(Settled(d, id, reply))
  {
    var after := Settled(d, id, reply);
    forall i | 0 <= i < |after.requests| ensures RequestOk(after, i) {
      assert RequestOk(d, i);
      if id < |d.requests| {
        assert RequestOk(d, id);
      }
    }
    StillVouchedFor(d, after.(cache := d.cache));
    if after.cache != d.cache {
      var request := d.requests[id];
      forall k | k in after.cache
        ensures exists i :: 0 <= i < |after.requests| && after.requests[i].key == k
                            && after.requests[i].outcome == Some(Authoritative(after.cache[k]))
      {
        if k == request.key {
          assert after.requests[id].outcome == Some(Authoritative(after.cache[k]));
        }
      }
    }
  }

  lemma ReleaseKeeps(d: Desk, id: nat)
    requires Inv(d)
    ensures Inv(Released(d, id))
  {
    var after := Released(d, id);
    forall i | 0 <= i < |after.requests| ensures RequestOk(after, i) {
      assert RequestOk(d, i);
    }
  }

  const EMPTY_DESK := Desk(map[], map[], [])

  /** Event types have no colon in their names. */
  predicate Plain(step: Step) {
    step.Fetch? ==> Colonless(step.event.tag)
  }

  lemma NextKeeps(d: Desk, step: Step)
    requires Inv(d) && Plain(step)
    ensures Inv(Next(d, step))
  {
    match step
    case Fetch(e, refused) => FetchKeeps(d, e, refused);
    case Settle(id, reply) => SettleKeeps(d, id, reply);
    case Release(id) => ReleaseKeeps(d, id);
  }

  function Run(steps: seq<Step>): Desk {
    if steps == [] then EMPTY_DESK else Next(Run(steps[..|steps| - 1]), steps[|steps| - 1])
  }

  lemma {:induction false} RunFits(steps: seq<Step>)
    requires forall step :: step in steps ==> Plain(step)
    ensures Inv(Run(steps))
  {
    hide Next;
    if steps != [] {
      RunFits(steps[..|steps| - 1]);
      NextKeeps(Run(steps[..|steps| - 1]), steps[|steps| - 1]);
    }
  }

  /** In every run, what is cached is a verdict that the host gave for that key. */
  lemma CacheIsAuthoritative(steps: seq<Step>, key: string)
    requires (forall step :: step in steps ==> Plain(step)) && key in Run(steps).cache
    ensures exists id :: 0 <= id < |Run(steps).requests| && Run(steps).requests[id].key == key
                         && Run(steps).requests[id].outcome == Some(Authoritative(Run(steps).cache[key]))
  {
    RunFits(steps);
  }

  /** In every run, at most one request per key is open, and none for a key that is cached. */
  lemma OneOpenRequest(steps: seq<Step>, one: nat, other: nat)
    requires forall step :: step in steps ==> Plain(step)
    requires one < |Run(steps).requests| && other < |Run(steps).requests|
    requires Run(steps).requests[one].outcome.None? && Run(steps).requests[other].outcome.None?
    ensures Run(steps).requests[one].key == Run(steps).requests[other].key ==> one == other
    ensures Run(steps).requests[one].key !in Run(steps).cache
  {
    var d := Run(steps);
    RunFits(steps);
    hide Run;
    assert RequestOk(d, one) && RequestOk(d, other);
  }

  /** A cached key is never asked for again, and its verdict never changes. */
  lemma CachedForGood(d: Desk, step: Step, key: string)
    requires Inv(d) && key in d.cache
    ensures Get(Next(d, step).cache, key) == Some(d.cache[key])
    ensures forall id :: |d.requests| <= id < |Next(d, step).requests| ==> Next(d, step).requests[id].key != key
  {
    if step.Settle? && step.request < |d.requests| {
      assert RequestOk(d, step.request);
    }
  }

  /** A request that failed is not remembered: once it is released, the next event with its key asks again. */
  lemma FailedIsAskedAgain(d: Desk, id: nat, e: MissionEvent, refused: bool)
    requires Inv(d) && id < |d.requests| && d.requests[id].outcome.None? && CacheKey(e) == d.requests[id].key
    ensures var failed := Next(d, Settle(id, None));
      var after := Next(Next(failed, Release(id)), Fetch(e, refused));
      && failed.cache == d.cache
      && |after.requests| == |d.requests| + 1 && after.requests[|d.requests|].key == CacheKey(e)
      && after.requests[|d.requests|].askedFor == [e] && Get(after.inFlight, CacheKey(e)) == Some(|d.requests|)
  {
    assert RequestOk(d, id);
    hide CacheKey, Fallback;
  }

  /** Whoever shares a degraded reply gets the fallback that its own event would have had. */
  lemma SharedFallbackIsOwn(steps: seq<Step>, id: nat, e: MissionEvent)
    requires (forall step :: step in steps ==> Plain(step)) && id < |Run(steps).requests|
    requires e in Run(steps).requests[id].askedFor && Run(steps).requests[id].outcome.Some?
    ensures var d := Run(steps);
      match d.requests[id].outcome.value
      case Degraded(verdict) => verdict == Fallback(e)
      case Authoritative(verdict) => Get(d.cache, CacheKey(e)) == Some(verdict)
  {
    var d := Run(steps);
    RunFits(steps);
    hide Run;
    assert RequestOk(d, id);
    var request := d.requests[id];
    FallbackFactors(e, request.askedFor[0]);
  }
}
