/**
 * The host's side of the visibility lookup: it looks for tags in the text of an arbiter's decision, while the client
 * shares one verdict among all decisions that parse to the same kind.
 */
module HostVisibility {
  import opened OpsTypes
  import opened Visibility

  const EXTEND_TAG := "\"kind\":\"extend\""
  const MARK_TAG := "\"kind\":\"mark_unachievable\""
  const SCRUB_TAG := "\"kind\":\"scrub\""

  /** The text contains the tag. */
  predicate Mentions(text: string, tag: string) {
    |tag| <= |text| && (tag <= text || (text != "" && Mentions(text[1..], tag)))
  }

  /** The host's verdict on an arbiter's decision. */
  function ArbiterVerdict(e: MissionEvent): Verdict {
    if e.bound.Some? then Inbox("escalation", "action_required")
    else if Mentions(e.decisionJson, EXTEND_TAG) && Mentions(e.decisionJson, MARK_TAG) then
      Inbox("escalation", "warning")
    else if Mentions(e.decisionJson, EXTEND_TAG) then Internal
    else if Mentions(e.decisionJson, SCRUB_TAG) then Inbox("escalation", "warning")
    else Inbox("completion", "info")
  }

  /** The bounds that the host has names for. */
  predicate OnWire(e: MissionEvent) {
    e.tag == ARBITER && (e.bound.Some? ==> e.bound.value in ["scope", "reversibility", "risk", "quality"])
  }

  const UNACHIEVABLE := "extend:mark_unachievable"

  /**
   * The text mentions the kinds that it parses to. An unachievable extension and a scrub are shown alike, so either
   * may be mistaken for the other.
   */
  predicate PlainSpoken(e: MissionEvent) {
    var kind := DecisionText(e.decision);
    var extend, mark := Mentions(e.decisionJson, EXTEND_TAG), Mentions(e.decisionJson, MARK_TAG);
    var scrub := Mentions(e.decisionJson, SCRUB_TAG);
    || e.bound.Some?
    || (if kind == UNACHIEVABLE || kind == "scrub" then (if extend then mark else scrub)
        else if "extend:" <= kind then extend && !mark
        else !extend && !scrub)
  }

  /** The verdict that a decision deserves by what it parses to. */
  function ByKind(bound: Option<string>, kind: string): Verdict {
    if bound.Some? then Inbox("escalation", "action_required")
    else if kind == UNACHIEVABLE || kind == "scrub" then Inbox("escalation", "warning")
    else if "extend:" <= kind then Internal
    else Inbox("completion", "info")
  }

  /** The host's verdict is the one deserved if and only if the text is plain. */
  lemma DeservedIff(e: MissionEvent)
    ensures ArbiterVerdict(e) == ByKind(e.bound, DecisionText(e.decision)) <==> PlainSpoken(e)
  {
    hide Mentions;
  }

  lemma SameKeySameKind(one: MissionEvent, other: MissionEvent)
    requires OnWire(one) && OnWire(other) && CacheKey(one) == CacheKey(other)
    ensures one.bound == other.bound && DecisionText(one.decision) == DecisionText(other.decision)
  {
    ArbiterKeys(one, other);
    hide CacheKey, DecisionText;
  }

  /** Every two decisions that share a key get the same verdict from the host. */
  ghost predicate VerdictFactors(decisions: set<MissionEvent>) {
    forall one, other :: one in decisions && other in decisions && CacheKey(one) == CacheKey(other) ==>
      ArbiterVerdict(one) == ArbiterVerdict(other)
  }

  /** Every key is used by some decision in plain text. */
  ghost predicate KeysHavePlainText(decisions: set<MissionEvent>) {
    forall e :: e in decisions ==> exists p :: p in decisions && CacheKey(p) == CacheKey(e) && PlainSpoken(p)
  }

  /** A verdict per key is right for all decisions if they are plain; and only then, if each key has a plain one. */
  lemma FactorsIffPlain(decisions: set<MissionEvent>)
    requires forall e :: e in decisions ==> OnWire(e)
    ensures (forall e :: e in decisions ==> PlainSpoken(e)) ==> VerdictFactors(decisions)
    ensures KeysHavePlainText(decisions) && VerdictFactors(decisions) ==> forall e :: e in decisions ==> PlainSpoken(e)
  {
    hide PlainSpoken, ArbiterVerdict, ByKind, OnWire, CacheKey, DecisionText;
    forall e | e in decisions
      ensures ArbiterVerdict(e) == ByKind(e.bound, DecisionText(e.decision)) <==> PlainSpoken(e)
    {
      DeservedIff(e);
    }
    forall one, other | one in decisions && other in decisions && CacheKey(one) == CacheKey(other)
      ensures ByKind(one.bound, DecisionText(one.decision)) == ByKind(other.bound, DecisionText(other.decision))
    {
      SameKeySameKind(one, other);
    }
  }

  // ----- one key, two verdicts

  lemma {:induction false} MentionsAt(before: string, tag: string, after: string)
    ensures Mentions(before + tag + after, tag)
  {
    var text := before + tag + after;
    if before == "" {
      assert text == tag + after;
    } else {
      MentionsAt(before[1..], tag, after);
      assert text[1..] == before[1..] + tag + after;
    }
  }

  lemma {:induction false} MissingCharacter(text: string, tag: string, c: char)
    requires c in tag && c !in text
    ensures !Mentions(text, tag)
  {
    assert tag <= text ==> c in text;
    if text != "" {
      MissingCharacter(text[1..], tag, c);
    }
  }

  function Accepting(json: string): MissionEvent {
    MissionEvent(ARBITER, None, Decision(Some("accept"), None), json, NoRecovery, None)
  }

  const PLAIN_ACCEPT := "{\"kind\":\"accept\"}"
  const NESTED_BEFORE := "{\"kind\":\"accept\",\"part\":{"
  const NESTED_ACCEPT := NESTED_BEFORE + SCRUB_TAG + "}}"

  lemma AcceptingIs(json: string)
    ensures CacheKey(Accepting(json)) == CacheKey(Accepting("")) && OnWire(Accepting(json))
    ensures PlainSpoken(Accepting(json)) <==> !Mentions(json, EXTEND_TAG) && !Mentions(json, SCRUB_TAG)
  {
    hide Mentions, CacheKey;
    assert "accept"[0] != "extend:"[0] && "accept"[0] != "scrub"[0] && "accept"[0] != UNACHIEVABLE[0];
    assert CacheKey(Accepting(json)) == CacheKey(Accepting("")) by {
      KeyOfAccepting(json);
    }
  }

  lemma KeyOfAccepting(json: string)
    ensures CacheKey(Accepting(json)) == CacheKey(Accepting(""))
  {
  }

  lemma WhatAcceptsMention()
    ensures !Mentions(PLAIN_ACCEPT, EXTEND_TAG) && !Mentions(PLAIN_ACCEPT, SCRUB_TAG)
    ensures !Mentions(NESTED_ACCEPT, EXTEND_TAG) && Mentions(NESTED_ACCEPT, SCRUB_TAG)
  {
    hide Mentions;
    MissingCharacter(PLAIN_ACCEPT, EXTEND_TAG, 'x') by {
      assert EXTEND_TAG[9] == 'x';
    }
    MissingCharacter(PLAIN_ACCEPT, SCRUB_TAG, 's') by {
      assert SCRUB_TAG[8] == 's';
    }
    MissingCharacter(NESTED_ACCEPT, EXTEND_TAG, 'x') by {
      assert EXTEND_TAG[9] == 'x' && 'x' !in NESTED_BEFORE && 'x' !in SCRUB_TAG && 'x' !in "}}";
    }
    MentionsAt(NESTED_BEFORE, SCRUB_TAG, "}}");
  }

  /** Two acceptances share a key, but in one of them something nested is tagged as a scrub. */
  lemma NestedTagMisleads()
    ensures var one, other := Accepting(PLAIN_ACCEPT), Accepting(NESTED_ACCEPT);
      && OnWire(one) && OnWire(other) && CacheKey(one) == CacheKey(other)
      && PlainSpoken(one) && !PlainSpoken(other)
      && ArbiterVerdict(one) == Inbox("completion", "info") && ArbiterVerdict(other) == Inbox("escalation", "warning")
  {
    hide Mentions, CacheKey, PlainSpoken;
    WhatAcceptsMention();
    AcceptingIs(PLAIN_ACCEPT);
    AcceptingIs(NESTED_ACCEPT);
  }

  // ----- every run of the client

  /** The host's replies to the arbiter's decisions are its verdicts on the event it was sent. */
  predicate Honest(d: Desk, step: Step) {
    step.Settle? && step.reply.Some? && step.request < |d.requests| && d.requests[step.request].askedFor != []
    && d.requests[step.request].askedFor[0].tag == ARBITER ==>
      step.reply.value == ArbiterVerdict(d.requests[step.request].askedFor[0])
  }

  ghost predicate HonestRun(steps: seq<Step>) {
    forall n :: 0 <= n < |steps| ==> Honest(Run(steps[..n]), steps[n])
  }

  /** What was asked of the host about an arbiter's decision was answered by its verdict on that decision. */
  ghost predicate Answered(d: Desk) {
    forall id :: 0 <= id < |d.requests| && d.requests[id].askedFor != [] && d.requests[id].askedFor[0].tag == ARBITER
                 && d.requests[id].outcome.Some? && d.requests[id].outcome.value.Authoritative? ==>
      d.requests[id].outcome.value.verdict == ArbiterVerdict(d.requests[id].askedFor[0])
  }

  lemma NextAnswered(d: Desk, step: Step)
    requires Inv(d) && Answered(d) && Honest(d, step)
    ensures Answered(Next(d, step))
  {
    hide ArbiterVerdict, Fallback, CacheKey, CacheOk;
    forall id | 0 <= id < |d.requests| ensures d.requests[id].askedFor != [] {
      assert RequestOk(d, id);
    }
  }

  lemma {:induction false} RunAnswered(steps: seq<Step>)
    requires (forall step :: step in steps ==> Visibility.Plain(step)) && HonestRun(steps)
    ensures Answered(Run(steps))
  {
    hide Next, Honest, Answered;
    if steps == [] {
      NothingAnswered();
    } else {
      var before := steps[..|steps| - 1];
      forall n | 0 <= n < |before| ensures Honest(Run(before[..n]), before[n]) {
        assert before[..n] == steps[..n] && Honest(Run(steps[..n]), steps[n]);
      }
      RunAnswered(before);
      RunFits(before);
      assert Honest(Run(steps[..|before|]), steps[|before|]);
      NextAnswered(Run(before), steps[|before|]);
    }
  }

  lemma NothingAnswered()
    ensures Answered(EMPTY_DESK)
  {
  }

  /** Every decision of the arbiter that was asked about is one of the host's and in plain text. */
  ghost predicate AllPlainSpoken(d: Desk) {
    forall id, e :: 0 <= id < |d.requests| && e in d.requests[id].askedFor && e.tag == ARBITER ==>
      OnWire(e) && PlainSpoken(e)
  }

  lemma SameTag(one: MissionEvent, other: MissionEvent)
    requires Colonless(one.tag) && OnWire(other) && CacheKey(one) == CacheKey(other)
    ensures one.tag == ARBITER
  {
    KeyTellsTag(one);
    KeyTellsTag(other);
  }

  lemma SameVerdict(one: MissionEvent, other: MissionEvent)
    requires OnWire(one) && OnWire(other) && PlainSpoken(one) && PlainSpoken(other)
    requires CacheKey(one) == CacheKey(other)
    ensures ArbiterVerdict(one) == ArbiterVerdict(other)
  {
    hide OnWire, PlainSpoken, ArbiterVerdict, DecisionText, CacheKey;
    DeservedIff(one);
    DeservedIff(other);
    SameKeySameKind(one, other);
  }

  /** The event for which the host was asked about a cached key. */
  lemma AskedAbout(d: Desk, key: string) returns (id: nat, asked: MissionEvent)
    requires Inv(d) && Answered(d) && key in d.cache
    ensures id < |d.requests| && asked in d.requests[id].askedFor && CacheKey(asked) == key && Colonless(asked.tag)
    ensures asked.tag == ARBITER ==> d.cache[key] == ArbiterVerdict(asked)
  {
    hide CacheKey, ArbiterVerdict, Fallback, Colonless;
    id :| 0 <= id < |d.requests| && d.requests[id].key == key
          && d.requests[id].outcome == Some(Authoritative(d.cache[key]));
    assert RequestOk(d, id);
    asked := d.requests[id].askedFor[0];
  }

  lemma AskedIsPlain(d: Desk, id: nat, e: MissionEvent)
    requires AllPlainSpoken(d) && id < |d.requests| && e in d.requests[id].askedFor && e.tag == ARBITER
    ensures OnWire(e) && PlainSpoken(e)
  {
  }

  /** In every run over plain decisions, the cache serves each the verdict that the host would give it itself. */
  lemma ServedIsOwn(steps: seq<Step>, e: MissionEvent)
    requires (forall step :: step in steps ==> Visibility.Plain(step)) && HonestRun(steps)
    requires AllPlainSpoken(Run(steps)) && OnWire(e) && PlainSpoken(e) && CacheKey(e) in Run(steps).cache
    ensures Run(steps).cache[CacheKey(e)] == ArbiterVerdict(e)
  {
    hide *;
    RunFits(steps);
    RunAnswered(steps);
    var id, asked := AskedAbout(Run(steps), CacheKey(e));
    SameTag(asked, e);
    AskedIsPlain(Run(steps), id, asked);
    SameVerdict(asked, e);
  }
}
