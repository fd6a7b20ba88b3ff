/** The alert feed against its definition over the whole history of events. */
module AlertHistory {
  import opened OpsTypes
  import opened History
  import R = Reducer

  function AlertOf(kind: AlertKind, e: Event, detail: AlertDetail): Alert {
    Alert(kind, e.workerId, e.seqNo, detail, e.ts)
  }

  function NoteText(note: Option<string>): AlertDetail {
    match note case Some(text) => Text(text) case None => NoDetail
  }

  /** A worker's first event raises an alert. */
  function OnArrival(before: seq<Event>, e: Event): seq<Alert> {
    if Of(before, e.workerId) == [] then [AlertOf(StartedAlert, e, NoDetail)] else []
  }

  /** So does a sequence number that is not one more than the worker's highest. */
  function OnSequence(before: seq<Event>, e: Event): seq<Alert> {
    match Highest(Of(before, e.workerId))
    case None => []
    case Some(last) =>
      if e.seqNo == last + 1 then []
      else if e.seqNo > last then [AlertOf(SeqGapAlert, e, Gap(e.seqNo - (last + 1), last, e.seqNo))]
      else [AlertOf(SeqGapAlert, e, Regression(e.seqNo, last))]
  }

  /** And so do four things an event may say. */
  function OnPayload(e: Event): seq<Alert> {
    match e.payload
    case Completion(summary) => [AlertOf(CompletionAlert, e, Text(summary))]
    case Failure(error) => [AlertOf(FailureAlert, e, Text(error))]
    case StateChange(Blocked, _, note) => [AlertOf(BlockedAlert, e, NoteText(note))]
    case StateChange(Executing, Some(Blocked), note) => [AlertOf(UnblockedAlert, e, NoteText(note))]
    case _ => []
  }

  /** Every alert a history has ever raised, newest first. */
  function AlertLog(h: seq<Event>): seq<Alert> {
    if h == [] then []
    else
      var before, e := ButLast(h), Final(h);
      OnPayload(e) + (OnSequence(before, e) + (OnArrival(before, e) + AlertLog(before)))
  }

  function Shown(alert: Option<Alert>): seq<Alert> {
    if alert.Some? then [alert.value] else []
  }

  lemma PushedIs(log: seq<Alert>, alert: Option<Alert>)
    ensures R.Pushed(First(log, 24), alert) == First(Shown(alert) + log, 24)
  {
  }

  /** What the reducer raises for an event is what the history says. */
  lemma SameAlerts(s: Ops, before: seq<Event>, e: Event)
    requires e.workerId in s.workers <==> Of(before, e.workerId) != []
    requires Get(s.lastSeq, e.workerId) == Highest(Of(before, e.workerId))
    ensures Shown(R.StartAlert(e.workerId in s.workers, e)) == OnArrival(before, e)
    ensures Shown(R.SeqAlert(Get(s.lastSeq, e.workerId), e)) == OnSequence(before, e)
    ensures Shown(R.PayloadAlert(e)) == OnPayload(e)
  {
    hide Of, Highest;
  }

  lemma NextFeed(s: Ops, before: seq<Event>, e: Event, log: seq<Alert>)
    requires s.alerts == First(log, 24)
    requires e.workerId in s.workers <==> Of(before, e.workerId) != []
    requires Get(s.lastSeq, e.workerId) == Highest(Of(before, e.workerId))
    ensures R.Apply(s, e).alerts
         == First(OnPayload(e) + (OnSequence(before, e) + (OnArrival(before, e) + log)), 24)
  {
    SameAlerts(s, before, e);
    hide Of, Highest, R.Pushed, R.StartAlert, R.SeqAlert, R.PayloadAlert, Shown, OnPayload, OnSequence, OnArrival;
    PushedIs(log, R.StartAlert(e.workerId in s.workers, e));
    var started := OnArrival(before, e) + log;
    PushedIs(started, R.SeqAlert(Get(s.lastSeq, e.workerId), e));
    PushedIs(OnSequence(before, e) + started, R.PayloadAlert(e));
    hide First;
  }

  /** The alert feed is the newest 24 of all alerts ever raised. */
  lemma {:induction false} AlertFeed(h: seq<Event>)
    ensures After(h).alerts == First(AlertLog(h), 24)
  {
    hide R.Apply, OnPayload, OnSequence, OnArrival;
    if h != [] {
      var before, e := ButLast(h), Final(h);
      AlertFeed(before);
      Isolation(before, e.workerId);
      HighestSeq(before, e.workerId);
      NextFeed(After(before), before, e, AlertLog(before));
    }
  }

  // ----- which alerts there are

  /** Event `m` has the highest number that its worker had emitted before event `n`. */
  ghost predicate HighestBefore(h: seq<Event>, m: int, n: int) {
    && 0 <= m < n < |h| && h[m].workerId == h[n].workerId
    && forall k :: 0 <= k < n && h[k].workerId == h[n].workerId ==> h[k].seqNo <= h[m].seqNo
  }

  ghost predicate Arrives(h: seq<Event>, n: int) {
    0 <= n < |h| && forall m :: 0 <= m < n ==> h[m].workerId != h[n].workerId
  }

  /** Event `n` does not follow the highest number before it. */
  ghost predicate OutOfSequence(h: seq<Event>, n: int, detail: AlertDetail)
    requires 0 <= n < |h|
  {
    exists m :: HighestBefore(h, m, n)
                && if h[n].seqNo <= h[m].seqNo then detail == Regression(h[n].seqNo, h[m].seqNo)
                   else && h[n].seqNo > h[m].seqNo + 1
                        && detail == Gap(h[n].seqNo - h[m].seqNo - 1, h[m].seqNo, h[n].seqNo)
  }

  /** The event says what this alert reports. */
  predicate Says(e: Event, kind: AlertKind, detail: AlertDetail) {
    match kind
    case BlockedAlert =>
      e.payload.StateChange? && e.payload.next == Blocked && detail == NoteText(e.payload.stateNote)
    case UnblockedAlert =>
      && e.payload.StateChange? && e.payload.next == Executing && e.payload.from == Some(Blocked)
      && detail == NoteText(e.payload.stateNote)
    case CompletionAlert => e.payload.Completion? && detail == Text(e.payload.summary)
    case FailureAlert => e.payload.Failure? && detail == Text(e.payload.error)
    case _ => false
  }

  /** Event `n` raises this alert. */
  ghost predicate Raises(h: seq<Event>, n: int, alert: Alert) {
    && 0 <= n < |h|
    && alert == AlertOf(alert.kind, h[n], alert.detail)
    && match alert.kind
       case StartedAlert => Arrives(h, n) && alert.detail == NoDetail
       case SeqGapAlert => OutOfSequence(h, n, alert.detail)
       case kind => Says(h[n], kind, alert.detail)
  }

  lemma ArrivesIff(h: seq<Event>)
    requires h != []
    ensures Arrives(h, |h| - 1) <==> Of(ButLast(h), Final(h).workerId) == []
  {
    var before, w := ButLast(h), Final(h).workerId;
    if m :| 0 <= m < |before| && before[m].workerId == w {
      Emits(before, m);
    }
    if Of(before, w) != [] {
      OfSound(before, w, Of(before, w)[0]);
    }
  }

  lemma HighestIs(h: seq<Event>)
    requires h != [] && Of(ButLast(h), Final(h).workerId) != []
    ensures var last, n := Highest(Of(ButLast(h), Final(h).workerId)), |h| - 1;
      && last.Some? && (exists m :: HighestBefore(h, m, n))
      && forall m :: HighestBefore(h, m, n) ==> h[m].seqNo == last.value
  {
    var before, w := ButLast(h), Final(h).workerId;
    var own := Of(before, w);
    HighestMeans(own);
    var e :| e in own && e.seqNo == Highest(own).value;
    OfSound(before, w, e);
    var m :| 0 <= m < |before| && before[m] == e;
    forall k | 0 <= k < |before| && before[k].workerId == w ensures h[k].seqNo <= e.seqNo {
      Emits(before, k);
    }
    assert HighestBefore(h, m, |h| - 1);
  }

  lemma OutOfSequenceIff(h: seq<Event>, alert: Alert)
    requires h != []
    ensures alert in OnSequence(ButLast(h), Final(h))
       <==> alert == AlertOf(SeqGapAlert, Final(h), alert.detail) && OutOfSequence(h, |h| - 1, alert.detail)
  {
    if Of(ButLast(h), Final(h).workerId) != [] {
      HighestIs(h);
    }
    hide HighestBefore, Highest, Of;
    var n := |h| - 1;
    if m :| HighestBefore(h, m, n) {
      ComesLater(h, m);
    }
  }

  lemma OnPayloadIff(e: Event, alert: Alert)
    ensures alert in OnPayload(e)
       <==> alert == AlertOf(alert.kind, e, alert.detail) && Says(e, alert.kind, alert.detail)
  {
  }

  lemma NoOtherSaid(e: Event, alert: Alert)
    ensures alert.kind.StartedAlert? || alert.kind.SeqGapAlert? ==> !Says(e, alert.kind, alert.detail)
  {
  }

  lemma OnArrivalIff(h: seq<Event>, alert: Alert)
    requires h != []
    ensures alert in OnArrival(ButLast(h), Final(h))
       <==> alert == AlertOf(StartedAlert, Final(h), NoDetail) && Arrives(h, |h| - 1)
  {
    ArrivesIff(h);
    hide Arrives, Of;
  }

  lemma RaisedLast(h: seq<Event>, alert: Alert)
    requires h != []
    ensures Raises(h, |h| - 1, alert)
       <==> var before, e := ButLast(h), Final(h);
            alert in OnPayload(e) || alert in OnSequence(before, e) || alert in OnArrival(before, e)
  {
    OnPayloadIff(Final(h), alert);
    OutOfSequenceIff(h, alert);
    OnArrivalIff(h, alert);
    NoOtherSaid(Final(h), alert);
    hide OutOfSequence, OnSequence, OnPayload, OnArrival, Arrives, Says;
  }

  lemma ComesLater(h: seq<Event>, m: int)
    requires h != [] && HighestBefore(h, m, |h| - 1)
    ensures 0 <= m < |h| - 1 && Of(ButLast(h), Final(h).workerId) != []
  {
    Emits(ButLast(h), m);
  }

  lemma RaisedEarlier(h: seq<Event>, n: int, alert: Alert)
    requires h != [] && n < |h| - 1
    ensures Raises(h, n, alert) <==> Raises(ButLast(h), n, alert)
  {
    forall m ensures HighestBefore(h, m, n) <==> HighestBefore(ButLast(h), m, n) {
    }
    hide HighestBefore;
  }

  /** The log holds exactly the alerts that some event of the history raises. */
  lemma {:induction false} AlertsMean(h: seq<Event>, alert: Alert)
    ensures alert in AlertLog(h) <==> exists n :: Raises(h, n, alert)
  {
    hide Raises, OnPayload, OnSequence, OnArrival;
    if h == [] {
      NoneRaised(alert);
    } else {
      var before := ButLast(h);
      AlertsMean(before, alert);
      RaisedLast(h, alert);
      forall n | n < |h| - 1 ensures Raises(h, n, alert) <==> Raises(before, n, alert) {
        RaisedEarlier(h, n, alert);
      }
      RaisedWithin(h, alert);
      RaisedWithin(before, alert);
    }
  }

  lemma NoneRaised(alert: Alert)
    ensures forall n :: !Raises([], n, alert)
  {
  }

  lemma RaisedWithin(h: seq<Event>, alert: Alert)
    ensures forall n :: Raises(h, n, alert) ==> 0 <= n < |h|
  {
  }
}
