/** The two derived counters against the sets they are meant to count, over every run of actions. */
module Counters {
  import opened OpsTypes
  import opened World
  import R = Reducer
  import S = Squads

  function ActiveSet(o: Ops): set<Id> {
    set w | w in o.workers && !o.workers[w].state.Terminal()
  }

  /** Workers are listed once each under their own ids. */
  ghost predicate Listed(o: Ops) {
    && NoDuplicates(o.workerOrder) && (forall w :: w in o.workerOrder <==> w in o.workers)
    && (forall w :: w in o.workers ==> o.workers[w].id == w)
  }

  ghost predicate ActiveExact(o: Ops) {
    o.activeCount == |ActiveSet(o)|
  }

  /** How far the queue counter is from the length of the queue. */
  function Drift(o: Ops): int {
    o.needsInputCount - |ReviewQueue(o)|
  }

  lemma {:induction false} AmongCount(s: seq<Id>, chosen: set<Id>)
    requires NoDuplicates(s) && forall x :: x in chosen ==> x in s
    ensures |Among(s, chosen)| == |chosen|
  {
    if s != [] {
      var rest, x := s[..|s| - 1], s[|s| - 1];
      assert s == rest + [x];
      assert x !in rest;
      AmongSame(rest, chosen, chosen - {x});
      AmongCount(rest, chosen - {x});
    }
  }

  lemma QueueLength(o: Ops)
    requires Listed(o)
    ensures |ReviewQueue(o)| == |Queued(o)|
  {
    AmongCount(o.workerOrder, Queued(o));
  }

  /** Sets that differ at most in one element differ by one in size, or not at all. */
  lemma OneApart(before: set<Id>, after: set<Id>, w: Id)
    requires before - {w} == after - {w}
    ensures |after| - |before| == (if w in after then 1 else 0) - (if w in before then 1 else 0)
  {
    assert |before - {w}| == |before| - if w in before then 1 else 0;
    assert |after - {w}| == |after| - if w in after then 1 else 0;
  }

  // ----- one action

  /** By how much an action moves the queue counter away from the queue. */
  function Skew(o: Ops, a: Action): int {
    match a
    case Ingest(e) =>
      if e.workerId in o.workers && o.workers[e.workerId].mission.scoped
      then R.QueueDelta(o.workers[e.workerId].state, R.NextState(o.workers[e.workerId], e),
                        Get(o.reviewStatus, e.workerId))
      else 0
    case RegisterMissionWorker(id, _, _, _, _, _) => if OnQueue(o, id) then 1 else 0
    case MissionCreated => if MissionWorkers(o) == {} then 0 else -Drift(o)
    case _ => 0
  }

  /**
   * The two kinds of action that skew: an event that moves an undecided mission worker across the terminal
   * boundary, and the enrolment of a queued worker in a mission.
   */
  predicate Skews(o: Ops, a: Action) {
    match a
    case Ingest(e) =>
      && e.workerId in o.workers && o.workers[e.workerId].mission.scoped && e.payload.StateChange?
      && o.workers[e.workerId].state.Terminal() != e.payload.next.Terminal()
      && AwaitsReview(Get(o.reviewStatus, e.workerId))
    case RegisterMissionWorker(id, _, _, _, _, _) => OnQueue(o, id)
    case _ => false
  }

  lemma SkewsMeansSkew(o: Ops, a: Action)
    ensures !a.MissionCreated? ==> (Skews(o, a) <==> Skew(o, a) != 0)
  {
  }

  ghost predicate StepOk(o: Ops, after: Ops, skew: int) {
    Listed(after) && ActiveExact(after) && Drift(after) == Drift(o) + skew
  }

  ghost predicate Elsewhere(o: Ops, after: Ops, w: Id) {
    && (forall k :: k != w ==> Get(after.workers, k) == Get(o.workers, k))
    && (forall k :: k != w ==> Get(after.reviewStatus, k) == Get(o.reviewStatus, k))
  }

  lemma ElsewhereSets(o: Ops, after: Ops, w: Id)
    requires Elsewhere(o, after, w)
    ensures ActiveSet(o) - {w} == ActiveSet(after) - {w} && Queued(o) - {w} == Queued(after) - {w}
  {
    forall k | k != w
      ensures k in ActiveSet(o) <==> k in ActiveSet(after)
      ensures k in Queued(o) <==> k in Queued(after)
    {
      assert Get(after.workers, k) == Get(o.workers, k) && Get(after.reviewStatus, k) == Get(o.reviewStatus, k);
    }
  }

  function Active(o: Ops, w: Id): int {
    if w in o.workers && !o.workers[w].state.Terminal() then 1 else 0
  }

  function Waiting(o: Ops, w: Id): int {
    if OnQueue(o, w) then 1 else 0
  }

  /** A change to one worker, counted from the two sets it can move in and out of. */
  lemma OneWorker(o: Ops, after: Ops, w: Id, skew: int)
    requires Listed(o) && ActiveExact(o) && Listed(after) && Elsewhere(o, after, w)
    requires after.activeCount - o.activeCount == Active(after, w) - Active(o, w)
    requires after.needsInputCount - o.needsInputCount == Waiting(after, w) - Waiting(o, w) + skew
    ensures StepOk(o, after, skew)
  {
    QueueLength(o);
    QueueLength(after);
    ElsewhereSets(o, after, w);
    hide Listed, Elsewhere;
    OneApart(ActiveSet(o), ActiveSet(after), w);
    OneApart(Queued(o), Queued(after), w);
  }

  /** A change to one listed worker's record. */
  lemma OneRecord(o: Ops, after: Ops, w: Id, skew: int)
    requires Listed(o) && ActiveExact(o) && w in o.workers && w in after.workers
    requires after.workers == o.workers[w := after.workers[w]] && after.workers[w].id == w
    requires after.workerOrder == o.workerOrder && after.reviewStatus == o.reviewStatus
    requires after.activeCount - o.activeCount == Active(after, w) - Active(o, w)
    requires after.needsInputCount - o.needsInputCount == Waiting(after, w) - Waiting(o, w) + skew
    ensures StepOk(o, after, skew)
  {
    hide Active, Waiting;
    assert Listed(after);
    OneWorker(o, after, w, skew);
  }

  /** A new worker at the end of the list. */
  lemma NewRecord(o: Ops, after: Ops, w: Id)
    requires Listed(o) && ActiveExact(o) && w !in o.workers && w in after.workers
    requires after.workers == o.workers[w := after.workers[w]] && after.workers[w].id == w
    requires after.workerOrder == o.workerOrder + [w] && after.reviewStatus == o.reviewStatus
    requires after.activeCount - o.activeCount == Active(after, w)
    requires after.needsInputCount - o.needsInputCount == Waiting(after, w)
    ensures StepOk(o, after, 0)
  {
    assert Active(o, w) == Waiting(o, w) == 0;
    hide Active, Waiting;
    assert Listed(after);
    OneWorker(o, after, w, 0);
  }

  lemma NextCounts(o: Ops, e: Event)
    ensures var w, after := R.Emitter(o, e), R.Apply(o, e);
      && after.workers == o.workers[e.workerId := R.NextWorker(w, e)]
      && after.workerOrder == (if e.workerId in o.workers then o.workerOrder else o.workerOrder + [e.workerId])
      && after.activeCount == o.activeCount + (if e.workerId in o.workers then 0 else 1)
                              + R.ActiveDelta(w.state, R.NextState(w, e))
      && after.needsInputCount == o.needsInputCount
                                  + R.QueueDelta(w.state, R.NextState(w, e), Get(o.reviewStatus, e.workerId))
      && after.reviewStatus == o.reviewStatus && after.org == o.org && after.ui == o.ui
  {
  }

  lemma NextKeeps(w: Worker, e: Event)
    ensures R.NextWorker(w, e).id == w.id && R.NextWorker(w, e).mission == w.mission
    ensures R.NextWorker(w, e).state == R.NextState(w, e)
  {
  }

  lemma IngestCounts(o: Ops, e: Event)
    requires Listed(o) && ActiveExact(o)
    ensures StepOk(o, R.Apply(o, e), Skew(o, Ingest(e)))
  {
    hide R.Apply, R.NextWorker, Listed, ActiveExact, StepOk;
    var w, id := R.Emitter(o, e), e.workerId;
    NextCounts(o, e);
    NextKeeps(w, e);
    assert id in o.workers ==> w.id == id by { ListedId(o, id); }
    if id in o.workers {
      OneRecord(o, R.Apply(o, e), id, Skew(o, Ingest(e)));
    } else {
      NewRecord(o, R.Apply(o, e), id);
    }
  }

  lemma ListedId(o: Ops, id: Id)
    requires Listed(o)
    ensures id in o.workers ==> o.workers[id].id == id
  {
  }

  lemma ReviewCounts(o: Ops, w: Id, status: ReviewStatus)
    requires Listed(o) && ActiveExact(o)
    ensures StepOk(o, Reviewed(o, w, status), 0)
  {
    OneWorker(o, Reviewed(o, w, status), w, 0);
  }

  lemma RegisteredCounts(o: Ops, w: Worker)
    requires Listed(o) && ActiveExact(o) && w.id !in o.workers && !w.state.Terminal()
    ensures StepOk(o, Registered(o, w), 0)
  {
    hide Listed, ActiveExact, StepOk;
    NewRecord(o, Registered(o, w), w.id);
  }

  lemma RegisterCounts(o: Ops, id: Id, vendor: string, title: Option<string>, model: Option<string>, now: int)
    requires Listed(o) && ActiveExact(o)
    ensures StepOk(o, Register(o, id, vendor, title, model, now), 0)
  {
    hide Listed, ActiveExact, StepOk;
    ListedId(o, id);
    if id in o.workers {
      OneRecord(o, Register(o, id, vendor, title, model, now), id, 0);
    } else {
      RegisteredCounts(o, Badged(FreshWorker(id, now), vendor, title, model));
    }
  }

  lemma RegisterMissionCounts(o: Ops, id: Id, vendor: string, title: Option<string>, mission: Id,
                              model: Option<Option<string>>, now: int)
    requires Listed(o) && ActiveExact(o)
    ensures StepOk(o, RegisterMission(o, id, vendor, title, mission, model, now), Waiting(o, id))
  {
    hide Listed, ActiveExact, StepOk;
    ListedId(o, id);
    var after := RegisterMission(o, id, vendor, title, mission, model, now);
    if id in o.workers {
      OneRecord(o, after, id, Waiting(o, id));
    } else {
      RegisteredCounts(o, Scoped(Badged(FreshWorker(id, now), vendor, title, model.GetOr(None)), mission));
    }
  }

  lemma UpdateCounts(o: Ops, id: Id, u: Update, now: int)
    requires Listed(o) && ActiveExact(o)
    ensures StepOk(o, UpdateMission(o, id, u, now), 0)
  {
    if id in o.workers && o.workers[id].mission.scoped {
      hide Listed, ActiveExact, StepOk;
      ListedId(o, id);
      OneRecord(o, UpdateMission(o, id, u, now), id, 0);
    }
  }

  lemma {:induction false} UpdateAllCounts(o: Ops, ids: seq<Id>, u: Update, now: int)
    requires Listed(o) && ActiveExact(o)
    ensures StepOk(o, UpdateAll(o, ids, u, now), 0)
  {
    if ids != [] {
      UpdateAllCounts(o, ids[..|ids| - 1], u, now);
      UpdateCounts(UpdateAll(o, ids[..|ids| - 1], u, now), ids[|ids| - 1], u, now);
    }
  }

  lemma PruneListed(o: Ops)
    requires Listed(o)
    ensures Listed(Prune(o))
  {
    S.WithoutKeeps(o.workerOrder, MissionWorkers(o));
  }

  lemma PruneSets(o: Ops)
    ensures MissionWorkers(o) != {} ==>
              var after := Prune(o);
              && after.activeCount == |Among(after.workerOrder, ActiveSet(after))|
              && after.needsInputCount == |Among(after.workerOrder, Queued(after))|
  {
    var gone, after := MissionWorkers(o), Prune(o);
    if gone != {} {
      assert Queued(after) == set w | w in after.workers && after.workers[w].state.Terminal()
                                      && AwaitsReview(Get(after.reviewStatus, w));
    }
  }

  /** A new mission recounts: whatever drift there was is gone. */
  lemma PruneCounts(o: Ops)
    requires Listed(o) && ActiveExact(o)
    ensures StepOk(o, Prune(o), Skew(o, MissionCreated))
    ensures MissionWorkers(o) != {} ==> Drift(Prune(o)) == 0
  {
    var gone, after := MissionWorkers(o), Prune(o);
    if gone != {} {
      PruneListed(o);
      PruneSets(o);
      hide Prune;
      QueueLength(after);
      AmongCount(after.workerOrder, ActiveSet(after));
    }
  }

  lemma SetModelCounts(o: Ops, id: Id, model: Option<string>)
    requires Listed(o) && ActiveExact(o)
    ensures StepOk(o, SetModel(o, id, model), 0)
  {
    if id in o.workers {
      hide Listed, ActiveExact, StepOk;
      ListedId(o, id);
      OneRecord(o, SetModel(o, id, model), id, 0);
    }
  }

  lemma OrgCounts(o: Ops, after: Ops)
    requires Listed(o) && ActiveExact(o) && after == o.(org := after.org)
    ensures StepOk(o, after, 0)
  {
    assert Queued(after) == Queued(o) && ActiveSet(after) == ActiveSet(o);
  }

  /** Every action keeps `activeCount` exact, and moves the queue counter off the queue by `Skew` and no more. */
  lemma ActCounts(o: Ops, a: Action)
    requires Listed(o) && ActiveExact(o)
    ensures StepOk(o, Act(o, a), Skew(o, a))
  {
    hide Listed, ActiveExact, StepOk, R.Apply, Reviewed, Register, RegisterMission, UpdateMission, UpdateAll,
        Prune, SetModel;
    match a
    case Ingest(e) => IngestCounts(o, e);
    case Review(w, status) => ReviewCounts(o, w, status);
    case RegisterWorker(id, vendor, title, model, now) => RegisterCounts(o, id, vendor, title, model, now);
    case RegisterMissionWorker(id, vendor, title, mission, model, now) =>
      RegisterMissionCounts(o, id, vendor, title, mission, model, now);
    case UpdateMissionWorker(id, u, now) => UpdateCounts(o, id, u, now);
    case FinishMissionWorkers(mission, state, at, now) =>
      UpdateAllCounts(o, Among(o.workerOrder, OfMission(o, mission)), FinalUpdate(state, at), now);
    case MissionCreated => PruneCounts(o);
    case SetWorkerModel(id, model) => SetModelCounts(o, id, model);
    case _ => OrgCounts(o, Act(o, a));
  }

  // ----- all runs

  function RunWorld(o: Ops, acts: seq<Action>): Ops {
    if acts == [] then o else Act(RunWorld(o, acts[..|acts| - 1]), acts[|acts| - 1])
  }

  /** No action of the run is one that skews the counter. */
  predicate Steady(o: Ops, acts: seq<Action>) {
    acts == [] || (Steady(o, acts[..|acts| - 1]) && !Skews(RunWorld(o, acts[..|acts| - 1]), acts[|acts| - 1]))
  }

  /** The counter equals the length of the queue all along the run. */
  predicate ExactAlong(o: Ops, acts: seq<Action>) {
    RunWorld(o, acts).needsInputCount == |ReviewQueue(RunWorld(o, acts))|
    && (acts == [] || ExactAlong(o, acts[..|acts| - 1]))
  }

  lemma {:induction false} RunCounts(acts: seq<Action>)
    ensures Listed(RunWorld(EMPTY, acts)) && ActiveExact(RunWorld(EMPTY, acts))
  {
    hide Act;
    if acts != [] {
      RunCounts(acts[..|acts| - 1]);
      ActCounts(RunWorld(EMPTY, acts[..|acts| - 1]), acts[|acts| - 1]);
    }
  }

  /** The queue counter is exact throughout a run if and only if no action in it skews it. */
  lemma {:induction false} ExactIffSteady(acts: seq<Action>)
    ensures ExactAlong(EMPTY, acts) <==> Steady(EMPTY, acts)
  {
    if acts == [] {
      assert ReviewQueue(EMPTY) == [];
    } else {
      var before, a := acts[..|acts| - 1], acts[|acts| - 1];
      ExactIffSteady(before);
      RunCounts(before);
      var o := RunWorld(EMPTY, before);
      ActCounts(o, a);
      SkewsMeansSkew(o, a);
      if Steady(EMPTY, before) {
        ExactAtEnd(EMPTY, before);
        assert a.MissionCreated? ==> Skew(o, a) == 0 || Drift(Act(o, a)) == 0;
      }
      hide Act, Skew, Skews;
    }
  }

  lemma ExactAtEnd(o: Ops, acts: seq<Action>)
    requires ExactAlong(o, acts)
    ensures Drift(RunWorld(o, acts)) == 0
  {
  }

  lemma {:induction false} StandaloneRun(acts: seq<Action>)
    requires forall a :: a in acts ==> !a.RegisterMissionWorker?
    ensures MissionWorkers(RunWorld(EMPTY, acts)) == {}
  {
    if acts != [] {
      var before, a := acts[..|acts| - 1], acts[|acts| - 1];
      StandaloneRun(before);
      NoMissionStep(RunWorld(EMPTY, before), a);
    }
  }

  lemma {:induction false} NoMissionUpdates(o: Ops, ids: seq<Id>, u: Update, now: int)
    requires MissionWorkers(o) == {}
    ensures UpdateAll(o, ids, u, now) == o
  {
    if ids != [] {
      NoMissionUpdates(o, ids[..|ids| - 1], u, now);
      assert ids[|ids| - 1] in o.workers ==> ids[|ids| - 1] !in MissionWorkers(o);
    }
  }

  lemma NoMissionIngest(o: Ops, e: Event)
    requires MissionWorkers(o) == {}
    ensures MissionWorkers(R.Apply(o, e)) == {}
  {
    hide R.Apply, R.NextWorker;
    assert forall w :: w in o.workers ==> w !in MissionWorkers(o);
    NextCounts(o, e);
    NextKeeps(R.Emitter(o, e), e);
  }

  lemma NoMissionRecord(o: Ops, w: Id)
    requires MissionWorkers(o) == {}
    ensures w in o.workers ==> !o.workers[w].mission.scoped
  {
    assert w in o.workers ==> w !in MissionWorkers(o);
  }

  lemma NoMissionStep(o: Ops, a: Action)
    requires MissionWorkers(o) == {} && !a.RegisterMissionWorker?
    ensures MissionWorkers(Act(o, a)) == {}
  {
    hide R.Apply, R.Pushed, OnQueue, UpdateAll, S.Pruned, S.Assigned, S.Deleted, S.Led, S.Create;
    match a
    case Ingest(e) => NoMissionIngest(o, e);
    case FinishMissionWorkers(mission, state, at, now) =>
      NoMissionUpdates(o, Among(o.workerOrder, OfMission(o, mission)), FinalUpdate(state, at), now);
    case RegisterWorker(id, _, _, _, _) => NoMissionRecord(o, id);
    case UpdateMissionWorker(id, _, _) => NoMissionRecord(o, id);
    case SetWorkerModel(id, _) => NoMissionRecord(o, id);
    case _ =>
  }

  /** With standalone workers only, the counter is exact in every run. */
  lemma {:induction false} StandaloneIsSteady(acts: seq<Action>)
    requires forall a :: a in acts ==> !a.RegisterMissionWorker?
    ensures Steady(EMPTY, acts)
  {
    if acts != [] {
      var before, a := acts[..|acts| - 1], acts[|acts| - 1];
      StandaloneIsSteady(before);
      StandaloneRun(before);
      var o := RunWorld(EMPTY, before);
      assert forall w :: w in o.workers ==> w !in MissionWorkers(o);
      assert !Skews(o, a);
    }
  }

  /** A mission worker whose finish arrives as a plain event is counted but not queued. */
  lemma MissionWorkerDrifts(w: Id, ts: int)
    ensures var acts := [RegisterMissionWorker(w, "codex", None, "m1", None, ts),
                         Ingest(Event(w, None, 1, ts, StateChange(Done, None, None)))];
            ReviewQueue(RunWorld(EMPTY, acts)) == [] && RunWorld(EMPTY, acts).needsInputCount == 1
  {
    var enrol := RegisterMissionWorker(w, "codex", None, "m1", None, ts);
    var finish := Ingest(Event(w, None, 1, ts, StateChange(Done, None, None)));
    var acts := [enrol, finish];
    var enrolled := Act(EMPTY, enrol);
    assert acts[..1] == [enrol] && [enrol][..0] == [];
    assert RunWorld(EMPTY, [enrol]) == enrolled;
    var o := Act(enrolled, finish);
    assert RunWorld(EMPTY, acts) == o;
    NextCounts(enrolled, finish.event);
    NextKeeps(enrolled.workers[w], finish.event);
    assert Queued(o) == {};
    AmongCount([w], {});
  }
}
