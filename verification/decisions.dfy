/** The review decisions, said of the actions alone: who has been decided about, and who is left on the queue. */
module Decisions {
  import opened OpsTypes
  import opened World
  import C = Counters
  import H = History
  import R = Reducer
  import Runs
  import S = Squads
  import Store

  /** A decision gives one worker its status and leaves every other status as it was. */
  lemma DecisionMeans(o: Ops, w: Id, status: ReviewStatus)
    ensures var after := Act(o, Review(w, status));
      && (forall v :: Get(after.reviewStatus, v) == if v == w then Some(status) else Get(o.reviewStatus, v))
      && after == o.(reviewStatus := after.reviewStatus, needsInputCount := after.needsInputCount)
    ensures var live := LiveAct(o, Review(w, status));
      && live.reviewStatus == Act(o, Review(w, status)).reviewStatus
      && live == Act(o, Review(w, status)).(ui := Ui(o.ui.selected, live.ui.reviewFocus))
      && (o.ui.reviewFocus != Some(w) || status == NeedsReview ==> live.ui.reviewFocus == o.ui.reviewFocus)
  {
    hide OnQueue, ReviewQueue;
  }

  // ----- mission workers

  /** The worker was registered for a mission, and no mission has been created since. */
  function Enrolled(acts: seq<Action>, w: Id): bool {
    if acts == [] then false
    else
      var a := acts[|acts| - 1];
      (a.RegisterMissionWorker? && a.workerId == w) || (!a.MissionCreated? && Enrolled(acts[..|acts| - 1], w))
  }

  lemma {:induction false} EnrolledMeans(acts: seq<Action>, w: Id)
    ensures Enrolled(acts, w)
       <==> exists n :: 0 <= n < |acts| && acts[n].RegisterMissionWorker? && acts[n].workerId == w
                        && forall m :: n < m < |acts| ==> !acts[m].MissionCreated?
  {
    if acts != [] {
      var before := acts[..|acts| - 1];
      EnrolledMeans(before, w);
      assert forall n :: 0 <= n < |before| ==> before[n] == acts[n];
      if n :| 0 <= n < |before| && before[n].RegisterMissionWorker? && before[n].workerId == w
              && forall m :: n < m < |before| ==> !before[m].MissionCreated? {
        assert acts[n] == before[n];
      }
    }
  }

  lemma {:induction false} UpdatesKeepMission(o: Ops, ids: seq<Id>, u: Update, now: int)
    ensures MissionWorkers(UpdateAll(o, ids, u, now)) == MissionWorkers(o)
  {
    if ids != [] {
      UpdatesKeepMission(o, ids[..|ids| - 1], u, now);
      UpdateKeepsMission(UpdateAll(o, ids[..|ids| - 1], u, now), ids[|ids| - 1], u, now);
    }
  }

  lemma UpdateKeepsMission(o: Ops, id: Id, u: Update, now: int)
    ensures MissionWorkers(UpdateMission(o, id, u, now)) == MissionWorkers(o)
  {
  }

  lemma EventKeepsMission(o: Ops, e: Event)
    ensures MissionWorkers(R.Apply(o, e)) == MissionWorkers(o)
  {
    hide R.Apply, R.NextWorker;
    H.NextRecord(R.Emitter(o, e), e);
    forall w ensures Get(R.Apply(o, e).workers, w)
                  == if w == e.workerId then Some(R.NextWorker(R.Emitter(o, e), e)) else Get(o.workers, w)
    {
      H.NextWorkers(o, e, w);
    }
    var after := R.Apply(o, e);
    assert forall w :: w in after.workers <==> Get(after.workers, w).Some?;
    assert forall w :: w in o.workers <==> Get(o.workers, w).Some?;
  }

  /** One record is written, or one more is put in; whether that worker is a mission worker is in the record. */
  lemma OneRecord(o: Ops, after: Ops, id: Id, w: Worker)
    requires after.workers == o.workers[id := w]
    ensures MissionWorkers(after) == if w.mission.scoped then MissionWorkers(o) + {id} else MissionWorkers(o) - {id}
  {
  }

  lemma RegisterEnrols(o: Ops, a: Action)
    requires a.RegisterMissionWorker?
    ensures MissionWorkers(Act(o, a)) == MissionWorkers(o) + {a.workerId}
  {
    hide R.Pushed, OrElse, Badged, FreshWorker;
    var known := a.workerId in o.workers;
    var w := if known then o.workers[a.workerId] else FreshWorker(a.workerId, a.at);
    var model := if known then a.given.GetOr(w.model) else a.given.GetOr(None);
    Runs.BadgedKeeps(w, a.vendor, a.title, model);
    Runs.FreshIsUnscoped(a.workerId, a.at);
    OneRecord(o, Act(o, a), a.workerId, Scoped(Badged(w, a.vendor, a.title, model), a.missionId));
    hide MissionWorkers;
  }

  lemma RegisterPlain(o: Ops, a: Action)
    requires a.RegisterWorker?
    ensures MissionWorkers(Act(o, a)) == MissionWorkers(o)
  {
    hide R.Pushed, OrElse, Badged, FreshWorker;
    var known := a.workerId in o.workers;
    var w := if known then o.workers[a.workerId] else FreshWorker(a.workerId, a.at);
    var model := if known then OrElse(a.model, w.model) else a.model;
    Runs.BadgedKeeps(w, a.vendor, a.title, model);
    Runs.FreshIsUnscoped(a.workerId, a.at);
    OneRecord(o, Act(o, a), a.workerId, Badged(w, a.vendor, a.title, model));
  }

  lemma ModelPlain(o: Ops, a: Action)
    requires a.SetWorkerModel?
    ensures MissionWorkers(Act(o, a)) == MissionWorkers(o)
  {
  }

  lemma PruneForgets(o: Ops)
    ensures MissionWorkers(Prune(o)) == {}
  {
    hide AlertsWithout, Among, S.Without, S.Pruned;
  }

  lemma ActEnrols(o: Ops, a: Action)
    ensures MissionWorkers(Act(o, a))
         == if a.RegisterMissionWorker? then MissionWorkers(o) + {a.workerId}
            else if a.MissionCreated? then {}
            else MissionWorkers(o)
  {
    match a
    case Ingest(e) => EventKeepsMission(o, e);
    case RegisterMissionWorker(_, _, _, _, _, _) => RegisterEnrols(o, a);
    case RegisterWorker(_, _, _, _, _) => RegisterPlain(o, a);
    case SetWorkerModel(_, _) => ModelPlain(o, a);
    case UpdateMissionWorker(id, u, now) => UpdateKeepsMission(o, id, u, now);
    case FinishMissionWorkers(mission, state, at, now) =>
      UpdatesKeepMission(o, Among(o.workerOrder, OfMission(o, mission)), FinalUpdate(state, at), now);
    case MissionCreated => PruneForgets(o);
    case _ => hide OnQueue, S.Assigned, S.Deleted, S.Led, S.Create;
  }

  /** In every run the mission workers are those enrolled. */
  lemma {:induction false} MissionWorkersAre(acts: seq<Action>)
    ensures forall w :: w in MissionWorkers(C.RunWorld(EMPTY, acts)) <==> Enrolled(acts, w)
  {
    hide Act, MissionWorkers;
    if acts == [] {
      NobodyEnrolled();
    } else {
      MissionWorkersAre(acts[..|acts| - 1]);
      ActEnrols(C.RunWorld(EMPTY, acts[..|acts| - 1]), acts[|acts| - 1]);
    }
  }

  lemma NobodyEnrolled()
    ensures MissionWorkers(EMPTY) == {}
  {
  }

  // ----- decisions

  /** The last decision about a worker; a new mission makes those about mission workers void. */
  function LastDecision(acts: seq<Action>, w: Id): Option<ReviewStatus> {
    if acts == [] then None
    else
      var before, a := acts[..|acts| - 1], acts[|acts| - 1];
      if a.Review? && a.workerId == w then Some(a.status)
      else if a.MissionCreated? && Enrolled(before, w) then None
      else LastDecision(before, w)
  }

  /** A later decision about the worker, or a new mission while it is enrolled in one. */
  predicate Supersedes(acts: seq<Action>, n: int, w: Id)
    requires 0 <= n < |acts|
  {
    (acts[n].Review? && acts[n].workerId == w) || (acts[n].MissionCreated? && Enrolled(acts[..n], w))
  }

  ghost predicate StandsFrom(acts: seq<Action>, n: int, w: Id, status: ReviewStatus) {
    0 <= n < |acts| && acts[n] == Review(w, status) && forall m :: n < m < |acts| ==> !Supersedes(acts, m, w)
  }

  lemma StandsLonger(acts: seq<Action>, n: int, w: Id, status: ReviewStatus)
    requires acts != [] && n < |acts| - 1
    ensures StandsFrom(acts, n, w, status)
       <==> StandsFrom(acts[..|acts| - 1], n, w, status) && !Supersedes(acts, |acts| - 1, w)
  {
    hide Enrolled;
    var before := acts[..|acts| - 1];
    forall m | 0 <= m < |before| ensures Supersedes(before, m, w) <==> Supersedes(acts, m, w) {
      assert before[..m] == acts[..m];
    }
    hide Supersedes;
  }

  lemma {:induction false} LastDecisionMeans(acts: seq<Action>, w: Id, status: ReviewStatus)
    ensures LastDecision(acts, w) == Some(status) <==> exists n :: StandsFrom(acts, n, w, status)
  {
    hide Enrolled;
    if acts != [] {
      var before, last := acts[..|acts| - 1], |acts| - 1;
      LastDecisionMeans(before, w, status);
      forall n | n < last
        ensures StandsFrom(acts, n, w, status) <==> StandsFrom(before, n, w, status) && !Supersedes(acts, last, w)
      {
        StandsLonger(acts, n, w, status);
      }
      assert StandsFrom(acts, last, w, status) <==> acts[last] == Review(w, status);
      assert forall n :: StandsFrom(acts, n, w, status) ==> n <= last;
      assert forall n :: StandsFrom(before, n, w, status) ==> n < last;
      hide StandsFrom;
    }
  }

  lemma {:induction false} UpdatesKeepStatus(o: Ops, ids: seq<Id>, u: Update, now: int)
    ensures UpdateAll(o, ids, u, now).reviewStatus == o.reviewStatus
  {
    if ids != [] {
      UpdatesKeepStatus(o, ids[..|ids| - 1], u, now);
    }
  }

  lemma PruneStatus(o: Ops, w: Id)
    ensures Get(Prune(o).reviewStatus, w) == if w in MissionWorkers(o) then None else Get(o.reviewStatus, w)
  {
    hide AlertsWithout, Among, S.Without, S.Pruned, MissionWorkers;
  }

  lemma ActDecides(o: Ops, a: Action, w: Id)
    ensures Get(Act(o, a).reviewStatus, w)
         == if a.Review? && a.workerId == w then Some(a.status)
            else if a.MissionCreated? && w in MissionWorkers(o) then None
            else Get(o.reviewStatus, w)
  {
    match a
    case Ingest(e) => Store.ApplyKeepsRest(o, e);
    case MissionCreated => PruneStatus(o, w);
    case FinishMissionWorkers(mission, state, at, now) =>
      UpdatesKeepStatus(o, Among(o.workerOrder, OfMission(o, mission)), FinalUpdate(state, at), now);
    case _ =>
      hide R.Apply, Prune, MissionWorkers, OnQueue, FinishMission, Badged, Scoped, FreshWorker, R.Pushed,
          S.Assigned, S.Deleted, S.Led, S.Create;
  }

  /** In every run a worker's status is that of its last decision, or none. */
  lemma {:induction false} StatusIsLastDecision(acts: seq<Action>, w: Id)
    ensures Get(C.RunWorld(EMPTY, acts).reviewStatus, w) == LastDecision(acts, w)
  {
    hide Act, MissionWorkers;
    if acts != [] {
      var before, a := acts[..|acts| - 1], acts[|acts| - 1];
      StatusIsLastDecision(before, w);
      ActDecides(C.RunWorld(EMPTY, before), a, w);
      MissionWorkersAre(before);
    }
  }

  /** Also in every run of the store, in live mode and behind a replay. */
  lemma StoredStatusIsLastDecision(steps: seq<Store.Step>, w: Id)
    ensures Get(Store.WorldOf(Store.Run(Store.START, steps)).reviewStatus, w)
         == LastDecision(Runs.SinceReset(steps), w)
  {
    Runs.WorldIsItsActions(steps);
    StatusIsLastDecision(Runs.SinceReset(steps), w);
    hide Store.Run, Store.WorldOf, C.RunWorld, LastDecision, Runs.SinceReset;
  }

  /**
   * On the queue are exactly the finished workers that belong to no mission and whose last decision is absent or
   * puts them back; each once, in the order of the list of workers.
   */
  lemma QueueIsUndecided(steps: seq<Store.Step>, w: Id)
    ensures var o, acts := Store.WorldOf(Store.Run(Store.START, steps)), Runs.SinceReset(steps);
      && (w in ReviewQueue(o) <==>
            (&& w in o.workers && (o.workers[w].state == Done || o.workers[w].state == Failed)
             && !Enrolled(acts, w) && LastDecision(acts, w) in [None, Some(NeedsReview)]))
      && NoDuplicates(ReviewQueue(o)) && ReviewQueue(o) == Among(o.workerOrder, Members(ReviewQueue(o)))
  {
    var o, acts := Store.WorldOf(Store.Run(Store.START, steps)), Runs.SinceReset(steps);
    Runs.WorldIsItsActions(steps);
    StoredStatusIsLastDecision(steps, w);
    MissionWorkersAre(acts);
    C.RunCounts(acts);
    hide Store.Run, Store.WorldOf, C.RunWorld, LastDecision, Runs.SinceReset, Enrolled;
    AmongKeeps(o.workerOrder, Queued(o));
    QueuedIff(o, w);
    AmongSame(o.workerOrder, Queued(o), Members(ReviewQueue(o)));
  }

  function Members(s: seq<Id>): set<Id> {
    set x | x in s
  }

  lemma QueuedIff(o: Ops, w: Id)
    requires C.Listed(o)
    ensures w in o.workerOrder && w in Queued(o)
       <==> && w in o.workers && (o.workers[w].state == Done || o.workers[w].state == Failed)
            && w !in MissionWorkers(o) && Get(o.reviewStatus, w) in [None, Some(NeedsReview)]
  {
  }
}
