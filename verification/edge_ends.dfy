/**
 * The dependency edges after a new mission has made the store forget the workers of earlier ones: the list
 * that is stored, which no prune touches, and the one that the next event draws.
 */
module EdgeEnds {
  import opened OpsTypes
  import opened World
  import C = Counters
  import H = History
  import R = Reducer

  /** Worker `w` waits on a task that another worker was the last to emit for. */
  predicate WaitsOn(o: Ops, w: Id, task: Id) {
    && w in o.workers && o.workers[w].blockedOn.Some? && task in o.workers[w].blockedOn.value
    && task in o.taskOwner && o.taskOwner[task] !in ["", w]
  }

  ghost predicate AllKnown(o: Ops, edges: seq<Edge>) {
    forall edge :: edge in edges ==> edge.source in o.workers && edge.target in o.workers
  }

  /** What the canvas is given. */
  ghost predicate StoredEndsKnown(o: Ops) {
    AllKnown(o, o.edges)
  }

  /** What a recomputation would give it. */
  ghost predicate EndsKnown(o: Ops) {
    AllKnown(o, R.DependencyEdges(o))
  }

  ghost predicate Joins(edges: seq<Edge>, source: Id, target: Id) {
    exists edge :: edge in edges && edge.source == source && edge.target == target
  }

  lemma DrawnEdge(o: Ops, edge: Edge)
    requires C.Listed(o)
    ensures edge in R.DependencyEdges(o)
       <==> exists w, task :: WaitsOn(o, w, task)
                              && edge == Edge(o.taskOwner[task], w, R.EdgeLabel(o, o.workers[w], task))
  {
    H.EdgeOfIff(o, o.workerOrder, edge);
    if edge in R.DependencyEdges(o) {
      var w :| w in o.workerOrder && edge in R.WorkerEdges(o, w);
      H.EdgeIntoIff(o, o.workers[w], o.workers[w].blockedOn.value, edge);
      var task :| task in o.workers[w].blockedOn.value && edge in R.EdgeFor(o, o.workers[w], task);
      assert WaitsOn(o, w, task);
    }
    if w, task :| WaitsOn(o, w, task) && edge == Edge(o.taskOwner[task], w, R.EdgeLabel(o, o.workers[w], task)) {
      H.EdgeIntoIff(o, o.workers[w], o.workers[w].blockedOn.value, edge);
      assert edge in R.EdgeFor(o, o.workers[w], task);
      assert edge in R.WorkerEdges(o, w);
    }
  }

  /** Two workers are joined by a redraw exactly when one waits on a task of the other. */
  lemma JoinedIff(o: Ops, source: Id, target: Id)
    requires C.Listed(o)
    ensures Joins(R.DependencyEdges(o), source, target)
       <==> exists task :: WaitsOn(o, target, task) && o.taskOwner[task] == source
  {
    hide R.EdgesOf;
    if Joins(R.DependencyEdges(o), source, target) {
      var edge :| edge in R.DependencyEdges(o) && edge.source == source && edge.target == target;
      DrawnEdge(o, edge);
    }
    if task :| WaitsOn(o, target, task) && o.taskOwner[task] == source {
      DrawnEdge(o, Edge(source, target, R.EdgeLabel(o, o.workers[target], task)));
    }
  }

  /** Whoever owns a task that somebody waits on is a known worker. */
  ghost predicate OwnersKnown(o: Ops) {
    forall w, task :: WaitsOn(o, w, task) ==> o.taskOwner[task] in o.workers
  }

  lemma KnownByJoins(o: Ops, edges: seq<Edge>)
    ensures AllKnown(o, edges)
       <==> forall source, target :: Joins(edges, source, target) ==> source in o.workers && target in o.workers
  {
    if forall source, target :: Joins(edges, source, target) ==> source in o.workers && target in o.workers {
      forall edge | edge in edges ensures edge.source in o.workers && edge.target in o.workers {
        assert Joins(edges, edge.source, edge.target);
      }
    }
  }

  /** A redraw joins known workers exactly when the owners that are waited on are known. */
  lemma EndsKnownIff(o: Ops)
    requires C.Listed(o)
    ensures EndsKnown(o) <==> OwnersKnown(o)
  {
    hide R.EdgesOf, WaitsOn;
    WaitersAreKnown(o);
    KnownByJoins(o, R.DependencyEdges(o));
    forall source, target
      ensures Joins(R.DependencyEdges(o), source, target)
         <==> exists task :: WaitsOn(o, target, task) && o.taskOwner[task] == source
    {
      JoinedIff(o, source, target);
    }
    if EndsKnown(o) {
      forall w, task | WaitsOn(o, w, task) ensures o.taskOwner[task] in o.workers {
        assert Joins(R.DependencyEdges(o), o.taskOwner[task], w);
      }
    }
  }

  lemma WaitersAreKnown(o: Ops)
    ensures forall w, task :: WaitsOn(o, w, task) ==> w in o.workers && task in o.taskOwner
  {
  }

  // ----- runs without a prune

  /** The stored edges join what a redraw would join; their labels may be older. */
  ghost predicate SameEnds(o: Ops) {
    forall source, target :: Joins(o.edges, source, target) <==> Joins(R.DependencyEdges(o), source, target)
  }

  /** Whoever owns a task is a known worker. */
  ghost predicate AllOwnersKnown(o: Ops) {
    forall task :: task in o.taskOwner ==> o.taskOwner[task] in o.workers
  }

  function BlockedOn(o: Ops, w: Id): Option<seq<Id>> {
    if w in o.workers then o.workers[w].blockedOn else None
  }

  /** Nothing changes about who waits for whom, and no worker is forgotten. */
  ghost predicate SameWaits(o: Ops, after: Ops) {
    && after.taskOwner == o.taskOwner && after.edges == o.edges
    && (forall w :: BlockedOn(after, w) == BlockedOn(o, w))
    && (forall w :: w in o.workers ==> w in after.workers)
  }

  lemma SameWaitsKeep(o: Ops, after: Ops)
    requires C.Listed(o) && C.Listed(after) && SameWaits(o, after) && SameEnds(o) && AllOwnersKnown(o)
    ensures SameEnds(after) && AllOwnersKnown(after)
  {
    forall source, target
      ensures Joins(R.DependencyEdges(after), source, target) <==> Joins(R.DependencyEdges(o), source, target)
    {
      hide R.EdgesOf, Joins, C.Listed;
      JoinedIff(o, source, target);
      JoinedIff(after, source, target);
      assert BlockedOn(after, target) == BlockedOn(o, target);
      assert forall task :: WaitsOn(after, target, task) <==> WaitsOn(o, target, task);
    }
  }

  lemma IngestKeeps(o: Ops, e: Event)
    requires AllOwnersKnown(o)
    ensures SameEnds(R.Apply(o, e)) && AllOwnersKnown(R.Apply(o, e))
  {
    hide R.Apply, R.NextWorker;
    H.AppliedIsCurrent(o, e);
    C.NextCounts(o, e);
    forall task | task in R.Apply(o, e).taskOwner ensures R.Apply(o, e).taskOwner[task] in R.Apply(o, e).workers {
      H.NextTask(o, e, task);
    }
  }

  /** One worker's record is replaced by one that waits for the same, or a worker that waits for nothing is added. */
  lemma RecordWaits(o: Ops, after: Ops, w: Id)
    requires w in after.workers && after.workers == o.workers[w := after.workers[w]]
    requires after.workers[w].blockedOn == BlockedOn(o, w)
    requires after.taskOwner == o.taskOwner && after.edges == o.edges
    ensures SameWaits(o, after)
  {
  }

  lemma UpdateWaits(o: Ops, w: Id, u: Update, now: int)
    ensures SameWaits(o, UpdateMission(o, w, u, now))
  {
    if w in o.workers && o.workers[w].mission.scoped {
      hide SameWaits;
      RecordWaits(o, UpdateMission(o, w, u, now), w);
    }
  }

  lemma SameWaitsJoin(o: Ops, between: Ops, after: Ops)
    requires SameWaits(o, between) && SameWaits(between, after)
    ensures SameWaits(o, after)
  {
  }

  lemma {:induction false} UpdateAllWaits(o: Ops, ids: seq<Id>, u: Update, now: int)
    ensures SameWaits(o, UpdateAll(o, ids, u, now))
  {
    if ids != [] {
      hide SameWaits, UpdateMission;
      var between := UpdateAll(o, ids[..|ids| - 1], u, now);
      UpdateAllWaits(o, ids[..|ids| - 1], u, now);
      UpdateWaits(between, ids[|ids| - 1], u, now);
      SameWaitsJoin(o, between, UpdateMission(between, ids[|ids| - 1], u, now));
    }
  }

  lemma BadgeWaits(w: Worker, vendor: string, title: Option<string>, model: Option<string>, mission: Id)
    ensures Badged(w, vendor, title, model).blockedOn == w.blockedOn && Badged(w, vendor, title, model).id == w.id
    ensures Scoped(w, mission).blockedOn == w.blockedOn && Scoped(w, mission).id == w.id
  {
  }

  lemma FreshWaits(id: Id, now: int)
    ensures FreshWorker(id, now).blockedOn == None && FreshWorker(id, now).id == id
  {
  }

  lemma RegisterWaits(o: Ops, w: Id, vendor: string, title: Option<string>, model: Option<string>, now: int)
    ensures SameWaits(o, Register(o, w, vendor, title, model, now))
  {
    hide SameWaits, R.Pushed, OrElse, Badged, FreshWorker;
    FreshWaits(w, now);
    BadgeWaits(FreshWorker(w, now), vendor, title, model, "");
    if w in o.workers {
      BadgeWaits(o.workers[w], vendor, title, OrElse(model, o.workers[w].model), "");
    }
    RecordWaits(o, Register(o, w, vendor, title, model, now), w);
  }

  lemma RegisterMissionWaits(o: Ops, w: Id, vendor: string, title: Option<string>, mission: Id,
                             model: Option<Option<string>>, now: int)
    ensures SameWaits(o, RegisterMission(o, w, vendor, title, mission, model, now))
  {
    hide SameWaits, R.Pushed, Badged, Scoped, FreshWorker;
    FreshWaits(w, now);
    var was := if w in o.workers then o.workers[w] else FreshWorker(w, now);
    var badged := Badged(was, vendor, title, model.GetOr(if w in o.workers then was.model else None));
    BadgeWaits(was, vendor, title, model.GetOr(if w in o.workers then was.model else None), mission);
    BadgeWaits(badged, vendor, title, None, mission);
    RecordWaits(o, RegisterMission(o, w, vendor, title, mission, model, now), w);
  }

  lemma SetModelWaits(o: Ops, w: Id, model: Option<string>)
    ensures SameWaits(o, SetModel(o, w, model))
  {
    if w in o.workers {
      hide SameWaits;
      RecordWaits(o, SetModel(o, w, model), w);
    }
  }

  lemma ActWaits(o: Ops, a: Action)
    requires !a.Ingest? && (a.MissionCreated? ==> MissionWorkers(o) == {})
    ensures SameWaits(o, Act(o, a))
  {
    hide OnQueue, Register, RegisterMission, UpdateMission, UpdateAll, SetModel;
    match a
    case RegisterWorker(w, vendor, title, model, now) => RegisterWaits(o, w, vendor, title, model, now);
    case RegisterMissionWorker(w, vendor, title, mission, model, now) =>
      RegisterMissionWaits(o, w, vendor, title, mission, model, now);
    case UpdateMissionWorker(w, u, now) => UpdateWaits(o, w, u, now);
    case SetWorkerModel(w, model) => SetModelWaits(o, w, model);
    case FinishMissionWorkers(mission, state, at, now) =>
      UpdateAllWaits(o, Among(o.workerOrder, OfMission(o, mission)), FinalUpdate(state, at), now);
    case _ =>
  }

  /** No mission starts in the run while workers of an earlier one are known. */
  predicate NoPrune(acts: seq<Action>) {
    acts == []
    || (NoPrune(acts[..|acts| - 1])
        && (acts[|acts| - 1].MissionCreated? ==> MissionWorkers(C.RunWorld(EMPTY, acts[..|acts| - 1])) == {}))
  }

  /** Until then the stored edges join known workers, and the ones a redraw would join. */
  lemma {:induction false} EdgesFitUntilPrune(acts: seq<Action>)
    requires NoPrune(acts)
    ensures var o := C.RunWorld(EMPTY, acts);
            C.Listed(o) && SameEnds(o) && AllOwnersKnown(o) && StoredEndsKnown(o)
  {
    hide Act, SameEnds, AllOwnersKnown;
    C.RunCounts(acts);
    if acts == [] {
      StartFits();
    } else {
      var before, a := acts[..|acts| - 1], acts[|acts| - 1];
      var o := C.RunWorld(EMPTY, before);
      EdgesFitUntilPrune(before);
      if a.Ingest? {
        ActIngests(o, a);
        IngestKeeps(o, a.event);
      } else {
        ActWaits(o, a);
        SameWaitsKeep(o, Act(o, a));
      }
    }
    StoredFromOwners(C.RunWorld(EMPTY, acts));
  }

  lemma ActIngests(o: Ops, a: Action)
    requires a.Ingest?
    ensures Act(o, a) == R.Apply(o, a.event)
  {
    hide R.Apply;
  }

  lemma StartFits()
    ensures SameEnds(EMPTY) && AllOwnersKnown(EMPTY)
  {
  }

  lemma StoredFromOwners(o: Ops)
    requires C.Listed(o) && SameEnds(o) && AllOwnersKnown(o)
    ensures StoredEndsKnown(o)
  {
    hide R.EdgesOf;
    EndsKnownIff(o);
    KnownByJoins(o, o.edges);
    KnownByJoins(o, R.DependencyEdges(o));
  }

  // ----- the first prune

  lemma PruneKeeps(o: Ops)
    ensures Prune(o).edges == o.edges && Prune(o).taskOwner == o.taskOwner
    ensures Prune(o).workers == o.workers - MissionWorkers(o)
  {
    if MissionWorkers(o) == {} {
      assert o.workers - MissionWorkers(o) == o.workers;
    }
  }

  predicate Touches(edge: Edge, gone: set<Id>) {
    edge.source in gone || edge.target in gone
  }

  /** After a prune the stored edges join known workers exactly when they did and none touches a mission worker. */
  lemma StoredEndsAfterPruneIff(o: Ops)
    ensures StoredEndsKnown(Prune(o))
       <==> StoredEndsKnown(o) && forall edge :: edge in o.edges ==> !Touches(edge, MissionWorkers(o))
  {
    PruneKeeps(o);
    hide Prune, MissionWorkers;
  }

  /** A mission worker waits on another worker's task, or another worker waits on its. */
  ghost predicate MissionInvolved(o: Ops) {
    exists w, task :: WaitsOn(o, w, task) && (w in MissionWorkers(o) || o.taskOwner[task] in MissionWorkers(o))
  }

  /** In every run up to its first prune, stored edges are stale after it exactly when a mission worker is involved. */
  lemma StaleAfterPruneIff(acts: seq<Action>)
    requires NoPrune(acts)
    ensures var o := C.RunWorld(EMPTY, acts);
            StoredEndsKnown(Prune(o)) <==> !MissionInvolved(o)
  {
    EdgesFitUntilPrune(acts);
    hide C.RunWorld;
    var o := C.RunWorld(EMPTY, acts);
    StoredEndsAfterPruneIff(o);
    hide R.EdgesOf, Prune, MissionWorkers, WaitsOn;
    WaitersAreKnown(o);
    if edge :| edge in o.edges && Touches(edge, MissionWorkers(o)) {
      assert Joins(o.edges, edge.source, edge.target);
      JoinedIff(o, edge.source, edge.target);
    }
    if MissionInvolved(o) {
      var w, task :| WaitsOn(o, w, task) && (w in MissionWorkers(o) || o.taskOwner[task] in MissionWorkers(o));
      JoinedIff(o, o.taskOwner[task], w);
      assert Joins(o.edges, o.taskOwner[task], w);
    }
  }

  /** A standalone worker waits on a task that a mission worker was the last to emit for. */
  ghost predicate StandaloneWaits(o: Ops) {
    exists w, task :: WaitsOn(o, w, task) && w !in MissionWorkers(o) && o.taskOwner[task] in MissionWorkers(o)
  }

  /** A standalone worker waits on a task whose owner an earlier prune has forgotten. */
  ghost predicate ForgottenOwner(o: Ops) {
    exists w, task :: WaitsOn(o, w, task) && w !in MissionWorkers(o) && o.taskOwner[task] !in o.workers
  }

  /** A redraw after a prune joins known workers exactly when no standalone worker waits on a mission worker's task. */
  lemma RedrawAfterPruneIff(o: Ops)
    requires C.Listed(o)
    ensures EndsKnown(Prune(o)) <==> !StandaloneWaits(o) && !ForgottenOwner(o)
    ensures OwnersKnown(o) ==> (EndsKnown(Prune(o)) <==> !StandaloneWaits(o))
  {
    C.PruneListed(o);
    EndsKnownIff(Prune(o));
    PruneKeeps(o);
    var after := Prune(o);
    hide Prune, MissionWorkers, R.EdgesOf;
    forall w, task ensures WaitsOn(after, w, task) <==> WaitsOn(o, w, task) && w !in MissionWorkers(o) {
    }
    if w, task :| WaitsOn(o, w, task) && w !in MissionWorkers(o) && o.taskOwner[task] !in after.workers {
      assert WaitsOn(after, w, task);
    }
  }

  // ----- two runs

  function Enrolled(w: Id): Action {
    RegisterMissionWorker(w, "codex", None, "m1", None, 0)
  }

  function Says(w: Id, task: Option<Id>, seqNo: nat, payload: Payload): Event {
    Event(w, task, seqNo, 0, payload)
  }

  /** One worker emits for a task, and another then says that it waits on it. */
  lemma WaitArises(o: Ops, worker: Id, waiter: Id, task: Id) returns (after: Ops)
    requires worker != waiter && worker != "" && task != ""
    ensures after
         == R.Apply(R.Apply(o, Says(worker, Some(task), 1, Log("work"))), Says(waiter, None, 1, Dependency([task])))
    ensures WaitsOn(after, waiter, task) && after.taskOwner[task] == worker
    ensures after.workers.Keys == o.workers.Keys + {worker, waiter}
    ensures forall w :: w != waiter ==> BlockedOn(after, w) == BlockedOn(o, w)
    ensures forall w :: w in after.workers ==>
              after.workers[w].mission.scoped == (w in o.workers && o.workers[w].mission.scoped)
  {
    hide R.Apply, R.NextWorker;
    var work, wait := Says(worker, Some(task), 1, Log("work")), Says(waiter, None, 1, Dependency([task]));
    var between := R.Apply(o, work);
    after := R.Apply(between, wait);
    C.NextCounts(o, work);
    C.NextCounts(between, wait);
    H.NextRecord(R.Emitter(o, work), work);
    H.NextRecord(R.Emitter(between, wait), wait);
    H.NextTask(o, work, task);
    H.NextTask(between, wait, task);
  }

  lemma RunOn(acts: seq<Action>, a: Action)
    ensures C.RunWorld(EMPTY, acts + [a]) == Act(C.RunWorld(EMPTY, acts), a)
  {
    hide Act;
    assert (acts + [a])[..|acts|] == acts;
  }

  function WaitingRun(mission: Id, worker: Id, waiter: Id, task: Id): seq<Action> {
    [Enrolled(mission), Ingest(Says(worker, Some(task), 1, Log("work"))),
     Ingest(Says(waiter, None, 1, Dependency([task])))]
  }

  lemma EnrolledAlone(mission: Id)
    ensures var o := Act(EMPTY, Enrolled(mission));
      && o.workers.Keys == {mission} && o.workers[mission].mission.scoped
      && (forall w :: BlockedOn(o, w) == None)
  {
  }

  lemma {:induction false} NoPruneWithout(acts: seq<Action>)
    requires forall a :: a in acts ==> !a.MissionCreated?
    ensures NoPrune(acts)
  {
    if acts != [] {
      NoPruneWithout(acts[..|acts| - 1]);
    }
  }

  lemma RunOfThree(a: Action, b: Action, c: Action)
    ensures C.RunWorld(EMPTY, [a, b, c]) == Act(Act(Act(EMPTY, a), b), c)
  {
    hide Act;
    RunOn([], a);
    RunOn([a], b);
    RunOn([a, b], c);
    assert [] + [a] == [a] && [a] + [b] == [a, b] && [a, b] + [c] == [a, b, c];
  }

  lemma WaitingRunIs(mission: Id, worker: Id, waiter: Id, task: Id)
    ensures C.RunWorld(EMPTY, WaitingRun(mission, worker, waiter, task))
         == R.Apply(R.Apply(Act(EMPTY, Enrolled(mission)), Says(worker, Some(task), 1, Log("work"))),
                    Says(waiter, None, 1, Dependency([task])))
    ensures NoPrune(WaitingRun(mission, worker, waiter, task))
  {
    hide Act, R.Apply, C.RunWorld, NoPrune, Says;
    var a, b := Enrolled(mission), Ingest(Says(worker, Some(task), 1, Log("work")));
    var c := Ingest(Says(waiter, None, 1, Dependency([task])));
    RunOfThree(a, b, c);
    NoPruneWithout([a, b, c]);
    ActIngests(Act(EMPTY, a), b);
    ActIngests(R.Apply(Act(EMPTY, a), b.event), c);
  }

  /** After a mission worker is enrolled, one of two workers waits on the other. */
  lemma WaitingWorld(mission: Id, worker: Id, waiter: Id, task: Id) returns (o: Ops)
    requires worker != waiter && worker != "" && task != "" && mission in {worker, waiter}
    ensures o == C.RunWorld(EMPTY, WaitingRun(mission, worker, waiter, task))
    ensures NoPrune(WaitingRun(mission, worker, waiter, task)) && C.Listed(o)
    ensures MissionWorkers(o) == {mission} && o.workers.Keys == {worker, waiter}
    ensures WaitsOn(o, waiter, task) && o.taskOwner[task] == worker && BlockedOn(o, worker) == None
  {
    hide Act, R.Apply, C.RunWorld, C.Listed, NoPrune, WaitsOn, Enrolled, WaitingRun, Says;
    EnrolledAlone(mission);
    WaitingRunIs(mission, worker, waiter, task);
    C.RunCounts(WaitingRun(mission, worker, waiter, task));
    o := WaitArises(Act(EMPTY, Enrolled(mission)), worker, waiter, task);
  }

  lemma RunToPrune(acts: seq<Action>)
    ensures C.RunWorld(EMPTY, acts + [MissionCreated]) == Prune(C.RunWorld(EMPTY, acts))
  {
    RunOn(acts, MissionCreated);
    hide C.RunWorld, Prune;
  }

  /**
   * A mission worker waits on a standalone one when a new mission starts: a redraw would be right, but the stored
   * edge still leads to the forgotten worker.
   */
  lemma StaleEdgeRun(mission: Id, other: Id, task: Id)
    requires mission != other && other != "" && task != ""
    ensures var o := C.RunWorld(EMPTY, WaitingRun(mission, other, mission, task) + [MissionCreated]);
      && EndsKnown(o) && !StoredEndsKnown(o)
      && Joins(o.edges, other, mission) && mission !in o.workers
  {
    var acts := WaitingRun(mission, other, mission, task);
    hide C.RunWorld, R.EdgesOf, Prune, WaitingRun, MissionWorkers, EndsKnown, StoredEndsKnown, Joins, C.Listed;
    var o := WaitingWorld(mission, other, mission, task);
    RunToPrune(acts);
    EdgesFitUntilPrune(acts);
    StaleAfterPruneIff(acts);
    PruneKeeps(o);
    JoinedIff(o, other, mission);
    forall w, t | WaitsOn(o, w, t) ensures w == mission {
      assert BlockedOn(o, other) == None;
    }
    RedrawAfterPruneIff(o);
  }

  /** An event that only logs leaves everybody waiting as before. */
  lemma LogKeepsWait(o: Ops, worker: Id, waiter: Id, task: Id, line: string) returns (after: Ops)
    requires WaitsOn(o, waiter, task) && o.taskOwner[task] == worker
    ensures after == R.Apply(o, Says(waiter, None, 2, Log(line)))
    ensures WaitsOn(after, waiter, task) && after.taskOwner[task] == worker && after.workers.Keys == o.workers.Keys
    ensures after.edges == R.DependencyEdges(after)
  {
    hide R.Apply, R.NextWorker, R.EdgesOf;
    var e := Says(waiter, None, 2, Log(line));
    after := R.Apply(o, e);
    H.AppliedIsCurrent(o, e);
    C.NextCounts(o, e);
    H.NextRecord(R.Emitter(o, e), e);
    H.NextTask(o, e, task);
  }

  /**
   * A standalone worker waits on a mission worker when a new mission starts: the edge from the forgotten worker is
   * drawn again at the next event.
   */
  lemma DanglingEdgeRun(mission: Id, other: Id, task: Id)
    requires mission != other && mission != "" && task != ""
    ensures var o := C.RunWorld(EMPTY, WaitingRun(mission, mission, other, task) + [MissionCreated]
                                         + [Ingest(Says(other, None, 2, Log("more")))]);
      && o.edges == R.DependencyEdges(o) && !EndsKnown(o)
      && Joins(o.edges, mission, other) && mission !in o.workers
  {
    var acts := WaitingRun(mission, mission, other, task);
    var more := Ingest(Says(other, None, 2, Log("more")));
    hide C.RunWorld, R.EdgesOf, Prune, WaitingRun, MissionWorkers, Joins, C.Listed, R.Apply;
    var o := WaitingWorld(mission, mission, other, task);
    RunToPrune(acts);
    RunOn(acts + [MissionCreated], more);
    ActIngests(Prune(o), more);
    hide Act;
    C.RunCounts(acts + [MissionCreated] + [more]);
    PruneKeeps(o);
    var after := LogKeepsWait(Prune(o), mission, other, task, "more");
    JoinedIff(after, mission, other);
    KnownByJoins(after, after.edges);
  }
}
