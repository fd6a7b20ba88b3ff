/** The actions on one operations-room state, live or shadowed behind a replay. */
module World {
  import opened OpsTypes
  import R = Reducer
  import S = Squads

  /** The elements of the sequence that are in `chosen`, in order. */
  function Among(s: seq<Id>, chosen: set<Id>): seq<Id> {
    if s == [] then []
    else Among(s[..|s| - 1], chosen) + (if s[|s| - 1] in chosen then [s[|s| - 1]] else [])
  }

  // ----- the review queue

  predicate Finished(o: Ops, w: Id) {
    w in o.workers && o.workers[w].state.Terminal()
  }

  /** A finished standalone worker that nobody has decided about yet. */
  predicate OnQueue(o: Ops, w: Id) {
    Finished(o, w) && !o.workers[w].mission.scoped && AwaitsReview(Get(o.reviewStatus, w))
  }

  function Queued(o: Ops): set<Id> {
    set w | w in o.workers && OnQueue(o, w)
  }

  function ReviewQueue(o: Ops): seq<Id> {
    Among(o.workerOrder, Queued(o))
  }

  method ComputeNeedsReview(o: Ops) returns (queue: seq<Id>)
    ensures queue == ReviewQueue(o)
  {
    queue := [];
    for n := 0 to |o.workerOrder|
      invariant queue == Among(o.workerOrder[..n], Queued(o))
    {
      var w := o.workerOrder[n];
      assert o.workerOrder[..n + 1][..n] == o.workerOrder[..n];
      if w !in o.workers || o.workers[w].mission.scoped || !o.workers[w].state.Terminal() {
        continue;
      }
      if AwaitsReview(Get(o.reviewStatus, w)) {
        queue := queue + [w];
      }
    }
    assert o.workerOrder[..|o.workerOrder|] == o.workerOrder;
  }

  function Judged(o: Ops, w: Id, status: ReviewStatus): Ops {
    o.(reviewStatus := o.reviewStatus[w := status])
  }

  function Reviewed(o: Ops, w: Id, status: ReviewStatus): Ops {
    var after := Judged(o, w, status);
    after.(needsInputCount :=
      o.needsInputCount + (if OnQueue(after, w) then 1 else 0) - (if OnQueue(o, w) then 1 else 0))
  }

  function IndexOf(s: seq<Id>, w: Id): (n: int)
    ensures n == -1 <==> w !in s
    ensures -1 <= n < |s| && (n >= 0 ==> s[n] == w && w !in s[..n])
  {
    if s == [] then -1
    else
      var n := IndexOf(s[..|s| - 1], w);
      if n >= 0 then n else if s[|s| - 1] == w then |s| - 1 else -1
  }

  /** Where the keyboard focus goes when the focused card is decided: same place in the shorter queue. */
  function Refocused(o: Ops, w: Id, status: ReviewStatus): Option<Id> {
    if o.ui.reviewFocus != Some(w) || status == NeedsReview then o.ui.reviewFocus
    else
      var queue := ReviewQueue(Judged(o, w, status));
      if queue == [] then None else Some(queue[Min(R.Max(IndexOf(ReviewQueue(o), w), 0), |queue| - 1)])
  }

  function Min(a: int, b: int): int {
    if a < b then a else b
  }

  method NextFocus(o: Ops, w: Id, status: ReviewStatus) returns (focus: Option<Id>)
    ensures focus == Refocused(o, w, status)
  {
    focus := o.ui.reviewFocus;
    if focus == Some(w) && status != NeedsReview {
      var queue := ComputeNeedsReview(Judged(o, w, status));
      var priorQueue := ComputeNeedsReview(o);
      if queue == [] {
        focus := None;
      } else {
        focus := Some(queue[Min(R.Max(IndexOf(priorQueue, w), 0), |queue| - 1)]);
      }
    }
  }

  method QueueChange(o: Ops, w: Id, status: ReviewStatus) returns (needsInputDelta: int)
    ensures needsInputDelta == (if OnQueue(Judged(o, w, status), w) then 1 else 0) - (if OnQueue(o, w) then 1 else 0)
  {
    var isTerminal := w in o.workers && !o.workers[w].mission.scoped && o.workers[w].state.Terminal();
    var wasOnQueue := isTerminal && AwaitsReview(Get(o.reviewStatus, w));
    var nowOnQueue := isTerminal && status == NeedsReview;
    needsInputDelta := 0;
    if wasOnQueue && !nowOnQueue {
      needsInputDelta := -1;
    } else if !wasOnQueue && nowOnQueue {
      needsInputDelta := 1;
    }
  }

  /** The action itself, which works with a delta and, in live mode, moves the focus. */
  method SetReviewStatus(o: Ops, w: Id, status: ReviewStatus, isReplay: bool) returns (after: Ops)
    ensures after == Reviewed(o, w, status).(ui := o.ui.(reviewFocus :=
                       if isReplay then o.ui.reviewFocus else Refocused(o, w, status)))
    ensures forall v :: Get(after.reviewStatus, v) == if v == w then Some(status) else Get(o.reviewStatus, v)
  {
    hide Refocused, OnQueue;
    var needsInputDelta := QueueChange(o, w, status);
    var focus := o.ui.reviewFocus;
    if !isReplay {
      focus := NextFocus(o, w, status);
    }
    after := Judged(o, w, status).(needsInputCount := o.needsInputCount + needsInputDelta,
                                   ui := o.ui.(reviewFocus := focus));
  }

  // ----- registration

  function Registered(o: Ops, w: Worker): Ops {
    o.(workers := o.workers[w.id := w],
       workerOrder := o.workerOrder + [w.id],
       alerts := R.Pushed(o.alerts, Some(Alert(StartedAlert, w.id, 0, NoDetail, w.spawnedAt))),
       activeCount := o.activeCount + 1)
  }

  function Badged(w: Worker, vendor: string, title: Option<string>, model: Option<string>): Worker {
    w.(vendor := vendor, model := model, currentTaskTitle := title)
  }

  function Scoped(w: Worker, missionId: Id): Worker {
    w.(mission := w.mission.(scoped := true, id := Some(missionId)))
  }

  function Register(o: Ops, id: Id, vendor: string, title: Option<string>, model: Option<string>, now: int): Ops {
    if id in o.workers then
      var w := o.workers[id];
      o.(workers := o.workers[id := Badged(w, vendor, title, OrElse(model, w.model))])
    else
      Registered(o, Badged(FreshWorker(id, now), vendor, title, model))
  }

  /** `model` is absent when the caller does not say, and `Some(None)` when it says there is none. */
  function RegisterMission(o: Ops, id: Id, vendor: string, title: Option<string>, missionId: Id,
                           model: Option<Option<string>>, now: int): Ops {
    if id in o.workers then
      var w := o.workers[id];
      o.(workers := o.workers[id := Scoped(Badged(w, vendor, title, model.GetOr(w.model)), missionId)])
    else
      Registered(o, Scoped(Badged(FreshWorker(id, now), vendor, title, model.GetOr(None)), missionId))
  }

  function SetModel(o: Ops, id: Id, model: Option<string>): Ops {
    if id in o.workers then o.(workers := o.workers[id := o.workers[id].(model := model)]) else o
  }

  // ----- mission progress

  datatype Update = Update(state: Option<WorkerState>, note: Option<string>, completion: Option<string>,
                           failure: Option<string>, filesChanged: Option<int>, timeline: TimelineEntry)

  function UpdatedWorker(w: Worker, u: Update, now: int): Worker {
    var next := u.state.GetOr(w.state);
    w.(state := next,
       progress := w.progress.(note := OrElse(u.note, w.progress.note)),
       completionSummary := OrElse(u.completion, w.completionSummary),
       failureSummary := OrElse(u.failure, w.failureSummary),
       files := w.files.(modified := u.filesChanged.GetOr(w.files.modified)),
       mission := w.mission.(timeline := Last(w.mission.timeline + [u.timeline], MAX_TIMELINE)),
       eventCount := w.eventCount + 1,
       flashUntil := if next == Done && !w.state.Terminal() then now + FLASH_MS else w.flashUntil)
  }

  function UpdateMission(o: Ops, id: Id, u: Update, now: int): Ops {
    if id !in o.workers || !o.workers[id].mission.scoped then o
    else
      var w := o.workers[id];
      o.(workers := o.workers[id := UpdatedWorker(w, u, now)],
         activeCount := o.activeCount + R.ActiveDelta(w.state, u.state.GetOr(w.state)),
         totalEvents := o.totalEvents + 1)
  }

  function OfMission(o: Ops, missionId: Id): set<Id> {
    set w | w in o.workers && o.workers[w].mission.scoped && o.workers[w].mission.id == Some(missionId)
            && !o.workers[w].state.Terminal()
  }

  function FinalUpdate(state: WorkerState, at: TimelineEntry): Update {
    var text := Some(at.detail.GetOr(at.title));
    Update(Some(state), text, if state == Done then text else None, if state == Done then None else text, None, at)
  }

  function UpdateAll(o: Ops, ids: seq<Id>, u: Update, now: int): Ops {
    if ids == [] then o
    else UpdateMission(UpdateAll(o, ids[..|ids| - 1], u, now), ids[|ids| - 1], u, now)
  }

  /** Every unfinished worker of the mission is brought to the given state. */
  function FinishMission(o: Ops, missionId: Id, state: WorkerState, at: TimelineEntry, now: int): Ops {
    UpdateAll(o, Among(o.workerOrder, OfMission(o, missionId)), FinalUpdate(state, at), now)
  }

  function MissionWorkers(o: Ops): set<Id> {
    set w | w in o.workers && o.workers[w].mission.scoped
  }

  function AlertsWithout(alerts: seq<Alert>, gone: set<Id>): seq<Alert> {
    if alerts == [] then []
    else
      var kept := AlertsWithout(alerts[..|alerts| - 1], gone);
      if alerts[|alerts| - 1].workerId in gone then kept else kept + [alerts[|alerts| - 1]]
  }

  function Unless(focus: Option<Id>, gone: set<Id>): Option<Id> {
    if Truthy(focus) && focus.value in gone then None else focus
  }

  /** A new mission forgets the workers of earlier ones; both counters are recounted. */
  function Prune(o: Ops): Ops {
    var gone := MissionWorkers(o);
    if gone == {} then o
    else
      var workers, order := o.workers - gone, S.Without(o.workerOrder, gone);
      var status := o.reviewStatus - gone;
      o.(workers := workers,
         workerOrder := order,
         workerEvents := o.workerEvents - gone,
         alerts := AlertsWithout(o.alerts, gone),
         activeCount := |Among(order, set w | w in workers && !workers[w].state.Terminal())|,
         needsInputCount := |Among(order, set w | w in workers && workers[w].state.Terminal()
                                                  && AwaitsReview(Get(status, w)))|,
         lastSeq := o.lastSeq - gone,
         org := S.Pruned(o.org, gone),
         reviewStatus := status,
         ui := Ui(Unless(o.ui.selected, gone), Unless(o.ui.reviewFocus, gone)))
  }

  // ----- all of them

  datatype Action =
    | Ingest(event: Event)
    | Review(workerId: Id, status: ReviewStatus)
    | CreateSquad(squadId: Id, name: string, color: string, at: int)
    | RenameSquad(squadId: Id, name: string)
    | SetSquadColor(squadId: Id, color: string)
    | DeleteSquad(squadId: Id)
    | AssignWorker(workerId: Id, to: Option<Id>)
    | SetSquadLead(squadId: Id, lead: Option<Id>)
    | RegisterWorker(workerId: Id, vendor: string, title: Option<string>, model: Option<string>, at: int)
    | RegisterMissionWorker(workerId: Id, vendor: string, title: Option<string>, missionId: Id,
                            given: Option<Option<string>>, at: int)
    | UpdateMissionWorker(workerId: Id, update: Update, at: int)
    | FinishMissionWorkers(missionId: Id, state: WorkerState, entry: TimelineEntry, at: int)
    | MissionCreated
    | SetWorkerModel(workerId: Id, model: Option<string>)

  /** What an action makes of the state it is routed to. */
  function Act(o: Ops, a: Action): Ops {
    match a
    case Ingest(e) => R.Apply(o, e)
    case Review(w, status) => Reviewed(o, w, status)
    case CreateSquad(id, name, color, at) => o.(org := S.Create(o.org, id, name, color, at))
    case RenameSquad(id, name) => o.(org := S.Rename(o.org, id, name))
    case SetSquadColor(id, color) => o.(org := S.Recolor(o.org, id, color))
    case DeleteSquad(id) => o.(org := S.Deleted(o.org, id))
    case AssignWorker(w, squad) => o.(org := S.Assigned(o.org, w, squad))
    case SetSquadLead(id, lead) => o.(org := S.Led(o.org, id, lead))
    case RegisterWorker(id, vendor, title, model, now) => Register(o, id, vendor, title, model, now)
    case RegisterMissionWorker(id, vendor, title, mission, model, now) =>
      RegisterMission(o, id, vendor, title, mission, model, now)
    case UpdateMissionWorker(id, u, now) => UpdateMission(o, id, u, now)
    case FinishMissionWorkers(mission, state, at, now) => FinishMission(o, mission, state, at, now)
    case MissionCreated => Prune(o)
    case SetWorkerModel(id, model) => SetModel(o, id, model)
  }

  /** The same in live mode, where deciding about the focused worker also moves the focus. */
  function LiveAct(o: Ops, a: Action): Ops {
    if a.Review? then Act(o, a).(ui := o.ui.(reviewFocus := Refocused(o, a.workerId, a.status))) else Act(o, a)
  }

  // ----- the review queue after a decision

  lemma {:induction false} AmongKeeps(s: seq<Id>, chosen: set<Id>)
    ensures forall x :: x in Among(s, chosen) <==> x in s && x in chosen
    ensures NoDuplicates(s) ==> NoDuplicates(Among(s, chosen))
  {
    if s != [] {
      AmongKeeps(s[..|s| - 1], chosen);
      assert s == s[..|s| - 1] + [s[|s| - 1]];
    }
  }

  function Dropped(s: seq<Id>, n: int): seq<Id>
    requires 0 <= n < |s|
  {
    s[..n] + s[n + 1..]
  }

  lemma IndexSnoc(s: seq<Id>, x: Id, w: Id)
    ensures IndexOf(s + [x], w) == if IndexOf(s, w) >= 0 then IndexOf(s, w) else if x == w then |s| else -1
  {
  }

  lemma DroppedSnoc(s: seq<Id>, x: Id, n: int)
    requires 0 <= n <= |s|
    ensures Dropped(s + [x], n) == if n == |s| then s else Dropped(s, n) + [x]
  {
  }

  /** Taking one element out of the chosen set takes that one element out of the selection. */
  lemma {:induction false} AmongWithout(s: seq<Id>, chosen: set<Id>, w: Id)
    requires NoDuplicates(s) && w in s && w in chosen
    ensures IndexOf(Among(s, chosen), w) >= 0
    ensures Among(s, chosen - {w}) == Dropped(Among(s, chosen), IndexOf(Among(s, chosen), w))
  {
    hide IndexOf, Dropped;
    var rest, x := s[..|s| - 1], s[|s| - 1];
    var before := Among(rest, chosen);
    AmongKeeps(rest, chosen);
    IndexSnoc(before, x, w);
    if x == w {
      AmongSame(rest, chosen, chosen - {w});
      DroppedSnoc(before, w, |before|);
    } else {
      AmongWithout(rest, chosen, w);
      DroppedSnoc(before, x, IndexOf(before, w));
      if x !in chosen {
        assert Among(s, chosen) == before && Among(s, chosen - {w}) == Among(rest, chosen - {w});
      }
    }
  }

  lemma {:induction false} AmongSame(s: seq<Id>, one: set<Id>, other: set<Id>)
    requires forall x :: x in s ==> (x in one <==> x in other)
    ensures Among(s, one) == Among(s, other)
  {
    if s != [] {
      AmongSame(s[..|s| - 1], one, other);
    }
  }

  /** Deciding about a queued worker takes it, and no other, off the queue. */
  lemma DecidedLeavesQueue(o: Ops, w: Id, status: ReviewStatus)
    requires status != NeedsReview && NoDuplicates(o.workerOrder)
    requires w in ReviewQueue(o)
    ensures IndexOf(ReviewQueue(o), w) >= 0
    ensures ReviewQueue(Reviewed(o, w, status)) == Dropped(ReviewQueue(o), IndexOf(ReviewQueue(o), w))
  {
    AmongKeeps(o.workerOrder, Queued(o));
    assert Queued(Reviewed(o, w, status)) == Queued(o) - {w};
    AmongWithout(o.workerOrder, Queued(o), w);
  }

  /**
   * When the focused card is decided, the focus moves to the card that followed it, or to the one before
   * it if it was the last, or nowhere if it was the only one. If it was not on the queue, the focus moves to
   * the first card there is.
   */
  lemma FocusMovesOn(o: Ops, w: Id, status: ReviewStatus)
    requires status != NeedsReview && NoDuplicates(o.workerOrder) && o.ui.reviewFocus == Some(w)
    ensures var queue, n := ReviewQueue(o), IndexOf(ReviewQueue(o), w);
            LiveAct(o, Review(w, status)).ui.reviewFocus
              == if n < 0 then (if queue == [] then None else Some(queue[0]))
                 else if n + 1 < |queue| then Some(queue[n + 1])
                 else if n > 0 then Some(queue[n - 1])
                 else None
  {
    AmongKeeps(o.workerOrder, Queued(o));
    if w in ReviewQueue(o) {
      DecidedLeavesQueue(o, w, status);
      assert ReviewQueue(Judged(o, w, status)) == ReviewQueue(Reviewed(o, w, status)) by {
        assert Queued(Judged(o, w, status)) == Queued(Reviewed(o, w, status));
      }
    } else {
      NotQueued(o, w, status);
    }
  }

  lemma NotQueued(o: Ops, w: Id, status: ReviewStatus)
    requires status != NeedsReview && w !in ReviewQueue(o)
    ensures ReviewQueue(Judged(o, w, status)) == ReviewQueue(o)
  {
    AmongKeeps(o.workerOrder, Queued(o));
    assert Queued(Judged(o, w, status)) == Queued(o) - {w};
    AmongSame(o.workerOrder, Queued(o), Queued(o) - {w});
  }
}
