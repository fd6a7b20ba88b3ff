/**
 * What one event makes of each part of the operations-room state. Each part is given as a
 * function of the state before the event, so it can be read without following the reducer's
 * step order; `OpsState.ApplyEvent` takes those steps in place.
 */
module Reducer {
  import opened OpsTypes

  function Max(a: int, b: int): int {
    if a < b then b else a
  }

  function NoteOr(note: Option<string>, kept: Option<string>): Option<string> {
    if Truthy(note) then note else kept
  }

  // ----- the emitting worker

  /** What a payload leaves in the emitting worker's record. */
  function NotePayload(w: Worker, e: Event): Worker {
    match e.payload
    case StateChange(next, _, note) =>
      w.(state := next,
         progress := w.progress.(note := NoteOr(note, w.progress.note)),
         flashUntil := if next == Done then e.ts + FLASH_MS else w.flashUntil)
    case Log(line) => w.(recentLog := Some(line))
    case Progress(percent, eta, note) =>
      w.(progress := ProgressInfo(Some(percent), eta, NoteOr(note, w.progress.note)))
    case FileActivity(op, added, removed) =>
      w.(files := FileTotals(w.files.added + (if op == Created then 1 else 0),
                             w.files.modified + (if op == Modified then 1 else 0),
                             w.files.deleted + (if op == Deleted then 1 else 0),
                             w.files.linesAdded + added.GetOr(0),
                             w.files.linesRemoved + removed.GetOr(0)))
    case TestResult(suite, passed, failed, skipped) =>
      w.(tests := TestTotals(passed, failed, skipped, Some(suite)))
    case Cost(usd, input, output, model) =>
      w.(spend := SpendTotals(w.spend.usd + usd, w.spend.input + input, w.spend.output + output),
         model := if Truthy(model) then model else w.model)
    case Dependency(waitingOn) => w.(blockedOn := Some(waitingOn))
    case Completion(summary) => w.(completionSummary := Some(summary))
    case Failure(error) => w.(failureSummary := Some(error))
    case Unrecognized => w
  }

  /** The emitting worker's record as the event finds it: the known one, or a fresh one. */
  function Emitter(s: Ops, e: Event): Worker {
    if e.workerId in s.workers then s.workers[e.workerId] else FreshWorker(e.workerId, e.ts)
  }

  function Counted(w: Worker): Worker {
    w.(eventCount := w.eventCount + 1)
  }

  function PointedAt(w: Worker, e: Event): Worker {
    if e.Tasked() then w.(currentTaskId := e.taskId) else w
  }

  function NextWorker(w: Worker, e: Event): Worker {
    NotePayload(PointedAt(Counted(w), e), e)
  }

  // ----- the task

  function Assigned(task: Option<Task>, e: Event): Task
    requires e.Tasked()
  {
    if task.Some? then task.value.(workerId := e.workerId) else Task(e.taskId.value, e.workerId, None, None)
  }

  function Stamped(task: Task, e: Event): Task {
    if !e.payload.StateChange? then task
    else task.(state := Some(e.payload.next),
               completedAt := if e.payload.next == Done then Some(e.ts) else task.completedAt)
  }

  function NextTasks(tasks: map<Id, Task>, e: Event): map<Id, Task> {
    if e.Tasked() then tasks[e.taskId.value := Stamped(Assigned(Get(tasks, e.taskId.value), e), e)] else tasks
  }

  function NextOwners(owners: map<Id, Id>, e: Event): map<Id, Id> {
    if e.Tasked() then owners[e.taskId.value := e.workerId] else owners
  }

  // ----- alerts

  function OptionalText(note: Option<string>): AlertDetail {
    if note.Some? then Text(note.value) else NoDetail
  }

  function StartAlert(known: bool, e: Event): Option<Alert> {
    if known then None else Some(Alert(StartedAlert, e.workerId, e.seqNo, NoDetail, e.ts))
  }

  /** The alert raised when an event's sequence number does not follow the highest one seen. */
  function SeqAlert(last: Option<int>, e: Event): Option<Alert> {
    if last.None? then None
    else if e.seqNo <= last.value then
      Some(Alert(SeqGapAlert, e.workerId, e.seqNo, Regression(e.seqNo, last.value), e.ts))
    else if e.seqNo > last.value + 1 then
      Some(Alert(SeqGapAlert, e.workerId, e.seqNo, Gap(e.seqNo - last.value - 1, last.value, e.seqNo), e.ts))
    else None
  }

  function PayloadAlert(e: Event): Option<Alert> {
    match e.payload
    case StateChange(next, from, note) =>
      if next == Blocked then Some(Alert(BlockedAlert, e.workerId, e.seqNo, OptionalText(note), e.ts))
      else if next == Executing && from == Some(Blocked) then
        Some(Alert(UnblockedAlert, e.workerId, e.seqNo, OptionalText(note), e.ts))
      else None
    case Completion(summary) => Some(Alert(CompletionAlert, e.workerId, e.seqNo, Text(summary), e.ts))
    case Failure(error) => Some(Alert(FailureAlert, e.workerId, e.seqNo, Text(error), e.ts))
    case _ => None
  }

  /** Newest first, and no more than the cap. */
  function Pushed(alerts: seq<Alert>, alert: Option<Alert>): seq<Alert> {
    if alert.Some? then First([alert.value] + alerts, MAX_ALERTS) else alerts
  }

  function NextAlerts(s: Ops, e: Event): seq<Alert> {
    Pushed(Pushed(Pushed(s.alerts, StartAlert(e.workerId in s.workers, e)), SeqAlert(Get(s.lastSeq, e.workerId), e)),
           PayloadAlert(e))
  }

  // ----- counters

  /** +1, -1 or 0: how the review queue grows when a worker moves between two states. */
  function QueueDelta(before: WorkerState, after: WorkerState, status: Option<ReviewStatus>): int {
    if before.Terminal() == after.Terminal() || !AwaitsReview(status) then 0
    else if after.Terminal() then 1 else -1
  }

  function ActiveDelta(before: WorkerState, after: WorkerState): int {
    if before.Terminal() == after.Terminal() then 0 else if after.Terminal() then -1 else 1
  }

  function NextState(w: Worker, e: Event): WorkerState {
    if e.payload.StateChange? then e.payload.next else w.state
  }

  function Spend(e: Event): real {
    if e.payload.Cost? then e.payload.usd else 0.0
  }

  // ----- dependency edges

  /** The label of the edge into `w` from the owner of `task`. */
  function EdgeLabel(s: Ops, w: Worker, task: Id): EdgeState {
    if task in s.tasks && s.tasks[task].completedAt.GetOr(0) != 0 then DoneEdge
    else if w.state == Blocked then BlockedEdge
    else PendingEdge
  }

  /** The edge, if any, that waiting on `task` draws into worker `w`. */
  function EdgeFor(s: Ops, w: Worker, task: Id): seq<Edge> {
    if task !in s.taskOwner || s.taskOwner[task] == "" || s.taskOwner[task] == w.id then []
    else [Edge(s.taskOwner[task], w.id, EdgeLabel(s, w, task))]
  }

  function EdgesInto(s: Ops, w: Worker, waitingOn: seq<Id>): seq<Edge> {
    if waitingOn == [] then []
    else EdgesInto(s, w, waitingOn[..|waitingOn| - 1]) + EdgeFor(s, w, waitingOn[|waitingOn| - 1])
  }

  function WorkerEdges(s: Ops, id: Id): seq<Edge> {
    if id in s.workers && s.workers[id].blockedOn.Some?
    then EdgesInto(s, s.workers[id], s.workers[id].blockedOn.value)
    else []
  }

  function EdgesOf(s: Ops, order: seq<Id>): seq<Edge> {
    if order == [] then []
    else EdgesOf(s, order[..|order| - 1]) + WorkerEdges(s, order[|order| - 1])
  }

  /** Dependency edges recomputed from scratch. */
  function DependencyEdges(s: Ops): seq<Edge> {
    EdgesOf(s, s.workerOrder)
  }

  // ----- the whole state

  /** Everything an event does except redrawing the edges. */
  function Absorb(s: Ops, e: Event): Ops {
    var w := Emitter(s, e);
    var known := e.workerId in s.workers;
    var after := NextState(w, e);
    s.(workers := s.workers[e.workerId := NextWorker(w, e)],
       workerOrder := if known then s.workerOrder else s.workerOrder + [e.workerId],
       tasks := NextTasks(s.tasks, e),
       taskOwner := NextOwners(s.taskOwner, e),
       workerEvents := s.workerEvents[e.workerId :=
         Last(Get(s.workerEvents, e.workerId).GetOr([]) + [e], MAX_EVENTS_PER_WORKER)],
       alerts := NextAlerts(s, e),
       totalEvents := s.totalEvents + 1,
       totalSpendUsd := s.totalSpendUsd + Spend(e),
       activeCount := s.activeCount + (if known then 0 else 1) + ActiveDelta(w.state, after),
       needsInputCount := s.needsInputCount + QueueDelta(w.state, after, Get(s.reviewStatus, e.workerId)),
       lastSeq := s.lastSeq[e.workerId := Max(Get(s.lastSeq, e.workerId).GetOr(-1), e.seqNo)])
  }

  /** The state after the worker is known and its sequence number and event count are up to date. */
  function Entered(s: Ops, e: Event): Ops {
    var known := e.workerId in s.workers;
    s.(workers := s.workers[e.workerId := Counted(Emitter(s, e))],
       workerOrder := if known then s.workerOrder else s.workerOrder + [e.workerId],
       alerts := Pushed(Pushed(s.alerts, StartAlert(known, e)), SeqAlert(Get(s.lastSeq, e.workerId), e)),
       totalEvents := s.totalEvents + 1,
       activeCount := s.activeCount + (if known then 0 else 1),
       lastSeq := s.lastSeq[e.workerId := Max(Get(s.lastSeq, e.workerId).GetOr(-1), e.seqNo)])
  }

  function Logged(s: Ops, e: Event): Ops {
    s.(workerEvents := s.workerEvents[e.workerId :=
         Last(Get(s.workerEvents, e.workerId).GetOr([]) + [e], MAX_EVENTS_PER_WORKER)])
  }

  /** The state after the event is attributed to its task and its payload is taken in. */
  function Attributed(s: Ops, e: Event): Ops
    requires e.workerId in s.workers
  {
    var w := s.workers[e.workerId];
    s.(workers := s.workers[e.workerId := NotePayload(PointedAt(w, e), e)],
       tasks := NextTasks(s.tasks, e),
       taskOwner := NextOwners(s.taskOwner, e),
       alerts := Pushed(s.alerts, PayloadAlert(e)),
       totalSpendUsd := s.totalSpendUsd + Spend(e),
       activeCount := s.activeCount + ActiveDelta(w.state, NextState(w, e)),
       needsInputCount := s.needsInputCount + QueueDelta(w.state, NextState(w, e), Get(s.reviewStatus, e.workerId)))
  }

  /** The reducer's three stages, taken in order, do what `Absorb` says of each part. */
  lemma StagesAbsorb(s: Ops, e: Event)
    ensures Attributed(Logged(Entered(s, e), e), e) == Absorb(s, e)
  {
  }

  function Apply(s: Ops, e: Event): Ops {
    var s' := Absorb(s, e);
    s'.(edges := DependencyEdges(s'))
  }

  /** The state after a whole sequence of events. */
  function Fold(s: Ops, events: seq<Event>): Ops {
    if events == [] then s
    else Apply(Fold(s, events[..|events| - 1]), events[|events| - 1])
  }

  lemma FoldSnoc(s: Ops, events: seq<Event>, e: Event)
    ensures Fold(s, events + [e]) == Apply(Fold(s, events), e)
  {
  }

  lemma FoldSlice(s: Ops, events: seq<Event>, from: nat, n: nat)
    requires from <= n < |events|
    ensures Fold(s, events[from..n + 1]) == Apply(Fold(s, events[from..n]), events[n])
  {
    hide Apply;
    assert events[from..n + 1] == events[from..n] + [events[n]];
    FoldSnoc(s, events[from..n], events[n]);
  }

  /** Applying two pages one after the other is applying their concatenation. */
  lemma {:induction false} FoldConcat(s: Ops, first: seq<Event>, second: seq<Event>)
    ensures Fold(s, first + second) == Fold(Fold(s, first), second)
    decreases |second|
  {
    hide Apply;
    if second == [] {
      assert first + second == first;
    } else {
      var butLast := second[..|second| - 1];
      var last := second[|second| - 1];
      assert first + second == (first + butLast) + [last];
      FoldConcat(s, first, butLast);
      FoldSnoc(s, first + butLast, last);
    }
  }

  /** A shown state moved to another position: forward by the events between, back from scratch. */
  function Project(shown: Ops, events: seq<Event>, current: int, target: int): Ops
    requires 0 <= current <= |events| && 0 <= target <= |events|
  {
    if target >= current then Fold(shown, events[current..target]) else Fold(EMPTY, events[..target])
  }

  /** A shown state after one more page: forward if it showed all that was held, else from scratch. */
  function Extend(shown: Ops, held: seq<Event>, position: int, page: seq<Event>): Ops {
    if position == |held| then Fold(shown, page) else Fold(EMPTY, held + page)
  }
}
