/** The operations-room state object and the in-place event reducer. */
module OpsHeap {
  import opened OpsTypes
  import opened Images
  import R = Reducer

  /** Every worker, task and log object there is. Addresses are never reused. */
  class Memory {
    var objects: Objects

    constructor ()
      ensures objects == Objects(map[], map[], map[], 0)
    {
      objects := Objects(map[], map[], map[], 0);
    }

    method WriteWorker(at: Address, w: Worker)
      modifies this
      ensures objects == old(objects).(workers := old(objects).workers[at := w])
    {
      objects := objects.(workers := objects.workers[at := w]);
    }

    method NewWorker(w: Worker) returns (at: Address)
      modifies this
      ensures at == old(objects).next
      ensures objects == old(objects).(workers := old(objects).workers[at := w], next := at + 1)
    {
      at := objects.next;
      objects := objects.(workers := objects.workers[at := w], next := at + 1);
    }

    method WriteTask(at: Address, t: Task)
      modifies this
      ensures objects == old(objects).(tasks := old(objects).tasks[at := t])
    {
      objects := objects.(tasks := objects.tasks[at := t]);
    }

    method NewTask(t: Task) returns (at: Address)
      modifies this
      ensures at == old(objects).next
      ensures objects == old(objects).(tasks := old(objects).tasks[at := t], next := at + 1)
    {
      at := objects.next;
      objects := objects.(tasks := objects.tasks[at := t], next := at + 1);
    }

    method WriteLog(at: Address, events: seq<Event>)
      modifies this
      ensures objects == old(objects).(logs := old(objects).logs[at := events])
    {
      objects := objects.(logs := objects.logs[at := events]);
    }

    method NewLog(events: seq<Event>) returns (at: Address)
      modifies this
      ensures at == old(objects).next
      ensures objects == old(objects).(logs := old(objects).logs[at := events], next := at + 1)
    {
      at := objects.next;
      objects := objects.(logs := objects.logs[at := events], next := at + 1);
    }
  }

  /** Copies every object that `refs` names, under new addresses. */
  method CopyEntries<T>(refs: Refs, objects: map<Address, T>, next: Address)
    returns (copies: Refs, after: map<Address, T>, free: Address)
    requires forall k :: k in refs ==> refs[k] in objects
    requires forall at :: at in objects ==> at < next
    ensures Copied(refs, objects, copies, after, next)
    ensures next <= free && forall at :: at in after ==> at < free
  {
    copies, after, free := map[], objects, next;
    var keys := refs.Keys;
    while keys != {}
      invariant keys <= refs.Keys && copies.Keys == refs.Keys - keys
      invariant Kept(objects, after) && next <= free && forall at :: at in after ==> at < free
      invariant forall k :: k in copies ==> copies[k] in after && after[copies[k]] == objects[refs[k]]
      invariant forall k :: k in copies ==> next <= copies[k]
      invariant forall j, k :: j in copies && k in copies && copies[j] == copies[k] ==> j == k
      decreases keys
    {
      var key :| key in keys;
      keys := keys - {key};
      copies, after, free := copies[key := free], after[free := objects[refs[key]]], free + 1;
    }
  }

  /** The drawn dependency edges. The canvas compares this object by identity. */
  class EdgeList {
    const items: seq<Edge>

    constructor (items: seq<Edge>)
      ensures this.items == items
    {
      this.items := items;
    }
  }

  class OpsState {
    const mem: Memory
    var workers: Refs
    var workerOrder: seq<Id>
    var tasks: Refs
    var taskOwner: map<Id, Id>
    var workerEvents: Refs
    var alerts: seq<Alert>
    var totalEvents: nat
    var totalSpendUsd: real
    var activeCount: int
    var needsInputCount: int
    var edges: EdgeList
    var lastSeq: map<Id, int>
    var org: SquadTables
    var reviewStatus: map<Id, ReviewStatus>
    var ui: Ui

    ghost function Look(): Image
      reads this, mem
    {
      Image(State(workers, workerOrder, tasks, taskOwner, workerEvents, alerts, totalEvents, totalSpendUsd,
                  activeCount, needsInputCount, edges.items, lastSeq, org, reviewStatus, ui),
            mem.objects)
    }

    ghost predicate Valid()
      reads this, mem
    {
      Coherent(Look())
    }

    /** The plain state that this object and the entry objects it points to represent. */
    ghost function Contents(): Ops
      reads this, mem
      requires Valid()
    {
      Images.Contents(Look())
    }

    constructor Empty(mem: Memory)
      requires mem.objects.Valid()
      ensures this.mem == mem && Valid() && Contents() == EMPTY && Private(Look(), mem.objects)
    {
      this.mem := mem;
      workers, workerOrder, tasks, taskOwner, workerEvents := map[], [], map[], map[], map[];
      alerts, totalEvents, totalSpendUsd, activeCount, needsInputCount := [], 0, 0.0, 0, 0;
      edges := new EdgeList([]);
      lastSeq, org, reviewStatus, ui := map[], SquadTables(map[], [], map[]), map[], Ui(None, None);
      new;
      ContentsOf(Look(), EMPTY);
      assert OwnedFrom(Look().st, mem.objects.next);
    }

    /** A second state object over the same entry objects. */
    constructor ShallowCopy(prev: OpsState)
      ensures mem == prev.mem && Look() == prev.Look() && edges == prev.edges
    {
      mem, workers, workerOrder := prev.mem, prev.workers, prev.workerOrder;
      tasks, taskOwner := prev.tasks, prev.taskOwner;
      workerEvents, alerts, totalEvents := prev.workerEvents, prev.alerts, prev.totalEvents;
      totalSpendUsd, activeCount, needsInputCount := prev.totalSpendUsd, prev.activeCount, prev.needsInputCount;
      edges, lastSeq, org := prev.edges, prev.lastSeq, prev.org;
      reviewStatus, ui := prev.reviewStatus, prev.ui;
    }

    method PushAlert(alert: Alert)
      modifies this`alerts
      ensures Look() == old(Look()).PushAlert(Some(alert))
    {
      alerts := First([alert] + alerts, MAX_ALERTS);
    }

    method EnsureWorker(e: Event)
      modifies this`workers, this`workerOrder, this`activeCount, this`alerts, mem
      ensures Look() == old(Look()).EnsureWorker(e)
    {
      if e.workerId !in workers {
        var at := mem.NewWorker(FreshWorker(e.workerId, e.ts));
        workers := workers[e.workerId := at];
        workerOrder := workerOrder + [e.workerId];
        activeCount := activeCount + 1;
        PushAlert(Alert(StartedAlert, e.workerId, e.seqNo, NoDetail, e.ts));
      }
    }

    method TrackSeq(e: Event)
      modifies this`alerts, this`lastSeq
      ensures Look() == old(Look()).TrackSeq(e)
    {
      var last := Get(lastSeq, e.workerId);
      if last.Some? {
        if e.seqNo <= last.value {
          PushAlert(Alert(SeqGapAlert, e.workerId, e.seqNo, Regression(e.seqNo, last.value), e.ts));
        } else if e.seqNo > last.value + 1 {
          PushAlert(Alert(SeqGapAlert, e.workerId, e.seqNo, Gap(e.seqNo - last.value - 1, last.value, e.seqNo), e.ts));
        }
      }
      lastSeq := lastSeq[e.workerId := R.Max(last.GetOr(-1), e.seqNo)];
    }

    method CountEvent(e: Event)
      requires Look().Known(e)
      modifies this`totalEvents, mem
      ensures Look() == old(Look()).CountEvent(e)
    {
      var worker := workers[e.workerId];
      mem.WriteWorker(worker, R.Counted(mem.objects.workers[worker]));
      totalEvents := totalEvents + 1;
    }

    /** Appends, then drops from the front while over the cap. */
    static method PushBounded(events: seq<Event>, e: Event) returns (bucket: seq<Event>)
      ensures bucket == Last(events + [e], MAX_EVENTS_PER_WORKER)
    {
      bucket := events + [e];
      ghost var all := bucket;
      while |bucket| > MAX_EVENTS_PER_WORKER
        invariant |bucket| <= |all| && bucket == all[|all| - |bucket|..]
        invariant |bucket| < |all| ==> |bucket| >= MAX_EVENTS_PER_WORKER
      {
        bucket := bucket[1..];
      }
    }

    method LogEvent(e: Event)
      requires e.workerId in workerEvents ==> workerEvents[e.workerId] in mem.objects.logs
      modifies this`workerEvents, mem
      ensures Look() == old(Look()).LogEvent(e)
    {
      if e.workerId !in workerEvents {
        var bucket := PushBounded([], e);
        var at := mem.NewLog(bucket);
        workerEvents := workerEvents[e.workerId := at];
      } else {
        var bucket := PushBounded(mem.objects.logs[workerEvents[e.workerId]], e);
        mem.WriteLog(workerEvents[e.workerId], bucket);
      }
    }

    method TouchTask(e: Event)
      requires Look().Known(e) && e.Tasked()
      requires e.taskId.value in tasks ==> tasks[e.taskId.value] in mem.objects.tasks
      modifies this`tasks, this`taskOwner, mem
      ensures Look() == old(Look()).TouchTask(e)
    {
      var id := e.taskId.value;
      var worker := workers[e.workerId];
      mem.WriteWorker(worker, mem.objects.workers[worker].(currentTaskId := e.taskId));
      taskOwner := taskOwner[id := e.workerId];
      if id !in tasks {
        var at := mem.NewTask(Task(id, e.workerId, None, None));
        tasks := tasks[id := at];
      } else {
        mem.WriteTask(tasks[id], mem.objects.tasks[tasks[id]].(workerId := e.workerId));
      }
    }

    method Enter(e: Event)
      requires Look().Linked(e)
      modifies this`workers, this`workerOrder, this`activeCount, this`alerts, this`lastSeq, this`totalEvents,
               this`workerEvents, mem
      ensures Look() == old(Look()).Enter(e)
    {
      EnsureWorker(e);
      TrackSeq(e);
      CountEvent(e);
      LogEvent(e);
    }

    /** Keeps the two counters in step with a worker that crosses the terminal boundary. */
    method CountTransition(e: Event, before: WorkerState)
      requires e.payload.StateChange?
      modifies this`activeCount, this`needsInputCount
      ensures activeCount == old(activeCount) + R.ActiveDelta(before, e.payload.next)
      ensures needsInputCount == old(needsInputCount)
                + R.QueueDelta(before, e.payload.next, Get(reviewStatus, e.workerId))
    {
      var status := Get(reviewStatus, e.workerId);
      if !before.Terminal() && e.payload.next.Terminal() {
        activeCount := activeCount - 1;
        if AwaitsReview(status) {
          needsInputCount := needsInputCount + 1;
        }
      } else if before.Terminal() && !e.payload.next.Terminal() {
        activeCount := activeCount + 1;
        if AwaitsReview(status) {
          needsInputCount := needsInputCount - 1;
        }
      }
    }

    /** Writes a payload into the emitting worker's object. */
    method NoteWorker(e: Event, worker: Address)
      requires worker in mem.objects.workers
      modifies mem
      ensures mem.objects == old(mem.objects).(workers :=
                old(mem.objects).workers[worker := R.NotePayload(old(mem.objects).workers[worker], e)])
    {
      var w := mem.objects.workers[worker];
      match e.payload {
        case StateChange(next, _, note) =>
          w := w.(state := next);
          if Truthy(note) {
            w := w.(progress := w.progress.(note := note));
          }
          if next == Done {
            w := w.(flashUntil := e.ts + FLASH_MS);
          }
        case Log(line) => w := w.(recentLog := Some(line));
        case Progress(percent, eta, note) =>
          w := w.(progress := w.progress.(percent := Some(percent), eta := eta));
          if Truthy(note) {
            w := w.(progress := w.progress.(note := note));
          }
        case FileActivity(op, added, removed) =>
          if op == Created {
            w := w.(files := w.files.(added := w.files.added + 1));
          } else if op == Modified {
            w := w.(files := w.files.(modified := w.files.modified + 1));
          } else if op == Deleted {
            w := w.(files := w.files.(deleted := w.files.deleted + 1));
          }
          w := w.(files := w.files.(linesAdded := w.files.linesAdded + added.GetOr(0),
                                    linesRemoved := w.files.linesRemoved + removed.GetOr(0)));
        case TestResult(suite, passed, failed, skipped) =>
          w := w.(tests := TestTotals(passed, failed, skipped, Some(suite)));
        case Cost(usd, input, output, model) =>
          w := w.(spend := SpendTotals(w.spend.usd + usd, w.spend.input + input, w.spend.output + output));
          if Truthy(model) {
            w := w.(model := model);
          }
        case Dependency(waitingOn) => w := w.(blockedOn := Some(waitingOn));
        case Completion(summary) => w := w.(completionSummary := Some(summary));
        case Failure(error) => w := w.(failureSummary := Some(error));
        case Unrecognized =>
      }
      mem.WriteWorker(worker, w);
    }

    method StampTask(e: Event, task: Address)
      requires e.payload.StateChange? && task in mem.objects.tasks
      modifies mem
      ensures mem.objects == old(mem.objects).(tasks :=
                old(mem.objects).tasks[task := R.Stamped(old(mem.objects).tasks[task], e)])
    {
      var t := mem.objects.tasks[task].(state := Some(e.payload.next));
      if e.payload.next == Done {
        t := t.(completedAt := Some(e.ts));
      }
      mem.WriteTask(task, t);
    }

    /** The reducer's switch over the kinds of payload. */
    method ApplyPayload(e: Event)
      requires Look().Known(e) && Look().TaskKnown(e)
      modifies this`activeCount, this`needsInputCount, this`alerts, this`totalSpendUsd, mem
      ensures Look() == old(Look()).ApplyPayload(e)
    {
      var worker := workers[e.workerId];
      if e.payload.StateChange? {
        CountTransition(e, mem.objects.workers[worker].state);
      } else if e.payload.Cost? {
        totalSpendUsd := totalSpendUsd + e.payload.usd;
      }
      NoteWorker(e, worker);
      if e.payload.StateChange? && e.Tasked() {
        StampTask(e, tasks[e.taskId.value]);
      }
      var alert := R.PayloadAlert(e);
      if alert.Some? {
        PushAlert(alert.value);
      }
    }

    /** Everything an event does except redrawing the edges. */
    method Absorb(e: Event)
      requires Look().Linked(e)
      modifies this, mem
      ensures Look() == old(Look()).Absorb(e) && edges == old(edges)
    {
      Enter(e);
      if e.Tasked() {
        TouchTask(e);
      }
      ApplyPayload(e);
    }

    /** The edges that one blocked worker's list draws, appended to those found so far. */
    method CollectEdges(w: Worker, waitingOn: seq<Id>, found: seq<Edge>, ghost s: Ops) returns (all: seq<Edge>)
      requires Denotes(tasks, mem.objects.tasks, s.tasks) && taskOwner == s.taskOwner
      ensures all == found + R.EdgesInto(s, w, waitingOn)
    {
      all := found;
      for n := 0 to |waitingOn|
        invariant all == found + R.EdgesInto(s, w, waitingOn[..n])
      {
        var task := waitingOn[n];
        if task in taskOwner && taskOwner[task] != "" && taskOwner[task] != w.id {
          var edgeState := if w.state == Blocked then BlockedEdge else PendingEdge;
          if task in tasks && mem.objects.tasks[tasks[task]].completedAt.GetOr(0) != 0 {
            edgeState := DoneEdge;
          }
          all := all + [Edge(taskOwner[task], w.id, edgeState)];
        }
        assert waitingOn[..n + 1][..n] == waitingOn[..n];
      }
      assert waitingOn[..|waitingOn|] == waitingOn;
    }

    method ComputeDependencyEdges(ghost s: Ops) returns (found: seq<Edge>)
      requires Denotes(workers, mem.objects.workers, s.workers) && Denotes(tasks, mem.objects.tasks, s.tasks)
      requires taskOwner == s.taskOwner && workerOrder == s.workerOrder
      ensures found == R.DependencyEdges(s)
    {
      found := [];
      for n := 0 to |workerOrder|
        invariant found == R.EdgesOf(s, workerOrder[..n])
      {
        var id := workerOrder[n];
        if id in workers {
          var w := mem.objects.workers[workers[id]];
          if w.blockedOn.Some? {
            found := CollectEdges(w, w.blockedOn.value, found, s);
          }
        }
        assert workerOrder[..n + 1][..n] == workerOrder[..n];
      }
      assert workerOrder[..|workerOrder|] == workerOrder;
    }

    static method EdgesEqual(a: seq<Edge>, b: seq<Edge>) returns (same: bool)
      ensures same <==> a == b
    {
      if |a| != |b| {
        return false;
      }
      for n := 0 to |a|
        invariant a[..n] == b[..n]
      {
        if a[n] != b[n] {
          return false;
        }
      }
      assert a == a[..|a|] && b == b[..|b|];
      return true;
    }

    /** Replaces the edge list object, but only when its content is no longer what a full redraw gives. */
    method RefreshEdges(ghost s: Ops)
      requires ReadsButEdges(Look(), s)
      modifies this`edges
      ensures Look() == old(Look()).Redraw(R.DependencyEdges(s))
      ensures edges == old(edges) <==> R.DependencyEdges(s) == old(edges.items)
    {
      var recomputed := ComputeDependencyEdges(s);
      var same := EdgesEqual(edges.items, recomputed);
      if !same {
        edges := new EdgeList(recomputed);
      }
    }

    /** Applies one event in place. */
    method ApplyEvent(e: Event)
      requires Valid()
      modifies this, mem
      ensures Look() == Applied(old(Look()), e)
      ensures Valid() && Contents() == R.Apply(old(Contents()), e)
      ensures edges == old(edges) <==> Contents().edges == old(Contents()).edges
    {
      ghost var before := Look();
      AbsorbReads(before, Contents(), e);
      AppliedContents(before, e);
      Absorb(e);
      RefreshEdges(R.Absorb(Images.Contents(before), e));
    }

    /** Copies the entry objects that an event is about to write to. */
    method DetachEntries(e: Event)
      requires Look().Linked(e)
      modifies this`workers, this`workerEvents, this`tasks, mem
      ensures Look() == old(Look()).Detach(e)
    {
      if e.workerId in workers {
        var copy := mem.NewWorker(mem.objects.workers[workers[e.workerId]]);
        workers := workers[e.workerId := copy];
      }
      if e.workerId in workerEvents {
        var copy := mem.NewLog(mem.objects.logs[workerEvents[e.workerId]]);
        workerEvents := workerEvents[e.workerId := copy];
      }
      if e.Tasked() && e.taskId.value in tasks {
        var copy := mem.NewTask(mem.objects.tasks[tasks[e.taskId.value]]);
        tasks := tasks[e.taskId.value := copy];
      }
    }

    method ApplyDetached(e: Event)
      requires Valid()
      modifies this, mem
      ensures Coherent(old(Look()).Detach(e)) && Look() == Applied(old(Look()).Detach(e), e)
      ensures Valid() && Contents() == R.Apply(old(Contents()), e)
      ensures edges == old(edges) <==> Contents().edges == old(Contents()).edges
    {
      DetachContents(Look(), e);
      DetachEntries(e);
      ApplyEvent(e);
    }

    /**
     * The copy-on-write step behind every live event: `prev` keeps all its properties, since only the
     * memory may be written, and no object that existed before changes.
     */
    static method ApplyToOpsState(prev: OpsState, e: Event) returns (next: OpsState)
      requires prev.Valid()
      modifies prev.mem
      ensures fresh(next) && next.mem == prev.mem
      ensures next.Valid() && next.Contents() == R.Apply(old(prev.Contents()), e)
      ensures AllKept(old(prev.mem.objects), prev.mem.objects)
      ensures prev.Valid() && prev.Contents() == old(prev.Contents())
      ensures next.edges == prev.edges <==> next.Contents().edges == prev.Contents().edges
    {
      hide R.Apply, Images.Contents, Coherent;
      ghost var shared := prev.Look();
      CopyOnWrite(shared, e);
      next := new OpsState.ShallowCopy(prev);
      next.ApplyDetached(e);
      assert prev.Look() == Image(shared.st, next.Look().mem);
    }

    /** A deep copy, which owns every object it points to, its edge list included. */
    constructor Clone(prev: OpsState)
      requires prev.Valid()
      modifies prev.mem
      ensures mem == prev.mem && edges != prev.edges
      ensures DeepCopy(old(prev.Look()), Look())
    {
      ghost var original := prev.Look();
      assert Reads(original, Images.Contents(original));
      var objects := prev.mem.objects;
      var workerCopies, workersAfter, next := CopyEntries(prev.workers, objects.workers, objects.next);
      var taskCopies, tasksAfter, next' := CopyEntries(prev.tasks, objects.tasks, next);
      var logCopies, logsAfter, next'' := CopyEntries(prev.workerEvents, objects.logs, next');
      prev.mem.objects := Objects(workersAfter, tasksAfter, logsAfter, next'');
      mem, workers, tasks, workerEvents := prev.mem, workerCopies, taskCopies, logCopies;
      workerOrder, taskOwner, alerts, totalEvents := prev.workerOrder, prev.taskOwner, prev.alerts, prev.totalEvents;
      totalSpendUsd, activeCount, needsInputCount := prev.totalSpendUsd, prev.activeCount, prev.needsInputCount;
      edges := new EdgeList(prev.edges.items);
      lastSeq, org, reviewStatus, ui := prev.lastSeq, prev.org, prev.reviewStatus, prev.ui;
      new;
    }

    /** An event applied to a state that shares no object with `before` leaves it that way. */
    method ApplyPrivately(e: Event, ghost before: Objects)
      requires Valid() && Private(Look(), before)
      modifies this, mem
      ensures Valid() && Contents() == R.Apply(old(Contents()), e)
      ensures Private(Look(), before)
    {
      AppliedPrivate(Look(), e, before);
      ApplyEvent(e);
    }

    /** The loop that projects part of a recorded session, in place. */
    method ApplyRange(events: seq<Event>, from: nat, end: nat, ghost before: Objects)
      requires Valid() && Private(Look(), before) && from <= end <= |events|
      modifies this, mem
      ensures Valid() && Private(Look(), before) && Contents() == R.Fold(old(Contents()), events[from..end])
    {
      hide R.Apply, Images.Contents, Coherent, Private;
      ghost var start := Contents();
      assert events[from..from] == [];
      for n := from to end
        invariant Valid() && Private(Look(), before) && Contents() == R.Fold(start, events[from..n])
      {
        R.FoldSlice(start, events, from, n);
        ApplyPrivately(events[n], before);
      }
    }

    /** The state at position `target` of a session, from `prev`, which shows position `current`. */
    static method ProjectReplay(prev: OpsState, events: seq<Event>, current: nat, target: nat) returns (next: OpsState)
      requires prev.Valid() && current <= |events| && target <= |events|
      modifies prev.mem
      ensures fresh(next) && next.mem == prev.mem && next.Valid()
      ensures next.Contents() == R.Project(old(prev.Contents()), events, current, target)
      ensures AllKept(old(prev.mem.objects), prev.mem.objects)
      ensures prev.Valid() && prev.Contents() == old(prev.Contents())
    {
      hide R.Apply, Images.Contents, Coherent, Private;
      ghost var shared := prev.Look();
      if target >= current {
        next := new OpsState.Clone(prev);
        DeepCopyContents(shared, next.Look());
        next.ApplyRange(events, current, target, shared.mem);
      } else {
        CoherentValid(shared);
        next := new OpsState.Empty(prev.mem);
        next.ApplyRange(events, 0, target, shared.mem);
        assert events[0..target] == events[..target];
      }
      UntouchedContents(shared, next.Look());
      assert prev.Look() == Image(shared.st, next.Look().mem);
    }

    /** The state after a page of events arrives behind those already held. */
    static method AppendPage(prev: OpsState, held: seq<Event>, position: nat, page: seq<Event>) returns (next: OpsState)
      requires prev.Valid() && position <= |held|
      modifies prev.mem
      ensures fresh(next) && next.mem == prev.mem && next.Valid()
      ensures next.Contents() == R.Extend(old(prev.Contents()), held, position, page)
      ensures AllKept(old(prev.mem.objects), prev.mem.objects)
      ensures prev.Valid() && prev.Contents() == old(prev.Contents())
    {
      hide R.Apply, Images.Contents, Coherent, Private;
      ghost var shared := prev.Look();
      var all := held + page;
      if position == |held| {
        next := new OpsState.Clone(prev);
        DeepCopyContents(shared, next.Look());
        next.ApplyRange(page, 0, |page|, shared.mem);
        assert page[0..|page|] == page;
      } else {
        CoherentValid(shared);
        next := new OpsState.Empty(prev.mem);
        next.ApplyRange(all, 0, |all|, shared.mem);
        assert all[0..|all|] == all;
      }
      UntouchedContents(shared, next.Look());
      assert prev.Look() == Image(shared.st, next.Look().mem);
    }
  }
}
