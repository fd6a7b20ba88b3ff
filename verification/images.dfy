/**
 * The store's object graph as a value: state objects hold the addresses of worker, task and
 * log objects, which successive snapshots share. `OpsState` makes the same moves in place.
 */
module Images {
  import opened OpsTypes
  import R = Reducer

  type Address = nat
  type Refs = map<Id, Address>

  /** Every worker, task and log object there is. Addresses from `next` on are unused. */
  datatype Objects = Objects(
    workers: map<Address, Worker>,
    tasks: map<Address, Task>,
    logs: map<Address, seq<Event>>,
    next: Address)
  {
    ghost predicate Valid() {
      && (forall at :: at in workers ==> at < next)
      && (forall at :: at in tasks ==> at < next)
      && (forall at :: at in logs ==> at < next)
    }
  }

  /** The properties of one state object. */
  datatype State = State(
    workers: Refs,
    workerOrder: seq<Id>,
    tasks: Refs,
    taskOwner: map<Id, Id>,
    logs: Refs,
    alerts: seq<Alert>,
    totalEvents: nat,
    totalSpendUsd: real,
    activeCount: int,
    needsInputCount: int,
    edges: seq<Edge>,
    lastSeq: map<Id, int>,
    org: SquadTables,
    reviewStatus: map<Id, ReviewStatus>,
    ui: Ui)

  datatype Image = Image(st: State, mem: Objects) {
    /** The objects an event is going to read are there. */
    predicate Linked(e: Event) {
      && (e.workerId in st.workers ==> st.workers[e.workerId] in mem.workers)
      && (e.workerId in st.logs ==> st.logs[e.workerId] in mem.logs)
      && (e.Tasked() && e.taskId.value in st.tasks ==> st.tasks[e.taskId.value] in mem.tasks)
    }

    predicate Known(e: Event) {
      e.workerId in st.workers && st.workers[e.workerId] in mem.workers
    }

    function Emitter(e: Event): Worker
      requires Known(e)
    {
      mem.workers[st.workers[e.workerId]]
    }

    function WriteWorker(e: Event, w: Worker): Image
      requires Known(e)
    {
      this.(mem := mem.(workers := mem.workers[st.workers[e.workerId] := w]))
    }

    function PushAlert(alert: Option<Alert>): Image {
      this.(st := st.(alerts := R.Pushed(st.alerts, alert)))
    }

    function EnsureWorker(e: Event): (i: Image)
      ensures i.st.tasks == st.tasks && i.mem.tasks == mem.tasks && i.st.logs == st.logs && i.mem.logs == mem.logs
      ensures i.st.edges == st.edges
    {
      if e.workerId in st.workers then this
      else
        Image(st.(workers := st.workers[e.workerId := mem.next],
                  workerOrder := st.workerOrder + [e.workerId],
                  activeCount := st.activeCount + 1),
              mem.(workers := mem.workers[mem.next := FreshWorker(e.workerId, e.ts)], next := mem.next + 1))
        .PushAlert(R.StartAlert(false, e))
    }

    function TrackSeq(e: Event): (i: Image)
      ensures i.mem == mem && i.st.workers == st.workers && i.st.tasks == st.tasks && i.st.logs == st.logs
      ensures i.st.edges == st.edges
    {
      var last := Get(st.lastSeq, e.workerId);
      this.(st := st.(lastSeq := st.lastSeq[e.workerId := R.Max(last.GetOr(-1), e.seqNo)]))
          .PushAlert(R.SeqAlert(last, e))
    }

    function CountEvent(e: Event): (i: Image)
      requires Known(e)
      ensures i.st.workers == st.workers && i.st.tasks == st.tasks && i.mem.tasks == mem.tasks
      ensures i.st.logs == st.logs && i.mem.logs == mem.logs && i.st.edges == st.edges && i.Known(e)
    {
      WriteWorker(e, R.Counted(Emitter(e))).(st := st.(totalEvents := st.totalEvents + 1))
    }

    function LogEvent(e: Event): (i: Image)
      requires e.workerId in st.logs ==> st.logs[e.workerId] in mem.logs
      ensures i.st.workers == st.workers && i.mem.workers == mem.workers
      ensures i.st.tasks == st.tasks && i.mem.tasks == mem.tasks && i.st.edges == st.edges
    {
      if e.workerId in st.logs then
        var at := st.logs[e.workerId];
        this.(mem := mem.(logs := mem.logs[at := Last(mem.logs[at] + [e], MAX_EVENTS_PER_WORKER)]))
      else
        Image(st.(logs := st.logs[e.workerId := mem.next]),
              mem.(logs := mem.logs[mem.next := Last([] + [e], MAX_EVENTS_PER_WORKER)], next := mem.next + 1))
    }

    function TouchTask(e: Event): Image
      requires Known(e) && e.Tasked() && (e.taskId.value in st.tasks ==> st.tasks[e.taskId.value] in mem.tasks)
    {
      var id := e.taskId.value;
      var pointed := WriteWorker(e, Emitter(e).(currentTaskId := e.taskId))
                     .(st := st.(taskOwner := st.taskOwner[id := e.workerId]));
      if id in st.tasks then
        pointed.(mem := pointed.mem.(tasks :=
          mem.tasks[st.tasks[id] := mem.tasks[st.tasks[id]].(workerId := e.workerId)]))
      else
        Image(pointed.st.(tasks := st.tasks[id := mem.next]),
              pointed.mem.(tasks := mem.tasks[mem.next := Task(id, e.workerId, None, None)], next := mem.next + 1))
    }

    function Enter(e: Event): (i: Image)
      requires Linked(e)
      ensures i.Known(e) && i.st.tasks == st.tasks && i.mem.tasks == mem.tasks && i.st.edges == st.edges
    {
      EnsureWorker(e).TrackSeq(e).CountEvent(e).LogEvent(e)
    }

    predicate TaskKnown(e: Event) {
      e.Tasked() ==> e.taskId.value in st.tasks && st.tasks[e.taskId.value] in mem.tasks
    }

    /** The switch over payloads. */
    function ApplyPayload(e: Event): Image
      requires Known(e) && TaskKnown(e)
    {
      var w := Emitter(e);
      Image(st.(activeCount := st.activeCount + R.ActiveDelta(w.state, R.NextState(w, e)),
                needsInputCount := st.needsInputCount
                  + R.QueueDelta(w.state, R.NextState(w, e), Get(st.reviewStatus, e.workerId)),
                totalSpendUsd := st.totalSpendUsd + R.Spend(e),
                alerts := R.Pushed(st.alerts, R.PayloadAlert(e))),
            mem.(workers := mem.workers[st.workers[e.workerId] := R.NotePayload(w, e)],
                 tasks := if e.Tasked() then
                            var at := st.tasks[e.taskId.value];
                            mem.tasks[at := R.Stamped(mem.tasks[at], e)]
                          else mem.tasks))
    }

    /** Everything an event does except redrawing the edges. */
    function Absorb(e: Event): Image
      requires Linked(e)
    {
      var entered := Enter(e);
      (if e.Tasked() then entered.TouchTask(e) else entered).ApplyPayload(e)
    }

    function Redraw(drawn: seq<Edge>): Image {
      this.(st := st.(edges := drawn))
    }

    /** A copy of an entry object replaces the one under its key. */
    function DetachWorker(key: Id): Image {
      if key in st.workers && st.workers[key] in mem.workers then
        Image(st.(workers := st.workers[key := mem.next]),
              mem.(workers := mem.workers[mem.next := mem.workers[st.workers[key]]], next := mem.next + 1))
      else this
    }

    function DetachLog(key: Id): Image {
      if key in st.logs && st.logs[key] in mem.logs then
        Image(st.(logs := st.logs[key := mem.next]),
              mem.(logs := mem.logs[mem.next := mem.logs[st.logs[key]]], next := mem.next + 1))
      else this
    }

    function DetachTask(key: Id): Image {
      if key in st.tasks && st.tasks[key] in mem.tasks then
        Image(st.(tasks := st.tasks[key := mem.next]),
              mem.(tasks := mem.tasks[mem.next := mem.tasks[st.tasks[key]]], next := mem.next + 1))
      else this
    }

    /** The three copies taken before an event is applied to a shared state. */
    function Detach(e: Event): Image {
      var apart := DetachWorker(e.workerId).DetachLog(e.workerId);
      if e.Tasked() then apart.DetachTask(e.taskId.value) else apart
    }
  }

  // ----- what an image represents

  /** Reading the objects that `refs` names gives `view`, and no two keys name one object. */
  ghost predicate Denotes<T>(refs: Refs, objects: map<Address, T>, view: map<Id, T>) {
    && refs.Keys == view.Keys
    && (forall k :: k in refs ==> refs[k] in objects && objects[refs[k]] == view[k])
    && (forall j, k :: j in refs && k in refs && refs[j] == refs[k] ==> j == k)
  }

  ghost predicate PlainPart(st: State, s: Ops) {
    && st.workerOrder == s.workerOrder && st.taskOwner == s.taskOwner && st.alerts == s.alerts
    && st.totalEvents == s.totalEvents && st.totalSpendUsd == s.totalSpendUsd
    && st.activeCount == s.activeCount && st.needsInputCount == s.needsInputCount
    && st.lastSeq == s.lastSeq && st.org == s.org && st.reviewStatus == s.reviewStatus && st.ui == s.ui
  }

  /** The image, read through its addresses, is the plain state `s`, edges aside. */
  ghost predicate ReadsButEdges(i: Image, s: Ops) {
    && i.mem.Valid()
    && Denotes(i.st.workers, i.mem.workers, s.workers)
    && Denotes(i.st.tasks, i.mem.tasks, s.tasks)
    && Denotes(i.st.logs, i.mem.logs, s.workerEvents)
    && PlainPart(i.st, s)
  }

  ghost predicate Reads(i: Image, s: Ops) {
    ReadsButEdges(i, s) && i.st.edges == s.edges
  }

  /** Writing through one key changes that entry of the view and no other. */
  lemma WriteDenotes<T>(refs: Refs, objects: map<Address, T>, view: map<Id, T>, key: Id, fields: T)
    requires Denotes(refs, objects, view) && key in refs
    ensures Denotes(refs, objects[refs[key] := fields], view[key := fields])
  {
  }

  /** So does storing a new object under the key. */
  lemma NewDenotes<T>(refs: Refs, objects: map<Address, T>, view: map<Id, T>, key: Id, at: Address, fields: T)
    requires Denotes(refs, objects, view) && at !in objects
    ensures Denotes(refs[key := at], objects[at := fields], view[key := fields])
  {
  }

  lemma EnterWorkers(i: Image, s: Ops, e: Event)
    requires ReadsButEdges(i, s)
    ensures i.Linked(e)
    ensures Denotes(i.Enter(e).st.workers, i.Enter(e).mem.workers, s.workers[e.workerId := R.Counted(R.Emitter(s, e))])
  {
    var w := R.Emitter(s, e);
    if e.workerId in s.workers {
      WriteDenotes(i.st.workers, i.mem.workers, s.workers, e.workerId, R.Counted(w));
    } else {
      NewDenotes(i.st.workers, i.mem.workers, s.workers, e.workerId, i.mem.next, w);
      var ensured := i.EnsureWorker(e);
      WriteDenotes(ensured.st.workers, ensured.mem.workers, s.workers[e.workerId := w], e.workerId, R.Counted(w));
      assert s.workers[e.workerId := w][e.workerId := R.Counted(w)] == s.workers[e.workerId := R.Counted(w)];
    }
  }

  lemma EnterLogs(i: Image, s: Ops, e: Event)
    requires ReadsButEdges(i, s)
    ensures i.Linked(e)
    ensures Denotes(i.Enter(e).st.logs, i.Enter(e).mem.logs, R.Logged(s, e).workerEvents)
  {
    var events := Last(Get(s.workerEvents, e.workerId).GetOr([]) + [e], MAX_EVENTS_PER_WORKER);
    var counted := i.EnsureWorker(e).TrackSeq(e).CountEvent(e);
    if e.workerId in s.workerEvents {
      WriteDenotes(i.st.logs, i.mem.logs, s.workerEvents, e.workerId, events);
    } else {
      NewDenotes(i.st.logs, i.mem.logs, s.workerEvents, e.workerId, counted.mem.next, events);
    }
  }

  lemma CountedPlain(i: Image, s: Ops, e: Event)
    requires PlainPart(i.st, s) && i.Linked(e) && (e.workerId in i.st.workers <==> e.workerId in s.workers)
    ensures PlainPart(i.EnsureWorker(e).TrackSeq(e).CountEvent(e).st, R.Entered(s, e))
  {
    hide R.SeqAlert, FreshWorker;
    var ensured := i.EnsureWorker(e);
    var known := e.workerId in s.workers;
    assert ensured.st.alerts == R.Pushed(s.alerts, R.StartAlert(known, e));
    hide R.Pushed, R.StartAlert;
  }

  lemma EnterPlain(i: Image, s: Ops, e: Event)
    requires PlainPart(i.st, s) && i.Linked(e) && (e.workerId in i.st.workers <==> e.workerId in s.workers)
    ensures PlainPart(i.Enter(e).st, R.Logged(R.Entered(s, e), e))
  {
    CountedPlain(i, s, e);
    var counted := i.EnsureWorker(e).TrackSeq(e).CountEvent(e);
    assert PlainPart(counted.LogEvent(e).st, R.Logged(R.Entered(s, e), e));
  }

  lemma EnsureValid(i: Image, e: Event)
    requires i.mem.Valid()
    ensures i.EnsureWorker(e).mem.Valid() && i.mem.next <= i.EnsureWorker(e).mem.next
  {
  }

  lemma LogValid(i: Image, e: Event)
    requires i.mem.Valid() && (e.workerId in i.st.logs ==> i.st.logs[e.workerId] in i.mem.logs)
    ensures i.LogEvent(e).mem.Valid() && i.mem.next <= i.LogEvent(e).mem.next
  {
  }

  lemma EnterValid(i: Image, e: Event)
    requires i.mem.Valid() && i.Linked(e)
    ensures i.Enter(e).mem.Valid() && i.mem.next <= i.Enter(e).mem.next
  {
    EnsureValid(i, e);
    var tracked := i.EnsureWorker(e).TrackSeq(e);
    var counted := tracked.CountEvent(e);
    assert counted.mem.workers.Keys == tracked.mem.workers.Keys;
    assert counted.mem.Valid();
    LogValid(counted, e);
  }

  lemma EnterReads(i: Image, s: Ops, e: Event)
    requires ReadsButEdges(i, s)
    ensures i.Linked(e) && ReadsButEdges(i.Enter(e), R.Logged(R.Entered(s, e), e))
    ensures i.Enter(e).st.edges == i.st.edges
  {
    EnterWorkers(i, s, e);
    EnterLogs(i, s, e);
    EnterPlain(i, s, e);
    EnterValid(i, e);
  }

  lemma AttributeTasks(i: Image, s: Ops, e: Event)
    requires ReadsButEdges(i, s) && e.Tasked() && e.workerId in s.workers
    ensures i.TouchTask(e).Known(e) && i.TouchTask(e).TaskKnown(e)
    ensures var after := i.TouchTask(e).ApplyPayload(e);
            Denotes(after.st.tasks, after.mem.tasks, R.NextTasks(s.tasks, e))
  {
    var id := e.taskId.value;
    var given := R.Assigned(Get(s.tasks, id), e);
    var touched := i.TouchTask(e);
    assert Denotes(touched.st.tasks, touched.mem.tasks, s.tasks[id := given]) by {
      if id in s.tasks {
        WriteDenotes(i.st.tasks, i.mem.tasks, s.tasks, id, given);
      } else {
        NewDenotes(i.st.tasks, i.mem.tasks, s.tasks, id, i.mem.next, given);
      }
    }
    WriteDenotes(touched.st.tasks, touched.mem.tasks, s.tasks[id := given], id, R.Stamped(given, e));
    assert s.tasks[id := given][id := R.Stamped(given, e)] == R.NextTasks(s.tasks, e);
    assert !e.payload.StateChange? ==> R.Stamped(given, e) == given;
  }

  /** The image after the task attribution and the switch over payloads. */
  ghost function Attributed(i: Image, e: Event): Image
    requires i.Known(e) && i.Linked(e)
  {
    (if e.Tasked() then i.TouchTask(e) else i).ApplyPayload(e)
  }

  lemma TouchWorkers(i: Image, view: map<Id, Worker>, e: Event)
    requires Denotes(i.st.workers, i.mem.workers, view) && e.workerId in view && e.Tasked() && i.Linked(e)
    ensures i.Known(e)
    ensures var touched := i.TouchTask(e);
            && Denotes(touched.st.workers, touched.mem.workers, view[e.workerId := R.PointedAt(view[e.workerId], e)])
            && touched.TaskKnown(e)
  {
  }

  lemma PayloadWorkers(i: Image, view: map<Id, Worker>, e: Event)
    requires Denotes(i.st.workers, i.mem.workers, view) && e.workerId in view && i.TaskKnown(e)
    ensures i.Known(e)
    ensures var after := i.ApplyPayload(e);
            Denotes(after.st.workers, after.mem.workers, view[e.workerId := R.NotePayload(view[e.workerId], e)])
  {
  }

  lemma TouchThenPayloadWorkers(i: Image, view: map<Id, Worker>, e: Event)
    requires Denotes(i.st.workers, i.mem.workers, view) && e.workerId in view && e.Tasked() && i.Linked(e)
    ensures i.Known(e) && i.TouchTask(e).Known(e) && i.TouchTask(e).TaskKnown(e)
    ensures var after := i.TouchTask(e).ApplyPayload(e);
            Denotes(after.st.workers, after.mem.workers,
                    view[e.workerId := R.NotePayload(R.PointedAt(view[e.workerId], e), e)])
  {
    hide Denotes, R.NotePayload, R.PointedAt;
    TouchWorkers(i, view, e);
    var pointed := view[e.workerId := R.PointedAt(view[e.workerId], e)];
    PayloadWorkers(i.TouchTask(e), pointed, e);
    assert pointed[e.workerId := R.NotePayload(pointed[e.workerId], e)]
        == view[e.workerId := R.NotePayload(R.PointedAt(view[e.workerId], e), e)];
  }

  lemma AttributePlain(i: Image, s: Ops, e: Event)
    requires PlainPart(i.st, s) && i.Known(e) && i.Linked(e)
    requires e.workerId in s.workers && i.Emitter(e) == s.workers[e.workerId]
    ensures PlainPart(Attributed(i, e).st, R.Attributed(s, e))
    ensures Attributed(i, e).st.edges == i.st.edges && Attributed(i, e).st.logs == i.st.logs
  {
  }

  lemma AttributeValid(i: Image, e: Event)
    requires i.mem.Valid() && i.Known(e) && i.Linked(e)
    ensures Attributed(i, e).mem.Valid() && Attributed(i, e).mem.logs == i.mem.logs
    ensures i.mem.next <= Attributed(i, e).mem.next
  {
  }

  lemma AttributeReads(i: Image, s: Ops, e: Event)
    requires ReadsButEdges(i, s) && e.workerId in s.workers
    ensures i.Known(e) && ReadsButEdges(Attributed(i, e), R.Attributed(s, e))
    ensures Attributed(i, e).st.edges == i.st.edges
  {
    AttributePlain(i, s, e);
    AttributeValid(i, e);
    if e.Tasked() {
      TouchThenPayloadWorkers(i, s.workers, e);
      AttributeTasks(i, s, e);
    } else {
      PayloadWorkers(i, s.workers, e);
    }
  }

  /** The reducer's moves on the object graph do to the plain state what `Reducer.Absorb` says. */
  lemma AbsorbReads(i: Image, s: Ops, e: Event)
    requires ReadsButEdges(i, s)
    ensures i.Linked(e) && ReadsButEdges(i.Absorb(e), R.Absorb(s, e))
    ensures i.Absorb(e).st.edges == i.st.edges
  {
    EnterReads(i, s, e);
    AttributeReads(i.Enter(e), R.Logged(R.Entered(s, e), e), e);
    R.StagesAbsorb(s, e);
  }

  /** Redrawing the edges from scratch then completes the event. */
  lemma ApplyReads(i: Image, s: Ops, e: Event)
    requires Reads(i, s)
    ensures i.Linked(e) && Reads(i.Absorb(e).Redraw(R.Apply(s, e).edges), R.Apply(s, e))
  {
    AbsorbReads(i, s, e);
  }

  // ----- which objects are written

  /** Objects that existed before still hold what they held. */
  ghost predicate Kept<T>(before: map<Address, T>, after: map<Address, T>) {
    forall at :: at in before ==> at in after && after[at] == before[at]
  }

  ghost predicate AllKept(before: Objects, after: Objects) {
    && Kept(before.workers, after.workers) && Kept(before.tasks, after.tasks) && Kept(before.logs, after.logs)
    && before.next <= after.next
  }

  /** The same, except for the object under `key`. */
  ghost predicate KeptBut<T>(before: map<Address, T>, after: map<Address, T>, refs: Refs, key: Id) {
    forall at :: at in before && !(key in refs && refs[key] == at) ==> at in after && after[at] == before[at]
  }

  lemma EnterKeeps(i: Image, e: Event)
    requires i.mem.Valid() && i.Linked(e)
    ensures KeptBut(i.mem.workers, i.Enter(e).mem.workers, i.st.workers, e.workerId)
    ensures KeptBut(i.mem.logs, i.Enter(e).mem.logs, i.st.logs, e.workerId)
    ensures e.workerId in i.st.workers ==> i.Enter(e).st.workers == i.st.workers
    ensures e.workerId !in i.st.workers ==> i.Enter(e).st.workers[e.workerId] == i.mem.next
  {
  }

  lemma AbsorbKeepsTasks(i: Image, e: Event)
    requires i.Linked(e)
    ensures !e.Tasked() ==> i.Absorb(e).mem.tasks == i.mem.tasks
  {
  }

  lemma AttributeKeeps(i: Image, e: Event)
    requires i.mem.Valid() && i.Known(e) && i.Linked(e)
    ensures KeptBut(i.mem.workers, Attributed(i, e).mem.workers, i.st.workers, e.workerId)
    ensures KeptBut(i.mem.tasks, Attributed(i, e).mem.tasks, i.st.tasks, e.taskId.GetOr(""))
  {
  }

  /** An event writes to no object but its worker's, its worker's log, and its task's. */
  lemma AbsorbKeeps(i: Image, e: Event)
    requires i.mem.Valid() && i.Linked(e)
    ensures KeptBut(i.mem.workers, i.Absorb(e).mem.workers, i.st.workers, e.workerId)
    ensures KeptBut(i.mem.logs, i.Absorb(e).mem.logs, i.st.logs, e.workerId)
    ensures KeptBut(i.mem.tasks, i.Absorb(e).mem.tasks, i.st.tasks, e.taskId.GetOr(""))
    ensures i.mem.next <= i.Absorb(e).mem.next
  {
    EnterValid(i, e);
    EnterKeeps(i, e);
    var entered := i.Enter(e);
    assert entered.Linked(e);
    assert i.Absorb(e) == Attributed(entered, e);
    AttributeKeeps(entered, e);
    AttributeValid(entered, e);
  }

  /** A state whose dictionaries are read elsewhere still reads the same after other objects change. */
  lemma KeptReads(before: Image, after: Image, s: Ops)
    requires Reads(before, s) && before.st == after.st && after.mem.Valid() && AllKept(before.mem, after.mem)
    ensures Reads(after, s)
  {
  }

  // ----- the plain state an image represents

  ghost predicate Coherent(i: Image) {
    exists s :: Reads(i, s)
  }

  ghost function Contents(i: Image): Ops
    requires Coherent(i)
  {
    var s :| Reads(i, s); s
  }

  /** An image represents at most one plain state. */
  lemma ContentsOf(i: Image, s: Ops)
    requires Reads(i, s)
    ensures Coherent(i) && Contents(i) == s
  {
  }

  // ----- copy-on-write

  lemma DetachWorkerContents(i: Image, key: Id)
    requires Coherent(i)
    ensures Coherent(i.DetachWorker(key)) && Contents(i.DetachWorker(key)) == Contents(i)
  {
    var s := Contents(i);
    if key in s.workers {
      NewDenotes(i.st.workers, i.mem.workers, s.workers, key, i.mem.next, s.workers[key]);
      assert s.workers[key := s.workers[key]] == s.workers;
    }
    ContentsOf(i.DetachWorker(key), s);
  }

  lemma DetachLogContents(i: Image, key: Id)
    requires Coherent(i)
    ensures Coherent(i.DetachLog(key)) && Contents(i.DetachLog(key)) == Contents(i)
  {
    var s := Contents(i);
    if key in s.workerEvents {
      NewDenotes(i.st.logs, i.mem.logs, s.workerEvents, key, i.mem.next, s.workerEvents[key]);
      assert s.workerEvents[key := s.workerEvents[key]] == s.workerEvents;
    }
    ContentsOf(i.DetachLog(key), s);
  }

  lemma DetachTaskContents(i: Image, key: Id)
    requires Coherent(i)
    ensures Coherent(i.DetachTask(key)) && Contents(i.DetachTask(key)) == Contents(i)
  {
    var s := Contents(i);
    if key in s.tasks {
      NewDenotes(i.st.tasks, i.mem.tasks, s.tasks, key, i.mem.next, s.tasks[key]);
      assert s.tasks[key := s.tasks[key]] == s.tasks;
    }
    ContentsOf(i.DetachTask(key), s);
  }

  lemma CoherentValid(i: Image)
    requires Coherent(i)
    ensures i.mem.Valid()
  {
  }

  lemma CoherentLinks(i: Image, e: Event)
    requires Coherent(i)
    ensures i.mem.Valid() && i.Linked(e)
  {
  }

  lemma DetachContents(i: Image, e: Event)
    requires Coherent(i)
    ensures i.Linked(e) && Coherent(i.Detach(e)) && Contents(i.Detach(e)) == Contents(i)
  {
    CoherentLinks(i, e);
    DetachWorkerContents(i, e.workerId);
    DetachLogContents(i.DetachWorker(e.workerId), e.workerId);
    if e.Tasked() {
      DetachTaskContents(i.DetachWorker(e.workerId).DetachLog(e.workerId), e.taskId.value);
    }
  }

  /** The three objects that `e` is about to write to are none of those in `before`. */
  ghost predicate Apart(before: Objects, st: State, e: Event) {
    && (e.workerId in st.workers ==> st.workers[e.workerId] >= before.next)
    && (e.workerId in st.logs ==> st.logs[e.workerId] >= before.next)
    && (e.Tasked() && e.taskId.value in st.tasks ==> st.tasks[e.taskId.value] >= before.next)
  }

  /** Detaching changes no existing object and leaves fresh ones to write to. */
  lemma DetachKeeps(i: Image, e: Event)
    requires i.mem.Valid() && i.Linked(e)
    ensures AllKept(i.mem, i.Detach(e).mem) && Apart(i.mem, i.Detach(e).st, e)
  {
  }

  lemma KeptThroughFresh<T>(before: map<Address, T>, between: map<Address, T>, after: map<Address, T>,
                            refs: Refs, key: Id, next: Address)
    requires Kept(before, between) && KeptBut(between, after, refs, key)
    requires (forall at :: at in before ==> at < next) && (key in refs ==> refs[key] >= next)
    ensures Kept(before, after)
  {
  }

  /** So applying an event to the detached state changes no object that existed before. */
  lemma DetachedAbsorbKeeps(i: Image, e: Event)
    requires i.mem.Valid() && i.Linked(e) && i.Detach(e).mem.Valid() && i.Detach(e).Linked(e)
    ensures AllKept(i.mem, i.Detach(e).Absorb(e).mem)
  {
    DetachKeeps(i, e);
    var apart := i.Detach(e);
    AbsorbKeeps(apart, e);
    var after := apart.Absorb(e);
    KeptThroughFresh(i.mem.workers, apart.mem.workers, after.mem.workers, apart.st.workers, e.workerId, i.mem.next);
    KeptThroughFresh(i.mem.logs, apart.mem.logs, after.mem.logs, apart.st.logs, e.workerId, i.mem.next);
    AbsorbKeepsTasks(apart, e);
    if e.Tasked() {
      KeptThroughFresh(i.mem.tasks, apart.mem.tasks, after.mem.tasks, apart.st.tasks, e.taskId.value, i.mem.next);
    }
  }

  /** The image after an event applied in place. */
  ghost function Applied(i: Image, e: Event): Image
    requires Coherent(i)
  {
    AbsorbReads(i, Contents(i), e);
    i.Absorb(e).Redraw(R.Apply(Contents(i), e).edges)
  }

  lemma AppliedContents(i: Image, e: Event)
    requires Coherent(i)
    ensures Coherent(Applied(i, e)) && Contents(Applied(i, e)) == R.Apply(Contents(i), e)
  {
    ApplyReads(i, Contents(i), e);
    ContentsOf(Applied(i, e), R.Apply(Contents(i), e));
  }

  /** Applying an event to a detached copy changes no object, so the shared state reads as it did. */
  lemma CopyOnWrite(i: Image, e: Event)
    requires Coherent(i)
    ensures Coherent(i.Detach(e)) && AllKept(i.mem, Applied(i.Detach(e), e).mem)
    ensures Coherent(Image(i.st, Applied(i.Detach(e), e).mem))
    ensures Contents(Image(i.st, Applied(i.Detach(e), e).mem)) == Contents(i)
  {
    DetachContents(i, e);
    CoherentLinks(i, e);
    CoherentLinks(i.Detach(e), e);
    DetachedAbsorbKeeps(i, e);
    var shared := Image(i.st, Applied(i.Detach(e), e).mem);
    AppliedContents(i.Detach(e), e);
    KeptReads(i, shared, Contents(i));
    ContentsOf(shared, Contents(i));
  }

  /** Every entry object of this state was allocated at `floor` or later. */
  ghost predicate OwnedFrom(st: State, floor: Address) {
    && (forall k :: k in st.workers ==> st.workers[k] >= floor)
    && (forall k :: k in st.tasks ==> st.tasks[k] >= floor)
    && (forall k :: k in st.logs ==> st.logs[k] >= floor)
  }

  lemma EnsureOwned(i: Image, e: Event, floor: Address)
    requires OwnedFrom(i.st, floor) && floor <= i.mem.next
    ensures OwnedFrom(i.EnsureWorker(e).st, floor) && floor <= i.EnsureWorker(e).mem.next
  {
  }

  lemma LogOwned(i: Image, e: Event, floor: Address)
    requires OwnedFrom(i.st, floor) && floor <= i.mem.next
    requires e.workerId in i.st.logs ==> i.st.logs[e.workerId] in i.mem.logs
    ensures OwnedFrom(i.LogEvent(e).st, floor) && floor <= i.LogEvent(e).mem.next
  {
  }

  lemma EnterOwned(i: Image, e: Event, floor: Address)
    requires i.Linked(e) && OwnedFrom(i.st, floor) && floor <= i.mem.next
    ensures OwnedFrom(i.Enter(e).st, floor) && floor <= i.Enter(e).mem.next
  {
    EnsureOwned(i, e, floor);
    LogOwned(i.EnsureWorker(e).TrackSeq(e).CountEvent(e), e, floor);
  }

  lemma AttributeOwned(i: Image, e: Event, floor: Address)
    requires i.Known(e) && i.Linked(e) && OwnedFrom(i.st, floor) && floor <= i.mem.next
    ensures OwnedFrom(Attributed(i, e).st, floor)
  {
  }

  /** A state that owns all its entry objects still does after an event, and changed no one else's. */
  lemma AbsorbOwned(i: Image, e: Event, before: Objects)
    requires i.mem.Valid() && before.Valid() && i.Linked(e)
    requires OwnedFrom(i.st, before.next) && AllKept(before, i.mem)
    ensures OwnedFrom(i.Absorb(e).st, before.next) && AllKept(before, i.Absorb(e).mem)
  {
    EnterOwned(i, e, before.next);
    var entered := i.Enter(e);
    assert entered.Linked(e) && i.Absorb(e) == Attributed(entered, e);
    AttributeOwned(entered, e, before.next);
    AbsorbKeeps(i, e);
    var after := i.Absorb(e);
    KeptThroughFresh(before.workers, i.mem.workers, after.mem.workers, i.st.workers, e.workerId, before.next);
    KeptThroughFresh(before.logs, i.mem.logs, after.mem.logs, i.st.logs, e.workerId, before.next);
    KeptThroughFresh(before.tasks, i.mem.tasks, after.mem.tasks, i.st.tasks, e.taskId.GetOr(""), before.next);
  }

  /** The state points only to objects newer than `before`, and every object of `before` is as it was. */
  ghost predicate Private(i: Image, before: Objects) {
    exists floor: Address :: OwnedFrom(i.st, floor) && floor >= before.next && before.Valid() && AllKept(before, i.mem)
  }

  lemma PrivateIs(i: Image, before: Objects)
    requires Private(i, before)
    ensures before.Valid() && OwnedFrom(i.st, before.next) && AllKept(before, i.mem)
  {
  }

  lemma AppliedPrivate(i: Image, e: Event, before: Objects)
    requires Coherent(i) && Private(i, before)
    ensures Private(Applied(i, e), before)
  {
    PrivateIs(i, before);
    CoherentLinks(i, e);
    AbsorbOwned(i, e, before);
    assert OwnedFrom(Applied(i, e).st, before.next);
  }

  /** A state that another one was kept apart from reads the same as before. */
  lemma UntouchedContents(i: Image, other: Image)
    requires Coherent(i) && Coherent(other) && Private(other, i.mem)
    ensures Coherent(Image(i.st, other.mem)) && Contents(Image(i.st, other.mem)) == Contents(i)
    ensures AllKept(i.mem, other.mem)
  {
    assert Reads(other, Contents(other));
    KeptReads(i, Image(i.st, other.mem), Contents(i));
    ContentsOf(Image(i.st, other.mem), Contents(i));
  }

  // ----- deep copies

  /** `copies` names new objects, one for each key, that hold what the old ones hold. */
  ghost predicate Copied<T>(refs: Refs, objects: map<Address, T>, copies: Refs, after: map<Address, T>,
      floor: Address) {
    && copies.Keys == refs.Keys && Kept(objects, after)
    && (forall k :: k in refs ==> refs[k] in objects && copies[k] in after && after[copies[k]] == objects[refs[k]])
    && (forall k :: k in copies ==> copies[k] >= floor)
    && (forall j, k :: j in copies && k in copies && copies[j] == copies[k] ==> j == k)
  }

  lemma CopiedDenotes<T>(refs: Refs, objects: map<Address, T>, copies: Refs, after: map<Address, T>, floor: Address,
                         view: map<Id, T>)
    requires Copied(refs, objects, copies, after, floor) && Denotes(refs, objects, view)
    ensures Denotes(copies, after, view)
  {
  }

  /** `copy` shares no worker, task or log object with `i`, and reads the same. */
  ghost predicate DeepCopy(i: Image, copy: Image) {
    && copy.mem.Valid()
    && copy.st.(workers := map[], tasks := map[], logs := map[])
       == i.st.(workers := map[], tasks := map[], logs := map[])
    && Copied(i.st.workers, i.mem.workers, copy.st.workers, copy.mem.workers, i.mem.next)
    && Copied(i.st.tasks, i.mem.tasks, copy.st.tasks, copy.mem.tasks, i.mem.next)
    && Copied(i.st.logs, i.mem.logs, copy.st.logs, copy.mem.logs, i.mem.next)
    && i.mem.next <= copy.mem.next
  }

  lemma PlainPartOf(one: State, other: State, s: Ops)
    requires one.(workers := map[], tasks := map[], logs := map[])
          == other.(workers := map[], tasks := map[], logs := map[])
    requires PlainPart(other, s)
    ensures PlainPart(one, s) && one.edges == other.edges
  {
  }

  lemma DeepCopyContents(i: Image, copy: Image)
    requires Coherent(i) && DeepCopy(i, copy)
    ensures Coherent(copy) && Contents(copy) == Contents(i)
    ensures Private(copy, i.mem)
  {
    var s := Contents(i);
    assert i.mem.Valid() && OwnedFrom(copy.st, i.mem.next);
    CopiedDenotes(i.st.workers, i.mem.workers, copy.st.workers, copy.mem.workers, i.mem.next, s.workers);
    CopiedDenotes(i.st.tasks, i.mem.tasks, copy.st.tasks, copy.mem.tasks, i.mem.next, s.tasks);
    CopiedDenotes(i.st.logs, i.mem.logs, copy.st.logs, copy.mem.logs, i.mem.next, s.workerEvents);
    PlainPartOf(copy.st, i.st, s);
    assert Reads(copy, s);
    ContentsOf(copy, s);
  }
}
