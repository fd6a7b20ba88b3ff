/**
 * What the operations-room state says about the history of events that produced it. Every view the
 * reducer maintains step by step is given here by a definition over the whole unbounded history.
 */
module History {
  import opened OpsTypes
  import R = Reducer

  function ButLast<T>(s: seq<T>): seq<T>
    requires s != []
  {
    s[..|s| - 1]
  }

  function Final<T>(s: seq<T>): T
    requires s != []
  {
    s[|s| - 1]
  }

  /** The state that a history of events leads to. */
  function After(h: seq<Event>): Ops {
    R.Fold(EMPTY, h)
  }

  /** The events of one worker, in order. */
  function Of(h: seq<Event>, w: Id): seq<Event> {
    if h == [] then []
    else Of(ButLast(h), w) + (if Final(h).workerId == w then [Final(h)] else [])
  }

  /** The events that name a task, in order. */
  function Naming(h: seq<Event>, task: Id): seq<Event> {
    if h == [] then []
    else Naming(ButLast(h), task) + (if Final(h).Names(task) then [Final(h)] else [])
  }

  function Spent(h: seq<Event>): real {
    if h == [] then 0.0
    else Spent(ButLast(h)) + if Final(h).payload.Cost? then Final(h).payload.usd else 0.0
  }

  /** The latest thing of a kind that the events say, if any says one. */
  function Latest<T>(h: seq<Event>, said: Event -> Option<T>): Option<T> {
    if h == [] then None
    else if said(Final(h)).Some? then said(Final(h))
    else Latest(ButLast(h), said)
  }

  function Total(h: seq<Event>, amount: Event -> int): int {
    if h == [] then 0 else Total(ButLast(h), amount) + amount(Final(h))
  }

  function SaidState(e: Event): Option<WorkerState> {
    if e.payload.StateChange? then Some(e.payload.next) else None
  }

  function SaidDone(e: Event): Option<int> {
    if e.payload.StateChange? && e.payload.next == Done then Some(e.ts) else None
  }

  function SaidWait(e: Event): Option<seq<Id>> {
    if e.payload.Dependency? then Some(e.payload.waitingOn) else None
  }

  lemma SnocParts<T>(s: seq<T>, x: T)
    ensures s + [x] != [] && ButLast(s + [x]) == s && Final(s + [x]) == x
  {
  }

  /** A worker that emitted an event has events. */
  lemma {:induction false} Emits(h: seq<Event>, n: nat)
    requires n < |h|
    ensures h[n] in Of(h, h[n].workerId)
  {
    if n < |h| - 1 {
      Emits(ButLast(h), n);
    }
  }

  lemma {:induction false} OfSound(h: seq<Event>, w: Id, e: Event)
    requires e in Of(h, w)
    ensures e in h && e.workerId == w
  {
    if e in Of(ButLast(h), w) {
      OfSound(ButLast(h), w, e);
    }
  }

  // ----- workers

  /** A worker's record, folded over its own events alone. */
  function RecordOf(own: seq<Event>): Worker
    requires own != []
  {
    R.NextWorker(if |own| == 1 then FreshWorker(own[0].workerId, own[0].ts) else RecordOf(ButLast(own)), Final(own))
  }

  lemma NextWorkers(s: Ops, e: Event, w: Id)
    ensures Get(R.Apply(s, e).workers, w)
         == if w == e.workerId then Some(R.NextWorker(R.Emitter(s, e), e)) else Get(s.workers, w)
  {
  }

  lemma RecordSnoc(own: seq<Event>, e: Event)
    ensures RecordOf(own + [e])
         == R.NextWorker(if own == [] then FreshWorker(e.workerId, e.ts) else RecordOf(own), e)
  {
    hide R.NextWorker;
    SnocParts(own, e);
  }

  /** Other workers' events leave no mark on a worker's record. */
  lemma {:induction false} Isolation(h: seq<Event>, w: Id)
    ensures Get(After(h).workers, w) == if Of(h, w) == [] then None else Some(RecordOf(Of(h, w)))
  {
    hide R.Apply, R.NextWorker, RecordOf;
    if h != [] {
      Isolation(ButLast(h), w);
      NextWorkers(After(ButLast(h)), Final(h), w);
      var own := Of(ButLast(h), w);
      if Final(h).workerId == w {
        RecordSnoc(own, Final(h));
        assert Of(h, w) == own + [Final(h)];
      } else {
        assert Of(h, w) == own;
      }
    }
  }

  lemma NextRecord(w: Worker, e: Event)
    ensures var next := R.NextWorker(w, e);
      && next.id == w.id && next.spawnedAt == w.spawnedAt && next.mission == w.mission
      && next.vendor == w.vendor && next.currentTaskTitle == w.currentTaskTitle
      && next.eventCount == w.eventCount + 1
      && next.spend.usd == w.spend.usd + R.Spend(e)
      && next.state == R.NextState(w, e)
      && next.blockedOn == if e.payload.Dependency? then Some(e.payload.waitingOn) else w.blockedOn
  {
  }

  /** A record counts, adds up and remembers exactly its events. */
  lemma {:induction false} RecordMeans(own: seq<Event>)
    requires own != []
    ensures RecordOf(own).id == own[0].workerId && RecordOf(own).spawnedAt == own[0].ts
    ensures RecordOf(own).eventCount == |own|
    ensures RecordOf(own).spend.usd == Spent(own)
    ensures RecordOf(own).state == Latest(own, SaidState).GetOr(Idle)
    ensures RecordOf(own).blockedOn == Latest(own, SaidWait)
    ensures RecordOf(own).vendor == "mock" && RecordOf(own).currentTaskTitle == None
    ensures RecordOf(own).mission == MissionTag(false, None, [])
  {
    hide R.NextWorker;
    if |own| == 1 {
      NextRecord(FreshWorker(own[0].workerId, own[0].ts), own[0]);
    } else {
      RecordMeans(ButLast(own));
      NextRecord(RecordOf(ButLast(own)), Final(own));
    }
  }

  function SaidLog(e: Event): Option<string> {
    if e.payload.Log? then Some(e.payload.line) else None
  }

  function SaidProgress(e: Event): Option<(int, Option<int>)> {
    if e.payload.Progress? then Some((e.payload.percent, e.payload.eta)) else None
  }

  /** Notes come with state changes and with progress; an empty one says nothing. */
  function SaidNote(e: Event): Option<string> {
    if e.payload.StateChange? && Truthy(e.payload.stateNote) then e.payload.stateNote
    else if e.payload.Progress? && Truthy(e.payload.note) then e.payload.note
    else None
  }

  function SaidTests(e: Event): Option<TestTotals> {
    if e.payload.TestResult? then
      Some(TestTotals(e.payload.passed, e.payload.failed, e.payload.skipped, Some(e.payload.suite)))
    else None
  }

  function SaidModel(e: Event): Option<string> {
    if e.payload.Cost? && Truthy(e.payload.costModel) then e.payload.costModel else None
  }

  function SaidTask(e: Event): Option<Id> {
    if e.Tasked() then e.taskId else None
  }

  function SaidCompletion(e: Event): Option<string> {
    if e.payload.Completion? then Some(e.payload.summary) else None
  }

  function SaidFailure(e: Event): Option<string> {
    if e.payload.Failure? then Some(e.payload.error) else None
  }

  function Touched(op: FileOp): Event -> int {
    (e: Event) => if e.payload.FileActivity? && e.payload.op == op then 1 else 0
  }

  function LinesAdded(e: Event): int {
    if e.payload.FileActivity? then e.payload.added.GetOr(0) else 0
  }

  function LinesRemoved(e: Event): int {
    if e.payload.FileActivity? then e.payload.removed.GetOr(0) else 0
  }

  function TokensIn(e: Event): int {
    if e.payload.Cost? then e.payload.input else 0
  }

  function TokensOut(e: Event): int {
    if e.payload.Cost? then e.payload.output else 0
  }

  lemma NextMemory(w: Worker, e: Event)
    ensures var next := R.NextWorker(w, e);
      && next.recentLog == OrElse(SaidLog(e), w.recentLog)
      && next.progress.note == OrElse(SaidNote(e), w.progress.note)
      && (next.progress.percent, next.progress.eta)
         == (if SaidProgress(e).Some? then (Some(SaidProgress(e).value.0), SaidProgress(e).value.1)
             else (w.progress.percent, w.progress.eta))
      && next.tests == SaidTests(e).GetOr(w.tests)
      && next.model == OrElse(SaidModel(e), w.model)
      && next.currentTaskId == OrElse(SaidTask(e), w.currentTaskId)
      && next.completionSummary == OrElse(SaidCompletion(e), w.completionSummary)
      && next.failureSummary == OrElse(SaidFailure(e), w.failureSummary)
      && next.flashUntil == (if SaidDone(e).Some? then SaidDone(e).value + FLASH_MS else w.flashUntil)
  {
  }

  lemma NextSums(w: Worker, e: Event)
    ensures var next := R.NextWorker(w, e);
      && next.files.added == w.files.added + Touched(Created)(e)
      && next.files.modified == w.files.modified + Touched(Modified)(e)
      && next.files.deleted == w.files.deleted + Touched(Deleted)(e)
      && next.files.linesAdded == w.files.linesAdded + LinesAdded(e)
      && next.files.linesRemoved == w.files.linesRemoved + LinesRemoved(e)
      && next.spend.input == w.spend.input + TokensIn(e)
      && next.spend.output == w.spend.output + TokensOut(e)
  {
  }

  /** A record keeps the latest of what its events say. */
  lemma {:induction false} RecordRemembers(own: seq<Event>)
    requires own != []
    ensures var w := RecordOf(own);
      && w.recentLog == Latest(own, SaidLog)
      && w.progress.note == Latest(own, SaidNote)
      && w.progress.percent
         == (if Latest(own, SaidProgress).Some? then Some(Latest(own, SaidProgress).value.0) else None)
      && w.progress.eta == (if Latest(own, SaidProgress).Some? then Latest(own, SaidProgress).value.1 else None)
      && w.tests == Latest(own, SaidTests).GetOr(TestTotals(0, 0, 0, None))
      && w.model == Latest(own, SaidModel)
      && w.currentTaskId == Latest(own, SaidTask)
      && w.completionSummary == Latest(own, SaidCompletion)
      && w.failureSummary == Latest(own, SaidFailure)
      && w.flashUntil == (if Latest(own, SaidDone).Some? then Latest(own, SaidDone).value + 1800 else 0)
  {
    hide R.NextWorker, SaidLog, SaidNote, SaidProgress, SaidTests, SaidModel, SaidTask, SaidCompletion,
        SaidFailure, SaidDone;
    if |own| == 1 {
      NextMemory(FreshWorker(own[0].workerId, own[0].ts), own[0]);
    } else {
      RecordRemembers(ButLast(own));
      NextMemory(RecordOf(ButLast(own)), Final(own));
    }
  }

  /** And adds up the rest. */
  lemma {:induction false} RecordAddsUp(own: seq<Event>)
    requires own != []
    ensures var w := RecordOf(own);
      && w.files == FileTotals(Total(own, Touched(Created)), Total(own, Touched(Modified)), Total(own,
          Touched(Deleted)),
                               Total(own, LinesAdded), Total(own, LinesRemoved))
      && w.spend == SpendTotals(Spent(own), Total(own, TokensIn), Total(own, TokensOut))
  {
    hide R.NextWorker, Touched, LinesAdded, LinesRemoved, TokensIn, TokensOut;
    RecordMeans(own);
    if |own| == 1 {
      NextSums(FreshWorker(own[0].workerId, own[0].ts), own[0]);
    } else {
      RecordAddsUp(ButLast(own));
      NextSums(RecordOf(ButLast(own)), Final(own));
    }
  }

  lemma LastOfLast<T>(s: seq<T>, x: T, n: nat)
    requires n > 0
    ensures Last(Last(s, n) + [x], n) == Last(s + [x], n)
  {
  }

  lemma NextBuckets(s: Ops, e: Event, w: Id)
    ensures Get(R.Apply(s, e).workerEvents, w)
         == if w == e.workerId then Some(Last(Get(s.workerEvents, w).GetOr([]) + [e], MAX_EVENTS_PER_WORKER))
            else Get(s.workerEvents, w)
  {
  }

  /** Each worker's bucket is the last 500 of its events. */
  lemma {:induction false} Bucket(h: seq<Event>, w: Id)
    ensures Get(After(h).workerEvents, w)
         == if Of(h, w) == [] then None else Some(Last(Of(h, w), 500))
  {
    hide R.Apply;
    if h != [] {
      Bucket(ButLast(h), w);
      NextBuckets(After(ButLast(h)), Final(h), w);
      var own := Of(ButLast(h), w);
      if Final(h).workerId == w {
        LastOfLast(own, Final(h), MAX_EVENTS_PER_WORKER);
        assert own == [] ==> Last(own, MAX_EVENTS_PER_WORKER) == [];
      } else {
        assert Of(h, w) == own;
      }
    }
  }

  ghost predicate IsHighest(own: seq<Event>, seqNo: int) {
    && (forall e :: e in own ==> e.seqNo <= seqNo)
    && (exists e :: e in own && e.seqNo == seqNo)
  }

  lemma NextSeqs(s: Ops, e: Event, w: Id)
    ensures Get(R.Apply(s, e).lastSeq, w)
         == if w == e.workerId then Some(R.Max(Get(s.lastSeq, w).GetOr(-1), e.seqNo)) else Get(s.lastSeq, w)
  {
  }

  function Highest(own: seq<Event>): Option<int> {
    if own == [] then None
    else
      var before := Highest(ButLast(own));
      if before.Some? && before.value > Final(own).seqNo then before else Some(Final(own).seqNo)
  }

  lemma {:induction false} HighestMeans(own: seq<Event>)
    requires own != []
    ensures Highest(own).Some? && IsHighest(own, Highest(own).value)
  {
    var before := ButLast(own);
    assert own == before + [Final(own)];
    if before != [] {
      HighestMeans(before);
    }
    assert Final(own) in own;
  }

  /** The tracked sequence number is the highest the worker has emitted. */
  lemma {:induction false} HighestSeq(h: seq<Event>, w: Id)
    ensures Get(After(h).lastSeq, w) == Highest(Of(h, w))
  {
    hide R.Apply;
    if h != [] {
      HighestSeq(ButLast(h), w);
      NextSeqs(After(ButLast(h)), Final(h), w);
      var own := Of(ButLast(h), w);
      if Final(h).workerId == w {
        SnocParts(own, Final(h));
        assert Of(h, w) == own + [Final(h)];
      } else {
        assert Of(h, w) == own;
      }
    }
  }

  predicate FirstAt(h: seq<Event>, w: Id, n: nat) {
    n < |h| && h[n].workerId == w && forall m :: 0 <= m < n ==> h[m].workerId != w
  }

  lemma NextOrder(s: Ops, e: Event)
    ensures R.Apply(s, e).workerOrder == if e.workerId in s.workers then s.workerOrder else s.workerOrder + [e.workerId]
    ensures R.Apply(s, e).workers.Keys == s.workers.Keys + {e.workerId}
  {
  }

  lemma AppearsLast(before: seq<Event>, e: Event)
    requires e.workerId !in After(before).workers
    ensures FirstAt(before + [e], e.workerId, |before|)
  {
    forall m | 0 <= m < |before| ensures before[m].workerId != e.workerId {
      Isolation(before, before[m].workerId);
      Emits(before, m);
    }
  }

  lemma StillFirst(before: seq<Event>, e: Event, w: Id, n: nat)
    requires FirstAt(before, w, n)
    ensures FirstAt(before + [e], w, n)
  {
  }

  /** The list of workers enumerates the table, each worker once. */
  lemma {:induction false} OrderEnumerates(h: seq<Event>)
    ensures forall w :: w in After(h).workers <==> w in After(h).workerOrder
    ensures NoDuplicates(After(h).workerOrder)
  {
    hide R.Apply;
    if h != [] {
      OrderEnumerates(ButLast(h));
      NextOrder(After(ButLast(h)), Final(h));
    }
  }

  /** Workers are listed once each, in the order of their first events. */
  lemma {:induction false} OrderOfAppearance(h: seq<Event>) returns (at: seq<nat>)
    ensures |at| == |After(h).workerOrder|
    ensures forall i :: 0 <= i < |at| ==> FirstAt(h, After(h).workerOrder[i], at[i])
    ensures forall i, j :: 0 <= i < j < |at| ==> at[i] < at[j]
    ensures forall w :: w in After(h).workers <==> w in After(h).workerOrder
    ensures NoDuplicates(After(h).workerOrder)
  {
    hide R.Apply, NoDuplicates;
    OrderEnumerates(h);
    if h == [] {
      at := [];
    } else {
      var before, e := ButLast(h), Final(h);
      at := OrderOfAppearance(before);
      NextOrder(After(before), e);
      assert h == before + [e] && forall i :: 0 <= i < |at| ==> at[i] < |before|;
      hide FirstAt;
      forall i | 0 <= i < |at| ensures FirstAt(h, After(before).workerOrder[i], at[i]) {
        StillFirst(before, e, After(before).workerOrder[i], at[i]);
      }
      if e.workerId !in After(before).workers {
        AppearsLast(before, e);
        at := at + [|before|];
      }
    }
  }

  // ----- totals

  lemma NextTotals(s: Ops, e: Event)
    ensures R.Apply(s, e).totalEvents == s.totalEvents + 1
    ensures R.Apply(s, e).totalSpendUsd == s.totalSpendUsd + R.Spend(e)
  {
  }

  lemma {:induction false} Totals(h: seq<Event>)
    ensures After(h).totalEvents == |h| && After(h).totalSpendUsd == Spent(h)
  {
    hide R.Apply;
    if h != [] {
      Totals(ButLast(h));
      NextTotals(After(ButLast(h)), Final(h));
    }
  }

  function SumCounts(workers: map<Id, Worker>, order: seq<Id>): nat {
    if order == [] then 0
    else SumCounts(workers, ButLast(order)) + (if Final(order) in workers then workers[Final(order)].eventCount else 0)
  }

  function SumCosts(workers: map<Id, Worker>, order: seq<Id>): real {
    if order == [] then 0.0
    else SumCosts(workers, ButLast(order)) + (if Final(order) in workers then workers[Final(order)].spend.usd else 0.0)
  }

  /** Adding to one worker's record adds as much to the sums, if that worker is listed once. */
  lemma {:induction false} SumsChange(workers: map<Id, Worker>, order: seq<Id>, id: Id, w: Worker)
    requires NoDuplicates(order)
    ensures SumCounts(workers[id := w], order)
         == SumCounts(workers, order)
            + (if id in order then w.eventCount - (if id in workers then workers[id].eventCount else 0) else 0)
    ensures SumCosts(workers[id := w], order)
         == SumCosts(workers, order)
            + (if id in order then w.spend.usd - (if id in workers then workers[id].spend.usd else 0.0) else 0.0)
  {
    if order != [] {
      var rest := ButLast(order);
      SumsChange(workers, rest, id, w);
      assert order == rest + [Final(order)];
      assert Final(order) !in rest;
    }
  }

  lemma {:induction false} SumsSnoc(workers: map<Id, Worker>, order: seq<Id>, id: Id)
    requires id in workers
    ensures SumCounts(workers, order + [id]) == SumCounts(workers, order) + workers[id].eventCount
    ensures SumCosts(workers, order + [id]) == SumCosts(workers, order) + workers[id].spend.usd
  {
  }

  lemma NextGrandTotals(s: Ops, e: Event)
    requires NoDuplicates(s.workerOrder) && forall w :: w in s.workers <==> w in s.workerOrder
    ensures var after := R.Apply(s, e);
      && SumCounts(after.workers, after.workerOrder) == SumCounts(s.workers, s.workerOrder) + 1
      && SumCosts(after.workers, after.workerOrder) == SumCosts(s.workers, s.workerOrder) + R.Spend(e)
  {
    hide R.NextWorker;
    var id := e.workerId;
    var w := R.NextWorker(R.Emitter(s, e), e);
    NextRecord(R.Emitter(s, e), e);
    var after := R.Apply(s, e);
    assert after.workers == s.workers[id := w];
    SumsChange(s.workers, s.workerOrder, id, w);
    if id !in s.workers {
      SumsSnoc(after.workers, s.workerOrder, id);
    }
  }

  /** The grand totals are the sums over the workers' records. */
  lemma {:induction false} TotalsAreSums(h: seq<Event>)
    ensures After(h).totalEvents == SumCounts(After(h).workers, After(h).workerOrder)
    ensures After(h).totalSpendUsd == SumCosts(After(h).workers, After(h).workerOrder)
  {
    hide R.Apply;
    if h != [] {
      TotalsAreSums(ButLast(h));
      var _ := OrderOfAppearance(ButLast(h));
      NextTotals(After(ButLast(h)), Final(h));
      NextGrandTotals(After(ButLast(h)), Final(h));
    }
  }

  // ----- tasks

  lemma NextTask(s: Ops, e: Event, task: Id)
    ensures Get(R.Apply(s, e).tasks, task)
         == if e.Names(task) then Some(R.Stamped(R.Assigned(Get(s.tasks, task), e), e)) else Get(s.tasks, task)
    ensures Get(R.Apply(s, e).taskOwner, task) == if e.Names(task) then Some(e.workerId) else Get(s.taskOwner, task)
  {
  }

  /** Tasks and their owners are known together; both name the last worker to emit for the task. */
  lemma {:induction false} TaskOwners(h: seq<Event>, task: Id)
    ensures Get(After(h).taskOwner, task)
         == if Naming(h, task) == [] then None else Some(Final(Naming(h, task)).workerId)
    ensures Get(After(h).tasks, task)
         == if Naming(h, task) == [] then None
            else var named := Naming(h, task);
                 Some(Task(task, Final(named).workerId, Latest(named, SaidState), Latest(named, SaidDone)))
  {
    hide R.Apply;
    if h != [] {
      TaskOwners(ButLast(h), task);
      NextTask(After(ButLast(h)), Final(h), task);
      var named := Naming(ButLast(h), task);
      if Final(h).Names(task) {
        SnocParts(named, Final(h));
        assert Naming(h, task) == named + [Final(h)];
      } else {
        assert Naming(h, task) == named;
      }
    }
  }

  // ----- dependency edges

  /** Worker `w` waits on `task`, which another worker was the last to emit for. */
  ghost predicate Waits(h: seq<Event>, w: Id, task: Id, owner: Id) {
    && Of(h, w) != [] && Latest(Of(h, w), SaidWait).Some? && task in Latest(Of(h, w), SaidWait).value
    && Naming(h, task) != [] && Final(Naming(h, task)).workerId == owner
    && owner != w && owner != ""
  }

  function LabelOf(h: seq<Event>, w: Id, task: Id): EdgeState {
    if Latest(Naming(h, task), SaidDone).GetOr(0) != 0 then DoneEdge
    else if Latest(Of(h, w), SaidState) == Some(Blocked) then BlockedEdge
    else PendingEdge
  }

  lemma {:induction false} EdgeIntoIff(s: Ops, w: Worker, waitingOn: seq<Id>, edge: Edge)
    ensures edge in R.EdgesInto(s, w, waitingOn) <==> exists task :: task in waitingOn && edge in R.EdgeFor(s, w, task)
  {
    if waitingOn != [] {
      var rest, last := ButLast(waitingOn), Final(waitingOn);
      EdgeIntoIff(s, w, rest, edge);
      assert forall task :: task in waitingOn <==> task in rest || task == last;
    }
  }

  lemma {:induction false} EdgeOfIff(s: Ops, order: seq<Id>, edge: Edge)
    ensures edge in R.EdgesOf(s, order) <==> exists w :: w in order && edge in R.WorkerEdges(s, w)
  {
    if order != [] {
      var rest, last := ButLast(order), Final(order);
      EdgeOfIff(s, rest, edge);
      assert forall w :: w in order <==> w in rest || w == last;
    }
  }

  /** Two states that agree on workers, tasks and owners draw the same edges. */
  lemma {:induction false} SameEdgesInto(s: Ops, t: Ops, w: Worker, waitingOn: seq<Id>)
    requires s.tasks == t.tasks && s.taskOwner == t.taskOwner
    ensures R.EdgesInto(s, w, waitingOn) == R.EdgesInto(t, w, waitingOn)
  {
    if waitingOn != [] {
      SameEdgesInto(s, t, w, ButLast(waitingOn));
    }
  }

  lemma {:induction false} SameEdges(s: Ops, t: Ops, order: seq<Id>)
    requires s.workers == t.workers && s.tasks == t.tasks && s.taskOwner == t.taskOwner
    ensures R.EdgesOf(s, order) == R.EdgesOf(t, order)
  {
    if order != [] {
      SameEdges(s, t, ButLast(order));
      var id := Final(order);
      if id in s.workers && s.workers[id].blockedOn.Some? {
        SameEdgesInto(s, t, s.workers[id], s.workers[id].blockedOn.value);
      }
    }
  }

  /** Whatever the state was, an event leaves it with the edges that a recomputation from scratch gives. */
  lemma AppliedIsCurrent(s: Ops, e: Event)
    ensures R.Apply(s, e).edges == R.DependencyEdges(R.Apply(s, e))
  {
    hide R.Absorb;
    SameEdges(R.Absorb(s, e), R.Apply(s, e), R.Absorb(s, e).workerOrder);
  }

  /** So in every history the stored edges are current. */
  lemma EdgesCurrent(h: seq<Event>)
    ensures After(h).edges == R.DependencyEdges(After(h))
  {
    if h != [] {
      hide R.Apply;
      AppliedIsCurrent(After(ButLast(h)), Final(h));
    }
  }

  lemma EdgeForIff(h: seq<Event>, w: Id, task: Id, edge: Edge)
    requires w in After(h).workers
    ensures edge in R.EdgeFor(After(h), After(h).workers[w], task)
       <==> Naming(h, task) != [] && Final(Naming(h, task)).workerId !in [w, ""]
            && edge == Edge(Final(Naming(h, task)).workerId, w, LabelOf(h, w, task))
  {
    hide R.Fold;
    TaskOwners(h, task);
    Isolation(h, w);
    RecordMeans(Of(h, w));
    IdOf(h, w);
  }

  lemma IdOf(h: seq<Event>, w: Id)
    ensures Of(h, w) != [] ==> Of(h, w)[0].workerId == w
  {
  }

  /** An edge is drawn exactly where one worker waits on a task that another was the last to emit for. */
  lemma EdgesMeanWaits(h: seq<Event>, edge: Edge)
    ensures edge in After(h).edges
       <==> exists w, task, owner :: Waits(h, w, task, owner) && edge == Edge(owner, w, LabelOf(h, w, task))
  {
    hide R.Fold, R.EdgeFor, LabelOf;
    var s := After(h);
    EdgesCurrent(h);
    EdgeOfIff(s, s.workerOrder, edge);
    var _ := OrderOfAppearance(h);
    if edge in s.edges {
      var w :| w in s.workerOrder && edge in R.WorkerEdges(s, w);
      Isolation(h, w);
      RecordMeans(Of(h, w));
      EdgeIntoIff(s, s.workers[w], s.workers[w].blockedOn.value, edge);
      var task :| task in s.workers[w].blockedOn.value && edge in R.EdgeFor(s, s.workers[w], task);
      EdgeForIff(h, w, task, edge);
      assert Waits(h, w, task, Final(Naming(h, task)).workerId);
    }
    if w, task, owner :| Waits(h, w, task, owner) && edge == Edge(owner, w, LabelOf(h, w, task)) {
      Isolation(h, w);
      RecordMeans(Of(h, w));
      EdgeForIff(h, w, task, edge);
      EdgeIntoIff(s, s.workers[w], s.workers[w].blockedOn.value, edge);
      assert edge in R.WorkerEdges(s, w);
    }
  }

  lemma {:induction false} NamingSound(h: seq<Event>, task: Id, e: Event)
    requires e in Naming(h, task)
    ensures e in h && e.Names(task)
  {
    if e in Naming(ButLast(h), task) {
      NamingSound(ButLast(h), task, e);
    }
  }

  /** No worker has an edge to itself, and both ends of an edge are known workers. */
  lemma EdgesJoinKnownWorkers(h: seq<Event>, edge: Edge)
    requires edge in After(h).edges
    ensures edge.source != edge.target
    ensures edge.source in After(h).workers && edge.target in After(h).workers
  {
    EdgesMeanWaits(h, edge);
    var w, task, owner :| Waits(h, w, task, owner) && edge == Edge(owner, w, LabelOf(h, w, task));
    Isolation(h, w);
    var last := Final(Naming(h, task));
    NamingSound(h, task, last);
    var n :| 0 <= n < |h| && h[n] == last;
    Emits(h, n);
    Isolation(h, owner);
  }
}
