/**
 * What a mission's own events make of it, said of the events alone: for each part of the mission, which event was
 * the last to set it and what that event says.
 */
module MissionTraces {
  import opened OpsTypes
  import opened Missions

  /** A mission after some of its own events. */
  function Course(created: MissionEvent, own: seq<MissionEvent>): ActiveMission {
    if own == [] then Fresh(created) else Applied(Course(created, own[..|own| - 1]), own[|own| - 1])
  }

  /** Something that an event says, given the events before it. */
  type Said<!T> = (seq<MissionEvent>, MissionEvent) -> Option<T>

  /** What the last event that says something says, unless a later one makes it void. */
  function Latest<T>(own: seq<MissionEvent>, said: Said<T>, void: MissionEvent -> bool): Option<T> {
    if own == [] then None
    else
      var before, e := own[..|own| - 1], own[|own| - 1];
      if said(before, e).Some? then said(before, e) else if void(e) then None else Latest(before, said, void)
  }

  lemma {:induction false} LatestMeans<T>(own: seq<MissionEvent>, said: Said<T>, void: MissionEvent -> bool, x: T)
    ensures Latest(own, said, void) == Some(x)
       <==> exists n :: 0 <= n < |own| && said(own[..n], own[n]) == Some(x)
                        && forall m :: n < m < |own| ==> said(own[..m], own[m]) == None && !void(own[m])
  {
    if own != [] {
      var before, last := own[..|own| - 1], |own| - 1;
      LatestMeans(before, said, void, x);
      assert forall n :: 0 <= n < last ==> before[..n] == own[..n];
    }
  }

  function Never(): MissionEvent -> bool {
    (e: MissionEvent) => false
  }

  /** One event is applied part by part. */
  lemma AppliedParts(m: ActiveMission, e: MissionEvent)
    ensures var after, k := Applied(m, e), e.kind;
      && after.lifecycle == LifecycleAfter(m, k) && after.statusLine == StatusAfter(m, e)
      && after.progressPercent == ProgressAfter(m, k) && after.tasks == TasksAfter(m, k)
      && after.workers == WorkersAfter(m, k) && after.attention == AttentionAfter(m, e)
  {
    hide LifecycleAfter, StatusAfter, ProgressAfter, TasksAfter, WorkersAfter, AttentionAfter;
  }

  // ----- the lifecycle

  /** The lifecycle that an event sets, whatever it was before. */
  function FirmLifecycle(): Said<Lifecycle> {
    (before: seq<MissionEvent>, e: MissionEvent) =>
      match e.kind
      case ExecutionStarted => Some(Lifecycle.Executing)
      case PlanProposed(_, _) => Some(PendingPlanApproval)
      case PlanConfirmed => Some(Lifecycle.Executing)
      case WorkerSpawned(_, _, _) => Some(Lifecycle.Executing)
      case AttentionReady => Some(Attention)
      case Completed(_, _) => Some(CompletePendingMerge)
      case MergeResolved(AsMerged) => Some(Merged)
      case MergeResolved(AsDiscarded) => Some(Discarded)
      case MergeResolved(AsExtended) => Some(Extended)
      case MissionReverted(_) => Some(Reverted)
      case Abort(_) => Some(Aborted)
      case MissionExtended(_) => Some(Extended)
      case MissionPausedFor(_, _) => Some(Paused)
      case MissionResumed(_) => Some(Lifecycle.Executing)
      case _ => None
  }

  /** A review and an integration set it too, but do not end a wait for attention. */
  function AnyLifecycle(): Said<Lifecycle> {
    (before: seq<MissionEvent>, e: MissionEvent) =>
      match e.kind
      case ReviewStarted(_) => Some(UnderReview)
      case SubtaskIntegrated(_, _, _) => Some(Lifecycle.Executing)
      case _ => FirmLifecycle()(before, e)
  }

  function LifecycleOf(own: seq<MissionEvent>): Lifecycle {
    if Latest(own, FirmLifecycle(), Never()) == Some(Attention) then Attention
    else Latest(own, AnyLifecycle(), Never()).GetOr(Lifecycle.Created)
  }

  lemma NextLifecycle(m: ActiveMission, before: seq<MissionEvent>, e: MissionEvent)
    ensures var firm, any := FirmLifecycle()(before, e), AnyLifecycle()(before, e);
      && LifecycleAfter(m, e.kind)
         == (if firm.Some? then firm.value else if m.lifecycle == Attention then Attention else any.GetOr(m.lifecycle))
      && (firm.Some? ==> any == firm) && (any == Some(Attention) ==> firm == any)
  {
  }

  /** The lifecycle is the one set by the last event that sets one; only a firm one ends a wait for attention. */
  lemma {:induction false} LifecycleIs(created: MissionEvent, own: seq<MissionEvent>)
    ensures Course(created, own).lifecycle == LifecycleOf(own)
    ensures Latest(own, AnyLifecycle(), Never()) == Some(Attention) ==>
              Latest(own, FirmLifecycle(), Never()) == Some(Attention)
  {
    hide Applied, LifecycleAfter, FirmLifecycle, AnyLifecycle;
    if own != [] {
      var before, e := own[..|own| - 1], own[|own| - 1];
      LifecycleIs(created, before);
      AppliedParts(Course(created, before), e);
      NextLifecycle(Course(created, before), before, e);
    }
  }

  // ----- workers

  /** Task and title of a worker, from its spawning. */
  function Spawning(w: Id): Said<(int, string)> {
    (before: seq<MissionEvent>, e: MissionEvent) =>
      match e.kind
      case WorkerSpawned(v, index, title) => if v == w then Some((index, title)) else None
      case _ => None
  }

  /** A worker that is spawned again starts afresh. */
  function Respawning(w: Id): MissionEvent -> bool {
    (e: MissionEvent) => e.kind.WorkerSpawned? && e.kind.workerId == w
  }

  /** The arbiter gives a worker's work up when it escalates and when it scrubs. */
  predicate Drops(e: MissionEvent) {
    e.kind.ArbiterDecided? && ((e.kind.bound.Some? && e.kind.bound.value != "") || e.kind.scrub)
  }

  function Standing(w: Id): Said<WorkerStatus> {
    (before: seq<MissionEvent>, e: MissionEvent) =>
      match e.kind
      case ResultSubmitted(v, _) => if v == w then Some(Submitted) else None
      case ReviewStarted(v) => if v == w then Some(WorkerUnderReview) else None
      case SubtaskIntegrated(v, _, _) => if v == w then Some(WorkerIntegrated) else None
      case ArbiterDecided(v, _, _) => if v == w && Drops(e) then Some(WorkerFailed) else None
      case _ => None
  }

  function Noting(w: Id): Said<string> {
    (before: seq<MissionEvent>, e: MissionEvent) =>
      match e.kind
      case WorkerProgress(v, note) => if v == w then Some(note) else None
      case _ => None
  }

  function Submitting(w: Id): Said<seq<string>> {
    (before: seq<MissionEvent>, e: MissionEvent) =>
      match e.kind
      case ResultSubmitted(v, files) => if v == w then Some(files) else None
      case _ => None
  }

  /** A worker's record: what was last said of it since it was last spawned. */
  function WorkerOf(own: seq<MissionEvent>, w: Id): Option<MissionWorker> {
    var standing, note := Latest(own, Standing(w), Respawning(w)), Latest(own, Noting(w), Respawning(w));
    match Latest(own, Spawning(w), Never())
    case None => None
    case Some(spawned) =>
      Some(MissionWorker(w, spawned.0, spawned.1, standing.GetOr(if note.Some? then Working else Spawned), note,
                         Latest(own, Submitting(w), Respawning(w)).GetOr([])))
  }

  lemma NextWorkerRecord(m: ActiveMission, k: Kind, w: Id)
    ensures Get(WorkersAfter(m, k), w)
         == if k.WorkerSpawned? && k.workerId == w then
              Some(MissionWorker(w, k.taskIndex, k.taskTitle, Spawned, None, []))
            else if Subject(m, k) == Some(w) then Some(Rewritten(m.workers[w], k))
            else Get(m.workers, w)
  {
  }

  predicate AboutTheWorker(e: MissionEvent, w: Id) {
    (e.kind.WorkerProgress? || e.kind.ResultSubmitted? || e.kind.ReviewStarted? || e.kind.SubtaskIntegrated?
     || Drops(e))
    && e.kind.workerId == w
  }

  /** An event that is not about a worker says nothing of it. */
  lemma NothingSaid(before: seq<MissionEvent>, e: MissionEvent, w: Id)
    requires !AboutTheWorker(e, w) && !(e.kind.WorkerSpawned? && e.kind.workerId == w)
    ensures Standing(w)(before, e) == None && Noting(w)(before, e) == None && Submitting(w)(before, e) == None
    ensures Spawning(w)(before, e) == None && !Respawning(w)(e)
  {
  }

  lemma SaidOf(before: seq<MissionEvent>, e: MissionEvent, w: Id)
    requires AboutTheWorker(e, w)
    ensures Spawning(w)(before, e) == None && !Respawning(w)(e)
    ensures Standing(w)(before, e)
         == (if e.kind.WorkerProgress? then None
             else Some(if e.kind.ResultSubmitted? then Submitted
                       else if e.kind.ReviewStarted? then WorkerUnderReview
                       else if e.kind.SubtaskIntegrated? then WorkerIntegrated
                       else WorkerFailed))
    ensures Noting(w)(before, e) == (if e.kind.WorkerProgress? then Some(e.kind.note) else None)
    ensures Submitting(w)(before, e) == (if e.kind.ResultSubmitted? then Some(e.kind.files) else None)
  {
  }

  lemma SpawnSaid(before: seq<MissionEvent>, e: MissionEvent, w: Id)
    requires e.kind.WorkerSpawned? && e.kind.workerId == w
    ensures Standing(w)(before, e) == None && Noting(w)(before, e) == None && Submitting(w)(before, e) == None
    ensures Spawning(w)(before, e) == Some((e.kind.taskIndex, e.kind.taskTitle)) && Respawning(w)(e)
  {
  }

  lemma NextWorkerOf(own: seq<MissionEvent>, w: Id)
    requires own != [] && Latest(own[..|own| - 1], Standing(w), Respawning(w)) != Some(Spawned)
    ensures var before, e := own[..|own| - 1], own[|own| - 1];
      && Latest(own, Standing(w), Respawning(w)) != Some(Spawned)
      && WorkerOf(own, w)
         == (if e.kind.WorkerSpawned? && e.kind.workerId == w then
               Some(MissionWorker(w, e.kind.taskIndex, e.kind.taskTitle, Spawned, None, []))
             else if WorkerOf(before, w).Some? && AboutTheWorker(e, w) then
               Some(Rewritten(WorkerOf(before, w).value, e.kind))
             else WorkerOf(before, w))
  {
    var before, e := own[..|own| - 1], own[|own| - 1];
    if e.kind.WorkerSpawned? && e.kind.workerId == w {
      SpawnSaid(before, e, w);
    } else if AboutTheWorker(e, w) {
      SaidOf(before, e, w);
    } else {
      NothingSaid(before, e, w);
    }
    hide Standing, Noting, Submitting, Spawning, Respawning;
  }

  /** A worker's status, note and files are those of its last events since it was last spawned. */
  lemma {:induction false} WorkersAre(created: MissionEvent, own: seq<MissionEvent>, w: Id)
    ensures Get(Course(created, own).workers, w) == WorkerOf(own, w)
    ensures Latest(own, Standing(w), Respawning(w)) != Some(Spawned)
  {
    if own == [] {
    } else {
      hide Applied, WorkersAfter, WorkerOf, Standing, Respawning, Rewritten, Latest;
      var before, e := own[..|own| - 1], own[|own| - 1];
      WorkersAre(created, before, w);
      AppliedParts(Course(created, before), e);
      NextWorkerRecord(Course(created, before), e.kind, w);
      NextWorkerOf(own, w);
    }
  }

  // ----- tasks

  function Planning(): Said<seq<PlannedTask>> {
    (before: seq<MissionEvent>, e: MissionEvent) =>
      match e.kind
      case Decomposition(planned) => Some(planned)
      case PlanProposed(proposed, _) => Some(proposed)
      case _ => None
  }

  function PlanOf(own: seq<MissionEvent>): seq<PlannedTask> {
    Latest(own, Planning(), Never()).GetOr([])
  }

  /** A new plan replaces every task. */
  function Replanning(): MissionEvent -> bool {
    (e: MissionEvent) => e.kind.Decomposition? || e.kind.PlanProposed?
  }

  /** The task is the first in the plan that has this index. */
  predicate FirstWith(plan: seq<PlannedTask>, index: int, n: int) {
    0 <= n < |plan| && plan[n].index == index && forall m :: 0 <= m < n ==> plan[m].index != index
  }

  /** What can happen to a task: a worker takes it up, the work is integrated, or given up. */
  datatype Touch = TakenUp(worker: Id) | Landed(sha: string, tag: string) | Dropped

  /** The index of the task that an event touches, through the worker it is about. */
  function Touching(before: seq<MissionEvent>, e: MissionEvent): Option<(int, Touch)> {
    match e.kind
    case WorkerSpawned(w, index, _) => Some((index, TakenUp(w)))
    case SubtaskIntegrated(w, sha, tag) =>
      var spawned := Latest(before, Spawning(w), Never());
      if spawned.Some? then Some((spawned.value.0, Landed(sha, tag))) else None
    case ArbiterDecided(w, _, _) =>
      var spawned := Latest(before, Spawning(w), Never());
      if Drops(e) && spawned.Some? then Some((spawned.value.0, Dropped)) else None
    case _ => None
  }

  /** Every touch of the task at a place of the plan. */
  function AnyTouch(n: int): Said<Touch> {
    (before: seq<MissionEvent>, e: MissionEvent) =>
      var touch := Touching(before, e);
      if touch.Some? && FirstWith(PlanOf(before), touch.value.0, n) then Some(touch.value.1) else None
  }

  /** The touches but for being given up, which an integrated task does not heed. */
  function FirmTouch(n: int): Said<Touch> {
    (before: seq<MissionEvent>, e: MissionEvent) =>
      var touch := AnyTouch(n)(before, e);
      if touch.Some? && touch.value.Dropped? then None else touch
  }

  function TakingUp(n: int): Said<Id> {
    (before: seq<MissionEvent>, e: MissionEvent) =>
      var touch := AnyTouch(n)(before, e);
      if touch.Some? && touch.value.TakenUp? then Some(touch.value.worker) else None
  }

  function Landing(n: int): Said<(string, string)> {
    (before: seq<MissionEvent>, e: MissionEvent) =>
      var touch := AnyTouch(n)(before, e);
      if touch.Some? && touch.value.Landed? then Some((touch.value.sha, touch.value.tag)) else None
  }

  function StatusOf(own: seq<MissionEvent>, n: int): TaskStatus {
    var firm: Option<Touch> := Latest(own, FirmTouch(n), Replanning());
    var any: Option<Touch> := Latest(own, AnyTouch(n), Replanning());
    if firm.Some? && firm.value.Landed? then TaskIntegrated
    else
      match any
      case None => TaskPending
      case Some(TakenUp(_)) => InProgress
      case Some(_) => TaskFailed
  }

  /** A task: named by the plan, with what last happened to it since. */
  function TaskOf(own: seq<MissionEvent>, n: int): MissionTask
    requires 0 <= n < |PlanOf(own)|
  {
    var landed := Latest(own, Landing(n), Replanning());
    MissionTask(PlanOf(own)[n].index, PlanOf(own)[n].title, StatusOf(own, n),
                Latest(own, TakingUp(n), Replanning()),
                if landed.Some? then Some(landed.value.0) else None,
                if landed.Some? then Some(landed.value.1) else None)
  }

  /** The tasks are those of the plan. */
  ghost predicate FollowsPlan(tasks: seq<MissionTask>, plan: seq<PlannedTask>) {
    |tasks| == |plan| && forall n :: 0 <= n < |plan| ==> tasks[n].index == plan[n].index
  }

  lemma {:induction false} FirstAtMeans(tasks: seq<MissionTask>, index: int)
    ensures var n := FirstAt(tasks, index);
      if n < 0 then forall task :: task in tasks ==> task.index != index
      else tasks[n].index == index && forall m :: 0 <= m < n ==> tasks[m].index != index
  {
    if tasks != [] {
      FirstAtMeans(tasks[..|tasks| - 1], index);
      assert tasks == tasks[..|tasks| - 1] + [tasks[|tasks| - 1]];
    }
  }

  lemma FirstAtIs(tasks: seq<MissionTask>, plan: seq<PlannedTask>, index: int, n: int)
    requires FollowsPlan(tasks, plan)
    ensures (n >= 0 && FirstAt(tasks, index) == n) <==> FirstWith(plan, index, n)
  {
    FirstAtMeans(tasks, index);
    hide FirstAt;
  }

  /** What a touch makes of a task. */
  function AfterTouch(task: MissionTask, touch: Option<Touch>): MissionTask {
    match touch
    case None => task
    case Some(TakenUp(w)) => task.(status := InProgress, assignedTo := Some(w))
    case Some(Landed(sha, tag)) =>
      task.(status := TaskIntegrated, integrationSha := Some(sha), snapshotTag := Some(tag))
    case Some(Dropped) => if task.status == TaskIntegrated then task else task.(status := TaskFailed)
  }

  /** The mission knows the worker of this event, and its task, as the events before tell them. */
  ghost predicate KnowsWorker(m: ActiveMission, before: seq<MissionEvent>, k: Kind) {
    k.SubtaskIntegrated? || k.ArbiterDecided? ==>
      var spawned := Latest(before, Spawning(k.workerId), Never());
      && (k.workerId in m.workers <==> spawned.Some?)
      && (k.workerId in m.workers ==> m.workers[k.workerId].taskIndex == spawned.value.0)
  }

  /** One event touches at most the first task with its index. */
  lemma NextTasks(m: ActiveMission, before: seq<MissionEvent>, e: MissionEvent, n: int)
    requires FollowsPlan(m.tasks, PlanOf(before)) && KnowsWorker(m, before, e.kind)
    requires !Replanning()(e) && 0 <= n < |m.tasks|
    ensures |TasksAfter(m, e.kind)| == |m.tasks|
    ensures TasksAfter(m, e.kind)[n] == AfterTouch(m.tasks[n], AnyTouch(n)(before, e))
  {
    var touch := Touching(before, e);
    if touch.Some? {
      FirstAtIs(m.tasks, PlanOf(before), touch.value.0, n);
    }
    hide FirstAt, FirstWith, PlanOf, FollowsPlan, Latest, Percent;
  }

  lemma NextTaskOf(own: seq<MissionEvent>, n: int)
    requires own != [] && !Replanning()(own[|own| - 1])
    ensures var before, e := own[..|own| - 1], own[|own| - 1];
      && PlanOf(own) == PlanOf(before)
      && (0 <= n < |PlanOf(before)| ==>
            TaskOf(own, n) == AfterTouch(TaskOf(before, n), AnyTouch(n)(before, e)))
  {
    hide Touching, FirstWith;
  }

  lemma KnownToCourse(created: MissionEvent, before: seq<MissionEvent>, k: Kind)
    ensures KnowsWorker(Course(created, before), before, k)
  {
    if k.SubtaskIntegrated? || k.ArbiterDecided? {
      WorkersAre(created, before, k.workerId);
    }
    hide Course, Latest;
  }

  lemma Replanned(m: ActiveMission, own: seq<MissionEvent>)
    requires own != [] && Replanning()(own[|own| - 1])
    ensures var tasks := TasksAfter(m, own[|own| - 1].kind);
      FollowsPlan(tasks, PlanOf(own)) && forall n :: 0 <= n < |tasks| ==> tasks[n] == TaskOf(own, n)
  {
    hide FirstWith;
  }

  /**
   * The tasks are those of the last plan. One is integrated if and only if no worker has taken it up since its work
   * was last integrated, and carries that integration's sha and tag; it has failed if it was given up since then.
   */
  lemma {:induction false} TasksAre(created: MissionEvent, own: seq<MissionEvent>)
    ensures var tasks := Course(created, own).tasks;
      FollowsPlan(tasks, PlanOf(own)) && forall n :: 0 <= n < |tasks| ==> tasks[n] == TaskOf(own, n)
  {
    hide Applied, TasksAfter, TaskOf, AnyTouch, AfterTouch, KnowsWorker;
    if own != [] {
      var before, e := own[..|own| - 1], own[|own| - 1];
      var m := Course(created, before);
      TasksAre(created, before);
      KnownToCourse(created, before, e.kind);
      AppliedParts(m, e);
      if Replanning()(e) {
        Replanned(m, own);
      } else {
        hide PlanOf;
        NextTaskOf(own, 0);
        TaskCount(m, before, e);
        var tasks := TasksAfter(m, e.kind);
        forall n | 0 <= n < |m.tasks| ensures tasks[n] == TaskOf(own, n) && tasks[n].index == m.tasks[n].index {
          NextTasks(m, before, e, n);
          NextTaskOf(own, n);
          TouchKeepsIndex(m.tasks[n], AnyTouch(n)(before, e));
        }
      }
    }
  }

  lemma TaskCount(m: ActiveMission, before: seq<MissionEvent>, e: MissionEvent)
    requires !Replanning()(e)
    ensures |TasksAfter(m, e.kind)| == |m.tasks|
  {
  }

  lemma TouchKeepsIndex(task: MissionTask, touch: Option<Touch>)
    ensures AfterTouch(task, touch).index == task.index
  {
  }

  // ----- progress

  function LandedBelow(own: seq<MissionEvent>, n: nat): nat {
    if n == 0 then 0 else LandedBelow(own, n - 1) + if StatusOf(own, n - 1) == TaskIntegrated then 1 else 0
  }

  /** The number of integrated tasks. */
  function LandedCount(own: seq<MissionEvent>): nat {
    LandedBelow(own, |PlanOf(own)|)
  }

  /** The integer next to the share in percent; halves go up. */
  lemma PercentRounds(part: nat, whole: nat)
    ensures whole == 0 ==> Percent(part, whole) == 0
    ensures whole > 0 ==>
              2 * whole * Percent(part, whole) <= 200 * part + whole < 2 * whole * (Percent(part, whole) + 1)
  {
  }

  function Progressing(): Said<int> {
    (before: seq<MissionEvent>, e: MissionEvent) =>
      match e.kind
      case SubtaskIntegrated(_, _, _) => Some(Percent(LandedCount(before + [e]), |PlanOf(before + [e])|))
      case Completed(_, _) => Some(100)
      case _ => None
  }

  lemma {:induction false} CountLanded(tasks: seq<MissionTask>, own: seq<MissionEvent>, n: nat)
    requires n <= |tasks| && forall i :: 0 <= i < n ==> tasks[i].status == StatusOf(own, i)
    ensures IntegratedCount(tasks[..n]) == LandedBelow(own, n)
  {
    if n > 0 {
      CountLanded(tasks, own, n - 1);
      assert tasks[..n][..n - 1] == tasks[..n - 1];
      hide StatusOf;
    }
  }

  lemma LandedIs(created: MissionEvent, own: seq<MissionEvent>)
    ensures var tasks := Course(created, own).tasks;
      |tasks| == |PlanOf(own)| && IntegratedCount(tasks) == LandedCount(own)
  {
    var tasks := Course(created, own).tasks;
    TasksAre(created, own);
    hide Course, StatusOf, Latest;
    CountLanded(tasks, own, |tasks|);
    assert tasks[..|tasks|] == tasks;
  }

  /** Progress is the rounded share of integrated tasks at the last integration, or 100 after completion. */
  lemma {:induction false} ProgressIs(created: MissionEvent, own: seq<MissionEvent>)
    ensures Course(created, own).progressPercent == Latest(own, Progressing(), Never()).GetOr(0)
  {
    hide Applied, TasksAfter, Percent, LandedCount, PlanOf;
    if own != [] {
      var before, e := own[..|own| - 1], own[|own| - 1];
      ProgressIs(created, before);
      AppliedParts(Course(created, before), e);
      LandedIs(created, own);
      assert before + [e] == own;
    }
  }

  // ----- attention

  /** A worker's title, or its id as long as it is not known. */
  function TitleIn(before: seq<MissionEvent>, w: Id): string {
    var spawned := Latest(before, Spawning(w), Never());
    if spawned.Some? then spawned.value.1 else w
  }

  function Escalation(before: seq<MissionEvent>, bound: string, w: Id): string {
    "Escalation (" + bound + ") on \"" + TitleIn(before, w) + "\""
  }

  function WaitingOn(vendor: Option<string>): string {
    if vendor.Some? && vendor.value != "" then vendor.value + " quota" else "vendor quota"
  }

  /** What an event puts before the user. */
  function Surfaced(before: seq<MissionEvent>, e: MissionEvent): Option<AttentionItem> {
    match e.kind
    case Completed(summary, _) => Some(AttentionItem(MissionComplete, false, summary, e.ts, None))
    case Abort(reason) => Some(AttentionItem(AttentionKind.MissionAborted, true, reason, e.ts, None))
    case ArbiterDecided(w, Some(bound), _) =>
      if bound == "" then None
      else Some(AttentionItem(ArbiterEscalation, true, Escalation(before, bound, w), e.ts, None))
    case SideEffect(what) => Some(AttentionItem(SideEffectLogged, false, what, e.ts, None))
    case SubSupervisor(what) => Some(AttentionItem(SubSupervisorRefused, false, what, e.ts, None))
    case MissionPausedFor(vendor, resumeAt) =>
      Some(AttentionItem(AttentionKind.MissionPaused, false, "Paused — waiting on " + WaitingOn(vendor) + " to reopen",
                         e.ts, Some(resumeAt)))
    case _ => None
  }

  function Surfacing(kind: AttentionKind): Said<AttentionItem> {
    (before: seq<MissionEvent>, e: MissionEvent) =>
      var item := Surfaced(before, e);
      if item.Some? && item.value.kind == kind then item else None
  }

  /** A decision about the mission clears everything, and resuming it what said that it was paused. */
  function Clearing(kind: AttentionKind): MissionEvent -> bool {
    (e: MissionEvent) =>
      || e.kind.MergeResolved? || e.kind.MissionReverted? || e.kind.MissionExtended?
      || (e.kind.MissionResumed? && kind == AttentionKind.MissionPaused)
  }

  lemma {:induction false} WithoutIs(items: seq<AttentionItem>, kind: AttentionKind, item: AttentionItem)
    ensures item in Without(items, kind) <==> item in items && item.kind != kind
  {
    if items != [] {
      WithoutIs(items[..|items| - 1], kind, item);
      assert items == items[..|items| - 1] + [items[|items| - 1]];
    }
  }

  lemma TitleIsKnown(created: MissionEvent, before: seq<MissionEvent>, w: Id)
    ensures TitleOf(Course(created, before), w) == TitleIn(before, w)
  {
    WorkersAre(created, before, w);
    hide Course, Latest;
  }

  lemma NextAttention(m: ActiveMission, before: seq<MissionEvent>, e: MissionEvent, item: AttentionItem)
    requires e.kind.ArbiterDecided? ==> TitleOf(m, e.kind.workerId) == TitleIn(before, e.kind.workerId)
    ensures item in AttentionAfter(m, e)
       <==> || Surfaced(before, e) == Some(item)
            || (item in m.attention && !Clearing(item.kind)(e)
                && !(Surfaced(before, e).Some? && Surfaced(before, e).value.kind == item.kind))
  {
    hide TitleOf, TitleIn;
    forall kind ensures item in Without(m.attention, kind) <==> item in m.attention && item.kind != kind {
      WithoutIs(m.attention, kind, item);
    }
    hide Without;
  }

  /** An item stands before the user if and only if it is the last of its kind and nothing has cleared it since. */
  lemma {:induction false} AttentionIs(created: MissionEvent, own: seq<MissionEvent>, item: AttentionItem)
    ensures item in Course(created, own).attention
       <==> Latest(own, Surfacing(item.kind), Clearing(item.kind)) == Some(item)
  {
    hide Applied, AttentionAfter, Surfaced;
    if own != [] {
      var before, e := own[..|own| - 1], own[|own| - 1];
      AttentionIs(created, before, item);
      AppliedParts(Course(created, before), e);
      if e.kind.ArbiterDecided? {
        TitleIsKnown(created, before, e.kind.workerId);
      }
      NextAttention(Course(created, before), before, e, item);
    }
  }

  // ----- the status line

  function ReadDigits(digits: string): nat {
    if digits == "" then 0
    else
      var c := digits[|digits| - 1];
      ReadDigits(digits[..|digits| - 1]) * 10 + if '0' <= c <= '9' then c as int - '0' as int else 0
  }

  /** Numbers on the status line are in decimal, without leading zeros. */
  lemma {:induction false} DigitsMean(n: nat)
    ensures ReadDigits(Digits(n)) == n && Digits(n) != "" && (n > 0 ==> Digits(n)[0] != '0')
    ensures forall i :: 0 <= i < |Digits(n)| ==> '0' <= Digits(n)[i] <= '9'
  {
    if n >= 10 {
      DigitsMean(n / 10);
      assert Digits(n)[..|Digits(n)| - 1] == Digits(n / 10);
    }
  }

  predicate Known(before: seq<MissionEvent>, w: Id) {
    Latest(before, Spawning(w), Never()).Some?
  }

  function EscalationShown(before: seq<MissionEvent>): Option<AttentionItem> {
    Latest(before, Surfacing(ArbiterEscalation), Clearing(ArbiterEscalation))
  }

  /** What an event writes on the status line; while the mission waits for attention, its workers write nothing. */
  function Announced(before: seq<MissionEvent>, e: MissionEvent): Option<string> {
    var calm := LifecycleOf(before) != Attention;
    match e.kind
    case ExecutionStarted => Some("Team starting…")
    case Decomposition(planned) =>
      Some("Team is planning " + Digits(|planned|) + (if |planned| == 1 then " task" else " tasks"))
    case DecompositionRejected => Some("Decomposition rejected by orchestrator")
    case PlanProposed(_, _) => Some("Awaiting plan approval")
    case PlanConfirmed => Some("Plan confirmed — workers starting")
    case PlanRegenerationRequested => Some("Regenerating plan…")
    case WorkerSpawned(_, _, title) => Some("Spawned worker on \"" + title + "\"")
    case WorkerProgress(w, note) => if Known(before, w) && calm then Some(note) else None
    case ResultSubmitted(w, _) =>
      if !calm then None
      else if Known(before, w) then Some("Reviewing \"" + TitleIn(before, w) + "\"")
      else Some("Reviewing \"submission\"")
    case SubtaskIntegrated(_, _, _) =>
      if !calm then None
      else Some("Integrated " + Digits(LandedCount(before + [e])) + "/" + Digits(|PlanOf(before + [e])|))
    case Completed(_, _) => Some("Mission complete — awaiting your decision")
    case MergeResolved(AsMerged) => Some("Merged into target branch")
    case MergeResolved(AsDiscarded) => Some("Discarded — no changes kept")
    case MergeResolved(AsExtended) => Some("Extension requested (legacy record)")
    case MissionReverted(sha) => Some("Merged changes reverted · restored SHA " + sha)
    case Abort(reason) => Some("Aborted: " + reason)
    case ArbiterDecided(w, Some(bound), _) => if bound == "" then None else Some(Escalation(before, bound, w))
    case AttentionReady =>
      var item := EscalationShown(before);
      Some(if item.Some? then item.value.summary else "Mission needs your decision")
    case MissionPausedFor(vendor, _) => Some("Paused — waiting on " + WaitingOn(vendor))
    case MissionResumed(vendor) => Some("Resumed — " + vendor + " quota reopened")
    case _ => None
  }

  function Announcing(): Said<string> {
    (before: seq<MissionEvent>, e: MissionEvent) => Announced(before, e)
  }

  lemma {:induction false} SummaryMeans(items: seq<AttentionItem>, kind: AttentionKind)
    ensures var summary := SummaryOf(items, kind);
      if summary.None? then forall item :: item in items ==> item.kind != kind
      else exists item :: item in items && item.kind == kind && item.summary == summary.value
  {
    if items != [] {
      SummaryMeans(items[..|items| - 1], kind);
      assert items == items[..|items| - 1] + [items[|items| - 1]];
    }
  }

  lemma {:induction false} SurfacedKind(own: seq<MissionEvent>, kind: AttentionKind)
    ensures var item := Latest(own, Surfacing(kind), Clearing(kind)); item.Some? ==> item.value.kind == kind
  {
    hide Surfaced;
    if own != [] {
      SurfacedKind(own[..|own| - 1], kind);
    }
  }

  lemma EscalationIsShown(created: MissionEvent, before: seq<MissionEvent>)
    ensures SummaryOf(Course(created, before).attention, ArbiterEscalation)
         == if EscalationShown(before).Some? then Some(EscalationShown(before).value.summary) else None
  {
    var items := Course(created, before).attention;
    SummaryMeans(items, ArbiterEscalation);
    SurfacedKind(before, ArbiterEscalation);
    forall item: AttentionItem | item.kind == ArbiterEscalation
      ensures item in items <==> EscalationShown(before) == Some(item) {
      AttentionIs(created, before, item);
    }
    hide Course, Latest;
  }

  /** What the reducer knows when an event arrives, as the events before tell it. */
  ghost predicate Informed(m: ActiveMission, before: seq<MissionEvent>, e: MissionEvent) {
    && m.lifecycle == LifecycleOf(before)
    && (forall w :: w in m.workers <==> Known(before, w))
    && (forall w :: TitleOf(m, w) == TitleIn(before, w))
    && (var tasks := TasksAfter(m, e.kind);
        |tasks| == |PlanOf(before + [e])| && IntegratedCount(tasks) == LandedCount(before + [e]))
    && SummaryOf(m.attention, ArbiterEscalation)
       == (if EscalationShown(before).Some? then Some(EscalationShown(before).value.summary) else None)
  }

  predicate AboutWorker(k: Kind) {
    k.WorkerSpawned? || k.WorkerProgress? || k.ResultSubmitted? || k.SubtaskIntegrated? || k.ArbiterDecided?
  }

  lemma NextStatusOfWorker(m: ActiveMission, before: seq<MissionEvent>, e: MissionEvent)
    requires Informed(m, before, e) && AboutWorker(e.kind)
    ensures StatusAfter(m, e) == Announced(before, e).GetOr(m.statusLine)
  {
    hide TasksAfter, LifecycleOf, Known, TitleIn, PlanOf, LandedCount, EscalationShown, SummaryOf, IntegratedCount,
        Digits;
    if e.kind.ResultSubmitted? || e.kind.ArbiterDecided? {
      assert TitleOf(m, e.kind.workerId) == TitleIn(before, e.kind.workerId);
    }
  }

  predicate AboutEnd(k: Kind) {
    k.Completed? || k.MergeResolved? || k.MissionReverted? || k.Abort? || k.MissionPausedFor? || k.MissionResumed?
  }

  lemma NextStatusOfEnd(m: ActiveMission, before: seq<MissionEvent>, e: MissionEvent)
    requires Informed(m, before, e) && AboutEnd(e.kind)
    ensures StatusAfter(m, e) == Announced(before, e).GetOr(m.statusLine)
  {
    hide TasksAfter, LifecycleOf, Known, TitleIn, TitleOf, PlanOf, LandedCount, EscalationShown, SummaryOf, Digits;
  }

  lemma NextStatus(m: ActiveMission, before: seq<MissionEvent>, e: MissionEvent)
    requires Informed(m, before, e)
    ensures StatusAfter(m, e) == Announced(before, e).GetOr(m.statusLine)
  {
    if AboutWorker(e.kind) {
      NextStatusOfWorker(m, before, e);
    } else if AboutEnd(e.kind) {
      NextStatusOfEnd(m, before, e);
    } else {
      hide TasksAfter, LifecycleOf, Known, TitleIn, TitleOf, PlanOf, LandedCount, EscalationShown, SummaryOf, Digits;
    }
  }

  lemma IsInformed(created: MissionEvent, own: seq<MissionEvent>)
    requires own != []
    ensures Informed(Course(created, own[..|own| - 1]), own[..|own| - 1], own[|own| - 1])
  {
    var before, e := own[..|own| - 1], own[|own| - 1];
    var m := Course(created, before);
    LifecycleIs(created, before);
    EscalationIsShown(created, before);
    LandedIs(created, own);
    assert before + [e] == own;
    AppliedParts(m, e);
    forall w ensures (w in m.workers <==> Known(before, w)) && TitleOf(m, w) == TitleIn(before, w) {
      WorkersAre(created, before, w);
      TitleIsKnown(created, before, w);
    }
    hide Applied, TasksAfter, LifecycleOf, Known, TitleIn, PlanOf, LandedCount, EscalationShown, SummaryOf,
        IntegratedCount;
  }

  /** The status line is what the last event that had something to announce announced. */
  lemma {:induction false} StatusIs(created: MissionEvent, own: seq<MissionEvent>)
    ensures Course(created, own).statusLine == Latest(own, Announcing(), Never()).GetOr("Mission starting…")
  {
    hide Applied, Announced, Informed, StatusAfter;
    if own != [] {
      var before, e := own[..|own| - 1], own[|own| - 1];
      StatusIs(created, before);
      AppliedParts(Course(created, before), e);
      IsInformed(created, own);
      NextStatus(Course(created, before), before, e);
    }
  }

  // ----- the rest

  /** What single events report once and for all, until they report it again. */
  function Testing(): Said<bool> {
    (before: seq<MissionEvent>, e: MissionEvent) => if e.kind.TestsReported? then Some(e.kind.passed) else None
  }

  function Completing(): Said<(string, int)> {
    (before: seq<MissionEvent>, e: MissionEvent) =>
      if e.kind.Completed? then Some((e.kind.summary, e.kind.filesChanged)) else None
  }

  function Resolving(): Said<Resolution> {
    (before: seq<MissionEvent>, e: MissionEvent) => if e.kind.MergeResolved? then Some(e.kind.resolution) else None
  }

  function Reverting(): Said<string> {
    (before: seq<MissionEvent>, e: MissionEvent) => if e.kind.MissionReverted? then Some(e.kind.sha) else None
  }

  function Aborting(): Said<string> {
    (before: seq<MissionEvent>, e: MissionEvent) => if e.kind.Abort? then Some(e.kind.reason) else None
  }

  function Proposing(): Said<int> {
    (before: seq<MissionEvent>, e: MissionEvent) => if e.kind.PlanProposed? then Some(e.kind.generation) else None
  }

  function Extending(): Said<(string, int)> {
    (before: seq<MissionEvent>, e: MissionEvent) =>
      if e.kind.MissionExtended? then Some((e.kind.directive, e.ts)) else None
  }

  function Auditing(): Said<string> {
    (before: seq<MissionEvent>, e: MissionEvent) => if e.kind.AuditCompleted? then Some(e.kind.payload) else None
  }

  /** A verdict that cannot be parsed removes the one before. */
  function Judging(): Said<Option<string>> {
    (before: seq<MissionEvent>, e: MissionEvent) => if e.kind.VerdictRendered? then Some(e.kind.parsed) else None
  }

  lemma {:induction false} RestIs(created: MissionEvent, own: seq<MissionEvent>)
    ensures var m, completed := Course(created, own), Latest(own, Completing(), Never());
      && m.id == created.missionId && m.startedAt == created.ts
      && m.updatedAt == (if own == [] then created.ts else own[|own| - 1].ts)
      && m.testsPassed == Latest(own, Testing(), Never())
      && m.completionSummary == (if completed.Some? then Some(completed.value.0) else None)
      && m.filesChanged == (if completed.Some? then completed.value.1 else 0)
      && m.resolution == Latest(own, Resolving(), Never())
      && m.restoredSha == Latest(own, Reverting(), Never())
      && m.abortReason == Latest(own, Aborting(), Never())
      && m.planGeneration == Latest(own, Proposing(), Never()).GetOr(0)
      && m.lastExtension == Latest(own, Extending(), Never())
      && m.audit == Latest(own, Auditing(), Never())
      && m.verdict == Latest(own, Judging(), Never()).GetOr(None)
  {
    hide LifecycleAfter, StatusAfter, ProgressAfter, TasksAfter, WorkersAfter, AttentionAfter;
    if own != [] {
      RestIs(created, own[..|own| - 1]);
    }
  }

  // ----- the whole trace

  lemma {:induction false} OwnAre(since: seq<MissionEvent>, mission: Id)
    ensures forall e :: e in Own(since, mission) ==> e in since && e.missionId == mission
  {
    if since != [] {
      OwnAre(since[..|since| - 1], mission);
    }
  }

  lemma {:induction false} FoldIsCourse(created: MissionEvent, cwd: Option<string>, own: seq<MissionEvent>)
    requires forall e :: e in own ==> e.missionId == created.missionId && !e.kind.MissionCreated?
    ensures Fold(MissionsState(Some(Fresh(created)), false, cwd), own).active == Some(Course(created, own))
  {
    hide Applied, Fresh;
    if own != [] {
      FoldIsCourse(created, cwd, own[..|own| - 1]);
      RestIs(created, own[..|own| - 1]);
      assert own[|own| - 1] in own;
    }
  }

  /** An earlier dismissal of the overlay lasts until a decision about the mission, or a new mission, reopens it. */
  lemma OverlayAfter(s: MissionsState, e: MissionEvent)
    ensures Apply(s, e).overlayDismissed
       <==> && s.overlayDismissed && !e.kind.MissionCreated?
            && !(s.active.Some? && s.active.value.id == e.missionId
                 && (e.kind.MergeResolved? || e.kind.MissionReverted? || e.kind.Abort? || e.kind.MissionExtended?))
  {
  }

  /** However a trace began, its mission is what the events of the last created one say. */
  lemma MissionFromEvents(s: MissionsState, before: seq<MissionEvent>, created: MissionEvent, since: seq<MissionEvent>)
    requires created.kind.MissionCreated? && forall e :: e in since ==> !e.kind.MissionCreated?
    ensures var own := Own(since, created.missionId);
      var active := Fold(s, before + [created] + since).active;
      && active == Some(Course(created, own))
      && active.value.lifecycle == LifecycleOf(own)
      && active.value.statusLine == Latest(own, Announcing(), Never()).GetOr("Mission starting…")
      && active.value.progressPercent == Latest(own, Progressing(), Never()).GetOr(0)
      && |active.value.tasks| == |PlanOf(own)|
      && (forall n :: 0 <= n < |active.value.tasks| ==> active.value.tasks[n] == TaskOf(own, n))
      && (forall w :: Get(active.value.workers, w) == WorkerOf(own, w))
      && (forall item: AttentionItem :: item in active.value.attention
            <==> Latest(own, Surfacing(item.kind), Clearing(item.kind)) == Some(item))
  {
    var own := Own(since, created.missionId);
    LastMissionDecides(s, before, created, since);
    OwnAre(since, created.missionId);
    FoldIsCourse(created, Fold(s, before).repoCwd, own);
    LifecycleIs(created, own);
    StatusIs(created, own);
    ProgressIs(created, own);
    TasksAre(created, own);
    hide *;
    forall w ensures Get(Course(created, own).workers, w) == WorkerOf(own, w) {
      WorkersAre(created, own, w);
    }
    forall item: AttentionItem
      ensures item in Course(created, own).attention
         <==> Latest(own, Surfacing(item.kind), Clearing(item.kind)) == Some(item)
    {
      AttentionIs(created, own, item);
    }
  }
}
