/** The mission reducer: the lifecycle of the one active mission, folded from its events. */
module Missions {
  import opened OpsTypes

  datatype Lifecycle =
    | Created | Executing | PendingPlanApproval | UnderReview | Attention | CompletePendingMerge
    | Merged | Reverted | Discarded | Extended | Aborted | Paused

  datatype TaskStatus = TaskPending | InProgress | TaskIntegrated | TaskFailed
  datatype WorkerStatus = Spawned | Working | Submitted | WorkerUnderReview | WorkerIntegrated | WorkerFailed

  datatype MissionTask = MissionTask(index: int, title: string, status: TaskStatus, assignedTo: Option<Id>,
                                     integrationSha: Option<string>, snapshotTag: Option<string>)

  datatype MissionWorker = MissionWorker(id: Id, taskIndex: int, taskTitle: string, status: WorkerStatus,
                                         latestProgress: Option<string>, submittedFiles: seq<string>)

  datatype AttentionKind =
    | MissionComplete | MissionAborted | ArbiterEscalation | SideEffectLogged | SubSupervisorRefused | MissionPaused

  datatype AttentionItem = AttentionItem(kind: AttentionKind, hard: bool, summary: string, surfacedAt: int,
                                         resumeAt: Option<int>)

  datatype Resolution = AsMerged | AsDiscarded | AsExtended

  datatype ActiveMission = ActiveMission(
    id: Id,
    lifecycle: Lifecycle,
    startedAt: int,
    updatedAt: int,
    statusLine: string,
    progressPercent: int,
    tasks: seq<MissionTask>,
    workers: map<Id, MissionWorker>,
    testsPassed: Option<bool>,
    completionSummary: Option<string>,
    filesChanged: int,
    resolution: Option<Resolution>,
    restoredSha: Option<string>,
    abortReason: Option<string>,
    attention: seq<AttentionItem>,
    planGeneration: int,
    lastExtension: Option<(string, int)>,
    audit: Option<string>,
    verdict: Option<string>)

  datatype PlannedTask = PlannedTask(index: int, title: string)

  /** What an event says. Texts that the reducer only parses arrive parsed. */
  datatype Kind =
    | MissionCreated
    | ExecutionStarted
    | Decomposition(planned: seq<PlannedTask>)
    | DecompositionRejected
    | PlanProposed(proposed: seq<PlannedTask>, generation: int)
    | PlanConfirmed
    | PlanRegenerationRequested
    | WorkerSpawned(workerId: Id, taskIndex: int, taskTitle: string)
    | WorkerProgress(workerId: Id, note: string)
    | ResultSubmitted(workerId: Id, files: seq<string>)
    | ReviewStarted(workerId: Id)
    | SubtaskIntegrated(workerId: Id, sha: string, tag: string)
    | TestsReported(passed: bool)
    | Completed(summary: string, filesChanged: int)
    | MergeResolved(resolution: Resolution)
    | MissionReverted(sha: string)
    | Abort(reason: string)
    | ArbiterDecided(workerId: Id, bound: Option<string>, scrub: bool)
    | AttentionReady
    | SideEffect(what: string)
    | SubSupervisor(what: string)
    | MissionExtended(directive: string)
    | AuditCompleted(payload: string)
    | VerdictRendered(parsed: Option<string>)
    | MissionPausedFor(vendor: Option<string>, resumeAtMs: int)
    | MissionResumed(reopened: string)
    | OtherKind

  datatype MissionEvent = MissionEvent(missionId: Id, ts: int, kind: Kind)

  datatype MissionsState = MissionsState(active: Option<ActiveMission>, overlayDismissed: bool, repoCwd: Option<string>)

  function Digits(n: nat): string {
    if n < 10 then [('0' as int + n) as char] else Digits(n / 10) + [('0' as int + n % 10) as char]
  }

  function Fresh(e: MissionEvent): ActiveMission {
    ActiveMission(e.missionId, Lifecycle.Created, e.ts, e.ts, "Mission starting…", 0, [], map[], None, None, 0,
        None, None, None,
                  [], 0, None, None, None)
  }

  /** One attention item per kind; the latest wins. */
  function Without(items: seq<AttentionItem>, kind: AttentionKind): seq<AttentionItem> {
    if items == [] then []
    else
      var kept := Without(items[..|items| - 1], kind);
      if items[|items| - 1].kind == kind then kept else kept + [items[|items| - 1]]
  }

  function Upserted(items: seq<AttentionItem>, item: AttentionItem): seq<AttentionItem> {
    Without(items, item.kind) + [item]
  }

  function SummaryOf(items: seq<AttentionItem>, kind: AttentionKind): Option<string> {
    if items == [] then None
    else
      var earlier := SummaryOf(items[..|items| - 1], kind);
      if earlier.Some? then earlier
      else if items[|items| - 1].kind == kind then Some(items[|items| - 1].summary)
      else None
  }

  function FromPlan(planned: seq<PlannedTask>): seq<MissionTask> {
    seq(|planned|, i requires 0 <= i < |planned| =>
      MissionTask(planned[i].index, planned[i].title, TaskPending, None, None, None))
  }

  function FirstAt(tasks: seq<MissionTask>, index: int): (n: int)
    ensures n == -1 || (0 <= n < |tasks| && tasks[n].index == index)
  {
    if tasks == [] then -1
    else
      var n := FirstAt(tasks[..|tasks| - 1], index);
      if n >= 0 then n else if tasks[|tasks| - 1].index == index then |tasks| - 1 else -1
  }

  function TaskStarted(tasks: seq<MissionTask>, index: int, w: Id): seq<MissionTask> {
    var n := FirstAt(tasks, index);
    if n < 0 then tasks else tasks[n := tasks[n].(status := InProgress, assignedTo := Some(w))]
  }

  function TaskDone(tasks: seq<MissionTask>, index: int, sha: string, tag: string): seq<MissionTask> {
    var n := FirstAt(tasks, index);
    if n < 0 then tasks
    else tasks[n := tasks[n].(status := TaskIntegrated, integrationSha := Some(sha), snapshotTag := Some(tag))]
  }

  function TaskGivenUp(tasks: seq<MissionTask>, index: int): seq<MissionTask> {
    var n := FirstAt(tasks, index);
    if n < 0 || tasks[n].status == TaskIntegrated then tasks else tasks[n := tasks[n].(status := TaskFailed)]
  }

  function IntegratedCount(tasks: seq<MissionTask>): (n: nat)
    ensures n <= |tasks|
  {
    if tasks == [] then 0
    else IntegratedCount(tasks[..|tasks| - 1]) + if tasks[|tasks| - 1].status == TaskIntegrated then 1 else 0
  }

  /** Percentage, rounded to the nearest integer, halves up. */
  function Percent(part: nat, whole: nat): int {
    if whole == 0 then 0 else (200 * part + whole) / (2 * whole)
  }

  // ----- the worker an event rewrites

  predicate GivesUp(k: Kind) {
    k.ArbiterDecided? && (Truthy(k.bound) || k.scrub)
  }

  /** The known worker whose record an event changes. */
  function Subject(m: ActiveMission, k: Kind): Option<Id> {
    if (k.WorkerProgress? || k.ResultSubmitted? || k.ReviewStarted? || k.SubtaskIntegrated? || GivesUp(k))
       && k.workerId in m.workers
    then Some(k.workerId) else None
  }

  function Rewritten(w: MissionWorker, k: Kind): MissionWorker {
    match k
    case WorkerProgress(_, note) =>
      w.(latestProgress := Some(note), status := if w.status == Spawned then Working else w.status)
    case ResultSubmitted(_, files) => w.(status := Submitted, submittedFiles := files)
    case ReviewStarted(_) => w.(status := WorkerUnderReview)
    case SubtaskIntegrated(_, _, _) => w.(status := WorkerIntegrated)
    case ArbiterDecided(_, _, _) => w.(status := WorkerFailed)
    case _ => w
  }

  function WorkersAfter(m: ActiveMission, k: Kind): map<Id, MissionWorker> {
    if k.WorkerSpawned? then
      m.workers[k.workerId := MissionWorker(k.workerId, k.taskIndex, k.taskTitle, Spawned, None, [])]
    else
      match Subject(m, k)
      case Some(w) => m.workers[w := Rewritten(m.workers[w], k)]
      case None => m.workers
  }

  function TasksAfter(m: ActiveMission, k: Kind): seq<MissionTask> {
    match k
    case Decomposition(planned) => FromPlan(planned)
    case PlanProposed(proposed, _) => FromPlan(proposed)
    case WorkerSpawned(w, index, _) => TaskStarted(m.tasks, index, w)
    case SubtaskIntegrated(w, sha, tag) =>
      if w in m.workers then TaskDone(m.tasks, m.workers[w].taskIndex, sha, tag) else m.tasks
    case ArbiterDecided(w, _, _) =>
      if GivesUp(k) && w in m.workers then TaskGivenUp(m.tasks, m.workers[w].taskIndex) else m.tasks
    case _ => m.tasks
  }

  function ResolutionLifecycle(resolution: Resolution): Lifecycle {
    match resolution case AsMerged => Merged case AsDiscarded => Discarded case AsExtended => Extended
  }

  function ResolutionStatusLine(resolution: Resolution): string {
    match resolution
    case AsMerged => "Merged into target branch"
    case AsDiscarded => "Discarded — no changes kept"
    case AsExtended => "Extension requested (legacy record)"
  }

  function LifecycleAfter(m: ActiveMission, k: Kind): Lifecycle {
    match k
    case ExecutionStarted => Lifecycle.Executing
    case PlanProposed(_, _) => PendingPlanApproval
    case PlanConfirmed => Lifecycle.Executing
    case WorkerSpawned(_, _, _) => Lifecycle.Executing
    case ReviewStarted(_) => if m.lifecycle == Attention then Attention else UnderReview
    case SubtaskIntegrated(_, _, _) => if m.lifecycle == Attention then Attention else Lifecycle.Executing
    case Completed(_, _) => CompletePendingMerge
    case MergeResolved(resolution) => ResolutionLifecycle(resolution)
    case MissionReverted(_) => Reverted
    case Abort(_) => Aborted
    case AttentionReady => Attention
    case MissionExtended(_) => Extended
    case MissionPausedFor(_, _) => Paused
    case MissionResumed(_) => Lifecycle.Executing
    case _ => m.lifecycle
  }

  function TitleOf(m: ActiveMission, w: Id): string {
    if w in m.workers then m.workers[w].taskTitle else w
  }

  function EscalationText(m: ActiveMission, k: Kind): string
    requires k.ArbiterDecided?
  {
    "Escalation (" + k.bound.GetOr("") + ") on \"" + TitleOf(m, k.workerId) + "\""
  }

  function Quota(vendor: Option<string>): string {
    if Truthy(vendor) then vendor.value + " quota" else "vendor quota"
  }

  function AttentionAfter(m: ActiveMission, e: MissionEvent): seq<AttentionItem> {
    match e.kind
    case Completed(summary, _) => Upserted(m.attention, AttentionItem(MissionComplete, false, summary, e.ts, None))
    case MergeResolved(_) => []
    case MissionReverted(_) => []
    case Abort(reason) => Upserted(m.attention, AttentionItem(AttentionKind.MissionAborted, true, reason, e.ts, None))
    case ArbiterDecided(_, bound, _) =>
      if Truthy(bound) then
        Upserted(m.attention, AttentionItem(ArbiterEscalation, true, EscalationText(m, e.kind), e.ts, None))
      else m.attention
    case SideEffect(what) => Upserted(m.attention, AttentionItem(SideEffectLogged, false, what, e.ts, None))
    case SubSupervisor(what) => Upserted(m.attention, AttentionItem(SubSupervisorRefused, false, what, e.ts, None))
    case MissionExtended(_) => []
    case MissionPausedFor(vendor, resumeAt) =>
      Upserted(m.attention, AttentionItem(AttentionKind.MissionPaused, false,
                                          "Paused — waiting on " + Quota(vendor) + " to reopen", e.ts, Some(resumeAt)))
    case MissionResumed(_) => Without(m.attention, AttentionKind.MissionPaused)
    case _ => m.attention
  }

  function StatusAfter(m: ActiveMission, e: MissionEvent): string {
    var calm := m.lifecycle != Attention;
    match e.kind
    case ExecutionStarted => "Team starting…"
    case Decomposition(planned) =>
      "Team is planning " + Digits(|planned|) + " task" + (if |planned| == 1 then "" else "s")
    case DecompositionRejected => "Decomposition rejected by orchestrator"
    case PlanProposed(_, _) => "Awaiting plan approval"
    case PlanConfirmed => "Plan confirmed — workers starting"
    case PlanRegenerationRequested => "Regenerating plan…"
    case WorkerSpawned(_, _, title) => "Spawned worker on \"" + title + "\""
    case WorkerProgress(w, note) => if w in m.workers && calm then note else m.statusLine
    case ResultSubmitted(w, _) =>
      if calm then "Reviewing \"" + (if w in m.workers then m.workers[w].taskTitle else "submission") + "\""
      else m.statusLine
    case SubtaskIntegrated(_, _, _) =>
      var tasks := TasksAfter(m, e.kind);
      if calm then "Integrated " + Digits(IntegratedCount(tasks)) + "/" + Digits(|tasks|) else m.statusLine
    case Completed(_, _) => "Mission complete — awaiting your decision"
    case MergeResolved(resolution) => ResolutionStatusLine(resolution)
    case MissionReverted(sha) => "Merged changes reverted · restored SHA " + sha
    case Abort(reason) => "Aborted: " + reason
    case ArbiterDecided(_, bound, _) => if Truthy(bound) then EscalationText(m, e.kind) else m.statusLine
    case AttentionReady => SummaryOf(m.attention, ArbiterEscalation).GetOr("Mission needs your decision")
    case MissionPausedFor(vendor, _) => "Paused — waiting on " + Quota(vendor)
    case MissionResumed(vendor) => "Resumed — " + vendor + " quota reopened"
    case _ => m.statusLine
  }

  function ProgressAfter(m: ActiveMission, k: Kind): int {
    match k
    case SubtaskIntegrated(_, _, _) => var tasks := TasksAfter(m, k); Percent(IntegratedCount(tasks), |tasks|)
    case Completed(_, _) => 100
    case _ => m.progressPercent
  }

  /** What one of its events makes of a mission. */
  function Applied(m: ActiveMission, e: MissionEvent): ActiveMission {
    var k := e.kind;
    m.(updatedAt := e.ts,
       lifecycle := LifecycleAfter(m, k),
       statusLine := StatusAfter(m, e),
       progressPercent := ProgressAfter(m, k),
       tasks := TasksAfter(m, k),
       workers := WorkersAfter(m, k),
       attention := AttentionAfter(m, e),
       testsPassed := if k.TestsReported? then Some(k.passed) else m.testsPassed,
       completionSummary := if k.Completed? then Some(k.summary) else m.completionSummary,
       filesChanged := if k.Completed? then k.filesChanged else m.filesChanged,
       resolution := if k.MergeResolved? then Some(k.resolution) else m.resolution,
       restoredSha := if k.MissionReverted? then Some(k.sha) else m.restoredSha,
       abortReason := if k.Abort? then Some(k.reason) else m.abortReason,
       planGeneration := if k.PlanProposed? then k.generation else m.planGeneration,
       lastExtension := if k.MissionExtended? then Some((k.directive, e.ts)) else m.lastExtension,
       audit := if k.AuditCompleted? then Some(k.payload) else m.audit,
       verdict := if k.VerdictRendered? then k.parsed else m.verdict)
  }

  predicate Concerns(s: MissionsState, e: MissionEvent) {
    s.active.Some? && s.active.value.id == e.missionId
  }

  predicate ReopensOverlay(k: Kind) {
    k.MergeResolved? || k.MissionReverted? || k.Abort? || k.MissionExtended?
  }

  function Apply(s: MissionsState, e: MissionEvent): MissionsState {
    if e.kind.MissionCreated? then MissionsState(Some(Fresh(e)), false, s.repoCwd)
    else if !Concerns(s, e) then s
    else MissionsState(Some(Applied(s.active.value, e)), !ReopensOverlay(e.kind) && s.overlayDismissed, s.repoCwd)
  }

  function Fold(s: MissionsState, events: seq<MissionEvent>): MissionsState {
    if events == [] then s else Apply(Fold(s, events[..|events| - 1]), events[|events| - 1])
  }

  // ----- only the last mission's own events matter

  function Own(events: seq<MissionEvent>, mission: Id): seq<MissionEvent> {
    if events == [] then []
    else Own(events[..|events| - 1], mission)
         + if events[|events| - 1].missionId == mission then [events[|events| - 1]] else []
  }

  lemma FoldSnoc(s: MissionsState, events: seq<MissionEvent>, e: MissionEvent)
    ensures Fold(s, events + [e]) == Apply(Fold(s, events), e)
  {
  }

  lemma {:induction false} OwnEventsDecide(s: MissionsState, since: seq<MissionEvent>, mission: Id)
    requires s.active.Some? && s.active.value.id == mission && forall e :: e in since ==> !e.kind.MissionCreated?
    ensures Fold(s, since) == Fold(s, Own(since, mission))
    ensures Fold(s, since).active.Some? && Fold(s, since).active.value.id == mission
  {
    hide Applied;
    if since != [] {
      var before, e := since[..|since| - 1], since[|since| - 1];
      OwnEventsDecide(s, before, mission);
      assert e in since && forall x :: x in before ==> x in since;
      if e.missionId == mission {
        FoldSnoc(s, Own(before, mission), e);
        AppliedKeepsId(Fold(s, before).active.value, e);
      } else {
        assert Own(since, mission) == Own(before, mission);
      }
    }
  }

  lemma AppliedKeepsId(m: ActiveMission, e: MissionEvent)
    ensures Applied(m, e).id == m.id && Applied(m, e).startedAt == m.startedAt
  {
  }

  lemma {:induction false} FoldJoin(s: MissionsState, first: seq<MissionEvent>, second: seq<MissionEvent>)
    ensures Fold(s, first + second) == Fold(Fold(s, first), second)
  {
    hide Apply;
    if second == [] {
      assert first + second == first;
    } else {
      var before, e := second[..|second| - 1], second[|second| - 1];
      FoldJoin(s, first, before);
      assert first + second == (first + before) + [e];
      FoldSnoc(s, first + before, e);
    }
  }

  /**
   * However a trace began, what it leads to is decided by the last created mission's own events alone; only
   * the repository directory comes from before.
   */
  lemma LastMissionDecides(s: MissionsState, before: seq<MissionEvent>, created: MissionEvent, since: seq<MissionEvent>)
    requires created.kind.MissionCreated? && forall e :: e in since ==> !e.kind.MissionCreated?
    ensures Fold(s, before + [created] + since)
         == Fold(MissionsState(Some(Fresh(created)), false, Fold(s, before).repoCwd), Own(since, created.missionId))
  {
    hide Applied;
    FoldJoin(s, before + [created], since);
    FoldSnoc(s, before, created);
    OwnEventsDecide(Apply(Fold(s, before), created), since, created.missionId);
  }

  lemma {:induction false} CwdStays(s: MissionsState, events: seq<MissionEvent>)
    ensures Fold(s, events).repoCwd == s.repoCwd
  {
    hide Applied, Fresh;
    if events != [] {
      CwdStays(s, events[..|events| - 1]);
    }
  }

  // ----- attention

  ghost predicate Has(items: seq<AttentionItem>, kind: AttentionKind) {
    exists i :: 0 <= i < |items| && items[i].kind == kind
  }

  ghost predicate OnePerKind(items: seq<AttentionItem>) {
    forall i, j :: 0 <= i < j < |items| ==> items[i].kind != items[j].kind
  }

  lemma {:induction false} WithoutMeans(items: seq<AttentionItem>, kind: AttentionKind)
    requires OnePerKind(items)
    ensures OnePerKind(Without(items, kind)) && !Has(Without(items, kind), kind)
    ensures forall other :: other != kind ==> (Has(Without(items, kind), other) <==> Has(items, other))
  {
    if items != [] {
      var rest, last := items[..|items| - 1], items[|items| - 1];
      WithoutMeans(rest, kind);
      HasSnoc(rest, last);
      HasSnoc(Without(rest, kind), last);
      assert items == rest + [last];
      assert !Has(rest, last.kind);
      if last.kind != kind {
        assert !Has(Without(rest, kind), last.kind);
      }
    }
  }

  lemma HasSnoc(items: seq<AttentionItem>, item: AttentionItem)
    ensures forall kind :: Has(items + [item], kind) <==> Has(items, kind) || item.kind == kind
  {
    forall kind ensures Has(items + [item], kind) <==> Has(items, kind) || item.kind == kind {
      assert (items + [item])[|items|] == item;
      if Has(items, kind) {
        var i :| 0 <= i < |items| && items[i].kind == kind;
        assert (items + [item])[i] == items[i];
      }
    }
  }

  lemma UpsertedMeans(items: seq<AttentionItem>, item: AttentionItem)
    requires OnePerKind(items)
    ensures OnePerKind(Upserted(items, item))
    ensures forall kind :: Has(Upserted(items, item), kind) <==> Has(items, kind) || kind == item.kind
  {
    WithoutMeans(items, item.kind);
    HasSnoc(Without(items, item.kind), item);
    var kept := Without(items, item.kind);
    forall i | 0 <= i < |kept| ensures kept[i].kind != item.kind {
      assert !Has(kept, item.kind);
    }
  }

  /** Items are one of a kind, and a mission that waits says what it waits for. */
  ghost predicate AttentionFits(m: ActiveMission) {
    && OnePerKind(m.attention)
    && (m.lifecycle == Paused ==> Has(m.attention, AttentionKind.MissionPaused))
    && (m.lifecycle == CompletePendingMerge ==> Has(m.attention, MissionComplete))
    && (m.lifecycle == Aborted ==> Has(m.attention, AttentionKind.MissionAborted))
    && 0 <= m.progressPercent <= 100
  }

  lemma QuotientBelow(n: nat, divisor: nat, bound: nat)
    requires divisor > 0 && n < bound * divisor
    ensures 0 <= n / divisor < bound
  {
    assert n == n / divisor * divisor + n % divisor;
    TimesKeepsOrder(n / divisor, bound, divisor);
  }

  lemma TimesKeepsOrder(a: nat, b: nat, factor: nat)
    ensures a >= b ==> a * factor >= b * factor
  {
  }

  lemma PercentInRange(part: nat, whole: nat)
    requires part <= whole
    ensures 0 <= Percent(part, whole) <= 100
  {
    if whole > 0 {
      QuotientBelow(200 * part + whole, 2 * whole, 101);
    }
  }

  /** Events that put an item before the user. */
  predicate Surfaces(k: Kind) {
    || k.Completed? || k.Abort? || (k.ArbiterDecided? && Truthy(k.bound))
    || k.SideEffect? || k.SubSupervisor? || k.MissionPausedFor?
  }

  lemma AttentionStep(m: ActiveMission, e: MissionEvent)
    requires OnePerKind(m.attention)
    ensures OnePerKind(AttentionAfter(m, e))
    ensures e.kind.MissionPausedFor? ==> Has(AttentionAfter(m, e), AttentionKind.MissionPaused)
    ensures e.kind.Completed? ==> Has(AttentionAfter(m, e), MissionComplete)
    ensures e.kind.Abort? ==> Has(AttentionAfter(m, e), AttentionKind.MissionAborted)
    ensures forall kind :: Has(m.attention, kind) ==>
              || Has(AttentionAfter(m, e), kind) || LifecycleAfter(m, e.kind) in [Merged, Discarded, Extended, Reverted]
              || (e.kind.MissionResumed? && kind == AttentionKind.MissionPaused)
  {
    hide Has, Without;
    var after := AttentionAfter(m, e);
    if e.kind.MissionResumed? {
      WithoutMeans(m.attention, AttentionKind.MissionPaused);
    } else if Surfaces(e.kind) {
      UpsertedMeans(m.attention, after[|after| - 1]);
      assert after == Upserted(m.attention, after[|after| - 1]);
    }
  }

  lemma AppliedFits(m: ActiveMission, e: MissionEvent)
    requires AttentionFits(m)
    ensures AttentionFits(Applied(m, e))
  {
    hide Has, OnePerKind, AttentionAfter, Percent, StatusAfter, WorkersAfter, TasksAfter;
    AttentionStep(m, e);
    var tasks := TasksAfter(m, e.kind);
    PercentInRange(IntegratedCount(tasks), |tasks|);
  }

  const NO_MISSION := MissionsState(None, false, None)

  /** In every reachable state there is one attention item per kind, and a waiting mission has the one it needs. */
  lemma {:induction false} WaitingHasAttention(events: seq<MissionEvent>)
    ensures var s := Fold(NO_MISSION, events); s.active.Some? ==> AttentionFits(s.active.value)
  {
    hide Applied, AttentionFits;
    if events != [] {
      var before, e := events[..|events| - 1], events[|events| - 1];
      WaitingHasAttention(before);
      FreshFits(e);
      if Concerns(Fold(NO_MISSION, before), e) {
        AppliedFits(Fold(NO_MISSION, before).active.value, e);
      }
    }
  }

  lemma FreshFits(e: MissionEvent)
    ensures AttentionFits(Fresh(e))
  {
  }
}
