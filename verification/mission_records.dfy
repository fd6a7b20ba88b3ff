/**
 * The mission reducer as it runs: the mission, its list of tasks and its table of workers are copied for each
 * event, but not the worker records in that table. The reducer writes to records that the earlier state still
 * points to.
 */
module MissionRecords {
  import opened OpsTypes
  import opened Missions

  /** A worker's record, written where it is. */
  class WorkerRecord {
    const id: Id
    const taskIndex: int
    const taskTitle: string
    var status: WorkerStatus
    var latestProgress: Option<string>
    var submittedFiles: seq<string>

    constructor (id: Id, taskIndex: int, taskTitle: string)
      ensures Value() == MissionWorker(id, taskIndex, taskTitle, Spawned, None, [])
    {
      this.id, this.taskIndex, this.taskTitle := id, taskIndex, taskTitle;
      status, latestProgress, submittedFiles := Spawned, None, [];
    }

    function Value(): MissionWorker
      reads this
    {
      MissionWorker(id, taskIndex, taskTitle, status, latestProgress, submittedFiles)
    }
  }

  /** A mission as the store holds it: its workers are in `records`, by reference. */
  datatype Held = Held(mission: ActiveMission, records: map<Id, WorkerRecord>)

  ghost predicate Separate(h: Held) {
    && h.mission.workers == map[]
    && (forall v, w :: v in h.records && w in h.records && v != w ==> h.records[v] != h.records[w])
  }

  function Look(h: Held): ActiveMission
    reads h.records.Values
  {
    h.mission.(workers := map w | w in h.records :: h.records[w].Value())
  }

  // ----- what an event does to the earlier state

  /** The record says already what the event would write into it. */
  predicate SaysAlready(w: MissionWorker, k: Kind) {
    match k
    case WorkerProgress(_, note) => w.latestProgress == Some(note) && w.status != Spawned
    case ResultSubmitted(_, files) => w.status == Submitted && w.submittedFiles == files
    case ReviewStarted(_) => w.status == WorkerUnderReview
    case SubtaskIntegrated(_, _, _) => w.status == WorkerIntegrated
    case ArbiterDecided(_, _, _) => w.status == WorkerFailed
    case _ => true
  }

  /** The event is about a known worker, and its record does not say so already. */
  predicate Disturbs(m: ActiveMission, k: Kind) {
    Subject(m, k).Some? && !SaysAlready(m.workers[Subject(m, k).value], k)
  }

  /** What reading the earlier state gives once the event has been applied. */
  function Disturbed(m: ActiveMission, k: Kind): ActiveMission {
    match Subject(m, k)
    case Some(w) => m.(workers := m.workers[w := Rewritten(m.workers[w], k)])
    case None => m
  }

  /** Applying an event leaves the earlier state as it was if and only if the record says already what it writes. */
  lemma EarlierStateKeptIff(m: ActiveMission, k: Kind)
    ensures Disturbed(m, k) == m <==> !Disturbs(m, k)
  {
    if Subject(m, k).Some? {
      var w := Subject(m, k).value;
      assert Disturbed(m, k).workers[w] == Rewritten(m.workers[w], k);
    }
  }

  /** After one record was written, a state that holds it reads as before but for that worker. */
  lemma WroteOne(h: Held, w: Id, before: ActiveMission)
    requires w in h.records && before.workers.Keys == h.records.Keys
    requires before.(workers := map[]) == h.mission.(workers := map[])
    requires forall v :: v in h.records && v != w ==> h.records[v].Value() == before.workers[v]
    ensures Look(h) == before.(workers := before.workers[w := h.records[w].Value()])
  {
  }

  /** A record put into a copy of the table. */
  lemma AddedOne(h: Held, m: ActiveMission, w: Id, record: WorkerRecord)
    ensures Look(Held(m, h.records[w := record])) == m.(workers := Look(h).workers[w := record.Value()])
  {
  }

  // ----- events about a worker

  method SpawnWorker(h: Held, e: MissionEvent) returns (next: Held)
    requires Separate(h) && e.kind.WorkerSpawned?
    ensures Separate(next) && Look(next) == Applied(Look(h), e)
    ensures Look(h) == Disturbed(Look(h), e.kind) && fresh(next.records.Values - h.records.Values)
    ensures forall w :: w in h.records && w != e.kind.workerId ==> w in next.records && next.records[w] == h.records[w]
  {
    ghost var before := Look(h);
    var m := h.mission.(updatedAt := e.ts);
    var worker := new WorkerRecord(e.kind.workerId, e.kind.taskIndex, e.kind.taskTitle);
    var task := FirstAt(m.tasks, e.kind.taskIndex);
    if task >= 0 {
      m := m.(tasks := m.tasks[task := m.tasks[task].(status := InProgress, assignedTo := Some(e.kind.workerId))]);
    }
    m := m.(statusLine := "Spawned worker on \"" + e.kind.taskTitle + "\"", lifecycle := Lifecycle.Executing);
    next := Held(m, h.records[e.kind.workerId := worker]);
    assert Look(h) == before;
    AddedOne(h, m, e.kind.workerId, worker);
    hide Look;
  }

  method NoteProgress(h: Held, e: MissionEvent) returns (next: Held)
    requires Separate(h) && e.kind.WorkerProgress?
    modifies h.records.Values
    ensures next.records == h.records && Separate(next) && Look(next) == Applied(old(Look(h)), e)
    ensures Look(h) == Disturbed(old(Look(h)), e.kind)
  {
    ghost var before := Look(h);
    var m := h.mission.(updatedAt := e.ts);
    if e.kind.workerId in h.records {
      var worker := h.records[e.kind.workerId];
      worker.latestProgress := Some(e.kind.note);
      worker.status := if worker.status == Spawned then Working else worker.status;
      if m.lifecycle != Attention {
        m := m.(statusLine := e.kind.note);
      }
      WroteOne(h, e.kind.workerId, before);
    }
    next := Held(m, h.records);
  }

  method SubmitResult(h: Held, e: MissionEvent) returns (next: Held)
    requires Separate(h) && e.kind.ResultSubmitted?
    modifies h.records.Values
    ensures next.records == h.records && Separate(next) && Look(next) == Applied(old(Look(h)), e)
    ensures Look(h) == Disturbed(old(Look(h)), e.kind)
  {
    ghost var before := Look(h);
    var m := h.mission.(updatedAt := e.ts);
    var title := "submission";
    if e.kind.workerId in h.records {
      var worker := h.records[e.kind.workerId];
      worker.status := Submitted;
      worker.submittedFiles := e.kind.files;
      title := worker.taskTitle;
      WroteOne(h, e.kind.workerId, before);
    }
    if m.lifecycle != Attention {
      m := m.(statusLine := "Reviewing \"" + title + "\"");
    }
    next := Held(m, h.records);
  }

  method StartReview(h: Held, e: MissionEvent) returns (next: Held)
    requires Separate(h) && e.kind.ReviewStarted?
    modifies h.records.Values
    ensures next.records == h.records && Separate(next) && Look(next) == Applied(old(Look(h)), e)
    ensures Look(h) == Disturbed(old(Look(h)), e.kind)
  {
    ghost var before := Look(h);
    var m := h.mission.(updatedAt := e.ts);
    if e.kind.workerId in h.records {
      var worker := h.records[e.kind.workerId];
      worker.status := WorkerUnderReview;
      WroteOne(h, e.kind.workerId, before);
    }
    if m.lifecycle != Attention {
      m := m.(lifecycle := UnderReview);
    }
    next := Held(m, h.records);
  }

  method Integrate(h: Held, e: MissionEvent) returns (next: Held)
    requires Separate(h) && e.kind.SubtaskIntegrated?
    modifies h.records.Values
    ensures next.records == h.records && Separate(next) && Look(next) == Applied(old(Look(h)), e)
    ensures Look(h) == Disturbed(old(Look(h)), e.kind)
  {
    ghost var before := Look(h);
    var m := h.mission.(updatedAt := e.ts);
    if e.kind.workerId in h.records {
      var worker := h.records[e.kind.workerId];
      worker.status := WorkerIntegrated;
      var n := FirstAt(m.tasks, worker.taskIndex);
      if n >= 0 {
        var task := m.tasks[n];
        task := task.(status := TaskIntegrated);
        task := task.(integrationSha := Some(e.kind.sha));
        task := task.(snapshotTag := Some(e.kind.tag));
        m := m.(tasks := m.tasks[n := task]);
      }
      WroteOne(h, e.kind.workerId, before);
    }
    var integrated := IntegratedCount(m.tasks);
    m := m.(progressPercent := Percent(integrated, |m.tasks|));
    if m.lifecycle != Attention {
      m := m.(statusLine := "Integrated " + Digits(integrated) + "/" + Digits(|m.tasks|));
      m := m.(lifecycle := Lifecycle.Executing);
    }
    next := Held(m, h.records);
  }

  /** The worker has failed, and so has its task unless that is integrated already. */
  method GiveUp(h: Held, e: MissionEvent) returns (m: ActiveMission)
    requires Separate(h) && GivesUp(e.kind)
    modifies h.records.Values
    ensures m == h.mission.(updatedAt := e.ts, tasks := TasksAfter(old(Look(h)), e.kind))
    ensures Look(h) == Disturbed(old(Look(h)), e.kind)
  {
    ghost var before := Look(h);
    m := h.mission.(updatedAt := e.ts);
    if e.kind.workerId in h.records {
      var worker := h.records[e.kind.workerId];
      worker.status := WorkerFailed;
      var n := FirstAt(m.tasks, worker.taskIndex);
      if n >= 0 && m.tasks[n].status != TaskIntegrated {
        m := m.(tasks := m.tasks[n := m.tasks[n].(status := TaskFailed)]);
      }
      WroteOne(h, e.kind.workerId, before);
    }
  }

  method DecideByArbiter(h: Held, e: MissionEvent) returns (next: Held)
    requires Separate(h) && e.kind.ArbiterDecided?
    modifies h.records.Values
    ensures next.records == h.records && Separate(next) && Look(next) == Applied(old(Look(h)), e)
    ensures Look(h) == Disturbed(old(Look(h)), e.kind)
  {
    var m := h.mission.(updatedAt := e.ts);
    if Truthy(e.kind.bound) {
      m := GiveUp(h, e);
      var title := if e.kind.workerId in h.records then h.records[e.kind.workerId].taskTitle else e.kind.workerId;
      var summary := "Escalation (" + e.kind.bound.value + ") on \"" + title + "\"";
      m := m.(statusLine := summary);
      m := m.(attention := Upserted(m.attention, AttentionItem(ArbiterEscalation, true, summary, e.ts, None)));
    } else if e.kind.scrub {
      m := GiveUp(h, e);
    }
    next := Held(m, h.records);
  }

  // ----- events about the mission as a whole

  /** Events that neither read nor write a worker's record. */
  predicate Plain(k: Kind) {
    && !k.MissionCreated? && !k.WorkerSpawned? && !k.WorkerProgress? && !k.ResultSubmitted?
    && !k.ReviewStarted? && !k.SubtaskIntegrated? && !k.ArbiterDecided?
  }

  predicate AboutPlan(k: Kind) {
    || k.ExecutionStarted? || k.Decomposition? || k.DecompositionRejected? || k.PlanProposed? || k.PlanConfirmed?
    || k.PlanRegenerationRequested?
  }

  predicate AboutEnd(k: Kind) {
    k.Completed? || k.MergeResolved? || k.MissionReverted? || k.Abort? || k.MissionExtended?
  }

  lemma PlainKeepsWorkers(m: ActiveMission, workers: map<Id, MissionWorker>, e: MissionEvent)
    requires Plain(e.kind)
    ensures Applied(m.(workers := workers), e) == Applied(m, e).(workers := workers)
  {
  }

  method ApplyPlanEvent(mission: ActiveMission, e: MissionEvent) returns (m: ActiveMission)
    requires AboutPlan(e.kind)
    ensures m == Applied(mission, e)
  {
    m := mission.(updatedAt := e.ts);
    match e.kind
    case ExecutionStarted =>
      m := m.(lifecycle := Lifecycle.Executing);
      m := m.(statusLine := "Team starting…");
    case Decomposition(planned) =>
      m := m.(tasks := FromPlan(planned));
      var plural := if |m.tasks| == 1 then "" else "s";
      m := m.(statusLine := "Team is planning " + Digits(|m.tasks|) + " task" + plural);
    case DecompositionRejected =>
      m := m.(statusLine := "Decomposition rejected by orchestrator");
    case PlanProposed(proposed, generation) =>
      m := m.(tasks := FromPlan(proposed));
      m := m.(lifecycle := PendingPlanApproval);
      m := m.(planGeneration := generation);
      m := m.(statusLine := "Awaiting plan approval");
    case PlanConfirmed =>
      m := m.(lifecycle := Lifecycle.Executing);
      m := m.(statusLine := "Plan confirmed — workers starting");
    case PlanRegenerationRequested =>
      m := m.(statusLine := "Regenerating plan…");
  }

  method ApplyEndEvent(mission: ActiveMission, e: MissionEvent) returns (m: ActiveMission)
    requires AboutEnd(e.kind)
    ensures m == Applied(mission, e)
  {
    hide Upserted;
    m := mission.(updatedAt := e.ts);
    match e.kind
    case Completed(summary, filesChanged) =>
      m := m.(lifecycle := CompletePendingMerge);
      m := m.(completionSummary := Some(summary));
      m := m.(filesChanged := filesChanged);
      m := m.(progressPercent := 100);
      m := m.(statusLine := "Mission complete — awaiting your decision");
      m := m.(attention := Upserted(m.attention, AttentionItem(MissionComplete, false, summary, e.ts, None)));
    case MergeResolved(resolution) =>
      m := m.(resolution := Some(resolution));
      m := m.(lifecycle := ResolutionLifecycle(resolution));
      m := m.(statusLine := ResolutionStatusLine(resolution));
      m := m.(attention := []);
    case MissionReverted(sha) =>
      m := m.(lifecycle := Reverted);
      m := m.(restoredSha := Some(sha));
      m := m.(statusLine := "Merged changes reverted · restored SHA " + sha);
      m := m.(attention := []);
    case Abort(reason) =>
      m := m.(lifecycle := Aborted);
      m := m.(abortReason := Some(reason));
      m := m.(statusLine := "Aborted: " + reason);
      var item := AttentionItem(AttentionKind.MissionAborted, true, reason, e.ts, None);
      m := m.(attention := Upserted(m.attention, item));
    case MissionExtended(directive) =>
      m := m.(lastExtension := Some((directive, e.ts)));
      m := m.(lifecycle := Extended);
      m := m.(attention := []);
  }

  method ApplyNotice(mission: ActiveMission, e: MissionEvent) returns (m: ActiveMission)
    requires Plain(e.kind) && !AboutPlan(e.kind) && !AboutEnd(e.kind)
    ensures m == Applied(mission, e)
  {
    m := mission.(updatedAt := e.ts);
    match e.kind
    case TestsReported(passed) =>
      m := m.(testsPassed := Some(passed));
    case AttentionReady =>
      m := m.(lifecycle := Attention);
      m := m.(statusLine := SummaryOf(m.attention, ArbiterEscalation).GetOr("Mission needs your decision"));
    case SideEffect(what) =>
      m := m.(attention := Upserted(m.attention, AttentionItem(SideEffectLogged, false, what, e.ts, None)));
    case SubSupervisor(what) =>
      m := m.(attention := Upserted(m.attention, AttentionItem(SubSupervisorRefused, false, what, e.ts, None)));
    case AuditCompleted(payload) =>
      m := m.(audit := Some(payload));
    case VerdictRendered(parsed) =>
      m := m.(verdict := parsed);
    case MissionPausedFor(vendor, resumeAt) =>
      var who := if Truthy(vendor) then vendor.value + " quota" else "vendor quota";
      m := m.(lifecycle := Paused);
      m := m.(statusLine := "Paused — waiting on " + who);
      var summary := "Paused — waiting on " + who + " to reopen";
      var item := AttentionItem(AttentionKind.MissionPaused, false, summary, e.ts, Some(resumeAt));
      m := m.(attention := Upserted(m.attention, item));
    case MissionResumed(vendor) =>
      m := m.(lifecycle := Lifecycle.Executing);
      m := m.(statusLine := "Resumed — " + vendor + " quota reopened");
      m := m.(attention := Without(m.attention, AttentionKind.MissionPaused));
    case OtherKind =>
  }

  method ApplyPlain(h: Held, e: MissionEvent) returns (next: Held)
    requires Separate(h) && Plain(e.kind)
    ensures next.records == h.records && Separate(next) && Look(next) == Applied(Look(h), e)
    ensures Look(h) == Disturbed(Look(h), e.kind)
  {
    var m;
    if AboutPlan(e.kind) {
      m := ApplyPlanEvent(h.mission, e);
    } else if AboutEnd(e.kind) {
      m := ApplyEndEvent(h.mission, e);
    } else {
      m := ApplyNotice(h.mission, e);
    }
    PlainKeepsWorkers(h.mission, Look(h).workers, e);
    PlainKeepsWorkers(h.mission, map[], e);
    hide Applied;
    next := Held(m, h.records);
  }

  // ----- the reducer

  predicate Spawns(e: MissionEvent, w: Id) {
    e.kind.WorkerSpawned? && e.kind.workerId == w
  }

  /** One event of the mission: the new state is right, and the earlier one changes if and only if it is disturbed. */
  method ApplyInPlace(h: Held, e: MissionEvent) returns (next: Held)
    requires Separate(h) && !e.kind.MissionCreated?
    modifies h.records.Values
    ensures Separate(next) && Look(next) == Applied(old(Look(h)), e)
    ensures Look(h) == Disturbed(old(Look(h)), e.kind)
    ensures Look(h) == old(Look(h)) <==> !Disturbs(old(Look(h)), e.kind)
    ensures fresh(next.records.Values - h.records.Values)
    ensures forall w :: w in h.records && !Spawns(e, w) ==> w in next.records && next.records[w] == h.records[w]
  {
    EarlierStateKeptIff(Look(h), e.kind);
    hide Look, Separate, Applied, Disturbs, Disturbed;
    match e.kind
    case WorkerSpawned(_, _, _) => next := SpawnWorker(h, e);
    case WorkerProgress(_, _) => next := NoteProgress(h, e);
    case ResultSubmitted(_, _) => next := SubmitResult(h, e);
    case ReviewStarted(_) => next := StartReview(h, e);
    case SubtaskIntegrated(_, _, _) => next := Integrate(h, e);
    case ArbiterDecided(_, _, _) => next := DecideByArbiter(h, e);
    case _ => next := ApplyPlain(h, e);
  }

  /** A mission after some of its events. */
  function AppliedAll(m: ActiveMission, events: seq<MissionEvent>): ActiveMission {
    if events == [] then m else Applied(AppliedAll(m, events[..|events| - 1]), events[|events| - 1])
  }

  /**
   * However many events later, an earlier state reads the newest record of every worker that has not been spawned
   * again since: it is no record of what was.
   */
  method ApplyAllInPlace(h: Held, events: seq<MissionEvent>) returns (next: Held)
    requires Separate(h) && forall e :: e in events ==> !e.kind.MissionCreated?
    modifies h.records.Values
    ensures Separate(next) && Look(next) == AppliedAll(old(Look(h)), events)
    ensures forall w :: w in h.records && (forall e :: e in events ==> !Spawns(e, w)) ==>
              w in next.records && Look(h).workers[w] == Look(next).workers[w]
  {
    hide Applied, Separate, Disturbs, Disturbed;
    next := h;
    for i := 0 to |events|
      invariant Separate(next) && Look(next) == AppliedAll(old(Look(h)), events[..i])
      invariant fresh(next.records.Values - h.records.Values)
      invariant forall w :: w in h.records && (forall e :: e in events[..i] ==> !Spawns(e, w)) ==>
                  w in next.records && next.records[w] == h.records[w]
    {
      assert events[..i + 1][..i] == events[..i] && events[i] in events[..i + 1];
      assert forall e :: e in events[..i] ==> e in events[..i + 1];
      next := ApplyInPlace(next, events[i]);
    }
    assert events[..|events|] == events;
  }

  // ----- the whole state

  datatype HeldState = HeldState(active: Option<Held>, overlayDismissed: bool, repoCwd: Option<string>)

  function Records(s: HeldState): set<WorkerRecord> {
    if s.active.Some? then s.active.value.records.Values else {}
  }

  function LookState(s: HeldState): MissionsState
    reads Records(s)
  {
    MissionsState(if s.active.Some? then Some(Look(s.active.value)) else None, s.overlayDismissed, s.repoCwd)
  }

  ghost predicate SeparateState(s: HeldState) {
    s.active.Some? ==> Separate(s.active.value)
  }

  ghost predicate DisturbsState(s: MissionsState, e: MissionEvent) {
    !e.kind.MissionCreated? && Concerns(s, e) && Disturbs(s.active.value, e.kind)
  }

  method ApplyMissionEvent(s: HeldState, e: MissionEvent) returns (t: HeldState)
    requires SeparateState(s)
    modifies Records(s)
    ensures SeparateState(t) && LookState(t) == Apply(old(LookState(s)), e) && fresh(Records(t) - Records(s))
    ensures LookState(s) == old(LookState(s)) <==> !DisturbsState(old(LookState(s)), e)
  {
    hide Applied, Disturbs, Disturbed, Separate;
    if e.kind.MissionCreated? {
      var h := Held(Fresh(e), map[]);
      assert Look(h) == Fresh(e);
      assert Separate(h) by {
        FreshIsSeparate(e);
      }
      t := HeldState(Some(h), false, s.repoCwd);
    } else if s.active.None? || s.active.value.mission.id != e.missionId {
      t := s;
    } else {
      var next := ApplyInPlace(s.active.value, e);
      t := HeldState(Some(next), !ReopensOverlay(e.kind) && s.overlayDismissed, s.repoCwd);
    }
  }

  lemma FreshIsSeparate(e: MissionEvent)
    ensures Separate(Held(Fresh(e), map[]))
  {
  }

  function OnSpawn(mission: Id, worker: Id, index: int, title: string): seq<MissionEvent> {
    [MissionEvent(mission, 0, MissionCreated), MissionEvent(mission, 1, WorkerSpawned(worker, index, title))]
  }

  /** A spawned worker's first progress report disturbs the state before it. */
  lemma ProgressDisturbs(mission: Id, worker: Id, index: int, title: string, note: string)
    ensures var s := Fold(NO_MISSION, OnSpawn(mission, worker, index, title));
      && DisturbsState(s, MissionEvent(mission, 2, WorkerProgress(worker, note)))
      && worker in s.active.value.workers
      && s.active.value.workers[worker] == MissionWorker(worker, index, title, Spawned, None, [])
  {
    var events := OnSpawn(mission, worker, index, title);
    assert events[..1] == [events[0]] && events[..1][..0] == [];
    assert Fold(NO_MISSION, events[..1]) == Apply(NO_MISSION, events[0]);
  }

  /** A state kept from before that report shows the report. */
  method KeepThenProgress(mission: Id, worker: Id, index: int, title: string, note: string)
    returns (kept: HeldState, asItWas: MissionsState)
    ensures asItWas == Fold(NO_MISSION, OnSpawn(mission, worker, index, title))
    ensures LookState(kept) != asItWas
  {
    hide Applied, Disturbs, Separate, Look;
    var events := OnSpawn(mission, worker, index, title);
    var s := HeldState(None, false, None);
    s := ApplyMissionEvent(s, events[0]);
    kept := ApplyMissionEvent(s, events[1]);
    asItWas := LookState(kept);
    assert events[..1] == [events[0]] && events[..1][..0] == [];
    assert Fold(NO_MISSION, events[..1]) == Apply(NO_MISSION, events[0]);
    ProgressDisturbs(mission, worker, index, title, note);
    var _ := ApplyMissionEvent(kept, MissionEvent(mission, 2, WorkerProgress(worker, note)));
  }
}
