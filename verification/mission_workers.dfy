/** What mission progress leaves in the workers of a mission. */
module MissionProgress {
  import opened OpsTypes
  import opened World
  import C = Counters
  import H = History
  import R = Reducer

  /** An update and the time at which it is applied. */
  datatype Timed = Timed(update: Update, now: int)

  function Updated(o: Ops, id: Id, updates: seq<Timed>): Ops {
    if updates == [] then o
    else
      var last := updates[|updates| - 1];
      UpdateMission(Updated(o, id, updates[..|updates| - 1]), id, last.update, last.now)
  }

  function Entries(updates: seq<Timed>): seq<TimelineEntry> {
    if updates == [] then [] else Entries(updates[..|updates| - 1]) + [updates[|updates| - 1].update.timeline]
  }

  function LatestOr<T>(updates: seq<Timed>, said: Update -> Option<T>, before: Option<T>): Option<T> {
    if updates == [] then before
    else OrElse(said(updates[|updates| - 1].update), LatestOr(updates[..|updates| - 1], said, before))
  }

  function StateAfter(updates: seq<Timed>, before: WorkerState): WorkerState {
    LatestOr(updates, (u: Update) => u.state, Some(before)).GetOr(before)
  }

  /** The update at this position finishes the worker's work: it was open, and is now done. */
  predicate LocksIn(updates: seq<Timed>, before: WorkerState, n: int) {
    0 <= n < |updates| && updates[n].update.state == Some(Done) && !StateAfter(updates[..n], before).Terminal()
  }

  /** The worker flashes from the last update that finished it, or as before if none did. */
  ghost predicate FlashesSince(updates: seq<Timed>, before: Worker, flashUntil: int) {
    && (forall n :: LocksIn(updates, before.state, n) && (forall m :: n < m ==> !LocksIn(updates, before.state, m)) ==>
          flashUntil == updates[n].now + FLASH_MS)
    && ((forall n :: !LocksIn(updates, before.state, n)) ==> flashUntil == before.flashUntil)
  }

  lemma UpdateOne(o: Ops, id: Id, u: Update, now: int)
    requires id in o.workers && o.workers[id].mission.scoped
    ensures UpdateMission(o, id, u, now)
         == o.(workers := o.workers[id := UpdatedWorker(o.workers[id], u, now)],
               activeCount := o.activeCount
                              + R.ActiveDelta(o.workers[id].state, UpdatedWorker(o.workers[id], u, now).state),
               totalEvents := o.totalEvents + 1)
    ensures UpdatedWorker(o.workers[id], u, now).mission.scoped
  {
  }

  lemma ActiveDeltaAdds(a: WorkerState, b: WorkerState, c: WorkerState)
    ensures R.ActiveDelta(a, b) + R.ActiveDelta(b, c) == R.ActiveDelta(a, c)
  {
  }

  lemma LocksInEarlier(updates: seq<Timed>, last: Timed, before: WorkerState)
    ensures forall n :: n != |updates| ==> (LocksIn(updates + [last], before, n) <==> LocksIn(updates, before, n))
    ensures LocksIn(updates + [last], before, |updates|)
       <==> last.update.state == Some(Done) && !StateAfter(updates, before).Terminal()
  {
    forall n | 0 <= n <= |updates| ensures (updates + [last])[..n] == updates[..n] {
    }
    assert updates[..|updates|] == updates;
  }

  lemma FlashesOn(updates: seq<Timed>, last: Timed, before: Worker, w: Worker)
    requires FlashesSince(updates, before, w.flashUntil) && w.state == StateAfter(updates, before.state)
    ensures FlashesSince(updates + [last], before, UpdatedWorker(w, last.update, last.now).flashUntil)
  {
    LocksInEarlier(updates, last, before.state);
    var now := LocksIn(updates + [last], before.state, |updates|);
    assert now <==> last.update.state.GetOr(w.state) == Done && !w.state.Terminal();
    hide StateAfter, LocksIn;
    if now {
      assert !(forall n :: !LocksIn(updates + [last], before.state, n));
    } else {
      assert forall n :: LocksIn(updates + [last], before.state, n) <==> LocksIn(updates, before.state, n);
    }
  }

  /**
   * A run of updates to one mission worker, each at its own time: the last hundred timeline entries stay, every
   * update is counted, the worker shows the latest state, note, summaries and number of changed files that it was
   * given, and flashes since it was last finished.
   */
  lemma {:induction false} UpdatesMean(o: Ops, id: Id, updates: seq<Timed>)
    requires id in o.workers && o.workers[id].mission.scoped && |o.workers[id].mission.timeline| <= MAX_TIMELINE
    ensures var before, after := o.workers[id], Updated(o, id, updates);
      && id in after.workers && after.workers[id].mission.scoped
      && after.workers[id].mission.timeline == Last(before.mission.timeline + Entries(updates), 100)
      && after.workers[id].eventCount == before.eventCount + |updates|
      && after.totalEvents == o.totalEvents + |updates|
      && after.activeCount == o.activeCount + R.ActiveDelta(before.state, after.workers[id].state)
      && Some(after.workers[id].state) == LatestOr(updates, (u: Update) => u.state, Some(before.state))
      && after.workers[id].progress.note == LatestOr(updates, (u: Update) => u.note, before.progress.note)
      && after.workers[id].completionSummary == LatestOr(updates, (u: Update) => u.completion, before.completionSummary)
      && after.workers[id].failureSummary == LatestOr(updates, (u: Update) => u.failure, before.failureSummary)
      && Some(after.workers[id].files.modified)
         == LatestOr(updates, (u: Update) => u.filesChanged, Some(before.files.modified))
      && FlashesSince(updates, before, after.workers[id].flashUntil)
      && var w := after.workers[id];
         && w == before.(state := w.state, progress := before.progress.(note := w.progress.note),
                         completionSummary := w.completionSummary, failureSummary := w.failureSummary,
                         files := before.files.(modified := w.files.modified), eventCount := w.eventCount,
                         mission := before.mission.(timeline := w.mission.timeline), flashUntil := w.flashUntil)
         && after == o.(workers := o.workers[id := w], activeCount := after.activeCount,
                        totalEvents := after.totalEvents)
  {
    hide UpdateMission, Last, LocksIn, FlashesSince, R.ActiveDelta;
    if updates == [] {
      assert o.workers[id].mission.timeline + [] == o.workers[id].mission.timeline;
      ShortIsLast(o.workers[id].mission.timeline);
      NothingFlashes(o.workers[id]);
      ActiveDeltaNone(o.workers[id].state);
    } else {
      var earlier, last := updates[..|updates| - 1], updates[|updates| - 1];
      UpdatesMean(o, id, earlier);
      var w := Updated(o, id, earlier).workers[id];
      UpdateOne(Updated(o, id, earlier), id, last.update, last.now);
      var timeline := o.workers[id].mission.timeline;
      H.LastOfLast(timeline + Entries(earlier), last.update.timeline, MAX_TIMELINE);
      assert timeline + Entries(updates) == (timeline + Entries(earlier)) + [last.update.timeline];
      FlashesOn(earlier, last, o.workers[id], w);
      assert earlier + [last] == updates;
      ActiveDeltaAdds(o.workers[id].state, w.state, UpdatedWorker(w, last.update, last.now).state);
    }
  }

  lemma NothingFlashes(w: Worker)
    ensures FlashesSince([], w, w.flashUntil)
  {
  }

  lemma ActiveDeltaNone(s: WorkerState)
    ensures R.ActiveDelta(s, s) == 0
  {
  }

  lemma ShortIsLast(timeline: seq<TimelineEntry>)
    requires |timeline| <= MAX_TIMELINE
    ensures Last(timeline, MAX_TIMELINE) == timeline
  {
  }

  // ----- finishing a mission

  lemma {:induction false} UpdateAllWorkers(o: Ops, ids: seq<Id>, u: Update, now: int)
    requires NoDuplicates(ids) && forall id :: id in ids ==> id in o.workers && o.workers[id].mission.scoped
    ensures UpdateAll(o, ids, u, now).workers.Keys == o.workers.Keys
    ensures forall id :: id in o.workers ==>
              UpdateAll(o, ids, u, now).workers[id]
                == if id in ids then UpdatedWorker(o.workers[id], u, now) else o.workers[id]
  {
    hide UpdatedWorker, UpdateMission;
    if ids != [] {
      var before, last := ids[..|ids| - 1], ids[|ids| - 1];
      assert ids == before + [last] && last !in before;
      UpdateAllWorkers(o, before, u, now);
      UpdateOne(UpdateAll(o, before, u, now), last, u, now);
    }
  }

  lemma FinishedWorker(w: Worker, state: WorkerState, at: TimelineEntry, now: int)
    requires state.Terminal()
    ensures var after := UpdatedWorker(w, FinalUpdate(state, at), now);
      && after.state == state && after.mission.id == w.mission.id
      && var text := Some(at.detail.GetOr(at.title));
         && after.progress.note == text
         && after.completionSummary == (if state == Done then text else w.completionSummary)
         && after.failureSummary == (if state == Done then w.failureSummary else text)
         && after.mission.timeline == Last(w.mission.timeline + [at], 100)
  {
  }

  /** Ending a mission leaves none of its workers unfinished, and every other worker as it was. */
  lemma FinishLeavesNoneOpen(o: Ops, mission: Id, state: WorkerState, at: TimelineEntry, now: int)
    requires C.Listed(o) && state.Terminal()
    ensures var after := FinishMission(o, mission, state, at, now);
      && after.workers.Keys == o.workers.Keys && OfMission(after, mission) == {}
      && (forall id :: id in OfMission(o, mission) ==>
            var w, text := after.workers[id], Some(at.detail.GetOr(at.title));
            && w.state == state && w.progress.note == text
            && w.completionSummary == (if state == Done then text else o.workers[id].completionSummary)
            && w.failureSummary == (if state == Done then o.workers[id].failureSummary else text)
            && w.mission.timeline == Last(o.workers[id].mission.timeline + [at], 100))
      && (forall id :: id in o.workers && id !in OfMission(o, mission) ==> after.workers[id] == o.workers[id])
  {
    var open := OfMission(o, mission);
    AmongKeeps(o.workerOrder, open);
    var ids, u := Among(o.workerOrder, open), FinalUpdate(state, at);
    UpdateAllWorkers(o, ids, u, now);
    hide UpdatedWorker, UpdateAll, Among;
    var after := FinishMission(o, mission, state, at, now);
    forall id | id in o.workers
      ensures id in open ==>
                && after.workers[id] == UpdatedWorker(o.workers[id], u, now) && after.workers[id].state == state
      ensures id !in open ==> after.workers[id] == o.workers[id]
    {
      FinishedWorker(o.workers[id], state, at, now);
      assert id in ids <==> id in open;
    }
    assert forall id :: id in after.workers ==> id !in OfMission(after, mission);
  }
}
