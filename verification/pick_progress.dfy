/** How a paging loop comes to its end: over a log that does not grow, after a bounded number of pages. */
module PickProgress {
  import opened OpsTypes
  import opened Store
  import opened Streams
  import opened PickSession
  import W = World
  import R = Reducer

  /** The loop has not ended, and nothing has overtaken it. */
  predicate Current(r: Room, id: nat) {
    id in r.picks && IsCurrent(r, r.picks[id])
  }

  /** The step takes up a page for this loop. */
  predicate Takes(r: Room, id: nat, step: RoomStep) {
    step == Resume(id) && Current(r, id) && r.picks[id].phase.Answered?
  }

  function Unread(r: Room, id: nat): int
    requires id in r.picks
  {
    |PickSession.Log(r, r.picks[id].worker)| - |r.store.replay.events|
  }

  /** The number of pages, full ones and a last short one, that a current loop can still take up. */
  function PagesLeft(r: Room, id: nat): int {
    if Current(r, id) then Unread(r, id) / REPLAY_PAGE_SIZE + 1 else 0
  }

  // ----- once overtaken, a loop never becomes current again

  /** Old picks keep what identifies them, and ended ones do not come back. */
  lemma PickStays(r: Room, step: RoomStep, id: nat)
    requires Inv(r) && id < r.nextPick
    ensures var after := NextRoom(r, step);
      && r.nextPick <= after.nextPick
      && (id in after.picks ==>
            && id in r.picks && after.picks[id].instance == r.picks[id].instance
            && after.picks[id].token == r.picks[id].token && after.picks[id].worker == r.picks[id].worker)
  {
    hide Next, Valid;
  }

  /** What a step does to the replay and to the tokens, as far as a loop can tell whether it is current. */
  lemma StandingStays(r: Room, step: RoomStep)
    requires Inv(r) && !step.Click?
    ensures var before, after := r.store.replay, NextRoom(r, step).store.replay;
      || (after.replaying == before.replaying && after.workerId == before.workerId) || after.workerId == None
    ensures var tokens := NextRoom(r, step).tokens;
      |r.tokens| <= |tokens| && forall i :: 0 <= i < |r.tokens| ==> r.tokens[i] <= tokens[i]
  {
    hide Next, Valid;
    match step
    case Unmount =>
      if r.mounted.Some? {
        BumpKeeps(r);
        ElsewhereIsCalm(Bump(r).store, FinishReplay);
      }
    case ExitButton =>
      if r.mounted.Some? {
        BumpKeeps(r);
        ElsewhereIsCalm(Bump(r).store, ExitReplay);
      }
    case Elsewhere(s) =>
      if !s.BeginReplay? && !s.AppendReplayPage? {
        ElsewhereIsCalm(r.store, s);
      }
    case Resume(id) =>
      if id in r.picks && !r.picks[id].phase.Asked? {
        ResumeStanding(r, id);
      }
    case _ =>
  }

  lemma ResumeStanding(r: Room, id: nat)
    requires Inv(r) && id in r.picks && !r.picks[id].phase.Asked?
    ensures Resumed(r, id).tokens == r.tokens
    ensures Resumed(r, id).store.replay.workerId == r.store.replay.workerId
    ensures Resumed(r, id).store.replay.replaying == r.store.replay.replaying
  {
    var p, ended := r.picks[id], r.(picks := r.picks - {id});
    if IsCurrent(r, p) {
      if p.phase.Refused? || p.phase.page == [] {
        FinishReplayPart(r.store);
      } else {
        RemoveKeeps(r, id);
        AppendedReplay(ended, p.worker, p.phase.page);
        AppendedReplay(r, p.worker, p.phase.page);
        FinishReplayPart(Appended(ended, p.worker, p.phase.page).store);
      }
    }
    hide Next, Valid, Appended;
  }

  lemma CurrentBefore(r: Room, step: RoomStep, id: nat)
    requires Inv(r) && id < r.nextPick && Current(NextRoom(r, step), id)
    ensures Current(r, id) && !step.Click?
  {
    PickStays(r, step, id);
    assert PickOk(r, r.picks[id]);
    if step.Click? {
      if r.mounted.Some? {
        ClickKeeps(r, step.worker);
        BumpKeeps(r);
      }
    } else {
      StandingStays(r, step);
    }
    hide Next, Valid;
  }

  // ----- every page taken up brings the end nearer

  /** The reply, if there is one, was given when the log was what it is now. */
  predicate UpToDate(r: Room, id: nat) {
    id in r.picks && r.picks[id].phase.Answered? ==>
      r.picks[id].phase.logged == |PickSession.Log(r, r.picks[id].worker)|
  }

  /** Only a current loop's own page extends the events on show. */
  lemma ResumeEvents(r: Room, other: nat, id: nat)
    requires Inv(r) && other in r.picks && !r.picks[other].phase.Asked? && Current(Resumed(r, other), id)
    requires Current(r, id)
    ensures |Resumed(r, other).store.replay.events|
         == |r.store.replay.events| + if Takes(r, id, Resume(other)) then REPLAY_PAGE_SIZE else 0
  {
    var p, ended := r.picks[other], r.(picks := r.picks - {other});
    if IsCurrent(r, p) {
      OneCurrent(r, id, other);
      assert PickOk(r, p);
      RemoveKeeps(r, other);
      if p.phase.Answered? {
        AppendedReplay(ended, p.worker, p.phase.page);
        AppendedReplay(r, p.worker, p.phase.page);
      }
    }
    hide Next, Valid, Appended;
  }

  lemma EventsStay(r: Room, step: RoomStep, id: nat)
    requires Inv(r) && Current(r, id) && Current(NextRoom(r, step), id)
    ensures |NextRoom(r, step).store.replay.events|
         == |r.store.replay.events| + if Takes(r, id, step) then REPLAY_PAGE_SIZE else 0
  {
    CurrentBefore(r, step, id);
    hide Next, Valid;
    match step
    case Unmount => if r.mounted.Some? { BumpKeeps(r); }
    case ExitButton => if r.mounted.Some? { BumpKeeps(r); }
    case Elsewhere(s) =>
      if !s.BeginReplay? && !s.AppendReplayPage? {
        ElsewhereIsCalm(r.store, s);
      }
    case Resume(other) =>
      if other in r.picks && !r.picks[other].phase.Asked? {
        ResumeEvents(r, other, id);
      }
    case _ =>
  }

  lemma LogStays(r: Room, step: RoomStep, w: Id)
    requires WellPlaced(r) && !(step.Grow? && step.worker == w)
    ensures PickSession.Log(NextRoom(r, step), w) == PickSession.Log(r, w)
  {
    hide Next;
  }

  lemma StaysUpToDate(r: Room, step: RoomStep, id: nat)
    requires Inv(r) && id in r.picks && UpToDate(r, id) && !(step.Grow? && step.worker == r.picks[id].worker)
    ensures UpToDate(NextRoom(r, step), id)
  {
    PickStays(r, step, id);
    LogStays(r, step, r.picks[id].worker);
    hide Next, Valid;
  }

  lemma UnreadIsRest(r: Room, id: nat)
    requires Inv(r) && Current(r, id)
    ensures Unread(r, id) >= 0 && PagesLeft(r, id) >= 1
  {
    hide Valid;
  }

  /** While the log does not grow, each page taken up leaves one fewer to take. */
  lemma PageLess(r: Room, step: RoomStep, id: nat)
    requires Inv(r) && LoadingEnds(r) && id < r.nextPick
    requires id in r.picks ==> !(step.Grow? && step.worker == r.picks[id].worker)
    ensures (if Takes(r, id, step) then 1 else 0) + PagesLeft(NextRoom(r, step), id) <= PagesLeft(r, id)
  {
    var after := NextRoom(r, step);
    StepKeeps(r, step);
    if Current(r, id) {
      UnreadIsRest(r, id);
    }
    if Current(after, id) {
      CurrentBefore(r, step, id);
      PickStays(r, step, id);
      EventsStay(r, step, id);
      LogStays(r, step, r.picks[id].worker);
      UnreadIsRest(after, id);
      assert Unread(after, id) == Unread(r, id) - if Takes(r, id, step) then REPLAY_PAGE_SIZE else 0;
    }
    hide Inv, LoadingEnds, NextRoom;
  }

  // ----- whole runs

  /** The number of pages that the loop takes up in a run. */
  function Taken(r: Room, id: nat, steps: seq<RoomStep>): nat
    requires WellPlaced(r)
  {
    if steps == [] then 0
    else
      var before := steps[..|steps| - 1];
      Taken(r, id, before) + if Takes(RunFrom(r, before), id, steps[|steps| - 1]) then 1 else 0
  }

  ghost predicate Grows(steps: seq<RoomStep>, w: Id) {
    exists k :: 0 <= k < |steps| && steps[k].Grow? && steps[k].worker == w
  }

  lemma NoGrowthBefore(steps: seq<RoomStep>, w: Id)
    requires steps != [] && !Grows(steps, w)
    ensures !Grows(steps[..|steps| - 1], w)
    ensures !(steps[|steps| - 1].Grow? && steps[|steps| - 1].worker == w)
  {
    assert forall k :: 0 <= k < |steps| - 1 ==> steps[..|steps| - 1][k] == steps[k];
  }

  /**
   * However clicks, replies, exits and growth of other logs interleave, a loop takes up no more pages of a log that
   * does not grow than fit what is unread, and one short page.
   */
  lemma {:induction false} PagesAreBounded(r: Room, id: nat, steps: seq<RoomStep>)
    requires Inv(r) && LoadingEnds(r) && id in r.picks && !Grows(steps, r.picks[id].worker)
    ensures Taken(r, id, steps) + PagesLeft(RunFrom(r, steps), id) <= PagesLeft(r, id)
    ensures id < RunFrom(r, steps).nextPick
    ensures id in RunFrom(r, steps).picks ==> RunFrom(r, steps).picks[id].worker == r.picks[id].worker
  {
    assert WellPlaced(r) && id < r.nextPick;
    hide NextRoom, Valid, Inv, LoadingEnds, PagesLeft, Takes;
    if steps != [] {
      var before, step := steps[..|steps| - 1], steps[|steps| - 1];
      NoGrowthBefore(steps, r.picks[id].worker);
      PagesAreBounded(r, id, before);
      RunFromKeeps(r, before);
      PageLess(RunFrom(r, before), step, id);
      PickStays(RunFrom(r, before), step, id);
    }
  }

  /** A current loop takes up a page shorter than it asked for, or an empty one. */
  predicate EndsClean(r: Room, id: nat, step: RoomStep) {
    Takes(r, id, step) && |r.picks[id].phase.page| < REPLAY_PAGE_SIZE
  }

  lemma {:induction false} RunUpToDate(r: Room, id: nat, steps: seq<RoomStep>)
    requires Inv(r) && LoadingEnds(r) && id in r.picks && UpToDate(r, id) && !Grows(steps, r.picks[id].worker)
    ensures UpToDate(RunFrom(r, steps), id)
  {
    assert WellPlaced(r);
    hide NextRoom, Valid, Inv, LoadingEnds, UpToDate;
    if steps != [] {
      var before, step := steps[..|steps| - 1], steps[|steps| - 1];
      NoGrowthBefore(steps, r.picks[id].worker);
      RunUpToDate(r, id, before);
      PagesAreBounded(r, id, before);
      RunFromKeeps(r, before);
      if id in RunFrom(r, before).picks {
        StaysUpToDate(RunFrom(r, before), step, id);
      } else {
        PickStays(RunFrom(r, before), step, id);
        GoneIsUpToDate(NextRoom(RunFrom(r, before), step), id);
      }
    }
  }

  lemma GoneIsUpToDate(r: Room, id: nat)
    requires id !in r.picks
    ensures UpToDate(r, id)
  {
  }

  /** If the log does not grow from the click on, a loop that ends without an error has shown all of it. */
  lemma CleanEndShowsAll(r: Room, id: nat, steps: seq<RoomStep>, last: RoomStep)
    requires Inv(r) && LoadingEnds(r) && id in r.picks && r.picks[id].phase.Asked?
    requires !Grows(steps, r.picks[id].worker) && EndsClean(RunFrom(r, steps), id, last)
    ensures var after := NextRoom(RunFrom(r, steps), last);
      && after.store.replay.events == PickSession.Log(after, r.picks[id].worker)
      && !after.store.replay.loading && id !in after.picks
  {
    var w, end := r.picks[id].worker, RunFrom(r, steps);
    RunUpToDate(r, id, steps);
    RunFromKeeps(r, steps);
    PagesAreBounded(r, id, steps);
    CleanEndIsWholeLog(end, id);
    LogStays(end, last, w);
    hide Valid, Next, LoadingEnds, RunFrom, Resumed;
    assert PickSession.Log(end, w)[..|PickSession.Log(end, w)|] == PickSession.Log(end, w);
  }

  // ----- left alone, a loop ends

  lemma ResumeIs(r: Room, id: nat)
    requires WellPlaced(r) && id in r.picks && !r.picks[id].phase.Asked?
    ensures NextRoom(r, Resume(id)) == Resumed(r, id)
  {
    hide Resumed;
  }

  lemma LastRound(r: Room, id: nat)
    requires Inv(r) && Current(r, id) && r.picks[id].phase.Asked? && Unread(r, id) < REPLAY_PAGE_SIZE
    ensures var after := NextRoom(NextRoom(r, Answer(id)), Resume(id));
      && after.store.replay.events == PickSession.Log(r, r.picks[id].worker)
      && !after.store.replay.loading && id !in after.picks
  {
    var answered, log := NextRoom(r, Answer(id)), PickSession.Log(r, r.picks[id].worker);
    AnswerKeeps(r, id);
    AnswerIsPage(r, id);
    LogStays(r, Answer(id), r.picks[id].worker);
    assert WellPlaced(r) && WellPlaced(answered);
    CleanEndIsWholeLog(answered, id);
    assert log[..|log|] == log;
    ResumeIs(answered, id);
    hide Next, NextRoom, Valid, Inv, Resumed, WellPlaced;
  }

  lemma ResumedPick(r: Room, id: nat)
    requires WellPlaced(r) && Takes(r, id, Resume(id)) && |r.picks[id].phase.page| >= REPLAY_PAGE_SIZE
    ensures var after := NextRoom(r, Resume(id));
      && after == Resumed(r, id)
      && id in after.picks && after.picks[id].phase.Asked? && after.picks[id].worker == r.picks[id].worker
  {
    hide Appended, OnStore;
  }

  lemma AsksAgain(r: Room, id: nat)
    requires Inv(r) && Takes(r, id, Resume(id)) && |r.picks[id].phase.page| >= REPLAY_PAGE_SIZE
    ensures var after := NextRoom(r, Resume(id));
      && Inv(after) && Current(after, id) && after.picks[id].phase.Asked?
      && after.picks[id].worker == r.picks[id].worker
  {
    assert WellPlaced(r);
    hide Inv, NextRoom, Resumed;
    ResumedPick(r, id);
    GoesOn(r, id);
  }

  lemma FullRound(r: Room, id: nat)
    requires Inv(r) && Current(r, id) && r.picks[id].phase.Asked? && Unread(r, id) >= REPLAY_PAGE_SIZE
    ensures var after := NextRoom(NextRoom(r, Answer(id)), Resume(id));
      && Inv(after) && Current(after, id) && after.picks[id].phase.Asked?
      && after.picks[id].worker == r.picks[id].worker
      && PickSession.Log(after, r.picks[id].worker) == PickSession.Log(r, r.picks[id].worker)
      && Unread(after, id) == Unread(r, id) - REPLAY_PAGE_SIZE
  {
    var answered := NextRoom(r, Answer(id));
    AnswerKeeps(r, id);
    AnswerIsPage(r, id);
    LogStays(r, Answer(id), r.picks[id].worker);
    LogStays(answered, Resume(id), r.picks[id].worker);
    hide Inv, NextRoom;
    AsksAgain(answered, id);
    EventsStay(answered, Resume(id), id);
  }

  /** The host answers, and the loop takes the page up, a number of times. */
  function Paged(r: Room, id: nat, rounds: nat): (after: Room)
    requires WellPlaced(r)
    ensures WellPlaced(after)
    decreases rounds
  {
    if rounds == 0 then r else Paged(NextRoom(NextRoom(r, Answer(id)), Resume(id)), id, rounds - 1)
  }

  lemma PagedOn(r: Room, id: nat, rounds: nat)
    requires WellPlaced(r) && rounds > 0
    ensures var after := NextRoom(NextRoom(r, Answer(id)), Resume(id));
            Paged(r, id, rounds) == Paged(after, id, rounds - 1) && Paged(after, id, 0) == after
  {
    hide NextRoom;
  }

  /** The loop has ended with the whole log on show. */
  predicate ShowsAll(r: Room, id: nat, log: seq<Event>) {
    r.store.replay.events == log && !r.store.replay.loading && id !in r.picks
  }

  predicate Ready(r: Room, id: nat) {
    Current(r, id) && r.picks[id].phase.Asked?
  }

  function LogOf(r: Room, id: nat): seq<Event>
    requires id in r.picks
  {
    PickSession.Log(r, r.picks[id].worker)
  }

  lemma OneRound(r: Room, id: nat)
    requires WellPlaced(r) && id in r.picks && Inv(r) && Ready(r, id)
    ensures var after := NextRoom(NextRoom(r, Answer(id)), Resume(id));
      && WellPlaced(after) && PagesLeft(r, id) >= 1
      && if PagesLeft(r, id) == 1 then ShowsAll(after, id, LogOf(r, id))
         else
           && id in after.picks && Inv(after) && Ready(after, id)
           && LogOf(after, id) == LogOf(r, id) && PagesLeft(after, id) == PagesLeft(r, id) - 1
  {
    UnreadIsRest(r, id);
    hide Inv, NextRoom, WellPlaced, IsCurrent;
    if Unread(r, id) < REPLAY_PAGE_SIZE {
      LastRound(r, id);
    } else {
      FullRound(r, id);
    }
  }

  lemma {:induction false} EndsAfter(r: Room, id: nat, rounds: nat)
    requires WellPlaced(r) && id in r.picks && Inv(r) && Ready(r, id) && rounds == PagesLeft(r, id)
    ensures ShowsAll(Paged(r, id, rounds), id, LogOf(r, id))
    decreases rounds
  {
    hide *;
    OneRound(r, id);
    PagedOn(r, id, rounds);
    if rounds > 1 {
      EndsAfter(NextRoom(NextRoom(r, Answer(id)), Resume(id)), id, rounds - 1);
    }
  }

  /** Left alone with the host, a loop shows the whole log after as many rounds as there are pages, and ends. */
  lemma LeftAloneItEnds(r: Room, id: nat)
    requires WellPlaced(r) && id in r.picks && Inv(r) && Ready(r, id)
    ensures PagesLeft(r, id) >= 1
    ensures ShowsAll(Paged(r, id, PagesLeft(r, id)), id, LogOf(r, id))
  {
    OneRound(r, id);
    hide *;
    EndsAfter(r, id, PagesLeft(r, id));
  }

  lemma AnswerIsPage(r: Room, id: nat)
    requires Inv(r) && Current(r, id) && r.picks[id].phase.Asked?
    ensures var answered, log := NextRoom(r, Answer(id)), PickSession.Log(r, r.picks[id].worker);
      && Current(answered, id) && answered.store == r.store && answered.picks[id].worker == r.picks[id].worker
      && answered.picks[id].phase.Answered? && answered.picks[id].phase.logged == |log|
      && |answered.picks[id].phase.page| == W.Min(Unread(r, id), REPLAY_PAGE_SIZE)
  {
    hide Valid, PageOf;
    var log := PickSession.Log(r, r.picks[id].worker);
    assert PickOk(r, r.picks[id]);
    AnswerFollows(log, r.store.replay.events);
  }
}
