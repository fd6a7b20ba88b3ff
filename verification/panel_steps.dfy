/** What each thing that happens in the replay panel does to the replay and to the paging loops. */
module PanelSteps {
  import opened OpsTypes
  import opened Store
  import opened PickSession
  import RC = ReplayCursor

  /** A click begins the session anew and sends one loop off, from the start of the log; all others are overtaken. */
  lemma ClickStarts(r: Room, worker: Id)
    requires Inv(r) && r.mounted.Some?
    ensures var after := NextRoom(r, Click(worker));
      && after.picks.Keys == r.picks.Keys + {r.nextPick}
      && after.picks[r.nextPick].worker == worker
      && after.picks[r.nextPick].after == None && after.picks[r.nextPick].phase == Asked
      && (forall id :: id in r.picks ==> after.picks[id] == r.picks[id] && !IsCurrent(after, r.picks[id]))
      && (r.store.replay.replaying ==>
            && IsCurrent(after, after.picks[r.nextPick])
            && after.store.replay == r.store.replay.(workerId := Some(worker), events := [], position := 0,
                                                     playing := false, loading := true))
      && (!r.store.replay.replaying ==> after.store.replay == r.store.replay)
  {
    BumpKeeps(r);
    KnownPicks(r);
    RC.ReplayAfter(r.store, BeginReplay(worker));
    hide Inv, Valid, Next;
  }

  lemma KnownPicks(r: Room)
    requires Inv(r)
    ensures r.nextPick !in r.picks
  {
  }

  /** Unmounting overtakes every loop of the panel and ends the loading. */
  lemma UnmountSilences(r: Room)
    requires Inv(r) && r.mounted.Some?
    ensures var after := NextRoom(r, Unmount);
      && after.mounted == None && after.picks == r.picks
      && (forall id :: id in after.picks ==> !IsCurrent(after, after.picks[id]))
      && after.store.replay == r.store.replay.(loading := false)
  {
    BumpKeeps(r);
    RC.ReplayAfter(r.store, FinishReplay);
    hide Inv, Valid, Next;
  }

  /** The exit button overtakes them too, and leaves the replay. */
  lemma ExitLeaves(r: Room)
    requires Inv(r) && r.mounted.Some?
    ensures var after := NextRoom(r, ExitButton);
      && after.mounted == r.mounted && after.picks == r.picks
      && (forall id :: id in after.picks ==> !IsCurrent(after, after.picks[id]))
      && after.store.replay == INITIAL_REPLAY
  {
    BumpKeeps(r);
    RC.ReplayAfter(r.store, ExitReplay);
    hide Inv, Valid, Next;
  }

  /** The host's answer is what follows the events the loop has, at most 512 of them. */
  lemma AnswerGivesPage(r: Room, id: nat)
    requires Inv(r) && id in r.picks && r.picks[id].phase.Asked? && IsCurrent(r, r.picks[id])
    ensures var answered, n := NextRoom(r, Answer(id)), |r.store.replay.events|;
      var log := PickSession.Log(r, r.picks[id].worker);
      && answered == r.(picks := r.picks[id := answered.picks[id]]) && n <= |log|
      && answered.picks[id].phase == Answered(log[n..if |log| - n > 512 then n + 512 else |log|], |log|)
  {
    assert PickOk(r, r.picks[id]);
    hide Valid, Next;
    var log := PickSession.Log(r, r.picks[id].worker);
    AnswerFollows(log, r.store.replay.events);
    var n := |r.store.replay.events|;
    assert log[n..|log|] == log[n..];
    hide PageOf;
  }

  /** A loop that was overtaken drops whatever it is answered. */
  lemma OvertakenDrops(r: Room, id: nat)
    requires Inv(r) && id in r.picks && !r.picks[id].phase.Asked? && !IsCurrent(r, r.picks[id])
    ensures NextRoom(r, Resume(id)) == r.(picks := r.picks - {id})
  {
    hide Valid, Next;
  }

  /** A loop whose request was refused ends the loading and keeps what is shown. */
  lemma RefusalEnds(r: Room, id: nat)
    requires Inv(r) && id in r.picks && r.picks[id].phase.Refused? && IsCurrent(r, r.picks[id])
    ensures var after := NextRoom(r, Resume(id));
      && after.picks == r.picks - {id} && after.store.vis == r.store.vis
      && after.store.replay == r.store.replay.(loading := false)
  {
    FinishReplayPart(r.store);
    hide Valid, Next;
  }

  lemma ResumedFull(r: Room, id: nat)
    requires WellPlaced(r) && id in r.picks && IsCurrent(r, r.picks[id])
    requires r.picks[id].phase.Answered? && |r.picks[id].phase.page| >= 512
    ensures var p := r.picks[id];
      NextRoom(r, Resume(id)) == Appended(r, p.worker, p.phase.page)
        .(picks := r.picks[id := p.(after := Some(p.phase.page[|p.phase.page| - 1].seqNo), phase := Asked)])
  {
    hide Appended, OnStore;
  }

  /** A full page is put behind the events shown, and the next request is for what follows its last event. */
  lemma FullPageGoesOn(r: Room, id: nat)
    requires Inv(r) && id in r.picks && IsCurrent(r, r.picks[id])
    requires r.picks[id].phase.Answered? && |r.picks[id].phase.page| >= 512
    ensures var after, page := NextRoom(r, Resume(id)), r.picks[id].phase.page;
      && after.store.replay.events == r.store.replay.events + page
      && after.picks == r.picks[id := r.picks[id].(after := Some(page[|page| - 1].seqNo), phase := Asked)]
  {
    assert WellPlaced(r);
    hide Inv, NextRoom, Appended, WellPlaced;
    ResumedFull(r, id);
    AppendedReplay(r, r.picks[id].worker, r.picks[id].phase.page);
  }
}
