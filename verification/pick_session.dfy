/**
 * Paging a recorded session into the replay: clicks, page replies, exits, re-entries, remounts of the panel
 * and growth of the log, in any order.
 */
module PickSession {
  import opened OpsTypes
  import opened Store
  import opened Streams
  import W = World
  import R = Reducer

  const REPLAY_PAGE_SIZE: nat := 512
  const HOST_PAGE_LIMIT: nat := 1000

  // ----- the host's page query

  /** The events after a sequence number, in order, up to the requested number and the host's own limit. */
  function PageOf(log: seq<Event>, after: Option<int>, limit: nat): seq<Event> {
    First(Later(log, after), if limit < HOST_PAGE_LIMIT then limit else HOST_PAGE_LIMIT)
  }

  /** A page shorter than was asked for is the rest of the log, when no more was asked for than the host gives. */
  lemma ShortPageIsRest(log: seq<Event>, after: Option<int>, limit: nat)
    requires limit <= HOST_PAGE_LIMIT && |PageOf(log, after, limit)| < limit
    ensures PageOf(log, after, limit) == Later(log, after)
  {
  }

  function Numbered(n: nat): (log: seq<Event>)
    ensures |log| == n && Increasing(log)
  {
    seq(n, (i: nat) => Event("w", None, i, 0, Unrecognized))
  }

  /** Asking for more than the host gives would make a short page mean nothing. */
  lemma LongerPagesMislead(limit: nat)
    requires limit > HOST_PAGE_LIMIT
    ensures var log := Numbered(HOST_PAGE_LIMIT + 1);
            |PageOf(log, None, limit)| < limit && PageOf(log, None, limit) != Later(log, None)
  {
    LaterThanNothing(Numbered(HOST_PAGE_LIMIT + 1));
  }

  // ----- the panel

  /** Where a paging loop is: waiting for the host, or with a reply it has not been resumed with yet. */
  datatype Phase = Asked | Answered(page: seq<Event>, logged: nat) | Refused

  /** One run of `pickSession`, suspended at its page request. */
  datatype Pick = Pick(instance: nat, token: nat, worker: Id, after: Option<int>, phase: Phase)

  /** `tokens` holds the newest token of every panel instance there has been. */
  datatype Room = Room(
    store: Store,
    logs: map<Id, seq<Event>>,
    tokens: seq<nat>,
    mounted: Option<nat>,
    picks: map<nat, Pick>,
    nextPick: nat)

  function Log(r: Room, w: Id): seq<Event> {
    if w in r.logs then r.logs[w] else []
  }

  /** No newer click, exit or unmount has overtaken this pick. */
  predicate Newest(r: Room, p: Pick) {
    p.instance < |r.tokens| && r.tokens[p.instance] == p.token
  }

  predicate IsCurrent(r: Room, p: Pick) {
    Newest(r, p) && r.store.replay.replaying && r.store.replay.workerId == Some(p.worker)
  }

  datatype RoomStep =
    | Mount
    | Unmount
    | Click(worker: Id)
    | ExitButton
    | Answer(pick: nat)
    | Refuse(pick: nat)
    | Resume(pick: nat)
    | Grow(worker: Id, event: Event)
    | Elsewhere(step: Step)

  function Bump(r: Room): (after: Room)
    requires r.mounted.Some? && r.mounted.value < |r.tokens|
    ensures WellPlaced(r) ==> WellPlaced(after)
  {
    r.(tokens := r.tokens[r.mounted.value := r.tokens[r.mounted.value] + 1])
  }

  predicate WellPlaced(r: Room) {
    && 0 <= r.store.replay.position <= |r.store.replay.events|
    && (r.mounted.Some? ==> r.mounted.value < |r.tokens|)
  }

  function OnStore(r: Room, step: Step): (after: Room)
    requires WellPlaced(r)
    ensures WellPlaced(after)
  {
    r.(store := Next(r.store, step))
  }

  function Clicked(r: Room, worker: Id): (after: Room)
    requires WellPlaced(r) && r.mounted.Some?
    ensures WellPlaced(after)
  {
    var bumped := Bump(r);
    var begun := OnStore(bumped, BeginReplay(worker));
    begun.(picks := r.picks[r.nextPick := Pick(r.mounted.value, bumped.tokens[r.mounted.value], worker, None, Asked)],
           nextPick := r.nextPick + 1)
  }

  function Appended(r: Room, worker: Id, page: seq<Event>): (after: Room)
    requires WellPlaced(r)
    ensures WellPlaced(after)
  {
    hide R.Fold;
    OnStore(r, AppendReplayPage(worker, page))
  }

  /** The loop takes up a reply: it drops it, fails, ends, or goes on to the next page. */
  function Resumed(r: Room, id: nat): (after: Room)
    requires WellPlaced(r) && id in r.picks && !r.picks[id].phase.Asked?
    ensures WellPlaced(after)
  {
    var p := r.picks[id];
    var ended := r.(picks := r.picks - {id});
    if !IsCurrent(r, p) then ended
    else if p.phase.Refused? || p.phase.page == [] then OnStore(ended, FinishReplay)
    else
      var page := p.phase.page;
      if |page| < REPLAY_PAGE_SIZE then OnStore(Appended(ended, p.worker, page), FinishReplay)
      else
        Appended(r, p.worker, page)
          .(picks := r.picks[id := p.(after := Some(page[|page| - 1].seqNo), phase := Asked)])
  }

  function NextRoom(r: Room, step: RoomStep): (after: Room)
    requires WellPlaced(r)
    ensures WellPlaced(after)
  {
    match step
    case Mount => if r.mounted.Some? then r else r.(tokens := r.tokens + [0], mounted := Some(|r.tokens|))
    case Unmount => if r.mounted.None? then r else OnStore(Bump(r), FinishReplay).(mounted := None)
    case Click(worker) => if r.mounted.None? then r else Clicked(r, worker)
    case ExitButton => if r.mounted.None? then r else OnStore(Bump(r), ExitReplay)
    case Answer(id) =>
      if id in r.picks && r.picks[id].phase.Asked? then
        var p := r.picks[id];
        var log := Log(r, p.worker);
        r.(picks := r.picks[id := p.(phase := Answered(PageOf(log, p.after, REPLAY_PAGE_SIZE), |log|))])
      else r
    case Refuse(id) =>
      if id in r.picks && r.picks[id].phase.Asked? then
        r.(picks := r.picks[id := r.picks[id].(phase := Refused)])
      else r
    case Resume(id) => if id in r.picks && !r.picks[id].phase.Asked? then Resumed(r, id) else r
    case Grow(w, e) =>
      if LastSeq(Log(r, w)).GetOr(-1) < e.seqNo then r.(logs := r.logs[w := Log(r, w) + [e]]) else r
    case Elsewhere(s) => if s.BeginReplay? || s.AppendReplayPage? then r else OnStore(r, s)
  }

  // ----- the invariant

  /** A current pick has asked, or been answered, for exactly what follows the events already shown. */
  ghost predicate Follows(r: Room, p: Pick) {
    var events, log := r.store.replay.events, Log(r, p.worker);
    && p.after == LastSeq(events)
    && (p.phase.Answered? ==>
          |events| <= p.phase.logged <= |log| && p.phase.page == First(log[|events|..p.phase.logged], REPLAY_PAGE_SIZE))
  }

  ghost predicate PickOk(r: Room, p: Pick) {
    && p.instance < |r.tokens| && p.token <= r.tokens[p.instance]
    && (r.mounted != Some(p.instance) ==> p.token < r.tokens[p.instance])
    && (IsCurrent(r, p) ==> Follows(r, p))
  }

  ghost predicate LogsIncrease(logs: map<Id, seq<Event>>) {
    forall w :: w in logs ==> Increasing(logs[w])
  }

  /** What a replay holds is the beginning of its session's log. */
  ghost predicate Showing(r: Room) {
    var replay := r.store.replay;
    && (replay.workerId.Some? ==> replay.events <= Log(r, replay.workerId.value))
    && (replay.workerId.None? ==> replay.events == [])
  }

  ghost predicate PicksOk(r: Room) {
    && (forall id :: id in r.picks ==> id < r.nextPick && PickOk(r, r.picks[id]))
    && (forall i, j :: i in r.picks && j in r.picks && i != j ==>
          r.picks[i].instance != r.picks[j].instance || r.picks[i].token != r.picks[j].token)
  }

  /** While a replay says it is loading, some loop is going to bring it an end. */
  ghost predicate LoadingEnds(r: Room) {
    r.store.replay.replaying && r.store.replay.loading ==> exists id :: id in r.picks && IsCurrent(r, r.picks[id])
  }

  ghost predicate Inv(r: Room) {
    Valid(r.store) && WellPlaced(r) && LogsIncrease(r.logs) && Showing(r) && PicksOk(r)
  }

  const EMPTY_ROOM := Room(START, map[], [], None, map[], 0)

  lemma StartsOk()
    ensures Inv(EMPTY_ROOM) && LoadingEnds(EMPTY_ROOM)
  {
  }

  // ----- steps of the store that no paging loop takes

  /** The session and its events stay, or nothing is left of them. */
  ghost predicate Calm(before: Replay, after: Replay) {
    || (after.replaying == before.replaying && after.workerId == before.workerId && after.events == before.events
        && (after.loading ==> before.loading))
    || (after.workerId == None && after.events == [] && !after.loading)
  }

  lemma ElsewhereIsCalm(s: Store, step: Step)
    requires Valid(s) && !step.BeginReplay? && !step.AppendReplayPage?
    ensures Calm(s.replay, Next(s, step).replay)
  {
    hide R.Fold, R.Project, W.Act, W.LiveAct;
  }

  /** Nothing but the store changes, and no session is begun or extended. */
  lemma CalmKeeps(r: Room, store: Store)
    requires Inv(r) && Valid(store) && Calm(r.store.replay, store.replay)
    ensures Inv(r.(store := store)) && (LoadingEnds(r) ==> LoadingEnds(r.(store := store)))
  {
    assert 0 <= store.replay.position <= |store.replay.events|;
    hide Valid;
    var after := r.(store := store);
    forall id | id in r.picks ensures PickOk(after, r.picks[id]) {
      assert PickOk(r, r.picks[id]);
    }
    if store.replay.replaying && store.replay.loading && LoadingEnds(r) {
      var id :| id in r.picks && IsCurrent(r, r.picks[id]);
      assert IsCurrent(after, after.picks[id]);
    }
  }

  lemma ElsewhereKeeps(r: Room, step: Step)
    requires Inv(r) && !step.BeginReplay? && !step.AppendReplayPage?
    ensures Inv(OnStore(r, step)) && (LoadingEnds(r) ==> LoadingEnds(OnStore(r, step)))
  {
    ElsewhereIsCalm(r.store, step);
    NextIsValid(r.store, step);
    hide Next, Valid;
    CalmKeeps(r, Next(r.store, step));
  }

  // ----- clicks, exits and unmounts overtake every pick under way

  lemma BumpKeeps(r: Room)
    requires Inv(r) && r.mounted.Some?
    ensures Inv(Bump(r)) && forall id :: id in r.picks ==> !Newest(Bump(r), r.picks[id])
  {
  }

  lemma UnmountKeeps(r: Room)
    requires Inv(r) && r.mounted.Some?
    ensures var after := NextRoom(r, Unmount); Inv(after) && LoadingEnds(after)
  {
    BumpKeeps(r);
    ElsewhereKeeps(Bump(r), FinishReplay);
    hide Valid;
    var after := NextRoom(r, Unmount);
    forall id | id in after.picks ensures PickOk(after, after.picks[id]) {
      assert PickOk(OnStore(Bump(r), FinishReplay), after.picks[id]);
    }
  }

  lemma ExitKeeps(r: Room)
    requires Inv(r) && r.mounted.Some?
    ensures var after := NextRoom(r, ExitButton); Inv(after) && LoadingEnds(after)
  {
    BumpKeeps(r);
    ElsewhereKeeps(Bump(r), ExitReplay);
  }

  lemma ClickKeeps(r: Room, worker: Id)
    requires Inv(r) && r.mounted.Some?
    ensures var after := NextRoom(r, Click(worker)); Inv(after) && LoadingEnds(after)
  {
    BumpKeeps(r);
    NextIsValid(r.store, BeginReplay(worker));
    var bumped, after := Bump(r), NextRoom(r, Click(worker));
    assert after.store == Begin(r.store, worker);
    hide Valid, Next;
    forall id | id in after.picks ensures id < after.nextPick && PickOk(after, after.picks[id]) {
      if id != r.nextPick {
        assert PickOk(bumped, r.picks[id]) && !Newest(bumped, r.picks[id]);
      }
    }
    assert after.store.replay.replaying ==> IsCurrent(after, after.picks[r.nextPick]);
  }

  lemma MountKeeps(r: Room)
    requires Inv(r)
    ensures Inv(NextRoom(r, Mount)) && (LoadingEnds(r) ==> LoadingEnds(NextRoom(r, Mount)))
  {
    hide Valid;
    var after := NextRoom(r, Mount);
    forall id | id in after.picks ensures PickOk(after, after.picks[id]) {
      assert PickOk(r, r.picks[id]);
    }
    if after.store.replay.replaying && after.store.replay.loading && LoadingEnds(r) {
      var id :| id in r.picks && IsCurrent(r, r.picks[id]);
      assert IsCurrent(after, after.picks[id]);
    }
  }

  // ----- replies

  /** At most one paging loop is current. */
  lemma OneCurrent(r: Room, i: nat, j: nat)
    requires PicksOk(r) && i in r.picks && j in r.picks && Newest(r, r.picks[i]) && Newest(r, r.picks[j])
    ensures i == j
  {
  }

  /** A pick changes its phase only; whether it is current does not depend on that. */
  lemma PhaseKeeps(r: Room, id: nat, phase: Phase)
    requires Inv(r) && id in r.picks && r.picks[id].phase.Asked?
    requires IsCurrent(r, r.picks[id]) ==> Follows(r, r.picks[id].(phase := phase))
    ensures var after := r.(picks := r.picks[id := r.picks[id].(phase := phase)]);
            Inv(after) && (LoadingEnds(r) ==> LoadingEnds(after))
  {
    hide Valid;
    var after := r.(picks := r.picks[id := r.picks[id].(phase := phase)]);
    forall k | k in after.picks ensures k < after.nextPick && PickOk(after, after.picks[k]) {
      assert PickOk(r, r.picks[k]);
    }
    if r.store.replay.replaying && r.store.replay.loading && LoadingEnds(r) {
      var k :| k in r.picks && IsCurrent(r, r.picks[k]);
      assert IsCurrent(after, after.picks[k]);
    }
  }

  lemma AnswerFollows(log: seq<Event>, events: seq<Event>)
    requires Increasing(log) && events <= log
    ensures PageOf(log, LastSeq(events), REPLAY_PAGE_SIZE) == First(log[|events|..|log|], REPLAY_PAGE_SIZE)
  {
    assert log[..|events|] == events && log[|events|..|log|] == log[|events|..];
    LaterIsRest(log, |events|);
  }

  lemma AnswerKeeps(r: Room, id: nat)
    requires Inv(r) && id in r.picks && r.picks[id].phase.Asked?
    ensures var after := NextRoom(r, Answer(id)); Inv(after) && (LoadingEnds(r) ==> LoadingEnds(after))
  {
    hide Valid, PageOf, First;
    var p := r.picks[id];
    var log := Log(r, p.worker);
    assert PickOk(r, p);
    if IsCurrent(r, p) {
      AnswerFollows(log, r.store.replay.events);
    }
    PhaseKeeps(r, id, Answered(PageOf(log, p.after, REPLAY_PAGE_SIZE), |log|));
  }

  lemma RefuseKeeps(r: Room, id: nat)
    requires Inv(r) && id in r.picks && r.picks[id].phase.Asked?
    ensures var after := NextRoom(r, Refuse(id)); Inv(after) && (LoadingEnds(r) ==> LoadingEnds(after))
  {
    assert PickOk(r, r.picks[id]);
    PhaseKeeps(r, id, Refused);
  }

  lemma GrowKeeps(r: Room, w: Id, e: Event)
    requires Inv(r)
    ensures var after := NextRoom(r, Grow(w, e)); Inv(after) && (LoadingEnds(r) ==> LoadingEnds(after))
  {
    hide Valid;
    var after := NextRoom(r, Grow(w, e));
    var log := Log(r, w);
    if LastSeq(log).GetOr(-1) < e.seqNo {
      forall v ensures Log(r, v) <= Log(after, v) {
      }
      forall id | id in after.picks ensures PickOk(after, after.picks[id]) {
        var p := r.picks[id];
        assert PickOk(r, p);
        if IsCurrent(after, p) && p.phase.Answered? {
          var n := |r.store.replay.events|;
          assert Log(after, p.worker)[n..p.phase.logged] == Log(r, p.worker)[n..p.phase.logged];
        }
      }
    }
    if r.store.replay.replaying && r.store.replay.loading && LoadingEnds(r) {
      var k :| k in r.picks && IsCurrent(r, r.picks[k]);
      assert IsCurrent(after, after.picks[k]);
    }
  }

  /** A loop that ends leaves the others as they are. */
  lemma RemoveKeeps(r: Room, id: nat)
    requires Inv(r) && id in r.picks
    ensures Inv(r.(picks := r.picks - {id}))
    ensures !IsCurrent(r, r.picks[id]) && LoadingEnds(r) ==> LoadingEnds(r.(picks := r.picks - {id}))
  {
    hide Valid;
    var after := r.(picks := r.picks - {id});
    forall k | k in after.picks ensures k < after.nextPick && PickOk(after, after.picks[k]) {
      assert PickOk(r, r.picks[k]);
    }
    if r.store.replay.replaying && r.store.replay.loading && LoadingEnds(r) && !IsCurrent(r, r.picks[id]) {
      var k :| k in r.picks && IsCurrent(r, r.picks[k]);
      assert k in after.picks && IsCurrent(after, after.picks[k]);
    }
  }

  /** The replay part of the store after a current pick's page is appended. */
  lemma AppendedReplay(r: Room, worker: Id, page: seq<Event>)
    requires Inv(r) && r.store.replay.replaying && r.store.replay.workerId == Some(worker)
    ensures var after := Appended(r, worker, page);
      && Valid(after.store) && after == r.(store := after.store)
      && after.store.replay.events == r.store.replay.events + page
      && after.store.replay.workerId == Some(worker) && after.store.replay.replaying
      && after.store.replay.loading == r.store.replay.loading
      && (page != [] ==> after.store.replay.position == |after.store.replay.events|)
  {
    NextIsValid(r.store, AppendReplayPage(worker, page));
    hide R.Fold, R.Extend;
  }

  /** A page that follows the events shown extends them along the log, and the next request follows on. */
  lemma PageExtends(r: Room, p: Pick)
    requires Inv(r) && Follows(r, p) && p.phase.Answered? && r.store.replay.workerId == Some(p.worker)
    ensures r.store.replay.events + p.phase.page <= Log(r, p.worker)
    ensures p.phase.page != [] ==>
              LastSeq(r.store.replay.events + p.phase.page) == Some(p.phase.page[|p.phase.page| - 1].seqNo)
    ensures |p.phase.page| < REPLAY_PAGE_SIZE ==>
              r.store.replay.events + p.phase.page == Log(r, p.worker)[..p.phase.logged]
  {
    hide Valid;
    var events, log := r.store.replay.events, Log(r, p.worker);
    assert events <= log;
    assert log[..p.phase.logged] == events + log[|events|..p.phase.logged];
  }

  lemma AppendShows(r: Room, id: nat)
    requires Inv(r) && id in r.picks && r.picks[id].phase.Answered? && IsCurrent(r, r.picks[id])
    ensures var after := Appended(r.(picks := r.picks - {id}), r.picks[id].worker, r.picks[id].phase.page);
      && Valid(after.store) && WellPlaced(after) && LogsIncrease(after.logs) && Showing(after)
      && after == r.(picks := r.picks - {id}, store := after.store)
      && after.store.replay.workerId == r.store.replay.workerId
  {
    var p, ended := r.picks[id], r.(picks := r.picks - {id});
    RemoveKeeps(r, id);
    AppendedReplay(ended, p.worker, p.phase.page);
    assert PickOk(r, p);
    PageExtends(r, p);
    hide Valid, Next, Follows, PicksOk, Appended;
  }

  lemma AppendKeeps(r: Room, id: nat)
    requires Inv(r) && id in r.picks && r.picks[id].phase.Answered? && IsCurrent(r, r.picks[id])
    ensures Inv(Appended(r.(picks := r.picks - {id}), r.picks[id].worker, r.picks[id].phase.page))
  {
    AppendShows(r, id);
    hide Valid, Next, Follows, Appended, Showing, LogsIncrease, WellPlaced;
    var after := Appended(r.(picks := r.picks - {id}), r.picks[id].worker, r.picks[id].phase.page);
    forall k | k in after.picks ensures k < after.nextPick && PickOk(after, after.picks[k]) {
      assert PickOk(r, r.picks[k]);
      if Newest(r, r.picks[k]) {
        OneCurrent(r, id, k);
      }
    }
  }

  lemma GoesOn(r: Room, id: nat)
    requires Inv(r) && id in r.picks && r.picks[id].phase.Answered? && IsCurrent(r, r.picks[id])
    requires |r.picks[id].phase.page| >= REPLAY_PAGE_SIZE
    ensures var after := Resumed(r, id); Inv(after) && LoadingEnds(after) && IsCurrent(after, after.picks[id])
  {
    hide Valid, Next;
    var p, after := r.picks[id], Resumed(r, id);
    var ended := r.(picks := r.picks - {id});
    var rest := Appended(ended, p.worker, p.phase.page);
    AppendKeeps(r, id);
    assert PickOk(r, p);
    PageExtends(r, p);
    AppendedReplay(r, p.worker, p.phase.page);
    SameStore(r, ended, p.worker, p.phase.page);
    forall k | k in after.picks ensures k < after.nextPick && PickOk(after, after.picks[k]) {
      if k != id {
        assert PickOk(rest, rest.picks[k]);
      }
    }
    assert IsCurrent(after, after.picks[id]);
  }

  lemma SameStore(r: Room, ended: Room, worker: Id, page: seq<Event>)
    requires WellPlaced(r) && WellPlaced(ended) && r.store == ended.store
    ensures Appended(r, worker, page).store == Appended(ended, worker, page).store
  {
  }

  lemma FinishReplayPart(s: Store)
    requires Valid(s)
    ensures Next(s, FinishReplay).replay == s.replay.(loading := false)
    ensures Next(s, FinishReplay).vis == s.vis
  {
  }

  lemma ResumeKeeps(r: Room, id: nat)
    requires Inv(r) && LoadingEnds(r) && id in r.picks && !r.picks[id].phase.Asked?
    ensures Inv(Resumed(r, id)) && LoadingEnds(Resumed(r, id))
  {
    var p := r.picks[id];
    var ended := r.(picks := r.picks - {id});
    RemoveKeeps(r, id);
    if IsCurrent(r, p) {
      if p.phase.Refused? || p.phase.page == [] {
        ElsewhereKeeps(ended, FinishReplay);
        FinishReplayPart(ended.store);
      } else if |p.phase.page| < REPLAY_PAGE_SIZE {
        AppendKeeps(r, id);
        var appended := Appended(ended, p.worker, p.phase.page);
        ElsewhereKeeps(appended, FinishReplay);
        FinishReplayPart(appended.store);
      } else {
        GoesOn(r, id);
      }
    }
  }

  // ----- every interleaving

  lemma StepKeeps(r: Room, step: RoomStep)
    requires Inv(r) && LoadingEnds(r)
    ensures Inv(NextRoom(r, step)) && LoadingEnds(NextRoom(r, step))
  {
    hide Valid, LoadingEnds;
    match step
    case Mount => MountKeeps(r);
    case Unmount => if r.mounted.Some? { UnmountKeeps(r); }
    case Click(worker) => if r.mounted.Some? { ClickKeeps(r, worker); }
    case ExitButton => if r.mounted.Some? { ExitKeeps(r); }
    case Answer(id) => if id in r.picks && r.picks[id].phase.Asked? { AnswerKeeps(r, id); }
    case Refuse(id) => if id in r.picks && r.picks[id].phase.Asked? { RefuseKeeps(r, id); }
    case Resume(id) => if id in r.picks && !r.picks[id].phase.Asked? { ResumeKeeps(r, id); }
    case Grow(w, e) => GrowKeeps(r, w, e);
    case Elsewhere(s) => if !s.BeginReplay? && !s.AppendReplayPage? { ElsewhereKeeps(r, s); }
  }

  function RunFrom(r: Room, steps: seq<RoomStep>): (after: Room)
    requires WellPlaced(r)
    ensures WellPlaced(after)
  {
    if steps == [] then r else NextRoom(RunFrom(r, steps[..|steps| - 1]), steps[|steps| - 1])
  }

  function RunRoom(steps: seq<RoomStep>): (after: Room)
    ensures WellPlaced(after)
  {
    RunFrom(EMPTY_ROOM, steps)
  }

  /** Every interleaving keeps the invariant, and loading always comes to an end. */
  lemma {:induction false} RunFromKeeps(r: Room, steps: seq<RoomStep>)
    requires Inv(r) && LoadingEnds(r)
    ensures Inv(RunFrom(r, steps)) && LoadingEnds(RunFrom(r, steps))
  {
    hide NextRoom, LoadingEnds;
    if steps != [] {
      RunFromKeeps(r, steps[..|steps| - 1]);
      StepKeeps(RunFrom(r, steps[..|steps| - 1]), steps[|steps| - 1]);
    }
  }

  lemma RunKeeps(steps: seq<RoomStep>)
    ensures Inv(RunRoom(steps)) && LoadingEnds(RunRoom(steps))
  {
    StartsOk();
    RunFromKeeps(EMPTY_ROOM, steps);
  }

  /** However clicks, replies, exits and growth interleave, a replay holds the beginning of its session's log. */
  lemma HoldsPrefixOfLog(steps: seq<RoomStep>)
    ensures var r := RunRoom(steps);
            r.store.replay.workerId.Some? ==> r.store.replay.events <= Log(r, r.store.replay.workerId.value)
  {
    RunKeeps(steps);
    hide RunRoom;
  }

  /** A loop that ends without an error has shown the whole log, as it was when the last page was read. */
  lemma CleanEndIsWholeLog(r: Room, id: nat)
    requires Inv(r) && id in r.picks && IsCurrent(r, r.picks[id])
    requires r.picks[id].phase.Answered? && |r.picks[id].phase.page| < REPLAY_PAGE_SIZE
    ensures var p, after := r.picks[id], Resumed(r, id);
      && p.phase.logged <= |Log(r, p.worker)|
      && after.store.replay.events == Log(r, p.worker)[..p.phase.logged]
      && !after.store.replay.loading && id !in after.picks
  {
    hide Valid, Next;
    var p := r.picks[id];
    var ended := r.(picks := r.picks - {id});
    RemoveKeeps(r, id);
    assert PickOk(r, p);
    PageExtends(r, p);
    if p.phase.page == [] {
      FinishReplayPart(ended.store);
      assert r.store.replay.events + [] == r.store.replay.events;
    } else {
      AppendedReplay(ended, p.worker, p.phase.page);
      FinishReplayPart(Appended(ended, p.worker, p.phase.page).store);
    }
  }

  /** A full page leaves less of the log to read, so over a log that stays as it is the loop ends. */
  lemma FullPageMakesProgress(r: Room, id: nat)
    requires Inv(r) && id in r.picks && IsCurrent(r, r.picks[id])
    requires r.picks[id].phase.Answered? && |r.picks[id].phase.page| >= REPLAY_PAGE_SIZE
    ensures var w, after := r.picks[id].worker, Resumed(r, id);
            |after.store.replay.events| == |r.store.replay.events| + REPLAY_PAGE_SIZE <= |Log(after, w)|
            && Log(after, w) == Log(r, w)
  {
    var p := r.picks[id];
    assert PickOk(r, p);
    PageExtends(r, p);
    AppendedReplay(r, p.worker, p.phase.page);
  }
}
