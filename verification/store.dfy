/**
 * The store: the visible state, the live world kept aside while a recorded session is replayed, and the
 * replay cursor. One step is one action of the store.
 */
module Store {
  import opened OpsTypes
  import opened World
  import R = Reducer

  datatype Replay = Replay(
    replaying: bool,
    sessions: seq<Id>,
    workerId: Option<Id>,
    events: seq<Event>,
    position: int,
    speed: int,
    playing: bool,
    loading: bool)

  const INITIAL_REPLAY := Replay(false, [], None, [], 0, 1, false, false)

  datatype Store = Store(vis: Ops, shadow: Option<Ops>, replay: Replay)

  const START := Store(EMPTY, None, INITIAL_REPLAY)

  datatype Step =
    | OnWorld(act: Action)
    | SelectWorker(worker: Option<Id>)
    | SetReviewFocus(worker: Option<Id>)
    | EnterReplay(sessions: seq<Id>)
    | ExitReplay
    | BeginReplay(session: Id)
    | AppendReplayPage(session: Id, page: seq<Event>)
    | FinishReplay
    | SetPlaying(playing: bool)
    | SetSpeed(speed: int)
    | SetPosition(position: int)
    | StepReplay(delta: int)
    | AdvanceReplay(delta: int)
    | Reset

  function Clamp(position: int, events: seq<Event>): (n: int)
    ensures 0 <= n <= |events|
    ensures 0 <= position <= |events| ==> n == position
  {
    R.Max(0, Min(|events|, position))
  }

  function Project(s: Store, target: int): Ops
    requires InRange(s) && 0 <= target <= |s.replay.events|
  {
    R.Project(s.vis, s.replay.events, s.replay.position, target)
  }

  function Seek(s: Store, target: int, playing: bool): Store
    requires InRange(s) && 0 <= target <= |s.replay.events|
  {
    s.(vis := Project(s, target), replay := s.replay.(position := target, playing := playing))
  }

  function Append(s: Store, session: Id, page: seq<Event>): Store
    requires InRange(s)
  {
    if page == [] || !s.replay.replaying || s.replay.workerId != Some(session) then s
    else
      var all := s.replay.events + page;
      s.(vis := R.Extend(s.vis, s.replay.events, s.replay.position, page),
         replay := s.replay.(events := all, position := |all|))
  }

  function Enter(s: Store, sessions: seq<Id>): Store {
    if s.replay.replaying then s.(replay := s.replay.(sessions := sessions))
    else Store(EMPTY, Some(s.vis), Replay(true, sessions, None, [], 0, s.replay.speed, false, false))
  }

  function Exit(s: Store): Store {
    if !s.replay.replaying then s else Store(s.shadow.GetOr(EMPTY), None, INITIAL_REPLAY)
  }

  function Begin(s: Store, session: Id): Store {
    if !s.replay.replaying then s
    else s.(vis := EMPTY.(ui := EMPTY.ui.(selected := s.vis.ui.selected)),
            replay := s.replay.(workerId := Some(session), events := [], position := 0, playing := false,
                loading := true))
  }

  /** Actions on the live world reach it wherever it is. */
  function Route(s: Store, a: Action): Store {
    if !s.replay.replaying then s.(vis := LiveAct(s.vis, a))
    else if s.shadow.None? then s
    else s.(shadow := Some(Act(s.shadow.value, a)))
  }

  predicate InRange(s: Store) {
    0 <= s.replay.position <= |s.replay.events|
  }

  function Next(s: Store, step: Step): (t: Store)
    requires InRange(s)
    ensures InRange(t)
  {
    match step
    case OnWorld(a) => Route(s, a)
    case SelectWorker(w) => s.(vis := s.vis.(ui := s.vis.ui.(selected := w)))
    case SetReviewFocus(w) => s.(vis := s.vis.(ui := s.vis.ui.(reviewFocus := w)))
    case EnterReplay(sessions) => Enter(s, sessions)
    case ExitReplay => Exit(s)
    case BeginReplay(session) => Begin(s, session)
    case AppendReplayPage(session, page) => Append(s, session, page)
    case FinishReplay => if s.replay.replaying then s.(replay := s.replay.(loading := false)) else s
    case SetPlaying(playing) => if s.replay.replaying then s.(replay := s.replay.(playing := playing)) else s
    case SetSpeed(speed) => if s.replay.replaying then s.(replay := s.replay.(speed := speed)) else s
    case SetPosition(position) =>
      if s.replay.replaying then Seek(s, Clamp(position, s.replay.events), s.replay.playing) else s
    case StepReplay(delta) =>
      if s.replay.replaying then Seek(s, Clamp(s.replay.position + delta, s.replay.events), false) else s
    case AdvanceReplay(delta) =>
      var target := Clamp(s.replay.position + delta, s.replay.events);
      if s.replay.replaying then Seek(s, target, target < |s.replay.events| && s.replay.playing) else s
    case Reset => START
  }

  // ----- what the store shows, what it keeps aside

  /** A state with the person's selection and focus left out. */
  function Blank(o: Ops): Ops {
    o.(ui := Ui(None, None))
  }

  /**
   * In replay the visible state is the fold of the events up to the cursor, whichever way the cursor got
   * there, and the live world is kept aside; in live mode nothing is left of a replay.
   */
  ghost predicate Valid(s: Store) {
    var r := s.replay;
    && InRange(s)
    && (r.replaying ==> s.shadow.Some? && Blank(s.vis) == R.Fold(EMPTY, r.events[..r.position]))
    && (r.replaying && r.workerId.None? ==> r.events == [])
    && (!r.replaying ==> s.shadow.None? && r == INITIAL_REPLAY)
  }

  /** The world that live events and decisions belong to. */
  function WorldOf(s: Store): Ops {
    if s.replay.replaying then s.shadow.GetOr(EMPTY) else s.vis
  }

  lemma {:induction false} EdgesBlank(o: Ops, ui: Ui, order: seq<Id>)
    ensures R.EdgesOf(o.(ui := ui), order) == R.EdgesOf(o, order)
  {
    if order != [] {
      EdgesBlank(o, ui, order[..|order| - 1]);
      var id := order[|order| - 1];
      if id in o.workers && o.workers[id].blockedOn.Some? {
        EdgesIntoBlank(o, ui, o.workers[id], o.workers[id].blockedOn.value);
      }
    }
  }

  lemma {:induction false} EdgesIntoBlank(o: Ops, ui: Ui, w: Worker, waitingOn: seq<Id>)
    ensures R.EdgesInto(o.(ui := ui), w, waitingOn) == R.EdgesInto(o, w, waitingOn)
  {
    if waitingOn != [] {
      EdgesIntoBlank(o, ui, w, waitingOn[..|waitingOn| - 1]);
    }
  }

  lemma AbsorbBlank(o: Ops, ui: Ui, e: Event)
    ensures R.Absorb(o.(ui := ui), e) == R.Absorb(o, e).(ui := ui)
  {
  }

  /** Events neither read nor write the selection. */
  lemma ApplyBlank(o: Ops, ui: Ui, e: Event)
    ensures R.Apply(o.(ui := ui), e) == R.Apply(o, e).(ui := ui)
  {
    AbsorbBlank(o, ui, e);
    hide R.Absorb;
    EdgesBlank(R.Absorb(o, e), ui, R.Absorb(o, e).workerOrder);
  }

  lemma {:induction false} FoldBlank(o: Ops, events: seq<Event>)
    ensures R.Fold(Blank(o), events) == Blank(R.Fold(o, events))
  {
    if events != [] {
      var before := events[..|events| - 1];
      FoldBlank(o, before);
      ApplyBlank(R.Fold(o, before), Ui(None, None), events[|events| - 1]);
      hide R.Apply;
    }
  }

  /** Going forward event by event ends where a rebuild from scratch does. */
  lemma ProjectShowsPrefix(s: Store, target: int)
    requires Valid(s) && s.replay.replaying && 0 <= target <= |s.replay.events|
    ensures Blank(Project(s, target)) == R.Fold(EMPTY, s.replay.events[..target])
  {
    hide R.Apply;
    var events, current := s.replay.events, s.replay.position;
    if target >= current {
      FoldBlank(s.vis, events[current..target]);
      R.FoldConcat(EMPTY, events[..current], events[current..target]);
      assert events[..current] + events[current..target] == events[..target];
    } else {
      FoldBlank(EMPTY, events[..target]);
    }
  }

  lemma AppendShowsAll(s: Store, session: Id, page: seq<Event>)
    requires Valid(s)
    ensures Valid(Append(s, session, page))
  {
    hide R.Apply;
    var events, all := s.replay.events, s.replay.events + page;
    FoldBlank(s.vis, page);
    FoldBlank(EMPTY, all);
    assert events[..|events|] == events && all[..|all|] == all;
    R.FoldConcat(EMPTY, events, page);
  }

  lemma SeekIsValid(s: Store, target: int, playing: bool)
    requires Valid(s) && s.replay.replaying && 0 <= target <= |s.replay.events|
    ensures Valid(Seek(s, target, playing))
  {
    ProjectShowsPrefix(s, target);
    hide R.Fold;
  }

  lemma NothingFolded()
    ensures R.Fold(EMPTY, []) == EMPTY
  {
  }

  lemma NextIsValid(s: Store, step: Step)
    requires Valid(s)
    ensures Valid(Next(s, step))
  {
    hide R.Fold, Project, Append, Seek, LiveAct, Act;
    NothingFolded();
    match step
    case SetPosition(position) =>
      if s.replay.replaying {
        SeekIsValid(s, Clamp(position, s.replay.events), s.replay.playing);
      }
    case StepReplay(delta) =>
      if s.replay.replaying {
        SeekIsValid(s, Clamp(s.replay.position + delta, s.replay.events), false);
      }
    case AdvanceReplay(delta) =>
      if s.replay.replaying {
        var target := Clamp(s.replay.position + delta, s.replay.events);
        SeekIsValid(s, target, target < |s.replay.events| && s.replay.playing);
      }
    case AppendReplayPage(session, page) => AppendShowsAll(s, session, page);
    case _ =>
  }

  /** The store after a sequence of steps. */
  function Run(s: Store, steps: seq<Step>): (t: Store)
    requires InRange(s)
    ensures InRange(t)
  {
    if steps == [] then s else Next(Run(s, steps[..|steps| - 1]), steps[|steps| - 1])
  }

  lemma RunSnoc(s: Store, steps: seq<Step>, step: Step)
    requires InRange(s)
    ensures Run(s, steps + [step]) == Next(Run(s, steps), step)
  {
  }

  lemma {:induction false} RunIsValid(s: Store, steps: seq<Step>)
    requires Valid(s)
    ensures Valid(Run(s, steps))
  {
    hide Next;
    if steps != [] {
      RunIsValid(s, steps[..|steps| - 1]);
      NextIsValid(Run(s, steps[..|steps| - 1]), steps[|steps| - 1]);
    }
  }

  /** Throughout every run, a replay shows exactly the events up to its cursor. */
  lemma ReplayShowsPrefix(steps: seq<Step>)
    ensures var s := Run(START, steps);
      s.replay.replaying ==>
        && 0 <= s.replay.position <= |s.replay.events|
        && Blank(s.vis) == R.Fold(EMPTY, s.replay.events[..s.replay.position])
        && s.vis.reviewStatus == map[] && s.vis.org == EMPTY.org
  {
    var s := Run(START, steps);
    RunIsValid(START, steps);
    hide Run, R.Fold;
    if s.replay.replaying {
      FoldKeepsRest(EMPTY, s.replay.events[..s.replay.position]);
    }
  }

  lemma ApplyKeepsRest(o: Ops, e: Event)
    ensures R.Apply(o, e).reviewStatus == o.reviewStatus && R.Apply(o, e).org == o.org && R.Apply(o, e).ui == o.ui
  {
  }

  /** Events leave decisions, squads and selection alone. */
  lemma {:induction false} FoldKeepsRest(o: Ops, events: seq<Event>)
    ensures var after := R.Fold(o, events);
            after.reviewStatus == o.reviewStatus && after.org == o.org && after.ui == o.ui
  {
    hide R.Apply;
    if events != [] {
      FoldKeepsRest(o, events[..|events| - 1]);
      ApplyKeepsRest(R.Fold(o, events[..|events| - 1]), events[|events| - 1]);
    }
  }

  // ----- what becomes of the selection

  /** The cursor goes back, or a page arrives while the cursor is not at the end. */
  predicate Rebuilds(s: Store, step: Step) {
    var current, events := s.replay.position, s.replay.events;
    && s.replay.replaying
    && match step
       case SetPosition(position) => Clamp(position, events) < current
       case StepReplay(delta) => Clamp(current + delta, events) < current
       case AdvanceReplay(delta) => Clamp(current + delta, events) < current
       case AppendReplayPage(session, page) =>
         page != [] && s.replay.workerId == Some(session) && current < |events|
       case _ => false
  }

  lemma ProjectedUi(s: Store, target: int)
    requires InRange(s) && 0 <= target <= |s.replay.events|
    ensures Project(s, target).ui == if target >= s.replay.position then s.vis.ui else EMPTY.ui
  {
    hide R.Fold;
    if target >= s.replay.position {
      FoldKeepsRest(s.vis, s.replay.events[s.replay.position..target]);
    } else {
      FoldKeepsRest(EMPTY, s.replay.events[..target]);
    }
  }

  lemma AppendedUi(s: Store, session: Id, page: seq<Event>)
    requires InRange(s)
    ensures Append(s, session, page).vis.ui
         == if Rebuilds(s, AppendReplayPage(session, page)) then EMPTY.ui else s.vis.ui
  {
    hide R.Fold;
    FoldKeepsRest(s.vis, page);
    FoldKeepsRest(EMPTY, s.replay.events + page);
  }

  /** The selection and the focus after every kind of step. */
  lemma SelectionAfter(s: Store, step: Step)
    requires Valid(s)
    ensures Next(s, step).vis.ui ==
      match step
      case OnWorld(a) => if s.replay.replaying then s.vis.ui else LiveAct(s.vis, a).ui
      case SelectWorker(w) => Ui(w, s.vis.ui.reviewFocus)
      case SetReviewFocus(w) => Ui(s.vis.ui.selected, w)
      case EnterReplay(_) => if s.replay.replaying then s.vis.ui else EMPTY.ui
      case ExitReplay => WorldOf(s).ui
      case BeginReplay(_) => if s.replay.replaying then Ui(s.vis.ui.selected, None) else s.vis.ui
      case Reset => EMPTY.ui
      case _ => if Rebuilds(s, step) then EMPTY.ui else s.vis.ui
  {
    hide R.Fold, Project, Append, LiveAct, Act, Clamp;
    match step
    case SetPosition(position) => ProjectedUi(s, Clamp(position, s.replay.events));
    case StepReplay(delta) => ProjectedUi(s, Clamp(s.replay.position + delta, s.replay.events));
    case AdvanceReplay(delta) => ProjectedUi(s, Clamp(s.replay.position + delta, s.replay.events));
    case AppendReplayPage(session, page) => AppendedUi(s, session, page);
    case _ =>
  }

  /**
   * Moving the cursor, by hand, by the ticker or by a page that arrives, keeps selection and focus if and only if
   * it does not rebuild the projection, or nothing is selected and focused anyway.
   */
  lemma SelectionKeptIff(s: Store, step: Step)
    requires Valid(s)
    requires step.SetPosition? || step.StepReplay? || step.AdvanceReplay? || step.AppendReplayPage?
    ensures Next(s, step).vis.ui == s.vis.ui <==> !Rebuilds(s, step) || s.vis.ui == Ui(None, None)
  {
    SelectionAfter(s, step);
    hide Next, Rebuilds;
  }

  /** Seeking back drops the selection; seeking forward, or staying, keeps it. */
  lemma SeekingBackDropsSelection(s: Store, step: Step)
    requires Valid(s) && s.replay.replaying && (step.SetPosition? || step.StepReplay? || step.AdvanceReplay?)
    ensures var after := Next(s, step);
            after.vis.ui == if after.replay.position >= s.replay.position then s.vis.ui else EMPTY.ui
  {
    SelectionAfter(s, step);
    hide Valid, Project, Clamp;
  }

  /** A replay of one event with a worker selected in it. */
  function Watching(session: Id, e: Event, selected: Id): seq<Step> {
    [EnterReplay([session]), BeginReplay(session), AppendReplayPage(session, [e]), SelectWorker(Some(selected))]
  }

  lemma WatchingIs(session: Id, e: Event, selected: Id) returns (s: Store)
    ensures s == Run(START, Watching(session, e, selected)) && s.vis.ui.selected == Some(selected)
    ensures s.replay.replaying && s.replay.workerId == Some(session) && s.replay.events == [e] && s.replay.position == 1
  {
    var enter, begin, page := EnterReplay([session]), BeginReplay(session), AppendReplayPage(session, [e]);
    RunSnoc(START, [], enter);
    RunSnoc(START, [enter], begin);
    RunSnoc(START, [enter, begin], page);
    RunSnoc(START, [enter, begin, page], SelectWorker(Some(selected)));
    assert [] + [enter] == [enter] && [enter] + [begin] == [enter, begin];
    assert [enter, begin] + [page] == [enter, begin, page];
    assert [enter, begin, page] + [SelectWorker(Some(selected))] == Watching(session, e, selected);
    hide Run, R.Extend;
    s := Next(Next(Next(Next(START, enter), begin), page), SelectWorker(Some(selected)));
  }

  /** A selection lost by seeking back. */
  lemma SeekDropsRun(session: Id, e: Event, selected: Id)
    ensures Run(START, Watching(session, e, selected)).vis.ui.selected == Some(selected)
    ensures Run(START, Watching(session, e, selected) + [SetPosition(0)]).vis.ui.selected == None
  {
    var steps := Watching(session, e, selected);
    var s := WatchingIs(session, e, selected);
    RunIsValid(START, steps);
    RunSnoc(START, steps, SetPosition(0));
    SelectionAfter(s, SetPosition(0));
    hide Run, Valid, Watching, Next;
  }

  /** A selection lost although the cursor only goes forward: it was back when the next page arrived. */
  lemma PageDropsRun(session: Id, e: Event, next: Event, selected: Id)
    ensures var steps := Watching(session, e, selected) + [SetPosition(0)] + [SelectWorker(Some(selected))];
      var s, after := Run(START, steps), Run(START, steps + [AppendReplayPage(session, [next])]);
      && s.vis.ui.selected == Some(selected) && s.replay.position == 0
      && after.vis.ui.selected == None && after.replay.position == 2
  {
    var steps := Watching(session, e, selected);
    var s := WatchingIs(session, e, selected);
    var back, select, page := SetPosition(0), SelectWorker(Some(selected)), AppendReplayPage(session, [next]);
    RunSnoc(START, steps, back);
    RunSnoc(START, steps + [back], select);
    RunSnoc(START, steps + [back] + [select], page);
    RunIsValid(START, steps + [back] + [select]);
    SelectionAfter(Run(START, steps + [back] + [select]), page);
    hide Run, Valid, Watching, Project, R.Extend;
  }

  // ----- a replay is invisible to the live world

  /** Steps that act on the live world, in replay and out of it. */
  predicate Worldly(step: Step) {
    step.OnWorld? || step.Reset?
  }

  function LiveOnly(steps: seq<Step>): seq<Step> {
    if steps == [] then []
    else LiveOnly(steps[..|steps| - 1]) + (if Worldly(steps[|steps| - 1]) then [steps[|steps| - 1]] else [])
  }

  lemma {:induction false} UpdateAllBlank(o: Ops, ids: seq<Id>, u: Update, now: int)
    ensures UpdateAll(Blank(o), ids, u, now) == Blank(UpdateAll(o, ids, u, now))
  {
    if ids != [] {
      UpdateAllBlank(o, ids[..|ids| - 1], u, now);
    }
  }

  lemma FinishBlank(o: Ops, mission: Id, state: WorkerState, at: TimelineEntry, now: int)
    ensures FinishMission(Blank(o), mission, state, at, now) == Blank(FinishMission(o, mission, state, at, now))
  {
    assert OfMission(Blank(o), mission) == OfMission(o, mission);
    UpdateAllBlank(o, Among(o.workerOrder, OfMission(o, mission)), FinalUpdate(state, at), now);
  }

  lemma PruneBlank(o: Ops)
    ensures Prune(Blank(o)) == Blank(Prune(o))
  {
  }

  lemma ReviewBlank(o: Ops, w: Id, status: ReviewStatus)
    ensures Reviewed(Blank(o), w, status) == Blank(Reviewed(o, w, status))
  {
  }

  lemma RegisteredBlank(o: Ops, w: Worker)
    ensures Registered(Blank(o), w) == Blank(Registered(o, w))
  {
  }

  lemma RegisterBlank(o: Ops, id: Id, vendor: string, title: Option<string>, model: Option<string>, now: int)
    ensures Register(Blank(o), id, vendor, title, model, now) == Blank(Register(o, id, vendor, title, model, now))
  {
    hide FreshWorker, Registered, OrElse, Badged;
    if id !in o.workers {
      RegisteredBlank(o, Badged(FreshWorker(id, now), vendor, title, model));
    }
  }

  lemma RegisterMissionBlank(o: Ops, id: Id, vendor: string, title: Option<string>, mission: Id,
                             model: Option<Option<string>>, now: int)
    ensures RegisterMission(Blank(o), id, vendor, title, mission, model, now)
         == Blank(RegisterMission(o, id, vendor, title, mission, model, now))
  {
    hide FreshWorker, Registered, Badged, Scoped;
    if id !in o.workers {
      RegisteredBlank(o, Scoped(Badged(FreshWorker(id, now), vendor, title, model.GetOr(None)), mission));
    }
  }

  /** No action on the world depends on what is selected or focused. */
  lemma ActBlank(o: Ops, a: Action)
    ensures Act(Blank(o), a) == Blank(Act(o, a)) && Blank(LiveAct(o, a)) == Blank(Act(o, a))
  {
    hide R.Apply, Prune, FinishMission, Refocused, Reviewed, Register, RegisterMission;
    match a
    case Ingest(e) => ApplyBlank(o, Ui(None, None), e);
    case Review(w, status) => ReviewBlank(o, w, status);
    case RegisterWorker(id, vendor, title, model, now) => RegisterBlank(o, id, vendor, title, model, now);
    case RegisterMissionWorker(id, vendor, title, mission, model, now) =>
      RegisterMissionBlank(o, id, vendor, title, mission, model, now);
    case FinishMissionWorkers(mission, state, at, now) => FinishBlank(o, mission, state, at, now);
    case MissionCreated => PruneBlank(o);
    case _ =>
  }

  /** What one step does to the world, wherever the world is. */
  lemma NextWorld(s: Store, step: Step)
    requires Valid(s)
    ensures Blank(WorldOf(Next(s, step)))
         == if step.OnWorld? then Act(Blank(WorldOf(s)), step.act)
            else if step.Reset? then EMPTY
            else Blank(WorldOf(s))
  {
    hide R.Fold, Project, Act, LiveAct;
    if step.OnWorld? {
      ActBlank(WorldOf(s), step.act);
    }
  }

  lemma {:induction false} SameWorldFrom(s: Store, t: Store, steps: seq<Step>)
    requires Valid(s) && Valid(t) && !t.replay.replaying && Blank(WorldOf(s)) == Blank(WorldOf(t))
    ensures var live := Run(t, LiveOnly(steps));
            !live.replay.replaying && Blank(WorldOf(Run(s, steps))) == Blank(live.vis)
  {
    assert InRange(s) && InRange(t);
    hide Next, Valid, Act, Blank;
    if steps != [] {
      var before, step := steps[..|steps| - 1], steps[|steps| - 1];
      SameWorldFrom(s, t, before);
      RunIsValid(s, before);
      RunIsValid(t, LiveOnly(before));
      NextWorld(Run(s, before), step);
      if Worldly(step) {
        var u := Run(t, LiveOnly(before));
        NextWorld(u, step);
        RunSnoc(t, LiveOnly(before), step);
        StaysLive(u, step);
      } else {
        assert LiveOnly(steps) == LiveOnly(before);
      }
    }
  }

  lemma StaysLive(s: Store, step: Step)
    requires Valid(s) && !s.replay.replaying && Worldly(step)
    ensures !Next(s, step).replay.replaying
  {
  }

  /**
   * Replaying recorded sessions is invisible to the live world: strike every replay step out of a run, so
   * that the store never leaves live mode, and the world comes out the same, selection and focus aside.
   */
  lemma ReplayIsInvisible(steps: seq<Step>)
    ensures Blank(WorldOf(Run(START, steps))) == Blank(Run(START, LiveOnly(steps)).vis)
  {
    SameWorldFrom(START, START, steps);
  }

  /** Leaving replay brings back the world exactly as the steps since entering have left it. */
  lemma ExitRestores(s: Store)
    requires Valid(s)
    ensures Exit(s).vis == WorldOf(s) && Exit(s).replay == INITIAL_REPLAY && Exit(s).shadow == None
  {
  }
}
