/** The replay cursor: where each step puts it, and what playing a recording shows. */
module ReplayCursor {
  import opened OpsTypes
  import opened Store
  import R = Reducer
  import W = World

  /** A position cut to the recording. */
  function Within(position: int, length: nat): int {
    if position < 0 then 0 else if position > length then length else position
  }

  lemma ClampedIs(position: int, events: seq<Event>)
    ensures Clamp(position, events) == Within(position, |events|)
  {
  }

  /** Everything a step of the store does to the replay: session, events, cursor, speed, playing and loading. */
  lemma ReplayAfter(s: Store, step: Step)
    requires Valid(s)
    ensures var r, n := s.replay, |s.replay.events|;
      Next(s, step).replay ==
        match step
        case EnterReplay(sessions) =>
          if r.replaying then r.(sessions := sessions)
          else Replay(true, sessions, None, [], 0, r.speed, false, false)
        case ExitReplay => Replay(false, [], None, [], 0, 1, false, false)
        case BeginReplay(session) =>
          if r.replaying then Replay(true, r.sessions, Some(session), [], 0, r.speed, false, true) else r
        case AppendReplayPage(session, page) =>
          if r.replaying && r.workerId == Some(session) && page != [] then
            r.(events := r.events + page, position := n + |page|)
          else r
        case FinishReplay => r.(loading := false)
        case SetPlaying(playing) => if r.replaying then r.(playing := playing) else r
        case SetSpeed(speed) => if r.replaying then r.(speed := speed) else r
        case SetPosition(position) => if r.replaying then r.(position := Within(position, n)) else r
        case StepReplay(delta) =>
          if r.replaying then r.(position := Within(r.position + delta, n), playing := false) else r
        case AdvanceReplay(delta) =>
          var target := Within(r.position + delta, n);
          if r.replaying then r.(position := target, playing := r.playing && target < n) else r
        case Reset => Replay(false, [], None, [], 0, 1, false, false)
        case _ => r
  {
    hide R.Fold, R.Extend, Project, Clamp, W.Act, W.LiveAct;
    var r := s.replay;
    match step
    case SetPosition(position) => ClampedIs(position, r.events);
    case StepReplay(delta) => ClampedIs(r.position + delta, r.events);
    case AdvanceReplay(delta) => ClampedIs(r.position + delta, r.events);
    case _ =>
  }

  // ----- playing

  /** The playback ticker going off a number of times. */
  function Ticks(n: nat): seq<Step> {
    seq(n, (_: nat) => AdvanceReplay(1))
  }

  lemma TicksOneByOne(s: Store, n: nat)
    requires Valid(s)
    ensures n == 0 ==> Run(s, Ticks(n)) == s
    ensures n > 0 ==> Run(s, Ticks(n)) == Next(Run(s, Ticks(n - 1)), AdvanceReplay(1)) && Valid(Run(s, Ticks(n - 1)))
  {
    if n > 0 {
      assert Ticks(n) == Ticks(n - 1) + [AdvanceReplay(1)];
      RunSnoc(s, Ticks(n - 1), AdvanceReplay(1));
      RunIsValid(s, Ticks(n - 1));
      hide Next, Run, Ticks, Valid;
    }
  }

  /** What `n` ticks make of the store: as many events more on show, if there are as many. */
  ghost predicate Played(s: Store, n: nat, t: Store) {
    var r := s.replay;
    var shown := Within(r.position + n, |r.events|);
    && t.replay == r.(position := shown, playing := r.playing && (n == 0 || r.position + n < |r.events|))
    && Blank(t.vis) == R.Fold(EMPTY, r.events[..shown])
  }

  lemma OneTick(s: Store)
    requires Valid(s) && s.replay.replaying
    ensures Played(s, 1, Next(s, AdvanceReplay(1)))
  {
    ReplayAfter(s, AdvanceReplay(1));
    NextIsValid(s, AdvanceReplay(1));
    hide Next, R.Fold;
  }

  lemma PlayedOn(s: Store, n: nat, between: Store, t: Store)
    requires InRange(s) && Played(s, n, between) && Played(between, 1, t)
    ensures Played(s, n + 1, t)
  {
    hide R.Fold, Blank;
  }

  /**
   * Each tick of a playing recording shows one event more, in turn, until all are shown, and the recording stops
   * playing with the tick that shows the last.
   */
  lemma {:induction false} PlaysThrough(s: Store, n: nat)
    requires Valid(s) && s.replay.replaying
    ensures Played(s, n, Run(s, Ticks(n)))
  {
    assert InRange(s);
    if n == 0 {
      assert Ticks(0) == [] && Played(s, 0, s);
    } else {
      hide Played, Valid, Run, Ticks, Next;
      PlaysThrough(s, n - 1);
      TicksOneByOne(s, n);
      StillReplaying(s, n - 1, Run(s, Ticks(n - 1)));
      OneTick(Run(s, Ticks(n - 1)));
      PlayedOn(s, n - 1, Run(s, Ticks(n - 1)), Run(s, Ticks(n)));
    }
  }

  lemma StillReplaying(s: Store, n: nat, t: Store)
    requires Played(s, n, t) && s.replay.replaying
    ensures t.replay.replaying
  {
  }

  /** A recording that is set playing before its end plays for exactly as many ticks as there are events left. */
  lemma StopsAtEnd(s: Store, n: nat)
    requires Valid(s) && s.replay.replaying && s.replay.playing && s.replay.position < |s.replay.events|
    ensures Run(s, Ticks(n)).replay.playing <==> n < |s.replay.events| - s.replay.position
    ensures Run(s, Ticks(n)).replay.position == |s.replay.events| <==> n >= |s.replay.events| - s.replay.position
  {
    PlaysThrough(s, n);
    hide Run, Ticks, Valid;
  }

  // ----- the world kept aside

  /** The live world behind a replay, selection and focus included, after every kind of step. */
  lemma ShadowAfter(s: Store, step: Step)
    requires Valid(s)
    ensures Next(s, step).shadow ==
      match step
      case EnterReplay(_) => if s.replay.replaying then s.shadow else Some(s.vis)
      case ExitReplay => None
      case Reset => None
      case OnWorld(a) => if s.replay.replaying then Some(W.Act(s.shadow.value, a)) else None
      case _ => s.shadow
  {
    hide R.Fold, R.Extend, Project, Clamp, W.Act, W.LiveAct;
  }

  /** The step belongs to the replay alone. */
  predicate Inner(step: Step) {
    !step.OnWorld? && !step.ExitReplay? && !step.Reset?
  }

  lemma {:induction false} KeptAside(s: Store, steps: seq<Step>)
    requires Valid(s) && s.replay.replaying && forall step :: step in steps ==> Inner(step)
    ensures Run(s, steps).replay.replaying && Run(s, steps).shadow == s.shadow && Valid(Run(s, steps))
  {
    assert InRange(s);
    hide Valid, Next;
    if steps != [] {
      var before, step := steps[..|steps| - 1], steps[|steps| - 1];
      KeptAside(s, before);
      NextIsValid(Run(s, before), step);
      ShadowAfter(Run(s, before), step);
      ReplayAfter(Run(s, before), step);
      assert Inner(step);
    }
  }

  /** Whatever is done inside a replay, leaving it brings back the store as it was before entering. */
  lemma EnterAndExit(s: Store, sessions: seq<Id>, steps: seq<Step>)
    requires Valid(s) && !s.replay.replaying && forall step :: step in steps ==> Inner(step)
    ensures Next(Run(Next(s, EnterReplay(sessions)), steps), ExitReplay) == s
  {
    var inside := Next(s, EnterReplay(sessions));
    NextIsValid(s, EnterReplay(sessions));
    KeptAside(inside, steps);
    hide Run;
  }
}
