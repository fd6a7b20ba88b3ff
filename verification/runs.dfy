/** What holds of the live world, and of what a replay shows, in every run of the store. */
module Runs {
  import opened OpsTypes
  import opened World
  import opened Store
  import C = Counters
  import H = History
  import R = Reducer
  import S = Squads

  /** The tables and counters of the world agree with each other. */
  ghost predicate Sound(o: Ops) {
    C.Listed(o) && C.ActiveExact(o) && S.Agree(o.org) && !Nameless(o)
  }

  /** Squad ids are made fresh, and the orchestrator names its workers. */
  predicate Permitted(o: Ops, a: Action) {
    && (a.CreateSquad? ==> a.squadId !in o.org.squads && a.squadId != "")
    && (a.RegisterMissionWorker? ==> a.workerId != "")
  }

  lemma ActOrg(o: Ops, a: Action)
    requires S.Agree(o.org) && !Nameless(o) && Permitted(o, a)
    ensures S.Agree(Act(o, a).org)
  {
    hide R.Apply, S.Agree, S.Assigned, S.Deleted, S.Led, S.Pruned, Reviewed, UpdateAll;
    match a
    case Ingest(e) => ApplyKeepsRest(o, e);
    case CreateSquad(id, name, color, at) => S.CreateAgrees(o.org, id, name, color, at);
    case RenameSquad(id, name) => S.RelabelAgrees(o.org, id, name);
    case SetSquadColor(id, color) => S.RelabelAgrees(o.org, id, color);
    case DeleteSquad(id) => S.DeletedAgrees(o.org, id);
    case AssignWorker(w, squad) => S.AssignedAgrees(o.org, w, squad);
    case SetSquadLead(id, lead) => S.LedAgrees(o.org, id, lead);
    case MissionCreated => S.PrunedAgreesIff(o.org, MissionWorkers(o));
    case FinishMissionWorkers(mission, state, at, now) =>
      UpdateAllOrg(o, Among(o.workerOrder, OfMission(o, mission)), FinalUpdate(state, at), now);
    case Review(w, status) => ReviewOrg(o, w, status);
    case _ =>
  }

  lemma ReviewOrg(o: Ops, w: Id, status: ReviewStatus)
    ensures Reviewed(o, w, status).org == o.org
  {
  }

  /** Mission progress touches no squad and brings in no worker. */
  lemma {:induction false} UpdateAllOrg(o: Ops, ids: seq<Id>, u: Update, now: int)
    ensures UpdateAll(o, ids, u, now).org == o.org
    ensures MissionWorkers(UpdateAll(o, ids, u, now)) == MissionWorkers(o)
  {
    if ids != [] {
      var before := UpdateAll(o, ids[..|ids| - 1], u, now);
      UpdateAllOrg(o, ids[..|ids| - 1], u, now);
      assert MissionWorkers(UpdateMission(before, ids[|ids| - 1], u, now)) == MissionWorkers(before);
    }
  }

  predicate Nameless(o: Ops) {
    "" in o.workers && o.workers[""].mission.scoped
  }

  lemma NamelessIngest(o: Ops, e: Event)
    ensures Nameless(R.Apply(o, e)) ==> Nameless(o)
  {
  }

  lemma ActNames(o: Ops, a: Action)
    requires !Nameless(o) && Permitted(o, a)
    ensures !Nameless(Act(o, a))
  {
    hide R.Apply, S.Pruned, S.Assigned, S.Deleted, S.Led, UpdateAll, OnQueue, R.Pushed, Nameless;
    match a
    case Ingest(e) => NamelessIngest(o, e);
    case FinishMissionWorkers(mission, state, at, now) =>
      NamelessFinish(o, Among(o.workerOrder, OfMission(o, mission)), FinalUpdate(state, at), now);
    case RegisterWorker(id, vendor, title, model, now) => NamelessRegister(o, id, vendor, title, model, now);
    case RegisterMissionWorker(id, vendor, title, mission, model, now) =>
      NamelessRegisterMission(o, id, vendor, title, mission, model, now);
    case _ => NamelessOther(o, a);
  }

  lemma NamelessFinish(o: Ops, ids: seq<Id>, u: Update, now: int)
    requires !Nameless(o)
    ensures !Nameless(UpdateAll(o, ids, u, now))
  {
  }

  lemma BadgedKeeps(w: Worker, vendor: string, title: Option<string>, model: Option<string>)
    ensures Badged(w, vendor, title, model).id == w.id && Badged(w, vendor, title, model).mission == w.mission
  {
  }

  lemma FreshIsUnscoped(id: Id, now: int)
    ensures FreshWorker(id, now).id == id && !FreshWorker(id, now).mission.scoped
  {
  }

  lemma NamelessRegister(o: Ops, id: Id, vendor: string, title: Option<string>, model: Option<string>, now: int)
    requires !Nameless(o)
    ensures !Nameless(Register(o, id, vendor, title, model, now))
  {
    hide R.Pushed, OrElse, Badged, FreshWorker;
    BadgedKeeps(if id in o.workers then o.workers[id] else FreshWorker(id, now), vendor, title,
                if id in o.workers then OrElse(model, o.workers[id].model) else model);
    FreshIsUnscoped(id, now);
  }

  lemma NamelessRegisterMission(o: Ops, id: Id, vendor: string, title: Option<string>, mission: Id,
                                model: Option<Option<string>>, now: int)
    requires !Nameless(o) && id != ""
    ensures !Nameless(RegisterMission(o, id, vendor, title, mission, model, now))
  {
    hide R.Pushed, OnQueue, R.ActiveDelta;
  }

  lemma NamelessOther(o: Ops, a: Action)
    requires !Nameless(o) && !a.Ingest? && !a.FinishMissionWorkers? && !a.RegisterWorker? && !a.RegisterMissionWorker?
    ensures !Nameless(Act(o, a))
  {
  }

  lemma ActSound(o: Ops, a: Action)
    requires Sound(o) && Permitted(o, a)
    ensures Sound(Act(o, a))
  {
    hide Act;
    C.ActCounts(o, a);
    ActOrg(o, a);
    ActNames(o, a);
  }

  predicate PermittedRun(steps: seq<Step>) {
    steps == [] ||
    (PermittedRun(steps[..|steps| - 1])
     && (steps[|steps| - 1].OnWorld? ==>
           Permitted(WorldOf(Run(START, steps[..|steps| - 1])), steps[|steps| - 1].act)))
  }

  lemma SoundBlank(o: Ops)
    ensures Sound(Blank(o)) <==> Sound(o)
  {
  }

  lemma StartSound()
    ensures Sound(EMPTY)
  {
  }

  /** In every run the live world is sound, whether it is on screen or behind a replay. */
  lemma {:induction false} WorldIsSound(steps: seq<Step>)
    requires PermittedRun(steps)
    ensures Sound(WorldOf(Run(START, steps)))
  {
    hide Next, Act, Sound, Blank, WorldOf;
    if steps == [] {
      StartSound();
      WorldAtStart();
    } else {
      var before, step := steps[..|steps| - 1], steps[|steps| - 1];
      WorldIsSound(before);
      RunIsValid(START, before);
      WorldStepSound(Run(START, before), step);
    }
  }

  lemma WorldAtStart()
    ensures WorldOf(START) == EMPTY
  {
  }

  lemma WorldStepSound(s: Store, step: Step)
    requires Valid(s) && Sound(WorldOf(s)) && (step.OnWorld? ==> Permitted(WorldOf(s), step.act))
    ensures Sound(WorldOf(Next(s, step)))
  {
    hide Next, Act, Sound;
    NextWorld(s, step);
    SoundBlank(WorldOf(s));
    SoundBlank(WorldOf(Next(s, step)));
    if step.OnWorld? {
      ActSound(Blank(WorldOf(s)), step.act);
    } else if step.Reset? {
      StartSound();
    }
  }

  // ----- the queue counter

  /** The actions on the world since it was last reset. */
  function SinceReset(steps: seq<Step>): seq<Action> {
    if steps == [] || steps[|steps| - 1].Reset? then []
    else
      var before := SinceReset(steps[..|steps| - 1]);
      if steps[|steps| - 1].OnWorld? then before + [steps[|steps| - 1].act] else before
  }

  lemma {:induction false} WorldIsItsActions(steps: seq<Step>)
    ensures Blank(WorldOf(Run(START, steps))) == C.RunWorld(EMPTY, SinceReset(steps))
  {
    hide Next, Act;
    if steps != [] {
      var before, step := steps[..|steps| - 1], steps[|steps| - 1];
      WorldIsItsActions(before);
      RunIsValid(START, before);
      NextWorld(Run(START, before), step);
      if step.OnWorld? {
        var acts := SinceReset(before);
        assert (acts + [step.act])[..|acts|] == acts;
      }
    }
  }

  lemma QueueBlank(o: Ops)
    ensures ReviewQueue(Blank(o)) == ReviewQueue(o)
  {
    assert Queued(Blank(o)) == Queued(o);
  }

  /** Without mission workers the queue counter is the length of the queue, in every run. */
  lemma StandaloneCounterIsExact(steps: seq<Step>)
    requires forall step :: step in steps ==> !(step.OnWorld? && step.act.RegisterMissionWorker?)
    ensures var o := WorldOf(Run(START, steps)); o.needsInputCount == |ReviewQueue(o)|
  {
    hide Act, Next, Run;
    WorldIsItsActions(steps);
    SinceResetFrom(steps);
    C.StandaloneIsSteady(SinceReset(steps));
    C.ExactIffSteady(SinceReset(steps));
    QueueBlank(WorldOf(Run(START, steps)));
  }

  lemma {:induction false} SinceResetFrom(steps: seq<Step>)
    ensures forall a :: a in SinceReset(steps) ==> OnWorld(a) in steps
  {
    if steps != [] {
      SinceResetFrom(steps[..|steps| - 1]);
    }
  }

  // ----- the replayed state

  function Ingests(events: seq<Event>): seq<Action> {
    seq(|events|, i requires 0 <= i < |events| => Ingest(events[i]))
  }

  lemma {:induction false} FoldIsRun(events: seq<Event>)
    ensures R.Fold(EMPTY, events) == C.RunWorld(EMPTY, Ingests(events))
  {
    hide R.Apply;
    if events != [] {
      var before := events[..|events| - 1];
      FoldIsRun(before);
      assert Ingests(events)[..|events| - 1] == Ingests(before);
    }
  }

  /** What a replay shows counts right too: the workers still active, and the finished ones. */
  lemma ReplayedCounters(events: seq<Event>)
    ensures var o := H.After(events);
      && o.activeCount == |set w | w in o.workers && !o.workers[w].state.Terminal()|
      && o.needsInputCount == |set w | w in o.workers && o.workers[w].state.Terminal()|
  {
    hide R.Fold, Act;
    var acts, o := Ingests(events), H.After(events);
    FoldIsRun(events);
    C.RunCounts(acts);
    C.StandaloneIsSteady(acts);
    C.ExactIffSteady(acts);
    C.QueueLength(o);
    C.StandaloneRun(acts);
    FoldKeepsRest(EMPTY, events);
    assert Queued(o) == set w | w in o.workers && o.workers[w].state.Terminal() by {
      forall w | w in o.workers ensures !o.workers[w].mission.scoped {
        C.NoMissionRecord(o, w);
      }
    }
    assert C.ActiveSet(o) == set w | w in o.workers && !o.workers[w].state.Terminal();
  }
}
