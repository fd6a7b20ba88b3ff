/** What each action on the world writes, table by table, and what it leaves alone. */
module WorldActions {
  import opened OpsTypes
  import opened World
  import R = Reducer
  import S = Squads

  // ----- squads

  /** A squad after an action that names it; every other squad is as it was. */
  lemma SquadAfter(o: Ops, a: Action, id: Id)
    requires a.CreateSquad? || a.RenameSquad? || a.SetSquadColor? || a.DeleteSquad? || a.SetSquadLead?
    ensures var before, after := Get(o.org.squads, id), Get(Act(o, a).org.squads, id);
      if a.squadId != id then after == before
      else
        match a
        case CreateSquad(_, name, color, at) => after == Some(Squad(id, name, color, [], None, at))
        case DeleteSquad(_) => after == None
        case _ =>
          if before.None? then after == None
          else
            var squad := before.value;
            match a
            case RenameSquad(_, name) => after == Some(squad.(name := name))
            case SetSquadColor(_, color) => after == Some(squad.(color := color))
            case SetSquadLead(_, lead) =>
              after == Some(if lead.Some? && lead.value !in squad.workerIds then squad else squad.(lead := lead))
            case _ => true
    ensures a.CreateSquad? ==> Act(o, a).org.order == o.org.order + [a.squadId]
    ensures !a.CreateSquad? && !a.DeleteSquad? ==> Act(o, a).org.order == o.org.order
    ensures !a.DeleteSquad? ==> Act(o, a).org.squadOf == o.org.squadOf
    ensures Act(o, a) == o.(org := Act(o, a).org)
  {
    hide S.Without;
  }

  /** Deleting a squad takes it off the list and frees its workers. */
  lemma SquadDeleted(o: Ops, id: Id)
    requires id in o.org.squads
    ensures var org := Act(o, DeleteSquad(id)).org;
      && (forall x :: x in org.order <==> x in o.org.order && x != id)
      && (forall w :: Get(org.squadOf, w) == if Get(o.org.squadOf, w) == Some(id) then None else Get(o.org.squadOf, w))
  {
    S.WithoutKeeps(o.org.order, {id});
  }

  /** The squad's labels stay, its other members too, and its lead unless it is the worker and that has left. */
  ghost predicate Relabelled(before: Squad, after: Squad, w: Id) {
    && after.id == before.id && after.name == before.name && after.color == before.color
    && after.createdAt == before.createdAt
    && (forall v :: v != w ==> (v in after.workerIds <==> v in before.workerIds))
    && after.lead == (if before.lead == Some(w) && w !in after.workerIds then None else before.lead)
  }

  lemma LeftOrJoined(squad: Squad, w: Id)
    ensures Relabelled(squad, S.Left(squad, w), w) && Relabelled(squad, S.Joined(squad, w), w)
    ensures w in squad.workerIds || squad.lead != Some(w) ==> Relabelled(squad, squad, w)
  {
    S.WithoutKeeps(squad.workerIds, {w});
  }

  /** Assigning a worker changes no squad's name, colour or age, and no other membership. */
  lemma AssigningKeepsLabels(o: Ops, w: Id, squad: Option<Id>, id: Id)
    requires S.Agree(o.org) && id in o.org.squads
    ensures var org := Act(o, AssignWorker(w, squad)).org;
            id in org.squads && Relabelled(o.org.squads[id], org.squads[id], w)
    ensures var org := Act(o, AssignWorker(w, squad)).org;
      && org.order == o.org.order && (forall v :: v != w ==> Get(org.squadOf, v) == Get(o.org.squadOf, v))
      && (squad.Some? && squad.value !in o.org.squads ==> org == o.org)
  {
    assert S.SquadAgrees(o.org, id);
    LeftOrJoined(o.org.squads[id], w);
    hide S.Agree, S.SquadAgrees, S.Left, S.Joined, Relabelled;
  }

  // ----- registration

  /** Who a worker is said to be when it is registered: what is known of it otherwise stays. */
  lemma RegisteredWorker(o: Ops, w: Id, vendor: string, title: Option<string>, model: Option<string>, at: int)
    ensures var after := Act(o, RegisterWorker(w, vendor, title, model, at));
      && after.workers.Keys == o.workers.Keys + {w}
      && (forall v :: v != w && v in o.workers ==> after.workers[v] == o.workers[v])
      && after.workers[w].vendor == vendor && after.workers[w].currentTaskTitle == title
      && (if w in o.workers then
            && after.workers[w] == o.workers[w].(vendor := vendor, currentTaskTitle := title,
                                                 model := if model.Some? then model else o.workers[w].model)
            && after == o.(workers := after.workers)
          else
            && after.workers[w] == FreshWorker(w, at).(vendor := vendor, currentTaskTitle := title, model := model)
            && NewlyListed(o, after, w, at))
  {
    ListedNewly(o, Badged(FreshWorker(w, at), vendor, title, model));
    hide Registered, NewlyListed;
  }

  /** The worker is put at the end of the list, counted as active, and announced at the head of the feed. */
  ghost predicate NewlyListed(o: Ops, after: Ops, w: Id, at: int) {
    && after.workerOrder == o.workerOrder + [w] && after.activeCount == o.activeCount + 1
    && after.alerts == First([Alert(StartedAlert, w, 0, NoDetail, at)] + o.alerts, 24)
    && after == o.(workers := after.workers, workerOrder := after.workerOrder, alerts := after.alerts,
                   activeCount := after.activeCount)
  }

  lemma RegisteredMissionWorker(o: Ops, w: Id, vendor: string, title: Option<string>, mission: Id,
                                given: Option<Option<string>>, at: int)
    ensures var after := Act(o, RegisterMissionWorker(w, vendor, title, mission, given, at));
      && after.workers.Keys == o.workers.Keys + {w}
      && (forall v :: v != w && v in o.workers ==> after.workers[v] == o.workers[v])
      && after.workers[w].mission.scoped && after.workers[w].mission.id == Some(mission)
      && (if w in o.workers then
            var known := o.workers[w];
            && after.workers[w] == known.(vendor := vendor, currentTaskTitle := title,
                                          model := if given.Some? then given.value else known.model,
                                          mission := MissionTag(true, Some(mission), known.mission.timeline))
            && after == o.(workers := after.workers)
          else
            && after.workers[w] == FreshWorker(w, at).(vendor := vendor, currentTaskTitle := title,
                                                       model := if given.Some? then given.value else None,
                                                       mission := MissionTag(true, Some(mission), []))
            && NewlyListed(o, after, w, at))
  {
    ListedNewly(o, Scoped(Badged(FreshWorker(w, at), vendor, title, given.GetOr(None)), mission));
    hide Registered, NewlyListed;
  }

  lemma ListedNewly(o: Ops, w: Worker)
    ensures NewlyListed(o, Registered(o, w), w.id, w.spawnedAt)
    ensures Registered(o, w).workers == o.workers[w.id := w]
  {
    hide R.Pushed;
    PushedIs(o.alerts, Alert(StartedAlert, w.id, 0, NoDetail, w.spawnedAt));
  }

  lemma PushedIs(alerts: seq<Alert>, alert: Alert)
    ensures R.Pushed(alerts, Some(alert)) == First([alert] + alerts, 24)
  {
  }

  /** Setting a model writes that worker's model and nothing else. */
  lemma ModelSet(o: Ops, w: Id, model: Option<string>)
    ensures var after := Act(o, SetWorkerModel(w, model));
      if w in o.workers then
        && w in after.workers && after.workers == o.workers[w := after.workers[w]]
        && after.workers[w] == o.workers[w].(model := model) && after == o.(workers := after.workers)
      else after == o
  {
  }

  // ----- a new mission

  function Kept<T>(table: map<Id, T>, gone: set<Id>, w: Id): Option<T> {
    if w in gone then None else Get(table, w)
  }

  lemma PrunedTables(o: Ops, w: Id)
    ensures var after, gone := Act(o, MissionCreated), MissionWorkers(o);
      && Get(after.workers, w) == Kept(o.workers, gone, w)
      && Get(after.workerEvents, w) == Kept(o.workerEvents, gone, w)
      && Get(after.lastSeq, w) == Kept(o.lastSeq, gone, w)
      && Get(after.reviewStatus, w) == Kept(o.reviewStatus, gone, w)
      && Get(after.org.squadOf, w) == Kept(o.org.squadOf, gone, w)
  {
    hide AlertsWithout, Among, S.Without, S.Thinned, MissionWorkers;
    assert MissionWorkers(o) == {} ==> w !in MissionWorkers(o);
  }

  /** A new mission forgets its predecessors' workers in every table that is kept per worker. */
  lemma PrunedLists(o: Ops)
    ensures var after, gone := Act(o, MissionCreated), MissionWorkers(o);
      && (forall w :: w in after.workerOrder <==> w in o.workerOrder && w !in gone)
      && (forall alert :: alert in after.alerts <==> alert in o.alerts && alert.workerId !in gone)
  {
    S.WithoutKeeps(o.workerOrder, MissionWorkers(o));
    AlertsMean(o.alerts, MissionWorkers(o));
    hide AlertsWithout, Among, S.Without, S.Pruned, MissionWorkers, Unless;
  }

  lemma PruneLeaves(o: Ops)
    ensures var after := Act(o, MissionCreated);
      && after.tasks == o.tasks && after.taskOwner == o.taskOwner && after.edges == o.edges
      && after.totalEvents == o.totalEvents && after.totalSpendUsd == o.totalSpendUsd
      && after.org.squads.Keys == o.org.squads.Keys && after.org.order == o.org.order
  {
    hide AlertsWithout, Among, S.Without, S.Thinned, MissionWorkers, Unless;
  }

  lemma {:induction false} AlertsMean(alerts: seq<Alert>, gone: set<Id>)
    ensures forall alert :: alert in AlertsWithout(alerts, gone) <==> alert in alerts && alert.workerId !in gone
  {
    if alerts != [] {
      AlertsMean(alerts[..|alerts| - 1], gone);
      assert alerts == alerts[..|alerts| - 1] + [alerts[|alerts| - 1]];
    }
  }

  /** `at` lists, in ascending order, the places of the alerts of other workers. */
  ghost predicate Places(alerts: seq<Alert>, gone: set<Id>, at: seq<nat>) {
    && (forall i, j :: 0 <= i < j < |at| ==> at[i] < at[j])
    && (forall k :: k in at <==> 0 <= k < |alerts| && alerts[k].workerId !in gone)
  }

  lemma PlacesSnoc(alerts: seq<Alert>, gone: set<Id>, at: seq<nat>, last: Alert)
    requires Places(alerts, gone, at)
    ensures Places(alerts + [last], gone, if last.workerId in gone then at else at + [|alerts|])
  {
    forall i | 0 <= i < |at| ensures at[i] < |alerts| {
      assert at[i] in at;
    }
  }

  /** The alerts of other workers stay, each as often as before and in the same order. */
  lemma {:induction false} AlertsKept(alerts: seq<Alert>, gone: set<Id>) returns (at: seq<nat>)
    ensures Places(alerts, gone, at) && |at| == |AlertsWithout(alerts, gone)|
    ensures forall i :: 0 <= i < |at| ==> at[i] < |alerts| && AlertsWithout(alerts, gone)[i] == alerts[at[i]]
  {
    if alerts == [] {
      at := [];
    } else {
      var before, last := alerts[..|alerts| - 1], alerts[|alerts| - 1];
      at := AlertsKept(before, gone);
      PlacesSnoc(before, gone, at, last);
      assert alerts == before + [last];
      hide Places;
      var earlier, kept := at, AlertsWithout(before, gone);
      if last.workerId !in gone {
        at := at + [|before|];
      }
      forall i | 0 <= i < |at| ensures at[i] < |alerts| && AlertsWithout(alerts, gone)[i] == alerts[at[i]] {
        if i < |earlier| {
          assert kept[i] == before[earlier[i]];
        }
      }
    }
  }

  lemma AllPlaces(alerts: seq<Alert>) returns (at: seq<nat>)
    ensures Places(alerts, {}, at) && |at| == |alerts| && forall i :: 0 <= i < |at| ==> at[i] == i
  {
    at := seq(|alerts|, (i: nat) => i);
    forall k ensures k in at <==> 0 <= k < |alerts| {
      if 0 <= k < |alerts| {
        assert at[k] == k;
      }
    }
  }

  lemma PrunedAlerts(o: Ops) returns (at: seq<nat>)
    ensures Places(o.alerts, MissionWorkers(o), at) && |at| == |Act(o, MissionCreated).alerts|
    ensures forall i :: 0 <= i < |at| ==> at[i] < |o.alerts| && Act(o, MissionCreated).alerts[i] == o.alerts[at[i]]
  {
    if MissionWorkers(o) == {} {
      at := AllPlaces(o.alerts);
    } else {
      at := AlertsKept(o.alerts, MissionWorkers(o));
    }
    hide Places, AlertsWithout, Among, S.Without, S.Pruned, MissionWorkers;
  }

  /** A squad after some of its workers are forgotten. */
  ghost predicate CrossedOut(before: Squad, after: Squad, gone: set<Id>) {
    && after.id == before.id && after.name == before.name && after.color == before.color
    && after.createdAt == before.createdAt
    && (forall w :: w in after.workerIds <==> w in before.workerIds && w !in gone)
    && after.lead == (match before.lead
                      case Some(lead) => if lead != "" && lead in gone then None else Some(lead)
                      case None => None)
  }

  lemma ThinnedMeans(squad: Squad, gone: set<Id>)
    ensures CrossedOut(squad, S.Thinned(squad, gone), gone) && CrossedOut(squad, squad, {})
  {
    S.WithoutKeeps(squad.workerIds, gone);
  }

  /** In a squad the forgotten workers are crossed out, and so is a lead among them. */
  lemma PrunedSquad(o: Ops, id: Id)
    requires id in o.org.squads
    ensures var org := Act(o, MissionCreated).org;
            id in org.squads && CrossedOut(o.org.squads[id], org.squads[id], MissionWorkers(o))
  {
    ThinnedMeans(o.org.squads[id], MissionWorkers(o));
    hide AlertsWithout, Among, S.Without, S.Thinned, MissionWorkers, CrossedOut;
  }

  /** What is selected or focused is dropped with the worker, unless that has the empty id. */
  lemma PrunedFocus(o: Ops)
    ensures var gone, after := MissionWorkers(o), Act(o, MissionCreated);
      && after.ui.selected == (if o.ui.selected.Some? && o.ui.selected.value != "" && o.ui.selected.value in gone
                               then None else o.ui.selected)
      && after.ui.reviewFocus
         == (if o.ui.reviewFocus.Some? && o.ui.reviewFocus.value != "" && o.ui.reviewFocus.value in gone
             then None else o.ui.reviewFocus)
  {
    hide AlertsWithout, Among, S.Without, S.Pruned, MissionWorkers;
  }
}
