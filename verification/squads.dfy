/** The squad tables: which workers belong to which squad, and who leads it. */
module Squads {
  import opened OpsTypes

  /** The sequence without the elements of `gone`. */
  function Without(s: seq<Id>, gone: set<Id>): seq<Id> {
    if s == [] then []
    else
      var kept := Without(s[..|s| - 1], gone);
      if s[|s| - 1] in gone then kept else kept + [s[|s| - 1]]
  }

  lemma {:induction false} WithoutKeeps(s: seq<Id>, gone: set<Id>)
    ensures forall x :: x in Without(s, gone) <==> x in s && x !in gone
    ensures NoDuplicates(s) ==> NoDuplicates(Without(s, gone))
    ensures |Without(s, gone)| <= |s|
  {
    if s != [] {
      WithoutKeeps(s[..|s| - 1], gone);
      assert s == s[..|s| - 1] + [s[|s| - 1]];
    }
  }

  // ----- actions

  function Create(org: SquadTables, id: Id, name: string, color: string, at: int): SquadTables {
    org.(squads := org.squads[id := Squad(id, name, color, [], None, at)], order := org.order + [id])
  }

  function Rename(org: SquadTables, id: Id, name: string): SquadTables {
    if id in org.squads then org.(squads := org.squads[id := org.squads[id].(name := name)]) else org
  }

  function Recolor(org: SquadTables, id: Id, color: string): SquadTables {
    if id in org.squads then org.(squads := org.squads[id := org.squads[id].(color := color)]) else org
  }

  function Deleted(org: SquadTables, id: Id): SquadTables {
    if id !in org.squads then org
    else SquadTables(org.squads - {id}, Without(org.order, {id}),
                     map w | w in org.squadOf && org.squadOf[w] != id :: org.squadOf[w])
  }

  function Left(squad: Squad, w: Id): Squad {
    squad.(workerIds := Without(squad.workerIds, {w}), lead := if squad.lead == Some(w) then None else squad.lead)
  }

  function Joined(squad: Squad, w: Id): Squad {
    if w in squad.workerIds then squad else squad.(workerIds := squad.workerIds + [w])
  }

  /** The worker leaves the squad it was in, if another, and joins the one given, if any. */
  function Assigned(org: SquadTables, w: Id, squad: Option<Id>): SquadTables {
    if squad.Some? && squad.value !in org.squads then org
    else
      var prior := Get(org.squadOf, w);
      SquadTables(map id | id in org.squads ::
                    if squad == Some(id) then Joined(org.squads[id], w)
                    else if prior == Some(id) && id != "" then Left(org.squads[id], w)
                    else org.squads[id],
                  org.order,
                  if squad.Some? then org.squadOf[w := squad.value] else org.squadOf - {w})
  }

  function Led(org: SquadTables, id: Id, lead: Option<Id>): SquadTables {
    if id !in org.squads || (lead.Some? && lead.value !in org.squads[id].workerIds) then org
    else org.(squads := org.squads[id := org.squads[id].(lead := lead)])
  }

  /** A squad after some workers are forgotten. */
  function Thinned(squad: Squad, gone: set<Id>): Squad {
    squad.(workerIds := Without(squad.workerIds, gone),
           lead := if Truthy(squad.lead) && squad.lead.value in gone then None else squad.lead)
  }

  function Pruned(org: SquadTables, gone: set<Id>): SquadTables {
    SquadTables(map id | id in org.squads :: Thinned(org.squads[id], gone), org.order, org.squadOf - gone)
  }

  // ----- the two actions that build their tables step by step

  method AssignWorkerToSquad(org: SquadTables, w: Id, squad: Option<Id>) returns (next: SquadTables)
    ensures next == Assigned(org, w, squad)
  {
    if squad.Some? && squad.value !in org.squads {
      return org;
    }
    var squads := org.squads;
    var prior := Get(org.squadOf, w);
    if Truthy(prior) && prior != squad && prior.value in squads {
      squads := squads[prior.value := Left(squads[prior.value], w)];
    }
    if squad.Some? {
      var existing := squads[squad.value].workerIds;
      if w !in existing {
        squads := squads[squad.value := squads[squad.value].(workerIds := existing + [w])];
      }
    }
    var squadOf := org.squadOf;
    if squad.None? {
      squadOf := squadOf - {w};
    } else {
      squadOf := squadOf[w := squad.value];
    }
    next := org.(squads := squads, squadOf := squadOf);
    assert next.squads == Assigned(org, w, squad).squads;
  }

  method DeleteSquad(org: SquadTables, id: Id) returns (next: SquadTables)
    ensures next == Deleted(org, id)
  {
    if id !in org.squads {
      return org;
    }
    var squadOf: map<Id, Id> := map[];
    var keys := org.squadOf.Keys;
    while keys != {}
      invariant keys <= org.squadOf.Keys
      invariant squadOf == map w | w in org.squadOf && w !in keys && org.squadOf[w] != id :: org.squadOf[w]
      decreases keys
    {
      var w :| w in keys;
      keys := keys - {w};
      if org.squadOf[w] != id {
        squadOf := squadOf[w := org.squadOf[w]];
      }
    }
    next := SquadTables(org.squads - {id}, Without(org.order, {id}), squadOf);
  }

  // ----- what holds of the tables

  ghost predicate SquadAgrees(org: SquadTables, id: Id)
    requires id in org.squads
  {
    var squad := org.squads[id];
    && squad.id == id && id != ""
    && (forall w :: w in squad.workerIds <==> Get(org.squadOf, w) == Some(id))
    && NoDuplicates(squad.workerIds)
    && (squad.lead.Some? ==> squad.lead.value in squad.workerIds)
  }

  /**
   * The two directions of the membership table say the same, no squad lists a worker twice or is led
   * by a stranger, and the list of squads enumerates them.
   */
  ghost predicate Agree(org: SquadTables) {
    && (forall id :: id in org.squads ==> SquadAgrees(org, id))
    && (forall w :: w in org.squadOf ==> org.squadOf[w] in org.squads)
    && NoDuplicates(org.order) && (forall id :: id in org.order <==> id in org.squads)
  }

  /** No worker is in two squads. */
  lemma SquadsAreDisjoint(org: SquadTables, one: Id, other: Id, w: Id)
    requires Agree(org) && one in org.squads && other in org.squads
    requires w in org.squads[one].workerIds && w in org.squads[other].workerIds
    ensures one == other
  {
  }

  lemma CreateAgrees(org: SquadTables, id: Id, name: string, color: string, at: int)
    requires Agree(org) && id !in org.squads && id != ""
    ensures Agree(Create(org, id, name, color, at))
  {
  }

  lemma RelabelAgrees(org: SquadTables, id: Id, text: string)
    requires Agree(org)
    ensures Agree(Rename(org, id, text)) && Agree(Recolor(org, id, text))
  {
    forall other | other in org.squads
      ensures SquadAgrees(Rename(org, id, text), other) && SquadAgrees(Recolor(org, id, text), other)
    {
      assert SquadAgrees(org, other);
    }
  }

  lemma DeletedAgrees(org: SquadTables, id: Id)
    requires Agree(org)
    ensures Agree(Deleted(org, id))
  {
    var next := Deleted(org, id);
    WithoutKeeps(org.order, {id});
    forall other | other in next.squads ensures SquadAgrees(next, other) {
      assert SquadAgrees(org, other);
    }
  }

  lemma AssignedSquad(org: SquadTables, w: Id, squad: Option<Id>, id: Id)
    requires Agree(org) && id in Assigned(org, w, squad).squads
    ensures SquadAgrees(Assigned(org, w, squad), id)
  {
    assert SquadAgrees(org, id);
    var was, prior := org.squads[id], Get(org.squadOf, w);
    if squad == Some(id) {
      assert Assigned(org, w, squad).squads[id] == Joined(was, w);
    } else if prior == Some(id) {
      WithoutKeeps(was.workerIds, {w});
      assert w !in Left(was, w).workerIds;
    } else {
      assert Assigned(org, w, squad).squads[id] == was;
      assert w !in was.workerIds;
    }
  }

  /** The worker ends up in the given squad and in no other. */
  lemma AssignedAgrees(org: SquadTables, w: Id, squad: Option<Id>)
    requires Agree(org)
    ensures Agree(Assigned(org, w, squad))
    ensures squad.None? || squad.value in org.squads ==> Get(Assigned(org, w, squad).squadOf, w) == squad
  {
    hide SquadAgrees;
    forall id | id in Assigned(org, w, squad).squads ensures SquadAgrees(Assigned(org, w, squad), id) {
      AssignedSquad(org, w, squad, id);
    }
  }

  lemma LedAgrees(org: SquadTables, id: Id, lead: Option<Id>)
    requires Agree(org)
    ensures Agree(Led(org, id, lead))
  {
  }

  lemma PrunedSquad(org: SquadTables, gone: set<Id>, id: Id)
    requires Agree(org) && id in org.squads
    ensures SquadAgrees(Pruned(org, gone), id) <==> !(org.squads[id].lead == Some("") && "" in gone)
  {
    assert SquadAgrees(org, id);
    WithoutKeeps(org.squads[id].workerIds, gone);
  }

  /**
   * Forgetting workers keeps the tables in agreement, unless a squad is led by a forgotten worker with the
   * empty id: that lead is taken for none and stays.
   */
  lemma PrunedAgreesIff(org: SquadTables, gone: set<Id>)
    requires Agree(org)
    ensures Agree(Pruned(org, gone))
       <==> "" !in gone || forall id :: id in org.squads ==> org.squads[id].lead != Some("")
  {
    hide SquadAgrees;
    forall id | id in org.squads
      ensures SquadAgrees(Pruned(org, gone), id) <==> !(org.squads[id].lead == Some("") && "" in gone)
    {
      PrunedSquad(org, gone, id);
    }
    assert forall w :: w in Pruned(org, gone).squadOf ==> w in org.squadOf;
  }
}
