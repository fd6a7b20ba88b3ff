/** Kahn's algorithm over a plan's task graph: the waves in which its tasks can be dispatched. */
module Layering {
  import opened Chains
  import opened OpsTypes

  datatype PlanTask = PlanTask(index: int, dependsOn: seq<int>)

  function Members(s: seq<int>): set<int> {
    set x | x in s
  }

  function Indexes(tasks: seq<PlanTask>): set<int> {
    set task | task in tasks :: task.index
  }

  /** Tasks as the plan is prepared: indexes differ, and dependencies are on other tasks of the plan. */
  ghost predicate Prepared(tasks: seq<PlanTask>) {
    && (forall i, j :: 0 <= i < j < |tasks| ==> tasks[i].index != tasks[j].index)
    && (forall i :: 0 <= i < |tasks| ==>
          NoDuplicates(tasks[i].dependsOn) && Members(tasks[i].dependsOn) <= Indexes(tasks))
  }

  ghost function GraphOf(tasks: seq<PlanTask>): Graph {
    if tasks == [] then map[]
    else GraphOf(tasks[..|tasks| - 1])[tasks[|tasks| - 1].index := Members(tasks[|tasks| - 1].dependsOn)]
  }

  lemma IndexesSnoc(tasks: seq<PlanTask>, task: PlanTask)
    ensures Indexes(tasks + [task]) == Indexes(tasks) + {task.index}
  {
  }

  lemma {:induction false} GraphOfKeys(tasks: seq<PlanTask>)
    ensures GraphOf(tasks).Keys == Indexes(tasks)
  {
    if tasks != [] {
      var rest, last := tasks[..|tasks| - 1], tasks[|tasks| - 1];
      GraphOfKeys(rest);
      IndexesSnoc(rest, last);
      assert tasks == rest + [last];
    }
  }

  lemma {:induction false} GraphOfAt(tasks: seq<PlanTask>, i: nat)
    requires (forall i, j :: 0 <= i < j < |tasks| ==> tasks[i].index != tasks[j].index) && i < |tasks|
    ensures tasks[i].index in GraphOf(tasks) && GraphOf(tasks)[tasks[i].index] == Members(tasks[i].dependsOn)
  {
    if i < |tasks| - 1 {
      GraphOfAt(tasks[..|tasks| - 1], i);
    }
  }

  lemma GraphOfMeans(tasks: seq<PlanTask>)
    requires forall i, j :: 0 <= i < j < |tasks| ==> tasks[i].index != tasks[j].index
    ensures GraphOf(tasks).Keys == Indexes(tasks)
    ensures forall i :: 0 <= i < |tasks| ==>
              tasks[i].index in GraphOf(tasks) && GraphOf(tasks)[tasks[i].index] == Members(tasks[i].dependsOn)
  {
    hide GraphOf;
    GraphOfKeys(tasks);
    forall i | 0 <= i < |tasks|
      ensures tasks[i].index in GraphOf(tasks) && GraphOf(tasks)[tasks[i].index] == Members(tasks[i].dependsOn)
    {
      GraphOfAt(tasks, i);
    }
  }

  lemma PreparedIsClosed(tasks: seq<PlanTask>)
    requires Prepared(tasks)
    ensures Closed(GraphOf(tasks))
  {
    GraphOfMeans(tasks);
    forall t | t in GraphOf(tasks) ensures GraphOf(tasks)[t] <= GraphOf(tasks).Keys {
      var task :| task in tasks && task.index == t;
      var i :| 0 <= i < |tasks| && tasks[i] == task;
    }
  }

  // ----- sorting a wave

  ghost predicate Ascending(s: seq<int>) {
    forall i, j :: 0 <= i < j < |s| ==> s[i] < s[j]
  }

  ghost predicate NonDescending(s: seq<int>) {
    forall i, j :: 0 <= i < j < |s| ==> s[i] <= s[j]
  }

  function Inserted(s: seq<int>, x: int): (r: seq<int>)
    ensures multiset(r) == multiset(s) + multiset{x}
    ensures forall y :: y in r <==> y in s || y == x
  {
    if s == [] then [x]
    else
      var last := s[|s| - 1];
      assert s == s[..|s| - 1] + [last];
      if last <= x then s + [x] else Inserted(s[..|s| - 1], x) + [last]
  }

  lemma {:induction false} InsertedInOrder(s: seq<int>, x: int)
    requires NonDescending(s)
    ensures NonDescending(Inserted(s, x))
  {
    if s != [] && s[|s| - 1] > x {
      var rest, last := s[..|s| - 1], s[|s| - 1];
      InsertedInOrder(rest, x);
      forall i | 0 <= i < |Inserted(rest, x)| ensures Inserted(rest, x)[i] <= last {
        assert Inserted(rest, x)[i] in Inserted(rest, x);
      }
    }
  }

  function Sorted(s: seq<int>): (r: seq<int>)
    ensures multiset(r) == multiset(s)
    ensures forall y :: y in r <==> y in s
  {
    if s == [] then []
    else
      assert s == s[..|s| - 1] + [s[|s| - 1]];
      Inserted(Sorted(s[..|s| - 1]), s[|s| - 1])
  }

  lemma {:induction false} SortedInOrder(s: seq<int>)
    ensures NonDescending(Sorted(s))
  {
    if s != [] {
      SortedInOrder(s[..|s| - 1]);
      InsertedInOrder(Sorted(s[..|s| - 1]), s[|s| - 1]);
    }
  }

  lemma {:induction false} CountsOnce(s: seq<int>)
    ensures NoDuplicates(s) <==> forall x :: x in s ==> multiset(s)[x] == 1
  {
    if s != [] {
      var rest, last := s[..|s| - 1], s[|s| - 1];
      assert s == rest + [last];
      CountsOnce(rest);
      assert multiset(s) == multiset(rest) + multiset{last};
      assert last in rest <==> multiset(rest)[last] > 0;
      if NoDuplicates(s) {
        assert last !in rest;
      } else if NoDuplicates(rest) {
        assert last in rest && multiset(s)[last] > 1;
      } else {
        var x :| x in rest && multiset(rest)[x] != 1;
        assert x in s && multiset(s)[x] > 1;
      }
    }
  }

  /** A wave lists its tasks in ascending order. */
  lemma SortedAscends(s: seq<int>)
    requires NoDuplicates(s)
    ensures Ascending(Sorted(s)) && Members(Sorted(s)) == Members(s) && (s != [] ==> Sorted(s) != [])
  {
    SortedInOrder(s);
    CountsOnce(s);
    CountsOnce(Sorted(s));
    assert s != [] ==> s[0] in Sorted(s);
  }

  // ----- counting the edges

  ghost predicate Degrees(g: Graph, indegree: map<int, int>) {
    indegree.Keys == g.Keys && forall t :: t in g ==> indegree[t] == |g[t]|
  }

  ghost predicate Dependents(g: Graph, dependents: map<int, seq<int>>) {
    && dependents.Keys == g.Keys
    && (forall t :: t in g ==> NoDuplicates(dependents[t]))
    && (forall t, c :: t in g ==> (c in dependents[t] <==> DependsOn(g, c, t)))
  }

  lemma EdgeAdded(g: Graph, indegree: map<int, int>, dependents: map<int, seq<int>>, t: int, dep: int)
    requires Degrees(g, indegree) && Dependents(g, dependents)
    requires t in g && dep in g && dep !in g[t]
    ensures t in indegree && dep in dependents
    ensures Degrees(g[t := g[t] + {dep}], indegree[t := indegree[t] + 1])
    ensures Dependents(g[t := g[t] + {dep}], dependents[dep := dependents[dep] + [t]])
  {
    var g', dependents' := g[t := g[t] + {dep}], dependents[dep := dependents[dep] + [t]];
    assert !DependsOn(g, t, dep);
    forall u, c | u in g' ensures c in dependents'[u] <==> DependsOn(g', c, u) {
      assert c in dependents[u] <==> DependsOn(g, c, u);
    }
    assert NoDuplicates(dependents'[dep]);
  }

  /** The edges of one task, counted at both ends. */
  method CountTask(t: int, dependsOn: seq<int>, indegree: map<int, int>, dependents: map<int, seq<int>>, ghost g: Graph)
    returns (indegree': map<int, int>, dependents': map<int, seq<int>>)
    requires Degrees(g, indegree) && Dependents(g, dependents)
    requires t in g && g[t] == {} && NoDuplicates(dependsOn) && Members(dependsOn) <= g.Keys
    ensures Degrees(g[t := Members(dependsOn)], indegree') && Dependents(g[t := Members(dependsOn)], dependents')
  {
    hide Degrees, Dependents;
    indegree', dependents' := indegree, dependents;
    assert Members(dependsOn[..0]) == {} && g[t := {}] == g;
    for m := 0 to |dependsOn|
      invariant Degrees(g[t := Members(dependsOn[..m])], indegree')
      invariant Dependents(g[t := Members(dependsOn[..m])], dependents')
    {
      var dep := dependsOn[m];
      ghost var counted := g[t := Members(dependsOn[..m])];
      assert dep in Members(dependsOn);
      EdgeAdded(counted, indegree', dependents', t, dep);
      assert dependsOn[..m + 1] == dependsOn[..m] + [dep];
      assert Members(dependsOn[..m + 1]) == Members(dependsOn[..m]) + {dep};
      assert counted[t := counted[t] + {dep}] == g[t := Members(dependsOn[..m + 1])];
      indegree' := indegree'[t := indegree'[t] + 1];
      dependents' := dependents'[dep := dependents'[dep] + [t]];
    }
    assert dependsOn[..|dependsOn|] == dependsOn;
  }

  /** The tasks with none of their edges yet. */
  ghost function Bare(tasks: seq<PlanTask>): Graph {
    map t | t in Indexes(tasks) :: {}
  }

  method StartCounts(tasks: seq<PlanTask>) returns (indegree: map<int, int>, dependents: map<int, seq<int>>)
    ensures Degrees(Bare(tasks), indegree) && Dependents(Bare(tasks), dependents)
  {
    indegree, dependents := map[], map[];
    for n := 0 to |tasks|
      invariant indegree.Keys == dependents.Keys == Indexes(tasks[..n])
      invariant forall t :: t in indegree ==> indegree[t] == 0 && dependents[t] == []
    {
      assert tasks[..n + 1] == tasks[..n] + [tasks[n]];
      assert Indexes(tasks[..n + 1]) == Indexes(tasks[..n]) + {tasks[n].index};
      indegree, dependents := indegree[tasks[n].index := 0], dependents[tasks[n].index := []];
    }
    assert tasks[..|tasks|] == tasks;
  }

  /** The edges of the first `n` tasks. */
  ghost function Partly(tasks: seq<PlanTask>, n: nat): Graph
    requires n <= |tasks|
  {
    Bare(tasks) + GraphOf(tasks[..n])
  }

  lemma PartlyFresh(tasks: seq<PlanTask>, n: nat)
    requires Prepared(tasks) && n < |tasks|
    ensures tasks[n].index in Partly(tasks, n) && Partly(tasks, n)[tasks[n].index] == {}
    ensures Partly(tasks, n).Keys == Indexes(tasks)
  {
    GraphOfMeans(tasks[..n]);
    assert tasks[n] in tasks && tasks[n].index !in Indexes(tasks[..n]);
    assert Indexes(tasks[..n]) <= Indexes(tasks);
  }

  lemma PartlyMore(tasks: seq<PlanTask>, n: nat)
    requires n < |tasks|
    ensures Partly(tasks, n + 1) == Partly(tasks, n)[tasks[n].index := Members(tasks[n].dependsOn)]
  {
    assert tasks[..n + 1][..n] == tasks[..n];
  }

  lemma PartlyAll(tasks: seq<PlanTask>)
    requires Prepared(tasks)
    ensures Partly(tasks, 0) == Bare(tasks) && Partly(tasks, |tasks|) == GraphOf(tasks)
  {
    GraphOfMeans(tasks);
    assert tasks[..0] == [] && GraphOf([]) == map[];
    assert tasks[..|tasks|] == tasks;
    hide GraphOf;
    assert Bare(tasks).Keys == GraphOf(tasks).Keys;
  }

  method CountEdges(tasks: seq<PlanTask>) returns (indegree: map<int, int>, dependents: map<int, seq<int>>)
    requires Prepared(tasks)
    ensures Degrees(GraphOf(tasks), indegree) && Dependents(GraphOf(tasks), dependents)
  {
    hide Degrees, Dependents, GraphOf, Partly;
    indegree, dependents := StartCounts(tasks);
    PartlyAll(tasks);
    for n := 0 to |tasks|
      invariant Degrees(Partly(tasks, n), indegree) && Dependents(Partly(tasks, n), dependents)
    {
      PartlyFresh(tasks, n);
      PartlyMore(tasks, n);
      indegree, dependents := CountTask(tasks[n].index, tasks[n].dependsOn, indegree, dependents, Partly(tasks, n));
    }
  }

  // ----- the rounds

  /** The graph once the tasks of `done` no longer hold anyone up. */
  ghost function Minus(g: Graph, done: set<int>): Graph {
    map t | t in g :: g[t] - done
  }

  /** One scheduled task releases those that depend on it; the ones left with nothing to wait for are free. */
  method Release(task: int, children: seq<int>, indegree: map<int, int>, ghost g: Graph)
    returns (left: map<int, int>, freed: seq<int>)
    requires Degrees(g, indegree) && NoDuplicates(children)
    requires forall c :: c in children <==> DependsOn(g, c, task)
    ensures Degrees(Minus(g, {task}), left)
    ensures NoDuplicates(freed) && forall c :: c in freed <==> DependsOn(g, c, task) && g[c] == {task}
  {
    left, freed := indegree, [];
    for n := 0 to |children|
      invariant left.Keys == g.Keys
      invariant forall c :: c in g ==> left[c] == |g[c]| - if c in children[..n] then 1 else 0
      invariant NoDuplicates(freed) && forall c :: c in freed <==> c in g && c in children[..n] && |g[c]| == 1
    {
      var child := children[n];
      assert DependsOn(g, child, task) && child !in children[..n];
      assert children[..n + 1] == children[..n] + [child];
      left := left[child := left[child] - 1];
      if left[child] == 0 {
        freed := freed + [child];
      }
    }
    assert children[..|children|] == children;
    Released(task, children, left, g);
  }

  lemma Released(task: int, children: seq<int>, left: map<int, int>, g: Graph)
    requires left.Keys == g.Keys && forall c :: c in children <==> DependsOn(g, c, task)
    requires forall c :: c in g ==> left[c] == |g[c]| - if c in children then 1 else 0
    ensures Degrees(Minus(g, {task}), left)
    ensures forall c :: DependsOn(g, c, task) ==> (|g[c]| == 1 <==> g[c] == {task})
  {
    forall c | c in g ensures left[c] == |Minus(g, {task})[c]| {
      ReleasedSize(g[c], task);
      assert DependsOn(g, c, task) <==> task in g[c];
    }
    forall c | DependsOn(g, c, task) ensures |g[c]| == 1 <==> g[c] == {task} {
      ReleasedSize(g[c], task);
    }
  }

  lemma ReleasedSize(waiting: set<int>, task: int)
    ensures |waiting - {task}| == |waiting| - if task in waiting then 1 else 0
    ensures task in waiting ==> (|waiting| == 1 <==> waiting == {task})
  {
  }

  /** Tasks that everything in `done` sets free, and that were not free already with `before`. */
  ghost predicate FreedBy(g: Graph, t: int, before: set<int>, done: set<int>) {
    t in g && g[t] <= done && !(g[t] <= before)
  }

  lemma MinusMore(g: Graph, done: set<int>, task: int)
    ensures Minus(Minus(g, done), {task}) == Minus(g, done + {task})
  {
    forall t | t in g ensures (g[t] - done) - {task} == g[t] - (done + {task}) {
    }
  }

  lemma MinusDepends(g: Graph, done: set<int>, task: int)
    requires task !in done
    ensures forall c :: DependsOn(Minus(g, done), c, task) <==> DependsOn(g, c, task)
  {
  }

  lemma FreedMore(g: Graph, before: set<int>, done: set<int>, task: int, t: int)
    requires task !in done && before <= done
    ensures FreedBy(g, t, before, done + {task})
       <==> FreedBy(g, t, before, done) || (DependsOn(g, t, task) && Minus(g, done)[t] == {task})
    ensures !(FreedBy(g, t, before, done) && DependsOn(g, t, task))
  {
  }

  lemma JoinedDistinct(a: seq<int>, b: seq<int>)
    requires NoDuplicates(a) && NoDuplicates(b) && forall x :: x in a ==> x !in b
    ensures NoDuplicates(a + b)
  {
    forall i, j | 0 <= i < j < |a + b| ensures (a + b)[i] != (a + b)[j] {
      if i < |a| <= j {
        assert a[i] in a && b[j - |a|] in b;
      }
    }
  }

  /** One round: every task of the frontier releases its dependents; the freed ones are the next frontier. */
  method Round(frontier: seq<int>, indegree: map<int, int>, dependents: map<int, seq<int>>,
               ghost g: Graph, ghost before: set<int>)
    returns (left: map<int, int>, next: seq<int>)
    requires Dependents(g, dependents) && Degrees(Minus(g, before), indegree)
    requires NoDuplicates(frontier) && forall t :: t in frontier ==> t in g && t !in before
    ensures Degrees(Minus(g, before + Members(frontier)), left)
    ensures NoDuplicates(next) && forall t :: t in next <==> FreedBy(g, t, before, before + Members(frontier))
  {
    left, next := indegree, [];
    ghost var done := before;
    for n := 0 to |frontier|
      invariant done == before + Members(frontier[..n])
      invariant Degrees(Minus(g, done), left)
      invariant NoDuplicates(next) && forall t :: t in next <==> FreedBy(g, t, before, done)
    {
      var task := frontier[n];
      assert task in frontier && task !in done;
      MinusDepends(g, done, task);
      MinusMore(g, done, task);
      forall t ensures FreedBy(g, t, before, done + {task})
                  <==> FreedBy(g, t, before, done) || (DependsOn(g, t, task) && Minus(g, done)[t] == {task})
               ensures !(FreedBy(g, t, before, done) && DependsOn(g, t, task))
      {
        FreedMore(g, before, done, task, t);
      }
      var freed;
      left, freed := Release(task, dependents[task], left, Minus(g, done));
      JoinedDistinct(next, freed);
      next := next + freed;
      assert frontier[..n + 1] == frontier[..n] + [task];
      done := done + {task};
    }
    assert frontier[..|frontier|] == frontier;
  }

  // ----- the waves

  /** The tasks of wave `k`: what round `k` settles, or, in a last wave, what no round does. */
  ghost function Layer(g: Graph, rounds: nat, k: nat): set<int> {
    if k < rounds then Settled(g, k + 1) - Settled(g, k) else g.Keys - Settled(g, rounds)
  }

  ghost predicate Waved(g: Graph, waves: seq<seq<int>>, rounds: nat) {
    && rounds <= |waves| <= rounds + 1
    && Settled(g, rounds + 1) == Settled(g, rounds)
    && (forall k :: 0 <= k < |waves| ==> waves[k] != [] && Ascending(waves[k]))
    && (forall k :: 0 <= k < |waves| ==> Members(waves[k]) == Layer(g, rounds, k))
    && (|waves| == rounds ==> Layer(g, rounds, rounds) == {})
  }

  lemma NoDegree(g: Graph, indegree: map<int, int>, frontier: seq<int>)
    requires Degrees(g, indegree)
    requires forall t :: t in frontier <==> t in indegree && indegree[t] == 0
    ensures Members(frontier) == Settled(g, 1)
  {
    forall t ensures t in frontier <==> t in Settled(g, 1) {
      if t in g {
        assert indegree[t] == |g[t]|;
        assert g[t] == {} <==> g[t] <= {};
      }
    }
  }

  method FirstFrontier(tasks: seq<PlanTask>, indegree: map<int, int>) returns (frontier: seq<int>)
    requires Prepared(tasks) && Degrees(GraphOf(tasks), indegree)
    ensures NoDuplicates(frontier) && Members(frontier) == Settled(GraphOf(tasks), 1)
  {
    hide GraphOf, Indexes, Settled;
    GraphOfMeans(tasks);
    frontier := [];
    NoIndexes();
    assert tasks[..0] == [];
    for n := 0 to |tasks|
      invariant NoDuplicates(frontier)
      invariant forall t :: t in frontier <==> t in Indexes(tasks[..n]) && t in indegree && indegree[t] == 0
    {
      assert tasks[..n + 1] == tasks[..n] + [tasks[n]];
      IndexesSnoc(tasks[..n], tasks[n]);
      NewIndex(tasks, n);
      if indegree[tasks[n].index] == 0 {
        frontier := frontier + [tasks[n].index];
      }
    }
    assert tasks[..|tasks|] == tasks;
    NoDegree(GraphOf(tasks), indegree, frontier);
  }

  lemma NoIndexes()
    ensures Indexes([]) == {}
  {
  }

  lemma NewIndex(tasks: seq<PlanTask>, n: nat)
    requires Prepared(tasks) && n < |tasks|
    ensures tasks[n].index in Indexes(tasks) && tasks[n].index !in Indexes(tasks[..n])
  {
  }

  /** Tasks no wave holds, in ascending order. */
  method Unscheduled(tasks: seq<PlanTask>, scheduled: set<int>) returns (left: seq<int>)
    requires Prepared(tasks)
    ensures Ascending(left) && Members(left) == Indexes(tasks) - scheduled
  {
    hide Indexes;
    left := [];
    NoIndexes();
    assert tasks[..0] == [];
    for n := 0 to |tasks|
      invariant NoDuplicates(left)
      invariant forall t :: t in left <==> t in Indexes(tasks[..n]) && t !in scheduled
    {
      assert tasks[..n + 1] == tasks[..n] + [tasks[n]];
      IndexesSnoc(tasks[..n], tasks[n]);
      NewIndex(tasks, n);
      if tasks[n].index !in scheduled {
        left := left + [tasks[n].index];
      }
    }
    assert tasks[..|tasks|] == tasks;
    forall t ensures t in Members(left) <==> t in Indexes(tasks) - scheduled {
    }
    SortedAscends(left);
    left := Sorted(left);
  }

  lemma MoreSettled(g: Graph, rounds: nat, frontier: seq<int>)
    requires frontier != [] && Members(frontier) == Settled(g, rounds + 1) - Settled(g, rounds)
    ensures |g.Keys| - |Settled(g, rounds + 1)| < |g.Keys| - |Settled(g, rounds)|
    ensures |Settled(g, rounds + 1)| <= |g.Keys|
    ensures Settled(g, rounds) + Members(frontier) == Settled(g, rounds + 1)
  {
    SettledGrows(g, rounds);
    assert frontier[0] in Members(frontier);
    SubsetSize(Settled(g, rounds), Settled(g, rounds + 1) - {frontier[0]});
    SubsetSize(Settled(g, rounds + 1), g.Keys);
  }

  lemma {:induction false} SubsetSize(some: set<int>, all: set<int>)
    requires some <= all
    ensures |some| <= |all|
  {
    assert all == some + (all - some);
  }

  lemma NothingSettled(g: Graph)
    ensures Settled(g, 0) == {} && Minus(g, {}) == g
  {
    assert forall t :: t in g ==> g[t] - {} == g[t];
  }

  lemma NextFrontier(g: Graph, rounds: nat, next: seq<int>)
    requires forall t :: t in next <==> FreedBy(g, t, Settled(g, rounds), Settled(g, rounds + 1))
    ensures Members(next) == Settled(g, rounds + 2) - Settled(g, rounds + 1)
  {
  }

  /** The wave loop, and the leftover wave after it. */
  method MakeWaves(tasks: seq<PlanTask>) returns (waves: seq<seq<int>>, rounds: nat)
    requires Prepared(tasks)
    ensures Waved(GraphOf(tasks), waves, rounds)
  {
    hide Settled, GraphOf, Minus, Degrees, Dependents, Ascending, FreedBy, Members, Sorted, Layer, Waved, Indexes;
    ghost var g := GraphOf(tasks);
    GraphOfMeans(tasks);
    NothingSettled(g);
    var indegree, dependents := CountEdges(tasks);
    var frontier := FirstFrontier(tasks, indegree);
    var scheduled: set<int> := {};
    waves, rounds := [], 0;
    while frontier != []
      invariant |waves| == rounds && scheduled == Settled(g, rounds)
      invariant NoDuplicates(frontier) && Members(frontier) == Settled(g, rounds + 1) - Settled(g, rounds)
      invariant Degrees(Minus(g, scheduled), indegree)
      invariant forall k :: 0 <= k < rounds ==>
                  waves[k] != [] && Ascending(waves[k]) && Members(waves[k]) == Settled(g, k + 1) - Settled(g, k)
      decreases |g.Keys| - |Settled(g, rounds)|
    {
      SortedAscends(frontier);
      waves := waves + [Sorted(frontier)];
      MoreSettled(g, rounds, frontier);
      OfFrontier(g, rounds, frontier);
      var next;
      indegree, next := Round(frontier, indegree, dependents, g, scheduled);
      NextFrontier(g, rounds, next);
      scheduled := scheduled + Members(frontier);
      frontier, rounds := next, rounds + 1;
    }
    EmptyFrontier(g, rounds);
    var unscheduled := Unscheduled(tasks, scheduled);
    WavesDone(g, waves, unscheduled);
    if unscheduled != [] {
      waves := waves + [unscheduled];
    }
  }

  lemma WavesDone(g: Graph, waves: seq<seq<int>>, unscheduled: seq<int>)
    requires forall k :: 0 <= k < |waves| ==>
               waves[k] != [] && Ascending(waves[k]) && Members(waves[k]) == Settled(g, k + 1) - Settled(g, k)
    requires Settled(g, |waves| + 1) == Settled(g, |waves|)
    requires Ascending(unscheduled) && Members(unscheduled) == g.Keys - Settled(g, |waves|)
    ensures Waved(g, if unscheduled == [] then waves else waves + [unscheduled], |waves|)
  {
  }

  lemma OfFrontier(g: Graph, rounds: nat, frontier: seq<int>)
    requires Members(frontier) == Settled(g, rounds + 1) - Settled(g, rounds)
    ensures forall t :: t in frontier ==> t in g && t !in Settled(g, rounds)
  {
    SettledGrows(g, rounds);
    forall t | t in frontier ensures t in g && t !in Settled(g, rounds) {
      assert t in Members(frontier);
    }
  }

  lemma EmptyFrontier(g: Graph, rounds: nat)
    requires Members([]) == Settled(g, rounds + 1) - Settled(g, rounds)
    ensures Settled(g, rounds + 1) == Settled(g, rounds)
  {
    SettledGrows(g, rounds);
    forall t | t in Settled(g, rounds + 1) ensures t in Settled(g, rounds) {
      assert t !in Settled(g, rounds + 1) - Settled(g, rounds);
    }
  }

  // ----- what the waves mean

  /**
   * A task is in wave `k` exactly when its longest dependency chain has `k` links, and in the leftover wave
   * exactly when its dependencies lead into a cycle.
   */
  lemma WaveIsLongestChain(g: Graph, waves: seq<seq<int>>, rounds: nat, t: int, k: nat)
    requires Closed(g) && Waved(g, waves, rounds) && t in g && k < |waves|
    ensures t in waves[k] <==> if k < rounds then LongestChain(g, t, k) else ReachesCycle(g, t)
  {
    hide Settled;
    assert t in waves[k] <==> t in Members(waves[k]);
    if k < rounds {
      LayerIsLongestChain(g, t, k);
    } else {
      UnsettledIffCycle(g, t, rounds);
    }
  }

  lemma {:induction false} SettledInSome(g: Graph, t: int, rounds: nat) returns (k: nat)
    requires t in Settled(g, rounds)
    ensures k < rounds && t in Settled(g, k + 1) - Settled(g, k)
  {
    if t in Settled(g, rounds - 1) {
      k := SettledInSome(g, t, rounds - 1);
    } else {
      k := rounds - 1;
    }
  }

  lemma LayersAreDisjoint(g: Graph, rounds: nat, t: int, j: nat, k: nat)
    requires j < k <= rounds && t in Layer(g, rounds, j)
    ensures t !in Layer(g, rounds, k)
  {
    SettledMonotone(g, j + 1, k);
  }

  /** Every task of the plan is in one wave and in no other, and there only once. */
  lemma InOneWave(g: Graph, waves: seq<seq<int>>, rounds: nat, t: int) returns (k: nat)
    requires Waved(g, waves, rounds) && t in g
    ensures k < |waves| && t in waves[k]
    ensures forall j :: 0 <= j < |waves| && t in waves[j] ==> j == k
    ensures multiset(waves[k])[t] == 1
  {
    hide Settled;
    if t in Settled(g, rounds) {
      k := SettledInSome(g, t, rounds);
    } else {
      k := rounds;
    }
    assert t in Layer(g, rounds, k) && t in Members(waves[k]);
    hide Layer;
    forall j | 0 <= j < |waves| && t in waves[j] ensures j == k {
      assert t in Members(waves[j]);
      if j < k {
        LayersAreDisjoint(g, rounds, t, j, k);
      } else if k < j {
        LayersAreDisjoint(g, rounds, t, k, j);
      }
    }
    CountsOnce(waves[k]);
  }

  lemma SettledBefore(g: Graph, t: int, dep: int, k: nat)
    requires t in Settled(g, k + 1) && DependsOn(g, t, dep)
    ensures dep in Settled(g, k)
  {
  }

  /** Dependencies lie in earlier waves, or both ends of the edge are in the leftover wave. */
  lemma EdgesPointBack(g: Graph, waves: seq<seq<int>>, rounds: nat, t: int, dep: int, a: nat, b: nat)
    requires Waved(g, waves, rounds) && DependsOn(g, t, dep)
    requires a < |waves| && t in waves[a] && b < |waves| && dep in waves[b]
    ensures b < a || a == b == rounds
  {
    hide Settled;
    assert t in Members(waves[a]) && dep in Members(waves[b]);
    if a < rounds {
      SettledBefore(g, t, dep, a);
      if a <= b {
        SettledMonotone(g, a, b);
      }
    }
  }
}
