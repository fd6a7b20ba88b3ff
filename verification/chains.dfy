/** Chains of dependencies in a task graph: how long they get, and when they never end. */
module Chains {

  /** Each task with the tasks it depends on. */
  type Graph = map<int, set<int>>

  ghost predicate Closed(g: Graph) {
    forall t :: t in g ==> g[t] <= g.Keys
  }

  predicate DependsOn(g: Graph, t: int, other: int) {
    t in g && other in g[t]
  }

  /** Each task of the chain depends on the next. */
  ghost predicate Chain(g: Graph, chain: seq<int>) {
    && chain != [] && chain[0] in g
    && forall i, j :: 0 <= i < |chain| && j == i + 1 < |chain| ==> DependsOn(g, chain[i], chain[j])
  }

  ghost predicate ChainFrom(g: Graph, t: int, links: nat) {
    exists chain :: Chain(g, chain) && chain[0] == t && |chain| == links + 1
  }

  /** The longest chain that starts at `t` has exactly this many links. */
  ghost predicate LongestChain(g: Graph, t: int, links: nat) {
    ChainFrom(g, t, links) && !ChainFrom(g, t, links + 1)
  }

  /** Some chain from `t` comes back to a task it has already passed. */
  ghost predicate ReachesCycle(g: Graph, t: int) {
    exists chain, i, j :: Chain(g, chain) && chain[0] == t && 0 <= i < j < |chain| && chain[i] == chain[j]
  }

  /** The tasks from which no chain has `rounds` links: those that many rounds can schedule. */
  ghost function Settled(g: Graph, rounds: nat): set<int> {
    if rounds == 0 then {} else set t | t in g && g[t] <= Settled(g, rounds - 1)
  }

  lemma {:induction false} SettledGrows(g: Graph, rounds: nat)
    ensures Settled(g, rounds) <= Settled(g, rounds + 1) <= g.Keys
  {
    if rounds > 0 {
      SettledGrows(g, rounds - 1);
    }
  }

  lemma {:induction false} SettledMonotone(g: Graph, few: nat, many: nat)
    requires few <= many
    ensures Settled(g, few) <= Settled(g, many)
    decreases many
  {
    if few < many {
      SettledMonotone(g, few, many - 1);
      SettledGrows(g, many - 1);
    }
  }

  lemma Outside(some: set<int>, others: set<int>) returns (x: int)
    requires !(some <= others)
    ensures x in some && x !in others
  {
    if forall y :: y in some ==> y in others {
      assert false;
    }
    x :| x in some && x !in others;
  }

  lemma {:induction false} SettledIff(g: Graph, t: int, rounds: nat)
    requires Closed(g) && t in g
    ensures t in Settled(g, rounds) <==> !ChainFrom(g, t, rounds)
    decreases rounds
  {
    if rounds == 0 {
      assert Chain(g, [t]);
    } else {
      if t !in Settled(g, rounds) {
        var next := Outside(g[t], Settled(g, rounds - 1));
        SettledIff(g, next, rounds - 1);
        var rest :| Chain(g, rest) && rest[0] == next && |rest| == rounds;
        var chain := [t] + rest;
        assert forall i :: 0 < i < |chain| ==> chain[i] == rest[i - 1];
        assert Chain(g, chain);
      }
      if ChainFrom(g, t, rounds) {
        var chain :| Chain(g, chain) && chain[0] == t && |chain| == rounds + 1;
        var rest := chain[1..];
        assert DependsOn(g, chain[0], chain[1]);
        assert Chain(g, rest);
        SettledIff(g, chain[1], rounds - 1);
      }
    }
  }

  /** What one round adds is exactly the tasks whose longest chain has that many links. */
  lemma LayerIsLongestChain(g: Graph, t: int, rounds: nat)
    requires Closed(g) && t in g
    ensures t in Settled(g, rounds + 1) - Settled(g, rounds) <==> LongestChain(g, t, rounds)
  {
    SettledIff(g, t, rounds);
    SettledIff(g, t, rounds + 1);
  }

  lemma {:induction false} Stuck(g: Graph, rounds: nat, more: nat)
    requires Settled(g, rounds + 1) == Settled(g, rounds)
    ensures Settled(g, rounds + more) == Settled(g, rounds)
  {
    if more > 0 {
      Stuck(g, rounds, more - 1);
    }
  }

  lemma Prefix(g: Graph, chain: seq<int>, n: nat)
    requires Chain(g, chain) && 0 < n <= |chain|
    ensures Chain(g, chain[..n])
  {
  }

  lemma {:induction false} TooManyToDiffer(s: seq<int>, among: set<int>)
    requires (forall i :: 0 <= i < |s| ==> s[i] in among) && |s| > |among|
    ensures exists i, j :: 0 <= i < j < |s| && s[i] == s[j]
    decreases among
  {
    var last := s[|s| - 1];
    var rest := s[..|s| - 1];
    if last in rest {
      var i :| 0 <= i < |rest| && rest[i] == last;
      assert s[i] == s[|s| - 1];
    } else {
      TooManyToDiffer(rest, among - {last});
      var i, j :| 0 <= i < j < |rest| && rest[i] == rest[j];
      assert s[i] == s[j];
    }
  }

  lemma ChainStays(g: Graph, chain: seq<int>)
    requires Closed(g) && Chain(g, chain)
    ensures forall i :: 0 <= i < |chain| ==> chain[i] in g
  {
    forall i | 0 <= i < |chain| ensures chain[i] in g {
      if i > 0 {
        assert DependsOn(g, chain[i - 1], chain[i]);
      }
    }
  }

  /** Going round the cycle once more makes a longer chain. */
  lemma Unrolled(g: Graph, chain: seq<int>, i: nat, j: nat) returns (longer: seq<int>)
    requires Chain(g, chain) && i < j < |chain| && chain[i] == chain[j]
    ensures Chain(g, longer) && longer[0] == chain[0] && |longer| == |chain| + (j - i)
    ensures longer[i] == longer[j]
  {
    longer := chain[..j] + chain[i..];
    assert forall k :: 0 <= k < |longer| ==> longer[k] == if k < j then chain[k] else chain[k - (j - i)];
    forall k, l | 0 <= k < |longer| && l == k + 1 < |longer| ensures DependsOn(g, longer[k], longer[l]) {
      if l <= j {
        assert DependsOn(g, chain[k], chain[l]);
      } else {
        assert DependsOn(g, chain[k - (j - i)], chain[l - (j - i)]);
      }
    }
  }

  lemma {:induction false} CycleHasChains(g: Graph, chain: seq<int>, i: nat, j: nat, links: nat)
    requires Chain(g, chain) && i < j < |chain| && chain[i] == chain[j]
    ensures ChainFrom(g, chain[0], links)
    decreases links + 1 - |chain|
  {
    if |chain| >= links + 1 {
      Prefix(g, chain, links + 1);
      assert chain[..links + 1][0] == chain[0];
    } else {
      var longer := Unrolled(g, chain, i, j);
      CycleHasChains(g, longer, i, j, links);
    }
  }

  /** A task that no round settles is exactly one from which a cycle can be reached. */
  lemma UnsettledIffCycle(g: Graph, t: int, rounds: nat)
    requires Closed(g) && t in g && Settled(g, rounds + 1) == Settled(g, rounds)
    ensures t !in Settled(g, rounds) <==> ReachesCycle(g, t)
  {
    if t !in Settled(g, rounds) {
      if |g.Keys| >= rounds {
        Stuck(g, rounds, |g.Keys| - rounds);
      } else {
        SettledMonotone(g, |g.Keys|, rounds);
      }
      SettledIff(g, t, |g.Keys|);
      var chain :| Chain(g, chain) && chain[0] == t && |chain| == |g.Keys| + 1;
      ChainStays(g, chain);
      TooManyToDiffer(chain, g.Keys);
    }
    if ReachesCycle(g, t) {
      var chain, i, j :| Chain(g, chain) && chain[0] == t && 0 <= i < j < |chain| && chain[i] == chain[j];
      CycleHasChains(g, chain, i, j, rounds);
      SettledIff(g, t, rounds);
    }
  }
}
