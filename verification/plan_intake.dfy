/** The bounded intake of an untrusted plan: which tasks and which dependencies are kept. */
module PlanIntake {
  import opened Layering
  import opened Chains
  import opened OpsTypes

  const MAX_TASKS := 128
  const MAX_DEPENDENCY_INPUTS := 2048
  const MAX_DEPENDENCY_EDGES := 512
  const MAX_SCOPE_PATHS := 24
  const MAX_SAFE_INTEGER := 9007199254740991

  /** A JSON value where a number is expected. */
  datatype Raw = Number(value: int) | OtherValue

  predicate Safe(raw: Raw) {
    raw.Number? && -MAX_SAFE_INTEGER <= raw.value <= MAX_SAFE_INTEGER
  }

  /** A task as it arrives; lists that are not arrays arrive empty. */
  datatype RawTask = RawTask(index: Raw, dependsOn: seq<Raw>, scopePaths: nat) | NotATask

  /** One dependency entry: the position of its task among those kept, and the entry. */
  datatype Entry = Entry(at: nat, dependency: Raw)

  /** How far a count exceeds a bound. */
  function Cut(s: nat, n: nat): (cut: nat)
    ensures cut > 0 <==> s > n
    ensures cut > 0 ==> n + cut == s
  {
    if s <= n then 0 else s - n
  }

  // ----- what is kept, said over the whole input at once

  predicate Listed(kept: seq<RawTask>, index: int) {
    exists i :: 0 <= i < |kept| && kept[i].RawTask? && kept[i].index == Number(index)
  }

  predicate Keepable(raw: RawTask, earlier: seq<RawTask>) {
    raw.RawTask? && Safe(raw.index) && raw.index.value >= 0 && !Listed(earlier, raw.index.value)
  }

  /** The tasks with a usable index that no earlier kept task has. */
  function Staged(raws: seq<RawTask>): (kept: seq<RawTask>)
    ensures forall i :: 0 <= i < |kept| ==> kept[i].RawTask? && Safe(kept[i].index) && kept[i].index.value >= 0
    ensures forall i, j :: 0 <= i < j < |kept| ==> kept[i].index != kept[j].index
    ensures |kept| <= |raws|
  {
    if raws == [] then []
    else
      var earlier := Staged(raws[..|raws| - 1]);
      if Keepable(raws[|raws| - 1], earlier) then earlier + [raws[|raws| - 1]] else earlier
  }

  /** Nothing usable is passed over: an index that occurs is kept. */
  lemma {:induction false} StagedIsComplete(raws: seq<RawTask>, raw: RawTask)
    requires raw in raws && raw.RawTask? && Safe(raw.index) && raw.index.value >= 0
    ensures Listed(Staged(raws), raw.index.value)
  {
    var rest, last := raws[..|raws| - 1], raws[|raws| - 1];
    var earlier := Staged(rest);
    if raw in rest {
      StagedIsComplete(rest, raw);
      var i :| 0 <= i < |earlier| && earlier[i].index == Number(raw.index.value);
      assert Staged(raws)[i] == earlier[i];
    } else if Keepable(last, earlier) {
      assert Staged(raws)[|earlier|] == raw;
    }
  }

  ghost predicate FirstUse(raws: seq<RawTask>, n: nat) {
    && n < |raws| && raws[n].RawTask? && Safe(raws[n].index) && raws[n].index.value >= 0
    && forall m :: 0 <= m < n && raws[m].RawTask? ==> raws[m].index != raws[n].index
  }

  /** Of the tasks with the same usable index the first is kept, and the kept tasks keep their order. */
  lemma {:induction false} StagedAreFirst(raws: seq<RawTask>) returns (at: seq<nat>)
    ensures |at| == |Staged(raws)| && forall i, j :: 0 <= i < j < |at| ==> at[i] < at[j]
    ensures forall i :: 0 <= i < |at| ==> FirstUse(raws, at[i]) && Staged(raws)[i] == raws[at[i]]
  {
    if raws == [] {
      at := [];
    } else {
      var rest, last := raws[..|raws| - 1], |raws| - 1;
      at := StagedAreFirst(rest);
      forall i | 0 <= i < |at| ensures FirstUse(raws, at[i]) && Staged(rest)[i] == raws[at[i]] {
        assert FirstUse(rest, at[i]);
      }
      if Keepable(raws[last], Staged(rest)) {
        forall m | 0 <= m < last && raws[m].RawTask? ensures raws[m].index != raws[last].index {
          if raws[m].index == raws[last].index {
            assert rest[m] in rest;
            StagedIsComplete(rest, rest[m]);
          }
        }
        at := at + [last];
      }
    }
  }

  function Entries(at: nat, dependencies: seq<Raw>): seq<Entry> {
    seq(|dependencies|, i requires 0 <= i < |dependencies| => Entry(at, dependencies[i]))
  }

  /** All dependency entries of the kept tasks, task by task. */
  function AllEntries(kept: seq<RawTask>): seq<Entry> {
    if kept == [] then []
    else
      var last := kept[|kept| - 1];
      AllEntries(kept[..|kept| - 1]) + (if last.RawTask? then Entries(|kept| - 1, last.dependsOn) else [])
  }

  /** The entries that name a visible task, each once per task. */
  function Genuine(entries: seq<Entry>, visible: set<int>): seq<Entry> {
    if entries == [] then []
    else
      var earlier := Genuine(entries[..|entries| - 1], visible);
      var last := entries[|entries| - 1];
      if Safe(last.dependency) && last.dependency.value in visible && last !in earlier then earlier + [last]
      else earlier
  }

  /** The dependencies of the task at one position. */
  function DependenciesAt(entries: seq<Entry>, at: nat): seq<int> {
    if entries == [] then []
    else
      var earlier := DependenciesAt(entries[..|entries| - 1], at);
      var last := entries[|entries| - 1];
      if last.at == at && last.dependency.Number? then earlier + [last.dependency.value] else earlier
  }

  lemma DependenciesAtSnoc(entries: seq<Entry>, e: Entry, at: nat)
    ensures DependenciesAt(entries + [e], at)
         == if e.at == at && e.dependency.Number? then DependenciesAt(entries, at) + [e.dependency.value]
            else DependenciesAt(entries, at)
  {
  }

  lemma {:induction false} GenuineMeans(entries: seq<Entry>, visible: set<int>)
    ensures forall e :: e in Genuine(entries, visible)
              <==> e in entries && Safe(e.dependency) && e.dependency.value in visible
    ensures forall i, j :: 0 <= i < j < |Genuine(entries, visible)| ==>
              Genuine(entries, visible)[i] != Genuine(entries, visible)[j]
    ensures |Genuine(entries, visible)| <= |entries|
  {
    if entries != [] {
      GenuineMeans(entries[..|entries| - 1], visible);
      assert entries == entries[..|entries| - 1] + [entries[|entries| - 1]];
    }
  }

  /** The entry names no visible task, or repeats an earlier entry of its task. */
  predicate Ignored(earlier: seq<Entry>, e: Entry, visible: set<int>) {
    !Safe(e.dependency) || e.dependency.value !in visible || e in earlier
  }

  function IgnoredCount(inspected: seq<Entry>, visible: set<int>): nat {
    if inspected == [] then 0
    else
      var earlier := inspected[..|inspected| - 1];
      IgnoredCount(earlier, visible) + if Ignored(earlier, inspected[|inspected| - 1], visible) then 1 else 0
  }

  /** What is not genuine is ignored. */
  lemma {:induction false} GenuineOrIgnored(inspected: seq<Entry>, visible: set<int>)
    ensures |inspected| == |Genuine(inspected, visible)| + IgnoredCount(inspected, visible)
  {
    if inspected != [] {
      var earlier := inspected[..|inspected| - 1];
      GenuineOrIgnored(earlier, visible);
      GenuineMeans(earlier, visible);
    }
  }

  /** The kept edges: of the entries inspected, the genuine ones, as far as the edge budget reaches. */
  function Kept(inspected: seq<Entry>, visible: set<int>): (kept: seq<Entry>)
    ensures kept <= Genuine(inspected, visible) && |kept| <= MAX_DEPENDENCY_EDGES
  {
    First(Genuine(inspected, visible), MAX_DEPENDENCY_EDGES)
  }

  // ----- the intake as it runs

  datatype Intake = Intake(tasks: seq<PlanTask>, omittedTasks: nat, omittedDependencies: nat, omittedScopePaths: nat)

  method StageTasks(raws: seq<RawTask>) returns (staged: seq<RawTask>, omittedScopePaths: nat)
    ensures staged == Staged(First(raws, MAX_TASKS))
    ensures omittedScopePaths == ScopePathsCut(staged)
  {
    hide Listed, Staged, ScopePathsCut;
    var bounded := First(raws, MAX_TASKS);
    staged, omittedScopePaths := [], 0;
    var seen: set<int> := {};
    NoneListed();
    for n := 0 to |bounded|
      invariant staged == Staged(bounded[..n])
      invariant forall index :: index in seen <==> Listed(staged, index)
      invariant omittedScopePaths == ScopePathsCut(staged)
    {
      var raw := bounded[n];
      OneMoreStaged(bounded, n);
      if raw.NotATask? || !Safe(raw.index) || raw.index.value < 0 || raw.index.value in seen {
        continue;
      }
      ListedSnoc(staged, raw);
      seen := seen + {raw.index.value};
      omittedScopePaths := omittedScopePaths + Cut(raw.scopePaths, MAX_SCOPE_PATHS);
      OneMoreCut(staged, raw);
      staged := staged + [raw];
    }
    assert bounded[..|bounded|] == bounded;
  }

  lemma OneMoreStaged(raws: seq<RawTask>, n: nat)
    requires n < |raws|
    ensures Staged(raws[..n + 1])
         == if Keepable(raws[n], Staged(raws[..n])) then Staged(raws[..n]) + [raws[n]] else Staged(raws[..n])
  {
    assert raws[..n + 1][..n] == raws[..n];
  }

  lemma OneMoreCut(staged: seq<RawTask>, raw: RawTask)
    requires raw.RawTask?
    ensures ScopePathsCut(staged + [raw]) == ScopePathsCut(staged) + Cut(raw.scopePaths, MAX_SCOPE_PATHS)
  {
    assert (staged + [raw])[..|staged|] == staged;
  }

  lemma NoneListed()
    ensures (forall index :: !Listed([], index)) && ScopePathsCut([]) == 0
  {
  }

  lemma ListedSnoc(kept: seq<RawTask>, raw: RawTask)
    requires raw.RawTask? && raw.index.Number?
    ensures forall index :: Listed(kept + [raw], index) <==> Listed(kept, index) || index == raw.index.value
  {
    forall index ensures Listed(kept + [raw], index) <==> Listed(kept, index) || index == raw.index.value {
      if Listed(kept, index) {
        var i :| 0 <= i < |kept| && kept[i].RawTask? && kept[i].index == Number(index);
        assert (kept + [raw])[i] == kept[i];
      }
      assert (kept + [raw])[|kept|] == raw;
    }
  }

  function ScopePathsCut(staged: seq<RawTask>): nat {
    if staged == [] then 0
    else
      var last := staged[|staged| - 1];
      ScopePathsCut(staged[..|staged| - 1]) + if last.RawTask? then Cut(last.scopePaths, MAX_SCOPE_PATHS) else 0
  }

  predicate Fresh(seen: seq<Entry>, e: Entry, visible: set<int>) {
    Safe(e.dependency) && e.dependency.value in visible && e !in Genuine(seen, visible)
  }

  /** What one more inspected entry does: nothing, an edge more, or an omission more. */
  lemma OneMoreEntry(seen: seq<Entry>, e: Entry, visible: set<int>)
    ensures |Kept(seen, visible)| <= |Genuine(seen, visible)|
    ensures Genuine(seen + [e], visible) == Genuine(seen, visible) + if Fresh(seen, e, visible) then [e] else []
    ensures Kept(seen + [e], visible)
         == Kept(seen, visible)
            + if Fresh(seen, e, visible) && |Kept(seen, visible)| < MAX_DEPENDENCY_EDGES then [e] else []
  {
  }

  /** One task's entries, within what is left of the budgets. `before` are the entries inspected so far. */
  method KeepDependencies(at: nat, dependencies: seq<Raw>, visible: set<int>, accepted: nat, ghost before: seq<Entry>)
    returns (dependsOn: seq<int>, accepted': nat, omitted: nat)
    requires forall e :: e in before ==> e.at != at
    requires accepted == |Kept(before, visible)|
    ensures var after := before + Entries(at, dependencies);
      && dependsOn == DependenciesAt(Kept(after, visible), at)
      && accepted' == |Kept(after, visible)|
      && omitted == (|Genuine(after, visible)| - |Kept(after, visible)|)
                    - (|Genuine(before, visible)| - |Kept(before, visible)|)
  {
    hide Kept, Genuine;
    dependsOn, accepted', omitted := [], accepted, 0;
    var unique: set<int> := {};
    NoneKeptAt(before, visible, at);
    ghost var entries := Entries(at, dependencies);
    assert before + entries[..0] == before;
    for n := 0 to |dependencies|
      invariant dependsOn == DependenciesAt(Kept(before + entries[..n], visible), at)
      invariant accepted' == |Kept(before + entries[..n], visible)|
      invariant omitted == (|Genuine(before + entries[..n], visible)| - accepted')
                           - (|Genuine(before, visible)| - |Kept(before, visible)|)
      invariant forall d :: d in unique <==> Entry(at, Number(d)) in Genuine(before + entries[..n], visible)
    {
      var dependency := dependencies[n];
      ghost var seen := before + entries[..n];
      ghost var e := Entry(at, dependency);
      assert before + entries[..n + 1] == seen + [e];
      OneMoreEntry(seen, e, visible);
      if !Safe(dependency) || dependency.value !in visible || dependency.value in unique {
        assert Genuine(seen + [e], visible) == Genuine(seen, visible);
        assert Kept(seen + [e], visible) == Kept(seen, visible);
        continue;
      }
      unique := unique + {dependency.value};
      if accepted' < MAX_DEPENDENCY_EDGES {
        DependenciesAtSnoc(Kept(seen, visible), e, at);
        dependsOn := dependsOn + [dependency.value];
        accepted' := accepted' + 1;
      } else {
        assert Kept(seen + [e], visible) == Kept(seen, visible);
        omitted := omitted + 1;
      }
    }
    assert entries[..|dependencies|] == entries;
  }

  lemma NoneKeptAt(before: seq<Entry>, visible: set<int>, at: nat)
    requires forall e :: e in before ==> e.at != at
    ensures DependenciesAt(Kept(before, visible), at) == []
    ensures forall d :: Entry(at, Number(d)) !in Genuine(before, visible)
  {
    GenuineMeans(before, visible);
    NoneAt(Kept(before, visible), at);
  }

  lemma {:induction false} NoneAt(entries: seq<Entry>, at: nat)
    requires forall e :: e in entries ==> e.at != at
    ensures DependenciesAt(entries, at) == []
  {
    if entries != [] {
      NoneAt(entries[..|entries| - 1], at);
    }
  }

  // ----- the budgets

  function VisibleIndexes(staged: seq<RawTask>): set<int> {
    set i | 0 <= i < |staged| && staged[i].RawTask? && staged[i].index.Number? :: staged[i].index.value
  }

  /** The entries inspected before the input budget runs out. */
  function Inspected(staged: seq<RawTask>): seq<Entry> {
    First(AllEntries(staged), MAX_DEPENDENCY_INPUTS)
  }

  function KeptOf(staged: seq<RawTask>): seq<Entry> {
    Kept(Inspected(staged), VisibleIndexes(staged))
  }

  lemma {:induction false} EntriesAreEarlier(staged: seq<RawTask>, e: Entry)
    requires e in AllEntries(staged)
    ensures e.at < |staged|
  {
    if e in AllEntries(staged[..|staged| - 1]) {
      EntriesAreEarlier(staged[..|staged| - 1], e);
    }
  }

  /** Cutting the whole list is cutting each task's part with what the parts before it have left. */
  lemma FirstOfJoined<T>(before: seq<T>, more: seq<T>, n: nat)
    ensures First(before + more, n) == First(before, n) + First(more, n - |First(before, n)|)
  {
  }

  lemma FirstOfEntries(at: nat, dependencies: seq<Raw>, n: nat)
    ensures First(Entries(at, dependencies), n) == Entries(at, First(dependencies, n))
  {
  }

  lemma OneMoreTask(staged: seq<RawTask>, n: nat)
    requires n < |staged| && staged[n].RawTask?
    ensures var before := First(AllEntries(staged[..n]), MAX_DEPENDENCY_INPUTS);
      && |before| <= MAX_DEPENDENCY_INPUTS
      && First(AllEntries(staged[..n + 1]), MAX_DEPENDENCY_INPUTS)
         == before + Entries(n, First(staged[n].dependsOn, MAX_DEPENDENCY_INPUTS - |before|))
      && |AllEntries(staged[..n + 1])| == |AllEntries(staged[..n])| + |staged[n].dependsOn|
      && (forall e :: e in before ==> e.at < n)
      && (forall e :: e in Entries(n, First(staged[n].dependsOn, MAX_DEPENDENCY_INPUTS - |before|)) ==> e.at == n)
      && |Entries(n, First(staged[n].dependsOn, MAX_DEPENDENCY_INPUTS - |before|))|
         == |First(staged[n].dependsOn, MAX_DEPENDENCY_INPUTS - |before|)| <= |staged[n].dependsOn|
      && |First(staged[n].dependsOn, MAX_DEPENDENCY_INPUTS - |before|)| <= MAX_DEPENDENCY_INPUTS - |before|
  {
    var before := First(AllEntries(staged[..n]), MAX_DEPENDENCY_INPUTS);
    assert staged[..n + 1][..n] == staged[..n];
    FirstOfJoined(AllEntries(staged[..n]), Entries(n, staged[n].dependsOn), MAX_DEPENDENCY_INPUTS);
    FirstOfEntries(n, staged[n].dependsOn, MAX_DEPENDENCY_INPUTS - |before|);
    forall e | e in before ensures e.at < n {
      EntriesAreEarlier(staged[..n], e);
    }
  }

  /** Later entries of other tasks do not change what one task keeps. */
  lemma {:induction false} LaterEntries(entries: seq<Entry>, more: seq<Entry>, visible: set<int>, at: nat)
    requires forall e :: e in more ==> e.at != at
    ensures DependenciesAt(Kept(entries + more, visible), at) == DependenciesAt(Kept(entries, visible), at)
  {
    hide Kept, Genuine;
    if more == [] {
      assert entries + more == entries;
    } else {
      var rest, last := more[..|more| - 1], more[|more| - 1];
      assert entries + more == (entries + rest) + [last];
      LaterEntries(entries, rest, visible, at);
      OneMoreEntry(entries + rest, last, visible);
      DependenciesAtSnoc(Kept(entries + rest, visible), last, at);
      assert Kept(entries + rest, visible) + [] == Kept(entries + rest, visible);
    }
  }

  function Accepted(staged: seq<RawTask>, n: nat, kept: seq<Entry>): seq<PlanTask>
    requires n <= |staged|
  {
    seq(n, i requires 0 <= i < n =>
      PlanTask(if staged[i].RawTask? && staged[i].index.Number? then staged[i].index.value else 0,
          DependenciesAt(kept, i)))
  }

  /** The tasks of the plan, each with its kept dependencies. */
  function KeptTasks(raws: seq<RawTask>): seq<PlanTask> {
    var staged := Staged(First(raws, MAX_TASKS));
    Accepted(staged, |staged|, KeptOf(staged))
  }

  lemma OneMoreAccepted(staged: seq<RawTask>, n: nat, before: seq<Entry>, more: seq<Entry>, visible: set<int>)
    requires n < |staged| && staged[n].RawTask? && staged[n].index.Number?
    requires forall e :: e in more ==> e.at == n
    ensures Accepted(staged, n + 1, Kept(before + more, visible))
         == Accepted(staged, n, Kept(before, visible))
            + [PlanTask(staged[n].index.value, DependenciesAt(Kept(before + more, visible), n))]
  {
    hide Kept, DependenciesAt;
    forall i | 0 <= i < n
      ensures DependenciesAt(Kept(before + more, visible), i) == DependenciesAt(Kept(before, visible), i)
    {
      LaterEntries(before, more, visible, i);
    }
  }

  method PrepareTasks(raws: seq<RawTask>) returns (p: Intake)
    ensures var staged := Staged(First(raws, MAX_TASKS));
      && p.tasks == KeptTasks(raws)
      && p.omittedTasks == |raws| - |staged|
      && p.omittedDependencies == OmittedDependencies(raws)
      && p.omittedScopePaths == ScopePathsCut(staged)
      && |AllEntries(staged)| == CountDependencies(p.tasks) + p.omittedDependencies
                                 + IgnoredCount(Inspected(staged), VisibleIndexes(staged))
  {
    hide Kept, Genuine, AllEntries, Entries, First, DependenciesAt, Accepted, Staged, ScopePathsCut;
    var staged, omittedScopePaths := StageTasks(raws);
    var visible := VisibleIndexes(staged);
    var tasks: seq<PlanTask> := [];
    var accepted, omitted, remaining := 0, 0, MAX_DEPENDENCY_INPUTS;
    ghost var before: seq<Entry> := [];
    NothingKept(staged, visible);
    for n := 0 to |staged|
      invariant before == First(AllEntries(staged[..n]), MAX_DEPENDENCY_INPUTS)
      invariant remaining == MAX_DEPENDENCY_INPUTS - |before|
      invariant accepted == |Kept(before, visible)|
      invariant omitted == (|AllEntries(staged[..n])| - |before|) + (|Genuine(before, visible)| - accepted)
      invariant tasks == Accepted(staged, n, Kept(before, visible))
    {
      var dependencies := staged[n].dependsOn;
      var inspected := First(dependencies, remaining);
      ghost var more := Entries(n, inspected);
      OneMoreTask(staged, n);
      OneMoreAccepted(staged, n, before, more, visible);
      omitted := omitted + (|dependencies| - |inspected|);
      remaining := remaining - |inspected|;
      var dependsOn, accepted', dropped := KeepDependencies(n, inspected, visible, accepted, before);
      tasks := tasks + [PlanTask(staged[n].index.value, dependsOn)];
      accepted, omitted := accepted', omitted + dropped;
      before := before + more;
    }
    assert staged[..|staged|] == staged;
    DependenciesAreConserved(raws);
    p := Intake(tasks, |raws| - |staged|, omitted, omittedScopePaths);
  }

  lemma NothingKept(staged: seq<RawTask>, visible: set<int>)
    ensures Kept([], visible) == [] && Genuine([], visible) == []
    ensures AllEntries(staged[..0]) == [] && First<Entry>([], MAX_DEPENDENCY_INPUTS) == []
    ensures Accepted(staged, 0, []) == []
  {
  }

  // ----- what the intake guarantees

  lemma {:induction false} DependenciesMean(entries: seq<Entry>, at: nat, d: int)
    ensures d in DependenciesAt(entries, at) <==> Entry(at, Number(d)) in entries
  {
    if entries != [] {
      var rest, last := entries[..|entries| - 1], entries[|entries| - 1];
      assert entries == rest + [last];
      DependenciesMean(rest, at, d);
    }
  }

  ghost predicate Distinct(entries: seq<Entry>) {
    forall i, j :: 0 <= i < j < |entries| ==> entries[i] != entries[j]
  }

  lemma {:induction false} DependenciesDiffer(entries: seq<Entry>, at: nat)
    requires Distinct(entries)
    ensures NoDuplicates(DependenciesAt(entries, at))
  {
    if entries != [] {
      var rest, last := entries[..|entries| - 1], entries[|entries| - 1];
      DependenciesDiffer(rest, at);
      if last.at == at && last.dependency.Number? {
        assert last !in rest;
        DependenciesMean(rest, at, last.dependency.value);
      }
    }
  }

  lemma KeptAreGenuine(staged: seq<RawTask>)
    ensures Distinct(KeptOf(staged))
    ensures forall e :: e in KeptOf(staged) ==>
              e in AllEntries(staged) && e.at < |staged| && Safe(e.dependency)
                  && e.dependency.value in VisibleIndexes(staged)
  {
    var inspected, visible := Inspected(staged), VisibleIndexes(staged);
    GenuineMeans(inspected, visible);
    forall e | e in KeptOf(staged)
      ensures e in AllEntries(staged) && e.at < |staged| && Safe(e.dependency) && e.dependency.value in visible
    {
      assert e in Genuine(inspected, visible);
      assert e in inspected && e in AllEntries(staged);
      EntriesAreEarlier(staged, e);
    }
  }

  lemma VisibleAreIndexes(staged: seq<RawTask>, kept: seq<Entry>)
    requires forall i :: 0 <= i < |staged| ==> staged[i].RawTask? && staged[i].index.Number?
    ensures VisibleIndexes(staged) == Indexes(Accepted(staged, |staged|, kept))
  {
    var tasks := Accepted(staged, |staged|, kept);
    forall index ensures index in VisibleIndexes(staged) <==> index in Indexes(tasks) {
      if index in VisibleIndexes(staged) {
        var i :| 0 <= i < |staged| && staged[i].index.value == index;
        assert tasks[i] in tasks;
      }
    }
  }

  /** The kept tasks form a plan: their indexes differ, and each waits, once, only for kept tasks. */
  lemma TasksArePrepared(raws: seq<RawTask>)
    ensures Prepared(KeptTasks(raws)) && |KeptTasks(raws)| <= MAX_TASKS
  {
    var staged := Staged(First(raws, MAX_TASKS));
    var kept, tasks := KeptOf(staged), KeptTasks(raws);
    KeptAreGenuine(staged);
    VisibleAreIndexes(staged, kept);
    hide KeptOf, Indexes;
    forall i | 0 <= i < |tasks|
      ensures NoDuplicates(tasks[i].dependsOn) && Members(tasks[i].dependsOn) <= Indexes(tasks)
    {
      DependenciesDiffer(kept, i);
      forall d | d in tasks[i].dependsOn ensures d in Indexes(tasks) {
        DependenciesMean(kept, i, d);
      }
    }
  }

  function CountDependencies(tasks: seq<PlanTask>): nat {
    if tasks == [] then 0 else CountDependencies(tasks[..|tasks| - 1]) + |tasks[|tasks| - 1].dependsOn|
  }

  function CountAt(entries: seq<Entry>, below: nat): nat {
    if below == 0 then 0 else CountAt(entries, below - 1) + |DependenciesAt(entries, below - 1)|
  }

  lemma {:induction false} CountAtSnoc(entries: seq<Entry>, e: Entry, below: nat)
    requires e.dependency.Number?
    ensures CountAt(entries + [e], below) == CountAt(entries, below) + if e.at < below then 1 else 0
  {
    if below > 0 {
      CountAtSnoc(entries, e, below - 1);
      DependenciesAtSnoc(entries, e, below - 1);
    }
  }

  lemma {:induction false} CountAtNothing(below: nat)
    ensures CountAt([], below) == 0
  {
    if below > 0 {
      CountAtNothing(below - 1);
    }
  }

  lemma {:induction false} CountAtAll(entries: seq<Entry>, below: nat)
    requires forall e :: e in entries ==> e.dependency.Number? && e.at < below
    ensures CountAt(entries, below) == |entries|
  {
    if entries == [] {
      CountAtNothing(below);
    } else {
      var rest, last := entries[..|entries| - 1], entries[|entries| - 1];
      assert entries == rest + [last];
      CountAtAll(rest, below);
      CountAtSnoc(rest, last, below);
    }
  }

  lemma {:induction false} CountAccepted(staged: seq<RawTask>, n: nat, kept: seq<Entry>)
    requires n <= |staged|
    ensures CountDependencies(Accepted(staged, n, kept)) == CountAt(kept, n)
  {
    if n > 0 {
      CountAccepted(staged, n - 1, kept);
      assert Accepted(staged, n, kept)[..n - 1] == Accepted(staged, n - 1, kept);
    }
  }

  /** The dependency entries of kept tasks that are cut off by a budget. */
  function OmittedDependencies(raws: seq<RawTask>): int {
    var staged := Staged(First(raws, MAX_TASKS));
    (|AllEntries(staged)| - |Inspected(staged)|)
    + (|Genuine(Inspected(staged), VisibleIndexes(staged))| - |KeptOf(staged)|)
  }

  /**
   * Every dependency entry of a kept task is accounted for: it is an edge of the plan, or is reported as
   * omitted, or was ignored because it names no visible task or repeats an earlier entry of its task.
   */
  lemma DependenciesAreConserved(raws: seq<RawTask>)
    ensures var staged := Staged(First(raws, MAX_TASKS));
      && |AllEntries(staged)| == CountDependencies(KeptTasks(raws)) + OmittedDependencies(raws)
                                 + IgnoredCount(Inspected(staged), VisibleIndexes(staged))
      && OmittedDependencies(raws) >= 0
      && CountDependencies(KeptTasks(raws)) <= MAX_DEPENDENCY_EDGES
      && |Inspected(staged)| <= MAX_DEPENDENCY_INPUTS
  {
    var staged := Staged(First(raws, MAX_TASKS));
    KeptAreGenuine(staged);
    GenuineOrIgnored(Inspected(staged), VisibleIndexes(staged));
    hide KeptOf, AllEntries, Genuine;
    CountAccepted(staged, |staged|, KeptOf(staged));
    CountAtAll(KeptOf(staged), |staged|);
  }

  /** From an untrusted task list to the waves of the mind map. */
  method BuildWaves(raws: seq<RawTask>) returns (p: Intake, waves: seq<seq<int>>, rounds: nat)
    ensures p.tasks == KeptTasks(raws)
    ensures Waved(GraphOf(p.tasks), waves, rounds) && Closed(GraphOf(p.tasks))
    ensures forall t, k :: t in GraphOf(p.tasks) && 0 <= k < |waves| ==>
              (t in waves[k]
               <==> if k < rounds then LongestChain(GraphOf(p.tasks), t, k) else ReachesCycle(GraphOf(p.tasks), t))
  {
    hide KeptTasks, Staged, KeptOf, AllEntries, Inspected, GraphOf, LongestChain, ReachesCycle, Waved;
    p := PrepareTasks(raws);
    TasksArePrepared(raws);
    waves, rounds := MakeWaves(p.tasks);
    PreparedIsClosed(p.tasks);
    forall t, k | t in GraphOf(p.tasks) && 0 <= k < |waves|
      ensures t in waves[k]
         <==> if k < rounds then LongestChain(GraphOf(p.tasks), t, k) else ReachesCycle(GraphOf(p.tasks), t)
    {
      WaveIsLongestChain(GraphOf(p.tasks), waves, rounds, t, k);
    }
  }
}
