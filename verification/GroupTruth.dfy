// What the group conditions mean once the queue is empty, and what cycles do.

module GroupTruth {
  import opened Objects
  import opened VarsConfigMaps
  import opened GroupController
  import opened GroupRuns

  // ---------- Transitive membership ----------

  ghost predicate HostsReady(s: State, name: string) {
    name in s.groups && forall h :: h in s.groups[name].hosts ==> h in s.hosts && IsTrue(s.hosts[h].conds, Ready)
  }

  /** Every group that can be reached exists, and all its hosts exist and are Ready. */
  ghost predicate TrulyReady(s: State, name: string) {
    forall path :: Path(s.groups, path) && path[0] == name ==> HostsReady(s, path[|path| - 1])
  }

  ghost predicate Quiescent(s: State) {
    QueueInvariant(s) && forall n :: n in s.groups ==> n !in s.groupQueue
  }

  lemma SettledReadyIff(s: State, name: string)
    requires Settled(s, name)
    ensures ReadyGroup(s, name) <==> MembersReady(s, s.groups[name])
  {
    MembersReadyIffNoneListed(s, s.groups[name]);
  }

  /** What a settled group's conditions say is so, lists of culprits included. */
  lemma SettledTells(s: State, name: string)
    requires Settled(s, name)
    ensures ConditionsTell(s, s.groups[name], s.groups[name].conds)
  {
    hide ConditionsTell, Recomputed;
    RecomputedTells(s, s.groups[name]);
  }

  /** With the queue empty, on any graph: ReferencesValid is True exactly if every
      member exists, Healthy exactly if those that exist are Ready, and Ready
      exactly if both are. */
  lemma QuiescentConditionsTell(s: State, name: string)
    requires Quiescent(s) && name in s.groups
    ensures ConditionsTell(s, s.groups[name], s.groups[name].conds)
    ensures IsTrue(s.groups[name].conds, ReferencesValid) <==> AllFound(s, s.groups[name])
    ensures IsTrue(s.groups[name].conds, Healthy) <==> FoundAreReady(s, s.groups[name])
    ensures ReadyGroup(s, name) <==> IsTrue(s.groups[name].conds, ReferencesValid) && IsTrue(s.groups[name].conds, Healthy)
  {
    hide Settled, Selects;
    assert Settled(s, name);
    SettledTells(s, name);
  }

  /** On any graph, cycles included, a stored Ready is never a lie. */
  lemma {:induction false} ReadyIsTrue(s: State, path: seq<string>)
    requires Quiescent(s) && Path(s.groups, path) && ReadyGroup(s, path[0])
    ensures HostsReady(s, path[|path| - 1])
    decreases |path|
  {
    hide Settled;
    assert Settled(s, path[0]);
    SettledReadyIff(s, path[0]);
    if |path| > 1 {
      assert path[1] in s.groups[path[0]].groups;
      ReadyIsTrue(s, path[1..]);
    }
  }

  /** On an acyclic graph nothing that is truly ready is left unready. */
  lemma {:induction false} TruthIsReady(s: State, rank: string -> nat, name: string)
    requires Quiescent(s) && Ranked(Subgroups(s.groups), rank)
    requires name in s.groups && TrulyReady(s, name)
    ensures ReadyGroup(s, name)
    decreases rank(name)
  {
    hide Settled;
    var g := s.groups[name];
    assert Settled(s, name);
    SettledReadyIff(s, name);
    assert HostsReady(s, name) by { assert Path(s.groups, [name]); assert [name][|[name]| - 1] == name; }
    forall m | m in g.groups ensures ReadyGroup(s, m) {
      assert Path(s.groups, [name, m]) by { assert [name, m][1..] == [m]; }
      assert HostsReady(s, [name, m][|[name, m]| - 1]);
      assert Subgroups(s.groups)[name] == g.groups;
      TruthIsInherited(s, name, m);
      TruthIsReady(s, rank, m);
    }
  }

  lemma TruthIsInherited(s: State, name: string, m: string)
    requires name in s.groups && m in s.groups[name].groups && TrulyReady(s, name)
    ensures TrulyReady(s, m)
  {
    forall path | Path(s.groups, path) && path[0] == m ensures HostsReady(s, path[|path| - 1]) {
      var longer := [name] + path;
      assert longer[1..] == path;
      assert Path(s.groups, longer);
      assert longer[|longer| - 1] == path[|path| - 1];
    }
  }

  /** With the queue empty on an acyclic graph, Ready is the recursive truth. */
  lemma QuiescentHealthIsTruth(s: State, name: string)
    requires Quiescent(s) && Acyclic(s.groups) && name in s.groups
    ensures ReadyGroup(s, name) <==> TrulyReady(s, name)
  {
    if ReadyGroup(s, name) {
      forall path | Path(s.groups, path) && path[0] == name ensures HostsReady(s, path[|path| - 1]) {
        ReadyIsTrue(s, path);
      }
    }
    if TrulyReady(s, name) {
      var rank: string -> nat :| Ranked(Subgroups(s.groups), rank);
      TruthIsReady(s, rank, name);
    }
  }

  // ---------- Convergence ----------

  /** Same hosts, same groups, same specs; only group statuses may differ. */
  ghost predicate SameSpecs(s: State, t: State) {
    t.hosts == s.hosts && SameGroupSpecs(s.groups, t.groups)
  }

  ghost predicate SameGroupSpecs(before: map<string, Group>, after: map<string, Group>) {
    && after.Keys == before.Keys
    && forall n :: n in before ==> after[n] == before[n].(conds := after[n].conds)
  }

  lemma {:induction false} ScheduleKeepsInvariant(trace: seq<State>, names: seq<string>)
    requires Schedule(trace, names) && WellFormed(trace[0]) && QueueInvariant(trace[0])
    ensures QueueInvariant(trace[|names|]) && SameSpecs(trace[0], trace[|names|])
    decreases |names|
  {
    hide QueueInvariant;
    if names != [] {
      CleanTurnIsTurn(trace[0], names[0], trace[1]);
      TurnKeepsInvariant(trace[0], names[0], trace[1]);
      TurnKeepsSpecs(trace[0], names[0], trace[1]);
      ScheduleKeepsInvariant(trace[1..], names[1..]);
    }
  }

  lemma CleanTurnIsTurn(s: State, name: string, t: State)
    requires CleanTurn(s, name, t)
    ensures GroupTurn(s, name, t)
  {
    hide Outcome;
    var mid, ok :| CleanOutcome(Dequeued(s, name), name, mid, ok) && t == Requeued(mid, name, ok);
    assert Outcome(Dequeued(s, name), name, mid, ok);
  }

  /** A turn writes only to the group it is about. */
  lemma TurnWrites(s: State, name: string, t: State) returns (mid: State)
    requires GroupTurn(s, name, t)
    ensures t.groups == mid.groups && t.hosts == mid.hosts && t.hostOrder == mid.hostOrder && t.groupOrder == mid.groupOrder && t.jobs == mid.jobs
    ensures name in s.groups ==> OwnWrites(Dequeued(s, name), name, mid)
    ensures name !in s.groups ==> mid == Dequeued(s, name)
  {
    hide OwnWrites, Settled, Blocked, RecomputedIn, VarsSettled;
    var m, ok :| Outcome(Dequeued(s, name), name, m, ok) && t == Requeued(m, name, ok);
    mid := m;
  }

  lemma SameSpecsReflexive(s: State)
    ensures SameSpecs(s, s)
  {
    forall n | n in s.groups ensures s.groups[n] == s.groups[n].(conds := s.groups[n].conds) {}
  }

  lemma OnlyStatusKeepsSpecs(s: State, name: string, t: State)
    requires OnlyStatus(s, name, t)
    ensures SameSpecs(s, t)
    ensures WellFormed(s) ==> WellFormed(t)
  {
  }

  lemma TurnKeepsSpecs(s: State, name: string, t: State)
    requires GroupTurn(s, name, t)
    ensures SameSpecs(s, t)
    ensures WellFormed(s) ==> WellFormed(t)
  {
    hide OwnWrites, OnlyStatus, GroupTurn, HostsNamed, GroupsNamed, JobsNamed, Lists, SameGroupSpecs;
    var mid := TurnWrites(s, name, t);
    if name in s.groups {
      OwnWritesOnlyStatus(Dequeued(s, name), name, mid);
      OnlyStatusKeepsSpecs(Dequeued(s, name), name, mid);
    } else {
      SameSpecsReflexive(s);
    }
  }

  lemma {:induction false} PathFollowsSpecs(before: map<string, Group>, after: map<string, Group>, path: seq<string>)
    requires SameGroupSpecs(before, after)
    ensures Path(before, path) <==> Path(after, path)
  {
    if |path| > 1 { PathFollowsSpecs(before, after, path[1..]); }
  }

  lemma TruthFollowsSpecs(s: State, t: State, name: string)
    requires SameSpecs(s, t)
    ensures TrulyReady(s, name) <==> TrulyReady(t, name)
  {
    forall path: seq<string> { PathFollowsSpecs(s.groups, t.groups, path); }
    forall n ensures HostsReady(s, n) <==> HostsReady(t, n) {}
  }

  /** Whatever the order of turns, a schedule that empties the queue of an
      acyclic graph makes Ready the truth about the hosts it started with. */
  lemma Convergence(trace: seq<State>, names: seq<string>, name: string)
    requires Schedule(trace, names) && WellFormed(trace[0]) && QueueInvariant(trace[0])
    requires Acyclic(trace[0].groups) && name in trace[0].groups
    requires trace[|names|].groupQueue == {}
    ensures ReadyGroup(trace[|names|], name) <==> TrulyReady(trace[0], name)
  {
    var last := trace[|names|];
    ScheduleKeepsInvariant(trace, names);
    hide Schedule, Settled, WellFormed, TrulyReady, Acyclic;
    assert Subgroups(last.groups) == Subgroups(trace[0].groups);
    QuiescentHealthIsTruth(last, name);
    TruthFollowsSpecs(trace[0], last, name);
  }

  /** All three conditions, messages included, are determined by the specs and hosts. */
  lemma QuiescentConditionsUnique(s: State, t: State, name: string)
    requires Quiescent(s) && Quiescent(t) && SameSpecs(s, t) && Acyclic(s.groups)
    requires name in s.groups
    ensures Ready in t.groups[name].conds && Healthy in t.groups[name].conds && ReferencesValid in t.groups[name].conds
    ensures forall k :: k in {Ready, Healthy, ReferencesValid} ==> Get(s.groups[name].conds, k) == Get(t.groups[name].conds, k)
  {
    hide Settled, Recomputed;
    assert Subgroups(t.groups) == Subgroups(s.groups);
    forall n | n in s.groups ensures ReadyGroup(s, n) == ReadyGroup(t, n) {
      QuiescentHealthIsTruth(s, n);
      QuiescentHealthIsTruth(t, n);
      TruthFollowsSpecs(s, t, n);
    }
    assert GroupReadiness(s.groups) == GroupReadiness(t.groups);
    SettledConds(s, name);
    SettledConds(t, name);
    VerdictIgnoresConditions(s.groups[name], t.groups[name], HostReadiness(s.hosts), GroupReadiness(s.groups));
  }

  lemma SettledConds(s: State, name: string)
    requires Settled(s, name)
    ensures s.groups[name].conds == Recomputed(s.groups[name], HostReadiness(s.hosts), GroupReadiness(s.groups))
  {
  }

  lemma VerdictIgnoresConditions(g: Group, h: Group, hosts: Readiness, groups: Readiness)
    requires h == g.(conds := h.conds)
    requires g.conds == Recomputed(g, hosts, groups) && h.conds == Recomputed(h, hosts, groups)
    ensures Ready in h.conds && Healthy in h.conds && ReferencesValid in h.conds
    ensures forall k :: k in {Ready, Healthy, ReferencesValid} ==> Get(g.conds, k) == Get(h.conds, k)
  {
  }

  // ---------- Cycles ----------

  /** A turn of the group controller, or any change that leaves the groups alone. */
  ghost predicate GroupsOnlyByController(s: State, t: State) {
    t.groups == s.groups || exists name :: GroupTurn(s, name, t)
  }

  predicate ListsOneOf(g: Group, names: set<string>) {
    exists m :: m in g.groups && m in names
  }

  /** Each group of the set exists, is not Ready and lists another of the set. */
  ghost predicate NoneReady(groups: map<string, Group>, cycle: set<string>) {
    forall n :: n in cycle ==> n in groups && !IsTrue(groups[n].conds, Ready) && ListsOneOf(groups[n], cycle)
  }

  lemma UnreadyMemberBlocks(s: State, name: string, t: State, cycle: set<string>, m: string)
    requires OwnWrites(s, name, t) && !ReadyGroup(s, name)
    requires m in s.groups[name].groups && !ReadyGroup(s, m)
    ensures !ReadyGroup(t, name)
  {
  }

  lemma OwnWritesKeepNoneReady(s: State, name: string, t: State, cycle: set<string>)
    requires OwnWrites(s, name, t) && NoneReady(s.groups, cycle)
    ensures NoneReady(t.groups, cycle)
  {
    hide OwnWrites, ListsOneOf;
    OwnWritesOnlyStatus(s, name, t);
    SameMembersListed(s.groups[name], t.groups[name], cycle);
    if name in cycle {
      assert ListsOneOf(s.groups[name], cycle);
      var m := OneListed(s.groups[name], cycle);
      UnreadyMemberBlocks(s, name, t, cycle, m);
    }
  }

  lemma OneListed(g: Group, names: set<string>) returns (m: string)
    requires ListsOneOf(g, names)
    ensures m in g.groups && m in names
  {
    m :| m in g.groups && m in names;
  }

  lemma SameMembersListed(g: Group, h: Group, names: set<string>)
    requires g.groups == h.groups
    ensures ListsOneOf(g, names) == ListsOneOf(h, names)
  {
  }

  lemma StepKeepsNoneReady(s: State, t: State, cycle: set<string>)
    requires GroupsOnlyByController(s, t) && NoneReady(s.groups, cycle)
    ensures NoneReady(t.groups, cycle)
  {
    hide OwnWrites, GroupTurn, NoneReady;
    if t.groups != s.groups {
      var name :| GroupTurn(s, name, t);
      var mid := TurnWrites(s, name, t);
      if name in s.groups { OwnWritesKeepNoneReady(Dequeued(s, name), name, mid, cycle); }
    }
  }

  /** Groups that each list another of themselves and are not Ready stay so:
      under any schedule, any faults and any change to hosts or ConfigMaps. */
  lemma {:induction false} CycleNeverReady(trace: seq<State>, cycle: set<string>)
    requires trace != [] && NoneReady(trace[0].groups, cycle)
    requires forall i :: 0 <= i < |trace| - 1 ==> GroupsOnlyByController(trace[i], trace[i + 1])
    ensures forall i, n :: 0 <= i < |trace| && n in cycle ==> !ReadyGroup(trace[i], n)
  {
    hide GroupsOnlyByController;
    forall i, n | 0 <= i < |trace| && n in cycle ensures !ReadyGroup(trace[i], n) {
      NoneReadyUpTo(trace, cycle, i);
    }
  }

  lemma {:induction false} NoneReadyUpTo(trace: seq<State>, cycle: set<string>, i: nat)
    requires i < |trace| && NoneReady(trace[0].groups, cycle)
    requires forall j :: 0 <= j < |trace| - 1 ==> GroupsOnlyByController(trace[j], trace[j + 1])
    ensures NoneReady(trace[i].groups, cycle)
  {
    hide GroupsOnlyByController, NoneReady;
    if i > 0 {
      NoneReadyUpTo(trace, cycle, i - 1);
      StepKeepsNoneReady(trace[i - 1], trace[i], cycle);
    }
  }
}
