// The group queue invariant, over runs of the whole operator.

module OperatorGroups {
  import opened Objects
  import opened VarsConfigMaps
  import opened GroupController
  import opened GroupRuns
  import opened GroupTruth
  import opened JobFiles
  import opened JobController
  import opened Operator

  // ---------- What keeps a group settled ----------

  /** A group's conditions are computed from the readiness of what it lists. */
  lemma StaysSettled(s: State, t: State, n: string)
    requires n in s.groups && n in t.groups && t.groups[n] == s.groups[n] && s.groups[n].name == n
    requires forall h :: h in s.groups[n].hosts ==> Get(t.hosts, h) == Get(s.hosts, h)
    requires forall m :: m in s.groups[n].groups ==> Get(t.groups, m) == Get(s.groups, m)
    requires VarsSettled(s.configMaps, s.groups[n].Id(), s.groups[n].vars) ==> VarsSettled(t.configMaps, s.groups[n].Id(), s.groups[n].vars)
    requires Settled(s, n)
    ensures Settled(t, n)
  {
    hide VarsSettled, Recomputed, Missing, Unhealthy;
    var g := s.groups[n];
    var hosts, hosts' := HostReadiness(s.hosts), HostReadiness(t.hosts);
    var groups, groups' := GroupReadiness(s.groups), GroupReadiness(t.groups);
    forall h | h in g.hosts ensures Get(hosts, h) == Get(hosts', h) { assert Get(t.hosts, h) == Get(s.hosts, h); }
    forall m | m in g.groups ensures Get(groups, m) == Get(groups', m) { assert Get(t.groups, m) == Get(s.groups, m); }
    VerdictReadsMembers(g, hosts, groups, hosts', groups');
  }

  lemma VerdictReadsMembers(g: Group, hosts: Readiness, groups: Readiness, hosts': Readiness, groups': Readiness)
    requires forall h :: h in g.hosts ==> Get(hosts, h) == Get(hosts', h)
    requires forall m :: m in g.groups ==> Get(groups, m) == Get(groups', m)
    ensures Recomputed(g, hosts, groups) == Recomputed(g, hosts', groups')
  {
    SameClassification(g.hosts, hosts, hosts');
    SameClassification(g.groups, groups, groups');
  }

  lemma SameMapSettled(before: map<string, ConfigMap>, after: map<string, ConfigMap>, owner: Identity, vars: string)
    requires Get(after, VarsName(owner.name)) == Get(before, VarsName(owner.name))
    ensures VarsSettled(after, owner, vars) == VarsSettled(before, owner, vars)
  {
  }

  // ---------- Every step keeps the invariant ----------

  /** A host may share its name with a group, but not the group's ConfigMap. */
  lemma HostVarsKeepGroupVars(before: map<string, ConfigMap>, h: Host, after: map<string, ConfigMap>, g: Group)
    requires VarsUpdated(before, h.Id(), h.vars, after)
    requires VarsSettled(before, g.Id(), g.vars)
    ensures VarsSettled(after, g.Id(), g.vars)
  {
    VarsNameInjective(h.name, g.name);
  }

  lemma HostTurnKeepsGroups(s: State, name: string, t: State)
    requires WellFormed(s) && QueueInvariant(s) && HostTurn(s, name, t)
    ensures QueueInvariant(t)
  {
    HostTurnInFrame(s, name, t);
    hide HostTurn, VarsSettled, Lists, VarsUpdated;
    forall n | n in t.groups && n !in t.groupQueue ensures Settled(t, n) {
      hide Recomputed;
      var g := s.groups[n];
      assert Settled(s, n);
      if t.configMaps != s.configMaps { HostVarsKeepGroupVars(s.configMaps, s.hosts[name], t.configMaps, g); }
      assert t.hosts != s.hosts ==> n !in GroupsListingHost(s.groups, name);
      StaysSettled(s, t, n);
    }
  }

  lemma JobTurnKeepsGroups(s: State, name: string, e: Ending, t: State)
    requires WellFormed(s) && QueueInvariant(s) && JobTurn(s, name, e, t)
    ensures QueueInvariant(t)
  {
    JobTurnInFrame(s, name, e, t);
    hide JobTurn, VarsSettled, Lists, FileNames, NamesJob, Recomputed;
    forall n | n in t.groups && n !in t.groupQueue ensures Settled(t, n) {
      var g := s.groups[n];
      assert Settled(s, n);
      if t.configMaps != s.configMaps { ConfigMapNamesInjective(n, s.jobs[name].name); }
      SameMapSettled(s.configMaps, t.configMaps, g.Id(), g.vars);
      StaysSettled(s, t, n);
    }
  }

  lemma HostEditKeepsGroups(s: State, name: string, t: State)
    requires WellFormed(s) && QueueInvariant(s) && HostEdit(s, name, t)
    ensures QueueInvariant(t)
  {
    hide VarsSettled, Recomputed, Lists;
    forall n | n in t.groups && n !in t.groupQueue ensures Settled(t, n) {
      assert Settled(s, n);
      assert n !in GroupsListingHost(s.groups, name);
      StaysSettled(s, t, n);
    }
  }

  lemma GroupEditKeepsGroups(s: State, name: string, t: State)
    requires WellFormed(s) && QueueInvariant(s) && GroupEdit(s, name, t)
    ensures QueueInvariant(t)
  {
    hide VarsSettled, Recomputed, Lists;
    forall n | n in t.groups && n !in t.groupQueue ensures Settled(t, n) {
      assert n != name && t.groups[n] == s.groups[n];
      assert Settled(s, n);
      assert n !in GroupsListing(t.groups, name);
      StaysSettled(s, t, n);
    }
  }

  lemma MapEditKeepsGroups(s: State, name: string, t: State)
    requires WellFormed(s) && QueueInvariant(s) && MapEdit(s, name, t)
    ensures QueueInvariant(t)
  {
    hide Recomputed, Lists;
    forall n | n in t.groups && n !in t.groupQueue ensures Settled(t, n) {
      var g := s.groups[n];
      assert Settled(s, n);
      if VarsName(n) == name { EditWakesController(s, name, t, g); }
      SameMapSettled(s.configMaps, t.configMaps, g.Id(), g.vars);
      StaysSettled(s, t, n);
    }
  }

  /** Whoever controls a ConfigMap is woken by an edit to it. */
  lemma EditWakesController(s: State, name: string, t: State, g: Group)
    requires MapEdit(s, name, t) && name in s.configMaps && IsControlledBy(s.configMaps[name], g.Id())
    ensures g.name in t.groupQueue
  {
  }

  /** Any step of the operator or of anybody else, whatever calls fail. */
  lemma StepKeepsQueueInvariant(s: State, a: Action, t: State)
    requires WellFormed(s) && QueueInvariant(s) && Does(s, a, t)
    ensures QueueInvariant(t)
  {
    hide QueueInvariant, GroupTurn, HostTurn, JobTurn, HostEdit, GroupEdit, MapEdit, WellFormed;
    match a {
      case GroupReconciled(n) => TurnKeepsInvariant(s, n, t);
      case HostReconciled(n) => HostTurnKeepsGroups(s, n, t);
      case JobReconciled(n, e) => JobTurnKeepsGroups(s, n, e, t);
      case HostEdited(n) => HostEditKeepsGroups(s, n, t);
      case GroupEdited(n) => GroupEditKeepsGroups(s, n, t);
      case MapEdited(n) => MapEditKeepsGroups(s, n, t);
      case _ => UnrelatedKeepsGroups(s, a, t);
    }
  }

  lemma UnrelatedKeepsGroups(s: State, a: Action, t: State)
    requires QueueInvariant(s) && Does(s, a, t) && (a.PlaybookEdited? || a.JobEdited? || a.OtherEdited?)
    ensures QueueInvariant(t)
  {
    hide Settled;
    forall n | n in t.groups && n !in t.groupQueue ensures Settled(t, n) {
      assert Settled(s, n);
      SettledReads(s, t, n);
    }
  }

  lemma SettledReads(s: State, t: State, n: string)
    requires Settled(s, n)
    requires t.groups == s.groups && t.hosts == s.hosts && t.configMaps == s.configMaps
    ensures Settled(t, n)
  {
  }

  /** In every reachable state each group that is not queued stores exactly the
      conditions computed from the hosts and groups as they now are. */
  lemma {:induction false} RunKeepsQueueInvariant(trace: seq<State>, actions: seq<Action>, i: nat)
    requires Run(trace, actions) && QueueInvariant(trace[0]) && i < |trace|
    ensures QueueInvariant(trace[i])
  {
    hide QueueInvariant, Does, WellFormed;
    if i > 0 {
      RunKeepsQueueInvariant(trace, actions, i - 1);
      assert Does(trace[i - 1], actions[i - 1], trace[i]);
      StepKeepsQueueInvariant(trace[i - 1], actions[i - 1], trace[i]);
    }
  }

  /** So each group that does not wait says the truth about its members as they
      then are, in all three conditions. */
  lemma ConditionsTellInEveryRun(trace: seq<State>, actions: seq<Action>, i: nat, name: string)
    requires Run(trace, actions) && QueueInvariant(trace[0]) && i < |trace|
    requires name in trace[i].groups && name !in trace[i].groupQueue
    ensures ConditionsTell(trace[i], trace[i].groups[name], trace[i].groups[name].conds)
  {
    hide Run, Settled, ConditionsTell;
    RunKeepsQueueInvariant(trace, actions, i);
    SettledTells(trace[i], name);
  }

  /** So whenever no group waits, on an acyclic graph, Ready is the recursive truth. */
  lemma ReadyIsTruthInEveryRun(trace: seq<State>, actions: seq<Action>, i: nat, name: string)
    requires Run(trace, actions) && QueueInvariant(trace[0]) && i < |trace|
    requires trace[i].groupQueue == {} && Acyclic(trace[i].groups) && name in trace[i].groups
    ensures ReadyGroup(trace[i], name) <==> TrulyReady(trace[i], name)
  {
    hide Run;
    RunKeepsQueueInvariant(trace, actions, i);
    QuiescentHealthIsTruth(trace[i], name);
  }

  // ---------- Watches that miss ----------

  /** A host is created, edited or deleted, and the watch asks for these groups. */
  ghost predicate HostEditWith(s: State, name: string, requests: set<string>, t: State) {
    exists h :: t == s.(hosts := Put(s.hosts, name, h), hostOrder := t.hostOrder,
                        groupQueue := s.groupQueue + requests, jobQueue := s.jobQueue + s.jobs.Keys)
  }

  /** The same for a group, which is itself queued in any case. */
  ghost predicate GroupEditWith(s: State, name: string, requests: set<string>, t: State) {
    exists g :: t == s.(groups := Put(s.groups, name, g), groupOrder := t.groupOrder,
                        groupQueue := s.groupQueue + {name} + requests, jobQueue := s.jobQueue + s.jobs.Keys)
  }

  /** The steps of a run are those in which the watch asks for all it should. */
  lemma WatchedEdits(s: State, name: string, t: State)
    ensures HostEdit(s, name, t) <==> HostEditWith(s, name, Referencing(s.groups, HostIndex, name), t)
    ensures GroupEdit(s, name, t) <==> GroupEditWith(s, name, Referencing(t.groups, SubgroupIndex, name), t)
  {
    hide GroupsListing, GroupsListingHost;
    if GroupEdit(s, name, t) {
      var g :| t == GroupEvent(s.(groups := Put(s.groups, name, g), groupOrder := t.groupOrder), name);
      assert t.groups == Put(s.groups, name, g);
    }
    if GroupEditWith(s, name, Referencing(t.groups, SubgroupIndex, name), t) {
      var g :| t == s.(groups := Put(s.groups, name, g), groupOrder := t.groupOrder,
                       groupQueue := s.groupQueue + {name} + Referencing(t.groups, SubgroupIndex, name), jobQueue := s.jobQueue + s.jobs.Keys);
      assert t == GroupEvent(s.(groups := Put(s.groups, name, g), groupOrder := t.groupOrder), name);
    }
    if HostEditWith(s, name, Referencing(s.groups, HostIndex, name), t) {
      var h :| t == s.(hosts := Put(s.hosts, name, h), hostOrder := t.hostOrder,
                       groupQueue := s.groupQueue + Referencing(s.groups, HostIndex, name), jobQueue := s.jobQueue + s.jobs.Keys);
      assert t == HostEvent(s.(hosts := Put(s.hosts, name, h), hostOrder := t.hostOrder), name);
    }
  }

  /** A reconcile of the group would compute the same conditions. */
  predicate SameVerdictIn(s: State, t: State, n: string) {
    n in s.groups && RecomputedIn(t, s.groups[n]) == RecomputedIn(s, s.groups[n])
  }

  lemma SettledWithSameVerdict(s: State, t: State, n: string)
    requires Settled(s, n) && n in t.groups && t.groups[n] == s.groups[n] && t.configMaps == s.configMaps
    ensures Settled(t, n) <==> SameVerdictIn(s, t, n)
  {
    hide Recomputed, VarsSettled;
  }

  lemma UnreferencedKeepsVerdict(s: State, t: State, n: string)
    requires n in s.groups
    requires forall h :: h in s.groups[n].hosts ==> Get(t.hosts, h) == Get(s.hosts, h)
    requires forall m :: m in s.groups[n].groups ==> Get(t.groups, m) == Get(s.groups, m)
    ensures SameVerdictIn(s, t, n)
  {
    hide Recomputed;
    var g := s.groups[n];
    var hosts, hosts' := HostReadiness(s.hosts), HostReadiness(t.hosts);
    var groups, groups' := GroupReadiness(s.groups), GroupReadiness(t.groups);
    forall h | h in g.hosts ensures Get(hosts, h) == Get(hosts', h) { assert Get(t.hosts, h) == Get(s.hosts, h); }
    forall m | m in g.groups ensures Get(groups, m) == Get(groups', m) { assert Get(t.groups, m) == Get(s.groups, m); }
    VerdictReadsMembers(g, hosts, groups, hosts', groups');
  }

  /** If the List behind the host watch fails, no group is asked for. The queue
      invariant survives exactly if every group that is not queued and lists the
      host would compute what it has stored anyway. */
  lemma MissedHostEventIff(s: State, name: string, t: State)
    requires WellFormed(s) && QueueInvariant(s) && HostEditWith(s, name, {}, t)
    ensures QueueInvariant(t) <==>
            forall n :: n in s.groups && n !in s.groupQueue && name in s.groups[n].hosts ==> SameVerdictIn(s, t, n)
  {
    hide Settled, SameVerdictIn, Lists;
    forall n | n in s.groups && n !in s.groupQueue
      ensures Settled(t, n) <==> SameVerdictIn(s, t, n)
      ensures name !in s.groups[n].hosts ==> SameVerdictIn(s, t, n)
    {
      assert Settled(s, n);
      SettledWithSameVerdict(s, t, n);
      if name !in s.groups[n].hosts { UnreferencedKeepsVerdict(s, t, n); }
    }
  }

  /** The same for the group watch. */
  lemma MissedGroupEventIff(s: State, name: string, t: State)
    requires WellFormed(s) && QueueInvariant(s) && GroupEditWith(s, name, {}, t)
    ensures QueueInvariant(t) <==>
            forall n :: n in s.groups && n != name && n !in s.groupQueue && name in s.groups[n].groups ==> SameVerdictIn(s, t, n)
  {
    hide Settled, SameVerdictIn, Lists;
    forall n | n in s.groups && n != name && n !in s.groupQueue
      ensures Settled(t, n) <==> SameVerdictIn(s, t, n)
      ensures name !in s.groups[n].groups ==> SameVerdictIn(s, t, n)
    {
      assert Settled(s, n);
      SettledWithSameVerdict(s, t, n);
      if name !in s.groups[n].groups { UnreferencedKeepsVerdict(s, t, n); }
    }
  }

  // ---------- When the verdict is the same ----------

  lemma ListsTell(refs: seq<string>, a: Readiness, b: Readiness, name: string)
    requires name in refs && Get(a, name) != Get(b, name)
    ensures Missing(refs, a) != Missing(refs, b) || Unhealthy(refs, a) != Unhealthy(refs, b)
  {
    assert name in Missing(refs, a) <==> name !in a;
    assert name in Missing(refs, b) <==> name !in b;
    assert name in Unhealthy(refs, a) <==> name in a && !a[name];
    assert name in Unhealthy(refs, b) <==> name in b && !b[name];
  }

  /** A listed host shows in the conditions: whether it exists and whether it is Ready. */
  lemma HostShows(g: Group, hosts: Readiness, hosts': Readiness, groups: Readiness, name: string)
    requires name in g.hosts && Get(hosts, name) != Get(hosts', name)
    ensures Recomputed(g, hosts, groups) != Recomputed(g, hosts', groups)
  {
    ListsTell(g.hosts, hosts, hosts', name);
    hide Missing, Unhealthy;
    VerdictsTell(g, hosts, hosts', groups);
  }

  lemma VerdictsTell(g: Group, hosts: Readiness, hosts': Readiness, groups: Readiness)
    requires Missing(g.hosts, hosts) != Missing(g.hosts, hosts') || Unhealthy(g.hosts, hosts) != Unhealthy(g.hosts, hosts')
    ensures ReferencesVerdict(g, hosts, groups) != ReferencesVerdict(g, hosts', groups) || HealthVerdict(g, hosts, groups) != HealthVerdict(g, hosts', groups)
    ensures Recomputed(g, hosts, groups) != Recomputed(g, hosts', groups)
  {
    hide Missing, Unhealthy;
    var a, b := Recomputed(g, hosts, groups), Recomputed(g, hosts', groups);
    assert a[Healthy] == HealthVerdict(g, hosts, groups) && a[ReferencesValid] == ReferencesVerdict(g, hosts, groups);
    assert b[Healthy] == HealthVerdict(g, hosts', groups) && b[ReferencesValid] == ReferencesVerdict(g, hosts', groups);
  }

  /** So a missed host event does no harm exactly if the host's existence and
      readiness did not change or every group that lists it was queued already. */
  lemma MissedHostEventHarmlessIff(s: State, name: string, t: State)
    requires WellFormed(s) && QueueInvariant(s) && HostEditWith(s, name, {}, t)
    ensures QueueInvariant(t) <==>
            || Get(HostReadiness(t.hosts), name) == Get(HostReadiness(s.hosts), name)
            || GroupsListingHost(s.groups, name) <= s.groupQueue
  {
    hide QueueInvariant, Recomputed, Lists, HostReadiness, GroupReadiness;
    MissedHostEventIff(s, name, t);
    forall n | n in s.groups && name in s.groups[n].hosts
      ensures SameVerdictIn(s, t, n) <==> Get(HostReadiness(t.hosts), name) == Get(HostReadiness(s.hosts), name)
    {
      HostVerdictIff(s, name, t, n);
    }
    assert GroupsListingHost(s.groups, name) <= s.groupQueue <==>
           forall n :: n in s.groups && name in s.groups[n].hosts ==> n in s.groupQueue;
  }

  lemma HostVerdictIff(s: State, name: string, t: State, n: string)
    requires HostEditWith(s, name, {}, t) && n in s.groups && name in s.groups[n].hosts
    ensures SameVerdictIn(s, t, n) <==> Get(HostReadiness(t.hosts), name) == Get(HostReadiness(s.hosts), name)
  {
    hide Recomputed;
    var g := s.groups[n];
    var hosts, hosts', groups := HostReadiness(s.hosts), HostReadiness(t.hosts), GroupReadiness(s.groups);
    if Get(hosts', name) != Get(hosts, name) {
      HostShows(g, hosts, hosts', groups, name);
    } else {
      forall h | h in g.hosts ensures Get(hosts, h) == Get(hosts', h) {
        if h != name { assert Get(t.hosts, h) == Get(s.hosts, h); }
      }
      VerdictReadsMembers(g, hosts, groups, hosts', groups);
    }
  }
}
