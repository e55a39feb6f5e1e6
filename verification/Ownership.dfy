// Whose ConfigMap is whose, over runs of the whole operator.

module Ownership {
  import opened Objects
  import opened VarsConfigMaps
  import opened GroupController
  import opened GroupRuns
  import opened HostController
  import opened JobFiles
  import opened JobController
  import opened Operator
  import opened OperatorJobs

  // ---------- Isolation ----------

  /** The step may write the ConfigMap: it reconciles the object it belongs to,
      or it is an outside edit of this very ConfigMap. */
  ghost predicate MayWrite(s: State, a: Action, n: string) {
    match a
    case GroupReconciled(g) => g in s.groups && n == VarsName(g) && !Foreign(s.configMaps, s.groups[g].Id())
    case HostReconciled(h) => h in s.hosts && n == VarsName(h) && !Foreign(s.configMaps, s.hosts[h].Id())
    case JobReconciled(j, _) => j in s.jobs && n in FileNames(j) && !Taken(s.configMaps, n, j)
    case MapEdited(m) => m == n
    case _ => false
  }

  /** No step changes, creates or deletes any other ConfigMap. */
  lemma OnlyOwnersWrite(s: State, a: Action, t: State, n: string)
    requires WellFormed(s) && Does(s, a, t)
    ensures Get(t.configMaps, n) != Get(s.configMaps, n) ==> MayWrite(s, a, n)
  {
    hide GroupTurn, HostTurn, JobTurn, VarsSettled, Foreign, HostsNamed, GroupsNamed, JobsNamed, Lists, NamesJob, FileNames, OnlyJobStatus, OnlyHostStatus, Woken;
    match a {
      case GroupReconciled(g) =>
        GroupTurnKeepsJobs(s, g, t);
        if g in s.groups { NamedGroup(s, g); }
      case HostReconciled(h) =>
        HostTurnInFrame(s, h, t);
        if h in s.hosts { NamedHost(s, h); }
      case JobReconciled(j, e) =>
        JobTurnInFrame(s, j, e, t);
        if j in s.jobs { NamedJob(s, j); }
      case MapEdited(m) => MapEditKeepsRest(s, m, t);
      case _ =>
    }
  }

  lemma NamedGroup(s: State, n: string)
    requires WellFormed(s) && n in s.groups
    ensures s.groups[n].name == n
  {
  }

  lemma NamedHost(s: State, n: string)
    requires WellFormed(s) && n in s.hosts
    ensures s.hosts[n].name == n
  {
  }

  lemma NamedJob(s: State, n: string)
    requires WellFormed(s) && n in s.jobs
    ensures s.jobs[n].name == n
  {
  }

  /** A ConfigMap nobody edits from outside keeps its controller, if it has one,
      and stays without one if it has none. */
  lemma StepKeepsController(s: State, a: Action, t: State, n: string)
    requires WellFormed(s) && Does(s, a, t) && n in s.configMaps && a != MapEdited(n)
    ensures n in t.configMaps && ControllerOf(t.configMaps[n].owners) == ControllerOf(s.configMaps[n].owners)
  {
    hide GroupTurn, HostTurn, JobTurn, HostsNamed, GroupsNamed, JobsNamed, Lists, NamesJob, FileNames, OnlyJobStatus, OnlyHostStatus, Woken, ControllerOf;
    match a {
      case GroupReconciled(g) => GroupTurnKeepsJobs(s, g, t);
      case HostReconciled(h) => HostTurnInFrame(s, h, t);
      case JobReconciled(j, e) => JobTurnInFrame(s, j, e, t);
      case MapEdited(m) =>
        MapEditKeepsRest(s, m, t);
        assert Get(t.configMaps, n) == Get(s.configMaps, n);
      case _ =>
    }
  }

  lemma {:induction false} ControllerPersists(trace: seq<State>, actions: seq<Action>, i: nat, j: nat, n: string)
    requires Run(trace, actions) && i <= j < |trace| && n in trace[i].configMaps
    requires forall k :: i <= k < j ==> actions[k] != MapEdited(n)
    ensures n in trace[j].configMaps && ControllerOf(trace[j].configMaps[n].owners) == ControllerOf(trace[i].configMaps[n].owners)
  {
    hide Does, WellFormed, ControllerOf;
    if i < j {
      ControllerPersists(trace, actions, i, j - 1, n);
      assert Does(trace[j - 1], actions[j - 1], trace[j]);
      StepKeepsController(trace[j - 1], actions[j - 1], trace[j], n);
    }
  }

  // ---------- One name, two owners ----------

  /** The group's reconcile returned without an error. */
  ghost predicate GroupSucceeds(s: State, name: string, t: State) {
    name in s.groups && Outcome(Dequeued(s, name), name, t, true)
  }

  ghost predicate HostSucceeds(s: State, name: string, t: State) {
    exists text, parses :: HostOutcome(s, name, text, parses, t, Finished)
  }

  /** Success means controlling the ConfigMap of one's variables. */
  lemma SuccessMeansControl(s: State, name: string, t: State)
    requires WellFormed(s)
    ensures GroupSucceeds(s, name, t) ==>
              VarsName(name) in t.configMaps && ControllerOf(t.configMaps[VarsName(name)].owners) == Some(s.groups[name].Id())
    ensures HostSucceeds(s, name, t) ==>
              VarsName(name) in t.configMaps && exists id :: ControllerOf(t.configMaps[VarsName(name)].owners) == Some(id) && id.kind == HostKind
  {
    hide OwnWrites, RecomputedIn, Blocked, Settled, ControllerOf, KeyValid, Lists;
    if HostSucceeds(s, name, t) {
      var text, parses :| HostOutcome(s, name, text, parses, t, Finished);
      assert ControllerOf(t.configMaps[VarsName(name)].owners) == Some(t.hosts[name].Id());
    }
  }

  /** While a vars ConfigMap is not edited from outside, a host and a group of the
      same name do not both reconcile successfully against it. */
  lemma HostAndGroupExclude(trace: seq<State>, actions: seq<Action>, i: nat, j: nat, name: string)
    requires Run(trace, actions) && i < j < |actions|
    requires forall k :: i < k <= j ==> actions[k] != MapEdited(VarsName(name))
    ensures !(GroupSucceeds(trace[i], name, trace[i + 1]) && HostSucceeds(trace[j], name, trace[j + 1]))
    ensures !(HostSucceeds(trace[i], name, trace[i + 1]) && GroupSucceeds(trace[j], name, trace[j + 1]))
  {
    hide Does, WellFormed, GroupSucceeds, HostSucceeds, ControllerOf;
    SuccessMeansControl(trace[i], name, trace[i + 1]);
    SuccessMeansControl(trace[j], name, trace[j + 1]);
    if VarsName(name) in trace[i + 1].configMaps {
      ControllerPersists(trace, actions, i + 1, j + 1, VarsName(name));
    }
  }
}
