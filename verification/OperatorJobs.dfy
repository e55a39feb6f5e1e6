// What holds between the reconciles of a reconcile job, over runs of the whole
// operator: its inventory and its playbook are current, and its CronJob runs
// only if it is Ready.

module OperatorJobs {
  import opened Objects
  import opened ApiServer
  import opened VarsConfigMaps
  import opened GroupController
  import opened GroupRuns
  import opened HostController
  import opened PodTemplates
  import opened JobFiles
  import opened JobController
  import opened Operator

  // ---------- The suspend protocol ----------

  /** Ready means the CronJob is there and runs; not Ready means it does not run. */
  predicate SuspendSound(s: State, name: string) {
    && (ReadyJob(s, name) ==> Running(s, name))
    && (UnreadyJob(s, name) ==> Stopped(s, name))
  }

  /** What the error handler must have achieved: with Ready False in the store the
      CronJob must not run, and with Ready still True it must still run. */
  predicate HandlerKeeps(name: string, h: Handling) {
    && (h.recorded || UnreadyJob(h.entry, name) ==> h.suspended || Stopped(h.entry, name))
    && (!h.recorded && ReadyJob(h.entry, name) ==> !h.suspended && Running(h.entry, name))
  }

  /** From any state at handler entry, whatever calls of the handler fail. */
  lemma HandledSoundIff(name: string, h: Handling)
    requires Lags(h.copy, name, h.entry)
    ensures SuspendSound(Handled(name, h), name) <==> HandlerKeeps(name, h)
  {
    StoppedMeans(h.entry, name, h.suspended);
    hide CronJobStopped, Ahead;
  }

  lemma StoppedMeans(s: State, name: string, suspended: bool)
    ensures var t := CronJobStopped(s, name, suspended);
            && t.jobs == s.jobs
            && (Running(t, name) <==> Running(s, name) && !suspended)
            && (Stopped(t, name) <==> !Running(t, name))
  {
  }

  predicate KeepsSuspend(name: string, e: Ending) {
    e.Refused? ==> HandlerKeeps(name, e.handling)
  }

  lemma WorkingHandlerKeeps(name: string, e: Ending)
    requires HandlerWorked(e)
    ensures KeepsSuspend(name, e)
  {
  }

  lemma DoneMeans(s: State, name: string, t: State)
    requires WellFormed(s) && JobOutcome(s, name, t, Done)
    ensures ReadyJob(t, name) && !UnreadyJob(t, name) && Running(t, name)
  {
    hide FilesDone, WellFormed, Template, NewestRun, JobFrame;
    assert t.jobs[name].conds == FinalConds(t.jobs[name].conds, NewestRun(t.runs, name));
  }

  /** A reconcile keeps the protocol, except exactly when the error handler left
      Ready and the CronJob at odds. */
  lemma SuspendKeptIff(s: State, name: string, t: State, e: Ending)
    requires WellFormed(s) && JobOutcome(s, name, t, e) && SuspendSound(s, name)
    ensures SuspendSound(t, name) <==> KeepsSuspend(name, e)
  {
    hide JobFrame, JobSettled, FilesDone, WellFormed, Handled, HandlerKeeps, Lags, Interrupted;
    if e.Done? { DoneMeans(s, name, t); }
    if e.Refused? { HandledSoundIff(name, e.handling); }
    if e.Panicked? { FrameKeepsInputs(s, name, t); }
  }

  /** Whatever calls fail, an existing job's reconcile that succeeds leaves
      everything in place, and no success is possible when an input is missing. */
  lemma SuccessNeedsInputs(s: State, name: string, t: State)
    requires WellFormed(s) && JobOutcome(s, name, t, Done)
    ensures name in s.jobs && FilesProblem(s, s.jobs[name]).None?
  {
    hide FilesDone, FilesProblem, HostsNamed, GroupsNamed, Lists, OnlyOwnMaps, NewestRun;
    FrameKeepsInputs(s, name, t);
    hide OnlyJobStatus, CronJobIn;
    SameFilesBack(s, name, t);
  }

  lemma SameFilesBack(s: State, name: string, t: State)
    requires WellFormed(s) && WellFormed(t) && JobFrame(s, name, t) && FilesDone(t, t.jobs[name])
    ensures FilesProblem(s, s.jobs[name]).None?
  {
    FrameKeepsInputs(s, name, t);
    hide FilesDone, FilesProblem, WellFormed;
    MadeMeansPossible(s, s.jobs[name], t, t.jobs[name]);
  }

  lemma TurnKeepsSuspendIff(s: State, name: string, e: Ending, t: State, n: string)
    requires WellFormed(s) && JobTurn(s, name, e, t)
    requires SuspendSound(s, n)
    ensures SuspendSound(t, n) <==> (n == name ==> KeepsSuspend(name, e))
  {
    hide JobTurn, WellFormed, OnlyOwnMaps, KeepsSuspend, JobWakes;
    if n == name {
      TurnKeepsOwnSuspendIff(s, name, e, t);
    } else {
      JobTurnInFrame(s, name, e, t);
      assert Get(t.cronJobs, n) == Get(s.cronJobs, n);
    }
  }

  lemma TurnKeepsOwnSuspendIff(s: State, name: string, e: Ending, t: State)
    requires WellFormed(s) && JobTurn(s, name, e, t)
    requires SuspendSound(s, name)
    ensures SuspendSound(t, name) <==> KeepsSuspend(name, e)
  {
    hide JobOutcome, KeepsSuspend, Lists, HostsNamed, GroupsNamed, JobsNamed;
    var s1 := JobDequeued(s, name);
    var mid :| JobOutcome(s1, name, mid, e) && t == JobRequeued(mid, name, Succeeded(e));
    SuspendKeptIff(s1, name, mid, e);
  }

  /** Nothing but a turn of this controller touches its CronJobs or its status. */
  lemma OthersKeepSuspend(s: State, a: Action, t: State, n: string)
    requires Does(s, a, t) && !a.JobReconciled?
    requires SuspendSound(s, n)
    ensures SuspendSound(t, n)
  {
    hide GroupTurn, HostTurn, GroupsListing, GroupsListingHost, JobsUsing, Woken;
    match a {
      case GroupReconciled(name) => GroupTurnKeepsJobs(s, name, t);
      case HostReconciled(name) => HostTurnInFrame(s, name, t); hide OnlyHostStatus, VarsUpdated;
      case _ =>
    }
  }

  lemma GroupTurnKeepsJobs(s: State, name: string, t: State)
    requires GroupTurn(s, name, t)
    ensures t.jobs == s.jobs && t.cronJobs == s.cronJobs && t.hosts == s.hosts && t.playbooks == s.playbooks && t.secrets == s.secrets && t.runs == s.runs
    ensures t.hostOrder == s.hostOrder && t.groupOrder == s.groupOrder
    ensures s.jobQueue <= t.jobQueue
    ensures t.groups != s.groups ==> s.jobs.Keys <= t.jobQueue
    ensures t.configMaps == s.configMaps || (name in s.groups && VarsUpdated(s.configMaps, s.groups[name].Id(), s.groups[name].vars, t.configMaps))
  {
    hide Outcome, VarsUpdated;
    var mid, ok :| Outcome(Dequeued(s, name), name, mid, ok) && t == Requeued(mid, name, ok);
    OutcomeKeepsJobs(Dequeued(s, name), name, mid, ok);
  }

  lemma OutcomeKeepsJobs(s: State, name: string, t: State, ok: bool)
    requires Outcome(s, name, t, ok)
    ensures t.jobs == s.jobs && t.cronJobs == s.cronJobs && t.hosts == s.hosts && t.playbooks == s.playbooks && t.secrets == s.secrets && t.runs == s.runs
    ensures t.hostOrder == s.hostOrder && t.groupOrder == s.groupOrder
    ensures s.jobQueue <= t.jobQueue
    ensures t.groups != s.groups ==> s.jobs.Keys <= t.jobQueue
    ensures t.configMaps == s.configMaps || (name in s.groups && VarsUpdated(s.configMaps, s.groups[name].Id(), s.groups[name].vars, t.configMaps))
  {
    hide OwnWrites, Settled, Blocked, RecomputedIn, VarsSettled;
    if name in s.groups { OwnWritesKeepJobs(s, name, t); }
  }

  lemma OwnWritesKeepJobs(s: State, name: string, t: State)
    requires OwnWrites(s, name, t)
    ensures t.jobs == s.jobs && t.cronJobs == s.cronJobs && t.hosts == s.hosts && t.playbooks == s.playbooks && t.secrets == s.secrets && t.runs == s.runs
    ensures t.hostOrder == s.hostOrder && t.groupOrder == s.groupOrder
    ensures s.jobQueue <= t.jobQueue
    ensures t.groups != s.groups ==> s.jobs.Keys <= t.jobQueue
    ensures VarsUpdated(s.configMaps, s.groups[name].Id(), s.groups[name].vars, t.configMaps)
  {
    hide VarsUpdated, MembersReady;
  }

  /** The step is no reconcile of this job, or its error handler kept the protocol. */
  predicate StepKeeps(a: Action, n: string) {
    a.JobReconciled? && a.name == n ==> KeepsSuspend(n, a.ending)
  }

  lemma StepKeepsSuspendIff(s: State, a: Action, t: State, n: string)
    requires WellFormed(s) && Does(s, a, t) && SuspendSound(s, n)
    ensures SuspendSound(t, n) <==> StepKeeps(a, n)
  {
    hide Does, WellFormed, SuspendSound, KeepsSuspend;
    if a.JobReconciled? {
      DoesJobTurn(s, a, t);
      TurnKeepsSuspendIff(s, a.name, a.ending, t, n);
    } else {
      OthersKeepSuspend(s, a, t, n);
    }
  }

  lemma {:induction false} SoundUpTo(trace: seq<State>, actions: seq<Action>, i: nat, n: string)
    requires Run(trace, actions) && i < |trace| && SuspendSound(trace[0], n)
    requires forall k :: 0 <= k < i ==> StepKeeps(actions[k], n)
    ensures SuspendSound(trace[i], n)
  {
    hide Does, WellFormed, SuspendSound, StepKeeps;
    if i > 0 {
      SoundUpTo(trace, actions, i - 1, n);
      assert Does(trace[i - 1], actions[i - 1], trace[i]);
      StepKeepsSuspendIff(trace[i - 1], actions[i - 1], trace[i], n);
    }
  }

  /** Over all runs and all faults: between reconciles Ready and the CronJob agree
      throughout exactly if every error handler of this job kept them so. */
  lemma RunKeepsSuspendIff(trace: seq<State>, actions: seq<Action>, n: string)
    requires Run(trace, actions) && SuspendSound(trace[0], n)
    ensures (forall i :: 0 <= i < |trace| ==> SuspendSound(trace[i], n)) <==>
            (forall k :: 0 <= k < |actions| ==> StepKeeps(actions[k], n))
  {
    hide Does, WellFormed, SuspendSound, StepKeeps;
    if forall k :: 0 <= k < |actions| ==> StepKeeps(actions[k], n) {
      forall i | 0 <= i < |trace| ensures SuspendSound(trace[i], n) { SoundUpTo(trace, actions, i, n); }
    }
    if forall i :: 0 <= i < |trace| ==> SuspendSound(trace[i], n) {
      forall k | 0 <= k < |actions| ensures StepKeeps(actions[k], n) {
        assert SuspendSound(trace[k], n) && SuspendSound(trace[k + 1], n);
        assert Does(trace[k], actions[k], trace[k + 1]);
        StepKeepsSuspendIff(trace[k], actions[k], trace[k + 1], n);
      }
    }
  }

  /** In particular, while all calls of the handler go well, whatever else fails: a
      Ready job's CronJob runs, and that of a job with Ready False does not. */
  lemma RunKeepsSuspend(trace: seq<State>, actions: seq<Action>, i: nat, n: string)
    requires Run(trace, actions) && i < |trace|
    requires forall k :: 0 <= k < |actions| && actions[k].JobReconciled? ==> HandlerWorked(actions[k].ending)
    requires SuspendSound(trace[0], n)
    ensures SuspendSound(trace[i], n)
  {
    hide Does, WellFormed, SuspendSound, KeepsSuspend, HandlerWorked;
    forall k | 0 <= k < |actions| ensures StepKeeps(actions[k], n) {
      if actions[k].JobReconciled? { WorkingHandlerKeeps(n, actions[k].ending); }
    }
    SoundUpTo(trace, actions, i, n);
  }

  lemma DoesJobTurn(s: State, a: Action, t: State)
    requires Does(s, a, t) && a.JobReconciled?
    ensures JobTurn(s, a.name, a.ending, t)
  {
  }

  // ---------- The job queue invariant ----------

  /** The ConfigMap's controller, if any, is the job of that name. */
  predicate ControlledByJob(cm: ConfigMap, job: string) {
    var c := ControllerOf(cm.owners);
    c.Some? && c.value.kind == JobKind && c.value.name == job
  }

  /** Whatever ConfigMap under a job's name counts as the job's is controlled by it. */
  ghost predicate JobMapsControlled(configMaps: map<string, ConfigMap>) {
    forall j, n :: n in FileNames(j) && n in configMaps && NamesJob(configMaps[n].owners, j) ==> ControlledByJob(configMaps[n], j)
  }

  /** The job's inventory is that of the namespace, and its configuration is its playbook's. */
  ghost predicate Current(s: State, name: string) {
    name in s.jobs && InventoryDone(s, s.jobs[name]) && RuntimeDone(s, s.jobs[name])
  }

  /** It is also Ready, its CronJob is the one for the hosts, the groups and the
      schedule as they are, and so runs, and its status is that of its newest run. */
  ghost predicate UpToDate(s: State, name: string)
    requires WellFormed(s)
  {
    && Current(s, name)
    && ReadyIs(s, name, RECONCILED)
    && Get(s.cronJobs, name) == Some(CronJobIn(s, s.jobs[name]))
    && BelongsTo(s.cronJobs[name], s.jobs[name])
    && s.jobs[name].conds == RunConds(s.jobs[name].conds, NewestRun(s.runs, name))
  }

  /** What that is for the namespace: ConfigMaps, CronJob and Ready, field by field. */
  ghost predicate Serves(s: State, name: string)
    requires WellFormed(s)
  {
    && name in s.jobs && name in s.cronJobs
    && StoresInventory(s, name) && StoresConfig(s, name, s.jobs[name].playbook)
    && BelongsTo(s.cronJobs[name], s.jobs[name]) && !s.cronJobs[name].suspend
    && s.cronJobs[name].template == Template(name, Listed(s.hosts, s.hostOrder), Listed(s.groups, s.groupOrder))
    && Get(s.jobs[name].conds, Ready) == Some(Condition(CondTrue, ReconcileSuccess))
    && TellsRuns(s.jobs[name].conds, s.runs, name)
  }

  lemma UpToDateServes(s: State, name: string)
    requires WellFormed(s) && UpToDate(s, name)
    ensures Serves(s, name)
  {
    hide InventoryDone, RuntimeDone, StoresInventory, StoresConfig, CronJobIn, BelongsTo, RunConds, NewestRun, TellsRuns;
    var job := s.jobs[name];
    RunCondsTell(job.conds, s.runs, name);
    InventoryDoneStores(s, job);
    RuntimeDoneStores(s, job);
    CronJobBelongs(s, job);
  }

  ghost predicate JobQueueInvariant(s: State)
    requires WellFormed(s)
  {
    forall n :: n in s.jobs && n !in s.jobQueue ==> UpToDate(s, n)
  }

  /** What a job's inventory and configuration are made from. */
  lemma StaysCurrent(s: State, t: State, n: string)
    requires Current(s, n) && n in t.jobs && s.jobs[n].name == n
    requires t.jobs[n].name == s.jobs[n].name && t.jobs[n].playbook == s.jobs[n].playbook
    requires t.hosts == s.hosts && t.groups == s.groups
    requires Get(t.playbooks, s.jobs[n].playbook) == Get(s.playbooks, s.jobs[n].playbook)
    requires Get(t.configMaps, InventoryName(n)) == Get(s.configMaps, InventoryName(n))
    requires Get(t.configMaps, JobConfigName(n)) == Get(s.configMaps, JobConfigName(n))
    ensures Current(t, n)
  {
    hide InventoryData, NamesJob, HostsNamed;
  }

  lemma StaysUpToDate(s: State, t: State, n: string)
    requires WellFormed(s) && WellFormed(t)
    requires UpToDate(s, n) && n in t.jobs && t.jobs[n] == s.jobs[n]
    requires t.hosts == s.hosts && t.hostOrder == s.hostOrder && t.groups == s.groups && t.groupOrder == s.groupOrder
    requires Get(t.playbooks, s.jobs[n].playbook) == Get(s.playbooks, s.jobs[n].playbook)
    requires Get(t.configMaps, InventoryName(n)) == Get(s.configMaps, InventoryName(n))
    requires Get(t.configMaps, JobConfigName(n)) == Get(s.configMaps, JobConfigName(n))
    requires Get(t.cronJobs, n) == Get(s.cronJobs, n)
    requires RunsOf(t.runs, n) == RunsOf(s.runs, n)
    ensures UpToDate(t, n)
  {
    NewestOfItsRuns(s.runs, n);
    NewestOfItsRuns(t.runs, n);
    hide Current, HostsNamed, GroupsNamed, NewestRun, RunsOf;
    assert n in s.jobs by { CurrentExists(s, n); }
    StaysCurrent(s, t, n);
    SameCronJob(s, s.jobs[n], t, t.jobs[n]);
  }

  lemma UpToDateIsCurrent(s: State, n: string)
    requires WellFormed(s) && UpToDate(s, n)
    ensures Current(s, n)
  {
  }

  lemma CurrentExists(s: State, n: string)
    requires Current(s, n)
    ensures n in s.jobs
  {
  }

  lemma SettledIsUpToDate(s: State, name: string)
    requires WellFormed(s) && JobSettled(s, name)
    ensures UpToDate(s, name)
  {
    hide InventoryData, KnownHostsData, NamesJob, CronJobIn, NewestRun;
    CronJobBelongs(s, s.jobs[name]);
    assert s.jobs[name].conds == FinalConds(s.jobs[name].conds, NewestRun(s.runs, name));
  }

  lemma JobTurnKeepsCurrent(s: State, name: string, e: Ending, t: State)
    requires WellFormed(s) && JobQueueInvariant(s) && JobTurn(s, name, e, t)
    ensures WellFormed(t) && JobQueueInvariant(t)
  {
    hide JobTurn, UpToDate, HostsNamed, GroupsNamed, Lists, NamesJob, FileNames;
    JobTurnInFrame(s, name, e, t);
    forall n | n in t.jobs && n !in t.jobQueue ensures UpToDate(t, n) {
      if n == name {
        SuccessIsUpToDate(s, name, e, t);
      } else {
        assert UpToDate(s, n);
        OtherJobsMaps(s, name, t, n);
        StaysUpToDate(s, t, n);
      }
    }
  }

  lemma SuccessIsUpToDate(s: State, name: string, e: Ending, t: State)
    requires WellFormed(s) && JobTurn(s, name, e, t) && name in t.jobs && Succeeded(e)
    ensures WellFormed(t) && UpToDate(t, name)
  {
    hide FilesDone, UpToDate, JobFrame, JobSettled, HostsNamed, GroupsNamed, Lists;
    JobTurnInFrame(s, name, e, t);
    var s1 := JobDequeued(s, name);
    var mid :| JobOutcome(s1, name, mid, e) && t == JobRequeued(mid, name, Succeeded(e));
    SettledIsUpToDate(mid, name);
  }

  lemma OtherJobsMaps(s: State, name: string, t: State, n: string)
    requires JobTurnFrame(s, name, t) && n != name && JobsNamed(s.jobs)
    ensures Get(t.configMaps, InventoryName(n)) == Get(s.configMaps, InventoryName(n))
    ensures Get(t.configMaps, JobConfigName(n)) == Get(s.configMaps, JobConfigName(n))
  {
    hide NamesJob, OnlyOwnCronJob, OnlyJobStatus;
    ConfigMapNamesInjective(n, name);
    assert InventoryName(n) in FileNames(n) && JobConfigName(n) in FileNames(n);
    hide FileNames;
  }

  /** Variables are never written under the name of a job's ConfigMap. */
  lemma VarsLeaveJobMaps(before: map<string, ConfigMap>, owner: string, after: map<string, ConfigMap>, n: string)
    requires after == before || (VarsName(owner) in after && after == before[VarsName(owner) := after[VarsName(owner)]])
    ensures Get(after, InventoryName(n)) == Get(before, InventoryName(n))
    ensures Get(after, JobConfigName(n)) == Get(before, JobConfigName(n))
  {
    ConfigMapNamesInjective(owner, n);
  }

  lemma GroupTurnKeepsCurrent(s: State, name: string, t: State)
    requires WellFormed(s) && WellFormed(t) && JobQueueInvariant(s) && GroupTurn(s, name, t)
    ensures JobQueueInvariant(t)
  {
    hide GroupTurn, UpToDate, HostsNamed, GroupsNamed, Lists, VarsSettled, Foreign;
    GroupTurnKeepsJobs(s, name, t);
    forall n | n in t.jobs && n !in t.jobQueue ensures UpToDate(t, n) {
      assert UpToDate(s, n);
      VarsLeaveJobMaps(s.configMaps, if t.configMaps == s.configMaps then "" else s.groups[name].name, t.configMaps, n);
      StaysUpToDate(s, t, n);
    }
  }

  lemma HostTurnKeepsCurrent(s: State, name: string, t: State)
    requires WellFormed(s) && WellFormed(t) && JobQueueInvariant(s) && HostTurn(s, name, t)
    ensures JobQueueInvariant(t)
  {
    hide HostTurn, UpToDate, HostsNamed, GroupsNamed, Lists, VarsSettled, Foreign, GroupsListingHost, OnlyHostStatus;
    HostTurnInFrame(s, name, t);
    forall n | n in t.jobs && n !in t.jobQueue ensures UpToDate(t, n) {
      assert UpToDate(s, n);
      VarsLeaveJobMaps(s.configMaps, if t.configMaps == s.configMaps then "" else s.hosts[name].name, t.configMaps, n);
      StaysUpToDate(s, t, n);
    }
  }

  lemma PlaybookEditKeepsCurrent(s: State, name: string, t: State)
    requires WellFormed(s) && WellFormed(t) && JobQueueInvariant(s) && PlaybookEdit(s, name, t)
    ensures JobQueueInvariant(t)
  {
    hide UpToDate, HostsNamed, GroupsNamed, Lists;
    forall n | n in t.jobs && n !in t.jobQueue ensures UpToDate(t, n) {
      assert UpToDate(s, n);
      assert n !in JobsUsing(s.jobs, name);
      StaysUpToDate(s, t, n);
    }
  }

  lemma JobEditKeepsCurrent(s: State, name: string, t: State)
    requires WellFormed(s) && WellFormed(t) && JobQueueInvariant(s) && JobEdit(s, name, t)
    ensures JobQueueInvariant(t)
  {
    hide UpToDate, HostsNamed, GroupsNamed, Lists;
    forall n | n in t.jobs && n !in t.jobQueue ensures UpToDate(t, n) {
      assert n != name && UpToDate(s, n);
      StaysUpToDate(s, t, n);
    }
  }

  /** An edit to a job's ConfigMap is noticed exactly when the job controls it,
      before the edit or after. An owner reference alone does not wake the job. */
  lemma MapEditNoticedIff(s: State, name: string, t: State, n: string)
    requires MapEdit(s, name, t) && n !in s.jobQueue
    ensures n in t.jobQueue <==>
            || (name in s.configMaps && ControlledByJob(s.configMaps[name], n))
            || (name in t.configMaps && ControlledByJob(t.configMaps[name], n))
  {
    var cm :| t == ConfigMapEvent(s.(configMaps := Put(s.configMaps, name, cm)), Get(s.configMaps, name), cm);
    assert Get(t.configMaps, name) == cm;
  }

  /** Every edit that makes an unqueued job out of date is noticed if and only if
      the job controls both ConfigMaps. */
  lemma EditsNoticedIffControlled(s: State, n: string)
    requires WellFormed(s) && Current(s, n) && n !in s.jobQueue
    ensures (forall name, t :: MapEdit(s, name, t) ==> EditNoticed(n, t)) <==>
            ControlledByJob(s.configMaps[InventoryName(n)], n) && ControlledByJob(s.configMaps[JobConfigName(n)], n)
  {
    hide InventoryData, PlaybookData, NamesJob, ControlledByJob, HostsNamed, GroupsNamed, Lists;
    var inventory, config := s.configMaps[InventoryName(n)], s.configMaps[JobConfigName(n)];
    if !ControlledByJob(inventory, n) {
      var t := UnnoticedEdit(s, InventoryName(n), n);
    } else if !ControlledByJob(config, n) {
      var t := UnnoticedEdit(s, JobConfigName(n), n);
    } else {
      forall name, t | MapEdit(s, name, t) ensures EditNoticed(n, t) {
        MapEditKeepsRest(s, name, t);
        MapEditNoticedIff(s, name, t, n);
        if n !in t.jobQueue { StaysCurrent(s, t, n); }
      }
    }
  }

  ghost predicate EditNoticed(n: string, t: State) {
    n in t.jobQueue || Current(t, n)
  }

  /** Other data under the same owners. */
  lemma UnnoticedEdit(s: State, name: string, n: string) returns (t: State)
    requires WellFormed(s) && Current(s, n) && n !in s.jobQueue
    requires name == InventoryName(n) || name == JobConfigName(n)
    requires name in s.configMaps && !ControlledByJob(s.configMaps[name], n)
    ensures MapEdit(s, name, t) && !EditNoticed(n, t)
  {
    hide InventoryDone, RuntimeDone, HostsNamed, GroupsNamed, Lists, Woken, ControlledByJob;
    var cm := s.configMaps[name];
    var edited := cm.(data := if "" in cm.data then map[] else map["" := ""]);
    assert edited.data != cm.data by { assert "" in edited.data <==> "" !in cm.data; }
    t := ConfigMapEvent(s.(configMaps := s.configMaps[name := edited]), Some(cm), Some(edited));
    assert MapEdit(s, name, t) by { assert Put(s.configMaps, name, Some(edited)) == s.configMaps[name := edited]; }
    assert ControlledByJob(edited, n) == ControlledByJob(cm, n) by { SameOwnersSameController(cm, edited, n); }
    MapEditNoticedIff(s, name, t, n);
    if Current(t, n) { CurrentFixesData(s, t, name, n); }
  }

  lemma SameOwnersSameController(a: ConfigMap, b: ConfigMap, n: string)
    requires a.owners == b.owners
    ensures ControlledByJob(a, n) == ControlledByJob(b, n)
  {
  }

  /** A job that is current before and after an edit has the same data in both. */
  lemma CurrentFixesData(s: State, t: State, name: string, n: string)
    requires Current(s, n) && Current(t, n) && s.jobs[n].name == n
    requires t.jobs == s.jobs && t.hosts == s.hosts && t.groups == s.groups && t.playbooks == s.playbooks
    requires name == InventoryName(n) || name == JobConfigName(n)
    ensures name in s.configMaps && name in t.configMaps && t.configMaps[name].data == s.configMaps[name].data
  {
    hide InventoryData, PlaybookData, NamesJob;
  }

  lemma MapEditKeepsCurrent(s: State, name: string, t: State)
    requires WellFormed(s) && WellFormed(t) && JobQueueInvariant(s) && MapEdit(s, name, t)
    requires JobMapsControlled(s.configMaps)
    ensures JobQueueInvariant(t)
  {
    hide UpToDate, HostsNamed, GroupsNamed, Lists, ControlledByJob;
    MapEditKeepsRest(s, name, t);
    hide MapEdit;
    forall n | n in t.jobs && n !in t.jobQueue ensures UpToDate(t, n) {
      assert UpToDate(s, n);
      assert Current(s, n) by { UpToDateIsCurrent(s, n); }
      CurrentMapsAreTheJobs(s, n);
      MapEditNoticedIff(s, name, t, n);
      StaysUpToDate(s, t, n);
    }
  }

  lemma MapEditKeepsRest(s: State, name: string, t: State)
    requires MapEdit(s, name, t)
    ensures t == s.(configMaps := t.configMaps, groupQueue := t.groupQueue, jobQueue := t.jobQueue)
    ensures s.jobQueue <= t.jobQueue
    ensures forall n :: n != name ==> Get(t.configMaps, n) == Get(s.configMaps, n)
  {
    hide Woken;
  }

  lemma CurrentMapsAreTheJobs(s: State, n: string)
    requires WellFormed(s) && Current(s, n) && JobMapsControlled(s.configMaps)
    ensures InventoryName(n) in s.configMaps && ControlledByJob(s.configMaps[InventoryName(n)], n)
    ensures JobConfigName(n) in s.configMaps && ControlledByJob(s.configMaps[JobConfigName(n)], n)
  {
    hide InventoryData, PlaybookData, NamesJob, ControlledByJob, Lists;
    assert InventoryName(n) in FileNames(n) && JobConfigName(n) in FileNames(n);
  }

  lemma StepKeepsCurrent(s: State, a: Action, t: State)
    requires WellFormed(s) && WellFormed(t) && JobQueueInvariant(s) && Does(s, a, t)
    requires JobMapsControlled(s.configMaps)
    ensures JobQueueInvariant(t)
  {
    hide GroupTurn, HostTurn, JobTurn, HostsNamed, GroupsNamed, Lists, PlaybookEdit, JobEdit, MapEdit, JobMapsControlled;
    match a {
      case GroupReconciled(n) => hide UpToDate; GroupTurnKeepsCurrent(s, n, t);
      case HostReconciled(n) => hide UpToDate; HostTurnKeepsCurrent(s, n, t);
      case JobReconciled(n, e) => hide UpToDate; JobTurnKeepsCurrent(s, n, e, t);
      case PlaybookEdited(n) => hide UpToDate; PlaybookEditKeepsCurrent(s, n, t);
      case JobEdited(n) => hide UpToDate; JobEditKeepsCurrent(s, n, t);
      case MapEdited(n) => hide UpToDate; MapEditKeepsCurrent(s, n, t);
      case HostEdited(n) => hide UpToDate; assert t.jobs.Keys <= t.jobQueue;
      case GroupEdited(n) => hide UpToDate; assert t.jobs.Keys <= t.jobQueue;
      case OtherEdited =>
        hide UpToDate;
        forall n | n in t.jobs && n !in t.jobQueue ensures UpToDate(t, n) {
          assert UpToDate(s, n);
          StaysUpToDate(s, t, n);
        }
    }
  }

  // ---------- Controllers of ConfigMaps ----------

  lemma VarsKeepJobMapsControlled(before: map<string, ConfigMap>, owner: string, after: map<string, ConfigMap>)
    requires JobMapsControlled(before)
    requires after == before || (VarsName(owner) in after && after == before[VarsName(owner) := after[VarsName(owner)]])
    ensures JobMapsControlled(after)
  {
    hide FileNames, NamesJob, ControlledByJob;
    forall j { ConfigMapNamesInjective(owner, j); }
  }

  /** The job controller creates ConfigMaps it controls and never changes owners. */
  lemma FilesKeepJobMapsControlled(before: map<string, ConfigMap>, owner: Identity, after: map<string, ConfigMap>)
    requires JobMapsControlled(before) && OnlyOwnMaps(before, owner, after) && owner.kind == JobKind
    ensures JobMapsControlled(after)
  {
    hide FileNames;
    forall j, n | n in FileNames(j) && n in after && NamesJob(after[n].owners, j) ensures ControlledByJob(after[n], j) {
      if n !in before {
        assert after[n].owners == [OwnerRef(owner, true)];
      } else {
        hide NamesJob;
        assert after[n].owners == before[n].owners;
      }
    }
  }

  lemma StepKeepsJobMapsControlled(s: State, a: Action, t: State)
    requires WellFormed(s) && Does(s, a, t) && !a.MapEdited? && JobMapsControlled(s.configMaps)
    ensures JobMapsControlled(t.configMaps)
  {
    hide GroupTurn, HostTurn, JobTurn, WellFormed, JobMapsControlled, VarsSettled, Foreign, OnlyOwnMaps, OnlyHostStatus, OnlyJobStatus;
    match a {
      case GroupReconciled(n) =>
        GroupTurnKeepsJobs(s, n, t);
        VarsKeepJobMapsControlled(s.configMaps, if t.configMaps == s.configMaps then "" else s.groups[n].name, t.configMaps);
      case HostReconciled(n) =>
        HostTurnInFrame(s, n, t);
        VarsKeepJobMapsControlled(s.configMaps, if t.configMaps == s.configMaps then "" else s.hosts[n].name, t.configMaps);
      case JobReconciled(n, e) =>
        JobTurnInFrame(s, n, e, t);
        if t.configMaps != s.configMaps { FilesKeepJobMapsControlled(s.configMaps, s.jobs[n].Id(), t.configMaps); }
      case _ =>
    }
  }

  lemma InvariantServes(s: State)
    requires WellFormed(s)
    ensures JobQueueInvariant(s) ==> forall n :: n in s.jobs && n !in s.jobQueue ==> Serves(s, n)
  {
    hide UpToDate, Serves;
    if JobQueueInvariant(s) {
      forall n | n in s.jobs && n !in s.jobQueue ensures Serves(s, n) { UpToDateServes(s, n); }
    }
  }

  lemma {:induction false} RunKeepsJobInvariant(trace: seq<State>, actions: seq<Action>, i: nat)
    requires Run(trace, actions) && i < |trace|
    requires JobQueueInvariant(trace[0]) && JobMapsControlled(trace[0].configMaps)
    requires forall k :: 0 <= k < |actions| && actions[k].MapEdited? ==> JobMapsControlled(trace[k + 1].configMaps)
    ensures JobQueueInvariant(trace[i]) && JobMapsControlled(trace[i].configMaps)
  {
    hide Does, JobQueueInvariant, JobMapsControlled, HostsNamed, GroupsNamed, JobsNamed, Lists;
    if i > 0 {
      RunKeepsJobInvariant(trace, actions, i - 1);
      var a := actions[i - 1];
      assert Does(trace[i - 1], a, trace[i]);
      StepKeepsCurrent(trace[i - 1], a, trace[i]);
      if !a.MapEdited? { StepKeepsJobMapsControlled(trace[i - 1], a, trace[i]); }
    }
  }

  /** In every reachable state, as long as nobody gives a job's ConfigMap an owner
      reference to the job without making the job its controller: each job that is
      not queued is Ready, has the inventory of the namespace's current hosts and
      groups and the configuration of its current playbook, and its CronJob is the
      desired one and runs. */
  lemma RunKeepsJobsCurrent(trace: seq<State>, actions: seq<Action>, i: nat)
    requires Run(trace, actions) && i < |trace|
    requires JobQueueInvariant(trace[0]) && JobMapsControlled(trace[0].configMaps)
    requires forall k :: 0 <= k < |actions| && actions[k].MapEdited? ==> JobMapsControlled(trace[k + 1].configMaps)
    ensures JobQueueInvariant(trace[i]) && JobMapsControlled(trace[i].configMaps)
    ensures forall n :: n in trace[i].jobs && n !in trace[i].jobQueue ==> Serves(trace[i], n)
  {
    hide Does, Serves, JobQueueInvariant, JobMapsControlled, WellFormed;
    RunKeepsJobInvariant(trace, actions, i);
    InvariantServes(trace[i]);
  }
}
