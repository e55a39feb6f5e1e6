// Runs of the whole operator: the three controllers and everybody else who
// edits the namespace, one step at a time.

module Operator {
  import opened Objects
  import opened VarsConfigMaps
  import opened GroupRuns
  import opened HostController
  import opened PodTemplates
  import opened JobFiles
  import opened JobController

  // ---------- Steps ----------

  function JobDequeued(s: State, name: string): State { s.(jobQueue := s.jobQueue - {name}) }

  /** A reconcile that returns an error, or panics, goes back into the queue. */
  function JobRequeued(s: State, name: string, ok: bool): State {
    if ok then s else s.(jobQueue := s.jobQueue + {name})
  }

  ghost predicate JobTurn(s: State, name: string, e: Ending, t: State) {
    WellFormed(s) && name in s.jobQueue &&
    exists mid :: JobOutcome(JobDequeued(s, name), name, mid, e) && t == JobRequeued(mid, name, Succeeded(e))
  }

  /** The same without faults. */
  ghost predicate CleanJobTurn(s: State, name: string, t: State) {
    WellFormed(s) && name in s.jobQueue &&
    exists mid, e :: CleanEnding(JobDequeued(s, name), name, mid, e) && t == JobRequeued(mid, name, Succeeded(e))
  }

  ghost predicate CleanEnding(s: State, name: string, t: State, e: Ending)
    requires WellFormed(s)
  {
    JobOutcome(s, name, t, e) && CleanJobOutcome(s, name, t, e)
  }

  method Work(r: JobReconciler, name: string) returns (ghost e: Ending)
    requires name in r.c.store.jobQueue && WellFormed(r.c.store)
    modifies r, r.c
    ensures JobTurn(old(r.c.store), name, e, r.c.store)
    ensures r.c.CleanSince(old(r.c.calls)) ==> CleanJobTurn(old(r.c.store), name, r.c.store)
  {
    hide JobOutcome, CleanJobOutcome, Lists;
    ghost var s1 := JobDequeued(r.c.store, name);
    r.c.store := JobDequeued(r.c.store, name);
    var err, ending, handler := r.Reconcile(name);
    ghost var mid := r.c.store;
    r.c.store := JobRequeued(r.c.store, name, err.None?);
    e := ending;
    assert JobOutcome(s1, name, mid, e);
    assert r.c.CleanSince(old(r.c.calls)) ==> CleanEnding(s1, name, mid, e);
  }

  /** Hosts are reconciled again and again, so at any time. */
  ghost predicate HostTurn(s: State, name: string, t: State) {
    exists text, parses, r :: HostOutcome(s, name, text, parses, t, r)
  }

  function Put<T>(m: map<string, T>, name: string, x: Option<T>): map<string, T> {
    if x.Some? then m[name := x.value] else m - {name}
  }

  ghost predicate HostEdit(s: State, name: string, t: State) {
    exists h :: t == HostEvent(s.(hosts := Put(s.hosts, name, h), hostOrder := t.hostOrder), name)
  }

  ghost predicate GroupEdit(s: State, name: string, t: State) {
    exists g :: t == GroupEvent(s.(groups := Put(s.groups, name, g), groupOrder := t.groupOrder), name)
  }

  ghost predicate PlaybookEdit(s: State, name: string, t: State) {
    exists p :: t == PlaybookEvent(s.(playbooks := Put(s.playbooks, name, p)), name)
  }

  /** A job's status is the controller's alone; a new job has none. */
  ghost predicate JobEdit(s: State, name: string, t: State) {
    exists j :: t == JobEvent(s.(jobs := Put(s.jobs, name, j)), name)
      && (j.Some? ==> j.value.conds == (if name in s.jobs then s.jobs[name].conds else map[]))
  }

  ghost predicate MapEdit(s: State, name: string, t: State) {
    exists cm :: t == ConfigMapEvent(s.(configMaps := Put(s.configMaps, name, cm)), Get(s.configMaps, name), cm)
  }

  /** Secrets and runs: a change of a job's runs wakes the job, while no controller
      that is modelled watches secrets. */
  ghost predicate OtherEdit(s: State, t: State) {
    && t == s.(secrets := t.secrets, runs := t.runs, jobQueue := t.jobQueue) && s.jobQueue <= t.jobQueue
    && forall j :: RunsOf(t.runs, j) != RunsOf(s.runs, j) ==> j in t.jobQueue
  }

  datatype Action =
    | GroupReconciled(name: string)
    | HostReconciled(name: string)
    | JobReconciled(name: string, ending: Ending)
    | HostEdited(name: string)
    | GroupEdited(name: string)
    | PlaybookEdited(name: string)
    | JobEdited(name: string)
    | MapEdited(name: string)
    | OtherEdited

  ghost predicate Does(s: State, a: Action, t: State) {
    match a
    case GroupReconciled(n) => GroupTurn(s, n, t)
    case HostReconciled(n) => HostTurn(s, n, t)
    case JobReconciled(n, e) => JobTurn(s, n, e, t)
    case HostEdited(n) => HostEdit(s, n, t)
    case GroupEdited(n) => GroupEdit(s, n, t)
    case PlaybookEdited(n) => PlaybookEdit(s, n, t)
    case JobEdited(n) => JobEdit(s, n, t)
    case MapEdited(n) => MapEdit(s, n, t)
    case OtherEdited => OtherEdit(s, t)
  }

  /** The namespace stays well-formed, and nobody but the job controller touches
      CronJobs. */
  ghost predicate Run(trace: seq<State>, actions: seq<Action>) {
    && |trace| == |actions| + 1
    && (forall i :: 0 <= i < |trace| ==> WellFormed(trace[i]))
    && (forall i {:trigger actions[i]} :: 0 <= i < |actions| ==> Does(trace[i], actions[i], trace[i + 1]))
  }

  // ---------- Names of ConfigMaps ----------

  /** The last two characters, by which the four suffixes differ. */
  function Ends(s: string): string
    requires |s| >= 2
  {
    s[|s| - 2..]
  }

  lemma EndsOfSuffixed(name: string, suffix: string)
    requires |suffix| >= 2
    ensures Ends(name + suffix) == Ends(suffix)
  {
  }

  /** Over all jobs and all owners of variables, a ConfigMap name stands for one
      object name and one purpose; only a host and a group may share one. */
  lemma ConfigMapNamesInjective(a: string, b: string)
    ensures a != b ==> FileNames(a) !! FileNames(b)
    ensures VarsName(a) !in FileNames(b)
    ensures VarsName(a) == VarsName(b) <==> a == b
  {
    VarsNameInjective(a, b);
    if InventoryName(a) == InventoryName(b) { WithoutSuffix(a, b, INVENTORY_SUFFIX); }
    if KnownHostsName(a) == KnownHostsName(b) { WithoutSuffix(a, b, KNOWN_HOSTS_SUFFIX); }
    if JobConfigName(a) == JobConfigName(b) { WithoutSuffix(a, b, JOB_CONFIG_SUFFIX); }
    forall n | n in {a, b}
      ensures Ends(InventoryName(n)) == "ry" && Ends(KnownHostsName(n)) == "ts" && Ends(JobConfigName(n)) == "ig" && Ends(VarsName(n)) == "rs"
    {
      EndsOfSuffixed(n, INVENTORY_SUFFIX);
      EndsOfSuffixed(n, KNOWN_HOSTS_SUFFIX);
      EndsOfSuffixed(n, JOB_CONFIG_SUFFIX);
      EndsOfSuffixed(n, VARS_SUFFIX);
    }
  }

  // ---------- What a turn leaves alone ----------

  /** What a turn of the job controller may have changed, however it ended. */
  ghost predicate JobTurnFrame(s: State, name: string, t: State) {
    && t == s.(jobs := t.jobs, configMaps := t.configMaps, cronJobs := t.cronJobs, groupQueue := t.groupQueue, jobQueue := t.jobQueue)
    && s.groupQueue <= t.groupQueue && s.jobQueue - {name} <= t.jobQueue
    && (t.jobs == s.jobs || OnlyJobStatus(s.jobs, name, t.jobs))
    && (t.configMaps == s.configMaps || (name in s.jobs && OnlyOwnMaps(s.configMaps, s.jobs[name].Id(), t.configMaps)))
    && OnlyOwnCronJob(s.cronJobs, name, t.cronJobs)
  }

  lemma OutcomeInFrame(s: State, name: string, t: State, e: Ending)
    requires WellFormed(s) && JobOutcome(s, name, t, e)
    ensures JobTurnFrame(s, name, t)
  {
    hide OnlyOwnMaps, OnlyOwnCronJob, FilesDone, JobSettled, CronJobIn, WellFormed;
    SameCronJobs(s.cronJobs, name);
    if e.Done? || e.Refused? || e.Panicked? { assert JobFrame(s, name, t); }
  }

  lemma JobTurnInFrame(s: State, name: string, e: Ending, t: State)
    requires JobTurn(s, name, e, t)
    ensures JobTurnFrame(s, name, t)
    ensures !Succeeded(e) ==> name in t.jobQueue
    ensures WellFormed(t)
  {
    hide OnlyOwnMaps, OnlyOwnCronJob, OnlyJobStatus, JobOutcome;
    var s1 := JobDequeued(s, name);
    var mid :| JobOutcome(s1, name, mid, e) && t == JobRequeued(mid, name, Succeeded(e));
    OutcomeWellFormed(s1, name, mid, e);
    OutcomeInFrame(s1, name, mid, e);
  }

  lemma SameCronJobs(cronJobs: map<string, CronJob>, name: string)
    ensures OnlyOwnCronJob(cronJobs, name, cronJobs)
  {
  }

  /** What a turn of the host controller may have changed. */
  ghost predicate HostTurnFrame(s: State, name: string, t: State) {
    && t == s.(hosts := t.hosts, configMaps := t.configMaps, secrets := t.secrets, groupQueue := t.groupQueue, jobQueue := t.jobQueue)
    && s.groupQueue <= t.groupQueue && s.jobQueue <= t.jobQueue
    && (t.hosts == s.hosts || OnlyHostStatus(s.hosts, name, t.hosts))
    && (t.hosts != s.hosts ==> GroupsListingHost(s.groups, name) <= t.groupQueue && s.jobs.Keys <= t.jobQueue)
    && (t.configMaps == s.configMaps || (name in s.hosts && VarsUpdated(s.configMaps, s.hosts[name].Id(), s.hosts[name].vars, t.configMaps)))
  }

  lemma HostTurnInFrame(s: State, name: string, t: State)
    requires HostTurn(s, name, t)
    ensures HostTurnFrame(s, name, t)
  {
    hide VarsUpdated, Pinned, GroupsListingHost, HostOk;
    var text, parses, r :| HostOutcome(s, name, text, parses, t, r);
    if t != s { assert HostFrame(s, name, text, parses, t); }
  }
}
