// The AnsibleReconcileJob reconciler: three ConfigMaps, a CronJob and the
// job's conditions, with the CronJob suspended when something fails.

module JobController {
  import opened Objects
  import opened ApiServer
  import opened Inventory
  import opened PodTemplates
  import opened JobFiles

  // ---------- The newest run ----------

  function Newer(run: JobRun, newest: Option<JobRun>): bool {
    run.start.Some? && (newest.None? || newest.value.start.None? || run.start.value > newest.value.start.value)
  }

  /** The started run of this job with the latest start; the first of several. */
  function NewestRun(runs: seq<JobRun>, job: string): Option<JobRun> {
    if runs == [] then None
    else
      var last, newest := runs[|runs| - 1], NewestRun(runs[..|runs| - 1], job);
      if last.owner == job && Newer(last, newest) then Some(last) else newest
  }

  lemma {:induction false} NewestRunIsLatest(runs: seq<JobRun>, job: string)
    ensures var newest := NewestRun(runs, job);
            && (newest.Some? ==> newest.value in runs && newest.value.owner == job && newest.value.start.Some?)
            && (forall r :: r in runs && r.owner == job && r.start.Some? ==> newest.Some? && r.start.value <= newest.value.start.value)
  {
    if runs != [] {
      var rest := runs[..|runs| - 1];
      NewestRunIsLatest(rest, job);
      assert forall r :: r in runs <==> r in rest || r == runs[|runs| - 1];
    }
  }

  function ProgressingVerdict(newest: Option<JobRun>): Condition {
    if newest.None? then Condition(CondUnknown, NoJobsFound)
    else if newest.value.active > 0 then Condition(CondTrue, JobRunning)
    else Condition(CondFalse, JobNotRunning)
  }

  function SuccessfulVerdict(newest: Option<JobRun>): Condition {
    if newest.None? then Condition(CondUnknown, NoJobsFound)
    else if newest.value.succeeded > 0 then Condition(CondTrue, JobSucceeded)
    else if newest.value.failed > 0 then Condition(CondFalse, JobFailed)
    else Condition(CondUnknown, JobStatusUnknown)
  }

  // ---------- What a reconcile aims at ----------

  const RECONCILED := Condition(CondTrue, ReconcileSuccess)

  function Initialised(conds: Conditions): Conditions {
    Default(Default(Default(conds, Ready), Progressing), Successful)
  }

  /** Conditions there were are as they were; of the three, those that were missing
      are Unknown. */
  ghost predicate KeptOrUnknown(before: Conditions, after: Conditions) {
    && (forall k :: k in before ==> Get(after, k) == Some(before[k]))
    && (forall k :: k !in before && k in {Ready, Progressing, Successful} ==> Get(after, k) == Some(Condition(CondUnknown, ReconcileStarted(k))))
    && (forall k :: k !in before && k !in {Ready, Progressing, Successful} ==> k !in after)
  }

  lemma InitialisedKeeps(conds: Conditions)
    ensures KeptOrUnknown(conds, Initialised(conds))
  {
  }

  function RunConds(conds: Conditions, newest: Option<JobRun>): Conditions {
    conds[Progressing := ProgressingVerdict(newest)][Successful := SuccessfulVerdict(newest)]
  }

  function FinalConds(conds: Conditions, newest: Option<JobRun>): Conditions {
    RunConds(conds, newest)[Ready := RECONCILED]
  }

  function CronJobIn(s: State, job: ReconcileJob): CronJob
    requires Lists(s.hostOrder, s.hosts) && Lists(s.groupOrder, s.groups)
  {
    DesiredCronJob(job, Listed(s.hosts, s.hostOrder), Listed(s.groups, s.groupOrder))
  }

  /** The three ConfigMaps, the CronJob and all conditions are as they should be. */
  ghost predicate JobSettled(s: State, name: string)
    requires WellFormed(s)
  {
    name in s.jobs &&
    var job := s.jobs[name];
    && FilesDone(s, job)
    && Get(s.cronJobs, name) == Some(CronJobIn(s, job))
    && job.conds == FinalConds(job.conds, NewestRun(s.runs, name))
  }

  // ---------- What that says ----------

  /** The i-th run is the job's, has started, and no other started later, or at the
      same time and before it in the list. */
  ghost predicate Latest(runs: seq<JobRun>, job: string, i: int) {
    && 0 <= i < |runs| && runs[i].owner == job && runs[i].start.Some?
    && forall j :: 0 <= j < |runs| && runs[j].owner == job && runs[j].start.Some? ==>
         runs[j].start.value <= runs[i].start.value && (j < i ==> runs[j].start.value < runs[i].start.value)
  }

  predicate NoneStarted(runs: seq<JobRun>, job: string) {
    forall r :: r in runs && r.owner == job ==> r.start.None?
  }

  predicate TellsRun(conds: Conditions, r: JobRun) {
    && Get(conds, Progressing) == Some(if r.active > 0 then Condition(CondTrue, JobRunning) else Condition(CondFalse, JobNotRunning))
    && Get(conds, Successful) == Some(if r.succeeded > 0 then Condition(CondTrue, JobSucceeded)
                                      else if r.failed > 0 then Condition(CondFalse, JobFailed) else Condition(CondUnknown, JobStatusUnknown))
  }

  /** Whether the latest run is active, and how it ended; Unknown if none has started. */
  ghost predicate TellsRuns(conds: Conditions, runs: seq<JobRun>, job: string) {
    if NoneStarted(runs, job)
    then Get(conds, Progressing) == Get(conds, Successful) == Some(Condition(CondUnknown, NoJobsFound))
    else exists i :: Latest(runs, job, i) && TellsRun(conds, runs[i])
  }

  lemma {:induction false} NewestRunLatest(runs: seq<JobRun>, job: string)
    ensures NewestRun(runs, job).None? <==> NoneStarted(runs, job)
    ensures NewestRun(runs, job).Some? ==> exists i :: Latest(runs, job, i) && runs[i] == NewestRun(runs, job).value
  {
    if runs != [] {
      var rest, last := runs[..|runs| - 1], runs[|runs| - 1];
      NewestRunLatest(rest, job);
      NewestRunIsLatest(rest, job);
      assert forall r :: r in runs <==> r in rest || r == last;
      if last.owner == job && Newer(last, NewestRun(rest, job)) {
        LastIsLatest(runs, job);
      } else if NewestRun(rest, job).Some? {
        hide Latest, NoneStarted;
        var i :| Latest(rest, job, i) && rest[i] == NewestRun(rest, job).value;
        StillLatest(runs, job, i);
      }
    }
  }

  lemma StillLatest(runs: seq<JobRun>, job: string, i: int)
    requires runs != [] && Latest(runs[..|runs| - 1], job, i)
    requires var last := runs[|runs| - 1]; last.owner == job && last.start.Some? ==> last.start.value <= runs[..|runs| - 1][i].start.value
    ensures Latest(runs, job, i) && runs[i] == runs[..|runs| - 1][i]
  {
    var rest := runs[..|runs| - 1];
    forall j | 0 <= j < |runs| - 1 ensures rest[j] == runs[j] {}
  }

  /** The runs that carry the label of the job. */
  function RunsOf(runs: seq<JobRun>, job: string): seq<JobRun> {
    if runs == [] then []
    else RunsOf(runs[..|runs| - 1], job) + if runs[|runs| - 1].owner == job then [runs[|runs| - 1]] else []
  }

  /** The newest run depends on no others. */
  lemma {:induction false} NewestOfItsRuns(runs: seq<JobRun>, job: string)
    ensures NewestRun(RunsOf(runs, job), job) == NewestRun(runs, job)
  {
    if runs != [] {
      var rest, last := runs[..|runs| - 1], runs[|runs| - 1];
      NewestOfItsRuns(rest, job);
      if last.owner == job {
        assert RunsOf(runs, job)[..|RunsOf(rest, job)|] == RunsOf(rest, job);
      } else {
        assert RunsOf(runs, job) == RunsOf(rest, job);
      }
    }
  }

  lemma LastIsLatest(runs: seq<JobRun>, job: string)
    requires runs != [] && runs[|runs| - 1].owner == job && Newer(runs[|runs| - 1], NewestRun(runs[..|runs| - 1], job))
    ensures Latest(runs, job, |runs| - 1)
  {
    var rest := runs[..|runs| - 1];
    NewestRunIsLatest(rest, job);
    forall j | 0 <= j < |rest| && runs[j].owner == job && runs[j].start.Some?
      ensures runs[j].start.value < runs[|runs| - 1].start.value
    {
      assert rest[j] in rest;
    }
  }

  lemma RunCondsTell(conds: Conditions, runs: seq<JobRun>, job: string)
    ensures TellsRuns(RunConds(conds, NewestRun(runs, job)), runs, job)
  {
    NewestRunLatest(runs, job);
    hide NewestRun, Latest, NoneStarted;
  }

  lemma FinalCondsTell(conds: Conditions, runs: seq<JobRun>, job: string)
    ensures TellsRuns(FinalConds(conds, NewestRun(runs, job)), runs, job)
    ensures Get(FinalConds(conds, NewestRun(runs, job)), Ready) == Some(Condition(CondTrue, ReconcileSuccess))
  {
    NewestRunLatest(runs, job);
    hide NewestRun, Latest, NoneStarted;
  }

  /** The job's three ConfigMaps, its CronJob and its conditions, as the namespace
      asks for them. */
  ghost predicate JobInPlace(s: State, name: string)
    requires WellFormed(s)
  {
    && name in s.jobs && name in s.cronJobs
    && StoresInventory(s, name) && StoresKnownHosts(s, name) && StoresConfig(s, name, s.jobs[name].playbook)
    && BelongsTo(s.cronJobs[name], s.jobs[name]) && !s.cronJobs[name].suspend
    && s.cronJobs[name].template == Template(name, Listed(s.hosts, s.hostOrder), Listed(s.groups, s.groupOrder))
    && Get(s.jobs[name].conds, Ready) == Some(Condition(CondTrue, ReconcileSuccess))
    && TellsRuns(s.jobs[name].conds, s.runs, name)
  }

  lemma CronJobBelongs(s: State, job: ReconcileJob)
    requires WellFormed(s)
    ensures var cj := CronJobIn(s, job);
            && BelongsTo(cj, job) && !cj.suspend
            && cj.template == Template(job.name, Listed(s.hosts, s.hostOrder), Listed(s.groups, s.groupOrder))
  {
    hide Template;
  }

  lemma SettledIsInPlace(s: State, name: string)
    requires WellFormed(s) && JobSettled(s, name)
    ensures JobInPlace(s, name)
  {
    var job := s.jobs[name];
    hide InventoryDone, KnownHostsDone, RuntimeDone, StoresInventory, StoresKnownHosts, StoresConfig, CronJobIn, BelongsTo, TellsRuns, NewestRun, FinalConds;
    InventoryDoneStores(s, job);
    KnownHostsDoneStores(s, job);
    RuntimeDoneStores(s, job);
    CronJobBelongs(s, job);
    FinalCondsTell(job.conds, s.runs, name);
  }

  /** A run started by the job's CronJob is one of those its status goes by. */
  lemma LabelledRunCounts(s: State, name: string, r: JobRun)
    requires WellFormed(s) && JobInPlace(s, name) && r in s.runs && r.owner == s.cronJobs[name].ownerLabel && r.start.Some?
    ensures !NoneStarted(s.runs, name)
    ensures exists i :: Latest(s.runs, name, i) && r.start.value <= s.runs[i].start.value && s.runs[i].owner == s.cronJobs[name].ownerLabel
              && TellsRun(s.jobs[name].conds, s.runs[i])
  {
    hide StoresInventory, StoresKnownHosts, StoresConfig, Template, TellsRun;
    var j :| 0 <= j < |s.runs| && s.runs[j] == r;
    var i :| Latest(s.runs, name, i) && TellsRun(s.jobs[name].conds, s.runs[i]);
  }

  // ---------- What a reconcile may do to the store ----------

  /** Only the job's status, its three ConfigMaps and its CronJob were written. */
  ghost predicate JobFrame(s: State, name: string, t: State) {
    && OnlyJobStatus(s.jobs, name, t.jobs)
    && t == s.(jobs := t.jobs, configMaps := t.configMaps, cronJobs := t.cronJobs, groupQueue := t.groupQueue, jobQueue := t.jobQueue)
    && s.groupQueue <= t.groupQueue && s.jobQueue <= t.jobQueue
    && OnlyOwnMaps(s.configMaps, s.jobs[name].Id(), t.configMaps)
    && OnlyOwnCronJob(s.cronJobs, name, t.cronJobs)
    && JobWakes(s, t)
  }

  /** Nobody is woken but the jobs there are and those that own something. */
  ghost predicate JobWakes(s: State, t: State) {
    t.jobQueue <= s.jobQueue + Watchers(s) && Watchers(t) <= Watchers(s)
  }

  ghost predicate OnlyJobStatus(before: map<string, ReconcileJob>, name: string, after: map<string, ReconcileJob>) {
    && name in before && name in after
    && after == before[name := before[name].(conds := after[name].conds)]
  }

  ghost predicate OnlyOwnCronJob(before: map<string, CronJob>, name: string, after: map<string, CronJob>) {
    forall n :: n != name ==> Get(after, n) == Get(before, n)
  }

  lemma JobFrameTransitive(s: State, name: string, t: State, u: State)
    requires JobFrame(s, name, t) && JobFrame(t, name, u) && s.jobs[name].name == name
    ensures JobFrame(s, name, u)
  {
    hide OnlyOwnMaps, OnlyOwnCronJob, Watchers;
    JobStatusTransitive(s.jobs, name, t.jobs, u.jobs);
    OnlyOwnMapsTransitive(s.configMaps, s.jobs[name].Id(), t.configMaps, u.configMaps);
    CronJobsTransitive(s.cronJobs, name, t.cronJobs, u.cronJobs);
  }

  lemma JobStatusTransitive(a: map<string, ReconcileJob>, name: string, b: map<string, ReconcileJob>, c: map<string, ReconcileJob>)
    requires OnlyJobStatus(a, name, b) && OnlyJobStatus(b, name, c)
    ensures OnlyJobStatus(a, name, c) && b[name].Id() == a[name].Id()
  {
  }

  lemma CronJobsTransitive(a: map<string, CronJob>, name: string, b: map<string, CronJob>, c: map<string, CronJob>)
    requires OnlyOwnCronJob(a, name, b) && OnlyOwnCronJob(b, name, c)
    ensures OnlyOwnCronJob(a, name, c)
  {
  }

  lemma NothingInFrame(s: State, name: string)
    requires name in s.jobs
    ensures JobFrame(s, name, s)
  {
    hide Watchers;
    NoFilesWritten(s, s.jobs[name].Id());
    assert s.jobs[name] == s.jobs[name].(conds := s.jobs[name].conds);
  }

  lemma StatusInFrame(s: State, name: string, conds: Conditions)
    requires name in s.jobs
    ensures JobFrame(s, name, JobStatusWritten(s, name, conds))
  {
    hide OnlyOwnMaps, MapWatchers, CronWatchers;
    NoFilesWritten(s, s.jobs[name].Id());
  }

  lemma FilesInFrame(s: State, name: string, t: State)
    requires name in s.jobs && s.jobs[name].name == name && OnlyFiles(s, s.jobs[name].Id(), t)
    ensures JobFrame(s, name, t)
  {
    hide OnlyOwnMaps, MapWatchers, CronWatchers;
    assert s.jobs[name] == s.jobs[name].(conds := s.jobs[name].conds);
  }

  lemma CronJobWakes(s: State, name: string, cj: CronJob)
    requires name in s.jobs && s.jobs[name].name == name
    requires cj.owner == s.jobs[name].Id() || (name in s.cronJobs && cj.owner == s.cronJobs[name].owner)
    ensures JobWakes(s, CronJobWritten(s, name, cj))
  {
    hide MapWatchers;
    assert cj.owner.kind == JobKind ==> cj.owner.name in Watchers(s);
    OneMoreCronJob(s.cronJobs, name, cj);
    hide CronWatchers;
  }

  lemma OneMoreCronJob(cronJobs: map<string, CronJob>, name: string, cj: CronJob)
    ensures CronWatchers(cronJobs[name := cj]) <= CronWatchers(cronJobs) + if cj.owner.kind == JobKind then {cj.owner.name} else {}
  {
    var after := cronJobs[name := cj];
    forall w | w in CronWatchers(after) && (cj.owner.kind == JobKind ==> w != cj.owner.name) ensures w in CronWatchers(cronJobs) {
      var n :| n in after && after[n].owner.kind == JobKind && after[n].owner.name == w;
      assert after[n] == cronJobs[n];
    }
  }

  /** The job's CronJob keeps its owner or gets the job as its owner. */
  lemma CronJobInFrame(s: State, name: string, cj: CronJob)
    requires name in s.jobs && s.jobs[name].name == name
    requires cj.owner == s.jobs[name].Id() || (name in s.cronJobs && cj.owner == s.cronJobs[name].owner)
    ensures JobFrame(s, name, CronJobWritten(s, name, cj))
  {
    hide OnlyOwnMaps, JobWakes;
    CronJobWakes(s, name, cj);
    NoFilesWritten(s, s.jobs[name].Id());
    assert s.jobs[name] == s.jobs[name].(conds := s.jobs[name].conds);
  }

  /** Nothing a reconcile reads is changed by it. */
  lemma FrameKeepsInputs(s: State, name: string, t: State)
    requires JobFrame(s, name, t)
    ensures t.hosts == s.hosts && t.hostOrder == s.hostOrder && t.groups == s.groups && t.groupOrder == s.groupOrder
    ensures t.playbooks == s.playbooks && t.secrets == s.secrets && t.runs == s.runs
    ensures name in s.jobs && name in t.jobs && t.jobs[name] == s.jobs[name].(conds := t.jobs[name].conds)
    ensures WellFormed(s) ==> WellFormed(t)
  {
  }

  // ---------- The outcome ----------

  /** What the error handler did: the store and the copy's conditions when it
      began, what it was called for, whether the CronJob was seen absent or was
      suspended, and whether the Ready condition is in the store. */
  datatype Handling = Handling(entry: State, copy: Conditions, cause: Error, suspended: bool, recorded: bool)
  {
    function Conds(): Conditions { copy[Ready := Condition(CondFalse, Failure(cause))] }
  }

  /** How a reconcile ended: no such job, the job could not be read, done, stopped
      by an error, or by a panic, which the manager recovers and requeues. */
  datatype Ending = Gone | Unread | Done | Refused(handling: Handling) | Panicked

  predicate Succeeded(e: Ending) { e.Gone? || e.Done? }

  predicate ReadyJob(s: State, name: string) {
    name in s.jobs && IsTrue(s.jobs[name].conds, Ready)
  }

  predicate UnreadyJob(s: State, name: string) {
    name in s.jobs && Ready in s.jobs[name].conds && s.jobs[name].conds[Ready].status == CondFalse
  }

  /** No CronJob, or a suspended one: nothing will be started. */
  predicate Stopped(s: State, name: string) {
    name in s.cronJobs ==> s.cronJobs[name].suspend
  }

  predicate Running(s: State, name: string) {
    name in s.cronJobs && !s.cronJobs[name].suspend
  }

  function CronJobStopped(s: State, name: string, suspended: bool): (t: State)
    ensures t.jobs == s.jobs
  {
    if suspended && name in s.cronJobs then CronJobWritten(s, name, s.cronJobs[name].(suspend := true)) else s
  }

  /** The store the error handler leaves. */
  function Handled(name: string, h: Handling): State
    requires name in h.entry.jobs
  {
    var stopped := CronJobStopped(h.entry, name, h.suspended);
    if h.recorded && h.Conds() != h.copy then JobStatusWritten(stopped, name, h.Conds()) else stopped
  }

  /** The first call of the handler is number `at`: it stops the CronJob if the Get
      goes well and, where there is one, the Update too. */
  predicate Stops(fault: nat -> Option<Error>, at: nat, present: bool) {
    fault(at).None? && (present ==> fault(at + 1).None?)
  }

  /** The number of the status update, if one is made. */
  function StatusCall(fault: nat -> Option<Error>, at: nat, present: bool): nat {
    if present && fault(at).None? then at + 2 else at + 1
  }

  predicate HandledBy(fault: nat -> Option<Error>, at: nat, name: string, h: Handling) {
    var present := name in h.entry.cronJobs;
    && (h.suspended <==> Stops(fault, at, present))
    && (h.recorded <==> h.Conds() == h.copy || fault(StatusCall(fault, at, present)).None?)
  }

  /** The copy is what is stored, or one condition ahead of it. */
  ghost predicate Ahead(copy: Conditions, stored: Conditions) {
    copy == stored || exists kind :: kind in copy && copy == stored[kind := copy[kind]]
  }

  /** What has become of the store when the handler begins: the CronJob is still
      as it was or already as it should be, and Ready is still as it was, or
      Unknown where it was not set. */
  ghost predicate Interrupted(s: State, name: string, t: State)
    requires WellFormed(s)
  {
    && JobFrame(s, name, t)
    && (Get(t.cronJobs, name) == Get(s.cronJobs, name) || Get(t.cronJobs, name) == Some(CronJobIn(s, s.jobs[name])))
    && ReadyKept(s.jobs[name].conds, t.jobs[name].conds)
  }

  /** The copy is at most one condition ahead, and a Ready that is False in it is
      False in the store. */
  ghost predicate Lags(copy: Conditions, name: string, t: State) {
    && name in t.jobs && Ahead(copy, t.jobs[name].conds)
    && (Ready in copy && copy[Ready].status == CondFalse ==> UnreadyJob(t, name))
  }

  predicate ReadyKept(before: Conditions, after: Conditions) {
    Get(after, Ready) == Get(before, Ready) || Get(after, Ready) == Get(Default(before, Ready), Ready)
  }

  ghost predicate JobOutcome(s: State, name: string, t: State, e: Ending)
    requires WellFormed(s)
  {
    match e
    case Gone => name !in s.jobs && t == s
    case Unread => t == s
    case Done => JobFrame(s, name, t) && WellFormed(t) && JobSettled(t, name)
    case Refused(h) => JobFrame(s, name, t) && Interrupted(s, name, h.entry) && Lags(h.copy, name, h.entry) && t == Handled(name, h)
    case Panicked =>
      && JobFrame(s, name, t) && !Privileged(s.hosts)
      && t.configMaps == s.configMaps && t.cronJobs == s.cronJobs
      && t.jobs[name].conds == Initialised(s.jobs[name].conds)
  }

  /** The reconcile was refused on the first call after reading the job. */
  predicate FirstCallFailed(s: State, name: string, cause: Error, e: Ending) {
    && e.Refused? && name in s.jobs && e.handling.entry == s
    && e.handling.copy == s.jobs[name].conds && e.handling.cause == cause
  }

  /** Every call of the handler went well. */
  predicate HandlerWorked(e: Ending) {
    e.Refused? ==> e.handling.suspended && e.handling.recorded
  }

  /** Without faults the outcome is decided by the state: every input present and
      no name taken, or else the job is stopped and its Ready condition says why,
      unless a host without privilege makes the reconcile panic. A settled job is
      left alone. */
  ghost predicate CleanJobOutcome(s: State, name: string, t: State, e: Ending)
    requires WellFormed(s)
  {
    if name !in s.jobs then e == Gone
    else
      var problem := FilesProblem(s, s.jobs[name]);
      && (JobSettled(s, name) ==> t == s)
      && if problem.None? then e == Done
         else if problem.value == NilPrivilege then e == Panicked
         else e.Refused? && HandlerWorked(e) && ReadyIs(t, name, Condition(CondFalse, Failure(problem.value)))
  }

  /** Without faults the reconcile returns no error exactly if every need is met, and
      otherwise the error of the first that is not; unless that one makes it panic,
      the CronJob is stopped and Ready says why. */
  ghost predicate JobDecidedByNeeds(s: State, name: string, t: State, err: Option<Error>)
    requires name in s.jobs
  {
    var job := s.jobs[name];
    && (err.None? <==> MeetsAll(s, job))
    && forall need :: FirstNeed(s, job, need) ==>
         && err == Some(ErrorFor(job, need))
         && (need != Privileges ==> Stopped(t, name) && ReadyIs(t, name, Condition(CondFalse, Failure(ErrorFor(job, need)))))
  }

  lemma RefusedStops(s: State, name: string, t: State, h: Handling)
    requires WellFormed(s) && JobOutcome(s, name, t, Refused(h)) && h.suspended
    ensures Stopped(t, name)
  {
    HandlerEntry(s, name, t, h);
    hide JobOutcome, CronJobStopped;
    StoppedCronJobs(h.entry, name, true);
  }

  lemma CleanMeansDecided(s: State, name: string, t: State, e: Ending, err: Option<Error>)
    requires WellFormed(s) && name in s.jobs && JobOutcome(s, name, t, e) && CleanJobOutcome(s, name, t, e)
    requires err == FilesProblem(s, s.jobs[name])
    ensures JobDecidedByNeeds(s, name, t, err)
  {
    hide JobOutcome, FilesProblem, MeetsAll, FirstNeed, WellFormed, JobSettled, Stopped, ReadyIs, NeedRank;
    ProblemIsFirstNeed(s, s.jobs[name]);
    if e.Refused? { RefusedStops(s, name, t, e.handling); }
  }

  lemma RefusedOutcomeOf(s: State, name: string, h: Handling)
    requires WellFormed(s) && name in h.entry.jobs && JobFrame(s, name, Handled(name, h))
    requires Interrupted(s, name, h.entry) && Lags(h.copy, name, h.entry)
    ensures JobOutcome(s, name, Handled(name, h), Refused(h))
  {
  }

  lemma UnchangedOutcomeOf(s: State, name: string)
    requires WellFormed(s)
    ensures JobOutcome(s, name, s, Unread) && (name !in s.jobs ==> JobOutcome(s, name, s, Gone))
  {
  }

  lemma PanicKeepsConditions(s: State, name: string, t: State)
    requires WellFormed(s) && name in s.jobs && JobOutcome(s, name, t, Panicked)
    ensures name in t.jobs && KeptOrUnknown(s.jobs[name].conds, t.jobs[name].conds)
  {
    InitialisedKeeps(s.jobs[name].conds);
    hide KeptOrUnknown, Initialised;
  }

  lemma CleanOutcomeOf(s: State, name: string, t: State, e: Ending, err: Option<Error>)
    requires WellFormed(s) && (JobSettled(s, name) ==> t == s)
    requires name !in s.jobs ==> e == Gone
    requires name in s.jobs ==>
               && err == FilesProblem(s, s.jobs[name])
               && (err.None? ==> e == Done) && (err == Some(NilPrivilege) ==> e == Panicked)
               && (err.Some? && err != Some(NilPrivilege) ==>
                     e.Refused? && HandlerWorked(e) && ReadyIs(t, name, Condition(CondFalse, Failure(err.value))))
    ensures CleanJobOutcome(s, name, t, e)
  {
    hide JobSettled, FilesProblem, WellFormed, ReadyIs;
  }

  lemma HandlerEntry(s: State, name: string, t: State, h: Handling)
    requires WellFormed(s) && JobOutcome(s, name, t, Refused(h))
    ensures name in h.entry.jobs && t == Handled(name, h)
  {
    hide Handled, JobFrame;
  }

  predicate ReadyIs(s: State, name: string, cond: Condition) {
    name in s.jobs && Get(s.jobs[name].conds, Ready) == Some(cond)
  }

  /** Whether the ConfigMaps are right depends on nothing else that is written. */
  lemma SameFiles(s: State, job: ReconcileJob, t: State, job': ReconcileJob)
    requires WellFormed(s) && WellFormed(t)
    requires t.hosts == s.hosts && t.hostOrder == s.hostOrder && t.groups == s.groups
    requires t.playbooks == s.playbooks && t.secrets == s.secrets && t.configMaps == s.configMaps
    requires job'.name == job.name && job'.playbook == job.playbook
    ensures FilesDone(t, job') == FilesDone(s, job)
    ensures FilesProblem(t, job') == FilesProblem(s, job)
  {
    hide InventoryData, KnownHostsData, PlaybookData, HasData, Taken, Privileged;
  }

  lemma SameCronJob(s: State, job: ReconcileJob, t: State, job': ReconcileJob)
    requires WellFormed(s) && WellFormed(t)
    requires t.hosts == s.hosts && t.hostOrder == s.hostOrder && t.groups == s.groups && t.groupOrder == s.groupOrder
    requires job' == job.(conds := job'.conds)
    ensures CronJobIn(t, job') == CronJobIn(s, job)
  {
  }

  /** What the reconcile made is still right after it wrote its conditions. */
  lemma ObjectsStay(t: State, name: string, made: ReconcileJob, u: State)
    requires WellFormed(t) && WellFormed(u) && JobFrame(t, name, u) && t.jobs[name] == made
    requires u.configMaps == t.configMaps
    ensures FilesDone(u, u.jobs[name]) == FilesDone(t, made)
    ensures CronJobIn(u, u.jobs[name]) == CronJobIn(t, made)
  {
    hide JobFrame, FilesDone, FilesProblem, CronJobIn;
    FrameKeepsInputs(t, name, u);
    SameFiles(t, made, u, u.jobs[name]);
    SameCronJob(t, made, u, u.jobs[name]);
  }

  lemma DoneOutcome(s: State, name: string, t: State, u: State)
    requires WellFormed(s) && WellFormed(t) && WellFormed(u) && name in s.jobs && s.jobs[name].name == name
    requires JobFrame(s, name, t) && JobFrame(t, name, u)
    requires FilesDone(t, t.jobs[name]) && Get(t.cronJobs, name) == Some(CronJobIn(t, t.jobs[name]))
    requires u.configMaps == t.configMaps && u.cronJobs == t.cronJobs
    requires u.jobs[name].conds == FinalConds(t.jobs[name].conds, NewestRun(u.runs, name))
    ensures JobOutcome(s, name, u, Done)
  {
    hide JobFrame, FilesDone, CronJobIn, NewestRun;
    JobFrameTransitive(s, name, t, u);
    FrameKeepsInputs(t, name, u);
    ObjectsStay(t, name, t.jobs[name], u);
    FinalTwice(t.jobs[name].conds, NewestRun(u.runs, name));
  }

  lemma CronJobOwner(s: State, job: ReconcileJob)
    requires WellFormed(s)
    ensures CronJobIn(s, job).owner == job.Id() && !CronJobIn(s, job).suspend
  {
  }

  /** An error in a status step comes when the objects are in place. */
  lemma InterruptedLate(s: State, name: string, t: State, u: State)
    requires WellFormed(s) && WellFormed(t) && name in s.jobs && s.jobs[name].name == name
    requires JobFrame(s, name, t) && JobFrame(t, name, u)
    requires t.jobs[name].conds == Initialised(s.jobs[name].conds)
    requires Get(t.cronJobs, name) == Some(CronJobIn(t, t.jobs[name])) && u.cronJobs == t.cronJobs
    requires Get(u.jobs[name].conds, Ready) == Get(t.jobs[name].conds, Ready)
    ensures Interrupted(s, name, u)
  {
    hide JobFrame, CronJobIn;
    JobFrameTransitive(s, name, t, u);
    FrameKeepsInputs(s, name, t);
    SameCronJob(s, s.jobs[name], t, t.jobs[name]);
  }

  lemma FinalTwice(conds: Conditions, newest: Option<JobRun>)
    ensures FinalConds(FinalConds(conds, newest), newest) == FinalConds(conds, newest)
  {
  }

  // ---------- The reconciler ----------

  class JobReconciler {
    const c: Cluster
    /** The copy of the job being reconciled; setCondition edits its conditions. */
    var job: ReconcileJob

    constructor (c: Cluster, job: ReconcileJob)
      ensures this.c == c && this.job == job
    {
      this.c := c;
      this.job := job;
    }

    /** The copy and the stored job differ at most in their conditions. */
    ghost predicate Tracks()
      reads this, c
    {
      job.name in c.store.jobs && c.store.jobs[job.name] == job.(conds := c.store.jobs[job.name].conds)
    }

    /** No call has failed so far, so the copy is what is stored. */
    ghost predicate InStep()
      reads this, c
    {
      job.name in c.store.jobs && c.store.jobs[job.name] == job
    }

    method SetCondition(kind: ConditionType, cond: Condition) returns (err: Option<Error>)
      requires Tracks()
      modifies this, c
      ensures job == old(job).(conds := old(job).conds[kind := cond])
      ensures Tracks() && JobFrame(old(c.store), job.name, c.store)
      ensures old(c.calls) <= c.calls && c.configMapWrites == old(c.configMapWrites)
      ensures c.store == if err.None? && old(job).conds != job.conds
                         then JobStatusWritten(old(c.store), job.name, job.conds) else old(c.store)
      ensures old(job).conds == job.conds ==> err.None? && c.calls == old(c.calls) && c.Untouched()
      ensures old(job).conds != job.conds ==> c.calls == old(c.calls) + 1 && (err.None? <==> c.fault(old(c.calls)).None?)
      ensures err.None? <==> c.CleanSince(old(c.calls))
      ensures old(InStep()) ==> if err.None? then InStep() else Ahead(job.conds, c.store.jobs[job.name].conds)
    {
      hide JobFrame;
      NothingInFrame(c.store, job.name);
      StatusInFrame(c.store, job.name, job.conds[kind := cond]);
      var changed := kind !in job.conds || job.conds[kind] != cond;
      job := job.(conds := job.conds[kind := cond]);
      err := None;
      if changed {
        err := c.UpdateJobStatus(job.name, job.conds);
      }
    }

    method DefaultStatusToUnknown(kind: ConditionType) returns (err: Option<Error>)
      requires InStep()
      modifies this, c
      ensures job == old(job).(conds := Default(old(job).conds, kind))
      ensures Tracks() && JobFrame(old(c.store), job.name, c.store)
      ensures old(c.calls) <= c.calls && c.configMapWrites == old(c.configMapWrites)
      ensures c.store.configMaps == old(c.store).configMaps && c.store.cronJobs == old(c.store).cronJobs
      ensures err.None? ==> InStep()
      ensures err.Some? ==> c.store == old(c.store) && Ahead(job.conds, old(job).conds)
      ensures old(job).conds == job.conds ==> err.None? && c.calls == old(c.calls) && c.Untouched()
      ensures c.CleanSince(old(c.calls)) ==> err.None?
    {
      hide JobFrame;
      NothingInFrame(c.store, job.name);
      err := None;
      if kind !in job.conds {
        err := SetCondition(kind, Initial(kind));
      }
    }

    method DefaultAllStatusesToUnknown() returns (err: Option<Error>)
      requires InStep()
      modifies this, c
      ensures job == old(job).(conds := job.conds)
      ensures Tracks() && Lags(job.conds, job.name, c.store) && JobFrame(old(c.store), job.name, c.store)
      ensures old(c.calls) <= c.calls && c.configMapWrites == old(c.configMapWrites)
      ensures c.store.configMaps == old(c.store).configMaps && c.store.cronJobs == old(c.store).cronJobs
      ensures err.None? ==> InStep() && job.conds == Initialised(old(job).conds)
      ensures err.None? ==> KeptOrUnknown(old(job).conds, job.conds)
      ensures ReadyKept(old(job).conds, c.store.jobs[job.name].conds)
      ensures Initialised(old(job).conds) == old(job).conds ==> err.None? && c.calls == old(c.calls) && c.Untouched()
      ensures c.CleanSince(old(c.calls)) ==> err.None?
    {
      hide JobFrame, KeptOrUnknown;
      ghost var s, name, conds := c.store, job.name, job.conds;
      InitialisedKeeps(conds);
      err := DefaultStatusToUnknown(Ready);
      if err.Some? { return; }
      ghost var t := c.store;
      err := DefaultStatusToUnknown(Progressing);
      JobFrameTransitive(s, name, t, c.store);
      if err.Some? { return; }
      t := c.store;
      err := DefaultStatusToUnknown(Successful);
      JobFrameTransitive(s, name, t, c.store);
    }

    method EnsureCronJobWithMounts() returns (err: Option<Error>)
      requires WellFormed(c.store)
      modifies c
      ensures old(c.calls) <= c.calls
      ensures c.statusFailures == old(c.statusFailures)
      ensures c.statusWrites == old(c.statusWrites) && c.configMapWrites == old(c.configMapWrites)
      ensures c.store == if err.None? then CronJobWritten(old(c.store), job.name, CronJobIn(old(c.store), job)) else old(c.store)
      ensures err.None? ==>
                && job.name in c.store.cronJobs && BelongsTo(c.store.cronJobs[job.name], job) && !c.store.cronJobs[job.name].suspend
                && c.store.cronJobs == old(c.store).cronJobs[job.name := c.store.cronJobs[job.name]]
      ensures c.CleanSince(old(c.calls)) ==> err.None?
    {
      CronJobBelongs(c.store, job);
      hide DesiredCronJob, CronJobWritten, BelongsTo, Template, HostsNamed, GroupsNamed, JobsNamed;
      var hosts := c.List(c.store.hosts, c.store.hostOrder);
      if hosts.Failed? { return Some(hosts.err); }
      var groups := c.List(c.store.groups, c.store.groupOrder);
      if groups.Failed? { return Some(groups.err); }
      var keys, hostVars := HostPairs(hosts.value);
      var groupVars := GroupPairs(groups.value);
      var cj := ConstructCronJobWithMounts(job, keys, hostVars, groupVars, hosts.value, groups.value);
      err := c.ApplyCronJob(job.name, cj);
    }

    method FindNewestRun() returns (newest: Option<JobRun>)
      ensures newest == NewestRun(c.store.runs, job.name)
    {
      newest := None;
      var runs := c.store.runs;
      for i := 0 to |runs|
        invariant newest == NewestRun(runs[..i], job.name)
      {
        assert runs[..i + 1][..i] == runs[..i];
        var run := runs[i];
        if run.owner == job.name && run.start.Some? {
          if newest.None? || newest.value.start.None? || run.start.value > newest.value.start.value {
            newest := Some(run);
          }
        }
      }
      assert runs[..|runs|] == runs;
    }

    /** Two conditions, neither of them Ready, one after the other. */
    method SetConditions(first: ConditionType, a: Condition, second: ConditionType, b: Condition) returns (err: Option<Error>)
      requires InStep() && first != second && first != Ready && second != Ready
      modifies this, c
      ensures job == old(job).(conds := job.conds)
      ensures Tracks() && JobFrame(old(c.store), job.name, c.store)
      ensures old(c.calls) <= c.calls && c.configMapWrites == old(c.configMapWrites)
      ensures c.store.configMaps == old(c.store).configMaps && c.store.cronJobs == old(c.store).cronJobs
      ensures Get(c.store.jobs[job.name].conds, Ready) == Get(old(job).conds, Ready) == Get(job.conds, Ready)
      ensures Lags(job.conds, job.name, c.store)
      ensures err.None? ==> InStep() && job.conds == old(job).conds[first := a][second := b]
      ensures old(job).conds[first := a][second := b] == old(job).conds ==> c.Untouched()
      ensures err.None? <==> c.CleanSince(old(c.calls))
    {
      hide JobFrame;
      ghost var s := c.store;
      err := SetCondition(first, a);
      if err.Some? { return; }
      ghost var t := c.store;
      err := SetCondition(second, b);
      JobFrameTransitive(s, job.name, t, c.store);
    }

    method UpdateStatusConditions() returns (err: Option<Error>)
      requires InStep()
      modifies this, c
      ensures job == old(job).(conds := job.conds)
      ensures Tracks() && JobFrame(old(c.store), job.name, c.store)
      ensures old(c.calls) < c.calls && c.configMapWrites == old(c.configMapWrites)
      ensures c.store.configMaps == old(c.store).configMaps && c.store.cronJobs == old(c.store).cronJobs
      ensures Get(c.store.jobs[job.name].conds, Ready) == Get(old(job).conds, Ready) == Get(job.conds, Ready)
      ensures Lags(job.conds, job.name, c.store)
      ensures err.None? ==> InStep() && job.conds == RunConds(old(job).conds, NewestRun(c.store.runs, job.name))
      ensures err.None? ==> TellsRuns(job.conds, c.store.runs, job.name)
      ensures RunConds(old(job).conds, NewestRun(c.store.runs, job.name)) == old(job).conds ==> c.Untouched()
      ensures err.None? <==> c.CleanSince(old(c.calls))
    {
      hide JobFrame, NewestRun, TellsRuns;
      ghost var s, conds := c.store, job.conds;
      RunCondsTell(conds, s.runs, job.name);
      NothingInFrame(s, job.name);
      err := c.Call();
      if err.Some? { return; }
      var newest := FindNewestRun();
      var progressing, successful := ProgressingVerdict(newest), SuccessfulVerdict(newest);
      assert conds[Successful := successful][Progressing := progressing] == RunConds(conds, newest);
      if newest.None? {
        err := SetConditions(Successful, successful, Progressing, progressing);
      } else {
        err := SetConditions(Progressing, progressing, Successful, successful);
      }
      FrameKeepsInputs(s, job.name, c.store);
    }

    /** Suspend the CronJob, if there is one. */
    method SuspendCronJob() returns (ghost suspended: bool)
      requires Tracks()
      modifies c
      ensures var present := job.name in old(c.store).cronJobs;
              && (suspended <==> Stops(c.fault, old(c.calls), present))
              && (suspended <==> c.CleanSince(old(c.calls)))
              && c.calls == StatusCall(c.fault, old(c.calls), present)
      ensures c.store == CronJobStopped(old(c.store), job.name, suspended)
      ensures Tracks() && JobFrame(old(c.store), job.name, c.store)
    {
      hide JobFrame, CronJobWritten;
      ghost var s := c.store;
      NothingInFrame(s, job.name);
      var lookup := c.Fetch(c.store.cronJobs, job.name);
      suspended := lookup.NotFound?;
      if lookup.Found? {
        var cronJob := lookup.value.(suspend := true);
        CronJobInFrame(s, job.name, cronJob);
        CronJobWriteKeeps(s, job.name, cronJob);
        var failed := c.UpdateCronJob(job.name, cronJob);
        suspended := failed.None?;
      }
    }

    /** Suspend the CronJob and record the cause; what fails here is only logged. */
    method HandleReconcileError(cause: Error) returns (ghost h: Handling)
      requires Tracks()
      modifies this, c
      ensures h.entry == old(c.store) && h.copy == old(job).conds && h.cause == cause
      ensures HandledBy(c.fault, old(c.calls), old(job).name, h)
      ensures c.store == Handled(old(job).name, h)
      ensures old(c.calls) <= c.calls
      ensures c.CleanSince(old(c.calls)) <==> h.suspended && h.recorded
      ensures var name := old(job).name;
              c.store.cronJobs == if h.suspended && name in old(c.store).cronJobs
                                  then old(c.store).cronJobs[name := old(c.store).cronJobs[name].(suspend := true)] else old(c.store).cronJobs
      ensures var name, conds := old(job).name, old(job).conds[Ready := Condition(CondFalse, Failure(cause))];
              c.store.jobs == if h.recorded && conds != old(job).conds
                              then old(c.store).jobs[name := old(c.store).jobs[name].(conds := conds)] else old(c.store).jobs
      ensures JobFrame(old(c.store), old(job).name, c.store)
    {
      hide JobFrame, CronJobStopped;
      ghost var s, copy := c.store, job.conds;
      ghost var suspended := SuspendCronJob();
      StoppedCronJobs(s, job.name, suspended);
      ghost var t := c.store;
      var failed := SetCondition(Ready, Condition(CondFalse, Failure(cause)));
      h := Handling(s, copy, cause, suspended, failed.None?);
      JobFrameTransitive(s, job.name, t, c.store);
    }

    /** Everything that must exist before a run can start, in order. */
    method EnsureObjects() returns (err: Option<Error>, panicked: bool)
      requires InStep() && WellFormed(c.store)
      modifies this, c
      ensures job == old(job).(conds := job.conds)
      ensures panicked ==> err == Some(NilPrivilege) && !Privileged(old(c.store).hosts) && InStep() && job.conds == Initialised(old(job).conds)
      ensures panicked ==> c.store.configMaps == old(c.store).configMaps
      ensures err == Some(NilPrivilege) && c.CleanSince(old(c.calls)) ==> panicked
      ensures Initialised(old(job).conds) == old(job).conds && c.fault(old(c.calls)).Some? ==>
                && err == c.fault(old(c.calls)) && !panicked && c.calls == old(c.calls) + 1
                && c.store == old(c.store) && job == old(job)
      ensures Tracks() && Lags(job.conds, job.name, c.store) && WellFormed(c.store)
      ensures JobFrame(old(c.store), job.name, c.store)
      ensures old(c.calls) <= c.calls
      ensures ReadyKept(old(job).conds, c.store.jobs[job.name].conds)
      ensures err.Some? ==> c.store.cronJobs == old(c.store).cronJobs
      ensures err.None? ==> InStep() && job.conds == Initialised(old(job).conds)
      ensures err.None? ==> FilesDone(c.store, job) && Get(c.store.cronJobs, job.name) == Some(CronJobIn(c.store, job))
      ensures c.CleanSince(old(c.calls)) ==> err == FilesProblem(old(c.store), old(job)) && InStep()
      ensures Initialised(old(job).conds) == old(job).conds && FilesDone(old(c.store), old(job))
              && Get(old(c.store).cronJobs, old(job).name) == Some(CronJobIn(old(c.store), old(job)))
              ==> c.Untouched()
    {
      hide JobFrame, FilesDone, FilesProblem, WellFormed, CronJobIn, OnlyFiles, Initialised;
      ghost var s, name := c.store, job.name;
      panicked := false;
      err := DefaultAllStatusesToUnknown();
      FrameKeepsInputs(s, name, c.store);
      SameFiles(s, old(job), c.store, job);
      if err.Some? { return; }
      ghost var t := c.store;
      err, panicked := EnsureFiles(c, job);
      FilesInFrame(t, name, c.store);
      OnlyFilesKeepInputs(t, job.Id(), c.store);
      JobFrameTransitive(s, name, t, c.store);
      if err.Some? { return; }
      t := c.store;
      NothingInFrame(t, name);
      err := EnsureCronJobWithMounts();
      CronJobOwner(t, job);
      CronJobInFrame(t, name, CronJobIn(t, job));
      JobFrameTransitive(s, name, t, c.store);
      if err.Some? { return; }
      CronJobStored(t, name, job);
      SameFiles(t, job, c.store, job);
    }

    /** The conditions of a successful reconcile. */
    method RecordSuccess() returns (err: Option<Error>)
      requires InStep() && WellFormed(c.store)
      modifies this, c
      ensures job == old(job).(conds := job.conds)
      ensures Tracks() && Lags(job.conds, job.name, c.store) && WellFormed(c.store)
      ensures JobFrame(old(c.store), job.name, c.store)
      ensures old(c.calls) < c.calls
      ensures c.store.configMaps == old(c.store).configMaps && c.store.cronJobs == old(c.store).cronJobs
      ensures err.None? ==> InStep() && job.conds == FinalConds(old(job).conds, NewestRun(c.store.runs, job.name))
      ensures err.Some? ==> Get(c.store.jobs[job.name].conds, Ready) == Get(old(job).conds, Ready)
      ensures err.None? <==> c.CleanSince(old(c.calls))
      ensures FinalConds(old(job).conds, NewestRun(c.store.runs, job.name)) == old(job).conds ==> c.Untouched()
    {
      hide JobFrame, WellFormed, NewestRun;
      ghost var s := c.store;
      err := UpdateStatusConditions();
      FrameKeepsInputs(s, job.name, c.store);
      if err.Some? { return; }
      ghost var t := c.store;
      err := SetCondition(Ready, RECONCILED);
      JobFrameTransitive(s, job.name, t, c.store);
      FrameKeepsInputs(t, job.name, c.store);
    }

    /** The reconcile up to its end or to the jump to the error handler. */
    method Attempt() returns (err: Option<Error>, panicked: bool)
      requires InStep() && WellFormed(c.store)
      modifies this, c
      ensures old(c.calls) <= c.calls && job == old(job).(conds := job.conds)
      ensures Tracks() && JobFrame(old(c.store), job.name, c.store)
      ensures err.None? ==> JobOutcome(old(c.store), job.name, c.store, Done) && WellFormed(c.store) && JobInPlace(c.store, job.name)
      ensures panicked ==> err == Some(NilPrivilege) && JobOutcome(old(c.store), job.name, c.store, Panicked)
      ensures err.Some? ==> Interrupted(old(c.store), job.name, c.store) && Lags(job.conds, job.name, c.store)
      ensures c.CleanSince(old(c.calls)) ==>
                && err == FilesProblem(old(c.store), old(job))
                && (panicked <==> err == Some(NilPrivilege))
                && (err.Some? ==> InStep())
      ensures Initialised(old(job).conds) == old(job).conds && c.fault(old(c.calls)).Some? ==>
                && err == c.fault(old(c.calls)) && !panicked && c.calls == old(c.calls) + 1
                && c.store == old(c.store) && job == old(job)
      ensures JobSettled(old(c.store), job.name) && c.CleanSince(old(c.calls)) ==> err.None? && c.Untouched()
    {
      hide JobInPlace, JobFrame, FilesDone, FilesProblem, NewestRun, CronJobIn, HostsNamed, GroupsNamed, Lists, Privileged, ReadyKept, Ahead;
      ghost var s, name := c.store, job.name;
      if JobSettled(s, name) { SettledIsPossible(s, name); }
      err, panicked := EnsureObjects();
      if err.Some? { return; }
      ghost var t := c.store;
      FrameKeepsInputs(s, name, t);
      err := RecordSuccess();
      FrameKeepsInputs(t, name, c.store);
      JobFrameTransitive(s, name, t, c.store);
      if err.None? {
        DoneOutcome(s, name, t, c.store);
        SettledIsInPlace(c.store, name);
      } else {
        InterruptedLate(s, name, t, c.store);
      }
    }

    /** `handler` is the number of calls made before the error handler began. */
    method Reconcile(name: string) returns (err: Option<Error>, ghost ending: Ending, ghost handler: nat)
      requires WellFormed(c.store)
      modifies this, c
      ensures old(c.calls) < c.calls
      ensures JobOutcome(old(c.store), name, c.store, ending)
      ensures err.None? <==> Succeeded(ending)
      ensures ending.Refused? ==> old(c.calls) < handler <= c.calls && HandledBy(c.fault, handler, name, ending.handling)
      ensures ending.Refused? ==> (HandlerWorked(ending) <==> c.CleanSince(handler)) && err == Some(ending.handling.cause)
      ensures ending.Panicked? ==>
                && name in old(c.store).jobs && name in c.store.jobs
                && KeptOrUnknown(old(c.store).jobs[name].conds, c.store.jobs[name].conds)
      ensures ending.Refused? && FilesProblem(old(c.store), old(c.store).jobs[name]).None? ==> !c.CleanBetween(old(c.calls), handler)
      ensures name in old(c.store).jobs && Initialised(old(c.store).jobs[name].conds) == old(c.store).jobs[name].conds
              && c.fault(old(c.calls)).None? && c.fault(old(c.calls) + 1).Some?
              ==> FirstCallFailed(old(c.store), name, c.fault(old(c.calls) + 1).value, ending) && handler == old(c.calls) + 2
      ensures c.CleanSince(old(c.calls)) ==> CleanJobOutcome(old(c.store), name, c.store, ending)
      ensures err.None? && name in old(c.store).jobs ==> WellFormed(c.store) && JobInPlace(c.store, name)
      ensures c.CleanSince(old(c.calls)) && name in old(c.store).jobs ==> JobDecidedByNeeds(old(c.store), name, c.store, err)
      ensures c.CleanSince(old(c.calls)) && JobSettled(old(c.store), name) ==> c.Untouched()
    {
      hide JobOutcome, CleanJobOutcome, KeptOrUnknown, Initialised, ReadyIs, JobFrame, JobSettled, JobInPlace, JobDecidedByNeeds, FilesProblem, HostsNamed, GroupsNamed, Lists, Handled, HandledBy, Interrupted, Lags, Privileged;
      handler := c.calls;
      ghost var s := c.store;
      UnchangedOutcomeOf(s, name);
      var lookup := c.Fetch(c.store.jobs, name);
      match lookup {
        case Failed(e) => err, ending := Some(e), Unread; return;
        case NotFound =>
          err, ending := None, Gone;
          CleanOutcomeOf(s, name, c.store, ending, err);
          return;
        case Found(found) => job := found;
      }
      var panicked;
      err, panicked := Attempt();
      if err.None? {
        ending := Done;
      } else if panicked {
        ending := Panicked;
        PanicKeepsConditions(s, name, c.store);
      } else {
        ghost var u := c.store;
        handler := c.calls;
        ghost var h := HandleReconcileError(err.value);
        JobFrameTransitive(s, name, u, c.store);
        RefusedOutcomeOf(s, name, h);
        if h.recorded && h.copy == u.jobs[name].conds { RefusalRecorded(name, h); }
        ending := Refused(h);
      }
      if c.CleanSince(old(c.calls)) {
        CleanOutcomeOf(s, name, c.store, ending, err);
        CleanMeansDecided(s, name, c.store, ending, err);
      }
    }

    /** Reconciled without error and then again without faults, a job costs no
        status write and no ConfigMap write, and the store stays as it was in between. */
    method ReconcileTwice(name: string)
      returns (first: Option<Error>, second: Option<Error>, ghost between: State, ghost writes: (nat, nat), ghost start: nat)
      requires WellFormed(c.store) && name in c.store.jobs
      modifies this, c
      ensures old(c.calls) < start < c.calls
      ensures exists e :: JobOutcome(old(c.store), name, between, e) && (first.None? <==> Succeeded(e))
      ensures first.None? && c.CleanSince(start) ==>
                second.None? && c.store == between && (c.statusWrites, c.configMapWrites) == writes
    {
      hide FilesProblem, FilesDone, JobFrame;
      ghost var ending, handler;
      ghost var s := c.store;
      first, ending, handler := Reconcile(name);
      between, writes, start := c.store, (c.statusWrites, c.configMapWrites), c.calls;
      OutcomeWellFormed(s, name, between, ending);
      if first.None? && JobSettled(between, name) { SettledIsPossible(between, name); }
      second, ending, handler := Reconcile(name);
    }
  }

  lemma OutcomeWellFormed(s: State, name: string, t: State, e: Ending)
    requires WellFormed(s) && JobOutcome(s, name, t, e)
    ensures WellFormed(t)
  {
    hide FilesDone, JobSettled, CronJobIn;
  }

  lemma StoppedCronJobs(s: State, name: string, suspended: bool)
    ensures CronJobStopped(s, name, suspended).cronJobs ==
            if suspended && name in s.cronJobs then s.cronJobs[name := s.cronJobs[name].(suspend := true)] else s.cronJobs
  {
    if name in s.cronJobs { CronJobWriteKeeps(s, name, s.cronJobs[name].(suspend := true)); }
    hide CronJobWritten;
  }

  lemma CronJobWriteKeeps(s: State, name: string, cj: CronJob)
    ensures CronJobWritten(s, name, cj).jobs == s.jobs
    ensures CronJobWritten(s, name, cj).configMaps == s.configMaps
    ensures CronJobWritten(s, name, cj).cronJobs == s.cronJobs[name := cj]
  {
  }

  /** A handler whose calls go well leaves Ready False with the cause, if the copy was in step. */
  lemma RefusalRecorded(name: string, h: Handling)
    requires name in h.entry.jobs && h.recorded && h.copy == h.entry.jobs[name].conds
    ensures ReadyIs(Handled(name, h), name, Condition(CondFalse, Failure(h.cause)))
  {
  }

  lemma CronJobStored(s: State, name: string, job: ReconcileJob)
    requires WellFormed(s)
    ensures var t := CronJobWritten(s, name, CronJobIn(s, job));
            && Get(t.cronJobs, name) == Some(CronJobIn(s, job))
            && WellFormed(t) && CronJobIn(t, job) == CronJobIn(s, job)
            && (Get(s.cronJobs, name) == Some(CronJobIn(s, job)) ==> t == s)
  {
    hide DesiredCronJob;
  }

  lemma SettledIsPossible(s: State, name: string)
    requires WellFormed(s) && JobSettled(s, name)
    ensures FilesProblem(s, s.jobs[name]).None?
    ensures Initialised(s.jobs[name].conds) == s.jobs[name].conds
  {
    InventoryNeedsPrivilege(s.hosts, s.groups);
    hide InventoryData, Privileged, KnownHostsData, RuntimeData, CronJobIn, NewestRun;
  }
}
