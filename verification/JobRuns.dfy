// Runs of the job controller alone: without faults and edits every job leaves the
// queue for good, unless an input of its ConfigMaps is missing or a name is taken.

module JobRuns {
  import opened Objects
  import opened ApiServer
  import opened Inventory
  import opened PodTemplates
  import opened JobFiles
  import opened JobController
  import opened Operator

  // ---------- What a turn does to every job ----------

  /** Queues apart, the two states say the same about jobs. */
  lemma OnlyQueueDiffers(s: State, q: set<string>, n: string)
    requires WellFormed(s)
    ensures var t := s.(jobQueue := q);
            && WellFormed(t) && Watchers(t) == Watchers(s)
            && (JobSettled(t, n) <==> JobSettled(s, n))
            && (n in s.jobs ==> FilesProblem(t, s.jobs[n]) == FilesProblem(s, s.jobs[n]))
  {
    hide InventoryData, KnownHostsData, PlaybookData, HasData, Taken, NewestRun, DesiredCronJob;
  }

  lemma NamesStayTaken(before: map<string, ConfigMap>, owner: Identity, after: map<string, ConfigMap>, n: string)
    requires OnlyOwnMaps(before, owner, after) && owner.kind == JobKind
    ensures Taken(after, n, owner.name) == Taken(before, n, owner.name)
  {
    hide FileNames;
    if n in after && n !in before {
      assert OwnerRef(owner, true) in after[n].owners;
    }
    hide NamesJob;
  }

  lemma ProblemReads(s: State, job: ReconcileJob, t: State, job': ReconcileJob)
    requires WellFormed(s) && WellFormed(t)
    requires t.hosts == s.hosts && t.hostOrder == s.hostOrder && t.groups == s.groups
    requires t.playbooks == s.playbooks && t.secrets == s.secrets
    requires job'.name == job.name && job'.playbook == job.playbook
    requires Taken(t.configMaps, InventoryName(job.name), job.name) == Taken(s.configMaps, InventoryName(job.name), job.name)
    requires Taken(t.configMaps, KnownHostsName(job.name), job.name) == Taken(s.configMaps, KnownHostsName(job.name), job.name)
    requires Taken(t.configMaps, JobConfigName(job.name), job.name) == Taken(s.configMaps, JobConfigName(job.name), job.name)
    ensures FilesProblem(t, job') == FilesProblem(s, job)
  {
    hide InventoryData, KnownHostsData, RuntimeData, Taken, Privileged, HostsNamed, GroupsNamed;
  }

  /** What stands in a job's way is not changed by its reconcile. */
  lemma OwnProblemStays(s: State, name: string, t: State)
    requires WellFormed(s) && WellFormed(t) && JobFrame(s, name, t) && s.jobs[name].name == name
    ensures FilesProblem(t, t.jobs[name]) == FilesProblem(s, s.jobs[name])
  {
    FrameKeepsInputs(s, name, t);
    FrameMaps(s, name, t);
    hide JobFrame, FilesProblem, Taken, WellFormed, OnlyOwnMaps;
    NamesStayTaken(s.configMaps, s.jobs[name].Id(), t.configMaps, InventoryName(name));
    NamesStayTaken(s.configMaps, s.jobs[name].Id(), t.configMaps, KnownHostsName(name));
    NamesStayTaken(s.configMaps, s.jobs[name].Id(), t.configMaps, JobConfigName(name));
    ProblemReads(s, s.jobs[name], t, t.jobs[name]);
  }

  lemma FrameMaps(s: State, name: string, t: State)
    requires JobFrame(s, name, t)
    ensures OnlyOwnMaps(s.configMaps, s.jobs[name].Id(), t.configMaps)
  {
    hide OnlyOwnMaps;
  }

  lemma OtherMapsStay(s: State, name: string, t: State, n: string)
    requires JobFrame(s, name, t) && s.jobs[name].name == name && n != name
    ensures Get(t.configMaps, InventoryName(n)) == Get(s.configMaps, InventoryName(n))
    ensures Get(t.configMaps, KnownHostsName(n)) == Get(s.configMaps, KnownHostsName(n))
    ensures Get(t.configMaps, JobConfigName(n)) == Get(s.configMaps, JobConfigName(n))
  {
    hide NamesJob, OnlyOwnCronJob, OnlyJobStatus, JobWakes;
    ConfigMapNamesInjective(n, name);
    InFileNames(n);
    hide FileNames;
  }

  lemma InFileNames(job: string)
    ensures InventoryName(job) in FileNames(job) && KnownHostsName(job) in FileNames(job) && JobConfigName(job) in FileNames(job)
  {
  }

  /** Another job's reconcile changes nothing about this one. */
  lemma OtherJobStays(s: State, name: string, t: State, n: string)
    requires WellFormed(s) && WellFormed(t) && JobFrame(s, name, t) && n != name && n in s.jobs
    ensures n in t.jobs && t.jobs[n] == s.jobs[n]
    ensures FilesProblem(t, t.jobs[n]) == FilesProblem(s, s.jobs[n])
    ensures JobSettled(t, n) <==> JobSettled(s, n)
  {
    OtherMapsStay(s, name, t, n);
    FrameKeepsInputs(s, name, t);
    assert Get(t.cronJobs, n) == Get(s.cronJobs, n);
    SameCronJob(s, s.jobs[n], t, t.jobs[n]);
    SameMaps(s, t, n);
    hide JobFrame, FilesDone, FilesProblem, CronJobIn, NewestRun;
  }

  lemma SameMaps(s: State, t: State, n: string)
    requires WellFormed(s) && WellFormed(t) && n in s.jobs && n in t.jobs && t.jobs[n] == s.jobs[n] && s.jobs[n].name == n
    requires t.hosts == s.hosts && t.hostOrder == s.hostOrder && t.groups == s.groups
    requires t.playbooks == s.playbooks && t.secrets == s.secrets
    requires Get(t.configMaps, InventoryName(n)) == Get(s.configMaps, InventoryName(n))
    requires Get(t.configMaps, KnownHostsName(n)) == Get(s.configMaps, KnownHostsName(n))
    requires Get(t.configMaps, JobConfigName(n)) == Get(s.configMaps, JobConfigName(n))
    ensures FilesDone(t, t.jobs[n]) == FilesDone(s, s.jobs[n])
    ensures FilesProblem(t, t.jobs[n]) == FilesProblem(s, s.jobs[n])
  {
    hide InventoryData, KnownHostsData, RuntimeData, NamesJob, Privileged, HostsNamed, GroupsNamed;
  }

  /** Without faults the input alone decides how a reconcile ends. */
  lemma CleanVerdict(s: State, name: string, t: State, e: Ending)
    requires WellFormed(s) && CleanJobOutcome(s, name, t, e)
    ensures name !in s.jobs ==> e == Gone
    ensures name in s.jobs && FilesProblem(s, s.jobs[name]).None? ==> e == Done
    ensures name in s.jobs && FilesProblem(s, s.jobs[name]).Some? ==> e == Panicked || e.Refused?
    ensures JobSettled(s, name) ==> t == s && e == Done
  {
    if JobSettled(s, name) { SettledIsPossible(s, name); }
    hide JobSettled, FilesProblem, WellFormed, ReadyIs, HandlerWorked;
  }

  lemma OutcomeParts(s: State, name: string, t: State, e: Ending)
    requires WellFormed(s) && JobOutcome(s, name, t, e)
    ensures e == Gone ==> t == s
    ensures e == Done ==> JobFrame(s, name, t) && WellFormed(t) && JobSettled(t, name)
    ensures e == Panicked || e.Refused? ==> JobFrame(s, name, t)
  {
    hide JobFrame, JobSettled, Interrupted, Lags, Handled, Privileged, WellFormed;
  }

  /** The effect of a fault-free ending on the job it is about. */
  lemma EndingEffect(s: State, name: string, t: State, e: Ending)
    requires WellFormed(s) && CleanEnding(s, name, t, e)
    ensures WellFormed(t)
    ensures name in s.jobs ==> JobFrame(s, name, t)
    ensures name !in s.jobs || JobSettled(s, name) ==> t == s && Succeeded(e)
    ensures name in s.jobs && FilesProblem(s, s.jobs[name]).None? ==> JobSettled(t, name) && Succeeded(e)
    ensures name in s.jobs && FilesProblem(s, s.jobs[name]).Some? ==> !Succeeded(e)
  {
    hide JobOutcome, CleanJobOutcome, JobFrame, JobSettled, FilesProblem, WellFormed;
    OutcomeWellFormed(s, name, t, e);
    CleanVerdict(s, name, t, e);
    OutcomeParts(s, name, t, e);
  }

  /** A fault-free turn, taken apart. */
  lemma TurnEffect(s: State, name: string, t: State) returns (mid: State, e: Ending)
    requires CleanJobTurn(s, name, t)
    ensures WellFormed(s) && WellFormed(JobDequeued(s, name)) && CleanEnding(JobDequeued(s, name), name, mid, e)
    ensures t == JobRequeued(mid, name, Succeeded(e))
  {
    hide CleanEnding;
    mid, e :| CleanEnding(JobDequeued(s, name), name, mid, e) && t == JobRequeued(mid, name, Succeeded(e));
  }

  /** What a fault-free ending means for any job. */
  lemma EndingKeepsOthers(s: State, name: string, t: State, e: Ending, n: string)
    requires WellFormed(s) && CleanEnding(s, name, t, e) && n in s.jobs
    ensures WellFormed(t) && n in t.jobs && s.jobQueue <= t.jobQueue
    ensures FilesProblem(t, t.jobs[n]) == FilesProblem(s, s.jobs[n])
    ensures JobSettled(s, n) ==> JobSettled(t, n)
  {
    hide CleanEnding, JobSettled, FilesProblem, WellFormed, HostsNamed, GroupsNamed, Lists;
    EndingEffect(s, name, t, e);
    if name in s.jobs {
      FrameQueue(s, name, t);
      NamedJob(s, name);
      if n == name { OwnProblemStays(s, name, t); } else { OtherJobStays(s, name, t, n); }
    }
    hide JobFrame;
  }

  lemma NamedJob(s: State, name: string)
    requires WellFormed(s) && name in s.jobs
    ensures s.jobs[name].name == name
  {
  }

  lemma TurnKeepsOthers(s: State, name: string, t: State, n: string)
    requires CleanJobTurn(s, name, t) && n in s.jobs
    ensures WellFormed(t) && n in t.jobs
    ensures FilesProblem(t, t.jobs[n]) == FilesProblem(s, s.jobs[n])
    ensures JobSettled(s, n) ==> JobSettled(t, n)
    ensures n == name && FilesProblem(s, s.jobs[n]).None? ==> JobSettled(t, n)
    ensures n == name && FilesProblem(s, s.jobs[n]).Some? ==> n in t.jobQueue
    ensures n != name && n in s.jobQueue ==> n in t.jobQueue
  {
    var mid, e := TurnEffect(s, name, t);
    var s1 := JobDequeued(s, name);
    hide CleanJobTurn, CleanEnding, JobSettled, FilesProblem, WellFormed, JobFrame;
    EndingEffect(s1, name, mid, e);
    EndingKeepsOthers(s1, name, mid, e, n);
    OnlyQueueDiffers(s, s1.jobQueue, n);
    OnlyQueueDiffers(mid, t.jobQueue, n);
  }

  lemma FrameQueue(s: State, name: string, t: State)
    requires JobFrame(s, name, t)
    ensures s.jobQueue <= t.jobQueue <= s.jobQueue + Watchers(s) && Watchers(t) <= Watchers(s)
    ensures t.jobs.Keys == s.jobs.Keys && t.jobs[name] == s.jobs[name].(conds := t.jobs[name].conds)
  {
    hide Watchers;
  }

  // ---------- The measure ----------

  ghost function Unsettled(s: State): set<string>
    requires WellFormed(s)
  {
    set n | n in s.jobs && !JobSettled(s, n)
  }

  /** Everybody who waits or can ever be woken is among these. */
  ghost predicate Within(s: State, all: set<string>) {
    s.jobQueue <= all && Watchers(s) <= all
  }

  ghost function JobMeasure(s: State, all: set<string>): nat
    requires WellFormed(s)
  {
    (|all| + 1) * |Unsettled(s)| + |s.jobQueue|
  }

  ghost predicate NoProblem(s: State)
    requires WellFormed(s)
  {
    forall n :: n in s.jobs ==> FilesProblem(s, s.jobs[n]).None?
  }

  lemma MeasureArithmetic(all: nat, before: nat, after: nat, queue: nat)
    requires after < before && queue <= all
    ensures (all + 1) * after + queue < (all + 1) * before
  {
    assert (all + 1) * (after + 1) <= (all + 1) * before;
  }

  lemma SmallerSet<T>(a: set<T>, b: set<T>)
    requires a <= b
    ensures |a| <= |b|
  {
    assert b == a + (b - a);
    assert |b| == |a| + |b - a|;
  }

  /** Each turn settles its job for good or takes one name out of the queue. */
  lemma JobTurnFalls(s: State, name: string, t: State, all: set<string>)
    requires CleanJobTurn(s, name, t) && NoProblem(s) && Within(s, all)
    ensures WellFormed(t) && NoProblem(t) && Within(t, all)
    ensures JobMeasure(t, all) < JobMeasure(s, all)
  {
    hide JobSettled, FilesProblem, HostsNamed, GroupsNamed, Lists, Watchers, CleanEnding;
    var mid, e := TurnEffect(s, name, t);
    var s1 := JobDequeued(s, name);
    EndingEffect(s1, name, mid, e);
    OnlyQueueDiffers(s, s1.jobQueue, name);
    OnlyQueueDiffers(mid, t.jobQueue, name);
    if name in s.jobs { FrameQueue(s1, name, mid); }
    hide JobFrame;
    forall n | n in s.jobs
      ensures n in t.jobs && FilesProblem(t, t.jobs[n]).None? && (JobSettled(s, n) ==> JobSettled(t, n))
    {
      TurnKeepsOthers(s, name, t, n);
    }
    if name in s.jobs { TurnKeepsOthers(s, name, t, name); }
    hide CleanJobTurn;
    SmallerSet(t.jobQueue, all);
    if name in Unsettled(s) {
      SmallerSet(Unsettled(t), Unsettled(s) - {name});
      assert |Unsettled(s) - {name}| == |Unsettled(s)| - 1;
      MeasureArithmetic(|all|, |Unsettled(s)|, |Unsettled(t)|, |t.jobQueue|);
    } else {
      assert t == s1;
      assert Unsettled(t) == Unsettled(s) by {
        forall n | n in s.jobs ensures JobSettled(t, n) <==> JobSettled(s, n) { OnlyQueueDiffers(s, s1.jobQueue, n); }
      }
    }
  }

  // ---------- Schedules ----------

  ghost predicate JobSchedule(trace: seq<State>, names: seq<string>) {
    |trace| == |names| + 1 && forall i {:trigger names[i]} :: 0 <= i < |names| ==> CleanJobTurn(trace[i], names[i], trace[i + 1])
  }

  lemma FirstJobTurn(trace: seq<State>, names: seq<string>)
    requires JobSchedule(trace, names) && names != []
    ensures |trace| > 1 && CleanJobTurn(trace[0], names[0], trace[1]) && JobSchedule(trace[1..], names[1..])
  {
    hide CleanJobTurn;
  }

  lemma {:induction false} JobScheduleBounded(trace: seq<State>, names: seq<string>, all: set<string>)
    requires JobSchedule(trace, names) && WellFormed(trace[0]) && NoProblem(trace[0]) && Within(trace[0], all)
    ensures |names| <= JobMeasure(trace[0], all)
    decreases |names|
  {
    hide CleanJobTurn, JobMeasure, WellFormed, NoProblem, Within;
    if names != [] {
      FirstJobTurn(trace, names);
      JobTurnFalls(trace[0], names[0], trace[1], all);
      JobScheduleBounded(trace[1..], names[1..], all);
    }
  }

  /** A job with something in its way is retried in every schedule, for ever. */
  lemma {:induction false} ProblemRetried(trace: seq<State>, names: seq<string>, n: string)
    requires JobSchedule(trace, names) && WellFormed(trace[0])
    requires n in trace[0].jobs && n in trace[0].jobQueue && FilesProblem(trace[0], trace[0].jobs[n]).Some?
    ensures n in trace[|names|].jobQueue
    decreases |names|
  {
    hide CleanJobTurn, WellFormed, FilesProblem;
    if names != [] {
      FirstJobTurn(trace, names);
      TurnKeepsOthers(trace[0], names[0], trace[1], n);
      ProblemRetried(trace[1..], names[1..], n);
    }
  }

  // ---------- Termination ----------

  ghost predicate JobsTerminate(s: State) {
    exists bound: nat {:trigger JobsBoundedBy(s, bound)} :: JobsBoundedBy(s, bound)
  }

  ghost predicate JobsBoundedBy(s: State, bound: nat) {
    forall trace, names :: JobSchedule(trace, names) && trace[0] == s ==> |names| <= bound
  }

  lemma HandledInFrame(s: State, name: string, h: Handling)
    requires name in s.jobs && s.jobs[name].name == name && h.entry == s
    ensures JobFrame(s, name, Handled(name, h))
  {
    hide JobFrame, CronJobWritten;
    NothingInFrame(s, name);
    var t := CronJobStopped(s, name, h.suspended);
    if name in s.cronJobs { CronJobInFrame(s, name, s.cronJobs[name].(suspend := true)); }
    StatusInFrame(t, name, h.Conds());
    JobFrameTransitive(s, name, t, JobStatusWritten(t, name, h.Conds()));
  }

  lemma RefusedOutcome(s: State, name: string, h: Handling)
    requires WellFormed(s) && name in s.jobs && s.jobs[name].name == name
    requires h.entry == s && h.copy == s.jobs[name].conds
    requires Ready in h.copy && h.copy[Ready].status == CondFalse ==> UnreadyJob(s, name)
    ensures JobOutcome(s, name, Handled(name, h), Refused(h))
  {
    HandledInFrame(s, name, h);
    NothingInFrame(s, name);
    hide JobFrame, Handled, JobSettled, CronJobIn, HostsNamed, GroupsNamed, Lists, JobsNamed;
  }

  lemma RefusedState(s: State, name: string) returns (t: State, e: Ending)
    requires WellFormed(s) && name in s.jobs && s.jobs[name].name == name
    requires FilesProblem(s, s.jobs[name]).Some? && FilesProblem(s, s.jobs[name]) != Some(NilPrivilege)
    ensures CleanEnding(s, name, t, e) && !Succeeded(e)
  {
    var h := Handling(s, s.jobs[name].conds, FilesProblem(s, s.jobs[name]).value, true, true);
    RefusedOutcome(s, name, h);
    RefusalRecorded(name, h);
    if JobSettled(s, name) { SettledIsPossible(s, name); }
    hide JobOutcome, FilesProblem, Handled, JobSettled, WellFormed, ReadyIs;
    t, e := Handled(name, h), Refused(h);
  }

  /** A turn of a job with something in its way. */
  lemma ProblemTurn(s: State, name: string) returns (t: State)
    requires WellFormed(s) && name in s.jobQueue && name in s.jobs && FilesProblem(s, s.jobs[name]).Some?
    ensures CleanJobTurn(s, name, t)
  {
    var s1 := JobDequeued(s, name);
    OnlyQueueDiffers(s, s1.jobQueue, name);
    assert s.jobs[name].name == name;
    hide FilesProblem, CleanEnding, HostsNamed, GroupsNamed, Lists;
    var mid, e;
    if FilesProblem(s1, s1.jobs[name]) == Some(NilPrivilege) {
      mid := PanickedState(s1, name);
      e := Panicked;
    } else {
      mid, e := RefusedState(s1, name);
    }
    t := JobRequeued(mid, name, Succeeded(e));
  }

  lemma UnprivilegedHost(s: State, job: ReconcileJob)
    requires WellFormed(s) && FilesProblem(s, job) == Some(NilPrivilege)
    ensures !Privileged(s.hosts)
  {
    hide Privileged, KnownHostsData, RuntimeData, HasData, Taken, HostsNamed, GroupsNamed, Lists;
  }

  lemma PanickedState(s: State, name: string) returns (t: State)
    requires WellFormed(s) && name in s.jobs && FilesProblem(s, s.jobs[name]) == Some(NilPrivilege)
    ensures CleanEnding(s, name, t, Panicked)
  {
    if JobSettled(s, name) { SettledIsPossible(s, name); }
    UnprivilegedHost(s, s.jobs[name]);
    hide JobFrame, JobSettled, FilesProblem, Privileged, WellFormed;
    StatusInFrame(s, name, Initialised(s.jobs[name].conds));
    t := JobStatusWritten(s, name, Initialised(s.jobs[name].conds));
  }

  function Times(name: string, turns: nat): (names: seq<string>)
    ensures |names| == turns
  {
    if turns == 0 then [] else [name] + Times(name, turns - 1)
  }

  lemma OneMoreTurn(s: State, name: string, trace: seq<State>, names: seq<string>)
    requires JobSchedule(trace, names) && CleanJobTurn(s, name, trace[0])
    ensures JobSchedule([s] + trace, [name] + names)
  {
    hide CleanJobTurn;
    var trace', names' := [s] + trace, [name] + names;
    forall i {:trigger names'[i]} | 0 <= i < |names'| ensures CleanJobTurn(trace'[i], names'[i], trace'[i + 1]) {
      if i > 0 { assert CleanJobTurn(trace[i - 1], names[i - 1], trace[i]); }
    }
  }

  lemma {:induction false} ProblemSchedule(s: State, name: string, turns: nat) returns (trace: seq<State>)
    requires WellFormed(s) && name in s.jobQueue && name in s.jobs && FilesProblem(s, s.jobs[name]).Some?
    ensures JobSchedule(trace, Times(name, turns)) && trace[0] == s
    decreases turns
  {
    hide CleanJobTurn, WellFormed, FilesProblem;
    if turns == 0 {
      trace := [s];
    } else {
      var t := ProblemTurn(s, name);
      TurnKeepsOthers(s, name, t, name);
      var rest := ProblemSchedule(t, name, turns - 1);
      hide JobSchedule;
      OneMoreTurn(s, name, rest, Times(name, turns - 1));
      trace := [s] + rest;
    }
  }

  /** Without faults and edits every schedule of the job controller, from whatever
      queue, comes to an end exactly if nothing stands in the way of any job. */
  lemma JobsTerminateIff(s: State)
    requires WellFormed(s)
    ensures (forall q: set<string> :: JobsTerminate(s.(jobQueue := q))) <==> NoProblem(s)
  {
    hide CleanJobTurn, HostsNamed, GroupsNamed, Lists, FilesProblem, JobMeasure, Watchers;
    if NoProblem(s) {
      forall q: set<string> ensures JobsTerminate(s.(jobQueue := q)) { NoProblemTerminates(s, q); }
    } else {
      var n :| n in s.jobs && FilesProblem(s, s.jobs[n]).Some?;
      var t := s.(jobQueue := {n});
      OnlyQueueDiffers(s, {n}, n);
      forall bound: nat ensures !JobsBoundedBy(t, bound) {
        var names := Times(n, bound + 1);
        var trace := ProblemSchedule(t, n, bound + 1);
        assert JobSchedule(trace, names) && trace[0] == t && |names| > bound;
      }
      assert !JobsTerminate(t);
    }
  }

  lemma NoProblemTerminates(s: State, q: set<string>)
    requires WellFormed(s) && NoProblem(s)
    ensures JobsTerminate(s.(jobQueue := q))
  {
    hide CleanJobTurn, FilesProblem, JobMeasure, Watchers;
    var t := s.(jobQueue := q);
    OnlyQueueDiffers(s, q, "");
    forall n | n in s.jobs ensures FilesProblem(t, t.jobs[n]).None? { OnlyQueueDiffers(s, q, n); }
    var all := q + Watchers(s);
    forall trace, names | JobSchedule(trace, names) && trace[0] == t ensures |names| <= JobMeasure(t, all) {
      JobScheduleBounded(trace, names, all);
    }
    assert JobsBoundedBy(t, JobMeasure(t, all));
  }
}
