// The API server as the controllers see it: every call may fail, as the fault
// oracle says, and every successful write wakes the watching controllers.

module ApiServer {
  import opened Objects

  datatype Lookup<+T> = Found(value: T) | NotFound | Failed(err: Error)

  class Cluster {
    /** What call number i returns: an error, or nothing when it succeeds. */
    const fault: nat -> Option<Error>
    var calls: nat
    var store: State
    var statusWrites: nat
    var configMapWrites: nat
    /** Status writes that were refused. */
    var statusFailures: nat

    constructor (fault: nat -> Option<Error>, store: State)
      ensures this.fault == fault && this.store == store && calls == 0
    {
      this.fault := fault;
      this.store := store;
      calls, statusWrites, configMapWrites, statusFailures := 0, 0, 0, 0;
    }

    ghost predicate CleanBetween(start: nat, end: nat) {
      forall i :: start <= i < end ==> fault(i) == None
    }

    /** No call since number `start` failed. */
    ghost predicate CleanSince(start: nat)
      reads this`calls
    {
      CleanBetween(start, calls)
    }

    /** The store, and what has been written to it, are as they were. */
    twostate predicate Untouched()
      reads this
    {
      && store == old(store)
      && statusWrites == old(statusWrites)
      && configMapWrites == old(configMapWrites)
      && statusFailures == old(statusFailures)
    }

    method Call() returns (err: Option<Error>)
      modifies this`calls
      ensures calls == old(calls) + 1 && err == fault(old(calls))
    {
      err := fault(calls);
      calls := calls + 1;
    }

    // ---------- Reads ----------

    method Fetch<T>(m: map<string, T>, name: string) returns (r: Lookup<T>)
      modifies this`calls
      ensures calls == old(calls) + 1
      ensures r.Failed? <==> fault(old(calls)).Some?
      ensures r.Failed? ==> fault(old(calls)) == Some(r.err)
      ensures r.Found? ==> name in m && r.value == m[name]
      ensures r.NotFound? ==> name !in m
    {
      var err := Call();
      if err.Some? { return Failed(err.value); }
      r := if name in m then Found(m[name]) else NotFound;
    }

    /** The objects of one kind, in the order the server lists them. */
    method List<T>(m: map<string, T>, order: seq<string>) returns (r: Lookup<seq<T>>)
      requires Lists(order, m)
      modifies this`calls
      ensures calls == old(calls) + 1
      ensures r.Failed? <==> fault(old(calls)).Some?
      ensures r.Failed? ==> fault(old(calls)) == Some(r.err)
      ensures !r.NotFound?
      ensures r.Found? ==> r.value == Listed(m, order)
    {
      var err := Call();
      if err.Some? { return Failed(err.value); }
      r := Found(Listed(m, order));
    }

    // ---------- Writes ----------

    method UpdateGroupStatus(name: string, conds: Conditions) returns (err: Option<Error>)
      modifies this
      ensures calls == old(calls) + 1
      ensures statusWrites == old(statusWrites) + 1 && configMapWrites == old(configMapWrites)
      ensures statusFailures == old(statusFailures) + if err.Some? then 1 else 0
      ensures err.None? <==> fault(old(calls)).None? && name in old(store).groups
      ensures err.Some? ==> store == old(store)
      ensures err.None? ==> store == GroupStatusWritten(old(store), name, conds)
      ensures err.None? ==>
                && store.groups == old(store).groups[name := old(store).groups[name].(conds := conds)]
                && store.groupQueue == old(store).groupQueue + {name} + set g | g in store.groups && name in store.groups[g].groups
                && store.jobQueue == old(store).jobQueue + old(store).jobs.Keys
    {
      err := Call();
      statusWrites := statusWrites + 1;
      if err.None? && name !in store.groups { err := Some(NoSuchObject); }
      if err.None? {
        store := GroupStatusWritten(store, name, conds);
      } else {
        statusFailures := statusFailures + 1;
      }
    }

    method UpdateHostStatus(name: string, conds: Conditions) returns (err: Option<Error>)
      modifies this
      ensures calls == old(calls) + 1
      ensures statusWrites == old(statusWrites) + 1 && configMapWrites == old(configMapWrites)
      ensures statusFailures == old(statusFailures) + if err.Some? then 1 else 0
      ensures err.None? <==> fault(old(calls)).None? && name in old(store).hosts
      ensures err.Some? ==> store == old(store)
      ensures err.None? ==> store == HostStatusWritten(old(store), name, conds)
      ensures err.None? ==>
                && store.hosts == old(store).hosts[name := old(store).hosts[name].(conds := conds)]
                && store.groupQueue == old(store).groupQueue + set g | g in store.groups && name in store.groups[g].hosts
                && store.jobQueue == old(store).jobQueue + old(store).jobs.Keys
    {
      err := Call();
      statusWrites := statusWrites + 1;
      if err.None? && name !in store.hosts { err := Some(NoSuchObject); }
      if err.None? {
        store := HostStatusWritten(store, name, conds);
      } else {
        statusFailures := statusFailures + 1;
      }
    }

    method UpdateJobStatus(name: string, conds: Conditions) returns (err: Option<Error>)
      modifies this
      ensures calls == old(calls) + 1
      ensures statusWrites == old(statusWrites) + 1 && configMapWrites == old(configMapWrites)
      ensures statusFailures == old(statusFailures) + if err.Some? then 1 else 0
      ensures err.None? <==> fault(old(calls)).None? && name in old(store).jobs
      ensures err.Some? ==> store == old(store)
      ensures err.None? ==> store == JobStatusWritten(old(store), name, conds)
      ensures err.None? ==>
                && store.jobs == old(store).jobs[name := old(store).jobs[name].(conds := conds)]
                && store.jobQueue == old(store).jobQueue + {name}
    {
      err := Call();
      statusWrites := statusWrites + 1;
      if err.None? && name !in store.jobs { err := Some(NoSuchObject); }
      if err.None? {
        store := JobStatusWritten(store, name, conds);
      } else {
        statusFailures := statusFailures + 1;
      }
    }

    method CreateConfigMap(name: string, cm: ConfigMap) returns (err: Option<Error>)
      modifies this
      ensures calls == old(calls) + 1
      ensures configMapWrites == old(configMapWrites) + 1 && statusWrites == old(statusWrites)
      ensures statusFailures == old(statusFailures)
      ensures err.None? <==> fault(old(calls)).None? && name !in old(store).configMaps
      ensures err.Some? ==> store == old(store)
      ensures err.None? ==> store == ConfigMapWritten(old(store), name, cm)
      ensures err.None? ==> store.configMaps == old(store).configMaps[name := cm] && ControllersWoken(old(store), name, cm, store)
    {
      err := Call();
      configMapWrites := configMapWrites + 1;
      if err.None? {
        if name in store.configMaps { return Some(AlreadyExists); }
        store := ConfigMapWritten(store, name, cm);
      }
    }

    method UpdateConfigMap(name: string, cm: ConfigMap) returns (err: Option<Error>)
      modifies this
      ensures calls == old(calls) + 1
      ensures configMapWrites == old(configMapWrites) + 1 && statusWrites == old(statusWrites)
      ensures statusFailures == old(statusFailures)
      ensures err.None? <==> fault(old(calls)).None? && name in old(store).configMaps
      ensures err.Some? ==> store == old(store)
      ensures err.None? ==> store == ConfigMapWritten(old(store), name, cm)
      ensures err.None? ==> store.configMaps == old(store).configMaps[name := cm] && ControllersWoken(old(store), name, cm, store)
    {
      err := Call();
      configMapWrites := configMapWrites + 1;
      if err.None? {
        if name !in store.configMaps { return Some(NoSuchObject); }
        store := ConfigMapWritten(store, name, cm);
      }
    }

    method CreateSecret(name: string, secret: Secret) returns (err: Option<Error>)
      modifies this
      ensures calls == old(calls) + 1
      ensures configMapWrites == old(configMapWrites) && statusWrites == old(statusWrites)
      ensures statusFailures == old(statusFailures)
      ensures err.None? <==> fault(old(calls)).None? && name !in old(store).secrets
      ensures err.Some? ==> store == old(store)
      ensures err.None? ==> store == old(store).(secrets := old(store).secrets[name := secret])
    {
      err := Call();
      if err.None? {
        if name in store.secrets { return Some(AlreadyExists); }
        store := store.(secrets := store.secrets[name := secret]);
      }
    }

    /** Server-side apply with forced ownership: the applied object wins. */
    method ApplyCronJob(name: string, cj: CronJob) returns (err: Option<Error>)
      modifies this
      ensures calls == old(calls) + 1
      ensures configMapWrites == old(configMapWrites) && statusWrites == old(statusWrites)
      ensures statusFailures == old(statusFailures)
      ensures err == fault(old(calls))
      ensures err.Some? ==> store == old(store)
      ensures err.None? ==> store == CronJobWritten(old(store), name, cj)
      ensures err.None? ==> store.cronJobs == old(store).cronJobs[name := cj]
      ensures err.None? && Get(old(store).cronJobs, name) == Some(cj) ==> store == old(store)
      ensures err.None? && Get(old(store).cronJobs, name) != Some(cj) && cj.owner.kind == JobKind ==> cj.owner.name in store.jobQueue
    {
      err := Call();
      if err.None? { store := CronJobWritten(store, name, cj); }
    }

    method UpdateCronJob(name: string, cj: CronJob) returns (err: Option<Error>)
      modifies this
      ensures calls == old(calls) + 1
      ensures configMapWrites == old(configMapWrites) && statusWrites == old(statusWrites)
      ensures statusFailures == old(statusFailures)
      ensures err.None? <==> fault(old(calls)).None? && name in old(store).cronJobs
      ensures err.Some? ==> store == old(store)
      ensures err.None? ==> store == CronJobWritten(old(store), name, cj)
      ensures err.None? ==> store.cronJobs == old(store).cronJobs[name := cj]
      ensures err.None? && Get(old(store).cronJobs, name) == Some(cj) ==> store == old(store)
      ensures err.None? && Get(old(store).cronJobs, name) != Some(cj) && cj.owner.kind == JobKind ==> cj.owner.name in store.jobQueue
    {
      err := Call();
      if err.None? {
        if name !in store.cronJobs { return Some(NoSuchObject); }
        store := CronJobWritten(store, name, cj);
      }
    }
  }

  /** The controllers of the ConfigMap, before and after, wait for a reconcile. */
  predicate ControllersWoken(s: State, name: string, cm: ConfigMap, t: State) {
    && ControllerWoken(cm, t) && (name in s.configMaps ==> ControllerWoken(s.configMaps[name], t))
  }

  predicate ControllerWoken(cm: ConfigMap, t: State) {
    var c := ControllerOf(cm.owners);
    c.Some? ==>
      && (c.value.kind == GroupKind ==> c.value.name in t.groupQueue)
      && (c.value.kind == JobKind ==> c.value.name in t.jobQueue)
  }

  function Listed<T>(m: map<string, T>, order: seq<string>): (r: seq<T>)
    requires forall n :: n in order ==> n in m
    ensures |r| == |order| && forall i :: 0 <= i < |r| ==> r[i] == m[order[i]]
  {
    seq(|order|, i requires 0 <= i < |order| => m[order[i]])
  }

  function GroupStatusWritten(s: State, name: string, conds: Conditions): State
    requires name in s.groups
  {
    GroupEvent(s.(groups := s.groups[name := s.groups[name].(conds := conds)]), name)
  }

  function HostStatusWritten(s: State, name: string, conds: Conditions): State
    requires name in s.hosts
  {
    HostEvent(s.(hosts := s.hosts[name := s.hosts[name].(conds := conds)]), name)
  }

  function JobStatusWritten(s: State, name: string, conds: Conditions): State
    requires name in s.jobs
  {
    JobEvent(s.(jobs := s.jobs[name := s.jobs[name].(conds := conds)]), name)
  }

  function ConfigMapWritten(s: State, name: string, cm: ConfigMap): State {
    ConfigMapEvent(s.(configMaps := s.configMaps[name := cm]), Get(s.configMaps, name), Some(cm))
  }

  /** A write that changes nothing raises no event. */
  function CronJobWritten(s: State, name: string, cj: CronJob): State {
    if Get(s.cronJobs, name) == Some(cj) then s
    else
      var woken := if cj.owner.kind == JobKind then {cj.owner.name} else {};
      s.(cronJobs := s.cronJobs[name := cj], jobQueue := s.jobQueue + woken)
  }
}
