// The Kubernetes objects of one namespace, and the work the watches hand to
// the controllers when one of those objects changes.

module Objects {
  import opened Strings

  datatype Option<+T> = None | Some(value: T)

  // ---------- Metadata and conditions ----------

  datatype Kind = HostKind | GroupKind | JobKind | OtherKind

  /** The object an owner reference denotes. A uid is never reused, so it
      determines kind and name; identities are compared whole. */
  datatype Identity = Identity(kind: Kind, name: string, uid: nat)

  datatype OwnerRef = OwnerRef(owner: Identity, controller: bool)

  datatype Status = CondTrue | CondFalse | CondUnknown

  datatype ConditionType = Ready | Healthy | ReferencesValid | Progressing | Successful | OtherCondition(name: string)

  /** The reason and message of a condition, as one value. Messages that differ
      only in the wording of the same cause are one note. */
  datatype Note =
    | ReconcileStarted(kind: ConditionType)
    | AllValid
    | AllHealthy
    | GroupIsReady
    | UnhealthyOrInvalidReferences
    | InvalidReferences(hosts: seq<string>, groups: seq<string>)
    | UnhealthyReferences(hosts: seq<string>, groups: seq<string>)
    | Failure(cause: Error)
    | HostIsReady
    | HostFailure(stage: HostStage, cause: Error)
    | ReconcileSuccess
    | NoJobsFound
    | JobRunning
    | JobNotRunning
    | JobSucceeded
    | JobFailed
    | JobStatusUnknown

  datatype HostStage = PrivateKeyMissing | PrivateKeyError | HostKeysError | VarsConfigMapError

  datatype Error =
    | ApiFailure(text: string)
    | NoSuchObject
    | AlreadyExists
    | NotOwned(configMap: string)
    | UnresolvedReference
    | NoHostKeys
    | NoPlaybookSource
    | BadPrivateKey
    | ScanFailed
    | NilPrivilege

  datatype Condition = Condition(status: Status, note: Note)

  /** A condition list is keyed by condition type. */
  type Conditions = map<ConditionType, Condition>

  predicate IsTrue(conds: Conditions, kind: ConditionType) {
    kind in conds && conds[kind].status == CondTrue
  }

  /** The condition that stands in for one that is not set yet. */
  function Initial(kind: ConditionType): Condition {
    Condition(CondUnknown, ReconcileStarted(kind))
  }

  function Default(conds: Conditions, kind: ConditionType): Conditions {
    if kind in conds then conds else conds[kind := Initial(kind)]
  }

  // ---------- Objects ----------

  type Port = p: int | 0 <= p < 0x1_0000

  datatype Host = Host(
    name: string, uid: nat, ansibleName: string,
    address: string, port: Port, user: string,
    ignoreHostKey: bool, keySecret: string, hostKeySecret: string,
    become: Option<bool>, vars: string, conds: Conditions)
  {
    function Id(): Identity { Identity(HostKind, name, uid) }
  }

  datatype Group = Group(
    name: string, uid: nat, ansibleName: string,
    hosts: seq<string>, groups: seq<string>, vars: string, conds: Conditions)
  {
    function Id(): Identity { Identity(GroupKind, name, uid) }
  }

  datatype Inline = Inline(playbook: string, requirements: string)

  datatype Git = Git(url: string, gitRef: string, playbookPath: string, requirementsPath: string)

  datatype Playbook = Playbook(inline: Option<Inline>, git: Option<Git>)

  datatype ReconcileJob = ReconcileJob(name: string, uid: nat, schedule: string, playbook: string, conds: Conditions)
  {
    function Id(): Identity { Identity(JobKind, name, uid) }
  }

  /** A batch Job started by a CronJob, labelled with the reconcile job it belongs to. */
  datatype JobRun = JobRun(owner: string, start: Option<int>, active: nat, succeeded: nat, failed: nat)

  datatype ConfigMap = ConfigMap(owners: seq<OwnerRef>, data: map<string, string>)

  datatype Secret = Secret(owners: seq<OwnerRef>, data: map<string, string>)

  datatype KeyToPath = KeyToPath(key: string, path: string)

  datatype VolumeSource = EmptyDir | FromSecret(secret: string) | FromConfigMap(configMap: string)

  datatype Volume = Volume(name: string, source: VolumeSource, items: seq<KeyToPath>)

  datatype Mount = Mount(volume: string, path: string, subPath: string, readOnly: bool)

  /** An environment variable set from a key of a ConfigMap, if both are there. */
  datatype EnvVar = EnvVar(name: string, configMap: string, key: string)

  datatype PodTemplate = PodTemplate(volumes: seq<Volume>, initMounts: seq<Mount>, initEnv: seq<EnvVar>, runnerMounts: seq<Mount>)

  datatype CronJob = CronJob(owner: Identity, schedule: string, suspend: bool, ownerLabel: string, template: PodTemplate)

  // ---------- Ownership ----------

  /** The reference `metav1.GetControllerOf` finds. */
  function ControllerOf(owners: seq<OwnerRef>): (r: Option<Identity>)
    ensures r.Some? ==> OwnerRef(r.value, true) in owners
  {
    if owners == [] then None
    else if owners[0].controller then Some(owners[0].owner)
    else ControllerOf(owners[1..])
  }

  ghost predicate FirstController(owners: seq<OwnerRef>, i: int) {
    0 <= i < |owners| && owners[i].controller && forall j :: 0 <= j < i ==> !owners[j].controller
  }

  /** It is the owner in the first reference that is a controller's. */
  lemma {:induction false} ControllerIsFirst(owners: seq<OwnerRef>, o: Identity)
    ensures ControllerOf(owners) == Some(o) <==> exists i :: FirstController(owners, i) && owners[i].owner == o
  {
    if owners != [] {
      ControllerIsFirst(owners[1..], o);
      if owners[0].controller {
        assert FirstController(owners, 0);
      } else {
        if i :| FirstController(owners[1..], i) && owners[1..][i].owner == o { assert FirstController(owners, i + 1); }
        if i :| FirstController(owners, i) && owners[i].owner == o { assert FirstController(owners[1..], i - 1); }
      }
    }
  }

  predicate IsControlledBy(cm: ConfigMap, owner: Identity) {
    ControllerOf(cm.owners) == Some(owner)
  }

  // ---------- The namespace ----------

  /** What the API server stores, and which objects wait in the two work
      queues. The orders are those in which a List returns the objects. */
  datatype State = State(
    hosts: map<string, Host>, hostOrder: seq<string>,
    groups: map<string, Group>, groupOrder: seq<string>,
    playbooks: map<string, Playbook>,
    jobs: map<string, ReconcileJob>,
    runs: seq<JobRun>,
    configMaps: map<string, ConfigMap>,
    secrets: map<string, Secret>,
    cronJobs: map<string, CronJob>,
    groupQueue: set<string>,
    jobQueue: set<string>)

  ghost predicate Lists<T>(order: seq<string>, objects: map<string, T>) {
    NoDup(order) && forall n :: n in order <==> n in objects
  }

  ghost predicate HostsNamed(hosts: map<string, Host>) {
    forall n :: n in hosts ==> hosts[n].name == n
  }

  ghost predicate GroupsNamed(groups: map<string, Group>) {
    forall n :: n in groups ==> groups[n].name == n
  }

  ghost predicate JobsNamed(jobs: map<string, ReconcileJob>) {
    forall n :: n in jobs ==> jobs[n].name == n
  }

  /** Objects are stored under their names, and Lists return every object once. */
  ghost predicate WellFormed(s: State) {
    && HostsNamed(s.hosts) && GroupsNamed(s.groups) && JobsNamed(s.jobs)
    && Lists(s.hostOrder, s.hosts)
    && Lists(s.groupOrder, s.groups)
  }

  /** Consecutive names on the path are a group and one of its subgroup references. */
  ghost predicate Path(groups: map<string, Group>, path: seq<string>) {
    && path != []
    && (|path| > 1 ==> path[0] in groups && path[1] in groups[path[0]].groups && Path(groups, path[1..]))
  }

  // ---------- Watches ----------

  function GroupsListingHost(groups: map<string, Group>, host: string): set<string> {
    set g | g in groups && host in groups[g].hosts
  }

  function GroupsListing(groups: map<string, Group>, group: string): set<string> {
    set g | g in groups && group in groups[g].groups
  }

  function JobsUsing(jobs: map<string, ReconcileJob>, playbook: string): set<string> {
    set j | j in jobs && jobs[j].playbook == playbook
  }

  function HostEvent(s: State, host: string): State {
    s.(groupQueue := s.groupQueue + GroupsListingHost(s.groups, host),
       jobQueue := s.jobQueue + s.jobs.Keys)
  }

  function GroupEvent(s: State, group: string): State {
    s.(groupQueue := s.groupQueue + {group} + GroupsListing(s.groups, group),
       jobQueue := s.jobQueue + s.jobs.Keys)
  }

  function PlaybookEvent(s: State, playbook: string): State {
    s.(jobQueue := s.jobQueue + JobsUsing(s.jobs, playbook))
  }

  function JobEvent(s: State, job: string): State {
    s.(jobQueue := s.jobQueue + {job})
  }

  /** The controller an `Owns` watch wakes, if it is of the given kind. */
  function Woken(cm: Option<ConfigMap>, kind: Kind): set<string> {
    if cm.None? then {} else
      var c := ControllerOf(cm.value.owners);
      if c.Some? && c.value.kind == kind then {c.value.name} else {}
  }

  /** The jobs that can be woken by an event of a ConfigMap or CronJob, or are there. */
  ghost function Watchers(s: State): set<string> {
    s.jobs.Keys + MapWatchers(s.configMaps) + CronWatchers(s.cronJobs)
  }

  ghost function MapWatchers(configMaps: map<string, ConfigMap>): set<string> {
    set n | n in configMaps && ControllingJob(configMaps[n]).Some? :: ControllingJob(configMaps[n]).value
  }

  ghost function CronWatchers(cronJobs: map<string, CronJob>): set<string> {
    set n | n in cronJobs && cronJobs[n].owner.kind == JobKind :: cronJobs[n].owner.name
  }

  /** The job that controls the ConfigMap. */
  function ControllingJob(cm: ConfigMap): Option<string> {
    var c := ControllerOf(cm.owners);
    if c.Some? && c.value.kind == JobKind then Some(c.value.name) else None
  }

  function ConfigMapEvent(s: State, before: Option<ConfigMap>, after: Option<ConfigMap>): State {
    s.(groupQueue := s.groupQueue + Woken(before, GroupKind) + Woken(after, GroupKind),
       jobQueue := s.jobQueue + Woken(before, JobKind) + Woken(after, JobKind))
  }

  function Get<K, T>(m: map<K, T>, key: K): Option<T> {
    if key in m then Some(m[key]) else None
  }

  /** Reading a missing key of a Go string map gives the empty string. */
  function Field(data: map<string, string>, key: string): string {
    if key in data then data[key] else ""
  }
}
