// The CronJob of a reconcile job: its volumes, its mounts, and why a pod made
// from it can be started and finds every file where the inventory says it is.

module PodTemplates {
  import opened Objects
  import opened VarsConfigMaps
  import opened InventoryText

  const JOB_CONFIG_SUFFIX := "-job-config"
  const KNOWN_HOSTS_SUFFIX := "-known-hosts"
  const INVENTORY_SUFFIX := "-inventory"

  function JobConfigName(job: string): string { job + JOB_CONFIG_SUFFIX }

  function KnownHostsName(job: string): string { job + KNOWN_HOSTS_SUFFIX }

  function InventoryName(job: string): string { job + INVENTORY_SUFFIX }

  const KEY_MOUNT := "-key-mount"
  const GROUP_MOUNT := "-group-mount"
  const HOST_MOUNT := "-host-mount"

  const HOSTS_FILE := "hosts.yaml"
  const KNOWN_HOSTS_FILE := "known_hosts"
  const GROUP_VARS_DIR := "/inventory/group_vars/"
  const HOST_VARS_DIR := "/inventory/host_vars/"

  const SSH_KEY := "ssh_key"
  const INVENTORY_KEY := "inventory.yaml"
  const KNOWN_HOSTS_KEY := "known_hosts"
  const PLAYBOOK_KEY := "playbook.yml"
  const REQUIREMENTS_KEY := "requirements.yml"
  const GIT_URL_KEY := "OPERATOR_GIT_REPO_URL"
  const GIT_REF_KEY := "OPERATOR_GIT_REF"
  const GIT_PLAYBOOK_KEY := "OPERATOR_GIT_PLAYBOOK_PATH"
  const GIT_REQUIREMENTS_KEY := "OPERATOR_GIT_REQUIREMENTS_PATH"

  /** The source's `ownerOwnedWithAnsibleNamePair`. */
  datatype Pair = Pair(ansibleName: string, owner: string, owned: string)

  function KeyPair(h: Host): Pair { Pair(h.ansibleName, h.name, h.keySecret) }

  function HostVarsPair(h: Host): Pair { Pair(h.ansibleName, h.name, VarsName(h.name)) }

  function GroupVarsPair(g: Group): Pair { Pair(g.ansibleName, g.name, VarsName(g.name)) }

  // ---------- One item: a volume and its mount in the runner ----------

  datatype Item =
    | Playbooks
    | Dependencies
    | RuntimeConfig(configMap: string)
    | InventoryFile(configMap: string)
    | KnownHostsFile(configMap: string)
    | Key(pair: Pair)
    | GroupVars(pair: Pair)
    | HostVars(pair: Pair)

  function NameOf(item: Item): string {
    match item
    case Playbooks => "playbooks"
    case Dependencies => "deps"
    case RuntimeConfig(_) => "runtimeconfig"
    case InventoryFile(_) => "inventory"
    case KnownHostsFile(_) => "knownhosts"
    case Key(p) => p.owner + KEY_MOUNT
    case GroupVars(p) => p.owner + GROUP_MOUNT
    case HostVars(p) => p.owner + HOST_MOUNT
  }

  function PathOf(item: Item): string {
    match item
    case Playbooks => "/playbook"
    case Dependencies => "/deps"
    case RuntimeConfig(_) => "/config"
    case InventoryFile(_) => "/inventory/hosts.yaml"
    case KnownHostsFile(_) => "/ssh/known_hosts"
    case Key(p) => KEY_DIR + p.owner
    case GroupVars(p) => GROUP_VARS_DIR + p.ansibleName
    case HostVars(p) => HOST_VARS_DIR + p.ansibleName
  }

  function SourceOf(item: Item): VolumeSource {
    match item
    case Playbooks => EmptyDir
    case Dependencies => EmptyDir
    case RuntimeConfig(cm) => FromConfigMap(cm)
    case InventoryFile(cm) => FromConfigMap(cm)
    case KnownHostsFile(cm) => FromConfigMap(cm)
    case Key(p) => FromSecret(p.owned)
    case GroupVars(p) => FromConfigMap(p.owned)
    case HostVars(p) => FromConfigMap(p.owned)
  }

  function ProjectionOf(item: Item): seq<KeyToPath> {
    match item
    case Playbooks => []
    case Dependencies => []
    case RuntimeConfig(_) => [KeyToPath(PLAYBOOK_KEY, "playbook.yml"), KeyToPath(REQUIREMENTS_KEY, "requirements.yml")]
    case InventoryFile(_) => [KeyToPath(INVENTORY_KEY, HOSTS_FILE)]
    case KnownHostsFile(_) => [KeyToPath(KNOWN_HOSTS_KEY, KNOWN_HOSTS_FILE)]
    case Key(p) => [KeyToPath(SSH_KEY, p.owner)]
    case GroupVars(p) => [KeyToPath(VARS_KEY, p.owner)]
    case HostVars(p) => [KeyToPath(VARS_KEY, p.owner)]
  }

  function SubPathOf(item: Item): string {
    match item
    case Playbooks => ""
    case Dependencies => ""
    case RuntimeConfig(_) => ""
    case InventoryFile(_) => HOSTS_FILE
    case KnownHostsFile(_) => KNOWN_HOSTS_FILE
    case Key(p) => p.owner
    case GroupVars(p) => p.owner
    case HostVars(p) => p.owner
  }

  function VolumeOf(item: Item): Volume { Volume(NameOf(item), SourceOf(item), ProjectionOf(item)) }

  function MountOf(item: Item): Mount { Mount(NameOf(item), PathOf(item), SubPathOf(item), true) }

  function VolumesOf(items: seq<Item>): (r: seq<Volume>)
    ensures |r| == |items| && forall i :: 0 <= i < |r| ==> r[i] == VolumeOf(items[i])
  {
    seq(|items|, i requires 0 <= i < |items| => VolumeOf(items[i]))
  }

  function MountsOf(items: seq<Item>): (r: seq<Mount>)
    ensures |r| == |items| && forall i :: 0 <= i < |r| ==> r[i] == MountOf(items[i])
  {
    seq(|items|, i requires 0 <= i < |items| => MountOf(items[i]))
  }

  // ---------- The whole template ----------

  function FixedItems(job: string): seq<Item> {
    [Playbooks, Dependencies, RuntimeConfig(JobConfigName(job)), InventoryFile(InventoryName(job)), KnownHostsFile(KnownHostsName(job))]
  }

  function KeyItems(hosts: seq<Host>): (r: seq<Item>)
    ensures |r| == |hosts| && forall i :: 0 <= i < |r| ==> r[i] == Key(KeyPair(hosts[i]))
  {
    seq(|hosts|, i requires 0 <= i < |hosts| => Key(KeyPair(hosts[i])))
  }

  function GroupVarsItems(groups: seq<Group>): (r: seq<Item>)
    ensures |r| == |groups| && forall i :: 0 <= i < |r| ==> r[i] == GroupVars(GroupVarsPair(groups[i]))
  {
    seq(|groups|, i requires 0 <= i < |groups| => GroupVars(GroupVarsPair(groups[i])))
  }

  function HostVarsItems(hosts: seq<Host>): (r: seq<Item>)
    ensures |r| == |hosts| && forall i :: 0 <= i < |r| ==> r[i] == HostVars(HostVarsPair(hosts[i]))
  {
    seq(|hosts|, i requires 0 <= i < |hosts| => HostVars(HostVarsPair(hosts[i])))
  }

  function Items(job: string, hosts: seq<Host>, groups: seq<Group>): seq<Item> {
    FixedItems(job) + KeyItems(hosts) + GroupVarsItems(groups) + HostVarsItems(hosts)
  }

  function Writable(item: Item): Mount { MountOf(item).(readOnly := false) }

  function InitMounts(job: string): seq<Mount> {
    [Writable(Playbooks), Writable(Dependencies), MountOf(RuntimeConfig(JobConfigName(job)))]
  }

  function FromConfig(key: string, job: string): EnvVar { EnvVar(key, JobConfigName(job), key) }

  /** The init container is told about a git source by its environment. */
  function InitEnv(job: string): seq<EnvVar> {
    [FromConfig(GIT_URL_KEY, job), FromConfig(GIT_REF_KEY, job), FromConfig(GIT_PLAYBOOK_KEY, job), FromConfig(GIT_REQUIREMENTS_KEY, job)]
  }

  function Template(job: string, hosts: seq<Host>, groups: seq<Group>): PodTemplate {
    var items := Items(job, hosts, groups);
    PodTemplate(VolumesOf(items), InitMounts(job), InitEnv(job), MountsOf(items))
  }

  /** The CronJob is controlled by the job, follows its schedule and labels its runs
      with its name. */
  predicate BelongsTo(cj: CronJob, job: ReconcileJob) {
    cj.owner == job.Id() && cj.schedule == job.schedule && cj.ownerLabel == job.name
  }

  /** What the namespace asks of the job's CronJob; never suspended. */
  function DesiredCronJob(job: ReconcileJob, hosts: seq<Host>, groups: seq<Group>): CronJob {
    CronJob(job.Id(), job.schedule, false, job.name, Template(job.name, hosts, groups))
  }

  // ---------- Construction ----------

  method HostPairs(hosts: seq<Host>) returns (keys: seq<Pair>, vars: seq<Pair>)
    ensures |keys| == |vars| == |hosts|
    ensures forall i :: 0 <= i < |hosts| ==> keys[i] == KeyPair(hosts[i]) && vars[i] == HostVarsPair(hosts[i])
  {
    keys, vars := [], [];
    for i := 0 to |hosts|
      invariant |keys| == |vars| == i
      invariant forall j :: 0 <= j < i ==> keys[j] == KeyPair(hosts[j]) && vars[j] == HostVarsPair(hosts[j])
    {
      var h := hosts[i];
      keys := keys + [Pair(h.ansibleName, h.name, h.keySecret)];
      vars := vars + [Pair(h.ansibleName, h.name, VarsName(h.name))];
    }
  }

  method GroupPairs(groups: seq<Group>) returns (vars: seq<Pair>)
    ensures |vars| == |groups| && forall i :: 0 <= i < |groups| ==> vars[i] == GroupVarsPair(groups[i])
  {
    vars := [];
    for i := 0 to |groups|
      invariant |vars| == i && forall j :: 0 <= j < i ==> vars[j] == GroupVarsPair(groups[j])
    {
      var g := groups[i];
      vars := vars + [Pair(g.ansibleName, g.name, VarsName(g.name))];
    }
  }

  method BuildReadOnlyVolumeMount(name: string, mountPath: string, subPath: string) returns (m: Mount)
    ensures m == Mount(name, mountPath, subPath, true)
  {
    m := Mount(name, mountPath, subPath, true);
  }

  method BuildVolumeForSecret(name: string, secret: string, key: string, path: string) returns (v: Volume)
    ensures v == Volume(name, FromSecret(secret), [KeyToPath(key, path)])
  {
    v := Volume(name, FromSecret(secret), [KeyToPath(key, path)]);
  }

  method BuildVolumeForConfigMap(name: string, configMap: string, key: string, path: string) returns (v: Volume)
    ensures v == Volume(name, FromConfigMap(configMap), [KeyToPath(key, path)])
  {
    v := Volume(name, FromConfigMap(configMap), [KeyToPath(key, path)]);
  }

  method MakeEnvVarEntryFromConfigMap(variable: string, configMap: string, key: string) returns (e: EnvVar)
    ensures e == EnvVar(variable, configMap, key)
  {
    e := EnvVar(variable, configMap, key);
  }

  /** Volumes and mounts for some items, appended to those there are. */
  predicate Appended(volumes: seq<Volume>, mounts: seq<Mount>, items: seq<Item>) {
    volumes == VolumesOf(items) && mounts == MountsOf(items)
  }

  lemma AppendItem(volumes: seq<Volume>, mounts: seq<Mount>, items: seq<Item>, item: Item)
    requires Appended(volumes, mounts, items)
    ensures Appended(volumes + [VolumeOf(item)], mounts + [MountOf(item)], items + [item])
  {
  }

  method AppendKeys(volumes: seq<Volume>, mounts: seq<Mount>, keySecrets: seq<Pair>, ghost before: seq<Item>)
    returns (vs: seq<Volume>, ms: seq<Mount>)
    requires Appended(volumes, mounts, before)
    ensures Appended(vs, ms, before + seq(|keySecrets|, i requires 0 <= i < |keySecrets| => Key(keySecrets[i])))
  {
    hide Appended;
    vs, ms := volumes, mounts;
    ghost var items := before;
    for i := 0 to |keySecrets|
      invariant Appended(vs, ms, items)
      invariant items == before + seq(i, j requires 0 <= j < i => Key(keySecrets[j]))
    {
      var volumeName := keySecrets[i].owner + KEY_MOUNT;
      var volume := BuildVolumeForSecret(volumeName, keySecrets[i].owned, SSH_KEY, keySecrets[i].owner);
      var mount := BuildReadOnlyVolumeMount(volumeName, KEY_DIR + keySecrets[i].owner, keySecrets[i].owner);
      AppendItem(vs, ms, items, Key(keySecrets[i]));
      vs, ms, items := vs + [volume], ms + [mount], items + [Key(keySecrets[i])];
    }
  }

  method AppendGroupVars(volumes: seq<Volume>, mounts: seq<Mount>, entries: seq<Pair>, ghost before: seq<Item>)
    returns (vs: seq<Volume>, ms: seq<Mount>)
    requires Appended(volumes, mounts, before)
    ensures Appended(vs, ms, before + seq(|entries|, i requires 0 <= i < |entries| => GroupVars(entries[i])))
  {
    hide Appended;
    vs, ms := volumes, mounts;
    ghost var items := before;
    for i := 0 to |entries|
      invariant Appended(vs, ms, items)
      invariant items == before + seq(i, j requires 0 <= j < i => GroupVars(entries[j]))
    {
      var volumeName := entries[i].owner + GROUP_MOUNT;
      var volume := BuildVolumeForConfigMap(volumeName, entries[i].owned, VARS_KEY, entries[i].owner);
      var mount := BuildReadOnlyVolumeMount(volumeName, GROUP_VARS_DIR + entries[i].ansibleName, entries[i].owner);
      AppendItem(vs, ms, items, GroupVars(entries[i]));
      vs, ms, items := vs + [volume], ms + [mount], items + [GroupVars(entries[i])];
    }
  }

  method AppendHostVars(volumes: seq<Volume>, mounts: seq<Mount>, entries: seq<Pair>, ghost before: seq<Item>)
    returns (vs: seq<Volume>, ms: seq<Mount>)
    requires Appended(volumes, mounts, before)
    ensures Appended(vs, ms, before + seq(|entries|, i requires 0 <= i < |entries| => HostVars(entries[i])))
  {
    hide Appended;
    vs, ms := volumes, mounts;
    ghost var items := before;
    for i := 0 to |entries|
      invariant Appended(vs, ms, items)
      invariant items == before + seq(i, j requires 0 <= j < i => HostVars(entries[j]))
    {
      var volumeName := entries[i].owner + HOST_MOUNT;
      var volume := BuildVolumeForConfigMap(volumeName, entries[i].owned, VARS_KEY, entries[i].owner);
      var mount := BuildReadOnlyVolumeMount(volumeName, HOST_VARS_DIR + entries[i].ansibleName, entries[i].owner);
      AppendItem(vs, ms, items, HostVars(entries[i]));
      vs, ms, items := vs + [volume], ms + [mount], items + [HostVars(entries[i])];
    }
  }

  /** The part of the template that does not depend on hosts and groups. */
  method FixedParts(job: string) returns (volumes: seq<Volume>, initMounts: seq<Mount>, initEnv: seq<EnvVar>, mounts: seq<Mount>)
    ensures Appended(volumes, mounts, FixedItems(job)) && initMounts == InitMounts(job) && initEnv == InitEnv(job)
  {
    initMounts := [Mount("playbooks", "/playbook", "", false), Mount("deps", "/deps", "", false)];
    mounts := [Mount("playbooks", "/playbook", "", true), Mount("deps", "/deps", "", true)];
    volumes := [Volume("playbooks", EmptyDir, []), Volume("deps", EmptyDir, [])];

    var url := MakeEnvVarEntryFromConfigMap(GIT_URL_KEY, JobConfigName(job), GIT_URL_KEY);
    var ref := MakeEnvVarEntryFromConfigMap(GIT_REF_KEY, JobConfigName(job), GIT_REF_KEY);
    var playbook := MakeEnvVarEntryFromConfigMap(GIT_PLAYBOOK_KEY, JobConfigName(job), GIT_PLAYBOOK_KEY);
    var requirements := MakeEnvVarEntryFromConfigMap(GIT_REQUIREMENTS_KEY, JobConfigName(job), GIT_REQUIREMENTS_KEY);
    initEnv := [url, ref, playbook, requirements];

    var runtimeConfig := Volume("runtimeconfig", FromConfigMap(JobConfigName(job)),
                                [KeyToPath(PLAYBOOK_KEY, "playbook.yml"), KeyToPath(REQUIREMENTS_KEY, "requirements.yml")]);
    var runtimeMount := Mount("runtimeconfig", "/config", "", true);
    volumes, mounts, initMounts := volumes + [runtimeConfig], mounts + [runtimeMount], initMounts + [runtimeMount];

    var volume := BuildVolumeForConfigMap("inventory", InventoryName(job), INVENTORY_KEY, HOSTS_FILE);
    var mount := BuildReadOnlyVolumeMount("inventory", "/inventory/hosts.yaml", HOSTS_FILE);
    volumes, mounts := volumes + [volume], mounts + [mount];

    volume := BuildVolumeForConfigMap("knownhosts", KnownHostsName(job), KNOWN_HOSTS_KEY, KNOWN_HOSTS_FILE);
    mount := BuildReadOnlyVolumeMount("knownhosts", "/ssh/known_hosts", KNOWN_HOSTS_FILE);
    volumes, mounts := volumes + [volume], mounts + [mount];
  }

  method ConstructCronJobWithMounts(job: ReconcileJob, keySecrets: seq<Pair>, hostVars: seq<Pair>, groupVars: seq<Pair>,
                                    ghost hosts: seq<Host>, ghost groups: seq<Group>)
    returns (cj: CronJob)
    requires |keySecrets| == |hosts| && forall i :: 0 <= i < |hosts| ==> keySecrets[i] == KeyPair(hosts[i])
    requires |hostVars| == |hosts| && forall i :: 0 <= i < |hosts| ==> hostVars[i] == HostVarsPair(hosts[i])
    requires |groupVars| == |groups| && forall i :: 0 <= i < |groups| ==> groupVars[i] == GroupVarsPair(groups[i])
    ensures cj == DesiredCronJob(job, hosts, groups)
    ensures BelongsTo(cj, job) && !cj.suspend && cj.template == Template(job.name, hosts, groups)
  {
    var volumes, initMounts, initEnv, mounts := FixedParts(job.name);
    ghost var items := FixedItems(job.name);
    volumes, mounts := AppendKeys(volumes, mounts, keySecrets, items);
    items := items + KeyItems(hosts);
    assert seq(|keySecrets|, i requires 0 <= i < |keySecrets| => Key(keySecrets[i])) == KeyItems(hosts);
    volumes, mounts := AppendGroupVars(volumes, mounts, groupVars, items);
    assert seq(|groupVars|, i requires 0 <= i < |groupVars| => GroupVars(groupVars[i])) == GroupVarsItems(groups);
    items := items + GroupVarsItems(groups);
    volumes, mounts := AppendHostVars(volumes, mounts, hostVars, items);
    assert seq(|hostVars|, i requires 0 <= i < |hostVars| => HostVars(hostVars[i])) == HostVarsItems(hosts);
    cj := CronJob(job.Id(), job.schedule, false, job.name, PodTemplate(volumes, initMounts, initEnv, mounts));
  }

  // ---------- Distinct names and paths ----------

  lemma WithoutSuffix(a: string, b: string, suffix: string)
    requires a + suffix == b + suffix
    ensures a == b
  {
    assert (a + suffix)[..|a|] == a && (b + suffix)[..|b|] == b;
  }

  lemma WithoutPrefix(prefix: string, a: string, b: string)
    requires prefix + a == prefix + b
    ensures a == b
  {
    assert (prefix + a)[|prefix|..] == a && (prefix + b)[|prefix|..] == b;
  }

  /** The seventh character from the end tells the three kinds of mount, and a
      fixed name, apart. */
  function Mark(s: string): char {
    if |s| < 7 || s[|s| - 1] != 't' then ' ' else s[|s| - 7]
  }

  lemma MarkOf(item: Item)
    ensures Mark(NameOf(item)) == match item case Key(_) => 'y' case GroupVars(_) => 'p' case HostVars(_) => 't' case _ => ' '
  {
  }

  /** Two items of one template that share a volume name are the same item. */
  predicate Alike(a: Item, b: Item) {
    match a
    case Key(p) => b.Key? && p.owner == b.pair.owner
    case GroupVars(p) => b.GroupVars? && p.owner == b.pair.owner
    case HostVars(p) => b.HostVars? && p.owner == b.pair.owner
    case Playbooks => b.Playbooks?
    case Dependencies => b.Dependencies?
    case RuntimeConfig(_) => b.RuntimeConfig?
    case InventoryFile(_) => b.InventoryFile?
    case KnownHostsFile(_) => b.KnownHostsFile?
  }

  lemma NameInjective(a: Item, b: Item)
    requires NameOf(a) == NameOf(b)
    ensures Alike(a, b)
  {
    MarkOf(a);
    MarkOf(b);
    match a {
      case Key(p) => WithoutSuffix(p.owner, b.pair.owner, KEY_MOUNT);
      case GroupVars(p) => WithoutSuffix(p.owner, b.pair.owner, GROUP_MOUNT);
      case HostVars(p) => WithoutSuffix(p.owner, b.pair.owner, HOST_MOUNT);
      case _ =>
    }
  }

  /** Mounted at the same path: the same file, or two objects with one AnsibleName. */
  predicate SamePlace(a: Item, b: Item) {
    match a
    case Key(p) => b.Key? && p.owner == b.pair.owner
    case GroupVars(p) => b.GroupVars? && p.ansibleName == b.pair.ansibleName
    case HostVars(p) => b.HostVars? && p.ansibleName == b.pair.ansibleName
    case Playbooks => b.Playbooks?
    case Dependencies => b.Dependencies?
    case RuntimeConfig(_) => b.RuntimeConfig?
    case InventoryFile(_) => b.InventoryFile?
    case KnownHostsFile(_) => b.KnownHostsFile?
  }

  /** Which directory a path is in, told by a few of its characters. */
  function Region(path: string): nat {
    if |path| < 10 then 0
    else if path[1] == 's' then if path[6] == 'e' then 1 else 0
    else if |path| < 21 then 0
    else if path[11] == 'g' then 2
    else if path[15] == '_' then 3
    else 0
  }

  lemma RegionOf(item: Item)
    ensures Region(PathOf(item)) == match item case Key(_) => 1 case GroupVars(_) => 2 case HostVars(_) => 3 case _ => 0
  {
  }

  lemma PathInjective(a: Item, b: Item)
    requires PathOf(a) == PathOf(b)
    ensures SamePlace(a, b)
  {
    RegionOf(a);
    RegionOf(b);
    match a {
      case Key(p) => WithoutPrefix(KEY_DIR, p.owner, b.pair.owner);
      case GroupVars(p) => WithoutPrefix(GROUP_VARS_DIR, p.ansibleName, b.pair.ansibleName);
      case HostVars(p) => WithoutPrefix(HOST_VARS_DIR, p.ansibleName, b.pair.ansibleName);
      case _ =>
    }
  }

  ghost predicate DistinctHosts(hosts: seq<Host>) {
    forall i, j :: 0 <= i < j < |hosts| ==> hosts[i].name != hosts[j].name
  }

  ghost predicate DistinctGroups(groups: seq<Group>) {
    forall i, j :: 0 <= i < j < |groups| ==> groups[i].name != groups[j].name
  }

  ghost predicate DistinctAnsibleNames(hosts: seq<Host>, groups: seq<Group>) {
    && (forall i, j :: 0 <= i < j < |hosts| ==> hosts[i].ansibleName != hosts[j].ansibleName)
    && (forall i, j :: 0 <= i < j < |groups| ==> groups[i].ansibleName != groups[j].ansibleName)
  }

  /** Where the items of a host are, and that of a group. */
  lemma HostItems(job: string, hosts: seq<Host>, groups: seq<Group>, k: nat)
    requires k < |hosts|
    ensures |Items(job, hosts, groups)| == 5 + |hosts| + |groups| + |hosts|
    ensures Items(job, hosts, groups)[5 + k] == Key(KeyPair(hosts[k]))
    ensures Items(job, hosts, groups)[5 + |hosts| + |groups| + k] == HostVars(HostVarsPair(hosts[k]))
  {
    var keys, vars, rest := KeyItems(hosts), HostVarsItems(hosts), GroupVarsItems(groups);
    assert (FixedItems(job) + keys)[5 + k] == keys[k];
    assert (FixedItems(job) + keys + rest)[5 + k] == keys[k];
  }

  lemma GroupItem(job: string, hosts: seq<Host>, groups: seq<Group>, k: nat)
    requires k < |groups|
    ensures |Items(job, hosts, groups)| == 5 + |hosts| + |groups| + |hosts|
    ensures Items(job, hosts, groups)[5 + |hosts| + k] == GroupVars(GroupVarsPair(groups[k]))
  {
    var rest := GroupVarsItems(groups);
    assert (FixedItems(job) + KeyItems(hosts) + rest)[5 + |hosts| + k] == rest[k];
  }

  function ItemAt(job: string, hosts: seq<Host>, groups: seq<Group>, i: nat): Item
    requires i < 5 + |hosts| + |groups| + |hosts|
  {
    var m, n := |hosts|, |groups|;
    if i < 5 then FixedItems(job)[i]
    else if i < 5 + m then Key(KeyPair(hosts[i - 5]))
    else if i < 5 + m + n then GroupVars(GroupVarsPair(groups[i - 5 - m]))
    else HostVars(HostVarsPair(hosts[i - 5 - m - n]))
  }

  lemma ItemIsAt(job: string, hosts: seq<Host>, groups: seq<Group>, i: nat)
    requires i < |Items(job, hosts, groups)|
    ensures |Items(job, hosts, groups)| == 5 + |hosts| + |groups| + |hosts|
    ensures Items(job, hosts, groups)[i] == ItemAt(job, hosts, groups, i)
  {
    hide KeyPair, GroupVarsPair, HostVarsPair;
  }

  lemma ItemsDiffer(job: string, hosts: seq<Host>, groups: seq<Group>, i: nat, j: nat)
    requires DistinctHosts(hosts) && DistinctGroups(groups)
    requires i < j < |Items(job, hosts, groups)|
    ensures !Alike(Items(job, hosts, groups)[i], Items(job, hosts, groups)[j])
    ensures DistinctAnsibleNames(hosts, groups) ==> !SamePlace(Items(job, hosts, groups)[i], Items(job, hosts, groups)[j])
  {
    ItemIsAt(job, hosts, groups, i);
    ItemIsAt(job, hosts, groups, j);
    hide Items;
  }

  // ---------- Well-formedness ----------

  /** The references inside the template resolve: volume names are unique, every
      mount has a volume, and every sub-path is a file the volume projects. */
  ghost predicate Mountable(t: PodTemplate) {
    && (forall i, j :: 0 <= i < j < |t.volumes| ==> t.volumes[i].name != t.volumes[j].name)
    && (forall m :: m in t.runnerMounts || m in t.initMounts ==> HasVolume(t, m))
  }

  ghost predicate HasVolume(t: PodTemplate, m: Mount) {
    exists v :: v in t.volumes && v.name == m.volume &&
      (m.subPath != "" ==> exists p :: p in v.items && p.path == m.subPath)
  }

  ghost predicate DistinctPaths(mounts: seq<Mount>) {
    forall i, j :: 0 <= i < j < |mounts| ==> mounts[i].path != mounts[j].path
  }

  lemma ItemHasVolume(job: string, hosts: seq<Host>, groups: seq<Group>, i: nat, readOnly: bool)
    requires i < |Items(job, hosts, groups)|
    ensures HasVolume(Template(job, hosts, groups), MountOf(Items(job, hosts, groups)[i]).(readOnly := readOnly))
  {
    var item := Items(job, hosts, groups)[i];
    var v := Template(job, hosts, groups).volumes[i];
    assert v == VolumeOf(item);
    if SubPathOf(item) != "" {
      assert v.items[0] in v.items && v.items[0].path == SubPathOf(item);
    }
  }

  lemma TemplateMountable(job: string, hosts: seq<Host>, groups: seq<Group>)
    requires DistinctHosts(hosts) && DistinctGroups(groups)
    ensures Mountable(Template(job, hosts, groups))
  {
    hide HasVolume, DistinctHosts, DistinctGroups, Alike, NameOf;
    var t, items := Template(job, hosts, groups), Items(job, hosts, groups);
    forall i, j | 0 <= i < j < |t.volumes| ensures t.volumes[i].name != t.volumes[j].name {
      ItemsDiffer(job, hosts, groups, i, j);
      if NameOf(items[i]) == NameOf(items[j]) { NameInjective(items[i], items[j]); }
    }
    forall m | m in t.runnerMounts ensures HasVolume(t, m) {
      var i :| 0 <= i < |t.runnerMounts| && t.runnerMounts[i] == m;
      ItemHasVolume(job, hosts, groups, i, true);
    }
    assert items[0] == Playbooks && items[1] == Dependencies && items[2] == RuntimeConfig(JobConfigName(job));
    ItemHasVolume(job, hosts, groups, 0, false);
    ItemHasVolume(job, hosts, groups, 1, false);
    ItemHasVolume(job, hosts, groups, 2, true);
  }

  /** Admission wants more of a volume name than of an object name: a DNS label
      has at most 63 characters and no dot. */
  predicate FitsLabel(name: string) {
    |name| <= 63 && '.' !in name
  }

  lemma SuffixedFits(name: string, suffix: string)
    requires '.' !in suffix
    ensures FitsLabel(name + suffix) <==> |name| + |suffix| <= 63 && '.' !in name
  {
    if '.' in name {
      var i :| 0 <= i < |name| && name[i] == '.';
      assert (name + suffix)[i] == '.';
    }
  }

  ghost predicate AllFit(volumes: seq<Volume>) {
    forall i :: 0 <= i < |volumes| ==> FitsLabel(volumes[i].name)
  }

  ghost predicate HostNamesFit(hosts: seq<Host>) {
    forall i :: 0 <= i < |hosts| ==> '.' !in hosts[i].name && |hosts[i].name| <= 52
  }

  ghost predicate GroupNamesFit(groups: seq<Group>) {
    forall i :: 0 <= i < |groups| ==> '.' !in groups[i].name && |groups[i].name| <= 51
  }

  lemma FixedFit(job: string, i: nat)
    requires i < 5
    ensures FitsLabel(NameOf(FixedItems(job)[i]))
  {
  }

  lemma ItemFits(job: string, hosts: seq<Host>, groups: seq<Group>, i: nat)
    requires i < |Items(job, hosts, groups)| && HostNamesFit(hosts) && GroupNamesFit(groups)
    ensures FitsLabel(NameOf(Items(job, hosts, groups)[i]))
  {
    ItemIsAt(job, hosts, groups, i);
    hide Items, FitsLabel;
    var m, n := |hosts|, |groups|;
    if i < 5 {
      FixedFit(job, i);
    } else if i < 5 + m {
      SuffixedFits(hosts[i - 5].name, KEY_MOUNT);
    } else if i < 5 + m + n {
      SuffixedFits(groups[i - 5 - m].name, GROUP_MOUNT);
    } else {
      SuffixedFits(hosts[i - 5 - m - n].name, HOST_MOUNT);
    }
  }

  /** Every volume name fits exactly if no host or group has a dot in its name,
      no host more than 52 characters and no group more than 51. */
  lemma VolumeNamesFitIff(job: string, hosts: seq<Host>, groups: seq<Group>)
    ensures AllFit(Template(job, hosts, groups).volumes) <==> HostNamesFit(hosts) && GroupNamesFit(groups)
  {
    var items, volumes := Items(job, hosts, groups), Template(job, hosts, groups).volumes;
    hide Items, FitsLabel, NameOf;
    if HostNamesFit(hosts) && GroupNamesFit(groups) {
      forall i | 0 <= i < |volumes| ensures FitsLabel(volumes[i].name) { ItemFits(job, hosts, groups, i); }
    }
    if AllFit(volumes) {
      forall i | 0 <= i < |hosts| ensures '.' !in hosts[i].name && |hosts[i].name| <= 52 {
        HostItems(job, hosts, groups, i);
        HostVolumeFits(HostVarsPair(hosts[i]), volumes[5 + |hosts| + |groups| + i].name);
      }
      forall i | 0 <= i < |groups| ensures '.' !in groups[i].name && |groups[i].name| <= 51 {
        GroupItem(job, hosts, groups, i);
        GroupVolumeFits(GroupVarsPair(groups[i]), volumes[5 + |hosts| + i].name);
      }
    }
  }

  lemma HostVolumeFits(p: Pair, name: string)
    requires name == NameOf(HostVars(p)) && FitsLabel(name)
    ensures '.' !in p.owner && |p.owner| <= 52
  {
    SuffixedFits(p.owner, HOST_MOUNT);
  }

  lemma GroupVolumeFits(p: Pair, name: string)
    requires name == NameOf(GroupVars(p)) && FitsLabel(name)
    ensures '.' !in p.owner && |p.owner| <= 51
  {
    SuffixedFits(p.owner, GROUP_MOUNT);
  }

  /** Kubernetes names do not suffice for the paths: AnsibleNames must differ too,
      among the hosts and among the groups. */
  lemma MountPathsDistinctIff(job: string, hosts: seq<Host>, groups: seq<Group>)
    requires DistinctHosts(hosts) && DistinctGroups(groups)
    ensures DistinctPaths(Template(job, hosts, groups).runnerMounts) <==> DistinctAnsibleNames(hosts, groups)
  {
    if DistinctAnsibleNames(hosts, groups) {
      PathsFollowNames(job, hosts, groups);
    }
    if DistinctPaths(Template(job, hosts, groups).runnerMounts) {
      NamesFollowPaths(job, hosts, groups);
    }
  }

  lemma PathsFollowNames(job: string, hosts: seq<Host>, groups: seq<Group>)
    requires DistinctHosts(hosts) && DistinctGroups(groups) && DistinctAnsibleNames(hosts, groups)
    ensures DistinctPaths(Template(job, hosts, groups).runnerMounts)
  {
    hide DistinctHosts, DistinctGroups, DistinctAnsibleNames, SamePlace, PathOf, Alike, Items;
    var items, mounts := Items(job, hosts, groups), Template(job, hosts, groups).runnerMounts;
    forall i, j | 0 <= i < j < |mounts| ensures mounts[i].path != mounts[j].path {
      ItemsDiffer(job, hosts, groups, i, j);
      if PathOf(items[i]) == PathOf(items[j]) { PathInjective(items[i], items[j]); }
    }
  }

  lemma NamesFollowPaths(job: string, hosts: seq<Host>, groups: seq<Group>)
    requires DistinctPaths(Template(job, hosts, groups).runnerMounts)
    ensures DistinctAnsibleNames(hosts, groups)
  {
    hide Items;
    var mounts, m, n := Template(job, hosts, groups).runnerMounts, |hosts|, |groups|;
    forall i, j | 0 <= i < j < m ensures hosts[i].ansibleName != hosts[j].ansibleName {
      HostItems(job, hosts, groups, i);
      HostItems(job, hosts, groups, j);
      assert mounts[5 + m + n + i].path != mounts[5 + m + n + j].path;
    }
    forall i, j | 0 <= i < j < n ensures groups[i].ansibleName != groups[j].ansibleName {
      GroupItem(job, hosts, groups, i);
      GroupItem(job, hosts, groups, j);
      assert mounts[5 + m + i].path != mounts[5 + m + j].path;
    }
  }

  /** The file at `path` in the runner is the value of `key` in `source`, projected
      into the volume as `file`. */
  ghost predicate FileFrom(t: PodTemplate, path: string, file: string, source: VolumeSource, key: string) {
    exists m, v :: m in t.runnerMounts && m.path == path && m.subPath == file && m.readOnly && v in t.volumes && v.name == m.volume
      && v.source == source && v.items == [KeyToPath(key, file)]
  }

  lemma ItemIsFile(job: string, hosts: seq<Host>, groups: seq<Group>, i: nat)
    requires i < |Items(job, hosts, groups)|
    requires var item := Items(job, hosts, groups)[i]; |ProjectionOf(item)| == 1
    ensures var item := Items(job, hosts, groups)[i];
            FileFrom(Template(job, hosts, groups), PathOf(item), SubPathOf(item), SourceOf(item), ProjectionOf(item)[0].key)
  {
    var t := Template(job, hosts, groups);
    assert t.runnerMounts[i] in t.runnerMounts && t.volumes[i] in t.volumes;
  }

  lemma HostFilesInPlace(job: string, hosts: seq<Host>, groups: seq<Group>, h: Host)
    requires h in hosts
    ensures var t := Template(job, hosts, groups);
            && FileFrom(t, "/ssh/keys/" + h.name, h.name, FromSecret(h.keySecret), "ssh_key")
            && FileFrom(t, "/inventory/host_vars/" + h.ansibleName, h.name, FromConfigMap(h.name + "-vars"), "vars")
  {
    hide FileFrom, Template, Items;
    var i :| 0 <= i < |hosts| && hosts[i] == h;
    HostItems(job, hosts, groups, i);
    ItemIsFile(job, hosts, groups, 5 + i);
    ItemIsFile(job, hosts, groups, 5 + |hosts| + |groups| + i);
  }

  lemma GroupFilesInPlace(job: string, hosts: seq<Host>, groups: seq<Group>, g: Group)
    requires g in groups
    ensures FileFrom(Template(job, hosts, groups), "/inventory/group_vars/" + g.ansibleName, g.name, FromConfigMap(g.name + "-vars"), "vars")
  {
    hide FileFrom, Template, Items;
    var i :| 0 <= i < |groups| && groups[i] == g;
    GroupItem(job, hosts, groups, i);
    ItemIsFile(job, hosts, groups, 5 + |hosts| + i);
  }

  /** The inventory, the known hosts, every host's key and all variables are where
      Ansible looks for them. */
  lemma FilesInPlace(job: string, hosts: seq<Host>, groups: seq<Group>)
    ensures var t := Template(job, hosts, groups);
            && FileFrom(t, "/inventory/hosts.yaml", "hosts.yaml", FromConfigMap(job + "-inventory"), "inventory.yaml")
            && FileFrom(t, "/ssh/known_hosts", "known_hosts", FromConfigMap(job + "-known-hosts"), "known_hosts")
            && (forall h :: h in hosts ==> FileFrom(t, "/ssh/keys/" + h.name, h.name, FromSecret(h.keySecret), "ssh_key"))
            && (forall h :: h in hosts ==> FileFrom(t, "/inventory/host_vars/" + h.ansibleName, h.name, FromConfigMap(h.name + "-vars"), "vars"))
            && (forall g :: g in groups ==> FileFrom(t, "/inventory/group_vars/" + g.ansibleName, g.name, FromConfigMap(g.name + "-vars"), "vars"))
  {
    hide FileFrom, Template;
    ItemIsFile(job, hosts, groups, 3);
    ItemIsFile(job, hosts, groups, 4);
    forall h | h in hosts
      ensures FileFrom(Template(job, hosts, groups), "/ssh/keys/" + h.name, h.name, FromSecret(h.keySecret), "ssh_key")
      ensures FileFrom(Template(job, hosts, groups), "/inventory/host_vars/" + h.ansibleName, h.name, FromConfigMap(h.name + "-vars"), "vars")
    {
      HostFilesInPlace(job, hosts, groups, h);
    }
    forall g | g in groups
      ensures FileFrom(Template(job, hosts, groups), "/inventory/group_vars/" + g.ansibleName, g.name, FromConfigMap(g.name + "-vars"), "vars")
    {
      GroupFilesInPlace(job, hosts, groups, g);
    }
  }

  // ---------- Directories and settings ----------

  /** The directory at `path` is this volume. */
  ghost predicate DirectoryFrom(t: PodTemplate, mounts: seq<Mount>, path: string, source: VolumeSource, items: seq<KeyToPath>, readOnly: bool) {
    exists m, v :: m in mounts && m.path == path && m.subPath == "" && m.readOnly == readOnly
      && v in t.volumes && v.name == m.volume && v.source == source && v.items == items
  }

  /** What the init container writes below `path` the runner finds there. */
  ghost predicate HandedOver(t: PodTemplate, path: string, volume: string) {
    exists a, b, v :: a in t.initMounts && b in t.runnerMounts && v in t.volumes
      && a.path == path && b.path == path && a.subPath == "" && b.subPath == "" && !a.readOnly && b.readOnly
      && a.volume == volume && b.volume == volume && v.name == volume && v.source == EmptyDir
  }

  lemma FirstThree(job: string, hosts: seq<Host>, groups: seq<Group>)
    ensures var t := Template(job, hosts, groups);
            && |t.volumes| >= 3 && |t.runnerMounts| >= 3 && |t.initMounts| == 3
            && t.volumes[..3] == VolumesOf(FixedItems(job)[..3]) && t.runnerMounts[..3] == MountsOf(FixedItems(job)[..3])
            && t.initMounts == InitMounts(job)
  {
    var items := Items(job, hosts, groups);
    assert items[..3] == FixedItems(job)[..3];
    hide Items;
  }

  lemma MountHandsOver(t: PodTemplate, item: Item, k: nat)
    requires k < |t.volumes| && k < |t.initMounts| && k < |t.runnerMounts| && SourceOf(item) == EmptyDir && SubPathOf(item) == ""
    requires t.volumes[k] == VolumeOf(item) && t.initMounts[k] == Writable(item) && t.runnerMounts[k] == MountOf(item)
    ensures HandedOver(t, PathOf(item), NameOf(item))
  {
    assert t.initMounts[k] in t.initMounts && t.runnerMounts[k] in t.runnerMounts && t.volumes[k] in t.volumes;
  }

  lemma MountsDirectory(t: PodTemplate, mounts: seq<Mount>, item: Item, k: nat)
    requires k < |t.volumes| && k < |mounts| && t.volumes[k] == VolumeOf(item) && mounts[k] == MountOf(item) && SubPathOf(item) == ""
    ensures DirectoryFrom(t, mounts, PathOf(item), SourceOf(item), ProjectionOf(item), true)
  {
    assert mounts[k] in mounts && t.volumes[k] in t.volumes;
  }

  /** Playbook and dependencies are handed over, and both containers see the
      configuration as files; the runner writes nowhere. */
  lemma DirectoriesInPlace(job: string, hosts: seq<Host>, groups: seq<Group>)
    ensures var t := Template(job, hosts, groups);
            var files := [KeyToPath("playbook.yml", "playbook.yml"), KeyToPath("requirements.yml", "requirements.yml")];
            && (exists a, b :: a != b && HandedOver(t, "/playbook", a) && HandedOver(t, "/deps", b))
            && DirectoryFrom(t, t.initMounts, "/config", FromConfigMap(job + "-job-config"), files, true)
            && DirectoryFrom(t, t.runnerMounts, "/config", FromConfigMap(job + "-job-config"), files, true)
            && (forall m :: m in t.runnerMounts ==> m.readOnly)
  {
    var t, config := Template(job, hosts, groups), RuntimeConfig(JobConfigName(job));
    FirstThree(job, hosts, groups);
    hide Items, DirectoryFrom, HandedOver;
    assert FixedItems(job)[..3] == [Playbooks, Dependencies, config];
    assert t.volumes[..3][0] == VolumeOf(Playbooks) && t.volumes[..3][1] == VolumeOf(Dependencies) && t.volumes[..3][2] == VolumeOf(config);
    assert t.runnerMounts[..3][0] == MountOf(Playbooks) && t.runnerMounts[..3][1] == MountOf(Dependencies) && t.runnerMounts[..3][2] == MountOf(config);
    MountHandsOver(t, Playbooks, 0);
    MountHandsOver(t, Dependencies, 1);
    MountsDirectory(t, t.initMounts, config, 2);
    MountsDirectory(t, t.runnerMounts, config, 2);
    assert NameOf(Playbooks) != NameOf(Dependencies);
  }

  /** The init container has the four settings of a git source, each under its own
      name, and no other variable. */
  lemma SettingsInPlace(job: string, hosts: seq<Host>, groups: seq<Group>, e: EnvVar)
    ensures e in Template(job, hosts, groups).initEnv <==>
            && e.name in {"OPERATOR_GIT_REPO_URL", "OPERATOR_GIT_REF", "OPERATOR_GIT_PLAYBOOK_PATH", "OPERATOR_GIT_REQUIREMENTS_PATH"}
            && e.key == e.name && e.configMap == job + "-job-config"
  {
    hide Items;
  }
}
