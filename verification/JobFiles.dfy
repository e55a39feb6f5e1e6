// The three ConfigMaps a reconcile job maintains: what they should contain and
// the methods that make them contain it.

module JobFiles {
  import opened Objects
  import opened ApiServer
  import opened Inventory
  import opened InventoryText
  import opened KnownHosts
  import opened PodTemplates

  type Data = map<string, string>

  // ---------- What the ConfigMaps should contain ----------

  ghost function InventoryData(hosts: map<string, Host>, groups: map<string, Group>): Option<Data> {
    var content := ContentOf(hosts, groups);
    if content.None? then None else Some(map[INVENTORY_KEY := Render(content.value)])
  }

  function KnownHostsData(hosts: seq<Host>, secrets: map<string, Secret>): Option<Data> {
    var text := KnownHostsText(hosts, secrets);
    if text.None? then None else Some(map[KNOWN_HOSTS_KEY := text.value])
  }

  function InlineData(p: Inline): Data {
    map[PLAYBOOK_KEY := p.playbook, REQUIREMENTS_KEY := p.requirements]
  }

  function GitData(p: Git): Data {
    map[GIT_URL_KEY := p.url, GIT_REF_KEY := p.gitRef,
        GIT_PLAYBOOK_KEY := p.playbookPath, GIT_REQUIREMENTS_KEY := p.requirementsPath]
  }

  /** An inline source wins over a git source; a playbook should have one. */
  function RuntimeData(p: Playbook): Option<Data> {
    if p.inline.Some? then Some(InlineData(p.inline.value))
    else if p.git.Some? then Some(GitData(p.git.value))
    else None
  }

  function PlaybookData(playbooks: map<string, Playbook>, name: string): Option<Data> {
    if name in playbooks then RuntimeData(playbooks[name]) else None
  }

  // ---------- Ownership by a reconcile job ----------

  /** Any owner reference of the right kind and name will do, whatever its uid. */
  predicate NamesJob(owners: seq<OwnerRef>, job: string) {
    exists o :: o in owners && o.owner.kind == JobKind && o.owner.name == job
  }

  predicate HasData(configMaps: map<string, ConfigMap>, name: string, job: string, data: Data) {
    name in configMaps && NamesJob(configMaps[name].owners, job) && configMaps[name].data == data
  }

  predicate Taken(configMaps: map<string, ConfigMap>, name: string, job: string) {
    name in configMaps && !NamesJob(configMaps[name].owners, job)
  }

  /** The ConfigMap with its whole data replaced, or a new one controlled by the job. */
  function WithData(configMaps: map<string, ConfigMap>, name: string, owner: Identity, data: Data): ConfigMap {
    ConfigMap(if name in configMaps then configMaps[name].owners else [OwnerRef(owner, true)], data)
  }

  /** Nothing was written, or the ConfigMap was, though it had other data and was not taken. */
  predicate DataWritten(s: State, name: string, owner: Identity, data: Data, t: State) {
    || t == s
    || (!Taken(s.configMaps, name, owner.name) && t == ConfigMapWritten(s, name, WithData(s.configMaps, name, owner, data)))
  }

  lemma WrittenHasData(configMaps: map<string, ConfigMap>, name: string, owner: Identity, data: Data)
    requires !Taken(configMaps, name, owner.name) && owner.kind == JobKind
    ensures NamesJob(WithData(configMaps, name, owner, data).owners, owner.name)
  {
    if name !in configMaps {
      assert OwnerRef(owner, true) in WithData(configMaps, name, owner, data).owners;
    }
  }

  method IsOwnedByReconcileJob(cm: ConfigMap, job: string) returns (owned: bool)
    ensures owned <==> NamesJob(cm.owners, job)
    ensures owned <==> exists o :: o in cm.owners && o.owner.kind == JobKind && o.owner.name == job
  {
    for i := 0 to |cm.owners|
      invariant forall j :: 0 <= j < i ==> !(cm.owners[j].owner.kind == JobKind && cm.owners[j].owner.name == job)
    {
      var ref := cm.owners[i];
      if ref.owner.kind == JobKind && ref.owner.name == job { return true; }
    }
    owned := false;
  }

  method EnsureConfigMapWithData(c: Cluster, name: string, data: Data, job: ReconcileJob) returns (err: Option<Error>)
    modifies c
    ensures old(c.calls) <= c.calls && c.statusWrites == old(c.statusWrites)
    ensures DataWritten(old(c.store), name, job.Id(), data, c.store)
    ensures err.None? ==> HasData(c.store.configMaps, name, job.name, data)
    ensures HasData(old(c.store).configMaps, name, job.name, data) ==> c.Untouched()
    ensures Taken(old(c.store).configMaps, name, job.name) ==> err.Some? && c.Untouched()
    ensures c.CleanSince(old(c.calls)) ==> err == IfTaken(old(c.store).configMaps, name, job.name)
  {
    hide NamesJob, ConfigMapWritten;
    var lookup := c.Fetch(c.store.configMaps, name);
    match lookup {
      case Failed(e) => err := Some(e);
      case Found(cm) =>
        var owned := IsOwnedByReconcileJob(cm, job.name);
        if !owned { return Some(NotOwned(name)); }
        err := None;
        if cm.data != data {
          ConfigMapStored(c.store, name, cm.(data := data));
          err := c.UpdateConfigMap(name, cm.(data := data));
        }
      case NotFound =>
        WrittenHasData(c.store.configMaps, name, job.Id(), data);
        var cm := ConfigMap([OwnerRef(job.Id(), true)], data);
        ConfigMapStored(c.store, name, cm);
        err := c.CreateConfigMap(name, cm);
    }
  }

  lemma ConfigMapStored(s: State, name: string, cm: ConfigMap)
    ensures ConfigMapWritten(s, name, cm).configMaps == s.configMaps[name := cm]
  {
  }

  // ---------- The three files of a job ----------

  ghost predicate InventoryDone(s: State, job: ReconcileJob) {
    var data := InventoryData(s.hosts, s.groups);
    data.Some? && HasData(s.configMaps, InventoryName(job.name), job.name, data.value)
  }

  ghost predicate KnownHostsDone(s: State, job: ReconcileJob)
    requires Lists(s.hostOrder, s.hosts)
  {
    var data := KnownHostsData(Listed(s.hosts, s.hostOrder), s.secrets);
    data.Some? && HasData(s.configMaps, KnownHostsName(job.name), job.name, data.value)
  }

  ghost predicate RuntimeDone(s: State, job: ReconcileJob) {
    var data := PlaybookData(s.playbooks, job.playbook);
    data.Some? && HasData(s.configMaps, JobConfigName(job.name), job.name, data.value)
  }

  /** The three ConfigMaps are the job's and hold exactly what the namespace asks for. */
  ghost predicate FilesDone(s: State, job: ReconcileJob)
    requires WellFormed(s)
  {
    InventoryDone(s, job) && KnownHostsDone(s, job) && RuntimeDone(s, job)
  }

  // ---------- What that says, key by key ----------

  /** The configuration of a playbook: an inline source as two files, whatever else
      is set; otherwise a git source as four settings. */
  predicate ConfigHolds(p: Playbook, data: Data) {
    match (p.inline, p.git)
    case (Some(i), _) =>
      && data.Keys == {"playbook.yml", "requirements.yml"}
      && data["playbook.yml"] == i.playbook && data["requirements.yml"] == i.requirements
    case (None, Some(g)) =>
      && data.Keys == {"OPERATOR_GIT_REPO_URL", "OPERATOR_GIT_REF", "OPERATOR_GIT_PLAYBOOK_PATH", "OPERATOR_GIT_REQUIREMENTS_PATH"}
      && data["OPERATOR_GIT_REPO_URL"] == g.url && data["OPERATOR_GIT_REF"] == g.gitRef
      && data["OPERATOR_GIT_PLAYBOOK_PATH"] == g.playbookPath && data["OPERATOR_GIT_REQUIREMENTS_PATH"] == g.requirementsPath
    case (None, None) => false
  }

  /** Some owner reference of the ConfigMap is to a reconcile job of this name. */
  predicate OwnedByJob(cm: ConfigMap, job: string) {
    exists o :: o in cm.owners && o.owner.kind == JobKind && o.owner.name == job
  }

  predicate StoresConfig(s: State, job: string, playbook: string) {
    var name := job + "-job-config";
    && playbook in s.playbooks && name in s.configMaps
    && OwnedByJob(s.configMaps[name], job) && ConfigHolds(s.playbooks[playbook], s.configMaps[name].data)
  }

  /** The inventory is the text of a content that describes the namespace. */
  ghost predicate StoresInventory(s: State, job: string) {
    var name := job + "-inventory";
    && name in s.configMaps && OwnedByJob(s.configMaps[name], job)
    && exists c :: IsDescribed(c, s.hosts, s.groups) && s.configMaps[name].data == map["inventory.yaml" := Render(c)]
  }

  ghost predicate StoresKnownHosts(s: State, job: string)
    requires Lists(s.hostOrder, s.hosts)
  {
    var name, text := job + "-known-hosts", KnownHostsText(Listed(s.hosts, s.hostOrder), s.secrets);
    && name in s.configMaps && OwnedByJob(s.configMaps[name], job)
    && text.Some? && s.configMaps[name].data == map["known_hosts" := text.value]
  }

  lemma GitKeysDiffer()
    ensures GIT_URL_KEY != GIT_REF_KEY && GIT_URL_KEY != GIT_PLAYBOOK_KEY && GIT_URL_KEY != GIT_REQUIREMENTS_KEY
    ensures GIT_REF_KEY != GIT_PLAYBOOK_KEY && GIT_REF_KEY != GIT_REQUIREMENTS_KEY && GIT_PLAYBOOK_KEY != GIT_REQUIREMENTS_KEY
  {
    assert GIT_URL_KEY[15] == 'P' && GIT_REF_KEY[15] == 'F' && GIT_REQUIREMENTS_KEY[15] == 'Q';
  }

  lemma RuntimeDataHolds(p: Playbook, data: Data)
    ensures RuntimeData(p) == Some(data) <==> ConfigHolds(p, data)
  {
    GitKeysDiffer();
    if p.inline.Some? {
      if ConfigHolds(p, data) { assert InlineData(p.inline.value) == data; }
    } else if p.git.Some? {
      if ConfigHolds(p, data) { assert GitData(p.git.value) == data; }
    }
  }

  lemma RuntimeDoneStores(s: State, job: ReconcileJob)
    ensures RuntimeDone(s, job) <==> StoresConfig(s, job.name, job.playbook)
  {
    if job.playbook in s.playbooks && JobConfigName(job.name) in s.configMaps {
      RuntimeDataHolds(s.playbooks[job.playbook], s.configMaps[JobConfigName(job.name)].data);
    }
    hide RuntimeData, ConfigHolds;
  }

  lemma InventoryDoneStores(s: State, job: ReconcileJob)
    requires HostsNamed(s.hosts) && InventoryDone(s, job)
    ensures StoresInventory(s, job.name)
  {
    hide IsDescribed, ContentOf, Render;
    ContentDescribes(s.hosts, s.groups);
  }

  lemma KnownHostsDoneStores(s: State, job: ReconcileJob)
    requires Lists(s.hostOrder, s.hosts)
    ensures KnownHostsDone(s, job) <==> StoresKnownHosts(s, job.name)
  {
    hide KnownHostsText, Lists;
  }

  function IfTaken(configMaps: map<string, ConfigMap>, name: string, job: string): Option<Error> {
    if Taken(configMaps, name, job) then Some(NotOwned(name)) else None
  }

  /** Why the inventory cannot be made, apart from failing calls. */
  ghost function InventoryProblem(s: State, job: ReconcileJob): Option<Error> {
    if !Privileged(s.hosts) then Some(NilPrivilege)
    else if InventoryData(s.hosts, s.groups).None? then Some(UnresolvedReference)
    else IfTaken(s.configMaps, InventoryName(job.name), job.name)
  }

  ghost function KnownHostsProblem(s: State, job: ReconcileJob): Option<Error>
    requires Lists(s.hostOrder, s.hosts)
  {
    if KnownHostsData(Listed(s.hosts, s.hostOrder), s.secrets).None? then Some(NoHostKeys)
    else IfTaken(s.configMaps, KnownHostsName(job.name), job.name)
  }

  function RuntimeProblem(s: State, job: ReconcileJob): Option<Error> {
    if job.playbook !in s.playbooks then Some(NoSuchObject)
    else if RuntimeData(s.playbooks[job.playbook]).None? then Some(NoPlaybookSource)
    else IfTaken(s.configMaps, JobConfigName(job.name), job.name)
  }

  /** The first thing that keeps the three ConfigMaps from being made: an input
      is missing, or a name is taken. */
  ghost function FilesProblem(s: State, job: ReconcileJob): Option<Error>
    requires WellFormed(s)
  {
    if InventoryProblem(s, job).Some? then InventoryProblem(s, job)
    else if KnownHostsProblem(s, job).Some? then KnownHostsProblem(s, job)
    else RuntimeProblem(s, job)
  }

  /** What the three ConfigMaps need, in the order in which it is looked for. */
  datatype Need = Privileges | References | InventoryFree | HostKeys | KnownHostsFree | PlaybookThere | SourceThere | ConfigFree

  function NeedRank(need: Need): nat {
    match need
    case Privileges => 0
    case References => 1
    case InventoryFree => 2
    case HostKeys => 3
    case KnownHostsFree => 4
    case PlaybookThere => 5
    case SourceThere => 6
    case ConfigFree => 7
  }

  predicate NameFree(s: State, name: string, job: string) {
    name in s.configMaps ==> OwnedByJob(s.configMaps[name], job)
  }

  ghost predicate JobMeets(s: State, job: ReconcileJob, need: Need) {
    match need
    case Privileges => forall h :: h in s.hosts ==> s.hosts[h].become.Some?
    case References => forall g :: g in s.groups ==>
      (forall m :: m in s.groups[g].groups ==> m in s.groups) && (forall h :: h in s.groups[g].hosts ==> h in s.hosts)
    case InventoryFree => NameFree(s, job.name + "-inventory", job.name)
    case HostKeys => forall h :: h in s.hosts && s.hosts[h].hostKeySecret in s.secrets ==> "host_keys" in s.secrets[s.hosts[h].hostKeySecret].data
    case KnownHostsFree => NameFree(s, job.name + "-known-hosts", job.name)
    case PlaybookThere => job.playbook in s.playbooks
    case SourceThere => job.playbook in s.playbooks ==> s.playbooks[job.playbook].inline.Some? || s.playbooks[job.playbook].git.Some?
    case ConfigFree => NameFree(s, job.name + "-job-config", job.name)
  }

  function ErrorFor(job: ReconcileJob, need: Need): Error {
    match need
    case Privileges => NilPrivilege
    case References => UnresolvedReference
    case InventoryFree => NotOwned(job.name + "-inventory")
    case HostKeys => NoHostKeys
    case KnownHostsFree => NotOwned(job.name + "-known-hosts")
    case PlaybookThere => NoSuchObject
    case SourceThere => NoPlaybookSource
    case ConfigFree => NotOwned(job.name + "-job-config")
  }

  ghost predicate MeetsAll(s: State, job: ReconcileJob) {
    forall need :: JobMeets(s, job, need)
  }

  /** The first need that is not met. */
  ghost predicate FirstNeed(s: State, job: ReconcileJob, need: Need) {
    !JobMeets(s, job, need) && forall earlier :: NeedRank(earlier) < NeedRank(need) ==> JobMeets(s, job, earlier)
  }

  lemma InventoryNeeds(s: State, job: ReconcileJob)
    ensures InventoryProblem(s, job) ==
            if !JobMeets(s, job, Privileges) then Some(NilPrivilege)
            else if !JobMeets(s, job, References) then Some(UnresolvedReference)
            else if !JobMeets(s, job, InventoryFree) then Some(NotOwned(job.name + "-inventory")) else None
  {
    assert Privileged(s.hosts) <==> JobMeets(s, job, Privileges);
    assert AllResolve(s.hosts, s.groups) <==> JobMeets(s, job, References);
    assert Taken(s.configMaps, InventoryName(job.name), job.name) <==> !JobMeets(s, job, InventoryFree);
    hide JobMeets, Privileged, AllResolve, Taken, Render, HostEntries, GroupEntries;
  }

  lemma KnownHostsNeeds(s: State, job: ReconcileJob)
    requires Lists(s.hostOrder, s.hosts)
    ensures KnownHostsProblem(s, job) ==
            if !JobMeets(s, job, HostKeys) then Some(NoHostKeys)
            else if !JobMeets(s, job, KnownHostsFree) then Some(NotOwned(job.name + "-known-hosts")) else None
  {
    hide KnownHostsText;
    var hosts := Listed(s.hosts, s.hostOrder);
    KnownHostsExists(hosts, s.secrets);
    forall h ensures h in hosts <==> exists n :: n in s.hosts && s.hosts[n] == h {
      if n :| n in s.hosts && s.hosts[n] == h {
        var i :| 0 <= i < |s.hostOrder| && s.hostOrder[i] == n;
        assert hosts[i] == h;
      }
    }
  }

  lemma RuntimeNeeds(s: State, job: ReconcileJob)
    ensures RuntimeProblem(s, job) ==
            if !JobMeets(s, job, PlaybookThere) then Some(NoSuchObject)
            else if !JobMeets(s, job, SourceThere) then Some(NoPlaybookSource)
            else if !JobMeets(s, job, ConfigFree) then Some(NotOwned(job.name + "-job-config")) else None
  {
  }

  lemma ProblemOf(s: State, job: ReconcileJob, need: Need)
    requires WellFormed(s) && FirstNeed(s, job, need)
    ensures FilesProblem(s, job) == Some(ErrorFor(job, need))
  {
    InventoryNeeds(s, job);
    KnownHostsNeeds(s, job);
    RuntimeNeeds(s, job);
    RanksInOrder();
    hide InventoryProblem, KnownHostsProblem, RuntimeProblem, JobMeets, WellFormed, NeedRank;
  }

  lemma NeedsSuffice(s: State, job: ReconcileJob)
    requires WellFormed(s) && MeetsAll(s, job)
    ensures FilesProblem(s, job).None?
  {
    InventoryNeeds(s, job);
    KnownHostsNeeds(s, job);
    RuntimeNeeds(s, job);
    hide InventoryProblem, KnownHostsProblem, RuntimeProblem, JobMeets, WellFormed;
  }

  /** What stands in the way is the first unmet need, and nothing if there is none. */
  lemma ProblemIsFirstNeed(s: State, job: ReconcileJob)
    requires WellFormed(s)
    ensures FilesProblem(s, job).None? <==> MeetsAll(s, job)
    ensures forall need :: FirstNeed(s, job, need) ==> FilesProblem(s, job) == Some(ErrorFor(job, need))
    ensures FilesProblem(s, job).Some? ==> exists need :: FirstNeed(s, job, need)
  {
    hide FilesProblem, JobMeets, WellFormed, FirstNeed, ErrorFor;
    forall need | FirstNeed(s, job, need) ensures FilesProblem(s, job) == Some(ErrorFor(job, need)) { ProblemOf(s, job, need); }
    if need :| !JobMeets(s, job, need) {
      var first := FirstOfNeeds(s, job, need);
    } else {
      NeedsSuffice(s, job);
    }
  }

  lemma {:induction false} FirstOfNeeds(s: State, job: ReconcileJob, need: Need) returns (first: Need)
    requires !JobMeets(s, job, need)
    ensures FirstNeed(s, job, first)
    decreases NeedRank(need)
  {
    hide JobMeets;
    if earlier :| NeedRank(earlier) < NeedRank(need) && !JobMeets(s, job, earlier) {
      first := FirstOfNeeds(s, job, earlier);
    } else {
      first := need;
    }
  }

  lemma RanksInOrder()
    ensures NeedRank(Privileges) < NeedRank(References) < NeedRank(InventoryFree) < NeedRank(HostKeys) < NeedRank(KnownHostsFree)
    ensures NeedRank(KnownHostsFree) < NeedRank(PlaybookThere) < NeedRank(SourceThere) < NeedRank(ConfigFree)
  {
  }

  /** Only the job's own ConfigMaps were written, and each keeps its owners. */
  ghost predicate OnlyOwnMaps(before: map<string, ConfigMap>, owner: Identity, after: map<string, ConfigMap>) {
    && (forall n :: n !in FileNames(owner.name) ==> Get(after, n) == Get(before, n))
    && (forall n :: n in before && NamesJob(before[n].owners, owner.name) ==> n in after && after[n].owners == before[n].owners)
    && (forall n :: n in before && !NamesJob(before[n].owners, owner.name) ==> n in after && after[n] == before[n])
    && (forall n :: n in after && n !in before ==> after[n].owners == [OwnerRef(owner, true)])
  }

  function FileNames(job: string): set<string> {
    {InventoryName(job), KnownHostsName(job), JobConfigName(job)}
  }

  ghost predicate OnlyFiles(s: State, owner: Identity, t: State) {
    && t == s.(configMaps := t.configMaps, groupQueue := t.groupQueue, jobQueue := t.jobQueue)
    && s.groupQueue <= t.groupQueue && s.jobQueue <= t.jobQueue
    && OnlyOwnMaps(s.configMaps, owner, t.configMaps)
    && MapWakes(s, owner.name, t)
  }

  /** Whom writes to the ConfigMaps may have woken, or may let wake later. */
  ghost predicate MapWakes(s: State, owner: string, t: State) {
    && t.jobQueue <= s.jobQueue + MapWatchers(s.configMaps) + {owner}
    && MapWatchers(t.configMaps) <= MapWatchers(s.configMaps) + {owner}
  }

  lemma FileNamesDiffer(job: string)
    ensures InventoryName(job) != KnownHostsName(job)
    ensures InventoryName(job) != JobConfigName(job)
    ensures KnownHostsName(job) != JobConfigName(job)
  {
    assert KnownHostsName(job)[|job| + 2] == 'n' && JobConfigName(job)[|job| + 2] == 'o';
  }

  lemma MapWrite(before: map<string, ConfigMap>, name: string, owner: Identity, data: Data)
    requires !Taken(before, name, owner.name) && name in FileNames(owner.name)
    ensures OnlyOwnMaps(before, owner, before[name := WithData(before, name, owner, data)])
    ensures SameBut(before, name, before[name := WithData(before, name, owner, data)])
  {
    hide NamesJob, FileNames;
  }

  lemma WriteIsOnlyFiles(s: State, name: string, owner: Identity, data: Data, t: State)
    requires DataWritten(s, name, owner, data, t) && name in FileNames(owner.name)
    ensures OnlyFiles(s, owner, t) && SameBut(s.configMaps, name, t.configMaps)
  {
    hide FileNames, OnlyOwnMaps, SameBut, MapWakes;
    NoFilesWritten(s, owner);
    SameButReflexive(s.configMaps, name);
    if t != s {
      MapWrite(s.configMaps, name, owner, data);
      WriteWakes(s, name, owner, data);
    }
  }

  lemma WriteWakes(s: State, name: string, owner: Identity, data: Data)
    ensures MapWakes(s, owner.name, ConfigMapWritten(s, name, WithData(s.configMaps, name, owner, data)))
  {
    var cm := WithData(s.configMaps, name, owner, data);
    var t := ConfigMapWritten(s, name, cm);
    if name in s.configMaps {
      assert ControllingJob(cm) == ControllingJob(s.configMaps[name]);
      assert ControllingJob(cm).Some? ==> ControllingJob(cm).value in MapWatchers(s.configMaps);
    } else {
      assert ControllingJob(cm).Some? ==> ControllingJob(cm).value == owner.name;
    }
    assert Woken(Get(s.configMaps, name), JobKind) <= MapWatchers(s.configMaps);
    assert Woken(Some(cm), JobKind) <= MapWatchers(s.configMaps) + {owner.name};
    forall w | w in MapWatchers(t.configMaps) ensures w in MapWatchers(s.configMaps) + {owner.name} {
      var n :| n in t.configMaps && ControllingJob(t.configMaps[n]) == Some(w);
      if n != name { assert t.configMaps[n] == s.configMaps[n]; }
    }
  }

  ghost predicate SameBut(before: map<string, ConfigMap>, name: string, after: map<string, ConfigMap>) {
    forall n :: n != name ==> Get(after, n) == Get(before, n)
  }

  lemma SameButReflexive(configMaps: map<string, ConfigMap>, name: string)
    ensures SameBut(configMaps, name, configMaps)
  {
  }

  lemma OnlyFilesTransitive(s: State, owner: Identity, t: State, u: State)
    requires OnlyFiles(s, owner, t) && OnlyFiles(t, owner, u) && owner.kind == JobKind
    ensures OnlyFiles(s, owner, u)
  {
    hide FileNames;
    OnlyOwnMapsTransitive(s.configMaps, owner, t.configMaps, u.configMaps);
  }

  lemma OnlyOwnMapsTransitive(a: map<string, ConfigMap>, owner: Identity, b: map<string, ConfigMap>, c: map<string, ConfigMap>)
    requires OnlyOwnMaps(a, owner, b) && OnlyOwnMaps(b, owner, c) && owner.kind == JobKind
    ensures OnlyOwnMaps(a, owner, c)
  {
    hide FileNames;
    assert NamesJob([OwnerRef(owner, true)], owner.name) by {
      assert OwnerRef(owner, true) in [OwnerRef(owner, true)];
    }
    hide NamesJob;
  }

  lemma NoFilesWritten(s: State, owner: Identity)
    ensures OnlyFiles(s, owner, s)
  {
    hide NamesJob, FileNames;
  }

  // ---------- Making them so ----------

  /** A listing of named objects is a faithful copy of the map. */
  lemma ListedEntry<T(!new)>(m: map<string, T>, order: seq<string>, name: T -> string, n: string)
    requires Lists(order, m) && forall n :: n in m ==> name(m[n]) == n
    ensures Get(ByName(Listed(m, order), name), n) == Get(m, n)
  {
    var listed := Listed(m, order);
    var built := ByName(listed, name);
    if n in m {
      var i :| 0 <= i < |order| && order[i] == n;
      assert listed[i] in listed;
      ByNameMembers(listed, name, n, m[n]);
    }
    if n in built { ByNameMembers(listed, name, n, built[n]); }
  }

  lemma ListedByName<T(!new)>(m: map<string, T>, order: seq<string>, name: T -> string)
    requires Lists(order, m) && forall n :: n in m ==> name(m[n]) == n
    ensures ByName(Listed(m, order), name) == m
  {
    hide ByName, Listed;
    var built := ByName(Listed(m, order), name);
    forall n ensures Get(built, n) == Get(m, n) { ListedEntry(m, order, name, n); }
    hide Lists;
    SameEntries(built, m);
  }

  lemma SameEntries<T>(a: map<string, T>, b: map<string, T>)
    requires forall n :: Get(a, n) == Get(b, n)
    ensures a == b
  {
    assert forall n :: n in a <==> Get(a, n).Some?;
    assert forall n :: n in b <==> Get(b, n).Some?;
    assert forall n :: n in a ==> Get(a, n) == Some(a[n]) && Get(b, n) == Some(b[n]);
  }

  /** Hosts and groups are listed, put into maps and made into an inventory. */
  method ConstructInventory(c: Cluster) returns (err: Option<Error>, r: Construction)
    requires WellFormed(c.store)
    modifies c`calls
    ensures old(c.calls) < c.calls
    ensures err.None? ==> r == ConstructionOf(c.store.hosts, c.store.groups)
    ensures c.CleanSince(old(c.calls)) ==> err.None?
    ensures c.fault(old(c.calls)).Some? ==> err == c.fault(old(c.calls)) && c.calls == old(c.calls) + 1
  {
    hide ConstructionOf;
    r := Unresolved;
    var hosts := c.List(c.store.hosts, c.store.hostOrder);
    if hosts.Failed? { return Some(hosts.err), r; }
    var hostMap := MapByName(hosts.value, HOST_NAME);
    var groups := c.List(c.store.groups, c.store.groupOrder);
    if groups.Failed? { return Some(groups.err), r; }
    var groupMap := MapByName(groups.value, GROUP_NAME);
    ListedByName(c.store.hosts, c.store.hostOrder, HOST_NAME);
    ListedByName(c.store.groups, c.store.groupOrder, GROUP_NAME);
    r := ConstructInventoryContent(hostMap, groupMap);
    err := None;
  }

  method EnsureInventoryConfigMap(c: Cluster, job: ReconcileJob) returns (err: Option<Error>, panicked: bool)
    requires WellFormed(c.store)
    modifies c
    ensures panicked ==> err == Some(NilPrivilege) && !Privileged(c.store.hosts) && c.Untouched()
    ensures err == Some(NilPrivilege) && c.CleanSince(old(c.calls)) ==> panicked
    ensures c.fault(old(c.calls)).Some? ==> err == c.fault(old(c.calls)) && !panicked && c.calls == old(c.calls) + 1 && c.Untouched()
    ensures old(c.calls) <= c.calls && c.statusWrites == old(c.statusWrites)
    ensures OnlyFiles(old(c.store), job.Id(), c.store)
    ensures SameBut(old(c.store).configMaps, InventoryName(job.name), c.store.configMaps)
    ensures err.None? ==> InventoryDone(c.store, job)
    ensures err.None? ==> StoresInventory(c.store, job.name)
    ensures InventoryDone(old(c.store), job) ==> c.Untouched()
    ensures c.CleanSince(old(c.calls)) ==> err == InventoryProblem(old(c.store), job)
  {
    hide StoresInventory, HasData, Taken, DataWritten, OnlyFiles, Render, ContentOf, Privileged, HostsNamed, GroupsNamed, JobsNamed, Lists;
    ghost var s := c.store;
    NoFilesWritten(s, job.Id());
    SameButReflexive(s.configMaps, InventoryName(job.name));
    panicked := false;
    var construction;
    err, construction := ConstructInventory(c);
    if err.Some? { return; }
    if construction.NilDereference? { return Some(NilPrivilege), true; }
    if construction.Unresolved? { return Some(UnresolvedReference), false; }
    var data := map[INVENTORY_KEY := Render(construction.content)];
    err := EnsureConfigMapWithData(c, InventoryName(job.name), data, job);
    WriteIsOnlyFiles(s, InventoryName(job.name), job.Id(), data, c.store);
    OnlyFilesKeepInputs(s, job.Id(), c.store);
    if err.None? { InventoryDoneStores(c.store, job); }
  }

  lemma OnlyFilesKeepInputs(s: State, owner: Identity, t: State)
    requires OnlyFiles(s, owner, t)
    ensures t.hosts == s.hosts && t.hostOrder == s.hostOrder && t.groups == s.groups && t.groupOrder == s.groupOrder
    ensures t.playbooks == s.playbooks && t.jobs == s.jobs && t.secrets == s.secrets && t.cronJobs == s.cronJobs
    ensures t.runs == s.runs
    ensures WellFormed(s) ==> WellFormed(t)
  {
  }

  /** The known-hosts text, host by host; a secret that is absent adds nothing. */
  method KnownHostsForReconcileJob(c: Cluster, hosts: seq<Host>) returns (err: Option<Error>, parts: seq<string>)
    modifies c`calls
    ensures old(c.calls) <= c.calls
    ensures err.None? ==> Blocks(hosts, c.store.secrets) == Some(parts)
    ensures c.CleanSince(old(c.calls)) ==> err == if Blocks(hosts, c.store.secrets).Some? then None else Some(NoHostKeys)
  {
    hide HostBlock;
    parts := [];
    ghost var secrets := c.store.secrets;
    for i := 0 to |hosts|
      invariant old(c.calls) <= c.calls
      invariant Blocks(hosts[..i], secrets) == Some(parts)
    {
      assert hosts[..i + 1][..i] == hosts[..i];
      var lookup := c.Fetch(c.store.secrets, hosts[i].hostKeySecret);
      match lookup {
        case Failed(e) => return Some(e), [];
        case NotFound =>
        case Found(secret) =>
          if HOST_KEYS_KEY !in secret.data {
            BlocksNeedEvery(hosts, secrets, i);
            return Some(NoHostKeys), [];
          }
          var text := LinesForSecret(hosts[i].address, secret.data[HOST_KEYS_KEY]);
          if text != "" { parts := parts + [text]; }
      }
    }
    assert hosts[..|hosts|] == hosts;
    err := None;
  }

  lemma {:induction false} BlocksNeedEvery(hosts: seq<Host>, secrets: map<string, Secret>, i: nat)
    requires i < |hosts| && BlockFor(hosts[i], secrets).None?
    ensures Blocks(hosts, secrets).None?
  {
    if i < |hosts| - 1 { BlocksNeedEvery(hosts[..|hosts| - 1], secrets, i); }
  }

  method Join(parts: seq<string>) returns (text: string)
    ensures text == JoinLines(parts)
  {
    if parts == [] { return ""; }
    text := parts[|parts| - 1];
    var i := |parts| - 1;
    while i > 0
      invariant 0 <= i < |parts| && text == JoinLines(parts[i..])
    {
      i := i - 1;
      assert parts[i..][1..] == parts[i + 1..];
      text := parts[i] + "\n" + text;
    }
    assert parts[0..] == parts;
  }

  method EnsureKnownHostsConfigMap(c: Cluster, job: ReconcileJob) returns (err: Option<Error>)
    requires WellFormed(c.store)
    modifies c
    ensures old(c.calls) <= c.calls && c.statusWrites == old(c.statusWrites)
    ensures OnlyFiles(old(c.store), job.Id(), c.store)
    ensures SameBut(old(c.store).configMaps, KnownHostsName(job.name), c.store.configMaps)
    ensures err.None? ==> KnownHostsDone(c.store, job)
    ensures err.None? ==> Lists(c.store.hostOrder, c.store.hosts) && StoresKnownHosts(c.store, job.name)
    ensures KnownHostsDone(old(c.store), job) ==> c.Untouched()
    ensures c.CleanSince(old(c.calls)) ==> err == KnownHostsProblem(old(c.store), job)
  {
    hide StoresKnownHosts, HasData, Taken, DataWritten, OnlyFiles, OnlyOwnMaps, Blocks, JoinLines;
    ghost var s := c.store;
    NoFilesWritten(s, job.Id());
    SameButReflexive(s.configMaps, KnownHostsName(job.name));
    var hosts := c.List(c.store.hosts, c.store.hostOrder);
    if hosts.Failed? { return Some(hosts.err); }
    var parts;
    err, parts := KnownHostsForReconcileJob(c, hosts.value);
    if err.Some? { return; }
    var text := Join(parts);
    var data := map[KNOWN_HOSTS_KEY := text];
    err := EnsureConfigMapWithData(c, KnownHostsName(job.name), data, job);
    WriteIsOnlyFiles(s, KnownHostsName(job.name), job.Id(), data, c.store);
    OnlyFilesKeepInputs(s, job.Id(), c.store);
    if err.None? { KnownHostsDoneStores(c.store, job); }
  }

  method EnsureRuntimeConfigMap(c: Cluster, job: ReconcileJob) returns (err: Option<Error>)
    requires WellFormed(c.store)
    modifies c
    ensures old(c.calls) <= c.calls && c.statusWrites == old(c.statusWrites)
    ensures OnlyFiles(old(c.store), job.Id(), c.store)
    ensures SameBut(old(c.store).configMaps, JobConfigName(job.name), c.store.configMaps)
    ensures err.None? ==> RuntimeDone(c.store, job)
    ensures err.None? ==> StoresConfig(c.store, job.name, job.playbook)
    ensures RuntimeDone(old(c.store), job) ==> c.Untouched()
    ensures c.CleanSince(old(c.calls)) ==> err == RuntimeProblem(old(c.store), job)
    ensures c.CleanSince(old(c.calls)) && job.playbook !in old(c.store).playbooks ==> err == Some(NoSuchObject)
    ensures c.CleanSince(old(c.calls)) && job.playbook in old(c.store).playbooks && old(c.store).playbooks[job.playbook] == Playbook(None, None) ==>
              err == Some(NoPlaybookSource)
  {
    hide HasData, Taken, DataWritten, OnlyFiles, OnlyOwnMaps, StoresConfig;
    ghost var s := c.store;
    NoFilesWritten(s, job.Id());
    SameButReflexive(s.configMaps, JobConfigName(job.name));
    var playbook: Playbook;
    var lookup := c.Fetch(c.store.playbooks, job.playbook);
    match lookup {
      case Failed(e) => return Some(e);
      case NotFound => return Some(NoSuchObject);
      case Found(found) => playbook := found;
    }
    var data: Data;
    if playbook.inline.Some? {
      var p := playbook.inline.value;
      data := map[PLAYBOOK_KEY := p.playbook, REQUIREMENTS_KEY := p.requirements];
    } else if playbook.git.Some? {
      var p := playbook.git.value;
      data := map[GIT_URL_KEY := p.url, GIT_REF_KEY := p.gitRef,
                  GIT_PLAYBOOK_KEY := p.playbookPath, GIT_REQUIREMENTS_KEY := p.requirementsPath];
    } else {
      return Some(NoPlaybookSource);
    }
    err := EnsureConfigMapWithData(c, JobConfigName(job.name), data, job);
    WriteIsOnlyFiles(s, JobConfigName(job.name), job.Id(), data, c.store);
    OnlyFilesKeepInputs(s, job.Id(), c.store);
    RuntimeDoneStores(c.store, job);
  }

  /** The three in the order of the source, stopping at the first error. */
  method EnsureFiles(c: Cluster, job: ReconcileJob) returns (err: Option<Error>, panicked: bool)
    requires WellFormed(c.store)
    modifies c
    ensures panicked ==> err == Some(NilPrivilege) && !Privileged(c.store.hosts) && c.Untouched()
    ensures err == Some(NilPrivilege) && c.CleanSince(old(c.calls)) ==> panicked
    ensures c.fault(old(c.calls)).Some? ==> err == c.fault(old(c.calls)) && !panicked && c.calls == old(c.calls) + 1 && c.Untouched()
    ensures old(c.calls) <= c.calls && c.statusWrites == old(c.statusWrites)
    ensures OnlyFiles(old(c.store), job.Id(), c.store) && WellFormed(c.store)
    ensures err.None? ==> FilesDone(c.store, job)
    ensures FilesDone(old(c.store), job) ==> c.Untouched()
    ensures c.CleanSince(old(c.calls)) ==> err == FilesProblem(old(c.store), job)
  {
    hide HasData, Taken, OnlyFiles, OnlyOwnMaps, InventoryData, KnownHostsData, PlaybookData, WellFormed, SameBut;
    hide StoresInventory, StoresKnownHosts, StoresConfig;
    FileNamesDiffer(job.name);
    ghost var s := c.store;
    err, panicked := EnsureInventoryConfigMap(c, job);
    OnlyFilesKeepInputs(s, job.Id(), c.store);
    if err.Some? { return; }
    ghost var t := c.store;
    UnwrittenMap(s.configMaps, InventoryName(job.name), t.configMaps, KnownHostsName(job.name), job.name);
    UnwrittenMap(s.configMaps, InventoryName(job.name), t.configMaps, JobConfigName(job.name), job.name);
    err := EnsureKnownHostsConfigMap(c, job);
    OnlyFilesKeepInputs(t, job.Id(), c.store);
    OnlyFilesTransitive(s, job.Id(), t, c.store);
    if err.Some? { return; }
    ghost var u := c.store;
    UnwrittenMap(t.configMaps, KnownHostsName(job.name), u.configMaps, InventoryName(job.name), job.name);
    UnwrittenMap(t.configMaps, KnownHostsName(job.name), u.configMaps, JobConfigName(job.name), job.name);
    err := EnsureRuntimeConfigMap(c, job);
    OnlyFilesKeepInputs(u, job.Id(), c.store);
    OnlyFilesTransitive(s, job.Id(), u, c.store);
    UnwrittenMap(u.configMaps, JobConfigName(job.name), c.store.configMaps, InventoryName(job.name), job.name);
    UnwrittenMap(u.configMaps, JobConfigName(job.name), c.store.configMaps, KnownHostsName(job.name), job.name);
  }

  lemma UnwrittenMap(before: map<string, ConfigMap>, written: string, after: map<string, ConfigMap>, n: string, job: string)
    requires SameBut(before, written, after) && n != written
    ensures Taken(after, n, job) == Taken(before, n, job)
    ensures forall data :: HasData(after, n, job, data) == HasData(before, n, job, data)
  {
    hide NamesJob;
    assert Get(after, n) == Get(before, n);
  }

  lemma InventoryNeedsPrivilege(hosts: map<string, Host>, groups: map<string, Group>)
    ensures InventoryData(hosts, groups).Some? ==> Privileged(hosts)
  {
  }

  /** If the three have been made, nothing stood in the way. */
  lemma MadeMeansPossible(s: State, job: ReconcileJob, t: State, job': ReconcileJob)
    requires WellFormed(s) && WellFormed(t) && OnlyOwnMaps(s.configMaps, job.Id(), t.configMaps)
    requires t.hosts == s.hosts && t.hostOrder == s.hostOrder && t.groups == s.groups && t.playbooks == s.playbooks && t.secrets == s.secrets
    requires job'.name == job.name && job'.playbook == job.playbook
    requires FilesDone(t, job')
    ensures FilesProblem(s, job).None?
  {
    InventoryNeedsPrivilege(t.hosts, t.groups);
    hide InventoryData, Privileged, KnownHostsData, NamesJob, FileNames, WellFormed;
  }

  /** Neither source of a playbook leaves a key of the other behind. */
  lemma SourcesDisjoint(inline: Inline, git: Git)
    ensures InlineData(inline).Keys !! GitData(git).Keys
    ensures InlineData(inline) != GitData(git)
  {
    assert PLAYBOOK_KEY in InlineData(inline);
  }
}
