// What a pod started for an up-to-date job finds in its files and its
// environment: the hosts and groups of the namespace, each host's own key and
// variables, and the playbook's source.

module RunnerView {
  import opened Objects
  import opened ApiServer
  import opened Inventory
  import opened InventoryText
  import opened PodTemplates
  import opened KnownHosts
  import opened JobFiles
  import opened JobController
  import opened Operator
  import opened OperatorJobs

  // ---------- Files and settings of a container ----------

  function ValueOf(s: State, source: VolumeSource, key: string): Option<string> {
    match source
    case EmptyDir => None
    case FromSecret(n) => if n in s.secrets then Get(s.secrets[n].data, key) else None
    case FromConfigMap(n) => if n in s.configMaps then Get(s.configMaps[n].data, key) else None
  }

  /** A projected file is inside a mounted directory, or is what is mounted. */
  predicate IsAt(m: Mount, item: KeyToPath, path: string) {
    if m.subPath == "" then path == m.path + "/" + item.path else item.path == m.subPath && path == m.path
  }

  /** A container with these mounts finds a file with this text. */
  ghost predicate Finds(s: State, t: PodTemplate, mounts: seq<Mount>, path: string, text: string) {
    exists m, v, item :: m in mounts && v in t.volumes && v.name == m.volume && item in v.items
      && IsAt(m, item, path) && ValueOf(s, v.source, item.key) == Some(text)
  }

  /** The init container has an environment variable with this value. */
  ghost predicate IsSet(s: State, t: PodTemplate, name: string, text: string) {
    exists e :: e in t.initEnv && e.name == name && ValueOf(s, FromConfigMap(e.configMap), e.key) == Some(text)
  }

  lemma FileFound(s: State, t: PodTemplate, path: string, file: string, source: VolumeSource, key: string)
    requires FileFrom(t, path, file, source, key) && file != ""
    ensures forall text :: ValueOf(s, source, key) == Some(text) ==> Finds(s, t, t.runnerMounts, path, text)
  {
    var m, v :| m in t.runnerMounts && m.path == path && m.subPath == file && v in t.volumes && v.name == m.volume
      && v.source == source && v.items == [KeyToPath(key, file)];
    hide ValueOf;
    forall text | ValueOf(s, source, key) == Some(text) ensures Finds(s, t, t.runnerMounts, path, text) {
      assert v.items[0] in v.items && IsAt(m, v.items[0], path);
    }
  }

  lemma FileInDirectory(s: State, t: PodTemplate, mounts: seq<Mount>, dir: string, source: VolumeSource, items: seq<KeyToPath>, item: KeyToPath)
    requires DirectoryFrom(t, mounts, dir, source, items, true) && item in items
    ensures forall text :: ValueOf(s, source, item.key) == Some(text) ==> Finds(s, t, mounts, dir + "/" + item.path, text)
  {
    var m, v :| m in mounts && m.path == dir && m.subPath == "" && v in t.volumes && v.name == m.volume && v.source == source && v.items == items;
    hide ValueOf;
    forall text | ValueOf(s, source, item.key) == Some(text) ensures Finds(s, t, mounts, dir + "/" + item.path, text) {
      assert IsAt(m, item, dir + "/" + item.path);
    }
  }

  // ---------- The inventory and what goes with it ----------

  function TemplateIn(s: State, name: string): PodTemplate
    requires Lists(s.hostOrder, s.hosts) && Lists(s.groupOrder, s.groups)
  {
    Template(name, Listed(s.hosts, s.hostOrder), Listed(s.groups, s.groupOrder))
  }

  /** The host the entry stands for: at the key path the inventory prints for it is
      that host's private key, and at its name its variables. */
  ghost predicate HostSeen(s: State, t: PodTemplate, e: ContentHost, h: string) {
    && h in s.hosts && Describes(e, h, s.hosts[h])
    && (forall key :: ValueOf(s, FromSecret(s.hosts[h].keySecret), "ssh_key") == Some(key) ==>
          Finds(s, t, t.runnerMounts, "/ssh/keys/" + e.kubernetesName, key))
    && (forall vars :: ValueOf(s, FromConfigMap(h + "-vars"), "vars") == Some(vars) ==>
          Finds(s, t, t.runnerMounts, "/inventory/host_vars/" + e.inventoryName, vars))
  }

  ghost predicate GroupSeen(s: State, t: PodTemplate, x: ContentGroup, g: string) {
    && g in s.groups && DescribesGroup(x, s.groups[g], s.hosts, s.groups)
    && (forall vars :: ValueOf(s, FromConfigMap(g + "-vars"), "vars") == Some(vars) ==>
          Finds(s, t, t.runnerMounts, "/inventory/group_vars/" + x.name, vars))
  }

  lemma IsListed<T>(m: map<string, T>, order: seq<string>, n: string)
    requires Lists(order, m) && n in m
    ensures m[n] in Listed(m, order)
  {
    var i :| 0 <= i < |order| && order[i] == n;
    assert Listed(m, order)[i] == m[n];
  }

  lemma HostIsSeen(s: State, name: string, c: Content, e: ContentHost) returns (h: string)
    requires WellFormed(s) && IsDescribed(c, s.hosts, s.groups) && e in c.hosts && e.kubernetesName != ""
    ensures HostSeen(s, TemplateIn(s, name), e, h)
  {
    h := DescribedHost(c, s.hosts, s.groups, e);
    assert s.hosts[h].name == h;
    hide WellFormed, IsDescribed, FileFrom, Finds, Template, ValueOf;
    IsListed(s.hosts, s.hostOrder, h);
    var hosts, groups := Listed(s.hosts, s.hostOrder), Listed(s.groups, s.groupOrder);
    hide Listed;
    HostFilesInPlace(name, hosts, groups, s.hosts[h]);
    FileFound(s, Template(name, hosts, groups), "/ssh/keys/" + h, h, FromSecret(s.hosts[h].keySecret), "ssh_key");
    FileFound(s, Template(name, hosts, groups), "/inventory/host_vars/" + s.hosts[h].ansibleName, h, FromConfigMap(h + "-vars"), "vars");
  }

  lemma GroupIsSeen(s: State, name: string, c: Content, x: ContentGroup) returns (g: string)
    requires WellFormed(s) && IsDescribed(c, s.hosts, s.groups) && x in c.groups && "" !in s.groups
    ensures GroupSeen(s, TemplateIn(s, name), x, g)
  {
    g := DescribedGroup(c, s.hosts, s.groups, x);
    assert s.groups[g].name == g && g != "" && x.name == s.groups[g].ansibleName;
    hide WellFormed, IsDescribed, FileFrom, Finds, Template, ValueOf, DescribesGroup;
    IsListed(s.groups, s.groupOrder, g);
    var hosts, groups := Listed(s.hosts, s.hostOrder), Listed(s.groups, s.groupOrder);
    hide Listed;
    GroupFilesInPlace(name, hosts, groups, s.groups[g]);
    FileFound(s, Template(name, hosts, groups), "/inventory/group_vars/" + s.groups[g].ansibleName, g, FromConfigMap(g + "-vars"), "vars");
  }

  /** The inventory file is the text of this content, which describes the namespace;
      it can be read back, and everything it points to is where it says. */
  ghost predicate InventorySeen(s: State, t: PodTemplate, c: Content) {
    && IsDescribed(c, s.hosts, s.groups)
    && Finds(s, t, t.runnerMounts, "/inventory/hosts.yaml", Render(c))
    && (Patterns(c) ==> ReadInventory(Render(c)) == Some(c))
    && (forall e :: e in c.hosts ==> exists h :: HostSeen(s, t, e, h))
    && (forall x :: x in c.groups ==> exists g :: GroupSeen(s, t, x, g))
  }

  lemma ServedInventory(s: State, name: string) returns (c: Content)
    requires WellFormed(s) && Serves(s, name)
    ensures IsDescribed(c, s.hosts, s.groups) && ValueOf(s, FromConfigMap(name + "-inventory"), "inventory.yaml") == Some(Render(c))
  {
    hide WellFormed, IsDescribed, Render, StoresConfig, Template, OwnedByJob;
    c :| IsDescribed(c, s.hosts, s.groups) && s.configMaps[name + "-inventory"].data == map["inventory.yaml" := Render(c)];
  }

  lemma ReadsBack(c: Content)
    ensures Patterns(c) ==> ReadInventory(Render(c)) == Some(c)
  {
    hide Patterns, ReadInventory, Render;
    if Patterns(c) { InventoryRoundTrip(c); }
  }

  lemma EntriesSeen(s: State, name: string, c: Content)
    requires WellFormed(s) && IsDescribed(c, s.hosts, s.groups) && "" !in s.hosts && "" !in s.groups
    ensures forall e :: e in c.hosts ==> exists h :: HostSeen(s, TemplateIn(s, name), e, h)
    ensures forall x :: x in c.groups ==> exists g :: GroupSeen(s, TemplateIn(s, name), x, g)
  {
    var t := TemplateIn(s, name);
    hide WellFormed, IsDescribed, HostSeen, GroupSeen, TemplateIn;
    forall e | e in c.hosts ensures exists h :: HostSeen(s, t, e, h) {
      NamedEntry(c, s.hosts, s.groups, e);
      var h := HostIsSeen(s, name, c, e);
    }
    forall x | x in c.groups ensures exists g :: GroupSeen(s, t, x, g) {
      var g := GroupIsSeen(s, name, c, x);
    }
  }

  lemma InventoryIsSeen(s: State, name: string) returns (c: Content)
    requires WellFormed(s) && Serves(s, name) && "" !in s.hosts && "" !in s.groups
    ensures name in s.cronJobs && InventorySeen(s, s.cronJobs[name].template, c)
  {
    hide WellFormed, Finds, TemplateIn, Render, ValueOf, IsDescribed, HostSeen, GroupSeen, Serves, ReadInventory, Patterns;
    ServesTemplate(s, name);
    c := ServedInventory(s, name);
    InventoryFile(s, name);
    ReadsBack(c);
    EntriesSeen(s, name, c);
  }

  lemma InventoryFile(s: State, name: string)
    requires WellFormed(s)
    ensures forall text :: ValueOf(s, FromConfigMap(name + "-inventory"), "inventory.yaml") == Some(text) ==>
              Finds(s, TemplateIn(s, name), TemplateIn(s, name).runnerMounts, "/inventory/hosts.yaml", text)
  {
    var hosts, groups, t := Listed(s.hosts, s.hostOrder), Listed(s.groups, s.groupOrder), TemplateIn(s, name);
    hide WellFormed, FileFrom, Finds, Template, ValueOf, Listed;
    FilesInPlace(name, hosts, groups);
    FileFound(s, t, "/inventory/hosts.yaml", "hosts.yaml", FromConfigMap(name + "-inventory"), "inventory.yaml");
  }

  lemma NamedEntry(c: Content, hosts: map<string, Host>, groups: map<string, Group>, e: ContentHost)
    requires IsDescribed(c, hosts, groups) && e in c.hosts && "" !in hosts
    ensures e.kubernetesName != ""
  {
    var n := DescribedHost(c, hosts, groups, e);
  }

  lemma ServesTemplate(s: State, name: string)
    requires WellFormed(s) && Serves(s, name)
    ensures name in s.cronJobs && s.cronJobs[name].template == TemplateIn(s, name)
  {
    hide Template, StoresInventory, StoresConfig;
  }

  // ---------- The playbook's source ----------

  /** An inline source is found as two files by both containers, and no variable is
      set; of a git source the init container is told the four settings, each under
      its name, and nothing else. */
  ghost predicate SourceSeen(s: State, t: PodTemplate, p: Playbook) {
    match (p.inline, p.git)
    case (Some(i), _) =>
      && (forall mounts :: mounts in {t.initMounts, t.runnerMounts} ==>
            Finds(s, t, mounts, "/config/playbook.yml", i.playbook) && Finds(s, t, mounts, "/config/requirements.yml", i.requirements))
      && (forall name, text :: !IsSet(s, t, name, text))
    case (None, Some(g)) =>
      forall name, text :: IsSet(s, t, name, text) <==>
        (name, text) in {("OPERATOR_GIT_REPO_URL", g.url), ("OPERATOR_GIT_REF", g.gitRef),
                         ("OPERATOR_GIT_PLAYBOOK_PATH", g.playbookPath), ("OPERATOR_GIT_REQUIREMENTS_PATH", g.requirementsPath)}
    case (None, None) => false
  }

  lemma SettingIff(s: State, job: string, hosts: seq<Host>, groups: seq<Group>, name: string, text: string)
    ensures IsSet(s, Template(job, hosts, groups), name, text) <==>
            && name in {"OPERATOR_GIT_REPO_URL", "OPERATOR_GIT_REF", "OPERATOR_GIT_PLAYBOOK_PATH", "OPERATOR_GIT_REQUIREMENTS_PATH"}
            && ValueOf(s, FromConfigMap(job + "-job-config"), name) == Some(text)
  {
    hide Template, ValueOf;
    var t := Template(job, hosts, groups);
    SettingsInPlace(job, hosts, groups, EnvVar(name, job + "-job-config", name));
    if IsSet(s, t, name, text) {
      var e :| e in t.initEnv && e.name == name && ValueOf(s, FromConfigMap(e.configMap), e.key) == Some(text);
      SettingsInPlace(job, hosts, groups, e);
    }
  }

  lemma ServedConfig(s: State, name: string)
    requires WellFormed(s) && Serves(s, name)
    ensures name in s.jobs && s.jobs[name].playbook in s.playbooks && name + "-job-config" in s.configMaps
    ensures ConfigHolds(s.playbooks[s.jobs[name].playbook], s.configMaps[name + "-job-config"].data)
  {
    hide WellFormed, StoresInventory, Template, OwnedByJob, ConfigHolds;
  }

  lemma SettingsSeen(s: State, job: string, hosts: seq<Host>, groups: seq<Group>, p: Playbook)
    requires job + "-job-config" in s.configMaps && ConfigHolds(p, s.configMaps[job + "-job-config"].data)
    ensures var t := Template(job, hosts, groups);
            && (p.inline.Some? ==> forall name, text :: !IsSet(s, t, name, text))
            && (p.inline.None? && p.git.Some? ==> var g := p.git.value;
                  forall name, text :: IsSet(s, t, name, text) <==>
                    (name, text) in {("OPERATOR_GIT_REPO_URL", g.url), ("OPERATOR_GIT_REF", g.gitRef),
                                     ("OPERATOR_GIT_PLAYBOOK_PATH", g.playbookPath), ("OPERATOR_GIT_REQUIREMENTS_PATH", g.requirementsPath)})
  {
    hide Template, IsSet;
    var t := Template(job, hosts, groups);
    forall name, text
      ensures p.inline.Some? ==> !IsSet(s, t, name, text)
      ensures p.inline.None? && p.git.Some? ==> var g := p.git.value;
                (IsSet(s, t, name, text) <==>
                  (name, text) in {("OPERATOR_GIT_REPO_URL", g.url), ("OPERATOR_GIT_REF", g.gitRef),
                                   ("OPERATOR_GIT_PLAYBOOK_PATH", g.playbookPath), ("OPERATOR_GIT_REQUIREMENTS_PATH", g.requirementsPath)})
    {
      SettingIff(s, job, hosts, groups, name, text);
    }
  }

  lemma FilesOfInline(s: State, job: string, hosts: seq<Host>, groups: seq<Group>, i: Inline, git: Option<Git>)
    requires job + "-job-config" in s.configMaps && ConfigHolds(Playbook(Some(i), git), s.configMaps[job + "-job-config"].data)
    ensures var t := Template(job, hosts, groups);
            forall mounts :: mounts in {t.initMounts, t.runnerMounts} ==>
              Finds(s, t, mounts, "/config/playbook.yml", i.playbook) && Finds(s, t, mounts, "/config/requirements.yml", i.requirements)
  {
    hide Template, DirectoryFrom, Finds;
    var t, config := Template(job, hosts, groups), job + "-job-config";
    DirectoriesInPlace(job, hosts, groups);
    var items := [KeyToPath("playbook.yml", "playbook.yml"), KeyToPath("requirements.yml", "requirements.yml")];
    ConfigFiles(s, t, t.initMounts, config, items, i);
    ConfigFiles(s, t, t.runnerMounts, config, items, i);
  }

  lemma ConfigIsSeen(s: State, job: string, hosts: seq<Host>, groups: seq<Group>, p: Playbook)
    requires job + "-job-config" in s.configMaps && ConfigHolds(p, s.configMaps[job + "-job-config"].data)
    ensures SourceSeen(s, Template(job, hosts, groups), p)
  {
    hide Template, IsSet, Finds;
    SettingsSeen(s, job, hosts, groups, p);
    if p.inline.Some? { FilesOfInline(s, job, hosts, groups, p.inline.value, p.git); }
  }

  lemma SourceIsSeen(s: State, name: string)
    requires WellFormed(s) && Serves(s, name)
    ensures name in s.jobs && name in s.cronJobs && s.jobs[name].playbook in s.playbooks
    ensures SourceSeen(s, s.cronJobs[name].template, s.playbooks[s.jobs[name].playbook])
  {
    var hosts, groups := Listed(s.hosts, s.hostOrder), Listed(s.groups, s.groupOrder);
    hide Serves, WellFormed, Template, Listed, SourceSeen, ConfigHolds;
    ServesTemplate(s, name);
    ServedConfig(s, name);
    ConfigIsSeen(s, name, hosts, groups, s.playbooks[s.jobs[name].playbook]);
  }

  lemma ConfigFiles(s: State, t: PodTemplate, mounts: seq<Mount>, config: string, items: seq<KeyToPath>, i: Inline)
    requires items == [KeyToPath("playbook.yml", "playbook.yml"), KeyToPath("requirements.yml", "requirements.yml")]
    requires DirectoryFrom(t, mounts, "/config", FromConfigMap(config), items, true) && config in s.configMaps
    requires Get(s.configMaps[config].data, "playbook.yml") == Some(i.playbook)
    requires Get(s.configMaps[config].data, "requirements.yml") == Some(i.requirements)
    ensures Finds(s, t, mounts, "/config/playbook.yml", i.playbook) && Finds(s, t, mounts, "/config/requirements.yml", i.requirements)
  {
    hide DirectoryFrom, Finds;
    FileInDirectory(s, t, mounts, "/config", FromConfigMap(config), items, items[0]);
    FileInDirectory(s, t, mounts, "/config", FromConfigMap(config), items, items[1]);
    assert "/config" + "/" + "playbook.yml" == "/config/playbook.yml";
    assert "/config" + "/" + "requirements.yml" == "/config/requirements.yml";
  }

  // ---------- After a reconcile ----------

  /** The known_hosts file has, host by host, the pinned keys behind the address. */
  ghost predicate KnownHostsSeen(s: State, t: PodTemplate)
    requires Lists(s.hostOrder, s.hosts)
  {
    var hosts := Listed(s.hosts, s.hostOrder);
    exists text :: KnownHostsText(hosts, s.secrets) == Some(text) && Finds(s, t, t.runnerMounts, "/ssh/known_hosts", text)
      && ((forall h :: h in hosts ==> PlainAddress(h.address)) ==> ReadKnownHosts(text) == Entries(hosts, s.secrets))
  }

  lemma InPlaceServes(s: State, name: string)
    requires WellFormed(s) && JobInPlace(s, name)
    ensures Serves(s, name) && name in s.cronJobs && StoresKnownHosts(s, name)
  {
    hide StoresInventory, StoresConfig, StoresKnownHosts, Template, TellsRuns;
  }

  lemma KnownHostsFile(s: State, name: string)
    requires WellFormed(s)
    ensures forall text :: ValueOf(s, FromConfigMap(name + "-known-hosts"), "known_hosts") == Some(text) ==>
              Finds(s, TemplateIn(s, name), TemplateIn(s, name).runnerMounts, "/ssh/known_hosts", text)
  {
    var hosts, groups, t := Listed(s.hosts, s.hostOrder), Listed(s.groups, s.groupOrder), TemplateIn(s, name);
    hide WellFormed, FileFrom, Finds, Template, ValueOf, Listed;
    FilesInPlace(name, hosts, groups);
    FileFound(s, t, "/ssh/known_hosts", "known_hosts", FromConfigMap(name + "-known-hosts"), "known_hosts");
  }

  lemma KnownHostsAreSeen(s: State, name: string)
    requires WellFormed(s) && StoresKnownHosts(s, name)
    ensures KnownHostsSeen(s, TemplateIn(s, name))
  {
    var hosts, t := Listed(s.hosts, s.hostOrder), TemplateIn(s, name);
    KnownHostsFile(s, name);
    hide WellFormed, Finds, TemplateIn, KnownHostsText, ReadKnownHosts, Entries, Listed, PlainAddress;
    var text := KnownHostsText(hosts, s.secrets).value;
    assert ValueOf(s, FromConfigMap(name + "-known-hosts"), "known_hosts") == Some(text);
    if forall h :: h in hosts ==> PlainAddress(h.address) { KnownHostsRoundTrip(hosts, s.secrets); }
  }

  /** After a reconcile of the job that returned no error, whatever calls failed, a
      pod of its CronJob finds all of this. */
  lemma ReconciledIsSeen(s: State, name: string) returns (c: Content)
    requires WellFormed(s) && JobInPlace(s, name) && "" !in s.hosts && "" !in s.groups
    ensures name in s.cronJobs && InventorySeen(s, s.cronJobs[name].template, c) && KnownHostsSeen(s, s.cronJobs[name].template)
    ensures s.jobs[name].playbook in s.playbooks && SourceSeen(s, s.cronJobs[name].template, s.playbooks[s.jobs[name].playbook])
  {
    assert Lists(s.hostOrder, s.hosts);
    hide WellFormed, JobInPlace, Serves, InventorySeen, KnownHostsSeen, SourceSeen, StoresKnownHosts, TemplateIn;
    InPlaceServes(s, name);
    ServesTemplate(s, name);
    c := InventoryIsSeen(s, name);
    KnownHostsAreSeen(s, name);
    SourceIsSeen(s, name);
  }

  // ---------- Over runs ----------

  /** In every reachable state, for every job that does not wait, a pod of its CronJob
      would find the namespace's hosts and groups as they are, with their keys and
      variables, and the source of the job's playbook. */
  lemma RunnersSeeTheNamespace(trace: seq<State>, actions: seq<Action>, i: nat, n: string) returns (c: Content)
    requires Run(trace, actions) && i < |trace|
    requires JobQueueInvariant(trace[0]) && JobMapsControlled(trace[0].configMaps)
    requires forall k :: 0 <= k < |actions| && actions[k].MapEdited? ==> JobMapsControlled(trace[k + 1].configMaps)
    requires n in trace[i].jobs && n !in trace[i].jobQueue && "" !in trace[i].hosts && "" !in trace[i].groups
    ensures n in trace[i].cronJobs && trace[i].jobs[n].playbook in trace[i].playbooks
    ensures InventorySeen(trace[i], trace[i].cronJobs[n].template, c)
    ensures SourceSeen(trace[i], trace[i].cronJobs[n].template, trace[i].playbooks[trace[i].jobs[n].playbook])
  {
    hide Does, Serves, JobQueueInvariant, JobMapsControlled, InventorySeen, SourceSeen;
    RunKeepsJobsCurrent(trace, actions, i);
    ServesTemplate(trace[i], n);
    c := InventoryIsSeen(trace[i], n);
    SourceIsSeen(trace[i], n);
  }
}
