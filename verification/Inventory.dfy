// Resolving a namespace's groups and hosts into the content of an inventory.

module Inventory {
  import opened Strings
  import opened Objects

  datatype ContentHost = ContentHost(
    kubernetesName: string, inventoryName: string, hostname: string, port: Port, username: string, become: bool)

  datatype ContentGroup = ContentGroup(name: string, subgroups: seq<string>, hosts: seq<string>)

  datatype Content = Content(groups: seq<ContentGroup>, hosts: seq<ContentHost>)

  // ---------- Specification ----------

  function MapHost(h: Host): ContentHost
    requires h.become.Some?
  {
    ContentHost(h.name, h.ansibleName, h.address, h.port, h.user, h.become.value)
  }

  function HostNames(hosts: map<string, Host>): map<string, string> {
    map h | h in hosts :: hosts[h].ansibleName
  }

  function GroupNames(groups: map<string, Group>): map<string, string> {
    map g | g in groups :: groups[g].ansibleName
  }

  function Resolved(refs: seq<string>, names: map<string, string>): (r: seq<string>)
    requires forall n :: n in refs ==> n in names
    ensures |r| == |refs| && forall i :: 0 <= i < |r| ==> r[i] == names[refs[i]]
  {
    seq(|refs|, i requires 0 <= i < |refs| => names[refs[i]])
  }

  /** Every reference of the group names an existing object. */
  ghost predicate Resolves(g: Group, hosts: map<string, Host>, groups: map<string, Group>) {
    (forall m :: m in g.groups ==> m in groups) && (forall h :: h in g.hosts ==> h in hosts)
  }

  ghost predicate AllResolve(hosts: map<string, Host>, groups: map<string, Group>) {
    forall g :: g in groups ==> Resolves(groups[g], hosts, groups)
  }

  function Entry(g: Group, hosts: map<string, Host>, groups: map<string, Group>): ContentGroup
    requires Resolves(g, hosts, groups)
  {
    ContentGroup(g.ansibleName, Resolved(g.groups, GroupNames(groups)), Resolved(g.hosts, HostNames(hosts)))
  }

  /** Every host says whether to escalate privileges; its type leaves that optional. */
  predicate Privileged(hosts: map<string, Host>) {
    forall h :: h in hosts ==> hosts[h].become.Some?
  }

  ghost function HostEntries(hosts: map<string, Host>, names: seq<string>): (r: seq<ContentHost>)
    requires Privileged(hosts) && forall n :: n in names ==> n in hosts
    ensures |r| == |names| && forall i :: 0 <= i < |r| ==> r[i] == MapHost(hosts[names[i]])
  {
    seq(|names|, i requires 0 <= i < |names| => MapHost(hosts[names[i]]))
  }

  ghost function GroupEntries(hosts: map<string, Host>, groups: map<string, Group>, names: seq<string>): (r: seq<ContentGroup>)
    requires AllResolve(hosts, groups) && forall n :: n in names ==> n in groups
    ensures |r| == |names| && forall i :: 0 <= i < |r| ==> r[i] == Entry(groups[names[i]], hosts, groups)
  {
    seq(|names|, i requires 0 <= i < |names| => Entry(groups[names[i]], hosts, groups))
  }

  /** The inventory of a namespace: hosts and groups in name order, or nothing
      when some reference does not resolve or some host lacks its privilege. */
  ghost function ContentOf(hosts: map<string, Host>, groups: map<string, Group>): Option<Content> {
    if Privileged(hosts) && AllResolve(hosts, groups)
    then Some(Content(GroupEntries(hosts, groups, SortedKeys(groups.Keys)), HostEntries(hosts, SortedKeys(hosts.Keys))))
    else None
  }

  // ---------- What the content says ----------

  /** The entry has the object's name, its Ansible name and its connection. */
  predicate Describes(e: ContentHost, n: string, h: Host) {
    && e.kubernetesName == n && e.inventoryName == h.ansibleName
    && e.hostname == h.address && e.port == h.port && e.username == h.user && h.become == Some(e.become)
  }

  /** The entry has the group's Ansible name and, reference by reference, the Ansible
      names of its subgroups and hosts. */
  predicate DescribesGroup(e: ContentGroup, g: Group, hosts: map<string, Host>, groups: map<string, Group>) {
    && e.name == g.ansibleName
    && |e.subgroups| == |g.groups| && |e.hosts| == |g.hosts|
    && (forall i :: 0 <= i < |g.groups| ==> g.groups[i] in groups && e.subgroups[i] == groups[g.groups[i]].ansibleName)
    && (forall i :: 0 <= i < |g.hosts| ==> g.hosts[i] in hosts && e.hosts[i] == hosts[g.hosts[i]].ansibleName)
  }

  ghost predicate InNameOrder(names: seq<string>, keys: set<string>) {
    Sorted(names) && NoDup(names) && forall n :: n in names <==> n in keys
  }

  /** One entry for each host, in the order of their names. */
  ghost predicate HostsDescribed(entries: seq<ContentHost>, hosts: map<string, Host>, names: seq<string>) {
    && InNameOrder(names, hosts.Keys) && |entries| == |names|
    && forall i :: 0 <= i < |names| ==> Describes(entries[i], names[i], hosts[names[i]])
  }

  ghost predicate GroupsDescribed(entries: seq<ContentGroup>, hosts: map<string, Host>, groups: map<string, Group>, names: seq<string>) {
    && InNameOrder(names, groups.Keys) && |entries| == |names|
    && forall i :: 0 <= i < |names| ==> DescribesGroup(entries[i], groups[names[i]], hosts, groups)
  }

  ghost predicate IsDescribed(c: Content, hosts: map<string, Host>, groups: map<string, Group>) {
    && (exists names :: HostsDescribed(c.hosts, hosts, names))
    && (exists names :: GroupsDescribed(c.groups, hosts, groups, names))
  }

  lemma EntryDescribes(g: Group, hosts: map<string, Host>, groups: map<string, Group>)
    requires Resolves(g, hosts, groups)
    ensures DescribesGroup(Entry(g, hosts, groups), g, hosts, groups)
  {
  }

  lemma SortedKeysInOrder(keys: set<string>)
    ensures InNameOrder(SortedKeys(keys), keys)
  {
    hide Sorted, NoDup;
  }

  lemma HostEntriesDescribe(hosts: map<string, Host>)
    requires HostsNamed(hosts) && Privileged(hosts)
    ensures HostsDescribed(HostEntries(hosts, SortedKeys(hosts.Keys)), hosts, SortedKeys(hosts.Keys))
  {
    SortedKeysInOrder(hosts.Keys);
    hide InNameOrder, Sorted, NoDup;
  }

  lemma GroupEntriesDescribe(hosts: map<string, Host>, groups: map<string, Group>)
    requires AllResolve(hosts, groups)
    ensures GroupsDescribed(GroupEntries(hosts, groups, SortedKeys(groups.Keys)), hosts, groups, SortedKeys(groups.Keys))
  {
    hide Resolves, Entry, DescribesGroup, InNameOrder, Sorted, NoDup;
    var names := SortedKeys(groups.Keys);
    SortedKeysInOrder(groups.Keys);
    var entries := GroupEntries(hosts, groups, names);
    forall i | 0 <= i < |names| ensures DescribesGroup(entries[i], groups[names[i]], hosts, groups) {
      EntryDescribes(groups[names[i]], hosts, groups);
    }
  }

  lemma ContentDescribes(hosts: map<string, Host>, groups: map<string, Group>)
    requires HostsNamed(hosts) && ContentOf(hosts, groups).Some?
    ensures IsDescribed(ContentOf(hosts, groups).value, hosts, groups)
  {
    hide HostsDescribed, GroupsDescribed, HostsNamed, Privileged, AllResolve, HostEntries, GroupEntries;
    HostEntriesDescribe(hosts);
    GroupEntriesDescribe(hosts, groups);
  }

  // One way and back between objects and entries

  lemma HostEntryOf(c: Content, hosts: map<string, Host>, groups: map<string, Group>, n: string) returns (e: ContentHost)
    requires IsDescribed(c, hosts, groups) && n in hosts
    ensures e in c.hosts && Describes(e, n, hosts[n])
  {
    hide GroupsDescribed, Describes, Sorted, NoDup;
    var names :| HostsDescribed(c.hosts, hosts, names);
    assert n in names;
    var i :| 0 <= i < |names| && names[i] == n;
    e := c.hosts[i];
  }

  lemma DescribedHost(c: Content, hosts: map<string, Host>, groups: map<string, Group>, e: ContentHost) returns (n: string)
    requires IsDescribed(c, hosts, groups) && e in c.hosts
    ensures n in hosts && Describes(e, n, hosts[n])
  {
    hide GroupsDescribed, Describes, Sorted, NoDup;
    var names :| HostsDescribed(c.hosts, hosts, names);
    var i :| 0 <= i < |c.hosts| && c.hosts[i] == e;
    n := names[i];
    assert n in names;
  }

  lemma GroupEntryOf(c: Content, hosts: map<string, Host>, groups: map<string, Group>, g: string) returns (x: ContentGroup)
    requires IsDescribed(c, hosts, groups) && g in groups
    ensures x in c.groups && DescribesGroup(x, groups[g], hosts, groups)
  {
    hide HostsDescribed, DescribesGroup, Sorted, NoDup;
    var names :| GroupsDescribed(c.groups, hosts, groups, names);
    assert g in names;
    var i :| 0 <= i < |names| && names[i] == g;
    x := c.groups[i];
  }

  lemma DescribedGroup(c: Content, hosts: map<string, Host>, groups: map<string, Group>, x: ContentGroup) returns (g: string)
    requires IsDescribed(c, hosts, groups) && x in c.groups
    ensures g in groups && DescribesGroup(x, groups[g], hosts, groups)
  {
    hide HostsDescribed, DescribesGroup, Sorted, NoDup;
    var names :| GroupsDescribed(c.groups, hosts, groups, names);
    var i :| 0 <= i < |c.groups| && c.groups[i] == x;
    g := names[i];
    assert g in names;
  }

  lemma SameGroupEntry(a: ContentGroup, b: ContentGroup, g: Group, hosts: map<string, Host>, groups: map<string, Group>)
    requires DescribesGroup(a, g, hosts, groups) && DescribesGroup(b, g, hosts, groups)
    ensures a == b
  {
    assert a.subgroups == b.subgroups && a.hosts == b.hosts;
  }

  /** A host entry is there exactly if it describes a host of the namespace. */
  lemma HostEntryIff(c: Content, hosts: map<string, Host>, groups: map<string, Group>, e: ContentHost)
    requires IsDescribed(c, hosts, groups)
    ensures e in c.hosts <==> exists n :: n in hosts && Describes(e, n, hosts[n])
  {
    hide IsDescribed;
    if e in c.hosts { var n := DescribedHost(c, hosts, groups, e); }
    if n :| n in hosts && Describes(e, n, hosts[n]) { var same := HostEntryOf(c, hosts, groups, n); }
  }

  /** A group entry is there exactly if it describes a group of the namespace. */
  lemma GroupEntryIff(c: Content, hosts: map<string, Host>, groups: map<string, Group>, x: ContentGroup)
    requires IsDescribed(c, hosts, groups)
    ensures x in c.groups <==> exists g :: g in groups && DescribesGroup(x, groups[g], hosts, groups)
  {
    hide IsDescribed, DescribesGroup;
    if x in c.groups { var g := DescribedGroup(c, hosts, groups, x); }
    if g :| g in groups && DescribesGroup(x, groups[g], hosts, groups) {
      var same := GroupEntryOf(c, hosts, groups, g);
      SameGroupEntry(same, x, groups[g], hosts, groups);
    }
  }

  /** Every member a group entry names has an entry of its own. */
  lemma MembersHaveEntries(c: Content, hosts: map<string, Host>, groups: map<string, Group>, x: ContentGroup, n: string)
    requires IsDescribed(c, hosts, groups) && x in c.groups
    ensures n in x.hosts ==> exists e :: e in c.hosts && e.inventoryName == n
    ensures n in x.subgroups ==> exists y :: y in c.groups && y.name == n
  {
    hide IsDescribed;
    var g := DescribedGroup(c, hosts, groups, x);
    if n in x.hosts {
      var i :| 0 <= i < |x.hosts| && x.hosts[i] == n;
      var e := HostEntryOf(c, hosts, groups, groups[g].hosts[i]);
      assert e in c.hosts && e.inventoryName == n;
    }
    if n in x.subgroups {
      var i :| 0 <= i < |x.subgroups| && x.subgroups[i] == n;
      var y := GroupEntryOf(c, hosts, groups, groups[g].groups[i]);
      assert y in c.groups && y.name == n;
    }
  }

  // ---------- Construction ----------

  /** The content, an error for a reference that does not resolve, or a panic on
      dereferencing the privilege of a host that has none. */
  datatype Construction = Built(content: Content) | Unresolved | NilDereference

  ghost function ConstructionOf(hosts: map<string, Host>, groups: map<string, Group>): Construction {
    if !Privileged(hosts) then NilDereference
    else if ContentOf(hosts, groups).None? then Unresolved
    else Built(ContentOf(hosts, groups).value)
  }

  method SortedKeyList<T>(m: map<string, T>) returns (r: seq<string>)
    ensures r == SortedKeys(m.Keys)
  {
    var keys, left := [], m.Keys;
    while left != {}
      invariant left <= m.Keys
      invariant NoDup(keys) && forall k :: k in keys <==> k in m.Keys - left
      decreases left
    {
      var k :| k in left;
      assert k !in keys;
      keys, left := keys + [k], left - {k};
    }
    SortIsSortedKeys(keys, m.Keys);
    r := Sort(keys);
  }

  method MapMembers(refs: seq<string>, names: map<string, string>) returns (r: Option<seq<string>>)
    ensures r.Some? <==> forall n :: n in refs ==> n in names
    ensures r.Some? ==> r.value == Resolved(refs, names)
  {
    var keys := [];
    for i := 0 to |refs|
      invariant |keys| == i && forall j :: 0 <= j < i ==> refs[j] in names && keys[j] == names[refs[j]]
    {
      if refs[i] !in names { return None; }
      keys := keys + [names[refs[i]]];
    }
    assert forall n :: n in refs ==> n in names;
    r := Some(keys);
    assert keys == Resolved(refs, names);
  }

  method GroupEntry(g: Group, hosts: map<string, Host>, groups: map<string, Group>) returns (r: Option<ContentGroup>)
    ensures r.Some? <==> Resolves(g, hosts, groups)
    ensures r.Some? ==> r.value == Entry(g, hosts, groups)
  {
    var subgroups := MapMembers(g.groups, GroupNames(groups));
    if subgroups.None? { return None; }
    var members := MapMembers(g.hosts, HostNames(hosts));
    if members.None? { return None; }
    r := Some(ContentGroup(g.ansibleName, subgroups.value, members.value));
  }

  method MapHosts(hosts: map<string, Host>, names: seq<string>) returns (r: Option<seq<ContentHost>>)
    requires forall n :: n in names <==> n in hosts
    ensures r.Some? <==> Privileged(hosts)
    ensures r.Some? ==> r.value == HostEntries(hosts, names)
  {
    var entries: seq<ContentHost> := [];
    for i := 0 to |names|
      invariant |entries| == i
      invariant forall j :: 0 <= j < i ==> hosts[names[j]].become.Some? && entries[j] == MapHost(hosts[names[j]])
    {
      if hosts[names[i]].become.None? { return None; }
      entries := entries + [MapHost(hosts[names[i]])];
    }
    forall h | h in hosts ensures hosts[h].become.Some? { assert h in names; }
    assert entries == HostEntries(hosts, names);
    r := Some(entries);
  }

  method MapGroups(hosts: map<string, Host>, groups: map<string, Group>, names: seq<string>) returns (r: Option<seq<ContentGroup>>)
    requires forall n :: n in names <==> n in groups
    ensures r.Some? <==> AllResolve(hosts, groups)
    ensures r.Some? ==> r.value == GroupEntries(hosts, groups, names)
  {
    hide Resolves, Entry;
    var entries: seq<ContentGroup> := [];
    for i := 0 to |names|
      invariant |entries| == i
      invariant forall j :: 0 <= j < i ==> Resolves(groups[names[j]], hosts, groups) && entries[j] == Entry(groups[names[j]], hosts, groups)
    {
      var entry := GroupEntry(groups[names[i]], hosts, groups);
      if entry.None? { return None; }
      entries := entries + [entry.value];
    }
    forall g | g in groups ensures Resolves(groups[g], hosts, groups) { assert g in names; }
    assert entries == GroupEntries(hosts, groups, names);
    r := Some(entries);
  }

  method ConstructInventoryContent(hosts: map<string, Host>, groups: map<string, Group>) returns (r: Construction)
    ensures r == ConstructionOf(hosts, groups)
    ensures HostsNamed(hosts) && r.Built? ==> IsDescribed(r.content, hosts, groups)
    ensures r.Unresolved? ==> exists g, m :: g in groups && ((m in groups[g].groups && m !in groups) || (m in groups[g].hosts && m !in hosts))
    ensures r.NilDereference? <==> exists h :: h in hosts && hosts[h].become.None?
  {
    if HostsNamed(hosts) && ContentOf(hosts, groups).Some? { ContentDescribes(hosts, groups); }
    hide IsDescribed;
    var hostNames := SortedKeyList(hosts);
    var hostEntries := MapHosts(hosts, hostNames);
    if hostEntries.None? { return NilDereference; }
    var groupNames := SortedKeyList(groups);
    var groupEntries := MapGroups(hosts, groups, groupNames);
    r := if groupEntries.None? then Unresolved else Built(Content(groupEntries.value, hostEntries.value));
  }

  // ---------- Listing order ----------

  /** The loop that turns a listing into a map; later entries win. */
  function ByName<T>(listed: seq<T>, name: T -> string): map<string, T> {
    if listed == [] then map[]
    else
      var last := listed[|listed| - 1];
      ByName(listed[..|listed| - 1], name)[name(last) := last]
  }

  const HOST_NAME: Host -> string := (h: Host) => h.name
  const GROUP_NAME: Group -> string := (g: Group) => g.name

  method MapByName<T>(listed: seq<T>, name: T -> string) returns (m: map<string, T>)
    ensures m == ByName(listed, name)
  {
    m := map[];
    for i := 0 to |listed|
      invariant m == ByName(listed[..i], name)
    {
      assert listed[..i + 1][..i] == listed[..i];
      m := m[name(listed[i]) := listed[i]];
    }
    assert listed[..|listed|] == listed;
  }

  ghost predicate UniqueNames<T(!new)>(listed: seq<T>, name: T -> string) {
    forall i, j :: 0 <= i < j < |listed| ==> name(listed[i]) != name(listed[j])
  }

  lemma {:induction false} ByNameMembers<T(!new)>(listed: seq<T>, name: T -> string, k: string, x: T)
    requires UniqueNames(listed, name)
    ensures (k in ByName(listed, name) && ByName(listed, name)[k] == x) <==> (x in listed && name(x) == k)
  {
    if listed != [] {
      var rest := listed[..|listed| - 1];
      assert listed == rest + [listed[|listed| - 1]];
      ByNameMembers(rest, name, k, x);
    }
  }

  lemma ByNameForgetsOrder<T(!new)>(a: seq<T>, b: seq<T>, name: T -> string)
    requires multiset(a) == multiset(b)
    requires UniqueNames(a, name) && UniqueNames(b, name)
    ensures ByName(a, name) == ByName(b, name)
  {
    var ma, mb := ByName(a, name), ByName(b, name);
    forall k ensures k in ma <==> k in mb {
      if k in ma {
        ByNameMembers(a, name, k, ma[k]);
        SameMembers(a, b, ma[k]);
        ByNameMembers(b, name, k, ma[k]);
      }
      if k in mb {
        ByNameMembers(b, name, k, mb[k]);
        SameMembers(a, b, mb[k]);
        ByNameMembers(a, name, k, mb[k]);
      }
    }
    forall k | k in ma ensures ma[k] == mb[k] {
      ByNameMembers(a, name, k, ma[k]);
      SameMembers(a, b, ma[k]);
      ByNameMembers(b, name, k, ma[k]);
    }
  }

  /** Whatever order hosts and groups are listed in, the inventory is the same,
      and so is whether there is one, an error or a panic. */
  lemma InventoryForgetsOrder(hs: seq<Host>, hs': seq<Host>, gs: seq<Group>, gs': seq<Group>)
    requires multiset(hs) == multiset(hs') && multiset(gs) == multiset(gs')
    requires UniqueNames(hs, HOST_NAME) && UniqueNames(hs', HOST_NAME)
    requires UniqueNames(gs, GROUP_NAME) && UniqueNames(gs', GROUP_NAME)
    ensures ConstructionOf(ByName(hs, HOST_NAME), ByName(gs, GROUP_NAME)) == ConstructionOf(ByName(hs', HOST_NAME), ByName(gs', GROUP_NAME))
  {
    ByNameForgetsOrder(hs, hs', HOST_NAME);
    ByNameForgetsOrder(gs, gs', GROUP_NAME);
  }
}
