// The inventory means what the objects mean: the same hosts are reachable from
// the same groups, and it exists exactly when every group's references do.

module InventoryMeaning {
  import opened Strings
  import opened Objects
  import opened GroupController
  import opened Inventory

  // ---------- Transitive membership ----------

  /** The host belongs to the group or to some group below it. */
  ghost predicate Reaches(groups: map<string, Group>, group: string, host: string) {
    exists path :: ReachesAlong(groups, path, group, host)
  }

  ghost predicate ReachesAlong(groups: map<string, Group>, path: seq<string>, group: string, host: string) {
    && Path(groups, path) && path[0] == group
    && path[|path| - 1] in groups && host in groups[path[|path| - 1]].hosts
  }

  ghost predicate ListsChild(c: Content, parent: string, child: string) {
    exists e :: e in c.groups && e.name == parent && child in e.subgroups
  }

  ghost predicate ListsHost(c: Content, group: string, host: string) {
    exists e :: e in c.groups && e.name == group && host in e.hosts
  }

  ghost predicate ContentPath(c: Content, path: seq<string>) {
    path != [] && (|path| > 1 ==> ListsChild(c, path[0], path[1]) && ContentPath(c, path[1..]))
  }

  /** The same for the inventory: entries of one name stand for one group. */
  ghost predicate ContentReaches(c: Content, group: string, host: string) {
    exists path :: ContentReachesAlong(c, path, group, host)
  }

  ghost predicate ContentReachesAlong(c: Content, path: seq<string>, group: string, host: string) {
    ContentPath(c, path) && path[0] == group && ListsHost(c, path[|path| - 1], host)
  }

  ghost predicate InjectiveNames(names: map<string, string>) {
    forall a, b :: a in names && b in names && names[a] == names[b] ==> a == b
  }

  /** c is the inventory of these objects. */
  ghost predicate IsInventory(hosts: map<string, Host>, groups: map<string, Group>, c: Content) {
    ContentOf(hosts, groups) == Some(c)
  }

  lemma EntryOf(hosts: map<string, Host>, groups: map<string, Group>, c: Content, g: string)
    requires IsInventory(hosts, groups, c) && g in groups
    ensures Resolves(groups[g], hosts, groups) && Entry(groups[g], hosts, groups) in c.groups
  {
    var names := SortedKeys(groups.Keys);
    var i :| 0 <= i < |names| && names[i] == g;
    assert c.groups[i] == Entry(groups[g], hosts, groups);
  }

  lemma OwnerOf(hosts: map<string, Host>, groups: map<string, Group>, c: Content, e: ContentGroup) returns (g: string)
    requires IsInventory(hosts, groups, c) && e in c.groups
    ensures g in groups && Resolves(groups[g], hosts, groups) && e == Entry(groups[g], hosts, groups)
  {
    var i :| 0 <= i < |c.groups| && c.groups[i] == e;
    g := SortedKeys(groups.Keys)[i];
  }

  lemma ResolvedMember(refs: seq<string>, names: map<string, string>, n: string)
    requires (forall m :: m in refs ==> m in names) && n in refs
    ensures names[n] in Resolved(refs, names)
  {
    var i :| 0 <= i < |refs| && refs[i] == n;
    assert Resolved(refs, names)[i] == names[n];
  }

  lemma ResolvedSource(refs: seq<string>, names: map<string, string>, x: string) returns (n: string)
    requires (forall m :: m in refs ==> m in names) && x in Resolved(refs, names)
    ensures n in refs && names[n] == x
  {
    var i :| 0 <= i < |refs| && Resolved(refs, names)[i] == x;
    n := refs[i];
  }

  // Edges of the objects and edges of the inventory

  lemma ChildKept(hosts: map<string, Host>, groups: map<string, Group>, c: Content, g: string, m: string)
    requires IsInventory(hosts, groups, c) && g in groups && m in groups[g].groups
    ensures m in groups && ListsChild(c, groups[g].ansibleName, groups[m].ansibleName)
  {
    EntryOf(hosts, groups, c, g);
    ResolvedMember(groups[g].groups, GroupNames(groups), m);
    var e := Entry(groups[g], hosts, groups);
    assert e.name == groups[g].ansibleName && groups[m].ansibleName in e.subgroups;
  }

  lemma HostKept(hosts: map<string, Host>, groups: map<string, Group>, c: Content, g: string, h: string)
    requires IsInventory(hosts, groups, c) && g in groups && h in groups[g].hosts
    ensures h in hosts && ListsHost(c, groups[g].ansibleName, hosts[h].ansibleName)
  {
    EntryOf(hosts, groups, c, g);
    ResolvedMember(groups[g].hosts, HostNames(hosts), h);
    var e := Entry(groups[g], hosts, groups);
    assert e.name == groups[g].ansibleName && hosts[h].ansibleName in e.hosts;
  }

  lemma SameNameSameObject(names: map<string, string>, a: string, b: string)
    requires InjectiveNames(names) && a in names && b in names && names[a] == names[b]
    ensures a == b
  {
  }

  lemma ChildFound(hosts: map<string, Host>, groups: map<string, Group>, c: Content, g: string, x: string) returns (m: string)
    requires IsInventory(hosts, groups, c) && InjectiveNames(GroupNames(groups))
    requires g in groups && ListsChild(c, groups[g].ansibleName, x)
    ensures m in groups[g].groups && m in groups && groups[m].ansibleName == x
  {
    var e :| e in c.groups && e.name == groups[g].ansibleName && x in e.subgroups;
    var owner := OwnerOf(hosts, groups, c, e);
    SameNameSameObject(GroupNames(groups), owner, g);
    hide IsInventory, InjectiveNames;
    m := ResolvedSource(groups[g].groups, GroupNames(groups), x);
  }

  lemma HostFound(hosts: map<string, Host>, groups: map<string, Group>, c: Content, g: string, x: string) returns (h: string)
    requires IsInventory(hosts, groups, c) && InjectiveNames(GroupNames(groups))
    requires g in groups && ListsHost(c, groups[g].ansibleName, x)
    ensures h in groups[g].hosts && h in hosts && hosts[h].ansibleName == x
  {
    var e :| e in c.groups && e.name == groups[g].ansibleName && x in e.hosts;
    var owner := OwnerOf(hosts, groups, c, e);
    SameNameSameObject(GroupNames(groups), owner, g);
    hide IsInventory, InjectiveNames;
    h := ResolvedSource(groups[g].hosts, HostNames(hosts), x);
  }

  /** No membership is lost. */
  lemma {:induction false} PathKept(hosts: map<string, Host>, groups: map<string, Group>, c: Content, path: seq<string>, host: string)
    requires IsInventory(hosts, groups, c)
    requires path != [] && ReachesAlong(groups, path, path[0], host)
    ensures path[0] in groups && host in hosts && ContentReaches(c, groups[path[0]].ansibleName, hosts[host].ansibleName)
    decreases |path|
  {
    hide IsInventory, ListsChild, ListsHost;
    var g := path[0];
    if |path| == 1 {
      HostKept(hosts, groups, c, g, host);
      var name := groups[g].ansibleName;
      assert ContentReachesAlong(c, [name], name, hosts[host].ansibleName);
    } else {
      var m := path[1];
      ChildKept(hosts, groups, c, g, m);
      assert ReachesAlong(groups, path[1..], m, host);
      PathKept(hosts, groups, c, path[1..], host);
      var name := groups[g].ansibleName;
      var p :| ContentReachesAlong(c, p, groups[m].ansibleName, hosts[host].ansibleName);
      assert ([name] + p)[1..] == p;
      assert ContentReachesAlong(c, [name] + p, name, hosts[host].ansibleName);
    }
  }

  /** No membership is invented, as long as group names are told apart. */
  lemma {:induction false} PathFound(hosts: map<string, Host>, groups: map<string, Group>, c: Content, g: string, path: seq<string>, x: string)
    returns (host: string)
    requires IsInventory(hosts, groups, c) && InjectiveNames(GroupNames(groups))
    requires g in groups && path != [] && ContentReachesAlong(c, path, groups[g].ansibleName, x)
    ensures host in hosts && hosts[host].ansibleName == x && Reaches(groups, g, host)
    decreases |path|
  {
    hide IsInventory, ListsChild, ListsHost, InjectiveNames;
    if |path| == 1 {
      host := HostFound(hosts, groups, c, g, x);
      assert ReachesAlong(groups, [g], g, host);
    } else {
      var m := ChildFound(hosts, groups, c, g, path[1]);
      host := PathFound(hosts, groups, c, m, path[1..], x);
      var p :| ReachesAlong(groups, p, m, host);
      assert ([g] + p)[1..] == p;
      assert ReachesAlong(groups, [g] + p, g, host);
    }
  }

  /** The hosts an inventory group contains, directly or not, are exactly the
      hosts its object contains, under their Ansible names; cycles included. */
  lemma MembershipPreserved(hosts: map<string, Host>, groups: map<string, Group>, c: Content, g: string, x: string)
    requires IsInventory(hosts, groups, c) && InjectiveNames(GroupNames(groups))
    requires g in groups
    ensures ContentReaches(c, groups[g].ansibleName, x) <==>
            exists host :: Reaches(groups, g, host) && host in hosts && hosts[host].ansibleName == x
  {
    if ContentReaches(c, groups[g].ansibleName, x) {
      var path :| ContentReachesAlong(c, path, groups[g].ansibleName, x);
      var host := PathFound(hosts, groups, c, g, path, x);
      assert Reaches(groups, g, host);
    }
    if host :| Reaches(groups, g, host) && host in hosts && hosts[host].ansibleName == x {
      var path :| ReachesAlong(groups, path, g, host);
      PathKept(hosts, groups, c, path, host);
    }
  }

  /** With distinct host names as well, each single host keeps its groups. */
  lemma HostKeepsItsGroups(hosts: map<string, Host>, groups: map<string, Group>, c: Content, g: string, host: string)
    requires IsInventory(hosts, groups, c)
    requires InjectiveNames(GroupNames(groups)) && InjectiveNames(HostNames(hosts))
    requires g in groups && host in hosts
    ensures ContentReaches(c, groups[g].ansibleName, hosts[host].ansibleName) <==> Reaches(groups, g, host)
  {
    hide IsInventory, Reaches, ContentReaches;
    var x := hosts[host].ansibleName;
    MembershipPreserved(hosts, groups, c, g, x);
    if other :| Reaches(groups, g, other) && other in hosts && hosts[other].ansibleName == x {
      assert HostNames(hosts)[other] == HostNames(hosts)[host];
    }
  }

  // ---------- Agreement with the group controller ----------

  /** Inventory construction and the group health check call the same
      references missing; construction also needs every host's privilege. */
  lemma ControllersAgree(s: State)
    ensures ContentOf(s.hosts, s.groups).Some? <==>
            && Privileged(s.hosts)
            && forall g :: g in s.groups ==> HealthIn(s, s.groups[g]).hostsNotFound == [] && HealthIn(s, s.groups[g]).subgroupsNotFound == []
  {
    forall g | g in s.groups
      ensures Resolves(s.groups[g], s.hosts, s.groups) <==>
              HealthIn(s, s.groups[g]).hostsNotFound == [] && HealthIn(s, s.groups[g]).subgroupsNotFound == []
    {
      NothingMissingIff(s, s.groups[g]);
    }
    hide Resolves, HealthIn, Privileged;
  }

  lemma NothingMissingIff(s: State, g: Group)
    ensures Resolves(g, s.hosts, s.groups) <==> HealthIn(s, g).hostsNotFound == [] && HealthIn(s, g).subgroupsNotFound == []
  {
    EmptyIffNoMember(HealthIn(s, g).hostsNotFound);
    EmptyIffNoMember(HealthIn(s, g).subgroupsNotFound);
  }
}
