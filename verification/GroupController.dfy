// The AnsibleGroup reconciler: roll the readiness of a group's members up into
// the group's own conditions.

module GroupController {
  import opened Strings
  import opened Objects
  import opened ApiServer
  import opened VarsConfigMaps

  // ---------- Classifying references ----------

  type Readiness = map<string, bool>

  function HostReadiness(hosts: map<string, Host>): Readiness {
    map h | h in hosts :: IsTrue(hosts[h].conds, Ready)
  }

  function GroupReadiness(groups: map<string, Group>): Readiness {
    map g | g in groups :: IsTrue(groups[g].conds, Ready)
  }

  function Missing(refs: seq<string>, ready: Readiness): (r: seq<string>)
    ensures forall n :: n in r <==> n in refs && n !in ready
  {
    if refs == [] then [] else
      var last := refs[|refs| - 1];
      Missing(refs[..|refs| - 1], ready) + if last !in ready then [last] else []
  }

  function Unhealthy(refs: seq<string>, ready: Readiness): (r: seq<string>)
    ensures forall n :: n in r <==> n in refs && n in ready && !ready[n]
  {
    if refs == [] then [] else
      var last := refs[|refs| - 1];
      Unhealthy(refs[..|refs| - 1], ready) + if last in ready && !ready[last] then [last] else []
  }

  lemma ClassifyOneMore(refs: seq<string>, i: nat, ready: Readiness)
    requires i < |refs|
    ensures Missing(refs[..i + 1], ready) ==
            Missing(refs[..i], ready) + if refs[i] !in ready then [refs[i]] else []
    ensures Unhealthy(refs[..i + 1], ready) ==
            Unhealthy(refs[..i], ready) + if refs[i] in ready && !ready[refs[i]] then [refs[i]] else []
  {
    assert refs[..i + 1][..i] == refs[..i];
  }

  function HealthyRefs(refs: seq<string>, ready: Readiness): (r: seq<string>)
    ensures forall n :: n in r <==> n in refs && n in ready && ready[n]
  {
    if refs == [] then [] else
      var last := refs[|refs| - 1];
      HealthyRefs(refs[..|refs| - 1], ready) + if last in ready && ready[last] then [last] else []
  }

  lemma {:induction false} MissingInOrder(refs: seq<string>, ready: Readiness)
    ensures IsSublist(Missing(refs, ready), refs)
  {
    if refs != [] {
      hide IsSublist;
      var rest, last := refs[..|refs| - 1], refs[|refs| - 1];
      assert refs == rest + [last];
      MissingInOrder(rest, ready);
      SublistGrows(Missing(rest, ready), rest, last);
      assert Missing(rest, ready) + [] == Missing(rest, ready);
    } else {
      assert Missing(refs, ready) == [];
    }
  }

  lemma {:induction false} UnhealthyInOrder(refs: seq<string>, ready: Readiness)
    ensures IsSublist(Unhealthy(refs, ready), refs)
  {
    if refs != [] {
      hide IsSublist;
      var rest, last := refs[..|refs| - 1], refs[|refs| - 1];
      assert refs == rest + [last];
      UnhealthyInOrder(rest, ready);
      SublistGrows(Unhealthy(rest, ready), rest, last);
      assert Unhealthy(rest, ready) + [] == Unhealthy(rest, ready);
    } else {
      assert Unhealthy(refs, ready) == [];
    }
  }

  lemma {:induction false} HealthyInOrder(refs: seq<string>, ready: Readiness)
    ensures IsSublist(HealthyRefs(refs, ready), refs)
  {
    if refs != [] {
      hide IsSublist;
      var rest, last := refs[..|refs| - 1], refs[|refs| - 1];
      assert refs == rest + [last];
      HealthyInOrder(rest, ready);
      SublistGrows(HealthyRefs(rest, ready), rest, last);
      assert HealthyRefs(rest, ready) + [] == HealthyRefs(rest, ready);
    } else {
      assert HealthyRefs(refs, ready) == [];
    }
  }

  lemma {:induction false} ClassesCover(refs: seq<string>, ready: Readiness)
    ensures multiset(refs) == multiset(Missing(refs, ready)) + multiset(Unhealthy(refs, ready)) + multiset(HealthyRefs(refs, ready))
  {
    if refs != [] {
      var rest, last := refs[..|refs| - 1], refs[|refs| - 1];
      assert refs == rest + [last];
      ClassesCover(rest, ready);
    }
  }

  /** The health check splits a reference list three ways, keeping its order:
      each occurrence is missing, unhealthy or healthy, and only one of them. */
  lemma ReferencesClassifiedOnce(refs: seq<string>, ready: Readiness)
    ensures IsSublist(Missing(refs, ready), refs) && IsSublist(Unhealthy(refs, ready), refs) && IsSublist(HealthyRefs(refs, ready), refs)
    ensures multiset(refs) == multiset(Missing(refs, ready)) + multiset(Unhealthy(refs, ready)) + multiset(HealthyRefs(refs, ready))
    ensures forall n :: !(n in Missing(refs, ready) && n in Unhealthy(refs, ready))
    ensures forall n :: n in HealthyRefs(refs, ready) ==> n !in Missing(refs, ready) && n !in Unhealthy(refs, ready)
  {
    hide IsSublist;
    MissingInOrder(refs, ready);
    UnhealthyInOrder(refs, ready);
    HealthyInOrder(refs, ready);
    ClassesCover(refs, ready);
  }

  // ---------- The conditions a reconcile computes ----------

  /** The source's `groupHealthcheckResult`. */
  datatype Health = Health(
    subgroupsNotFound: seq<string>, subgroupsNotHealthy: seq<string>,
    hostsNotFound: seq<string>, hostsNotHealthy: seq<string>)

  function HealthIn(s: State, g: Group): Health {
    var hosts, groups := HostReadiness(s.hosts), GroupReadiness(s.groups);
    Health(Missing(g.groups, groups), Unhealthy(g.groups, groups), Missing(g.hosts, hosts), Unhealthy(g.hosts, hosts))
  }

  predicate ReferencesFound(g: Group, hosts: Readiness, groups: Readiness) {
    Missing(g.hosts, hosts) == [] && Missing(g.groups, groups) == []
  }

  predicate ReferencesHealthy(g: Group, hosts: Readiness, groups: Readiness) {
    Unhealthy(g.hosts, hosts) == [] && Unhealthy(g.groups, groups) == []
  }

  const ALL_VALID := Condition(CondTrue, AllValid)
  const ALL_HEALTHY := Condition(CondTrue, AllHealthy)
  const GROUP_READY := Condition(CondTrue, GroupIsReady)
  const NOT_READY := Condition(CondFalse, UnhealthyOrInvalidReferences)

  function ReferencesVerdict(g: Group, hosts: Readiness, groups: Readiness): Condition {
    if ReferencesFound(g, hosts, groups) then ALL_VALID
    else Condition(CondFalse, InvalidReferences(Missing(g.hosts, hosts), Missing(g.groups, groups)))
  }

  function HealthVerdict(g: Group, hosts: Readiness, groups: Readiness): Condition {
    if ReferencesHealthy(g, hosts, groups) then ALL_HEALTHY
    else Condition(CondFalse, UnhealthyReferences(Unhealthy(g.hosts, hosts), Unhealthy(g.groups, groups)))
  }

  predicate AllMembersReady(g: Group, hosts: Readiness, groups: Readiness) {
    ReferencesFound(g, hosts, groups) && ReferencesHealthy(g, hosts, groups)
  }

  /** The group's conditions after a complete reconcile. */
  function Recomputed(g: Group, hosts: Readiness, groups: Readiness): Conditions {
    g.conds[Healthy := HealthVerdict(g, hosts, groups)]
           [ReferencesValid := ReferencesVerdict(g, hosts, groups)]
           [Ready := if AllMembersReady(g, hosts, groups) then GROUP_READY else NOT_READY]
  }

  function RecomputedIn(s: State, g: Group): Conditions {
    Recomputed(g, HostReadiness(s.hosts), GroupReadiness(s.groups))
  }

  function Defaulted(conds: Conditions): Conditions {
    Default(Default(Default(conds, Healthy), ReferencesValid), Ready)
  }

  /** What a fault-free reconcile leaves in a group it may not write vars for. */
  function BlockedConds(g: Group): Conditions {
    Defaulted(g.conds)[Ready := Condition(CondFalse, Failure(NotOwned(VarsName(g.name))))]
  }

  // ---------- What a reconcile may do to the store ----------

  /** All references of the group exist and are Ready. */
  predicate MembersReady(s: State, g: Group) {
    && (forall h :: h in g.hosts ==> h in s.hosts && IsTrue(s.hosts[h].conds, Ready))
    && (forall m :: m in g.groups ==> m in s.groups && IsTrue(s.groups[m].conds, Ready))
  }

  lemma MembersReadyIffNoneListed(s: State, g: Group)
    ensures MembersReady(s, g) <==>
            AllMembersReady(g, HostReadiness(s.hosts), GroupReadiness(s.groups))
  {
    var hosts, groups := HostReadiness(s.hosts), GroupReadiness(s.groups);
    EmptyIffNoMember(Missing(g.hosts, hosts));
    EmptyIffNoMember(Missing(g.groups, groups));
    EmptyIffNoMember(Unhealthy(g.hosts, hosts));
    EmptyIffNoMember(Unhealthy(g.groups, groups));
  }

  lemma EmptyIffNoMember(refs: seq<string>)
    ensures refs == [] <==> forall n :: n !in refs
  {
    if refs != [] { assert refs[0] in refs; }
  }

  // ---------- What the conditions say ----------

  /** Those references for which it holds, each as often as it occurs and in order. */
  ghost predicate Selects(listed: seq<string>, refs: seq<string>, chosen: string -> bool) {
    IsSublist(listed, refs) && forall n :: multiset(listed)[n] == if chosen(n) then multiset(refs)[n] else 0
  }

  predicate AllFound(s: State, g: Group) {
    (forall h :: h in g.hosts ==> h in s.hosts) && (forall m :: m in g.groups ==> m in s.groups)
  }

  /** Whatever is listed and exists is Ready. */
  predicate FoundAreReady(s: State, g: Group) {
    && (forall h :: h in g.hosts && h in s.hosts ==> IsTrue(s.hosts[h].conds, Ready))
    && (forall m :: m in g.groups && m in s.groups ==> IsTrue(s.groups[m].conds, Ready))
  }

  ghost predicate TellsMissing(s: State, g: Group, cond: Condition) {
    && cond.status == CondFalse && cond.note.InvalidReferences?
    && Selects(cond.note.hosts, g.hosts, h => h !in s.hosts)
    && Selects(cond.note.groups, g.groups, m => m !in s.groups)
  }

  ghost predicate TellsUnready(s: State, g: Group, cond: Condition) {
    && cond.status == CondFalse && cond.note.UnhealthyReferences?
    && Selects(cond.note.hosts, g.hosts, h => h in s.hosts && !IsTrue(s.hosts[h].conds, Ready))
    && Selects(cond.note.groups, g.groups, m => m in s.groups && !IsTrue(s.groups[m].conds, Ready))
  }

  /** The three conditions are True exactly if what they stand for holds, and where
      it does not, False with the members to blame. */
  ghost predicate ConditionsTell(s: State, g: Group, conds: Conditions) {
    && ReferencesValid in conds && Healthy in conds && Ready in conds
    && (if AllFound(s, g) then conds[ReferencesValid] == Condition(CondTrue, AllValid) else TellsMissing(s, g, conds[ReferencesValid]))
    && (if FoundAreReady(s, g) then conds[Healthy] == Condition(CondTrue, AllHealthy) else TellsUnready(s, g, conds[Healthy]))
    && (if MembersReady(s, g) then conds[Ready] == Condition(CondTrue, GroupIsReady)
        else conds[Ready] == Condition(CondFalse, UnhealthyOrInvalidReferences))
  }

  /** The reconcile sets no condition but its three. */
  ghost predicate OnlyItsConditions(before: Conditions, after: Conditions) {
    forall k :: k != Ready && k != Healthy && k != ReferencesValid ==> Get(after, k) == Get(before, k)
  }

  /** Ready is False because of that ConfigMap; the other conditions are as before,
      or Unknown where they were not set. */
  ghost predicate OnlyReadyFailed(before: Conditions, configMap: string, after: Conditions) {
    && Get(after, Ready) == Some(Condition(CondFalse, Failure(NotOwned(configMap))))
    && (forall k :: k in before && k != Ready ==> Get(after, k) == Some(before[k]))
    && (forall k :: k !in before && k in {Healthy, ReferencesValid} ==> Get(after, k) == Some(Condition(CondUnknown, ReconcileStarted(k))))
    && (forall k :: k !in before && k !in {Healthy, ReferencesValid, Ready} ==> k !in after)
  }

  lemma BlockedTells(g: Group)
    ensures OnlyReadyFailed(g.conds, g.name + "-vars", BlockedConds(g))
  {
  }

  lemma MissingSelects(refs: seq<string>, ready: Readiness)
    ensures Selects(Missing(refs, ready), refs, n => n !in ready)
    ensures Selects(Unhealthy(refs, ready), refs, n => n in ready && !ready[n])
  {
    ReferencesClassifiedOnce(refs, ready);
    hide IsSublist;
  }

  lemma FoundIffNoneMissing(s: State, g: Group)
    ensures AllFound(s, g) <==> ReferencesFound(g, HostReadiness(s.hosts), GroupReadiness(s.groups))
    ensures FoundAreReady(s, g) <==> ReferencesHealthy(g, HostReadiness(s.hosts), GroupReadiness(s.groups))
  {
    var hosts, groups := HostReadiness(s.hosts), GroupReadiness(s.groups);
    EmptyIffNoMember(Missing(g.hosts, hosts));
    EmptyIffNoMember(Missing(g.groups, groups));
    EmptyIffNoMember(Unhealthy(g.hosts, hosts));
    EmptyIffNoMember(Unhealthy(g.groups, groups));
  }

  lemma SameChoice(listed: seq<string>, refs: seq<string>, a: string -> bool, b: string -> bool)
    requires Selects(listed, refs, a) && forall n :: a(n) == b(n)
    ensures Selects(listed, refs, b)
  {
    hide IsSublist;
  }

  lemma MissingTold(s: State, g: Group)
    ensures var hosts, groups := HostReadiness(s.hosts), GroupReadiness(s.groups);
            TellsMissing(s, g, Condition(CondFalse, InvalidReferences(Missing(g.hosts, hosts), Missing(g.groups, groups))))
  {
    hide Selects;
    var hosts, groups := HostReadiness(s.hosts), GroupReadiness(s.groups);
    MissingSelects(g.hosts, hosts);
    MissingSelects(g.groups, groups);
    SameChoice(Missing(g.hosts, hosts), g.hosts, n => n !in hosts, h => h !in s.hosts);
    SameChoice(Missing(g.groups, groups), g.groups, n => n !in groups, m => m !in s.groups);
  }

  lemma UnreadyTold(s: State, g: Group)
    ensures var hosts, groups := HostReadiness(s.hosts), GroupReadiness(s.groups);
            TellsUnready(s, g, Condition(CondFalse, UnhealthyReferences(Unhealthy(g.hosts, hosts), Unhealthy(g.groups, groups))))
  {
    hide Selects;
    var hosts, groups := HostReadiness(s.hosts), GroupReadiness(s.groups);
    MissingSelects(g.hosts, hosts);
    MissingSelects(g.groups, groups);
    SameChoice(Unhealthy(g.hosts, hosts), g.hosts, n => n in hosts && !hosts[n], h => h in s.hosts && !IsTrue(s.hosts[h].conds, Ready));
    SameChoice(Unhealthy(g.groups, groups), g.groups, n => n in groups && !groups[n], m => m in s.groups && !IsTrue(s.groups[m].conds, Ready));
  }

  lemma RecomputedTells(s: State, g: Group)
    ensures ConditionsTell(s, g, RecomputedIn(s, g)) && OnlyItsConditions(g.conds, RecomputedIn(s, g))
  {
    FoundIffNoneMissing(s, g);
    MembersReadyIffNoneListed(s, g);
    MissingTold(s, g);
    UnreadyTold(s, g);
    hide TellsMissing, TellsUnready, AllFound, FoundAreReady, MembersReady, ReferencesFound, ReferencesHealthy, HostReadiness, GroupReadiness;
  }

  /** The stored conditions are the recomputed ones, and the vars are in place. */
  predicate Settled(s: State, name: string) {
    name in s.groups &&
    var g := s.groups[name];
    && g.conds == RecomputedIn(s, g)
    && VarsSettled(s.configMaps, g.Id(), g.vars)
  }

  predicate Blocked(s: State, name: string) {
    name in s.groups && Foreign(s.configMaps, s.groups[name].Id())
  }

  /** Ready is False because of this error. */
  predicate TellsFailure(s: State, name: string, cause: Error) {
    name in s.groups && Get(s.groups[name].conds, Ready) == Some(Condition(CondFalse, Failure(cause)))
  }

  predicate ReadyGroup(s: State, name: string) {
    name in s.groups && IsTrue(s.groups[name].conds, Ready)
  }

  /** From s to t only the group's own status and its own vars ConfigMap were
      written, every change woke those who depend on it, and Ready became True
      only if every member was Ready. */
  ghost predicate OwnWrites(s: State, name: string, t: State) {
    && OnlyStatus(s, name, t)
    && VarsUpdated(s.configMaps, s.groups[name].Id(), s.groups[name].vars, t.configMaps)
    && Woke(s, name, t)
    && (ReadyGroup(t, name) ==> ReadyGroup(s, name) || MembersReady(s, s.groups[name]))
  }

  ghost predicate OnlyStatus(s: State, name: string, t: State) {
    && name in s.groups && name in t.groups
    && t.groups == s.groups[name := s.groups[name].(conds := t.groups[name].conds)]
    && t == s.(groups := t.groups, configMaps := t.configMaps, groupQueue := t.groupQueue, jobQueue := t.jobQueue)
  }

  ghost predicate Woke(s: State, name: string, t: State) {
    var listing := GroupsListing(s.groups, name);
    && s.groupQueue <= t.groupQueue <= s.groupQueue + {name} + listing
    && s.jobQueue <= t.jobQueue <= s.jobQueue + s.jobs.Keys
    && (t.groups != s.groups ==> {name} + listing <= t.groupQueue && s.jobs.Keys <= t.jobQueue)
    && (t.configMaps != s.configMaps ==> name in t.groupQueue)
  }

  /** Filling in the initial conditions changes no verdict. */
  lemma DefaultingKeepsVerdict(s: State, name: string, t: State)
    requires OnlyStatus(s, name, t)
    requires t.groups[name].conds == Defaulted(s.groups[name].conds)
    ensures RecomputedIn(t, t.groups[name]) == RecomputedIn(s, s.groups[name])
  {
    hide Recomputed, HostReadiness, Defaulted;
    assert GroupReadiness(t.groups) == GroupReadiness(s.groups) by { DefaultsKeepReady(s.groups[name].conds); }
    hide GroupReadiness;
    DefaultsOverwritten(s.groups[name], HostReadiness(s.hosts), GroupReadiness(s.groups));
  }

  lemma DefaultsKeepReady(conds: Conditions)
    ensures IsTrue(Defaulted(conds), Ready) == IsTrue(conds, Ready)
  {
  }

  lemma DefaultsOverwritten(g: Group, hosts: Readiness, groups: Readiness)
    ensures Recomputed(g.(conds := Defaulted(g.conds)), hosts, groups) == Recomputed(g, hosts, groups)
  {
  }

  lemma OnlyStatusTransitive(s: State, name: string, t: State, u: State)
    requires OnlyStatus(s, name, t) && OnlyStatus(t, name, u)
    ensures OnlyStatus(s, name, u)
    ensures GroupsListing(t.groups, name) == GroupsListing(s.groups, name)
    ensures s.groups[name].Id() == t.groups[name].Id()
  {
    assert u.groups == s.groups[name := s.groups[name].(conds := u.groups[name].conds)];
  }

  lemma MembersStayReady(s: State, g: Group, t: State)
    requires OwnWrites(s, g.name, t) && MembersReady(s, g)
    requires ReadyGroup(s, g.name) ==> ReadyGroup(t, g.name)
    ensures MembersReady(t, g)
  {
  }

  lemma VarsWrite(s: State, name: string, t: State)
    requires name in s.groups && s.groups[name].name == name
    requires VarsWritten(s, s.groups[name].Id(), s.groups[name].vars, t)
    ensures OwnWrites(s, name, t) && t.groups == s.groups && t.hosts == s.hosts
  {
    var g := s.groups[name];
    assert g == g.(conds := g.conds);
  }

  lemma OwnWritesOnlyStatus(s: State, name: string, t: State)
    requires OwnWrites(s, name, t)
    ensures OnlyStatus(s, name, t)
  {
  }

  lemma NoWrites(s: State, name: string)
    requires name in s.groups
    ensures OwnWrites(s, name, s)
  {
    var g := s.groups[name];
    assert g == g.(conds := g.conds);
  }

  lemma StatusWrite(s: State, name: string, conds: Conditions)
    requires name in s.groups
    requires IsTrue(conds, Ready) ==> ReadyGroup(s, name) || MembersReady(s, s.groups[name])
    ensures OwnWrites(s, name, GroupStatusWritten(s, name, conds))
  {
    var g := s.groups[name];
    assert g == g.(conds := g.conds);
  }

  lemma OwnWritesTransitive(s: State, name: string, t: State, u: State)
    requires OwnWrites(s, name, t) && OwnWrites(t, name, u)
    ensures OwnWrites(s, name, u)
  {
    OnlyStatusTransitive(s, name, t, u);
    assert Woke(s, name, u);
    assert VarsUpdated(s.configMaps, s.groups[name].Id(), s.groups[name].vars, u.configMaps);
  }

  // ---------- The outcome of a whole reconcile ----------

  /** Whatever calls fail: the writes are the group's own; success means the
      conditions were recomputed and the vars are in place; and a settled group
      is left alone. */
  ghost predicate Outcome(s: State, name: string, t: State, ok: bool) {
    if name !in s.groups then t == s
    else
      && OwnWrites(s, name, t)
      && (ok ==> t.groups[name].conds == RecomputedIn(s, s.groups[name]))
      && (ok ==> VarsSettled(t.configMaps, s.groups[name].Id(), s.groups[name].vars))
      && (ok ==> !Blocked(s, name))
      && (Settled(s, name) && ok ==> t == s)
  }

  /** Without faults only a foreign vars ConfigMap makes a reconcile fail. */
  ghost predicate CleanOutcome(s: State, name: string, t: State, ok: bool) {
    && Outcome(s, name, t, ok)
    && (ok <==> !Blocked(s, name))
    && (Blocked(s, name) ==> t.configMaps == s.configMaps && t.groups[name].conds == BlockedConds(s.groups[name]))
    && (Blocked(s, name) && s.groups[name].conds == BlockedConds(s.groups[name]) ==> t == s)
  }

  // ---------- The watches ----------

  /** The two field indexes: the groups that reference a host, and those that
      reference a subgroup. */
  datatype Index = HostIndex | SubgroupIndex

  predicate References(g: Group, index: Index, name: string) {
    match index
    case HostIndex => name in g.hosts
    case SubgroupIndex => name in g.groups
  }

  function Referencing(groups: map<string, Group>, index: Index, name: string): set<string> {
    match index
    case HostIndex => GroupsListingHost(groups, name)
    case SubgroupIndex => GroupsListing(groups, name)
  }

  /** The requests an event of the named object gives rise to: one for every
      group that references it, but none at all if the List fails. */
  method GroupsMatchingIndexer(c: Cluster, index: Index, name: string) returns (requests: seq<string>)
    requires WellFormed(c.store)
    modifies c`calls
    ensures c.calls == old(c.calls) + 1
    ensures NoDup(requests)
    ensures c.fault(old(c.calls)).Some? ==> requests == []
    ensures c.fault(old(c.calls)).None? ==> forall n :: n in requests <==> n in Referencing(c.store.groups, index, name)
  {
    requests := [];
    var err := c.Call();
    if err.Some? { return; }
    var order, groups := c.store.groupOrder, c.store.groups;
    for i := 0 to |order|
      invariant NoDup(requests)
      invariant forall n :: n in requests <==> n in order[..i] && n in groups && References(groups[n], index, name)
    {
      var n := order[i];
      assert n !in requests by { assert forall j :: 0 <= j < i ==> order[j] != order[i]; }
      if References(groups[n], index, name) { requests := requests + [n]; }
      assert order[..i + 1] == order[..i] + [n];
    }
    assert order[..|order|] == order;
  }

  // ---------- The reconciler ----------

  class GroupReconciler {
    const c: Cluster
    /** The copy of the group being reconciled; setCondition edits it in place. */
    var group: Group

    constructor (c: Cluster, group: Group)
      ensures this.c == c && this.group == group
    {
      this.c := c;
      this.group := group;
    }

    /** The copy is the stored group. */
    ghost predicate InStep()
      reads this, c
    {
      group.name in c.store.groups && c.store.groups[group.name] == group
    }

    method SetCondition(kind: ConditionType, cond: Condition) returns (err: Option<Error>)
      requires InStep()
      requires kind == Ready && cond.status == CondTrue ==> MembersReady(c.store, group)
      modifies this, c
      ensures group == old(group).(conds := old(group).conds[kind := cond])
      ensures err.None? ==> InStep()
      ensures old(c.statusFailures) <= c.statusFailures && (err.None? <==> c.statusFailures == old(c.statusFailures))
      ensures old(c.calls) <= c.calls && c.configMapWrites == old(c.configMapWrites)
      ensures OwnWrites(old(c.store), group.name, c.store) && c.store.configMaps == old(c.store).configMaps
      ensures old(group).conds == group.conds ==> err.None? && c.Untouched()
      ensures c.CleanSince(old(c.calls)) ==> err.None?
    {
      hide OwnWrites;
      NoWrites(c.store, group.name);
      StatusWrite(c.store, group.name, group.conds[kind := cond]);
      var changed := kind !in group.conds || group.conds[kind] != cond;
      group := group.(conds := group.conds[kind := cond]);
      err := None;
      if changed {
        err := c.UpdateGroupStatus(group.name, group.conds);
      }
    }

    method DefaultStatusToUnknown(kind: ConditionType) returns (err: Option<Error>)
      requires InStep()
      modifies this, c
      ensures group == old(group).(conds := Default(old(group).conds, kind))
      ensures err.None? ==> InStep()
      ensures old(c.statusFailures) <= c.statusFailures && (err.None? <==> c.statusFailures == old(c.statusFailures))
      ensures old(c.calls) <= c.calls && c.configMapWrites == old(c.configMapWrites)
      ensures OwnWrites(old(c.store), group.name, c.store) && c.store.configMaps == old(c.store).configMaps
      ensures old(group).conds == group.conds ==> err.None? && c.Untouched()
      ensures c.CleanSince(old(c.calls)) ==> err.None?
    {
      hide OwnWrites;
      NoWrites(c.store, group.name);
      err := None;
      if kind !in group.conds {
        err := SetCondition(kind, Initial(kind));
      }
    }

    method IsGroupsArrayOk() returns (err: Option<Error>, missing: seq<string>, unhealthy: seq<string>)
      modifies c`calls
      ensures old(c.calls) <= c.calls
      ensures c.CleanSince(old(c.calls)) ==> err.None?
      ensures err.None? ==> missing == Missing(group.groups, GroupReadiness(c.store.groups))
      ensures err.None? ==> unhealthy == Unhealthy(group.groups, GroupReadiness(c.store.groups))
    {
      missing, unhealthy := [], [];
      ghost var ready := GroupReadiness(c.store.groups);
      assert Missing(group.groups[..0], ready) == [] && Unhealthy(group.groups[..0], ready) == [];
      hide Missing, Unhealthy;
      for i := 0 to |group.groups|
        invariant old(c.calls) <= c.calls
        invariant missing == Missing(group.groups[..i], ready)
        invariant unhealthy == Unhealthy(group.groups[..i], ready)
      {
        var ref := group.groups[i];
        ClassifyOneMore(group.groups, i, ready);
        var lookup := c.Fetch(c.store.groups, ref);
        match lookup {
          case Failed(e) => return Some(e), [], [];
          case NotFound => missing := missing + [ref];
          case Found(g) => if !IsTrue(g.conds, Ready) { unhealthy := unhealthy + [ref]; }
        }
      }
      assert group.groups[..|group.groups|] == group.groups;
      err := None;
    }

    method IsHostsArrayOk() returns (err: Option<Error>, missing: seq<string>, unhealthy: seq<string>)
      modifies c`calls
      ensures old(c.calls) <= c.calls
      ensures c.CleanSince(old(c.calls)) ==> err.None?
      ensures err.None? ==> missing == Missing(group.hosts, HostReadiness(c.store.hosts))
      ensures err.None? ==> unhealthy == Unhealthy(group.hosts, HostReadiness(c.store.hosts))
    {
      missing, unhealthy := [], [];
      ghost var ready := HostReadiness(c.store.hosts);
      assert Missing(group.hosts[..0], ready) == [] && Unhealthy(group.hosts[..0], ready) == [];
      hide Missing, Unhealthy;
      for i := 0 to |group.hosts|
        invariant old(c.calls) <= c.calls
        invariant missing == Missing(group.hosts[..i], ready)
        invariant unhealthy == Unhealthy(group.hosts[..i], ready)
      {
        var ref := group.hosts[i];
        ClassifyOneMore(group.hosts, i, ready);
        var lookup := c.Fetch(c.store.hosts, ref);
        match lookup {
          case Failed(e) => return Some(e), [], [];
          case NotFound => missing := missing + [ref];
          case Found(h) => if !IsTrue(h.conds, Ready) { unhealthy := unhealthy + [ref]; }
        }
      }
      assert group.hosts[..|group.hosts|] == group.hosts;
      err := None;
    }

    method CheckGroupHealth() returns (err: Option<Error>, health: Health)
      modifies c`calls
      ensures old(c.calls) <= c.calls
      ensures c.CleanSince(old(c.calls)) ==> err.None?
      ensures err.None? ==> health == HealthIn(c.store, group)
    {
      health := Health([], [], [], []);
      var missingGroups, unhealthyGroups, missingHosts, unhealthyHosts;
      err, missingGroups, unhealthyGroups := IsGroupsArrayOk();
      if err.Some? { return; }
      err, missingHosts, unhealthyHosts := IsHostsArrayOk();
      if err.Some? { return; }
      health := Health(missingGroups, unhealthyGroups, missingHosts, unhealthyHosts);
    }

    /** The three conditions that must exist before anything else happens. */
    method DefaultStatuses() returns (err: Option<Error>)
      requires InStep()
      modifies this, c
      ensures group == old(group).(conds := group.conds)
      ensures err.None? ==> InStep() && group.conds == Defaulted(old(group).conds)
      ensures old(c.statusFailures) <= c.statusFailures && (err.None? <==> c.statusFailures == old(c.statusFailures))
      ensures old(c.calls) <= c.calls && c.configMapWrites == old(c.configMapWrites)
      ensures OwnWrites(old(c.store), group.name, c.store) && c.store.configMaps == old(c.store).configMaps
      ensures Defaulted(old(group).conds) == old(group).conds ==> err.None? && c.Untouched()
      ensures c.CleanSince(old(c.calls)) ==> err.None?
    {
      hide OwnWrites;
      ghost var s, name, conds := c.store, group.name, group.conds;
      err := DefaultStatusToUnknown(Healthy);
      if err.Some? { return; }
      ghost var t := c.store;
      err := DefaultStatusToUnknown(ReferencesValid);
      OwnWritesTransitive(s, name, t, c.store);
      if err.Some? { return; }
      t := c.store;
      err := DefaultStatusToUnknown(Ready);
      OwnWritesTransitive(s, name, t, c.store);
      assert err.None? ==> group.conds == Defaulted(conds);
    }

    /** Everything found and healthy: the three conditions become True. */
    method RecordAllHealthy() returns (err: Option<Error>)
      requires InStep() && MembersReady(c.store, group)
      modifies this, c
      ensures group == old(group).(conds := group.conds)
      ensures err.None? ==> InStep()
      ensures err.None? ==> group.conds == old(group).conds[Healthy := ALL_HEALTHY][ReferencesValid := ALL_VALID][Ready := GROUP_READY]
      ensures old(c.statusFailures) <= c.statusFailures && (err.None? <==> c.statusFailures == old(c.statusFailures))
      ensures old(c.calls) <= c.calls && c.configMapWrites == old(c.configMapWrites)
      ensures OwnWrites(old(c.store), group.name, c.store) && c.store.configMaps == old(c.store).configMaps
      ensures old(group).conds == old(group).conds[Healthy := ALL_HEALTHY][ReferencesValid := ALL_VALID][Ready := GROUP_READY] ==> err.None? && c.Untouched()
      ensures c.CleanSince(old(c.calls)) ==> err.None?
    {
      hide OwnWrites;
      ghost var s, g := c.store, group;
      err := SetCondition(Healthy, ALL_HEALTHY);
      if err.Some? { return; }
      ghost var t := c.store;
      err := SetCondition(ReferencesValid, ALL_VALID);
      OwnWritesTransitive(s, g.name, t, c.store);
      if err.Some? { return; }
      t := c.store;
      MembersStayReady(s, g, t);
      err := SetCondition(Ready, GROUP_READY);
      OwnWritesTransitive(s, g.name, t, c.store);
    }

    /** Something missing or unhealthy: say what, and make Ready False. */
    method RecordProblems(references: Condition, health: Condition) returns (err: Option<Error>)
      requires InStep()
      modifies this, c
      ensures group == old(group).(conds := group.conds)
      ensures err.None? ==> InStep()
      ensures err.None? ==> group.conds == old(group).conds[Healthy := health][ReferencesValid := references][Ready := NOT_READY]
      ensures old(c.statusFailures) <= c.statusFailures && (err.None? <==> c.statusFailures == old(c.statusFailures))
      ensures old(c.calls) <= c.calls && c.configMapWrites == old(c.configMapWrites)
      ensures OwnWrites(old(c.store), group.name, c.store) && c.store.configMaps == old(c.store).configMaps
      ensures old(group).conds == old(group).conds[Healthy := health][ReferencesValid := references][Ready := NOT_READY] ==> err.None? && c.Untouched()
      ensures c.CleanSince(old(c.calls)) ==> err.None?
    {
      hide OwnWrites;
      ghost var s, g := c.store, group;
      assert g.conds[ReferencesValid := references][Healthy := health] == g.conds[Healthy := health][ReferencesValid := references];
      err := SetCondition(ReferencesValid, references);
      if err.Some? { return; }
      ghost var t := c.store;
      err := SetCondition(Healthy, health);
      OwnWritesTransitive(s, g.name, t, c.store);
      if err.Some? { return; }
      t := c.store;
      err := SetCondition(Ready, NOT_READY);
      OwnWritesTransitive(s, g.name, t, c.store);
    }

    /** Make Ready False because of an error; the error is what is returned. */
    method ReportFailure(cause: Error) returns (err: Option<Error>)
      requires InStep()
      modifies this, c
      ensures err.Some?
      ensures old(c.statusFailures) <= c.statusFailures
      ensures c.statusFailures == old(c.statusFailures) ==> TellsFailure(c.store, old(group).name, err.value) && err == Some(cause)
      ensures old(c.calls) <= c.calls
      ensures OwnWrites(old(c.store), old(group).name, c.store) && c.store.configMaps == old(c.store).configMaps
      ensures old(group).conds == old(group).conds[Ready := Condition(CondFalse, Failure(cause))] ==> c.Untouched()
      ensures c.CleanSince(old(c.calls)) ==>
                InStep() && group == old(group).(conds := old(group).conds[Ready := Condition(CondFalse, Failure(cause))])
    {
      err := SetCondition(Ready, Condition(CondFalse, Failure(cause)));
      if err.None? { err := Some(cause); }
    }

    /** The part of a reconcile that follows the vars ConfigMap. */
    method RollUp() returns (err: Option<Error>)
      requires InStep()
      modifies this, c
      ensures old(c.statusFailures) <= c.statusFailures
      ensures err.Some? && c.statusFailures == old(c.statusFailures) ==> TellsFailure(c.store, old(group).name, err.value)
      ensures old(c.calls) <= c.calls
      ensures OwnWrites(old(c.store), old(group).name, c.store) && c.store.configMaps == old(c.store).configMaps
      ensures err.None? ==> InStep() && group == old(group).(conds := RecomputedIn(old(c.store), old(group)))
      ensures old(group).conds == RecomputedIn(old(c.store), old(group)) && err.None? ==> c.Untouched()
      ensures c.CleanSince(old(c.calls)) ==> err.None?
    {
      hide OwnWrites;
      var health;
      err, health := CheckGroupHealth();
      if err.Some? {
        err := ReportFailure(err.value);
        return;
      }
      MembersReadyIffNoneListed(c.store, group);
      var refsInvalid := health.subgroupsNotFound != [] || health.hostsNotFound != [];
      var objectsUnhealthy := health.subgroupsNotHealthy != [] || health.hostsNotHealthy != [];
      if !refsInvalid && !objectsUnhealthy {
        err := RecordAllHealthy();
      } else {
        err := RecordProblems(
          if refsInvalid then Condition(CondFalse, InvalidReferences(health.hostsNotFound, health.subgroupsNotFound)) else ALL_VALID,
          if objectsUnhealthy then Condition(CondFalse, UnhealthyReferences(health.hostsNotHealthy, health.subgroupsNotHealthy)) else ALL_HEALTHY);
      }
    }

    /** Vars ConfigMap first, then the members; an error in the former makes
        Ready False and ends the reconcile. */
    method EnsureVarsAndRollUp() returns (err: Option<Error>)
      requires InStep()
      modifies this, c
      ensures old(c.statusFailures) <= c.statusFailures
      ensures err.Some? && c.statusFailures == old(c.statusFailures) ==> TellsFailure(c.store, old(group).name, err.value)
      ensures old(c.calls) <= c.calls
      ensures OwnWrites(old(c.store), old(group).name, c.store)
      ensures err.None? ==> ConditionsTell(old(c.store), old(group), group.conds) && OnlyItsConditions(old(group).conds, group.conds)
      ensures err.None? ==>
                && group == old(group).(conds := RecomputedIn(old(c.store), old(group))) && InStep()
                && VarsSettled(c.store.configMaps, group.Id(), group.vars)
                && !Foreign(old(c.store).configMaps, group.Id())
      ensures old(group).conds == RecomputedIn(old(c.store), old(group))
              && VarsSettled(old(c.store).configMaps, old(group).Id(), old(group).vars)
              && err.None?
              ==> c.Untouched()
      ensures c.CleanSince(old(c.calls)) ==> (err.None? <==> !Foreign(old(c.store).configMaps, old(group).Id()))
      ensures c.CleanSince(old(c.calls)) && err.Some? ==>
                var failed := old(group).conds[Ready := Condition(CondFalse, Failure(NotOwned(VarsName(old(group).name))))];
                && InStep() && group == old(group).(conds := failed) && c.store.configMaps == old(c.store).configMaps
                && (failed == old(group).conds ==> c.Untouched())
    {
      hide OwnWrites, Recomputed, VarsSettled, VarsWritten, Foreign, ConditionsTell, OnlyItsConditions;
      ghost var s, name := c.store, group.name;
      RecomputedTells(s, group);
      err := EnsureVarsConfigMap(c, group.Id(), group.vars);
      VarsWrite(s, name, c.store);
      ghost var t := c.store;
      if err.Some? {
        err := ReportFailure(err.value);
      } else {
        err := RollUp();
      }
      OwnWritesTransitive(s, name, t, c.store);
    }

    /** An error leaves Ready False, unless reading the group or writing its
        status is what failed. */
    method Reconcile(name: string) returns (err: Option<Error>)
      requires WellFormed(c.store)
      modifies this, c
      ensures old(c.calls) <= c.calls
      ensures err.Some? && c.statusFailures == old(c.statusFailures) ==> c.fault(old(c.calls)).Some? || TellsFailure(c.store, name, err.value)
      ensures Outcome(old(c.store), name, c.store, err.None?)
      ensures err.None? && name in old(c.store).groups ==>
                && name in c.store.groups && ConditionsTell(old(c.store), old(c.store).groups[name], c.store.groups[name].conds)
                && OnlyItsConditions(old(c.store).groups[name].conds, c.store.groups[name].conds)
      ensures c.CleanSince(old(c.calls)) && err.Some? ==>
                && name in old(c.store).groups && name in c.store.groups
                && OnlyReadyFailed(old(c.store).groups[name].conds, name + "-vars", c.store.groups[name].conds)
      ensures c.CleanSince(old(c.calls)) ==> CleanOutcome(old(c.store), name, c.store, err.None?)
    {
      hide OwnWrites, RecomputedIn, VarsSettled, Foreign, HostsNamed, JobsNamed, Lists, ConditionsTell, OnlyItsConditions, OnlyReadyFailed;
      ghost var s := c.store;
      if name in s.groups { NoWrites(s, name); RecomputedTells(s, s.groups[name]); BlockedTells(s.groups[name]); }
      var lookup := c.Fetch(c.store.groups, name);
      match lookup {
        case Failed(e) => return Some(e);
        case NotFound => return None;
        case Found(found) => group := found;
      }
      err := DefaultStatuses();
      if err.Some? { return; }
      ghost var t := c.store;
      OwnWritesOnlyStatus(s, name, t);
      DefaultingKeepsVerdict(s, name, t);
      SettledHasDefaults(s, name);

      err := EnsureVarsAndRollUp();
      OwnWritesTransitive(s, name, t, c.store);
      BlockedHasDefaults(s.groups[name]);
    }
  }

  lemma SettledHasDefaults(s: State, name: string)
    ensures Settled(s, name) ==> Defaulted(s.groups[name].conds) == s.groups[name].conds && !Blocked(s, name)
  {
  }

  lemma BlockedHasDefaults(g: Group)
    ensures g.conds == BlockedConds(g) ==> Defaulted(g.conds) == g.conds
  {
  }
}
