// Runs of the group controller alone: with specs, hosts and vars ownership
// fixed and no faults, health propagates up an acyclic graph and stops.

module GroupRuns {
  import opened Strings
  import opened Objects
  import opened ApiServer
  import opened VarsConfigMaps
  import opened GroupController

  // ---------- One turn of the work queue ----------

  function Dequeued(s: State, name: string): State { s.(groupQueue := s.groupQueue - {name}) }

  /** A reconcile that returns an error goes back into the queue. */
  function Requeued(s: State, name: string, ok: bool): State {
    if ok then s else s.(groupQueue := s.groupQueue + {name})
  }

  /** A worker takes a queued name and reconciles it; any call may fail. */
  ghost predicate GroupTurn(s: State, name: string, t: State) {
    name in s.groupQueue &&
    exists mid, ok :: Outcome(Dequeued(s, name), name, mid, ok) && t == Requeued(mid, name, ok)
  }

  /** The same without faults. */
  ghost predicate CleanTurn(s: State, name: string, t: State) {
    name in s.groupQueue &&
    exists mid, ok :: CleanOutcome(Dequeued(s, name), name, mid, ok) && t == Requeued(mid, name, ok)
  }

  method Work(r: GroupReconciler, name: string)
    requires name in r.c.store.groupQueue && WellFormed(r.c.store)
    modifies r, r.c
    ensures GroupTurn(old(r.c.store), name, r.c.store)
    ensures r.c.CleanSince(old(r.c.calls)) ==> CleanTurn(old(r.c.store), name, r.c.store)
  {
    r.c.store := Dequeued(r.c.store, name);
    var err := r.Reconcile(name);
    ghost var mid := r.c.store;
    r.c.store := Requeued(r.c.store, name, err.None?);
    assert Outcome(Dequeued(old(r.c.store), name), name, mid, err.None?);
  }

  /** In every group that is not waiting, the stored conditions are current. */
  ghost predicate QueueInvariant(s: State) {
    forall n :: n in s.groups && n !in s.groupQueue ==> Settled(s, n)
  }

  // ---------- The subgroup graph ----------

  type Graph = map<string, seq<string>>

  function Subgroups(groups: map<string, Group>): Graph {
    map g | g in groups :: groups[g].groups
  }

  /** A rank that falls along every edge: the graph has no cycle. */
  ghost predicate Ranked(g: Graph, rank: string -> nat) {
    forall p, m :: p in g && m in g[p] && m in g ==> rank(m) < rank(p)
  }

  ghost predicate Acyclic(groups: map<string, Group>) {
    exists rank: string -> nat :: Ranked(Subgroups(groups), rank)
  }

  ghost function Top(names: set<string>, rank: string -> nat): (r: nat)
    ensures forall n :: n in names ==> rank(n) <= r
  {
    if names == {} then 0
    else
      var n :| n in names;
      var rest := Top(names - {n}, rank);
      if rank(n) > rest then rank(n) else rest
  }

  /** How much work a change of this group's status can still cause: two for
      itself and the work of every group listing it. */
  ghost function Weight(g: Graph, rank: string -> nat, name: string): nat
    requires Ranked(g, rank) && name in g
    decreases Top(g.Keys, rank) - rank(name), 1, 0
  {
    2 + ListingWeight(g, rank, name, SortedKeys(g.Keys))
  }

  ghost function ListingWeight(g: Graph, rank: string -> nat, name: string, among: seq<string>): nat
    requires Ranked(g, rank) && name in g
    requires forall n :: n in among ==> n in g
    decreases Top(g.Keys, rank) - rank(name), 0, |among|
  {
    if among == [] then 0
    else (if name in g[among[0]] then Weight(g, rank, among[0]) else 0) + ListingWeight(g, rank, name, among[1..])
  }

  // ---------- The measure ----------

  /** A group whose reconcile keeps failing the same way. */
  predicate Stuck(s: State, name: string) {
    Blocked(s, name) && s.groups[name].conds == BlockedConds(s.groups[name])
  }

  ghost function Cost(s: State, rank: string -> nat, name: string): nat
    requires Ranked(Subgroups(s.groups), rank) && name in s.groups
  {
    if name !in s.groupQueue || Stuck(s, name) then 0
    else if Settled(s, name) then 1
    else Weight(Subgroups(s.groups), rank, name)
  }

  ghost function Costs(s: State, rank: string -> nat, among: seq<string>): nat
    requires Ranked(Subgroups(s.groups), rank)
    requires forall n :: n in among ==> n in s.groups
  {
    if among == [] then 0 else Cost(s, rank, among[0]) + Costs(s, rank, among[1..])
  }

  ghost function Measure(s: State, rank: string -> nat): nat
    requires Ranked(Subgroups(s.groups), rank)
  {
    Costs(s, rank, SortedKeys(s.groups.Keys)) + |s.groupQueue - s.groups.Keys|
  }

  // ---------- What one turn does to the others ----------

  /** Nothing a group computes from changes unless a member of it changes. */
  lemma OthersKeepQuiet(s: State, name: string, t: State, other: string)
    requires WellFormed(s) && name in s.groups && other in s.groups && other != name
    requires OwnWrites(s, name, t)
    requires name !in s.groups[other].groups || t.groups == s.groups
    ensures Settled(s, other) ==> Settled(t, other)
    ensures Stuck(s, other) ==> Stuck(t, other)
    ensures Blocked(t, other) ==> Blocked(s, other)
  {
    assert VarsName(other) != VarsName(name) by { VarsNameInjective(other, name); }
    SameVerdict(s.groups[other], HostReadiness(s.hosts), GroupReadiness(s.groups), GroupReadiness(t.groups));
  }

  lemma VarsNameInjective(a: string, b: string)
    ensures VarsName(a) == VarsName(b) ==> a == b
  {
    assert a == VarsName(a)[..|VarsName(a)| - |VARS_SUFFIX|];
    assert b == VarsName(b)[..|VarsName(b)| - |VARS_SUFFIX|];
  }

  lemma {:induction false} SameClassification(refs: seq<string>, a: Readiness, b: Readiness)
    requires forall n :: n in refs ==> Get(a, n) == Get(b, n)
    ensures Missing(refs, a) == Missing(refs, b) && Unhealthy(refs, a) == Unhealthy(refs, b)
  {
    if refs != [] {
      assert forall n :: n in refs[..|refs| - 1] ==> n in refs;
      SameClassification(refs[..|refs| - 1], a, b);
      assert Get(a, refs[|refs| - 1]) == Get(b, refs[|refs| - 1]);
    }
  }

  lemma SameVerdict(g: Group, hosts: Readiness, a: Readiness, b: Readiness)
    requires forall n :: n in g.groups ==> Get(a, n) == Get(b, n)
    ensures Recomputed(g, hosts, a) == Recomputed(g, hosts, b)
  {
    SameClassification(g.groups, a, b);
  }

  lemma TurnKeepsConfig(s: State, name: string, t: State)
    requires name in s.groups && OwnWrites(s, name, t)
    ensures Subgroups(t.groups) == Subgroups(s.groups)
    ensures t.groups.Keys == s.groups.Keys && t.hosts == s.hosts
    ensures WellFormed(s) ==> WellFormed(t)
  {
  }

  /** On an acyclic graph a successful reconcile settles its group. */
  lemma SuccessSettles(s: State, rank: string -> nat, name: string, t: State)
    requires name in s.groups && Ranked(Subgroups(s.groups), rank)
    requires OnlyStatus(s, name, t)
    requires t.groups[name].conds == RecomputedIn(s, s.groups[name])
    requires VarsSettled(t.configMaps, s.groups[name].Id(), s.groups[name].vars)
    ensures Settled(t, name)
  {
    hide Recomputed, VarsSettled;
    var g := s.groups[name];
    assert name !in g.groups by { assert Subgroups(s.groups)[name] == g.groups; }
    var hosts, before, after := HostReadiness(s.hosts), GroupReadiness(s.groups), GroupReadiness(t.groups);
    assert forall n :: n in g.groups ==> Get(before, n) == Get(after, n);
    SameVerdict(g, hosts, before, after);
    RecomputedTwice(g, hosts, after);
    assert t.groups[name] == g.(conds := Recomputed(g, hosts, after));
  }

  lemma RecomputedTwice(g: Group, hosts: Readiness, groups: Readiness)
    ensures Recomputed(g.(conds := Recomputed(g, hosts, groups)), hosts, groups) == Recomputed(g, hosts, groups)
  {
  }

  lemma WakesOnlyListing(s: State, name: string, t: State, n: string)
    requires OwnWrites(s, name, t) && n in t.groupQueue
    ensures n in s.groupQueue || n == name || (n in s.groups && name in s.groups[n].groups)
  {
  }

  lemma CostOfOther(s: State, rank: string -> nat, name: string, mid: State, t: State, n: string)
    requires WellFormed(s) && name in s.groups && n in s.groups && n != name
    requires OwnWrites(Dequeued(s, name), name, mid)
    requires t == mid || t == Requeued(mid, name, false)
    requires Ranked(Subgroups(s.groups), rank) && Subgroups(t.groups) == Subgroups(s.groups) && n in t.groups
    ensures Cost(t, rank, n) <= Cost(s, rank, n) + if name in s.groups[n].groups then Weight(Subgroups(s.groups), rank, n) else 0
  {
    hide OwnWrites, Recomputed, VarsSettled, Foreign, Weight, BlockedConds;
    WeightPositive(Subgroups(s.groups), rank, n);
    if name !in s.groups[n].groups {
      var s1 := Dequeued(s, name);
      OthersKeepQuiet(s1, name, mid, n);
      if n in mid.groupQueue { WakesOnlyListing(s1, name, mid, n); }
      assert Settled(t, n) == Settled(mid, n) && Stuck(t, n) == Stuck(mid, n);
      assert Settled(s1, n) == Settled(s, n) && Stuck(s1, n) == Stuck(s, n);
    }
  }

  lemma WeightPositive(g: Graph, rank: string -> nat, name: string)
    requires Ranked(g, rank) && name in g
    ensures Weight(g, rank, name) >= 2
  {
  }

  /** The turn of a group that had something to write: what it stops costing
      exceeds what it can newly cost the groups listing it. */
  lemma {:induction false} CostsFall(s: State, rank: string -> nat, name: string, t: State, among: seq<string>)
    requires name in s.groups && t.groups.Keys == s.groups.Keys
    requires Ranked(Subgroups(s.groups), rank) && Subgroups(t.groups) == Subgroups(s.groups)
    requires NoDup(among) && forall n :: n in among ==> n in s.groups
    requires Cost(t, rank, name) <= 1 && Cost(s, rank, name) == Weight(Subgroups(s.groups), rank, name)
    requires forall n :: n in among && n != name ==>
               Cost(t, rank, n) <= Cost(s, rank, n) + if name in s.groups[n].groups then Weight(Subgroups(s.groups), rank, n) else 0
    ensures Costs(t, rank, among) + (if name in among then Weight(Subgroups(s.groups), rank, name) - 1 else 0)
         <= Costs(s, rank, among) + ListingWeight(Subgroups(s.groups), rank, name, among)
  {
    hide Cost, Weight;
    if among != [] {
      assert among == [among[0]] + among[1..];
      CostsFall(s, rank, name, t, among[1..]);
    }
  }

  lemma {:induction false} CostsDrop(s: State, rank: string -> nat, name: string, t: State, among: seq<string>)
    requires Ranked(Subgroups(s.groups), rank) && Subgroups(t.groups) == Subgroups(s.groups) && t.groups.Keys == s.groups.Keys
    requires forall n :: n in among ==> n in s.groups
    requires forall n :: n in among ==> Cost(t, rank, n) + (if n == name then 1 else 0) <= Cost(s, rank, n)
    ensures Costs(t, rank, among) + (if name in among then 1 else 0) <= Costs(s, rank, among)
  {
    hide Cost;
    if among != [] {
      assert among == [among[0]] + among[1..];
      CostsDrop(s, rank, name, t, among[1..]);
    }
  }

  lemma DequeuedCost(s: State, rank: string -> nat, name: string, n: string)
    requires name in s.groupQueue && n in s.groups && Ranked(Subgroups(s.groups), rank)
    requires n == name ==> Settled(s, name)
    ensures Cost(Dequeued(s, name), rank, n) + (if n == name then 1 else 0) <= Cost(s, rank, n)
  {
    hide Settled, Stuck, Weight, Ranked;
    DequeuingKeepsQuiet(s, name, n);
    if n == name { SettledNotBlocked(s, name); }
  }

  lemma DequeuingFalls(s: State, rank: string -> nat, name: string)
    requires name in s.groupQueue && Ranked(Subgroups(s.groups), rank)
    requires name in s.groups ==> Settled(s, name)
    ensures Measure(Dequeued(s, name), rank) < Measure(s, rank)
  {
    hide Settled, Cost, Costs, Ranked;
    var t := Dequeued(s, name);
    var names := SortedKeys(s.groups.Keys);
    forall n | n in names { DequeuedCost(s, rank, name, n); }
    CostsDrop(s, rank, name, t, names);
    StraysFall(s.groupQueue, s.groups.Keys, name);
  }

  lemma StraysFall(queue: set<string>, keys: set<string>, name: string)
    requires name in queue
    ensures |queue - {name} - keys| + (if name in keys then 0 else 1) == |queue - keys|
  {
    if name in keys {
      assert queue - {name} - keys == queue - keys;
    } else {
      assert queue - {name} - keys == (queue - keys) - {name};
    }
  }

  lemma DequeuingKeepsQuiet(s: State, name: string, n: string)
    ensures Settled(Dequeued(s, name), n) == Settled(s, n)
    ensures Stuck(Dequeued(s, name), n) == Stuck(s, n)
  {
    hide Recomputed, VarsSettled, Foreign, BlockedConds;
  }

  lemma SettledNotBlocked(s: State, name: string)
    requires Settled(s, name)
    ensures !Blocked(s, name) && !Stuck(s, name)
  {
  }

  lemma WritingFalls(s: State, rank: string -> nat, name: string, mid: State, t: State)
    requires WellFormed(s) && name in s.groupQueue && name in s.groups && Ranked(Subgroups(s.groups), rank)
    requires OwnWrites(Dequeued(s, name), name, mid)
    requires t == mid || t == Requeued(mid, name, false)
    requires !Settled(s, name) && !Stuck(s, name)
    requires Settled(t, name) || Stuck(t, name)
    requires Subgroups(t.groups) == Subgroups(s.groups) && t.groups.Keys == s.groups.Keys
    ensures Measure(t, rank) < Measure(s, rank)
  {
    hide OwnWrites, Settled, Stuck, Weight, ListingWeight;
    var names := SortedKeys(s.groups.Keys);
    forall n | n in names && n != name
      ensures Cost(t, rank, n) <= Cost(s, rank, n) + if name in s.groups[n].groups then Weight(Subgroups(s.groups), rank, n) else 0
    {
      CostOfOther(s, rank, name, mid, t, n);
    }
    CostsFall(s, rank, name, t, names);
    WeightUnfolds(s, rank, name);
    assert t.groupQueue - t.groups.Keys <= s.groupQueue - s.groups.Keys by {
      forall n | n in t.groupQueue && n !in t.groups ensures n in s.groupQueue {
        if n in mid.groupQueue { WakesOnlyListing(Dequeued(s, name), name, mid, n); }
      }
    }
    Subset(t.groupQueue - t.groups.Keys, s.groupQueue - s.groups.Keys);
  }

  lemma WeightUnfolds(s: State, rank: string -> nat, name: string)
    requires name in s.groups && Ranked(Subgroups(s.groups), rank)
    ensures Weight(Subgroups(s.groups), rank, name) ==
            2 + ListingWeight(Subgroups(s.groups), rank, name, SortedKeys(s.groups.Keys))
  {
    assert Subgroups(s.groups).Keys == s.groups.Keys;
  }

  lemma Subset<T>(a: set<T>, b: set<T>)
    requires a <= b
    ensures |a| <= |b|
  {
    assert b == a + (b - a);
    assert |b| == |a| + |b - a|;
  }

  lemma WritingTurnFalls(s: State, rank: string -> nat, name: string, mid: State, ok: bool)
    requires WellFormed(s) && name in s.groupQueue && name in s.groups && Ranked(Subgroups(s.groups), rank)
    requires CleanOutcome(Dequeued(s, name), name, mid, ok) && !Settled(s, name) && !Stuck(s, name)
    requires Subgroups(mid.groups) == Subgroups(s.groups) && mid.groups.Keys == s.groups.Keys
    ensures Measure(Requeued(mid, name, ok), rank) < Measure(s, rank)
  {
    hide OwnWrites, Recomputed, VarsSettled, BlockedConds, Measure;
    var s1, t := Dequeued(s, name), Requeued(mid, name, ok);
    OwnWritesOnlyStatus(s1, name, mid);
    if ok {
      SuccessSettles(s1, rank, name, mid);
    } else {
      BlockedTwice(s.groups[name]);
      assert Stuck(t, name);
    }
    WritingFalls(s, rank, name, mid, t);
  }

  lemma QuietTurn(s: State, name: string, mid: State, ok: bool)
    requires name in s.groupQueue && CleanOutcome(Dequeued(s, name), name, mid, ok)
    ensures Stuck(s, name) ==> Requeued(mid, name, ok) == s
    ensures name !in s.groups || Settled(s, name) ==> Requeued(mid, name, ok) == Dequeued(s, name)
    ensures name in s.groups ==> OwnWrites(Dequeued(s, name), name, mid)
  {
    hide OwnWrites, Recomputed, BlockedConds;
    DequeuingKeepsQuiet(s, name, name);
    if Settled(s, name) { SettledNotBlocked(s, name); }
    assert Dequeued(s, name).groupQueue + {name} == s.groupQueue;
    assert name in s.groups ==> (ok <==> !Blocked(s, name));
  }

  /** Every turn either lowers the measure or, when the group is stuck on a
      foreign vars ConfigMap, leaves the whole store as it is. */
  lemma TurnFalls(s: State, rank: string -> nat, name: string, t: State)
    requires WellFormed(s) && Ranked(Subgroups(s.groups), rank)
    requires CleanTurn(s, name, t)
    ensures WellFormed(t) && Subgroups(t.groups) == Subgroups(s.groups) && t.groups.Keys == s.groups.Keys && t.hosts == s.hosts
    ensures (Stuck(s, name) && t == s) || Measure(t, rank) < Measure(s, rank)
  {
    hide OwnWrites, Outcome, CleanOutcome, Settled, Stuck, Measure, Ranked, Subgroups;
    var mid, ok :| CleanOutcome(Dequeued(s, name), name, mid, ok) && t == Requeued(mid, name, ok);
    QuietTurn(s, name, mid, ok);
    if name in s.groups { TurnKeepsConfig(Dequeued(s, name), name, mid); }
    if name !in s.groups || Settled(s, name) {
      DequeuingFalls(s, rank, name);
    } else if !Stuck(s, name) {
      WritingTurnFalls(s, rank, name, mid, ok);
    }
  }

  lemma BlockedTwice(g: Group)
    ensures BlockedConds(g.(conds := BlockedConds(g))) == BlockedConds(g)
  {
  }

  lemma BlockedKept(s: State, name: string, t: State)
    requires WellFormed(s) && name in s.groups && OwnWrites(s, name, t)
    ensures forall n :: Blocked(t, n) ==> Blocked(s, n)
  {
    forall n | Blocked(t, n) ensures Blocked(s, n) {
      VarsNameInjective(n, name);
    }
  }

  lemma TurnKeepsUnblocked(s: State, name: string, t: State)
    requires WellFormed(s) && CleanTurn(s, name, t)
    requires forall n :: !Blocked(s, n)
    ensures forall n :: !Blocked(t, n)
  {
    hide OwnWrites, Settled, BlockedConds;
    var s1 := Dequeued(s, name);
    var mid, ok :| CleanOutcome(s1, name, mid, ok) && t == Requeued(mid, name, ok);
    forall n ensures !Blocked(s1, n) { assert !Blocked(s, n); }
    if name in s.groups { BlockedKept(s1, name, mid); }
    forall n ensures !Blocked(t, n) {
      assert !Blocked(mid, n);
    }
  }

  // ---------- The queue invariant ----------

  /** A turn, whatever calls fail in it, leaves no stale group unqueued. */
  lemma TurnKeepsInvariant(s: State, name: string, t: State)
    requires WellFormed(s) && QueueInvariant(s) && GroupTurn(s, name, t)
    ensures QueueInvariant(t)
  {
    hide OwnWrites, Recomputed, VarsSettled;
    var s1 := Dequeued(s, name);
    var mid, ok :| Outcome(s1, name, mid, ok) && t == Requeued(mid, name, ok);
    forall n | n in t.groups && n !in t.groupQueue ensures Settled(t, n) {
      DequeuingKeepsQuiet(s, name, n);
      if name in s.groups {
        WakesDependents(s1, name, mid);
        if n != name { OthersKeepQuiet(s1, name, mid, n); }
      }
      assert Settled(mid, n);
    }
  }

  lemma WakesDependents(s: State, name: string, t: State)
    requires OwnWrites(s, name, t)
    ensures t.groups.Keys == s.groups.Keys && s.groupQueue <= t.groupQueue
    ensures name !in t.groupQueue ==> t.groups == s.groups && t.configMaps == s.configMaps && t.hosts == s.hosts
    ensures t.groups != s.groups ==> forall n :: n in s.groups && name in s.groups[n].groups ==> n in t.groupQueue
  {
  }

  // ---------- Schedules ----------

  /** Successive fault-free turns, one name at a time. */
  ghost predicate Schedule(trace: seq<State>, names: seq<string>) {
    |trace| == |names| + 1 && forall i {:trigger names[i]} :: 0 <= i < |names| ==> CleanTurn(trace[i], names[i], trace[i + 1])
  }

  /** The number of turns that changed anything. */
  ghost function Changes(trace: seq<State>): nat {
    if |trace| < 2 then 0 else (if trace[0] == trace[1] then 0 else 1) + Changes(trace[1..])
  }

  /** However long a schedule runs, few of its turns change anything: the
      measure of the first state bounds them, blocked groups or not. */
  lemma {:induction false} ChangesBounded(trace: seq<State>, names: seq<string>, rank: string -> nat)
    requires Schedule(trace, names) && WellFormed(trace[0]) && Ranked(Subgroups(trace[0].groups), rank)
    ensures Changes(trace) <= Measure(trace[0], rank)
    decreases |names|
  {
    hide CleanTurn, Measure, Ranked, Stuck, WellFormed, Subgroups;
    if names != [] {
      FirstTurn(trace, names);
      TurnFalls(trace[0], rank, names[0], trace[1]);
      hide Schedule;
      ChangesBounded(trace[1..], names[1..], rank);
    }
  }

  lemma FirstTurn(trace: seq<State>, names: seq<string>)
    requires Schedule(trace, names) && names != []
    ensures |trace| > 1 && CleanTurn(trace[0], names[0], trace[1]) && Schedule(trace[1..], names[1..])
  {
    hide CleanTurn;
  }

  /** With no foreign vars ConfigMap every turn counts, so schedules are bounded. */
  lemma {:induction false} ScheduleBounded(trace: seq<State>, names: seq<string>, rank: string -> nat)
    requires Schedule(trace, names) && WellFormed(trace[0]) && Ranked(Subgroups(trace[0].groups), rank)
    requires forall n :: !Blocked(trace[0], n)
    ensures |names| <= Measure(trace[0], rank)
    decreases |names|
  {
    hide CleanTurn, Measure, Ranked, WellFormed, Subgroups;
    if names != [] {
      FirstTurn(trace, names);
      TurnFalls(trace[0], rank, names[0], trace[1]);
      TurnKeepsUnblocked(trace[0], names[0], trace[1]);
      assert !Blocked(trace[0], names[0]);
      ScheduleBounded(trace[1..], names[1..], rank);
    }
  }

  ghost predicate Terminates(s: State) {
    exists bound: nat {:trigger BoundedBy(s, bound)} :: BoundedBy(s, bound)
  }

  ghost predicate BoundedBy(s: State, bound: nat) {
    forall trace, names :: Schedule(trace, names) && trace[0] == s ==> |names| <= bound
  }

  /** The two states differ at most in group conditions and queued names. */
  ghost predicate SameConfig(s: State, t: State) {
    && t.hosts == s.hosts && t.configMaps == s.configMaps
    && t.groups.Keys == s.groups.Keys
    && forall n :: n in s.groups ==> t.groups[n] == s.groups[n].(conds := t.groups[n].conds)
  }

  /** On an acyclic graph every schedule, from whatever conditions and queue,
      comes to an end exactly when no group's vars ConfigMap is foreign. */
  lemma TerminatesIffUnblocked(s: State)
    requires WellFormed(s) && Acyclic(s.groups)
    ensures (forall t :: WellFormed(t) && SameConfig(s, t) ==> Terminates(t)) <==> (forall n :: !Blocked(s, n))
  {
    hide Blocked, Ranked, Measure;
    if n :| Blocked(s, n) {
      var t := StuckState(s, n);
      forall bound: nat ensures !BoundedBy(t, bound) {
        var trace, names := seq(bound + 2, _ => t), seq(bound + 1, _ => n);
        assert Schedule(trace, names) && trace[0] == t && |names| > bound;
      }
      assert !Terminates(t);
    } else {
      var rank :| Ranked(Subgroups(s.groups), rank);
      forall t | WellFormed(t) && SameConfig(s, t) ensures Terminates(t) {
        SameConfigSameShape(s, t);
        forall trace, names | Schedule(trace, names) && trace[0] == t ensures |names| <= Measure(t, rank) {
          ScheduleBounded(trace, names, rank);
        }
        assert BoundedBy(t, Measure(t, rank));
      }
    }
  }

  lemma SameConfigSameShape(s: State, t: State)
    requires SameConfig(s, t)
    ensures Subgroups(t.groups) == Subgroups(s.groups)
    ensures forall n :: Blocked(t, n) == Blocked(s, n)
  {
  }

  /** A blocked group whose error is already recorded, waiting for its turn. */
  lemma StuckState(s: State, name: string) returns (t: State)
    requires WellFormed(s) && Blocked(s, name)
    ensures WellFormed(t) && SameConfig(s, t) && CleanTurn(t, name, t)
  {
    hide Recomputed;
    var g := s.groups[name];
    t := s.(groups := s.groups[name := g.(conds := BlockedConds(g))], groupQueue := {name});
    BlockedTwice(g);
    var mid := Dequeued(t, name);
    NoWrites(mid, name);
    assert CleanOutcome(mid, name, mid, false);
    assert t == Requeued(mid, name, false);
  }

  // ---------- Progress ----------

  lemma BlockedTurn(s: State, name: string) returns (t: State)
    requires Blocked(s, name)
    ensures CleanOutcome(s, name, t, false)
  {
    hide RecomputedIn, VarsSettled;
    var conds := BlockedConds(s.groups[name]);
    NoWrites(s, name);
    StatusWrite(s, name, conds);
    t := if s.groups[name].conds == conds then s else GroupStatusWritten(s, name, conds);
  }

  lemma VarsTurn(s: State, name: string) returns (t: State)
    requires name in s.groups && s.groups[name].name == name && !Blocked(s, name)
    ensures OwnWrites(s, name, t) && t.groups == s.groups && t.hosts == s.hosts
    ensures VarsSettled(t.configMaps, s.groups[name].Id(), s.groups[name].vars)
    ensures VarsSettled(s.configMaps, s.groups[name].Id(), s.groups[name].vars) ==> t == s
  {
    hide OwnWrites;
    var g := s.groups[name];
    NoWrites(s, name);
    t := s;
    if !VarsSettled(s.configMaps, g.Id(), g.vars) {
      t := ConfigMapWritten(s, VarsName(name), WithVars(s.configMaps, g.Id(), g.vars));
      WithVarsSettles(s, g.Id(), g.vars);
      VarsWrite(s, name, t);
    }
  }

  lemma OpenTurn(s: State, name: string) returns (t: State)
    requires name in s.groups && s.groups[name].name == name && !Blocked(s, name)
    ensures CleanOutcome(s, name, t, true)
    ensures VarsSettled(s.configMaps, s.groups[name].Id(), s.groups[name].vars) && !Settled(s, name) ==>
              t == GroupStatusWritten(s, name, RecomputedIn(s, s.groups[name]))
  {
    hide OwnWrites, Recomputed, VarsSettled, BlockedConds;
    var g := s.groups[name];
    var u := VarsTurn(s, name);
    var conds := RecomputedIn(s, g);
    RecomputedReady(s, g);
    t := u;
    if g.conds != conds {
      t := GroupStatusWritten(u, name, conds);
      StatusWrite(u, name, conds);
      OwnWritesTransitive(s, name, u, t);
    }
  }

  lemma RecomputedReady(s: State, g: Group)
    ensures IsTrue(RecomputedIn(s, g), Ready) <==> MembersReady(s, g)
  {
    MembersReadyIffNoneListed(s, g);
  }

  /** A queued group can always be taken. */
  lemma TurnExists(s: State, name: string) returns (t: State)
    requires WellFormed(s) && name in s.groupQueue
    ensures CleanTurn(s, name, t)
  {
    hide OwnWrites, Recomputed, VarsSettled, BlockedConds;
    var s1 := Dequeued(s, name);
    var mid, ok := s1, true;
    if Blocked(s1, name) {
      mid := BlockedTurn(s1, name);
      ok := false;
    } else if name in s.groups {
      mid := OpenTurn(s1, name);
    }
    assert CleanOutcome(s1, name, mid, ok);
    t := Requeued(mid, name, ok);
  }

  /** So a schedule that cannot go on has emptied the queue. */
  lemma StoppedMeansEmpty(s: State)
    requires WellFormed(s) && forall name, t :: !CleanTurn(s, name, t)
    ensures s.groupQueue == {}
  {
    hide CleanTurn;
    if name :| name in s.groupQueue {
      var t := TurnExists(s, name);
    }
  }
}
