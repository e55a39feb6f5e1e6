// Why the termination theorem needs an acyclic graph: three groups that list
// each other in a ring can pass one Ready condition around for ever.

module GroupRing {
  import opened Objects
  import opened ApiServer
  import opened VarsConfigMaps
  import opened GroupController
  import opened GroupRuns

  const RING: set<string> := {"a", "b", "c"}

  function Next(n: string): string {
    if n == "a" then "b" else if n == "b" then "c" else "a"
  }

  function RingConds(n: string, ready: bool): Conditions {
    map[Healthy := if ready then ALL_HEALTHY else Condition(CondFalse, UnhealthyReferences([], [Next(n)])),
        ReferencesValid := ALL_VALID,
        Ready := if ready then GROUP_READY else NOT_READY]
  }

  function RingGroup(n: string, ready: bool): Group {
    Group(n, |n|, n, [], [Next(n)], "", RingConds(n, ready))
  }

  function RingVars(): map<string, ConfigMap> {
    map[VarsName("a") := OwnedVars(RingGroup("a", false).Id(), ""),
        VarsName("b") := OwnedVars(RingGroup("b", false).Id(), ""),
        VarsName("c") := OwnedVars(RingGroup("c", false).Id(), "")]
  }

  /** The ring with the given groups Ready and every group queued. */
  function Ring(ready: set<string>): State {
    State(map[], [], map n | n in RING :: RingGroup(n, n in ready), ["a", "b", "c"],
          map[], map[], [], RingVars(), map[], map[], RING, {})
  }

  function Pass(ready: set<string>, n: string): set<string> {
    if Next(n) in ready then ready + {n} else ready - {n}
  }

  lemma RingWellFormed(ready: set<string>)
    ensures WellFormed(Ring(ready))
  {
  }

  lemma RingVarsSettled(n: string)
    requires n in RING
    ensures VarsSettled(RingVars(), RingGroup(n, false).Id(), "")
  {
    assert VarsName("a") == "a-vars" && VarsName("b") == "b-vars" && VarsName("c") == "c-vars";
  }

  lemma RingUnblocked(ready: set<string>, n: string)
    ensures !Blocked(Ring(ready), n)
  {
    if n in RING { RingVarsSettled(n); }
  }

  lemma RingVerdict(ready: set<string>, n: string)
    requires n in RING && (n in ready <==> Next(n) !in ready)
    ensures RecomputedIn(Dequeued(Ring(ready), n), Ring(ready).groups[n]) == RingConds(n, n !in ready)
  {
    hide RING, Next, RingVars, Missing, Unhealthy;
    var s := Ring(ready);
    var now := GroupReadiness(s.groups);
    NextInRing(n);
    OneReference(Next(n), now);
    NoReferences(HostReadiness(s.hosts));
  }

  lemma NextInRing(n: string)
    ensures Next(n) in RING
  {
  }

  lemma NoReferences(ready: Readiness)
    ensures Missing([], ready) == [] && Unhealthy([], ready) == []
  {
  }

  lemma OneReference(m: string, ready: Readiness)
    requires m in ready
    ensures Missing([m], ready) == []
    ensures Unhealthy([m], ready) == if ready[m] then [] else [m]
  {
    assert [m][..0] == [];
  }

  /** A group that disagrees with the one it lists takes over its value. */
  lemma RingTurn(ready: set<string>, n: string)
    requires n in RING && (n in ready <==> Next(n) !in ready)
    ensures CleanTurn(Ring(ready), n, Ring(Pass(ready, n)))
  {
    hide RecomputedIn, OwnWrites, RingVars, VarsSettled, BlockedConds;
    var s := Ring(ready);
    var s1 := Dequeued(s, n);
    RingVerdict(ready, n);
    RingVarsSettled(n);
    RingUnblocked(ready, n);
    var mid := OpenTurn(s1, n);
    assert s1.groups[n].conds[Ready] != RingConds(n, n !in ready)[Ready];
    assert !Settled(s1, n);
    RingWrite(ready, n);
    assert mid == Requeued(mid, n, true);
  }

  lemma RingQueue(groups: map<string, Group>, n: string)
    requires groups.Keys == RING && n in RING
    ensures (RING - {n}) + {n} + GroupsListing(groups, n) == RING
  {
  }

  lemma RingGroups(ready: set<string>, n: string)
    requires n in RING && (n in ready <==> Next(n) !in ready)
    ensures var before := Ring(ready).groups;
            n in before && before[n := before[n].(conds := RingConds(n, n !in ready))] == Ring(Pass(ready, n)).groups
  {
    hide RingConds, RING, Next;
  }

  lemma RingWrite(ready: set<string>, n: string)
    requires n in RING && (n in ready <==> Next(n) !in ready)
    ensures n in Ring(ready).groups
    ensures GroupStatusWritten(Dequeued(Ring(ready), n), n, RingConds(n, n !in ready)) == Ring(Pass(ready, n))
  {
    hide RingConds, RingGroup, RingVars, RING, Next, Pass, GroupsListing;
    RingGroups(ready, n);
    RingQueue(Ring(Pass(ready, n)).groups, n);
  }

  /** And it can do nothing else: the turn is determined. */
  lemma RingTurnOnly(ready: set<string>, n: string, t: State)
    requires n in RING && (n in ready <==> Next(n) !in ready)
    requires CleanTurn(Ring(ready), n, t)
    ensures t == Ring(Pass(ready, n))
  {
    hide RecomputedIn, OwnWrites, VarsSettled, BlockedConds, RingGroup, RingConds, RingVars, Pass, Next, RING;
    var s1 := Dequeued(Ring(ready), n);
    RingVerdict(ready, n);
    RingVarsSettled(n);
    RingUnblocked(ready, n);
    RingGroups(ready, n);
    var mid, ok :| CleanOutcome(s1, n, mid, ok) && t == Requeued(mid, n, ok);
    assert ok by { RingIdentity(ready, n); }
    RingIdentity(ready, n);
    RingMid(ready, n, mid);
  }

  lemma RingIdentity(ready: set<string>, n: string)
    requires n in RING
    ensures var g := Ring(ready).groups[n];
            n in Ring(ready).groups && g.Id() == RingGroup(n, false).Id() && g.vars == "" && g.name == n
            && !Blocked(Dequeued(Ring(ready), n), n)
  {
    RingUnblocked(ready, n);
  }

  lemma RingMid(ready: set<string>, n: string, mid: State)
    requires n in RING && (n in ready <==> Next(n) !in ready)
    requires var s1 := Dequeued(Ring(ready), n); OwnWrites(s1, n, mid) && mid.groups[n].conds == RingConds(n, n !in ready)
    ensures mid == Ring(Pass(ready, n))
  {
    hide RingConds, RingVars, RING, Next, Pass, GroupsListing, VarsSettled, Foreign, MembersReady;
    var s1 := Dequeued(Ring(ready), n);
    RingGroups(ready, n);
    RingVarsSettled(n);
    RingQueue(s1.groups, n);
    RingChanges(ready, n);
    RingNoJobs(ready);
  }

  lemma RingNoJobs(ready: set<string>)
    ensures Ring(ready).jobs == map[] && Ring(ready).jobQueue == {}
  {
  }

  lemma RingChanges(ready: set<string>, n: string)
    requires n in RING && (n in ready <==> Next(n) !in ready)
    ensures n in Ring(ready).groups && Ring(ready).groups[n].conds != RingConds(n, n !in ready)
    ensures Ring(Pass(ready, n)).groups != Ring(ready).groups
  {
    RingGroups(ready, n);
    assert RingConds(n, n !in ready)[Ready] != RingConds(n, n in ready)[Ready];
  }

  // ---------- The endless schedule ----------

  /** The Ready groups of the six states, and the group whose turn comes next. */
  function Phase(k: nat): set<string> {
    match k
    case 0 => {"a"}
    case 1 => {"a", "c"}
    case 2 => {"c"}
    case 3 => {"b", "c"}
    case 4 => {"b"}
    case _ => {"a", "b"}
  }

  function Mover(k: nat): string {
    match k
    case 0 => "c"
    case 1 => "a"
    case 2 => "b"
    case 3 => "c"
    case 4 => "a"
    case _ => "b"
  }

  function After(k: nat): nat { if k < 5 then k + 1 else 0 }

  lemma PhasePasses(k: nat)
    requires k < 6
    ensures var n := Mover(k);
            n in RING && (n in Phase(k) <==> Next(n) !in Phase(k)) && Pass(Phase(k), n) == Phase(After(k))
  {
  }

  lemma PhaseTurn(i: nat)
    ensures CleanTurn(Ring(Phase(i % 6)), Mover(i % 6), Ring(Phase((i + 1) % 6)))
  {
    hide CleanTurn, Ring, Phase, Mover, Pass, Next;
    assert (i + 1) % 6 == After(i % 6);
    PhasePasses(i % 6);
    RingTurn(Phase(i % 6), Mover(i % 6));
  }

  /** The reconciler itself: however many turns it is given, no call failing, it
      has passed Ready on and every group of the ring waits again. */
  method KeepTurning(turns: nat) returns (after: State)
    ensures after == Ring(Phase(turns % 6)) && after.groupQueue == RING
  {
    hide CleanTurn, Ring, Phase, Mover, Pass, Next;
    var c := new Cluster(_ => None, Ring(Phase(0)));
    var r := new GroupReconciler(c, RingGroup("a", true));
    for i := 0 to turns
      invariant c.store == Ring(Phase(i % 6))
    {
      var name := Mover(i % 6);
      PhasePasses(i % 6);
      RingWellFormed(Phase(i % 6));
      RingWaits(Phase(i % 6));
      Work(r, name);
      RingTurnOnly(Phase(i % 6), name, c.store);
      assert (i + 1) % 6 == After(i % 6);
    }
    after := c.store;
    RingWaits(Phase(turns % 6));
  }

  lemma RingWaits(ready: set<string>)
    ensures Ring(ready).groupQueue == RING
  {
  }

  /** Cycles break termination even with no fault and no foreign ConfigMap. */
  lemma RingNeverStops()
    ensures WellFormed(Ring(Phase(0))) && (forall n :: !Blocked(Ring(Phase(0)), n))
    ensures !Terminates(Ring(Phase(0)))
  {
    hide CleanTurn, Ring, Phase, Mover, Blocked;
    RingWellFormed(Phase(0));
    forall n { RingUnblocked(Phase(0), n); }
    forall bound: nat ensures !BoundedBy(Ring(Phase(0)), bound) {
      var trace := seq(bound + 2, i requires i >= 0 => Ring(Phase(i % 6)));
      var names := seq(bound + 1, i requires i >= 0 => Mover(i % 6));
      forall i | 0 <= i < |names| ensures CleanTurn(trace[i], names[i], trace[i + 1]) { PhaseTurn(i); }
      assert Schedule(trace, names) && trace[0] == Ring(Phase(0)) && |names| > bound;
    }
  }
}
