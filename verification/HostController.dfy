// The AnsibleHost reconciler: a usable private key, pinned host keys and the
// host's variables, rolled up into Ready.

module HostController {
  import opened Objects
  import opened ApiServer
  import opened VarsConfigMaps
  import opened KeyScan
  import opened KnownHosts
  import opened PodTemplates

  // ---------- What a host needs ----------

  /** The secret exists and holds something that parses as a private key. */
  predicate KeyValid(secrets: map<string, Secret>, h: Host, parses: string -> bool) {
    && h.keySecret in secrets
    && SSH_KEY in secrets[h.keySecret].data
    && secrets[h.keySecret].data[SSH_KEY] != ""
    && parses(secrets[h.keySecret].data[SSH_KEY])
  }

  /** The secret that pins a host's keys. */
  function PinnedKeys(h: Host, text: string): Secret {
    Secret([OwnerRef(h.Id(), true)], map[HOST_KEYS_KEY := text])
  }

  predicate HostOk(s: State, h: Host, parses: string -> bool) {
    && KeyValid(s.secrets, h, parses)
    && (h.ignoreHostKey || h.hostKeySecret in s.secrets)
    && VarsSettled(s.configMaps, h.Id(), h.vars)
  }

  /** The secret holds this text under `host_keys`, and nothing else; the host
      controls it. */
  predicate Pins(x: Secret, h: Host, text: string) {
    x.data == map["host_keys" := text] && ControllerOf(x.owners) == Some(h.Id())
  }

  /** Every secret there was is as it was; the host's key secret may be new. */
  ghost predicate OnlyPins(before: map<string, Secret>, h: Host, text: string, after: map<string, Secret>) {
    && (forall n :: n in before || n != h.hostKeySecret ==> Get(after, n) == Get(before, n))
    && (h.hostKeySecret !in before && h.hostKeySecret in after ==> Pins(after[h.hostKeySecret], h, text))
  }

  lemma AddedKeysPin(before: map<string, Secret>, h: Host, text: string, after: map<string, Secret>)
    requires AddsKeys(before, h, text, after)
    ensures OnlyPins(before, h, text, after)
  {
  }

  /** The host's key can be used. */
  predicate UsableKey(secrets: map<string, Secret>, h: Host, parses: string -> bool) {
    h.keySecret in secrets &&
    var data := secrets[h.keySecret].data;
    "ssh_key" in data && data["ssh_key"] != "" && parses(data["ssh_key"])
  }

  /** The requirement a stage of the reconcile is about; `captured`: a scan made now
      would capture a key. */
  predicate Meets(s: State, h: Host, captured: bool, parses: string -> bool, stage: HostStage) {
    match stage
    case PrivateKeyMissing => h.keySecret in s.secrets
    case PrivateKeyError => UsableKey(s.secrets, h, parses)
    case HostKeysError => h.ignoreHostKey || h.hostKeySecret in s.secrets || captured
    case VarsConfigMapError => h.name + "-vars" in s.configMaps ==> ControllerOf(s.configMaps[h.name + "-vars"].owners) == Some(h.Id())
  }

  function Rank(stage: HostStage): nat {
    match stage
    case PrivateKeyMissing => 0
    case PrivateKeyError => 1
    case HostKeysError => 2
    case VarsConfigMapError => 3
  }

  /** The first requirement that is not met. */
  ghost predicate FirstUnmet(s: State, h: Host, captured: bool, parses: string -> bool, stage: HostStage) {
    && !Meets(s, h, captured, parses, stage)
    && forall earlier :: Rank(earlier) < Rank(stage) ==> Meets(s, h, captured, parses, earlier)
  }

  /** What is reported as the cause of a failure. */
  ghost predicate Explains(cause: Error, h: Host, arrivals: seq<ProbeResult>, stage: HostStage) {
    match stage
    case PrivateKeyMissing => cause == NoSuchObject
    case PrivateKeyError => cause == BadPrivateKey
    case HostKeysError => IsFirstError(arrivals, cause)
    case VarsConfigMapError => cause == NotOwned(h.name + "-vars")
  }

  /** A usable key, pinned keys unless they are ignored, and the variables. */
  predicate InPlace(s: State, h: Host, parses: string -> bool) {
    && UsableKey(s.secrets, h, parses)
    && (h.ignoreHostKey || h.hostKeySecret in s.secrets)
    && h.name + "-vars" in s.configMaps
    && ControllerOf(s.configMaps[h.name + "-vars"].owners) == Some(h.Id())
    && Field(s.configMaps[h.name + "-vars"].data, "vars") == h.vars
  }

  lemma OkIsInPlace(s: State, h: Host, parses: string -> bool)
    requires HostOk(s, h, parses)
    ensures InPlace(s, h, parses)
  {
  }

  lemma FirstFailureIsFirstUnmet(s: State, h: Host, captured: bool, parses: string -> bool, stage: HostStage)
    ensures FirstFailure(s, h, captured, parses) == Some(stage) <==> FirstUnmet(s, h, captured, parses, stage)
  {
    assert UsableKey(s.secrets, h, parses) <==> KeyValid(s.secrets, h, parses);
    hide UsableKey, KeyValid;
    assert Rank(PrivateKeyMissing) < Rank(PrivateKeyError) < Rank(HostKeysError) < Rank(VarsConfigMapError);
  }

  lemma NoFailureIffAllMet(s: State, h: Host, captured: bool, parses: string -> bool)
    ensures FirstFailure(s, h, captured, parses).None? <==> AllMet(s, h, captured, parses)
  {
    assert UsableKey(s.secrets, h, parses) <==> KeyValid(s.secrets, h, parses);
    hide UsableKey, KeyValid;
    if AllMet(s, h, captured, parses) {
      assert Meets(s, h, captured, parses, PrivateKeyMissing) && Meets(s, h, captured, parses, PrivateKeyError);
      assert Meets(s, h, captured, parses, HostKeysError) && Meets(s, h, captured, parses, VarsConfigMapError);
    }
  }

  predicate ReadyHost(s: State, name: string) {
    name in s.hosts && IsTrue(s.hosts[name].conds, Ready)
  }

  predicate UnreadyHost(s: State, name: string) {
    name in s.hosts && Ready in s.hosts[name].conds && s.hosts[name].conds[Ready].status == CondFalse
  }

  // ---------- What a reconcile may do to the store ----------

  /** The secrets are as they were, or the host's key secret is new among them. */
  ghost predicate AddsKeys(before: map<string, Secret>, h: Host, text: string, after: map<string, Secret>) {
    || after == before
    || (h.hostKeySecret !in before && after == before[h.hostKeySecret := PinnedKeys(h, text)])
  }

  /** Keys are pinned at most once: by the host itself, with what the scan of
      this reconcile captured, after its private key was found valid. */
  ghost predicate Pinned(before: map<string, Secret>, h: Host, text: string, parses: string -> bool, after: map<string, Secret>) {
    AddsKeys(before, h, text, after) && (after != before ==> !h.ignoreHostKey && KeyValid(before, h, parses))
  }

  ghost predicate OnlyHostStatus(before: map<string, Host>, name: string, after: map<string, Host>) {
    && name in before && name in after
    && after == before[name := before[name].(conds := after[name].conds)]
  }

  /** Only the host's status, vars ConfigMap and key secret were written, and a
      changed host woke every group listing it and every job. */
  ghost predicate HostFrame(s: State, name: string, text: string, parses: string -> bool, t: State) {
    && OnlyHostStatus(s.hosts, name, t.hosts)
    && t == s.(hosts := t.hosts, configMaps := t.configMaps, secrets := t.secrets, groupQueue := t.groupQueue, jobQueue := t.jobQueue)
    && s.groupQueue <= t.groupQueue && s.jobQueue <= t.jobQueue
    && (t.hosts != s.hosts ==> GroupsListingHost(s.groups, name) <= t.groupQueue && s.jobs.Keys <= t.jobQueue)
    && VarsUpdated(s.configMaps, s.hosts[name].Id(), s.hosts[name].vars, t.configMaps)
    && Pinned(s.secrets, s.hosts[name], text, parses, t.secrets)
  }

  /** Done: nothing left to do. Later: try again in thirty seconds. */
  datatype HostResult = Absent | Later | Finished | Broken(err: Error)

  /** `text` is what a scan made by this reconcile would be stored as. */
  ghost predicate HostOutcome(s: State, name: string, text: string, parses: string -> bool, t: State, r: HostResult) {
    match r
    case Absent => name !in s.hosts && t == s
    case Later => HostFrame(s, name, text, parses, t) && (ReadyHost(t, name) ==> ReadyHost(s, name))
    case Finished => HostFrame(s, name, text, parses, t) && ReadyHost(t, name) && HostOk(t, t.hosts[name], parses)
    case Broken(_) => t == s || (HostFrame(s, name, text, parses, t) && (ReadyHost(t, name) ==> ReadyHost(s, name)))
  }

  /** The first thing that keeps the host from being ready, apart from failing
      calls; `captured`: a scan made now would capture a key. */
  function FirstFailure(s: State, h: Host, captured: bool, parses: string -> bool): Option<HostStage> {
    if h.keySecret !in s.secrets then Some(PrivateKeyMissing)
    else if !KeyValid(s.secrets, h, parses) then Some(PrivateKeyError)
    else if !h.ignoreHostKey && h.hostKeySecret !in s.secrets && !captured then Some(HostKeysError)
    else if Foreign(s.configMaps, h.Id()) then Some(VarsConfigMapError)
    else None
  }

  /** Without faults: Ready, or not Ready because of the first failure. */
  ghost predicate CleanHostOutcome(s: State, name: string, captured: bool, parses: string -> bool, t: State, r: HostResult) {
    if name !in s.hosts then r == Absent
    else
      var failure := FirstFailure(s, s.hosts[name], captured, parses);
      if failure.None? then r == Finished
      else r == Later && NotReadyBecause(t, name, failure.value)
  }

  predicate NotReadyBecause(s: State, name: string, stage: HostStage) {
    && name in s.hosts && Ready in s.hosts[name].conds
    && var cond := s.hosts[name].conds[Ready]; cond.status == CondFalse && cond.note.HostFailure? && cond.note.stage == stage
  }

  /** Ready is False with the stage and a cause that explains it. */
  ghost predicate Reports(s: State, name: string, arrivals: seq<ProbeResult>, stage: HostStage) {
    && name in s.hosts && Ready in s.hosts[name].conds
    && var cond := s.hosts[name].conds[Ready];
    cond.status == CondFalse && cond.note.HostFailure? && cond.note.stage == stage && Explains(cond.note.cause, s.hosts[name], arrivals, stage)
  }

  ghost predicate AllMet(s: State, h: Host, captured: bool, parses: string -> bool) {
    forall stage: HostStage :: Meets(s, h, captured, parses, stage)
  }

  /** The reconcile finishes exactly if all requirements are met, and otherwise
      reports the first that is not. */
  ghost predicate DecidedByNeeds(s: State, name: string, arrivals: seq<ProbeResult>, parses: string -> bool, t: State, r: HostResult)
    requires name in s.hosts
  {
    var h, captured := s.hosts[name], Captured(arrivals) != [];
    && (r.Finished? <==> AllMet(s, h, captured, parses))
    && forall stage :: FirstUnmet(s, h, captured, parses, stage) ==> r.Later? && Reports(t, name, arrivals, stage)
  }

  lemma DecidedByFirstFailure(s: State, name: string, arrivals: seq<ProbeResult>, parses: string -> bool, t: State, r: HostResult)
    requires name in s.hosts
    requires var failure := FirstFailure(s, s.hosts[name], Captured(arrivals) != [], parses);
             if failure.None? then r.Finished? else r.Later? && Reports(t, name, arrivals, failure.value)
    ensures DecidedByNeeds(s, name, arrivals, parses, t, r)
  {
    var h, captured := s.hosts[name], Captured(arrivals) != [];
    NoFailureIffAllMet(s, h, captured, parses);
    forall stage ensures FirstFailure(s, h, captured, parses) == Some(stage) <==> FirstUnmet(s, h, captured, parses, stage) {
      FirstFailureIsFirstUnmet(s, h, captured, parses, stage);
    }
    hide FirstFailure, FirstUnmet, Reports, Captured;
  }

  lemma VarsWriteInFrame(s: State, h: Host, t: State)
    requires VarsWritten(s, h.Id(), h.vars, t)
    ensures t == s.(configMaps := t.configMaps, groupQueue := t.groupQueue, jobQueue := t.jobQueue)
    ensures s.groupQueue <= t.groupQueue && s.jobQueue <= t.jobQueue
    ensures VarsUpdated(s.configMaps, h.Id(), h.vars, t.configMaps)
  {
    hide Foreign, VarsSettled, Woken;
  }

  lemma StatusWriteInFrame(s: State, name: string, conds: Conditions, t: State)
    requires name in s.hosts
    requires t == s || t == HostStatusWritten(s, name, conds)
    ensures t == s.(hosts := t.hosts, groupQueue := t.groupQueue, jobQueue := t.jobQueue)
    ensures s.groupQueue <= t.groupQueue && s.jobQueue <= t.jobQueue
    ensures t.hosts != s.hosts ==> GroupsListingHost(s.groups, name) <= t.groupQueue && s.jobs.Keys <= t.jobQueue
    ensures OnlyHostStatus(s.hosts, name, t.hosts)
  {
    hide GroupsListingHost;
    assert s.hosts[name] == s.hosts[name].(conds := s.hosts[name].conds);
  }

  /** The part of the frame before any status is written. */
  ghost predicate ObjectsMade(s: State, h: Host, text: string, parses: string -> bool, t: State) {
    && t == s.(configMaps := t.configMaps, secrets := t.secrets, groupQueue := t.groupQueue, jobQueue := t.jobQueue)
    && s.groupQueue <= t.groupQueue && s.jobQueue <= t.jobQueue
    && VarsUpdated(s.configMaps, h.Id(), h.vars, t.configMaps)
    && Pinned(s.secrets, h, text, parses, t.secrets)
  }

  lemma SecretThenVars(s: State, h: Host, text: string, parses: string -> bool, u: State, t: State)
    requires u == s.(secrets := u.secrets) && Pinned(s.secrets, h, text, parses, u.secrets)
    requires VarsWritten(u, h.Id(), h.vars, t)
    ensures ObjectsMade(s, h, text, parses, t) && t.secrets == u.secrets
  {
    hide Pinned, VarsWritten, VarsUpdated;
    VarsWriteInFrame(u, h, t);
  }

  lemma OnlySecret(s: State, h: Host, text: string, parses: string -> bool, t: State)
    requires t == s.(secrets := t.secrets) && Pinned(s.secrets, h, text, parses, t.secrets)
    ensures ObjectsMade(s, h, text, parses, t)
  {
    hide Pinned, Foreign, VarsSettled;
  }

  lemma ThenStatus(s: State, name: string, text: string, parses: string -> bool, u: State, conds: Conditions, t: State)
    requires name in s.hosts && ObjectsMade(s, s.hosts[name], text, parses, u)
    requires t == u || t == HostStatusWritten(u, name, conds)
    ensures HostFrame(s, name, text, parses, t)
    ensures t.configMaps == u.configMaps && t.secrets == u.secrets
  {
    hide Pinned, VarsUpdated, OnlyHostStatus, HostStatusWritten, GroupsListingHost;
    StatusWriteInFrame(u, name, conds, t);
  }

  // ---------- The reconciler ----------

  class HostReconciler {
    const c: Cluster
    /** Whether a private key parses, and the authorized-key line of a host key. */
    const parses: string -> bool
    const line: string -> string
    var host: Host

    constructor (c: Cluster, parses: string -> bool, line: string -> string, host: Host)
      ensures this.c == c && this.parses == parses && this.line == line && this.host == host
    {
      this.c, this.parses, this.line, this.host := c, parses, line, host;
    }

    ghost predicate InStep()
      reads this, c
    {
      host.name in c.store.hosts && c.store.hosts[host.name] == host
    }

    method SetStatus(cond: Condition) returns (err: Option<Error>)
      requires InStep()
      modifies this, c
      ensures host == old(host).(conds := old(host).conds[Ready := cond])
      ensures old(c.statusFailures) <= c.statusFailures && (err.None? <==> c.statusFailures == old(c.statusFailures))
      ensures old(c.calls) <= c.calls
      ensures c.store == if err.None? && old(host).conds != host.conds
                         then HostStatusWritten(old(c.store), host.name, host.conds) else old(c.store)
      ensures err.None? ==> InStep()
      ensures c.CleanSince(old(c.calls)) ==> err.None?
    {
      var changed := Ready !in host.conds || host.conds[Ready] != cond;
      host := host.(conds := host.conds[Ready := cond]);
      err := None;
      if changed {
        err := c.UpdateHostStatus(host.name, host.conds);
      }
    }

    method SetStatusReady() returns (err: Option<Error>)
      requires InStep()
      modifies this, c
      ensures host == old(host).(conds := old(host).conds[Ready := Condition(CondTrue, HostIsReady)])
      ensures old(c.statusFailures) <= c.statusFailures && (err.None? <==> c.statusFailures == old(c.statusFailures))
      ensures old(c.calls) <= c.calls
      ensures c.store == if err.None? && old(host).conds != host.conds
                         then HostStatusWritten(old(c.store), host.name, host.conds) else old(c.store)
      ensures err.None? ==> InStep()
      ensures c.CleanSince(old(c.calls)) ==> err.None?
    {
      err := SetStatus(Condition(CondTrue, HostIsReady));
    }

    method SetStatusNotReady(stage: HostStage, cause: Error) returns (err: Option<Error>)
      requires InStep()
      modifies this, c
      ensures host == old(host).(conds := old(host).conds[Ready := Condition(CondFalse, HostFailure(stage, cause))])
      ensures old(c.statusFailures) <= c.statusFailures && (err.None? <==> c.statusFailures == old(c.statusFailures))
      ensures old(c.calls) <= c.calls
      ensures c.store == if err.None? && old(host).conds != host.conds
                         then HostStatusWritten(old(c.store), host.name, host.conds) else old(c.store)
      ensures err.None? ==> InStep()
      ensures c.CleanSince(old(c.calls)) ==> err.None?
    {
      err := SetStatus(Condition(CondFalse, HostFailure(stage, cause)));
    }

    method HostPrivateKeySecretExists() returns (err: Option<Error>, present: bool)
      modifies c`calls
      ensures old(c.calls) <= c.calls
      ensures err.None? && present ==> KeyValid(c.store.secrets, host, parses)
      ensures err.None? && present ==> UsableKey(c.store.secrets, host, parses)
      ensures c.CleanSince(old(c.calls)) ==> (err.None? && present <==> KeyValid(c.store.secrets, host, parses))
      ensures c.CleanSince(old(c.calls)) ==> (err.None? && present <==> UsableKey(c.store.secrets, host, parses))
      ensures c.CleanSince(old(c.calls)) && err.Some? ==> err == Some(BadPrivateKey)
      ensures c.CleanSince(old(c.calls)) ==> (err.None? && !present <==> host.keySecret !in c.store.secrets)
    {
      var lookup := c.Fetch(c.store.secrets, host.keySecret);
      match lookup {
        case NotFound => return None, false;
        case Failed(e) => return Some(e), false;
        case Found(secret) =>
          if SSH_KEY !in secret.data || |secret.data[SSH_KEY]| == 0 { return Some(BadPrivateKey), false; }
          if !parses(secret.data[SSH_KEY]) { return Some(BadPrivateKey), false; }
          return None, true;
      }
    }

    method CreateHostKeysSecret(arrivals: seq<ProbeResult>) returns (err: Option<Error>)
      modifies c
      ensures c.statusFailures == old(c.statusFailures)
      ensures old(c.calls) <= c.calls
      ensures err.Some? ==> c.store == old(c.store)
      ensures err.None? ==>
                && host.hostKeySecret !in old(c.store).secrets && Captured(arrivals) != []
                && c.store == old(c.store).(secrets := old(c.store).secrets[host.hostKeySecret := PinnedKeys(host, SortedText(Captured(arrivals), line))])
      ensures err.None? ==>
                && host.hostKeySecret in c.store.secrets && Pins(c.store.secrets[host.hostKeySecret], host, SortedText(Captured(arrivals), line))
                && c.store.secrets - {host.hostKeySecret} == old(c.store).secrets
      ensures c.CleanSince(old(c.calls)) ==> (err.None? <==> host.hostKeySecret !in old(c.store).secrets && Captured(arrivals) != [])
      ensures c.CleanSince(old(c.calls)) && err.Some? && host.hostKeySecret !in old(c.store).secrets ==> Explains(err.value, host, arrivals, HostKeysError)
    {
      var keys;
      keys, err := CollectKeys(arrivals);
      if err.Some? { return; }
      var text := HostKeysToSortedString(keys, line);
      err := c.CreateSecret(host.hostKeySecret, PinnedKeys(host, text));
    }

    method EnsureHostKeysSecretExists(arrivals: seq<ProbeResult>) returns (err: Option<Error>)
      modifies c
      ensures c.statusFailures == old(c.statusFailures)
      ensures old(c.calls) <= c.calls
      ensures c.store == old(c.store).(secrets := c.store.secrets)
      ensures AddsKeys(old(c.store).secrets, host, SortedText(Captured(arrivals), line), c.store.secrets)
      ensures OnlyPins(old(c.store).secrets, host, SortedText(Captured(arrivals), line), c.store.secrets)
      ensures err.None? ==> host.hostKeySecret in c.store.secrets
      ensures c.CleanSince(old(c.calls)) ==> (err.None? <==> host.hostKeySecret in old(c.store).secrets || Captured(arrivals) != [])
      ensures c.CleanSince(old(c.calls)) && err.Some? ==> Explains(err.value, host, arrivals, HostKeysError)
    {
      hide KeyValid, PinnedKeys, SortedText, Captured, Pins, Explains;
      var lookup := c.Fetch(c.store.secrets, host.hostKeySecret);
      match lookup {
        case NotFound => err := CreateHostKeysSecret(arrivals);
        case Failed(e) => err := Some(e);
        case Found(_) => err := None;
      }
    }

    /** Key, pinned keys, variables: what failed first, and why. */
    method EnsureObjects(arrivals: seq<ProbeResult>) returns (failure: Option<(HostStage, Error)>)
      modifies c
      ensures c.statusFailures == old(c.statusFailures)
      ensures old(c.calls) <= c.calls
      ensures ObjectsMade(old(c.store), host, SortedText(Captured(arrivals), line), parses, c.store)
      ensures failure.None? ==> HostOk(c.store, host, parses)
      ensures c.CleanSince(old(c.calls)) ==>
                var expected := FirstFailure(old(c.store), host, Captured(arrivals) != [], parses);
                (failure.None? <==> expected.None?) && (failure.Some? ==> failure.value.0 == expected.value)
      ensures c.CleanSince(old(c.calls)) && failure.Some? ==> Explains(failure.value.1, host, arrivals, failure.value.0)
      ensures OnlyPins(old(c.store).secrets, host, SortedText(Captured(arrivals), line), c.store.secrets)
    {
      hide UsableKey, OnlyPins, KeyValid, SortedText, Captured, VarsSettled, Foreign, VarsWritten, Pinned, ObjectsMade;
      ghost var s, text := c.store, SortedText(Captured(arrivals), line);
      NothingPinned(s.secrets, host, text, parses);
      assert OnlyPins(s.secrets, host, text, s.secrets) by { AddedKeysPin(s.secrets, host, text, s.secrets); }
      OnlySecret(s, host, text, parses, s);
      var err, keyPresent := HostPrivateKeySecretExists();
      if err.Some? { return Some((PrivateKeyError, err.value)); }
      if !keyPresent { return Some((PrivateKeyMissing, NoSuchObject)); }
      if !host.ignoreHostKey {
        err := EnsureHostKeysSecretExists(arrivals);
        assert Pinned(s.secrets, host, text, parses, c.store.secrets) by { KeyAdded(s.secrets, host, text, parses, c.store.secrets); }
        OnlySecret(s, host, text, parses, c.store);
        if err.Some? { return Some((HostKeysError, err.value)); }
      }
      ghost var u := c.store;
      KeyStaysValid(s.secrets, host, text, parses, u.secrets);
      err := EnsureVarsConfigMap(c, host.Id(), host.vars);
      SecretThenVars(s, host, text, parses, u, c.store);
      failure := if err.Some? then Some((VarsConfigMapError, err.value)) else None;
    }

    /** `arrivals` are the probe results a scan made now would receive. Most
        failures are not returned: the host is tried again later, so that its
        SSH server is not hammered. */
    method Reconcile(name: string, arrivals: seq<ProbeResult>) returns (r: HostResult)
      requires WellFormed(c.store)
      modifies this, c
      ensures old(c.calls) <= c.calls
      ensures c.statusFailures == old(c.statusFailures) ==>
                (r.Later? ==> UnreadyHost(c.store, name)) && (r.Broken? ==> c.store == old(c.store))
      ensures HostOutcome(old(c.store), name, SortedText(Captured(arrivals), line), parses, c.store, r)
      ensures c.CleanSince(old(c.calls)) ==> CleanHostOutcome(old(c.store), name, Captured(arrivals) != [], parses, c.store, r)
      ensures name in old(c.store).hosts ==> OnlyPins(old(c.store).secrets, old(c.store).hosts[name], SortedText(Captured(arrivals), line), c.store.secrets)
      ensures r.Finished? ==>
                && name in c.store.hosts && InPlace(c.store, c.store.hosts[name], parses)
                && Get(c.store.hosts[name].conds, Ready) == Some(Condition(CondTrue, HostIsReady))
      ensures c.CleanSince(old(c.calls)) && name in old(c.store).hosts ==>
                DecidedByNeeds(old(c.store), name, arrivals, parses, c.store, r)
    {
      hide DecidedByNeeds, FirstFailure, InPlace, Explains, OnlyPins, UsableKey, KeyValid, SortedText, Captured, VarsSettled, Foreign, ObjectsMade, HostFrame, HostOk, Lists, GroupsNamed, JobsNamed, HostEvent;
      ghost var s, text := c.store, SortedText(Captured(arrivals), line);
      if name in s.hosts {
        assert OnlyPins(s.secrets, s.hosts[name], text, s.secrets) by { AddedKeysPin(s.secrets, s.hosts[name], text, s.secrets); }
      }
      var lookup := c.Fetch(c.store.hosts, name);
      match lookup {
        case NotFound => return Absent;
        case Failed(e) => return Broken(e);
        case Found(found) => host := found;
      }
      var failure := EnsureObjects(arrivals);
      ghost var u := c.store;
      MadeKeepsHosts(s, host, text, parses, u);
      if failure.Some? {
        var err := SetStatusNotReady(failure.value.0, failure.value.1);
        ThenStatus(s, name, text, parses, u, host.conds, c.store);
        r := Later;
        if c.CleanSince(old(c.calls)) {
          assert Reports(c.store, name, arrivals, failure.value.0) by { SameExplanation(failure.value.1, s.hosts[name], host, arrivals, failure.value.0); }
          DecidedByFirstFailure(s, name, arrivals, parses, c.store, r);
        }
        return;
      }
      var err := SetStatusReady();
      ThenStatus(s, name, text, parses, u, host.conds, c.store);
      if err.Some? { return Broken(err.value); }
      StillOk(u, s.hosts[name], c.store, host, parses);
      OkIsInPlace(c.store, host, parses);
      r := Finished;
      if c.CleanSince(old(c.calls)) { DecidedByFirstFailure(s, name, arrivals, parses, c.store, r); }
    }
  }

  lemma SameExplanation(cause: Error, h: Host, h': Host, arrivals: seq<ProbeResult>, stage: HostStage)
    requires Explains(cause, h, arrivals, stage) && h'.name == h.name
    ensures Explains(cause, h', arrivals, stage)
  {
  }

  lemma StillOk(u: State, h: Host, t: State, h': Host, parses: string -> bool)
    requires HostOk(u, h, parses) && h' == h.(conds := h'.conds)
    requires t.configMaps == u.configMaps && t.secrets == u.secrets
    ensures HostOk(t, h', parses)
  {
  }

  lemma KeyAdded(before: map<string, Secret>, h: Host, text: string, parses: string -> bool, after: map<string, Secret>)
    requires AddsKeys(before, h, text, after) && KeyValid(before, h, parses) && !h.ignoreHostKey
    ensures Pinned(before, h, text, parses, after)
  {
  }

  lemma NothingPinned(secrets: map<string, Secret>, h: Host, text: string, parses: string -> bool)
    ensures Pinned(secrets, h, text, parses, secrets)
  {
  }

  lemma MadeKeepsHosts(s: State, h: Host, text: string, parses: string -> bool, t: State)
    requires ObjectsMade(s, h, text, parses, t)
    ensures t.hosts == s.hosts
  {
  }

  /** Pinning adds a secret and touches no other, so the private key stays good. */
  lemma KeyStaysValid(before: map<string, Secret>, h: Host, text: string, parses: string -> bool, after: map<string, Secret>)
    requires Pinned(before, h, text, parses, after)
    ensures KeyValid(before, h, parses) ==> KeyValid(after, h, parses)
  {
  }
}
