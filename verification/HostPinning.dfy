// Trust on first use, with host reconciles interleaved call by call: what is
// pinned, when, and that it never changes afterwards.

module HostPinning {
  import opened Objects
  import opened HostController
  import opened KnownHosts
  import KeyScan

  // ---------- Workers ----------

  type Worker = nat

  /** How far a worker has got with the host it is reconciling. */
  datatype Phase =
    | Idle
    | Validated(host: Host)
    | SawAbsent(host: Host)
    | Scanned(host: Host, text: string)

  /** What has happened, in order. */
  datatype Event =
    | ValidateEvent(worker: Worker, host: Host)
    | AbsentEvent(worker: Worker, host: Host)
    | ScanEvent(worker: Worker, host: Host, text: string)
    | CreateEvent(worker: Worker, host: Host, text: string)
    | GiveUpEvent(worker: Worker)
    | OutsideEvent(secret: string)

  /** The secrets, and a phase for every worker that is not idle. */
  datatype World = World(secrets: map<string, Secret>, phases: map<Worker, Phase>, history: seq<Event>)

  function PhaseOf(w: World, p: Worker): Phase {
    if p in w.phases then w.phases[p] else Idle
  }

  function Moved(w: World, p: Worker, phase: Phase, e: Event): World {
    w.(phases := w.phases[p := phase], history := w.history + [e])
  }

  // ---------- Steps ----------

  /** The private key was read and parses; the host's keys are to be checked. */
  ghost predicate Validate(w: World, p: Worker, h: Host, parses: string -> bool, v: World) {
    && PhaseOf(w, p).Idle?
    && !h.ignoreHostKey && KeyValid(w.secrets, h, parses)
    && v == Moved(w, p, Validated(h), ValidateEvent(p, h))
  }

  /** Get on the host-key secret answers not found. */
  ghost predicate SeeAbsent(w: World, p: Worker, v: World) {
    PhaseOf(w, p).Validated? &&
    var h := PhaseOf(w, p).host;
    h.hostKeySecret !in w.secrets && v == Moved(w, p, SawAbsent(h), AbsentEvent(p, h))
  }

  /** The scan captures some keys. */
  ghost predicate ScanKeys(w: World, p: Worker, text: string, v: World) {
    PhaseOf(w, p).SawAbsent? &&
    var h := PhaseOf(w, p).host;
    v == Moved(w, p, Scanned(h, text), ScanEvent(p, h, text))
  }

  /** Create succeeds, which it does only if nobody else was faster. */
  ghost predicate CreateKeys(w: World, p: Worker, v: World) {
    PhaseOf(w, p).Scanned? &&
    var h, text := PhaseOf(w, p).host, PhaseOf(w, p).text;
    && h.hostKeySecret !in w.secrets
    && v == Moved(w, p, Idle, CreateEvent(p, h, text)).(secrets := w.secrets[h.hostKeySecret := PinnedKeys(h, text)])
  }

  /** The secret exists, a call fails, the scan fails or Create does: the reconcile ends. */
  ghost predicate GiveUp(w: World, p: Worker, v: World) {
    v == Moved(w, p, Idle, GiveUpEvent(p))
  }

  /** Somebody else creates, edits or deletes the secret. */
  ghost predicate Outside(w: World, name: string, v: World) {
    && v.phases == w.phases && v.history == w.history + [OutsideEvent(name)]
    && forall n :: n != name ==> Get(v.secrets, n) == Get(w.secrets, n)
  }

  ghost predicate WorkerStep(w: World, p: Worker, parses: string -> bool, v: World) {
    || (exists h :: Validate(w, p, h, parses, v))
    || SeeAbsent(w, p, v)
    || (exists text :: ScanKeys(w, p, text, v))
    || CreateKeys(w, p, v)
    || GiveUp(w, p, v)
  }

  ghost predicate Step(w: World, parses: string -> bool, v: World) {
    (exists p :: WorkerStep(w, p, parses, v)) || (exists name :: Outside(w, name, v))
  }

  ghost predicate StepAt(trace: seq<World>, parses: string -> bool, i: nat)
    requires i + 1 < |trace|
  {
    Step(trace[i], parses, trace[i + 1])
  }

  ghost predicate Run(trace: seq<World>, parses: string -> bool) {
    && trace != [] && trace[0].history == [] && trace[0].phases == map[]
    && forall i: nat :: i + 1 < |trace| ==> StepAt(trace, parses, i)
  }

  lemma RunStep(trace: seq<World>, parses: string -> bool, i: nat)
    requires Run(trace, parses) && i + 1 < |trace|
    ensures Step(trace[i], parses, trace[i + 1])
  {
    assert StepAt(trace, parses, i);
  }

  // ---------- Pinned once ----------

  /** Only its creation and outside edits ever touch a secret. */
  lemma StepKeepsSecret(w: World, parses: string -> bool, v: World, name: string)
    requires Step(w, parses, v)
    ensures |v.history| == |w.history| + 1 && v.history[..|w.history|] == w.history
    ensures name in w.secrets && v.history[|w.history|] != OutsideEvent(name) ==> name in v.secrets && v.secrets[name] == w.secrets[name]
    ensures v.history[|w.history|].CreateEvent? ==>
              v.history[|w.history|].host.hostKeySecret !in w.secrets && v.history[|w.history|].host.hostKeySecret in v.secrets
  {
    hide KeyValid, PinnedKeys;
    if other :| Outside(w, other, v) {
      assert name != other ==> Get(v.secrets, name) == Get(w.secrets, name);
    } else {
      var p :| WorkerStep(w, p, parses, v);
    }
  }

  ghost predicate LeftAlone(history: seq<Event>, from: nat, name: string) {
    forall i :: from <= i < |history| ==> history[i] != OutsideEvent(name)
  }

  /** Once it exists, a host-key secret keeps its contents, whatever the workers
      do, for as long as nobody outside touches it. */
  lemma {:induction false} PinnedForever(trace: seq<World>, parses: string -> bool, i: nat, j: nat, name: string)
    requires Run(trace, parses) && i <= j < |trace| && name in trace[i].secrets
    requires LeftAlone(trace[j].history, i, name)
    ensures name in trace[j].secrets && trace[j].secrets[name] == trace[i].secrets[name]
  {
    hide Step;
    HistoryLength(trace, parses, j);
    if i < j {
      RunStep(trace, parses, j - 1);
      StepKeepsSecret(trace[j - 1], parses, trace[j], name);
      HistoryLength(trace, parses, j - 1);
      assert trace[j - 1].history == trace[j].history[..j - 1];
      PinnedForever(trace, parses, i, j - 1, name);
    }
  }

  lemma {:induction false} HistoryLength(trace: seq<World>, parses: string -> bool, j: nat)
    requires Run(trace, parses) && j < |trace|
    ensures |trace[j].history| == j
  {
    hide Step;
    if j > 0 {
      HistoryLength(trace, parses, j - 1);
      RunStep(trace, parses, j - 1);
      StepKeepsSecret(trace[j - 1], parses, trace[j], "");
    }
  }

  lemma {:induction false} HistoryGrows(trace: seq<World>, parses: string -> bool, i: nat, j: nat)
    requires Run(trace, parses) && i <= j < |trace|
    ensures |trace[j].history| == j && trace[j].history[..i] == trace[i].history
  {
    hide Step;
    HistoryLength(trace, parses, j);
    if i < j {
      HistoryLength(trace, parses, j - 1);
      RunStep(trace, parses, j - 1);
      StepKeepsSecret(trace[j - 1], parses, trace[j], "");
      HistoryGrows(trace, parses, i, j - 1);
      assert trace[j].history[..i] == trace[j].history[..j - 1][..i];
    } else {
      assert trace[j].history[..j] == trace[j].history;
    }
  }

  /** Two workers never both pin one secret, even for different hosts that
      name the same secret. */
  lemma CreatedOnce(trace: seq<World>, parses: string -> bool, i: nat, j: nat)
    requires Run(trace, parses)
    requires var history := trace[|trace| - 1].history;
             && i < j < |history| && history[i].CreateEvent? && history[j].CreateEvent?
             && history[i].host.hostKeySecret == history[j].host.hostKeySecret
    ensures var history := trace[|trace| - 1].history;
            exists k :: i < k < j && history[k] == OutsideEvent(history[i].host.hostKeySecret)
  {
    hide Step;
    var last := |trace| - 1;
    var history := trace[last].history;
    var name := history[i].host.hostKeySecret;
    HistoryLength(trace, parses, last);
    HistoryGrows(trace, parses, i + 1, last);
    HistoryGrows(trace, parses, j, last);
    HistoryGrows(trace, parses, j + 1, last);
    assert trace[i + 1].history[i] == history[i] && trace[j + 1].history[j] == history[j];
    HistoryLength(trace, parses, i);
    HistoryLength(trace, parses, i + 1);
    HistoryLength(trace, parses, j);
    HistoryLength(trace, parses, j + 1);
    RunStep(trace, parses, i);
    RunStep(trace, parses, j);
    StepKeepsSecret(trace[i], parses, trace[i + 1], name);
    StepKeepsSecret(trace[j], parses, trace[j + 1], name);
    if forall k :: i < k < j ==> history[k] != OutsideEvent(name) {
      forall k | i + 1 <= k < |trace[j].history| ensures trace[j].history[k] != OutsideEvent(name) {
        assert trace[j].history[k] == history[..j][k];
      }
      PinnedForever(trace, parses, i + 1, j, name);
    }
  }

  // ---------- Where pinned keys come from ----------

  predicate About(e: Event, p: Worker) {
    !e.OutsideEvent? && e.worker == p
  }

  /** No event of the worker between the two. */
  ghost predicate Quiet(history: seq<Event>, p: Worker, from: nat, to: nat) {
    forall i :: from < i < to && i < |history| ==> !About(history[i], p)
  }

  /** The worker's latest events, back to the validation its reconcile began with. */
  ghost predicate Traced(history: seq<Event>, p: Worker, phase: Phase, end: nat) {
    end <= |history| &&
    match phase
    case Idle => true
    case Validated(h) => exists a :: ValidatedAt(history, p, h, a, end)
    case SawAbsent(h) => exists a, b :: AbsentAt(history, p, h, a, b, end)
    case Scanned(h, text) => exists a, b, c :: ScannedAt(history, p, h, text, a, b, c, end)
  }

  ghost predicate ValidatedAt(history: seq<Event>, p: Worker, h: Host, a: nat, end: nat) {
    a < end <= |history| && history[a] == ValidateEvent(p, h) && Quiet(history, p, a, end)
  }

  ghost predicate AbsentAt(history: seq<Event>, p: Worker, h: Host, a: nat, b: nat, end: nat) {
    b < end <= |history| && history[b] == AbsentEvent(p, h) && Quiet(history, p, b, end) && ValidatedAt(history, p, h, a, b)
  }

  ghost predicate ScannedAt(history: seq<Event>, p: Worker, h: Host, text: string, a: nat, b: nat, c: nat, end: nat) {
    c < end <= |history| && history[c] == ScanEvent(p, h, text) && Quiet(history, p, c, end) && AbsentAt(history, p, h, a, b, c)
  }

  ghost predicate AllTraced(w: World) {
    && (forall p :: Traced(w.history, p, PhaseOf(w, p), |w.history|))
    && (forall d :: 0 <= d < |w.history| && w.history[d].CreateEvent? ==> CreationTraced(w.history, d))
  }

  /** The creation follows a scan, a look that found no secret and a validation,
      all of one host, by one worker that did nothing else in between. */
  ghost predicate CreationTraced(history: seq<Event>, d: nat)
    requires d < |history| && history[d].CreateEvent?
  {
    Traced(history, history[d].worker, Scanned(history[d].host, history[d].text), d)
  }

  lemma QuietExtended(history: seq<Event>, e: Event, p: Worker, from: nat, to: nat)
    requires Quiet(history, p, from, to) && to <= |history|
    ensures Quiet(history + [e], p, from, to)
    ensures to == |history| && !About(e, p) ==> Quiet(history + [e], p, from, to + 1)
  {
  }

  /** Events of others, and looking at an earlier end, keep a trace. */
  lemma TracedExtended(history: seq<Event>, e: Event, p: Worker, phase: Phase, end: nat)
    requires Traced(history, p, phase, end)
    ensures Traced(history + [e], p, phase, end)
    ensures end == |history| && !About(e, p) ==> Traced(history + [e], p, phase, end + 1)
  {
    hide Quiet;
    forall from: nat, to: nat | Quiet(history, p, from, to) && to <= |history|
      ensures Quiet(history + [e], p, from, to)
      ensures to == |history| && !About(e, p) ==> Quiet(history + [e], p, from, to + 1)
    {
      QuietExtended(history, e, p, from, to);
    }
    match phase {
      case Idle =>
      case Validated(h) =>
        var a :| ValidatedAt(history, p, h, a, end);
        assert ValidatedAt(history + [e], p, h, a, end);
        if end == |history| && !About(e, p) { assert ValidatedAt(history + [e], p, h, a, end + 1); }
      case SawAbsent(h) =>
        var a, b :| AbsentAt(history, p, h, a, b, end);
        assert AbsentAt(history + [e], p, h, a, b, end);
        if end == |history| && !About(e, p) { assert AbsentAt(history + [e], p, h, a, b, end + 1); }
      case Scanned(h, text) =>
        var a, b, c :| ScannedAt(history, p, h, text, a, b, c, end);
        assert ScannedAt(history + [e], p, h, text, a, b, c, end);
        if end == |history| && !About(e, p) { assert ScannedAt(history + [e], p, h, text, a, b, c, end + 1); }
    }
  }

  /** The event just appended concerns p: its new phase is traced. */
  lemma StepTraces(w: World, p: Worker, parses: string -> bool, v: World)
    requires WorkerStep(w, p, parses, v) && Traced(w.history, p, PhaseOf(w, p), |w.history|)
    ensures Traced(v.history, p, PhaseOf(v, p), |v.history|)
    ensures forall q :: q != p ==> PhaseOf(v, q) == PhaseOf(w, q)
    ensures |v.history| == |w.history| + 1 && v.history == w.history + [v.history[|w.history|]]
    ensures var e := v.history[|w.history|];
            e.CreateEvent? ==> e.worker == p && PhaseOf(w, p) == Scanned(e.host, e.text)
    ensures About(v.history[|w.history|], p)
  {
    hide KeyValid, PinnedKeys;
    var end := |w.history|;
    TracedExtended(w.history, v.history[end], p, PhaseOf(w, p), end);
    if h :| Validate(w, p, h, parses, v) {
      assert ValidatedAt(v.history, p, h, end, end + 1);
    } else if SeeAbsent(w, p, v) {
      var h := PhaseOf(w, p).host;
      var a :| ValidatedAt(v.history, p, h, a, end);
      assert AbsentAt(v.history, p, h, a, end, end + 1);
    } else if text :| ScanKeys(w, p, text, v) {
      var h := PhaseOf(w, p).host;
      var a, b :| AbsentAt(v.history, p, h, a, b, end);
      assert ScannedAt(v.history, p, h, text, a, b, end, end + 1);
    }
  }

  lemma StepKeepsTraced(w: World, parses: string -> bool, v: World)
    requires AllTraced(w) && Step(w, parses, v)
    ensures AllTraced(v)
  {
    hide WorkerStep, Traced;
    var end := |w.history|;
    StepKeepsSecret(w, parses, v, "");
    var e := v.history[end];
    assert v.history == w.history + [e];
    forall d | 0 <= d < end && v.history[d].CreateEvent? ensures CreationTraced(v.history, d) {
      assert CreationTraced(w.history, d);
      TracedExtended(w.history, e, v.history[d].worker, Scanned(v.history[d].host, v.history[d].text), d);
    }
    if p :| WorkerStep(w, p, parses, v) {
      StepTraces(w, p, parses, v);
      TracedExtended(w.history, e, p, PhaseOf(w, p), end);
      forall q ensures Traced(v.history, q, PhaseOf(v, q), |v.history|) {
        if q != p { TracedExtended(w.history, e, q, PhaseOf(w, q), end); }
      }
    } else {
      forall q ensures Traced(v.history, q, PhaseOf(v, q), |v.history|) {
        TracedExtended(w.history, e, q, PhaseOf(w, q), end);
      }
    }
  }

  lemma {:induction false} RunTraced(trace: seq<World>, parses: string -> bool, i: nat)
    requires Run(trace, parses) && i < |trace|
    ensures AllTraced(trace[i])
  {
    hide Step;
    if i > 0 {
      hide AllTraced;
      RunTraced(trace, parses, i - 1);
      RunStep(trace, parses, i - 1);
      StepKeepsTraced(trace[i - 1], parses, trace[i]);
    }
  }

  /** What an event says about the secrets just before and after it. */
  predicate Means(e: Event, before: map<string, Secret>, after: map<string, Secret>, parses: string -> bool) {
    match e
    case ValidateEvent(_, h) => !h.ignoreHostKey && KeyValid(before, h, parses) && after == before
    case AbsentEvent(_, h) => h.hostKeySecret !in before && after == before
    case ScanEvent(_, _, _) => after == before
    case CreateEvent(_, h, text) => h.hostKeySecret !in before && after == before[h.hostKeySecret := PinnedKeys(h, text)]
    case GiveUpEvent(_) => after == before
    case OutsideEvent(_) => true
  }

  lemma StepMeans(w: World, parses: string -> bool, v: World)
    requires Step(w, parses, v)
    ensures |v.history| == |w.history| + 1 && Means(v.history[|w.history|], w.secrets, v.secrets, parses)
  {
    hide KeyValid, PinnedKeys;
    if other :| Outside(w, other, v) {
    } else {
      var p :| WorkerStep(w, p, parses, v);
      if h :| Validate(w, p, h, parses, v) {
      } else if text :| ScanKeys(w, p, text, v) {
      }
    }
  }

  lemma EventMeaning(trace: seq<World>, parses: string -> bool, k: nat)
    requires Run(trace, parses) && k < |trace| - 1
    ensures k < |trace[|trace| - 1].history|
    ensures Means(trace[|trace| - 1].history[k], trace[k].secrets, trace[k + 1].secrets, parses)
  {
    hide Step, Means;
    var last := |trace| - 1;
    HistoryLength(trace, parses, last);
    HistoryLength(trace, parses, k);
    HistoryGrows(trace, parses, k + 1, last);
    assert trace[k + 1].history[k] == trace[last].history[k];
    RunStep(trace, parses, k);
    StepMeans(trace[k], parses, trace[k + 1]);
  }

  /** Every secret a controller made holds one scan, taken by a worker that had
      validated the host's private key and then seen the secret absent. */
  lemma TrustOnFirstUse(trace: seq<World>, parses: string -> bool, d: nat) returns (a: nat, b: nat, c: nat)
    requires Run(trace, parses)
    requires d < |trace[|trace| - 1].history| && trace[|trace| - 1].history[d].CreateEvent?
    ensures a < b < c < d < |trace| - 1
    ensures var history, p, h := trace[|trace| - 1].history, trace[|trace| - 1].history[d].worker, trace[|trace| - 1].history[d].host;
            && history[a] == ValidateEvent(p, h) && history[b] == AbsentEvent(p, h)
            && history[c] == ScanEvent(p, h, history[d].text)
            && Quiet(history, p, a, b) && Quiet(history, p, b, c) && Quiet(history, p, c, d)
            && KeyValid(trace[a].secrets, h, parses) && !h.ignoreHostKey
            && h.hostKeySecret !in trace[b].secrets
            && h.hostKeySecret !in trace[d].secrets && h.hostKeySecret in trace[d + 1].secrets
            && trace[d + 1].secrets - {h.hostKeySecret} == trace[d].secrets
            && trace[d + 1].secrets[h.hostKeySecret].data == map["host_keys" := history[d].text]
            && ControllerOf(trace[d + 1].secrets[h.hostKeySecret].owners) == Some(h.Id())
  {
    hide KeyValid, PinnedKeys, Step, Quiet;
    var last := |trace| - 1;
    HistoryLength(trace, parses, last);
    RunTraced(trace, parses, last);
    var history := trace[last].history;
    assert CreationTraced(history, d);
    var a', b', c' :| ScannedAt(history, history[d].worker, history[d].host, history[d].text, a', b', c', d);
    a, b, c := a', b', c';
    EventMeaning(trace, parses, a);
    EventMeaning(trace, parses, b);
    EventMeaning(trace, parses, d);
    PinnedKeysPin(history[d].host, history[d].text);
  }

  lemma PinnedKeysPin(h: Host, text: string)
    ensures Pins(PinnedKeys(h, text), h, text)
  {
  }

  /** From the scan to the file: once a scan's text has been pinned and as long as
      nobody outside touches the secret, the known-hosts text has behind the
      address of any host with that secret the lines of the scanned keys, and, if
      no host of that address has another secret, no others. */
  lemma PinnedKeysAreKnown(trace: seq<World>, parses: string -> bool, d: nat, j: nat, keys: seq<string>, line: string -> string,
                           hosts: seq<Host>, g: Host, l: string)
    requires Run(trace, parses) && d < j < |trace|
    requires var e := trace[|trace| - 1].history; d < |e| && e[d].CreateEvent? && e[d].text == KeyScan.SortedText(keys, line)
    requires LeftAlone(trace[j].history, d + 1, trace[|trace| - 1].history[d].host.hostKeySecret)
    requires g in hosts && g.hostKeySecret == trace[|trace| - 1].history[d].host.hostKeySecret
    requires (forall x :: x in hosts ==> PlainAddress(x.address)) && KnownHostsText(hosts, trace[j].secrets).Some?
    requires forall k :: k in keys ==> '\n' !in line(k) && line(k) != ""
    ensures IsKeyLine(keys, line, l) ==> (g.address, l) in ReadKnownHosts(KnownHostsText(hosts, trace[j].secrets).value)
    ensures (forall x :: x in hosts && x.address == g.address ==> x.hostKeySecret == g.hostKeySecret) ==>
              (IsKeyLine(keys, line, l) <==> (g.address, l) in ReadKnownHosts(KnownHostsText(hosts, trace[j].secrets).value))
  {
    hide Step, KnownHostsText, ReadKnownHosts, IsKeyLine, LeftAlone, KeyValid;
    var a, b, c := TrustOnFirstUse(trace, parses, d);
    PinnedForever(trace, parses, d + 1, j, g.hostKeySecret);
    assert Get(trace[j].secrets, g.hostKeySecret).Some?;
    assert Get(trace[j].secrets[g.hostKeySecret].data, "host_keys") == Some(KeyScan.SortedText(keys, line));
    hide KeyScan.SortedText;
    StoredKeysAreKnown(hosts, trace[j].secrets, g, keys, line, l);
  }

  // ---------- A whole reconcile is such a run ----------

  /** What an undisturbed reconcile does to the secrets, these steps can do. */
  lemma ReconcileIsARun(before: map<string, Secret>, h: Host, text: string, parses: string -> bool, after: map<string, Secret>)
    returns (trace: seq<World>)
    requires Pinned(before, h, text, parses, after)
    ensures Run(trace, parses) && trace[0].secrets == before && trace[|trace| - 1].secrets == after
    ensures PhaseOf(trace[|trace| - 1], 0).Idle?
  {
    hide KeyValid, PinnedKeys;
    var w0 := World(before, map[], []);
    if after == before {
      var w1 := Moved(w0, 0, Idle, GiveUpEvent(0));
      assert WorkerStep(w0, 0, parses, w1);
      trace := [w0, w1];
    } else {
      var w1 := Moved(w0, 0, Validated(h), ValidateEvent(0, h));
      assert WorkerStep(w0, 0, parses, w1) by { assert Validate(w0, 0, h, parses, w1); }
      var w2 := Moved(w1, 0, SawAbsent(h), AbsentEvent(0, h));
      assert WorkerStep(w1, 0, parses, w2);
      var w3 := Moved(w2, 0, Scanned(h, text), ScanEvent(0, h, text));
      assert WorkerStep(w2, 0, parses, w3) by { assert ScanKeys(w2, 0, text, w3); }
      var w4 := Moved(w3, 0, Idle, CreateEvent(0, h, text)).(secrets := after);
      assert WorkerStep(w3, 0, parses, w4);
      trace := [w0, w1, w2, w3, w4];
    }
  }
}
