// Scanning a host for its keys: one concurrent probe per group of key types,
// a channel with room for every result, and one collector.

module KeyScan {
  import opened Strings
  import opened Objects

  // ---------- Probes, channel and collector as a state machine ----------

  /** Probes that have not sent yet, results waiting in the channel and results
      received, each result named by its probe. */
  datatype Scan = Scan(unsent: set<nat>, channel: seq<nat>, received: seq<nat>)

  function Probes(n: nat): (r: set<nat>)
    ensures |r| == n && forall i: nat :: i in r <==> i < n
  {
    if n == 0 then {} else Probes(n - 1) + {n - 1}
  }

  function Started(n: nat): Scan { Scan(Probes(n), [], []) }

  /** A probe that is done sends, if the channel of capacity n has room. */
  predicate Send(n: nat, s: Scan, i: nat, t: Scan) {
    i in s.unsent && |s.channel| < n && t == s.(unsent := s.unsent - {i}, channel := s.channel + [i])
  }

  /** The collector receives, once per probe group. */
  predicate Receive(n: nat, s: Scan, t: Scan) {
    |s.received| < n && s.channel != [] && t == s.(channel := s.channel[1..], received := s.received + [s.channel[0]])
  }

  ghost predicate ScanStep(n: nat, s: Scan, t: Scan) {
    Receive(n, s, t) || exists i :: Send(n, s, i, t)
  }

  /** Every probe is in exactly one place. */
  ghost predicate Accounted(n: nat, s: Scan) {
    && NoDup(s.received + s.channel)
    && (forall i: nat :: i in s.unsent ==> i !in s.received + s.channel)
    && (forall i: nat :: i < n <==> i in s.unsent || i in s.received + s.channel)
    && |s.unsent| + |s.channel| + |s.received| == n
  }

  lemma StartAccounted(n: nat)
    ensures Accounted(n, Started(n))
  {
  }

  lemma StepAccounted(n: nat, s: Scan, t: Scan)
    requires Accounted(n, s) && ScanStep(n, s, t)
    ensures Accounted(n, t)
    ensures 2 * |t.unsent| + |t.channel| == 2 * |s.unsent| + |s.channel| - 1
  {
    if Receive(n, s, t) {
      assert t.received + t.channel == s.received + s.channel;
    } else {
      var i :| Send(n, s, i, t);
      assert t.received + t.channel == (s.received + s.channel) + [i];
      assert |s.unsent - {i}| == |s.unsent| - 1;
    }
  }

  /** No probe that wants to send finds the channel full. */
  lemma SenderNeverBlocks(n: nat, s: Scan, i: nat)
    requires Accounted(n, s) && i in s.unsent
    ensures |s.channel| < n
  {
    assert |s.unsent| > 0;
  }

  /** While the collector still waits for a result, one will come. */
  lemma CollectorNeverStarves(n: nat, s: Scan)
    requires Accounted(n, s) && |s.received| < n
    ensures s.channel != [] || s.unsent != {}
  {
  }

  ghost predicate StepAt(n: nat, trace: seq<Scan>, i: nat)
    requires 0 < i < |trace|
  {
    ScanStep(n, trace[i - 1], trace[i])
  }

  /** A run from the start of the scan. */
  ghost predicate Run(n: nat, trace: seq<Scan>) {
    trace != [] && trace[0] == Started(n) && forall i: nat :: 0 < i < |trace| ==> StepAt(n, trace, i)
  }

  lemma ShorterRun(n: nat, trace: seq<Scan>)
    requires Run(n, trace) && |trace| > 1
    ensures Run(n, trace[..|trace| - 1]) && ScanStep(n, trace[|trace| - 2], trace[|trace| - 1])
  {
    hide ScanStep;
    var shorter := trace[..|trace| - 1];
    forall i: nat | 0 < i < |shorter| ensures StepAt(n, shorter, i) { assert StepAt(n, trace, i); }
    assert StepAt(n, trace, |trace| - 1);
  }

  lemma {:induction false} RunAccounted(n: nat, trace: seq<Scan>)
    requires Run(n, trace)
    ensures Accounted(n, trace[|trace| - 1])
    ensures 2 * |trace[|trace| - 1].unsent| + |trace[|trace| - 1].channel| == 2 * n - (|trace| - 1)
  {
    if |trace| == 1 {
      StartAccounted(n);
    } else {
      ShorterRun(n, trace);
      hide Run, Accounted, ScanStep;
      RunAccounted(n, trace[..|trace| - 1]);
      StepAccounted(n, trace[|trace| - 2], trace[|trace| - 1]);
    }
  }

  /** The collector can receive, or some probe can send. */
  ghost predicate CanStep(n: nat, s: Scan) {
    exists t: Scan {:trigger ScanStep(n, s, t)} :: ScanStep(n, s, t)
  }

  /** No interleaving blocks a sender or starves the collector: a scan takes at
      most 2n steps, and it can go on until the collector has all n results. */
  lemma ScanEnds(n: nat, trace: seq<Scan>)
    requires Run(n, trace)
    ensures |trace| <= 2 * n + 1
    ensures CanStep(n, trace[|trace| - 1]) || |trace[|trace| - 1].received| == n
  {
    RunAccounted(n, trace);
    hide Run;
    var last := trace[|trace| - 1];
    if |last.received| < n {
      CollectorNeverStarves(n, last);
      if last.channel != [] {
        var t := last.(channel := last.channel[1..], received := last.received + [last.channel[0]]);
        assert Receive(n, last, t);
        assert ScanStep(n, last, t);
      } else {
        var i :| i in last.unsent;
        SenderNeverBlocks(n, last, i);
        var t := last.(unsent := last.unsent - {i}, channel := last.channel + [i]);
        assert Send(n, last, i, t);
        assert ScanStep(n, last, t);
      }
    }
  }

  /** When the collector has its n results, it has one from every probe. */
  lemma CompleteRun(n: nat, trace: seq<Scan>)
    requires Run(n, trace) && |trace[|trace| - 1].received| == n
    ensures var last := trace[|trace| - 1];
            last.unsent == {} && last.channel == [] && NoDup(last.received) && forall i: nat :: i in last.received <==> i < n
  {
    assert trace != [];
    hide Run;
    var last := trace[|trace| - 1];
    RunAccounted(n, trace);
    assert last.received + last.channel == last.received;
  }

  // ---------- Collecting ----------

  /** A key by its wire form, an error, or (the code allows it) both or neither. */
  datatype ProbeResult = ProbeResult(key: Option<string>, err: Option<Error>)

  /** The captured keys in order of first arrival. */
  function Captured(arrivals: seq<ProbeResult>): (r: seq<string>)
    ensures NoDup(r)
    ensures forall k :: k in r <==> exists a :: a in arrivals && a.key == Some(k)
  {
    if arrivals == [] then []
    else
      var rest, last := Captured(arrivals[..|arrivals| - 1]), arrivals[|arrivals| - 1];
      assert forall a :: a in arrivals <==> a in arrivals[..|arrivals| - 1] || a == last;
      if last.key.Some? && last.key.value !in rest then rest + [last.key.value] else rest
  }

  /** Some probe delivered k before any delivered l. */
  ghost predicate ArrivesBefore(arrivals: seq<ProbeResult>, k: string, l: string) {
    exists p :: DeliversBefore(arrivals, p, k, l)
  }

  ghost predicate DeliversBefore(arrivals: seq<ProbeResult>, p: int, k: string, l: string) {
    0 <= p < |arrivals| && arrivals[p].key == Some(k) && forall q :: 0 <= q <= p ==> arrivals[q].key != Some(l)
  }

  lemma UncapturedIsLater(arrivals: seq<ProbeResult>, k: string, l: string)
    requires k in Captured(arrivals) && l !in Captured(arrivals)
    ensures ArrivesBefore(arrivals, k, l)
  {
    var a :| a in arrivals && a.key == Some(k);
    var p :| 0 <= p < |arrivals| && arrivals[p] == a;
    forall q | 0 <= q <= p ensures arrivals[q].key != Some(l) { assert arrivals[q] in arrivals; }
    assert DeliversBefore(arrivals, p, k, l);
  }

  lemma StillDelivers(arrivals: seq<ProbeResult>, k: string, l: string)
    requires arrivals != [] && ArrivesBefore(arrivals[..|arrivals| - 1], k, l)
    ensures ArrivesBefore(arrivals, k, l)
  {
    var p :| DeliversBefore(arrivals[..|arrivals| - 1], p, k, l);
    assert DeliversBefore(arrivals, p, k, l);
  }

  /** The captured keys are in the order in which they first arrived. */
  lemma {:induction false} CapturedInOrder(arrivals: seq<ProbeResult>, i: nat, j: nat)
    requires i < j < |Captured(arrivals)|
    ensures ArrivesBefore(arrivals, Captured(arrivals)[i], Captured(arrivals)[j])
  {
    hide ArrivesBefore, DeliversBefore;
    var before := arrivals[..|arrivals| - 1];
    var rest, all := Captured(before), Captured(arrivals);
    assert all[..|rest|] == rest;
    if j < |rest| {
      CapturedInOrder(before, i, j);
    } else {
      assert all[i] in rest && all[j] !in rest;
      UncapturedIsLater(before, all[i], all[j]);
    }
    StillDelivers(arrivals, all[i], all[j]);
  }

  /** The first error that arrived, or the one for a scan without keys and errors. */
  ghost predicate IsFirstError(arrivals: seq<ProbeResult>, err: Error) {
    || (err == ScanFailed && forall a :: a in arrivals ==> a.err.None?)
    || exists i :: FirstErrorAt(arrivals, i) && arrivals[i].err == Some(err)
  }

  ghost predicate FirstErrorAt(arrivals: seq<ProbeResult>, i: int) {
    0 <= i < |arrivals| && arrivals[i].err.Some? && forall j :: 0 <= j < i ==> arrivals[j].err.None?
  }

  method CollectKeys(arrivals: seq<ProbeResult>) returns (keys: seq<string>, err: Option<Error>)
    ensures keys == Captured(arrivals)
    ensures err.Some? <==> keys == []
    ensures err.Some? ==> IsFirstError(arrivals, err.value)
    ensures err.Some? ==> err.value == ScanFailed || exists a :: a in arrivals && a.err == err
  {
    keys := [];
    var seen: set<string> := {};
    var firstError: Option<Error> := None;
    for i := 0 to |arrivals|
      invariant keys == Captured(arrivals[..i])
      invariant forall k :: k in seen <==> k in keys
      invariant firstError.Some? ==> exists a :: a in arrivals && a.err == firstError
      invariant keys == [] ==> forall j :: 0 <= j < i ==> arrivals[j].key.None?
      invariant keys == [] && firstError.None? ==> forall j :: 0 <= j < i ==> arrivals[j].err.None?
      invariant keys == [] && firstError.Some? ==> exists j :: FirstErrorAt(arrivals, j) && arrivals[j].err == firstError
    {
      var res := arrivals[i];
      assert arrivals[..i + 1][..i] == arrivals[..i];
      if res.key.None? {
        if res.err.Some? && firstError.None? {
          firstError := res.err;
          assert keys == [] ==> FirstErrorAt(arrivals, i);
        }
      } else if res.key.value !in seen {
        seen := seen + {res.key.value};
        keys := keys + [res.key.value];
      }
    }
    assert arrivals[..|arrivals|] == arrivals;
    err := None;
    if keys == [] {
      err := if firstError.Some? then firstError else Some(ScanFailed);
    }
  }

  // ---------- The stored text ----------

  function KeyTexts(keys: seq<string>, line: string -> string): (r: seq<string>)
    ensures |r| == |keys| && forall i :: 0 <= i < |r| ==> r[i] == line(keys[i]) + "\n"
  {
    seq(|keys|, i requires 0 <= i < |keys| => line(keys[i]) + "\n")
  }

  function Concat(parts: seq<string>): string {
    if parts == [] then "" else Concat(parts[..|parts| - 1]) + parts[|parts| - 1]
  }

  /** The keys as authorized-key lines, sorted and joined; `line` is the
      marshalled form of a key without its newline. */
  function SortedText(keys: seq<string>, line: string -> string): string {
    Concat(Sort(KeyTexts(keys, line)))
  }

  method HostKeysToSortedString(keys: seq<string>, line: string -> string) returns (text: string)
    ensures text == SortedText(keys, line)
  {
    var texts: seq<string> := [];
    for i := 0 to |keys|
      invariant |texts| == i && forall j :: 0 <= j < i ==> texts[j] == line(keys[j]) + "\n"
    {
      texts := texts + [line(keys[i]) + "\n"];
    }
    assert texts == KeyTexts(keys, line);
    texts := Sort(texts);
    text := "";
    for i := 0 to |texts|
      invariant text == Concat(texts[..i])
    {
      assert texts[..i + 1][..i] == texts[..i];
      text := text + texts[i];
    }
    assert texts[..|texts|] == texts;
  }

  /** Which order the keys came in does not show in the text. */
  lemma SortedTextForgetsOrder(a: seq<string>, b: seq<string>, line: string -> string)
    requires multiset(a) == multiset(b)
    ensures SortedText(a, line) == SortedText(b, line)
  {
    TextsPermute(a, b, line);
    SortOfPermutation(KeyTexts(a, line), KeyTexts(b, line));
  }

  lemma RemoveOne<T>(b: seq<T>, j: nat)
    requires j < |b|
    ensures multiset(b) == multiset(b[..j] + b[j + 1..]) + multiset{b[j]}
    ensures multiset(b[..j] + b[j + 1..]) == multiset(b) - multiset{b[j]}
  {
    assert b == b[..j] + [b[j]] + b[j + 1..];
  }

  function Without<T>(b: seq<T>, j: nat): (r: seq<T>)
    requires j < |b|
    ensures |r| == |b| - 1
  {
    b[..j] + b[j + 1..]
  }

  lemma TextsWithoutOne(b: seq<string>, j: nat, line: string -> string)
    requires j < |b|
    ensures multiset(KeyTexts(b, line)) == multiset(KeyTexts(Without(b, j), line)) + multiset{line(b[j]) + "\n"}
  {
    var t := KeyTexts(b, line);
    assert t[..j] + t[j + 1..] == KeyTexts(Without(b, j), line);
    RemoveOne(t, j);
  }

  lemma RemoveSame(a: seq<string>, i: nat, b: seq<string>, j: nat)
    requires multiset(a) == multiset(b) && i < |a| && j < |b| && a[i] == b[j]
    ensures multiset(Without(a, i)) == multiset(Without(b, j))
  {
    RemoveOne(a, i);
    RemoveOne(b, j);
  }

  lemma {:induction false} TextsPermute(a: seq<string>, b: seq<string>, line: string -> string)
    requires multiset(a) == multiset(b)
    ensures multiset(KeyTexts(a, line)) == multiset(KeyTexts(b, line))
    decreases |a|
  {
    hide KeyTexts, Without;
    SameMembersLength(a, b);
    if a == [] {
      assert b == [];
    } else {
      var j := PlaceOfFirst(a, b);
      RemoveSame(a, 0, b, j);
      TextsPermute(Without(a, 0), Without(b, j), line);
      TextsWithoutOne(a, 0, line);
      TextsWithoutOne(b, j, line);
    }
  }

  lemma PlaceOfFirst(a: seq<string>, b: seq<string>) returns (j: nat)
    requires multiset(a) == multiset(b) && a != []
    ensures j < |b| && b[j] == a[0]
  {
    SameMembers(a, b, a[0]);
    j :| 0 <= j < |b| && b[j] == a[0];
  }

  lemma SameMembersLength(a: seq<string>, b: seq<string>)
    requires multiset(a) == multiset(b)
    ensures |a| == |b|
  {
    assert |multiset(a)| == |a| && |multiset(b)| == |b|;
  }

  // ---------- Schedule independence ----------

  function Arrivals(outcomes: seq<ProbeResult>, order: seq<nat>): (r: seq<ProbeResult>)
    requires forall j :: 0 <= j < |order| ==> order[j] < |outcomes|
    ensures |r| == |order| && forall j :: 0 <= j < |r| ==> r[j] == outcomes[order[j]]
  {
    seq(|order|, j requires 0 <= j < |order| => outcomes[order[j]])
  }

  lemma AllArrive(outcomes: seq<ProbeResult>, order: seq<nat>, a: ProbeResult)
    requires forall i: nat :: i in order <==> i < |outcomes|
    ensures forall j :: 0 <= j < |order| ==> order[j] < |outcomes|
    ensures a in Arrivals(outcomes, order) <==> a in outcomes
  {
    assert forall j :: 0 <= j < |order| ==> order[j] in order;
    if a in outcomes {
      var i :| 0 <= i < |outcomes| && outcomes[i] == a;
      assert i in order;
      var j :| 0 <= j < |order| && order[j] == i;
      assert Arrivals(outcomes, order)[j] == a;
    }
  }

  /** All probes reported: the captured keys are those of the outcomes. */
  lemma CapturedFromOutcomes(outcomes: seq<ProbeResult>, order: seq<nat>, k: string)
    requires forall i: nat :: i in order <==> i < |outcomes|
    ensures forall j :: 0 <= j < |order| ==> order[j] < |outcomes|
    ensures k in Captured(Arrivals(outcomes, order)) <==> k in Captured(outcomes)
  {
    hide Captured, Arrivals;
    AllArrive(outcomes, order, ProbeResult(None, None));
    if k in Captured(outcomes) {
      var a :| a in outcomes && a.key == Some(k);
      AllArrive(outcomes, order, a);
    }
    if k in Captured(Arrivals(outcomes, order)) {
      var a :| a in Arrivals(outcomes, order) && a.key == Some(k);
      AllArrive(outcomes, order, a);
    }
  }

  ghost predicate Complete(n: nat, trace: seq<Scan>) {
    Run(n, trace) && |trace[|trace| - 1].received| == n
  }

  /** The results a complete run delivers, in the order of their arrival. */
  ghost function Delivered(outcomes: seq<ProbeResult>, trace: seq<Scan>): seq<ProbeResult>
    requires Complete(|outcomes|, trace)
  {
    CompleteRun(|outcomes|, trace);
    var order := trace[|trace| - 1].received;
    assert forall j :: 0 <= j < |order| ==> order[j] in order;
    Arrivals(outcomes, order)
  }

  lemma DeliveredKeys(outcomes: seq<ProbeResult>, trace: seq<Scan>, k: string)
    requires Complete(|outcomes|, trace)
    ensures k in Captured(Delivered(outcomes, trace)) <==> exists o :: o in outcomes && o.key == Some(k)
  {
    CompleteRun(|outcomes|, trace);
    CapturedFromOutcomes(outcomes, trace[|trace| - 1].received, k);
  }

  /** For any number of probes and any two complete interleavings of sends and
      receives: the same keys, the same text, and an error in both or neither. */
  lemma ScheduleIndependence(outcomes: seq<ProbeResult>, a: seq<Scan>, b: seq<Scan>, line: string -> string)
    requires Complete(|outcomes|, a) && Complete(|outcomes|, b)
    ensures var ka, kb := Captured(Delivered(outcomes, a)), Captured(Delivered(outcomes, b));
            && (forall k :: k in ka <==> exists o :: o in outcomes && o.key == Some(k))
            && (ka == [] <==> kb == [])
            && SortedText(ka, line) == SortedText(kb, line)
  {
    hide Complete, SortedText, Delivered;
    var ka, kb := Captured(Delivered(outcomes, a)), Captured(Delivered(outcomes, b));
    forall k { DeliveredKeys(outcomes, a, k); }
    forall k { DeliveredKeys(outcomes, b, k); }
    hide Captured;
    assert forall k :: k in ka <==> k in kb;
    NoDupPermutation(ka, kb);
    SameMembersLength(ka, kb);
    SortedTextForgetsOrder(ka, kb, line);
  }
}
