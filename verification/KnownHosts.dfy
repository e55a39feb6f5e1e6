// The known_hosts text: what is written for a list of hosts, and what a reader
// of the file gets out of it.

module KnownHosts {
  import opened Strings
  import opened Objects
  import opened KeyScan

  const HOST_KEYS_KEY := "host_keys"

  // ---------- Writing ----------

  /** The non-empty lines of a secret, each behind the host's address. */
  function Prefixed(address: string, lines: seq<string>): (r: seq<string>) {
    if lines == [] then []
    else Prefixed(address, lines[..|lines| - 1]) + [address + " " + lines[|lines| - 1]]
  }

  function HostBlock(address: string, value: string): string {
    Unlines(Prefixed(address, NonBlank(Split(value))))
  }

  /** What the host's secret contributes; nothing if the secret cannot be used. */
  function BlockFor(h: Host, secrets: map<string, Secret>): Option<string> {
    if h.hostKeySecret !in secrets then Some("")
    else if HOST_KEYS_KEY !in secrets[h.hostKeySecret].data then None
    else Some(HostBlock(h.address, secrets[h.hostKeySecret].data[HOST_KEYS_KEY]))
  }

  function Blocks(hosts: seq<Host>, secrets: map<string, Secret>): Option<seq<string>> {
    if hosts == [] then Some([])
    else
      var rest, last := Blocks(hosts[..|hosts| - 1], secrets), BlockFor(hosts[|hosts| - 1], secrets);
      if rest.None? || last.None? then None
      else Some(if last.value == "" then rest.value else rest.value + [last.value])
  }

  /** `strings.Join(parts, "\n")`. */
  function JoinLines(parts: seq<string>): string {
    if parts == [] then "" else if |parts| == 1 then parts[0] else parts[0] + "\n" + JoinLines(parts[1..])
  }

  function KnownHostsText(hosts: seq<Host>, secrets: map<string, Secret>): Option<string> {
    var blocks := Blocks(hosts, secrets);
    if blocks.None? then None else Some(JoinLines(blocks.value))
  }

  method LinesForSecret(address: string, value: string) returns (text: string)
    ensures text == HostBlock(address, value)
  {
    text := "";
    var lines := Split(value);
    for i := 0 to |lines|
      invariant text == Unlines(Prefixed(address, NonBlank(lines[..i])))
    {
      assert lines[..i + 1] == lines[..i] + [lines[i]];
      NonBlankAppend(lines[..i], [lines[i]]);
      assert NonBlank([lines[i]]) == if lines[i] == "" then [] else [lines[i]];
      if lines[i] != "" {
        var before := NonBlank(lines[..i]);
        assert (before + [lines[i]])[..|before|] == before;
        UnlinesAppend(Prefixed(address, before), [address + " " + lines[i]]);
        text := text + (address + " " + lines[i] + "\n");
      } else {
        assert NonBlank(lines[..i]) + [] == NonBlank(lines[..i]);
      }
    }
    assert lines[..|lines|] == lines;
  }

  // ---------- Reading ----------

  function UpToSpace(s: string): (k: string)
    ensures |k| <= |s|
  {
    if s == "" || s[0] == ' ' then "" else [s[0]] + UpToSpace(s[1..])
  }

  /** Address and key line: the two sides of the first space. */
  function ReadEntry(line: string): (string, string) {
    var address := UpToSpace(line);
    (address, if |address| < |line| then line[|address| + 1..] else "")
  }

  function ReadEntries(lines: seq<string>): (r: seq<(string, string)>)
    ensures |r| == |lines| && forall i :: 0 <= i < |r| ==> r[i] == ReadEntry(lines[i])
  {
    seq(|lines|, i requires 0 <= i < |lines| => ReadEntry(lines[i]))
  }

  function ReadKnownHosts(text: string): seq<(string, string)> {
    ReadEntries(NonBlank(Split(text)))
  }

  // ---------- Meaning ----------

  function Pairs(address: string, lines: seq<string>): (r: seq<(string, string)>)
    ensures |r| == |lines| && forall i :: 0 <= i < |r| ==> r[i] == (address, lines[i])
  {
    seq(|lines|, i requires 0 <= i < |lines| => (address, lines[i]))
  }

  /** Host by host in list order, every non-empty line of its secret. */
  function Entries(hosts: seq<Host>, secrets: map<string, Secret>): seq<(string, string)> {
    if hosts == [] then []
    else
      var h := hosts[|hosts| - 1];
      Entries(hosts[..|hosts| - 1], secrets)
      + if h.hostKeySecret in secrets && "host_keys" in secrets[h.hostKeySecret].data
        then Pairs(h.address, NonBlank(Split(secrets[h.hostKeySecret].data["host_keys"])))
        else []
  }

  predicate PlainAddress(address: string) {
    ' ' !in address && '\n' !in address
  }

  // ---------- Round trip ----------

  lemma {:induction false} UpToSpaceOf(address: string, rest: string)
    requires ' ' !in address
    ensures UpToSpace(address + " " + rest) == address
  {
    if address != "" {
      UpToSpaceOf(address[1..], rest);
      assert (address + " " + rest)[1..] == address[1..] + " " + rest;
      assert [address[0]] + address[1..] == address;
    }
  }

  lemma EntryRead(address: string, line: string)
    requires PlainAddress(address) && '\n' !in line
    ensures ReadEntry(address + " " + line) == (address, line)
    ensures '\n' !in address + " " + line && address + " " + line != ""
  {
    UpToSpaceOf(address, line);
    assert (address + " " + line)[|address| + 1..] == line;
  }

  lemma ReadEntriesLast(lines: seq<string>, last: string)
    ensures ReadEntries(lines + [last]) == ReadEntries(lines) + [ReadEntry(last)]
  {
  }

  lemma PairsLast(address: string, lines: seq<string>, last: string)
    ensures Pairs(address, lines + [last]) == Pairs(address, lines) + [(address, last)]
  {
  }

  lemma {:induction false} PrefixedRead(address: string, lines: seq<string>)
    requires PlainAddress(address) && forall l :: l in lines ==> '\n' !in l
    ensures ReadEntries(Prefixed(address, lines)) == Pairs(address, lines)
    ensures forall l :: l in Prefixed(address, lines) ==> '\n' !in l && l != ""
    ensures |Prefixed(address, lines)| == |lines|
  {
    hide ReadEntries, ReadEntry, Pairs, PlainAddress;
    if lines == [] {
      NothingRead(address);
    } else {
      var rest, last := lines[..|lines| - 1], lines[|lines| - 1];
      PrefixedRead(address, rest);
      EntryRead(address, last);
      ReadEntriesLast(Prefixed(address, rest), address + " " + last);
      PairsLast(address, rest, last);
      assert lines == rest + [last];
    }
  }

  lemma NothingRead(address: string)
    ensures ReadEntries([]) == [] && Pairs(address, []) == []
  {
  }

  /** Non-blank lines of two parts joined by a newline, when the first part is
      made of complete lines. */
  lemma LinesOfJoin(lines: seq<string>, rest: string)
    requires forall l :: l in lines ==> '\n' !in l && l != ""
    ensures NonBlank(Split(Unlines(lines) + "\n" + rest)) == lines + NonBlank(Split(rest))
    ensures NonBlank(Split(Unlines(lines))) == lines
  {
    SplitUnlines(lines, "\n" + rest);
    assert Unlines(lines) + ("\n" + rest) == Unlines(lines) + "\n" + rest;
    SplitLine("", rest);
    assert "" + "\n" + rest == "\n" + rest;
    NonBlankAppend(lines, [""] + Split(rest));
    NonBlankAppend([""], Split(rest));
    NonBlankAll(lines);
    assert NonBlank([""]) == [];
    assert [] + NonBlank(Split(rest)) == NonBlank(Split(rest));
    SplitUnlines(lines, "");
    assert Unlines(lines) + "" == Unlines(lines);
    NonBlankAppend(lines, [""]);
    assert lines + [] == lines;
  }

  function Texts(blocks: seq<seq<string>>): (r: seq<string>)
    ensures |r| == |blocks| && forall i :: 0 <= i < |r| ==> r[i] == Unlines(blocks[i])
  {
    seq(|blocks|, i requires 0 <= i < |blocks| => Unlines(blocks[i]))
  }

  function Flatten(blocks: seq<seq<string>>): seq<string> {
    if blocks == [] then [] else blocks[0] + Flatten(blocks[1..])
  }

  lemma {:induction false} FlattenAppend(blocks: seq<seq<string>>, last: seq<string>)
    ensures Flatten(blocks + [last]) == Flatten(blocks) + last
  {
    if blocks == [] {
      assert (blocks + [last])[1..] == [];
      assert last + [] == last && [] + last == last;
    } else {
      FlattenAppend(blocks[1..], last);
      assert (blocks + [last])[1..] == blocks[1..] + [last];
    }
  }

  lemma {:induction false} JoinedBlocksRead(blocks: seq<seq<string>>)
    requires forall b, l :: b in blocks && l in b ==> '\n' !in l && l != ""
    ensures NonBlank(Split(JoinLines(Texts(blocks)))) == Flatten(blocks)
  {
    if blocks == [] {
    } else {
      assert Texts(blocks)[1..] == Texts(blocks[1..]);
      assert forall l :: l in blocks[0] ==> '\n' !in l && l != "";
      if |blocks| == 1 {
        LinesOfJoin(blocks[0], "");
        assert Flatten(blocks) == blocks[0] + [] == blocks[0];
      } else {
        JoinedBlocksRead(blocks[1..]);
        LinesOfJoin(blocks[0], JoinLines(Texts(blocks[1..])));
      }
    }
  }

  /** The lines of the blocks that are written. */
  function LineBlocks(hosts: seq<Host>, secrets: map<string, Secret>): seq<seq<string>> {
    if hosts == [] then []
    else
      var rest, h := LineBlocks(hosts[..|hosts| - 1], secrets), hosts[|hosts| - 1];
      var lines := if h.hostKeySecret in secrets && HOST_KEYS_KEY in secrets[h.hostKeySecret].data
                   then NonBlank(Split(secrets[h.hostKeySecret].data[HOST_KEYS_KEY])) else [];
      if lines == [] then rest else rest + [Prefixed(h.address, lines)]
  }

  lemma UnlinesEmpty(lines: seq<string>)
    ensures Unlines(lines) == "" <==> lines == []
  {
  }

  lemma NothingWritten()
    ensures Texts([]) == [] && Flatten([]) == [] && ReadEntries([]) == []
  {
  }

  lemma TextsAppend(blocks: seq<seq<string>>, last: seq<string>)
    ensures Texts(blocks + [last]) == Texts(blocks) + [Unlines(last)]
  {
  }

  lemma ReadEntriesAppend(a: seq<string>, b: seq<string>)
    ensures ReadEntries(a + b) == ReadEntries(a) + ReadEntries(b)
  {
  }

  lemma {:induction false} BlocksAreLineBlocks(hosts: seq<Host>, secrets: map<string, Secret>)
    requires Blocks(hosts, secrets).Some?
    requires forall h :: h in hosts ==> PlainAddress(h.address)
    ensures Blocks(hosts, secrets).value == Texts(LineBlocks(hosts, secrets))
    ensures ReadEntries(Flatten(LineBlocks(hosts, secrets))) == Entries(hosts, secrets)
    ensures forall b, l :: b in LineBlocks(hosts, secrets) && l in b ==> '\n' !in l && l != ""
  {
    hide Split, NonBlank, Unlines, Prefixed, Flatten, Texts, ReadEntries;
    if hosts == [] {
      NothingWritten();
    } else {
      var rest, h := hosts[..|hosts| - 1], hosts[|hosts| - 1];
      BlocksAreLineBlocks(rest, secrets);
      if h.hostKeySecret in secrets {
        var lines := NonBlank(Split(secrets[h.hostKeySecret].data[HOST_KEYS_KEY]));
        PrefixedRead(h.address, lines);
        UnlinesEmpty(Prefixed(h.address, lines));
        var before := LineBlocks(rest, secrets);
        FlattenAppend(before, Prefixed(h.address, lines));
        TextsAppend(before, Prefixed(h.address, lines));
        ReadEntriesAppend(Flatten(before), Prefixed(h.address, lines));
        if lines == [] { assert Pairs(h.address, lines) == []; }
      }
      assert Entries(rest, secrets) + [] == Entries(rest, secrets);
    }
  }

  /** Reading the file line by line yields, host by host, every non-empty line
      of the host's secret behind that host's address, and nothing else. */
  lemma KnownHostsRoundTrip(hosts: seq<Host>, secrets: map<string, Secret>)
    requires KnownHostsText(hosts, secrets).Some?
    requires forall h :: h in hosts ==> PlainAddress(h.address)
    ensures ReadKnownHosts(KnownHostsText(hosts, secrets).value) == Entries(hosts, secrets)
  {
    BlocksAreLineBlocks(hosts, secrets);
    JoinedBlocksRead(LineBlocks(hosts, secrets));
  }

  /** The file can be written exactly when no existing secret lacks its key. */
  lemma {:induction false} KnownHostsExists(hosts: seq<Host>, secrets: map<string, Secret>)
    ensures KnownHostsText(hosts, secrets).Some? <==>
            forall h :: h in hosts && h.hostKeySecret in secrets ==> "host_keys" in secrets[h.hostKeySecret].data
  {
    if hosts != [] {
      KnownHostsExists(hosts[..|hosts| - 1], secrets);
      assert hosts == hosts[..|hosts| - 1] + [hosts[|hosts| - 1]];
    }
  }

  // ---------- Scanned keys ----------

  /** Some key has this line. */
  ghost predicate IsKeyLine(keys: seq<string>, line: string -> string, l: string) {
    exists k :: k in keys && line(k) == l
  }

  lemma KeyTextsMembers(keys: seq<string>, line: string -> string, t: string)
    ensures t in Sort(KeyTexts(keys, line)) <==> exists k :: k in keys && t == line(k) + "\n"
  {
    var texts := KeyTexts(keys, line);
    SameMembers(texts, Sort(texts), t);
    if t in texts {
      var i :| 0 <= i < |texts| && texts[i] == t;
      assert keys[i] in keys;
    }
    if k :| k in keys && t == line(k) + "\n" {
      var i :| 0 <= i < |keys| && keys[i] == k;
      assert texts[i] in texts;
    }
  }

  lemma KeyLineOfText(keys: seq<string>, line: string -> string, t: string)
    requires t in Sort(KeyTexts(keys, line))
    ensures t != "" && IsKeyLine(keys, line, t[..|t| - 1]) && t == t[..|t| - 1] + "\n"
  {
    KeyTextsMembers(keys, line, t);
    var k :| k in keys && t == line(k) + "\n";
    assert t[..|t| - 1] == line(k);
  }

  lemma TextOfKeyLine(keys: seq<string>, line: string -> string, l: string)
    requires IsKeyLine(keys, line, l)
    ensures l + "\n" in Sort(KeyTexts(keys, line))
  {
    KeyTextsMembers(keys, line, l + "\n");
  }

  lemma {:induction false} ConcatOfLines(lines: seq<string>, texts: seq<string>)
    requires |texts| == |lines| && forall i :: 0 <= i < |texts| ==> texts[i] == lines[i] + "\n"
    ensures Concat(texts) == Unlines(lines)
  {
    if lines != [] {
      var rest, last := lines[..|lines| - 1], lines[|lines| - 1];
      ConcatOfLines(rest, texts[..|texts| - 1]);
      UnlinesAppend(rest, [last]);
      assert lines == rest + [last];
    }
  }

  /** The non-empty lines of a stored scan are the lines of its keys. */
  lemma ScannedKeysRecovered(keys: seq<string>, line: string -> string)
    requires forall k :: k in keys ==> '\n' !in line(k) && line(k) != ""
    ensures forall l :: l in NonBlank(Split(SortedText(keys, line))) <==> IsKeyLine(keys, line, l)
  {
    hide Sort, KeyTexts, Split, NonBlank;
    var texts := Sort(KeyTexts(keys, line));
    forall i | 0 <= i < |texts|
      ensures texts[i] != "" && IsKeyLine(keys, line, texts[i][..|texts[i]| - 1])
      ensures texts[i] == texts[i][..|texts[i]| - 1] + "\n"
    {
      KeyLineOfText(keys, line, texts[i]);
    }
    var lines := seq(|texts|, i requires 0 <= i < |texts| => texts[i][..|texts[i]| - 1]);
    forall l ensures l in lines <==> IsKeyLine(keys, line, l) {
      if l in lines {
        var i :| 0 <= i < |lines| && lines[i] == l;
      }
      if IsKeyLine(keys, line, l) {
        TextOfKeyLine(keys, line, l);
        var j :| 0 <= j < |texts| && texts[j] == l + "\n";
        assert lines[j] == l;
      }
    }
    ConcatOfLines(lines, texts);
    assert forall l :: l in lines ==> '\n' !in l && l != "";
    LinesOfJoin(lines, "");
  }

  lemma {:induction false} EntryListed(hosts: seq<Host>, secrets: map<string, Secret>, h: Host, l: string)
    requires h in hosts && h.hostKeySecret in secrets && HOST_KEYS_KEY in secrets[h.hostKeySecret].data
    requires l in NonBlank(Split(secrets[h.hostKeySecret].data[HOST_KEYS_KEY]))
    ensures (h.address, l) in Entries(hosts, secrets)
  {
    hide NonBlank, Split;
    var rest, last := hosts[..|hosts| - 1], hosts[|hosts| - 1];
    assert hosts == rest + [last];
    if h == last {
      var lines := NonBlank(Split(secrets[h.hostKeySecret].data[HOST_KEYS_KEY]));
      var i :| 0 <= i < |lines| && lines[i] == l;
      assert Pairs(h.address, lines)[i] == (h.address, l);
    } else {
      EntryListed(rest, secrets, h, l);
    }
  }

  lemma {:induction false} EntrySource(hosts: seq<Host>, secrets: map<string, Secret>, address: string, l: string) returns (h: Host)
    requires (address, l) in Entries(hosts, secrets)
    ensures h in hosts && h.address == address && h.hostKeySecret in secrets && HOST_KEYS_KEY in secrets[h.hostKeySecret].data
    ensures l in NonBlank(Split(secrets[h.hostKeySecret].data[HOST_KEYS_KEY]))
  {
    hide NonBlank, Split;
    var rest, last := hosts[..|hosts| - 1], hosts[|hosts| - 1];
    assert hosts == rest + [last];
    if (address, l) in Entries(rest, secrets) {
      h := EntrySource(rest, secrets, address, l);
    } else {
      h := last;
    }
  }

  /** Where a host's secret holds the text of some keys, the known-hosts text has
      their lines behind the host's address, and no others if no other secret is
      used for that address. */
  lemma StoredKeysAreKnown(hosts: seq<Host>, secrets: map<string, Secret>, h: Host, keys: seq<string>, line: string -> string, l: string)
    requires KnownHostsText(hosts, secrets).Some? && forall g :: g in hosts ==> PlainAddress(g.address)
    requires h in hosts && Get(secrets, h.hostKeySecret).Some?
    requires Get(secrets[h.hostKeySecret].data, "host_keys") == Some(SortedText(keys, line))
    requires forall x :: x in keys ==> '\n' !in line(x) && line(x) != ""
    ensures IsKeyLine(keys, line, l) ==> (h.address, l) in ReadKnownHosts(KnownHostsText(hosts, secrets).value)
    ensures (forall x :: x in hosts && x.address == h.address ==> x.hostKeySecret == h.hostKeySecret) ==>
              (IsKeyLine(keys, line, l) <==> (h.address, l) in ReadKnownHosts(KnownHostsText(hosts, secrets).value))
  {
    hide KnownHostsText, ReadKnownHosts, SortedText, NonBlank, Split;
    KnownHostsRoundTrip(hosts, secrets);
    ScannedKeysRecovered(keys, line);
    if IsKeyLine(keys, line, l) { EntryListed(hosts, secrets, h, l); }
    hide IsKeyLine;
    if (h.address, l) in Entries(hosts, secrets) && forall x :: x in hosts && x.address == h.address ==> x.hostKeySecret == h.hostKeySecret {
      var x := EntrySource(hosts, secrets, h.address, l);
    }
  }
}
