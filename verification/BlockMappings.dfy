// Block mappings (section 8.2.2 of YAML 1.2.2) one entry per line: emitting a
// tree of mappings and reading it back by indentation.

module BlockMappings {
  import opened Strings

  /** An entry of a block mapping: a key with a scalar, with a nested mapping,
      or with neither. */
  datatype Node = Node(key: string, value: string, children: seq<Node>)

  // ---------- Emitting ----------

  function Spaces(n: nat): (s: string)
    ensures |s| == n && forall i :: 0 <= i < n ==> s[i] == ' '
  {
    seq(n, _ => ' ')
  }

  function Line(n: Node, depth: nat): string {
    Spaces(2 * depth) + n.key + ":" + if n.value == "" then "" else " " + n.value
  }

  function Emit(forest: seq<Node>, depth: nat): seq<string>
    decreases forest
  {
    if forest == [] then []
    else [Line(forest[0], depth)] + Emit(forest[0].children, depth + 1) + Emit(forest[1..], depth)
  }

  lemma EmitCons(n: Node, rest: seq<Node>, depth: nat)
    ensures Emit([n] + rest, depth) == [Line(n, depth)] + Emit(n.children, depth + 1) + Emit(rest, depth)
  {
    assert ([n] + rest)[1..] == rest;
  }

  lemma ConsAppend(n: Node, a: seq<Node>, b: seq<Node>)
    ensures [n] + a + b == [n] + (a + b)
  {
  }

  lemma LinesAppend(line: string, below: seq<string>, a: seq<string>, b: seq<string>)
    ensures [line] + below + (a + b) == ([line] + below + a) + b
  {
  }

  lemma {:induction false} EmitAppend(a: seq<Node>, b: seq<Node>, depth: nat)
    ensures Emit(a + b, depth) == Emit(a, depth) + Emit(b, depth)
  {
    if a == [] {
      assert a + b == b;
      assert Emit(a, depth) == [];
    } else {
      hide Emit, Line;
      var n, rest := a[0], a[1..];
      assert a == [n] + rest;
      EmitAppend(rest, b, depth);
      EmitCons(n, rest, depth);
      EmitCons(n, rest + b, depth);
      ConsAppend(n, rest, b);
      LinesAppend(Line(n, depth), Emit(n.children, depth + 1), Emit(rest, depth), Emit(b, depth));
    }
  }

  // ---------- Reading ----------

  function Indent(line: string): (n: nat)
    ensures n <= |line|
  {
    if line == "" || line[0] != ' ' then 0 else 1 + Indent(line[1..])
  }

  /** Everything before the first colon. */
  function UpToColon(s: string): (k: string)
    ensures |k| <= |s|
  {
    if s == "" || s[0] == ':' then "" else [s[0]] + UpToColon(s[1..])
  }

  function ReadLine(line: string): (string, string) {
    var body := line[Indent(line)..];
    var key := UpToColon(body);
    (key, if |key| + 2 <= |body| then body[|key| + 2..] else "")
  }

  /** How many leading lines are indented deeper than n. */
  function Deeper(lines: seq<string>, n: nat): (k: nat)
    ensures k <= |lines|
  {
    if lines == [] || Indent(lines[0]) <= n then 0 else 1 + Deeper(lines[1..], n)
  }

  /** A line owns the deeper lines that follow it. */
  function Parse(lines: seq<string>): seq<Node>
    decreases |lines|
  {
    if lines == [] then []
    else
      var (key, value) := ReadLine(lines[0]);
      var k := Deeper(lines[1..], Indent(lines[0]));
      [Node(key, value, Parse(lines[1..][..k]))] + Parse(lines[1..][k..])
  }

  // ---------- Round trip ----------

  predicate PlainKey(s: string) {
    s != "" && ':' !in s && ' ' !in s && '\n' !in s
  }

  ghost predicate Plain(forest: seq<Node>)
    decreases forest
  {
    forest == [] ||
    (PlainKey(forest[0].key) && '\n' !in forest[0].value && Plain(forest[0].children) && Plain(forest[1..]))
  }

  lemma {:induction false} IndentOf(n: nat, rest: string)
    requires rest != "" && rest[0] != ' '
    ensures Indent(Spaces(n) + rest) == n
  {
    if n == 0 {
      assert Spaces(0) + rest == rest;
    } else {
      IndentOf(n - 1, rest);
      assert (Spaces(n) + rest)[1..] == Spaces(n - 1) + rest;
    }
  }

  lemma {:induction false} UpToColonOf(key: string, rest: string)
    requires ':' !in key
    ensures UpToColon(key + ":" + rest) == key
  {
    if key == "" {
    } else {
      UpToColonOf(key[1..], rest);
      assert (key + ":" + rest)[1..] == key[1..] + ":" + rest;
      assert [key[0]] + key[1..] == key;
    }
  }

  lemma Rest(prefix: string, rest: string)
    ensures (prefix + rest)[|prefix|..] == rest
  {
  }

  function Tail(value: string): string {
    if value == "" then "" else " " + value
  }

  lemma LineParts(n: Node, depth: nat)
    ensures Line(n, depth) == Spaces(2 * depth) + (n.key + ":" + Tail(n.value))
  {
  }

  lemma LineIndent(n: Node, depth: nat)
    requires PlainKey(n.key)
    ensures Indent(Line(n, depth)) == 2 * depth
  {
    hide Indent, Line, Spaces;
    assert n.key[0] in n.key;
    LineParts(n, depth);
    IndentOf(2 * depth, n.key + ":" + Tail(n.value));
  }

  lemma LineRead(n: Node, depth: nat)
    requires PlainKey(n.key)
    ensures Indent(Line(n, depth)) == 2 * depth
    ensures ReadLine(Line(n, depth)) == (n.key, n.value)
  {
    hide Indent, Line, UpToColon;
    var body := n.key + ":" + Tail(n.value);
    LineIndent(n, depth);
    LineParts(n, depth);
    Rest(Spaces(2 * depth), body);
    UpToColonOf(n.key, Tail(n.value));
    if n.value != "" {
      assert body == (n.key + ": ") + n.value;
      Rest(n.key + ": ", n.value);
    }
  }

  lemma DeeperCons(line: string, rest: seq<string>, n: nat)
    requires Indent(line) > n
    ensures Deeper([line] + rest, n) == 1 + Deeper(rest, n)
  {
    assert ([line] + rest)[1..] == rest;
  }

  lemma EmitUnfolds(forest: seq<Node>, depth: nat)
    requires forest != [] && Plain(forest)
    ensures Emit(forest, depth) == [Line(forest[0], depth)] + Emit(forest[0].children, depth + 1) + Emit(forest[1..], depth)
    ensures Plain(forest[0].children) && Plain(forest[1..]) && PlainKey(forest[0].key)
  {
  }

  lemma Regroup(line: string, below: seq<string>, after: seq<string>, rest: seq<string>)
    ensures ([line] + below + after) + rest == [line] + (below + (after + rest))
    ensures |[line] + below + after| == 1 + |below| + |after|
  {
  }

  /** Emitted lines never end a deeper block. */
  lemma {:induction false} AllDeeper(forest: seq<Node>, depth: nat, rest: seq<string>, n: nat)
    requires Plain(forest) && n < 2 * depth
    ensures Deeper(Emit(forest, depth) + rest, n) == |Emit(forest, depth)| + Deeper(rest, n)
    decreases forest
  {
    if forest == [] {
      assert Emit(forest, depth) + rest == rest;
    } else {
      hide Line, Indent, Deeper, Emit, Plain;
      EmitUnfolds(forest, depth);
      var line, below, after := Line(forest[0], depth), Emit(forest[0].children, depth + 1), Emit(forest[1..], depth);
      LineIndent(forest[0], depth);
      AllDeeper(forest[1..], depth, rest, n);
      AllDeeper(forest[0].children, depth + 1, after + rest, n);
      DeeperCons(line, below + (after + rest), n);
      Regroup(line, below, after, rest);
    }
  }

  lemma FirstIndent(forest: seq<Node>, depth: nat)
    requires Plain(forest)
    ensures Emit(forest, depth) == [] || Indent(Emit(forest, depth)[0]) == 2 * depth
  {
    if forest != [] { LineIndent(forest[0], depth); }
  }

  /** A line, the deeper lines below it and what comes after them. */
  lemma ParseOne(line: string, below: seq<string>, after: seq<string>)
    requires Deeper(below + after, Indent(line)) == |below|
    ensures Parse([line] + below + after) == [Node(ReadLine(line).0, ReadLine(line).1, Parse(below))] + Parse(after)
  {
    hide ReadLine, Indent, Deeper;
    var lines := [line] + below + after;
    assert lines[1..] == below + after;
    assert (below + after)[..|below|] == below && (below + after)[|below|..] == after;
  }

  lemma NotDeeper(lines: seq<string>, n: nat)
    requires lines == [] || Indent(lines[0]) <= n
    ensures Deeper(lines, n) == 0
  {
  }

  lemma EmitFirst(forest: seq<Node>, depth: nat)
    requires forest != [] && Plain(forest)
    ensures var below, after := Emit(forest[0].children, depth + 1), Emit(forest[1..], depth);
            && Emit(forest, depth) == [Line(forest[0], depth)] + below + after
            && Plain(forest[0].children) && Plain(forest[1..])
            && Deeper(below + after, 2 * depth) == |below|
            && Indent(Line(forest[0], depth)) == 2 * depth
            && ReadLine(Line(forest[0], depth)) == (forest[0].key, forest[0].value)
  {
    var below, after := Emit(forest[0].children, depth + 1), Emit(forest[1..], depth);
    EmitUnfolds(forest, depth);
    LineRead(forest[0], depth);
    FirstIndent(forest[1..], depth);
    hide Line, Indent, ReadLine, Deeper, Emit, Plain;
    AllDeeper(forest[0].children, depth + 1, after, 2 * depth);
    NotDeeper(after, 2 * depth);
  }

  /** Reading the emitted lines gives back the tree. */
  lemma {:induction false} ParseEmitted(forest: seq<Node>, depth: nat)
    requires Plain(forest)
    ensures Parse(Emit(forest, depth)) == forest
    decreases forest
  {
    if forest == [] {
      assert Emit(forest, depth) == [];
    } else {
      hide Line, Indent, ReadLine, Plain, Deeper, Parse, Emit;
      EmitFirst(forest, depth);
      ParseOne(Line(forest[0], depth), Emit(forest[0].children, depth + 1), Emit(forest[1..], depth));
      ParseEmitted(forest[0].children, depth + 1);
      ParseEmitted(forest[1..], depth);
      assert forest == [forest[0]] + forest[1..];
    }
  }

  lemma {:induction false} EmittedLines(forest: seq<Node>, depth: nat)
    requires Plain(forest)
    ensures forall l :: l in Emit(forest, depth) ==> '\n' !in l && l != ""
    decreases forest
  {
    if forest != [] {
      EmittedLines(forest[0].children, depth + 1);
      EmittedLines(forest[1..], depth);
      assert '\n' !in Line(forest[0], depth);
    }
  }

  /** The lines of a text, read as block mappings. */
  function ReadText(text: string): seq<Node> {
    Parse(NonBlank(Split(text)))
  }

  lemma ReadEmittedText(forest: seq<Node>)
    requires Plain(forest)
    ensures ReadText(Unlines(Emit(forest, 0))) == forest
  {
    var lines := Emit(forest, 0);
    EmittedLines(forest, 0);
    SplitUnlines(lines, "");
    assert Unlines(lines) + "" == Unlines(lines);
    NonBlankAppend(lines, [""]);
    NonBlankAll(lines);
    assert NonBlank([""]) == [];
    assert lines + [] == lines;
    ParseEmitted(forest, 0);
  }
}
