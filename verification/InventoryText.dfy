// The inventory text: what the template prints, and that it can be read back.

module InventoryText {
  import opened Strings
  import opened Objects
  import opened Inventory
  import opened BlockMappings

  const KEY_DIR := "/ssh/keys/"
  const ADDRESS_KEY := "ansible_host"
  const PORT_KEY := "ansible_port"
  const USER_KEY := "ansible_user"
  const BECOME_KEY := "ansible_become"
  const KEY_FILE_KEY := "ansible_ssh_private_key_file"

  // ---------- The template ----------

  function When<T>(shown: bool, x: T): seq<T> {
    if shown then [x] else []
  }

  function HostLines(h: ContentHost): seq<string> {
    ["    " + h.inventoryName + ":"]
    + (When(h.hostname != "", "      " + ADDRESS_KEY + ": " + h.hostname)
       + When(h.port != 0, "      " + PORT_KEY + ": " + Decimal(h.port))
       + When(h.username != "", "      " + USER_KEY + ": " + h.username)
       + When(h.become, "      " + BECOME_KEY + ": true")
       + ["      " + KEY_FILE_KEY + ": " + KEY_DIR + h.kubernetesName])
  }

  function MemberLines(names: seq<string>): seq<string> {
    if names == [] then [] else ["    " + names[0] + ":"] + MemberLines(names[1..])
  }

  function GroupLines(g: ContentGroup): seq<string> {
    [g.name + ":"]
    + ((if g.subgroups != [] then ["  children:"] + MemberLines(g.subgroups) else [])
       + (if g.hosts != [] then ["  hosts:"] + MemberLines(g.hosts) else []))
  }

  function AllHostLines(hosts: seq<ContentHost>): seq<string> {
    if hosts == [] then [] else HostLines(hosts[0]) + AllHostLines(hosts[1..])
  }

  function AllGroupLines(groups: seq<ContentGroup>): seq<string> {
    if groups == [] then [] else GroupLines(groups[0]) + AllGroupLines(groups[1..])
  }

  function Render(c: Content): string {
    Unlines(["all:"] + (["  hosts:"] + AllHostLines(c.hosts)) + AllGroupLines(c.groups))
  }

  // ---------- The tree it prints ----------

  function Scalar(key: string, value: string): Node { Node(key, value, []) }

  function HostNode(h: ContentHost): Node {
    Node(h.inventoryName, "",
         When(h.hostname != "", Scalar(ADDRESS_KEY, h.hostname))
         + When(h.port != 0, Scalar(PORT_KEY, Decimal(h.port)))
         + When(h.username != "", Scalar(USER_KEY, h.username))
         + When(h.become, Scalar(BECOME_KEY, "true"))
         + [Scalar(KEY_FILE_KEY, KEY_DIR + h.kubernetesName)])
  }

  function MemberNodes(names: seq<string>): (r: seq<Node>)
    ensures |r| == |names| && forall i :: 0 <= i < |r| ==> r[i] == Scalar(names[i], "")
  {
    seq(|names|, i requires 0 <= i < |names| => Scalar(names[i], ""))
  }

  function GroupNode(g: ContentGroup): Node {
    Node(g.name, "",
         When(g.subgroups != [], Node("children", "", MemberNodes(g.subgroups)))
         + When(g.hosts != [], Node("hosts", "", MemberNodes(g.hosts))))
  }

  function HostNodes(hosts: seq<ContentHost>): (r: seq<Node>)
    ensures |r| == |hosts| && forall i :: 0 <= i < |r| ==> r[i] == HostNode(hosts[i])
  {
    seq(|hosts|, i requires 0 <= i < |hosts| => HostNode(hosts[i]))
  }

  function GroupNodes(groups: seq<ContentGroup>): (r: seq<Node>)
    ensures |r| == |groups| && forall i :: 0 <= i < |r| ==> r[i] == GroupNode(groups[i])
  {
    seq(|groups|, i requires 0 <= i < |groups| => GroupNode(groups[i]))
  }

  function Tree(c: Content): seq<Node> {
    [Node("all", "", [Node("hosts", "", HostNodes(c.hosts))])] + GroupNodes(c.groups)
  }

  // ---------- Reading it back ----------

  function FieldOf(nodes: seq<Node>, key: string): string {
    if nodes == [] then "" else if nodes[0].key == key then nodes[0].value else FieldOf(nodes[1..], key)
  }

  function BlockOf(nodes: seq<Node>, key: string): seq<Node> {
    if nodes == [] then [] else if nodes[0].key == key then nodes[0].children else BlockOf(nodes[1..], key)
  }

  function KeysOf(nodes: seq<Node>): (r: seq<string>)
    ensures |r| == |nodes| && forall i :: 0 <= i < |r| ==> r[i] == nodes[i].key
  {
    seq(|nodes|, i requires 0 <= i < |nodes| => nodes[i].key)
  }

  function ReadPort(value: string): Port {
    var n := ReadDecimal(value);
    if 0 <= n < 0x1_0000 then n else 0
  }

  function ReadHost(n: Node): ContentHost {
    var file := FieldOf(n.children, "ansible_ssh_private_key_file");
    ContentHost(
      if "/ssh/keys/" <= file then file[|"/ssh/keys/"|..] else "",
      n.key, FieldOf(n.children, "ansible_host"), ReadPort(FieldOf(n.children, "ansible_port")),
      FieldOf(n.children, "ansible_user"), FieldOf(n.children, "ansible_become") == "true")
  }

  function ReadGroup(n: Node): ContentGroup {
    ContentGroup(n.key, KeysOf(BlockOf(n.children, "children")), KeysOf(BlockOf(n.children, "hosts")))
  }

  function ReadHosts(nodes: seq<Node>): seq<ContentHost> {
    seq(|nodes|, i requires 0 <= i < |nodes| => ReadHost(nodes[i]))
  }

  function ReadGroups(nodes: seq<Node>): seq<ContentGroup> {
    seq(|nodes|, i requires 0 <= i < |nodes| => ReadGroup(nodes[i]))
  }

  /** The first top-level mapping holds the hosts; the others are the groups. */
  function ReadInventory(text: string): Option<Content> {
    var forest := ReadText(text);
    if forest == [] || forest[0].key != "all" then None
    else Some(Content(ReadGroups(forest[1..]), ReadHosts(BlockOf(forest[0].children, "hosts"))))
  }

  // ---------- The patterns of the resource definitions ----------

  predicate Alphanumeric(c: char) {
    'a' <= c <= 'z' || 'A' <= c <= 'Z' || '0' <= c <= '9'
  }

  predicate NamePattern(s: string) {
    s != "" && forall c :: c in s ==> Alphanumeric(c) || c in "_.-"
  }

  predicate AddressPattern(s: string) {
    NamePattern(s) && Alphanumeric(s[0])
  }

  predicate UserPattern(s: string) {
    && s != "" && ('a' <= s[0] <= 'z' || s[0] == '_')
    && forall c :: c in s ==> 'a' <= c <= 'z' || '0' <= c <= '9' || c in "_-"
  }

  predicate HostPatterns(h: ContentHost) {
    && NamePattern(h.inventoryName) && NamePattern(h.kubernetesName)
    && (h.hostname == "" || AddressPattern(h.hostname))
    && (h.username == "" || UserPattern(h.username))
  }

  predicate GroupPatterns(g: ContentGroup) {
    && NamePattern(g.name)
    && (forall n :: n in g.subgroups ==> NamePattern(n))
    && (forall n :: n in g.hosts ==> NamePattern(n))
  }

  predicate Patterns(c: Content) {
    (forall h :: h in c.hosts ==> HostPatterns(h)) && (forall g :: g in c.groups ==> GroupPatterns(g))
  }

  // ---------- The template prints the tree ----------

  lemma Indents()
    ensures Spaces(0) == "" && Spaces(2) == "  " && Spaces(4) == "    " && Spaces(6) == "      "
  {
  }

  lemma ScalarPrinted(shown: bool, key: string, value: string)
    requires shown ==> value != ""
    ensures Emit(When(shown, Scalar(key, value)), 3) == When(shown, "      " + key + ": " + value)
  {
    if shown {
      Indents();
      EmitOne(Scalar(key, value), 3);
      assert Line(Scalar(key, value), 3) == "      " + key + ": " + value;
    }
  }

  lemma EmitOne(n: Node, depth: nat)
    ensures Emit([n], depth) == [Line(n, depth)] + Emit(n.children, depth + 1)
  {
    assert [n][1..] == [];
  }

  /** The head line of an entry that has no scalar. */
  lemma HeadLine(n: Node, depth: nat)
    requires n.value == "" && depth <= 3
    ensures Line(n, depth) == ["", "  ", "    ", "      "][depth] + n.key + ":"
  {
    Indents();
  }

  lemma EmitTwo(a: seq<Node>, b: seq<Node>, x: seq<string>, y: seq<string>, depth: nat)
    requires Emit(a, depth) == x && Emit(b, depth) == y
    ensures Emit(a + b, depth) == x + y
  {
    hide Emit;
    EmitAppend(a, b, depth);
  }

  lemma HostFieldsPrinted(h: ContentHost)
    ensures [HostLines(h)[0]] + Emit(HostNode(h).children, 3) == HostLines(h)
    ensures HostLines(h)[0] == "    " + h.inventoryName + ":"
  {
    var file := KEY_DIR + h.kubernetesName;
    var a, x := When(h.hostname != "", Scalar(ADDRESS_KEY, h.hostname)), When(h.hostname != "", "      " + ADDRESS_KEY + ": " + h.hostname);
    var b, y := When(h.port != 0, Scalar(PORT_KEY, Decimal(h.port))), When(h.port != 0, "      " + PORT_KEY + ": " + Decimal(h.port));
    var u, z := When(h.username != "", Scalar(USER_KEY, h.username)), When(h.username != "", "      " + USER_KEY + ": " + h.username);
    var e, v := When(h.become, Scalar(BECOME_KEY, "true")), When(h.become, "      " + BECOME_KEY + ": true");
    var f, w := When(true, Scalar(KEY_FILE_KEY, file)), When(true, "      " + KEY_FILE_KEY + ": " + KEY_DIR + h.kubernetesName);
    ScalarPrinted(h.hostname != "", ADDRESS_KEY, h.hostname);
    ScalarPrinted(h.port != 0, PORT_KEY, Decimal(h.port));
    ScalarPrinted(h.username != "", USER_KEY, h.username);
    ScalarPrinted(h.become, BECOME_KEY, "true");
    ScalarPrinted(true, KEY_FILE_KEY, file);
    assert "      " + BECOME_KEY + ": true" == "      " + BECOME_KEY + ": " + "true";
    assert "      " + KEY_FILE_KEY + ": " + file == "      " + KEY_FILE_KEY + ": " + KEY_DIR + h.kubernetesName;
    assert HostNode(h).children == a + b + u + e + f;
    assert HostLines(h) == ["    " + h.inventoryName + ":"] + (x + y + z + v + w);
    hide Emit, When, Scalar, HostNode, HostLines, Decimal;
    EmitTwo(a, b, x, y, 3);
    EmitTwo(a + b, u, x + y, z, 3);
    EmitTwo(a + b + u, e, x + y + z, v, 3);
    EmitTwo(a + b + u + e, f, x + y + z + v, w, 3);
  }

  lemma HostPrinted(h: ContentHost)
    ensures Emit([HostNode(h)], 2) == HostLines(h)
  {
    EmitOne(HostNode(h), 2);
    HeadLine(HostNode(h), 2);
    HostFieldsPrinted(h);
    assert HostNode(h).key == h.inventoryName;
    hide Emit, Line, HostNode, HostLines;
  }

  lemma {:induction false} MembersPrinted(names: seq<string>)
    ensures Emit(MemberNodes(names), 2) == MemberLines(names)
  {
    if names != [] {
      Indents();
      MembersPrinted(names[1..]);
      assert MemberNodes(names) == [Scalar(names[0], "")] + MemberNodes(names[1..]);
      EmitAppend([Scalar(names[0], "")], MemberNodes(names[1..]), 2);
      EmitOne(Scalar(names[0], ""), 2);
      assert Line(Scalar(names[0], ""), 2) == "    " + names[0] + ":";
    }
  }

  lemma SectionPrinted(title: string, names: seq<string>)
    ensures Emit([Node(title, "", MemberNodes(names))], 1) == ["  " + title + ":"] + MemberLines(names)
  {
    Indents();
    MembersPrinted(names);
    EmitOne(Node(title, "", MemberNodes(names)), 1);
    assert Line(Node(title, "", MemberNodes(names)), 1) == "  " + title + ":";
  }

  lemma GroupPrinted(g: ContentGroup)
    ensures Emit([GroupNode(g)], 0) == GroupLines(g)
  {
    Indents();
    EmitOne(GroupNode(g), 0);
    assert Line(GroupNode(g), 0) == g.name + ":";
    assert "  " + "children" + ":" == "  children:" && "  " + "hosts" + ":" == "  hosts:";
    SectionPrinted("children", g.subgroups);
    SectionPrinted("hosts", g.hosts);
    EmitAppend(When(g.subgroups != [], Node("children", "", MemberNodes(g.subgroups))),
               When(g.hosts != [], Node("hosts", "", MemberNodes(g.hosts))), 1);
  }

  lemma FirstHost(hosts: seq<ContentHost>)
    requires hosts != []
    ensures HostNodes(hosts) == [HostNode(hosts[0])] + HostNodes(hosts[1..])
    ensures AllHostLines(hosts) == HostLines(hosts[0]) + AllHostLines(hosts[1..])
  {
    hide HostNode, HostLines;
  }

  lemma NoHosts()
    ensures Emit(HostNodes([]), 2) == AllHostLines([])
  {
  }

  lemma {:induction false} HostsPrinted(hosts: seq<ContentHost>)
    ensures Emit(HostNodes(hosts), 2) == AllHostLines(hosts)
  {
    hide Emit, HostNode, HostNodes, HostLines, AllHostLines;
    if hosts == [] {
      NoHosts();
    } else {
      HostsPrinted(hosts[1..]);
      FirstHost(hosts);
      EmitAppend([HostNode(hosts[0])], HostNodes(hosts[1..]), 2);
      HostPrinted(hosts[0]);
    }
  }

  lemma FirstGroup(groups: seq<ContentGroup>)
    requires groups != []
    ensures GroupNodes(groups) == [GroupNode(groups[0])] + GroupNodes(groups[1..])
    ensures AllGroupLines(groups) == GroupLines(groups[0]) + AllGroupLines(groups[1..])
  {
    hide GroupNode, GroupLines;
  }

  lemma NoGroups()
    ensures Emit(GroupNodes([]), 0) == AllGroupLines([])
  {
  }

  lemma {:induction false} GroupsPrinted(groups: seq<ContentGroup>)
    ensures Emit(GroupNodes(groups), 0) == AllGroupLines(groups)
  {
    hide Emit, GroupNodes, GroupNode, GroupLines, AllGroupLines;
    if groups == [] {
      NoGroups();
    } else {
      FirstGroup(groups);
      GroupsPrinted(groups[1..]);
      GroupPrinted(groups[0]);
      EmitTwo([GroupNode(groups[0])], GroupNodes(groups[1..]), GroupLines(groups[0]), AllGroupLines(groups[1..]), 0);
    }
  }

  /** The template's text is the tree, emitted as block mappings. */
  lemma TreePrinted(c: Content)
    ensures Render(c) == Unlines(Emit(Tree(c), 0))
  {
    Indents();
    var hosts := Node("hosts", "", HostNodes(c.hosts));
    var all := Node("all", "", [hosts]);
    HostsPrinted(c.hosts);
    GroupsPrinted(c.groups);
    EmitOne(hosts, 1);
    EmitOne(all, 0);
    assert Line(hosts, 1) == "  hosts:" && Line(all, 0) == "all:";
    EmitAppend([all], GroupNodes(c.groups), 0);
    assert Tree(c) == [all] + GroupNodes(c.groups);
    hide Emit, HostNodes, GroupNodes, AllHostLines, AllGroupLines, Unlines, Line;
  }

  // ---------- The tree is read back ----------

  lemma FieldBehind(shown: bool, key: string, value: string, rest: seq<Node>, wanted: string)
    ensures FieldOf(When(shown, Scalar(key, value)) + rest, wanted) ==
            if shown && key == wanted then value else FieldOf(rest, wanted)
  {
    if shown {
      assert ([Scalar(key, value)] + rest)[1..] == rest;
    } else {
      assert When(shown, Scalar(key, value)) + rest == rest;
    }
  }

  lemma Reassociated(a: seq<Node>, b: seq<Node>, c: seq<Node>, d: seq<Node>, e: seq<Node>)
    ensures a + b + c + d + e == a + (b + (c + (d + e)))
  {
  }

  lemma HostFields(h: ContentHost, wanted: string)
    ensures FieldOf(HostNode(h).children, wanted) ==
            if h.hostname != "" && wanted == ADDRESS_KEY then h.hostname
            else if h.port != 0 && wanted == PORT_KEY then Decimal(h.port)
            else if h.username != "" && wanted == USER_KEY then h.username
            else if h.become && wanted == BECOME_KEY then "true"
            else if wanted == KEY_FILE_KEY then KEY_DIR + h.kubernetesName
            else ""
  {
    var a, b := When(h.hostname != "", Scalar(ADDRESS_KEY, h.hostname)), When(h.port != 0, Scalar(PORT_KEY, Decimal(h.port)));
    var u, e := When(h.username != "", Scalar(USER_KEY, h.username)), When(h.become, Scalar(BECOME_KEY, "true"));
    var f := [Scalar(KEY_FILE_KEY, KEY_DIR + h.kubernetesName)];
    hide When, Scalar, FieldOf;
    assert HostNode(h).children == a + (b + (u + (e + f))) by { Reassociated(a, b, u, e, f); }
    hide HostNode;
    FieldBehind(h.hostname != "", ADDRESS_KEY, h.hostname, b + (u + (e + f)), wanted);
    FieldBehind(h.port != 0, PORT_KEY, Decimal(h.port), u + (e + f), wanted);
    FieldBehind(h.username != "", USER_KEY, h.username, e + f, wanted);
    FieldBehind(h.become, BECOME_KEY, "true", f, wanted);
    LastField(KEY_FILE_KEY, KEY_DIR + h.kubernetesName, wanted);
  }

  lemma LastField(key: string, value: string, wanted: string)
    ensures FieldOf([Scalar(key, value)], wanted) == if key == wanted then value else ""
  {
    assert [Scalar(key, value)][1..] == [];
  }

  lemma FieldKeysDiffer()
    ensures ADDRESS_KEY != PORT_KEY && ADDRESS_KEY != USER_KEY && ADDRESS_KEY != BECOME_KEY && ADDRESS_KEY != KEY_FILE_KEY
    ensures PORT_KEY != USER_KEY && PORT_KEY != BECOME_KEY && PORT_KEY != KEY_FILE_KEY
    ensures USER_KEY != BECOME_KEY && USER_KEY != KEY_FILE_KEY && BECOME_KEY != KEY_FILE_KEY
  {
    assert ADDRESS_KEY[8] == 'h' && PORT_KEY[8] == 'p' && USER_KEY[8] == 'u' && BECOME_KEY[8] == 'b' && KEY_FILE_KEY[8] == 's';
  }

  lemma HostReadBack(h: ContentHost)
    requires HostPatterns(h)
    ensures ReadHost(HostNode(h)) == h
  {
    FieldKeysDiffer();
    hide FieldOf;
    HostFields(h, ADDRESS_KEY);
    HostFields(h, PORT_KEY);
    HostFields(h, USER_KEY);
    HostFields(h, BECOME_KEY);
    HostFields(h, KEY_FILE_KEY);
    ReadDecimalOfDecimal(h.port);
    assert KEY_DIR <= KEY_DIR + h.kubernetesName && (KEY_DIR + h.kubernetesName)[|KEY_DIR|..] == h.kubernetesName;
    assert ReadPort("") == 0;
  }

  lemma SectionsDiffer()
    ensures "children" != "hosts"
  {
    assert |"children"| == 8 && |"hosts"| == 5;
  }

  /** A section that is there or not, in front of the rest. */
  lemma BlockBehind(shown: bool, title: string, members: seq<Node>, rest: seq<Node>, wanted: string)
    ensures BlockOf(When(shown, Node(title, "", members)) + rest, wanted) ==
            if shown && title == wanted then members else BlockOf(rest, wanted)
  {
    if shown {
      assert ([Node(title, "", members)] + rest)[1..] == rest;
    } else {
      assert When(shown, Node(title, "", members)) + rest == rest;
    }
  }

  lemma NoBlock(wanted: string)
    ensures BlockOf([], wanted) == []
  {
  }

  /** A section is left out exactly if it has no members. */
  lemma SectionRead(names: seq<string>)
    ensures KeysOf(MemberNodes(names)) == names && KeysOf([]) == []
    ensures names == [] ==> MemberNodes(names) == []
  {
  }

  lemma GroupReadBack(g: ContentGroup)
    ensures ReadGroup(GroupNode(g)) == g
  {
    var subgroups, hosts := MemberNodes(g.subgroups), MemberNodes(g.hosts);
    var b := When(g.hosts != [], Node("hosts", "", hosts));
    SectionsDiffer();
    SectionRead(g.subgroups);
    SectionRead(g.hosts);
    assert GroupNode(g).children == When(g.subgroups != [], Node("children", "", subgroups)) + b;
    assert b == b + [];
    hide BlockOf, KeysOf, MemberNodes, When;
    BlockBehind(g.subgroups != [], "children", subgroups, b, "children");
    BlockBehind(g.subgroups != [], "children", subgroups, b, "hosts");
    BlockBehind(g.hosts != [], "hosts", hosts, [], "children");
    BlockBehind(g.hosts != [], "hosts", hosts, [], "hosts");
    NoBlock("children");
    NoBlock("hosts");
  }

  lemma TreeReadBack(c: Content)
    requires Patterns(c)
    ensures ReadGroups(Tree(c)[1..]) == c.groups
    ensures ReadHosts(BlockOf(Tree(c)[0].children, "hosts")) == c.hosts
  {
    assert Tree(c)[1..] == GroupNodes(c.groups);
    forall i | 0 <= i < |c.groups| ensures ReadGroup(GroupNodes(c.groups)[i]) == c.groups[i] { GroupReadBack(c.groups[i]); }
    forall i | 0 <= i < |c.hosts| ensures ReadHost(HostNodes(c.hosts)[i]) == c.hosts[i] {
      assert c.hosts[i] in c.hosts;
      HostReadBack(c.hosts[i]);
    }
    assert BlockOf(Tree(c)[0].children, "hosts") == HostNodes(c.hosts);
  }

  // ---------- Names that match the patterns are plain keys ----------

  lemma PatternIsPlain(s: string)
    requires NamePattern(s)
    ensures PlainKey(s)
  {
  }

  ghost predicate PlainNode(n: Node) {
    PlainKey(n.key) && '\n' !in n.value && Plain(n.children)
  }

  lemma {:induction false} PlainList(nodes: seq<Node>)
    requires forall i :: 0 <= i < |nodes| ==> PlainNode(nodes[i])
    ensures Plain(nodes)
  {
    if nodes != [] {
      assert PlainNode(nodes[0]);
      hide PlainNode;
      PlainList(nodes[1..]);
    }
  }

  lemma {:induction false} PlainAppend(a: seq<Node>, b: seq<Node>)
    requires Plain(a) && Plain(b)
    ensures Plain(a + b)
  {
    if a == [] {
      assert a + b == b;
    } else {
      PlainAppend(a[1..], b);
      assert (a + b)[1..] == a[1..] + b;
    }
  }

  lemma PlainOne(n: Node)
    requires PlainNode(n)
    ensures Plain([n])
  {
    assert [n][1..] == [];
  }

  lemma PlainWhen(shown: bool, n: Node)
    requires shown ==> PlainNode(n)
    ensures Plain(When(shown, n))
  {
    if shown { PlainOne(n); }
  }

  lemma MembersPlain(names: seq<string>)
    requires forall n :: n in names ==> NamePattern(n)
    ensures Plain(MemberNodes(names))
  {
    hide NamePattern, PlainKey;
    forall i | 0 <= i < |names| ensures PlainNode(MemberNodes(names)[i]) {
      assert names[i] in names;
      PatternIsPlain(names[i]);
    }
    PlainList(MemberNodes(names));
  }

  lemma FieldKeysPlain()
    ensures PlainKey(ADDRESS_KEY) && PlainKey(PORT_KEY) && PlainKey(USER_KEY) && PlainKey(BECOME_KEY)
  {
  }

  lemma KeyFileKeyPlain()
    ensures PlainKey(KEY_FILE_KEY)
  {
  }

  lemma HostPlain(h: ContentHost)
    requires HostPatterns(h)
    ensures PlainNode(HostNode(h))
  {
    FieldKeysPlain();
    KeyFileKeyPlain();
    PatternIsPlain(h.inventoryName);
    PatternIsPlain(h.kubernetesName);
    assert '\n' !in KEY_DIR + h.kubernetesName && '\n' !in h.hostname && '\n' !in h.username && '\n' !in Decimal(h.port);
    assert '\n' !in "true";
    hide PlainKey, HostPatterns, When, Plain;
    assert Plain([]) by { PlainEmpty(); }
    var a, b := When(h.hostname != "", Scalar(ADDRESS_KEY, h.hostname)), When(h.port != 0, Scalar(PORT_KEY, Decimal(h.port)));
    var u, e := When(h.username != "", Scalar(USER_KEY, h.username)), When(h.become, Scalar(BECOME_KEY, "true"));
    var f := [Scalar(KEY_FILE_KEY, KEY_DIR + h.kubernetesName)];
    PlainWhen(h.hostname != "", Scalar(ADDRESS_KEY, h.hostname));
    PlainWhen(h.port != 0, Scalar(PORT_KEY, Decimal(h.port)));
    PlainWhen(h.username != "", Scalar(USER_KEY, h.username));
    PlainWhen(h.become, Scalar(BECOME_KEY, "true"));
    PlainOne(Scalar(KEY_FILE_KEY, KEY_DIR + h.kubernetesName));
    PlainAppend(a, b);
    PlainAppend(a + b, u);
    PlainAppend(a + b + u, e);
    PlainAppend(a + b + u + e, f);
  }

  lemma PlainEmpty()
    ensures Plain([])
  {
  }

  lemma GroupPlain(g: ContentGroup)
    requires GroupPatterns(g)
    ensures PlainNode(GroupNode(g))
  {
    MembersPlain(g.subgroups);
    MembersPlain(g.hosts);
    PatternIsPlain(g.name);
    assert PlainKey("children") && PlainKey("hosts");
    hide PlainKey, GroupPatterns, When, Plain, MemberNodes;
    var a, b := Node("children", "", MemberNodes(g.subgroups)), Node("hosts", "", MemberNodes(g.hosts));
    PlainWhen(g.subgroups != [], a);
    PlainWhen(g.hosts != [], b);
    PlainAppend(When(g.subgroups != [], a), When(g.hosts != [], b));
  }

  lemma TreePlain(c: Content)
    requires Patterns(c)
    ensures Plain(Tree(c))
  {
    assert PlainKey("all") && PlainKey("hosts");
    hide HostPatterns, GroupPatterns, PlainKey, HostNode, GroupNode;
    forall i | 0 <= i < |c.hosts| ensures PlainNode(HostNodes(c.hosts)[i]) {
      assert c.hosts[i] in c.hosts;
      HostPlain(c.hosts[i]);
    }
    PlainList(HostNodes(c.hosts));
    PlainOne(Node("hosts", "", HostNodes(c.hosts)));
    PlainOne(Node("all", "", [Node("hosts", "", HostNodes(c.hosts))]));
    forall i | 0 <= i < |c.groups| ensures PlainNode(GroupNodes(c.groups)[i]) {
      assert c.groups[i] in c.groups;
      GroupPlain(c.groups[i]);
    }
    PlainList(GroupNodes(c.groups));
    PlainAppend([Node("all", "", [Node("hosts", "", HostNodes(c.hosts))])], GroupNodes(c.groups));
  }

  // ---------- Round trip ----------

  /** The printed inventory, read line by line, is the inventory. */
  lemma InventoryRoundTrip(c: Content)
    requires Patterns(c)
    ensures ReadInventory(Render(c)) == Some(c)
  {
    hide Render, Tree, ReadText, Plain;
    TreePlain(c);
    TreePrinted(c);
    ReadEmittedText(Tree(c));
    TreeReadBack(c);
    assert Tree(c)[0].key == "all" by { TreeHead(c); }
  }

  lemma TreeHead(c: Content)
    ensures Tree(c) != [] && Tree(c)[0].key == "all"
  {
  }

  /** So two inventories never print the same text. */
  lemma RenderInjective(a: Content, b: Content)
    requires Patterns(a) && Patterns(b) && Render(a) == Render(b)
    ensures a == b
  {
    hide Render, ReadInventory;
    InventoryRoundTrip(a);
    InventoryRoundTrip(b);
  }

  // ---------- Unique keys ----------

  /** No mapping of the tree has a key twice, as section 3.2.1.1 of YAML 1.2.2 demands. */
  ghost predicate UniqueKeys(forest: seq<Node>)
    decreases forest
  {
    && DistinctKeys(forest)
    && forall i :: 0 <= i < |forest| ==> UniqueKeys(forest[i].children)
  }

  ghost predicate DistinctKeys(nodes: seq<Node>) {
    forall i, j :: 0 <= i < j < |nodes| ==> nodes[i].key != nodes[j].key
  }

  ghost predicate DistinctGroupNames(groups: seq<ContentGroup>) {
    forall i, j :: 0 <= i < j < |groups| ==> groups[i].name != groups[j].name
  }

  ghost predicate DistinctHostNames(hosts: seq<ContentHost>) {
    forall i, j :: 0 <= i < j < |hosts| ==> hosts[i].inventoryName != hosts[j].inventoryName
  }

  ghost predicate NoRepeatedMember(groups: seq<ContentGroup>) {
    forall i :: 0 <= i < |groups| ==> NoDup(groups[i].subgroups) && NoDup(groups[i].hosts)
  }

  ghost predicate NoGroupNamedAll(groups: seq<ContentGroup>) {
    forall i :: 0 <= i < |groups| ==> groups[i].name != "all"
  }

  lemma MembersUniqueIff(names: seq<string>)
    ensures UniqueKeys(MemberNodes(names)) <==> NoDup(names)
  {
    var nodes := MemberNodes(names);
    assert forall i :: 0 <= i < |nodes| ==> nodes[i].key == names[i] && nodes[i].children == [];
    if DistinctKeys(nodes) {
      forall i, j | 0 <= i < j < |names| ensures names[i] != names[j] { assert nodes[i].key != nodes[j].key; }
    }
  }

  lemma UniqueOne(n: Node)
    ensures UniqueKeys([n]) <==> UniqueKeys(n.children)
  {
    assert [n][0] == n;
  }

  lemma UniqueTwo(m: Node, n: Node)
    requires m.key != n.key
    ensures UniqueKeys([m, n]) <==> UniqueKeys(m.children) && UniqueKeys(n.children)
  {
    assert [m, n][0] == m && [m, n][1] == n;
  }

  lemma UniqueNone()
    ensures UniqueKeys([]) && NoDup<string>([])
  {
  }

  lemma GroupUniqueIff(g: ContentGroup)
    ensures UniqueKeys(GroupNode(g).children) <==> NoDup(g.subgroups) && NoDup(g.hosts)
  {
    SectionsDiffer();
    MembersUniqueIff(g.subgroups);
    MembersUniqueIff(g.hosts);
    UniqueNone();
    var a, b := Node("children", "", MemberNodes(g.subgroups)), Node("hosts", "", MemberNodes(g.hosts));
    UniqueOne(a);
    UniqueOne(b);
    UniqueTwo(a, b);
    hide UniqueKeys, NoDup, MemberNodes;
    if g.subgroups == [] && g.hosts == [] {
      assert GroupNode(g).children == [];
    } else if g.subgroups == [] {
      assert GroupNode(g).children == [b];
    } else if g.hosts == [] {
      assert GroupNode(g).children == [a];
    } else {
      assert GroupNode(g).children == [a, b];
    }
  }

  lemma ScalarsUnique(nodes: seq<Node>)
    requires DistinctKeys(nodes) && forall i :: 0 <= i < |nodes| ==> nodes[i].children == []
    ensures UniqueKeys(nodes)
  {
  }

  /** The order in which the template prints the fields of a host. */
  function FieldRank(key: string): nat {
    if key == ADDRESS_KEY then 0 else if key == PORT_KEY then 1 else if key == USER_KEY then 2
    else if key == BECOME_KEY then 3 else 4
  }

  ghost predicate Ascending(nodes: seq<Node>, below: nat) {
    && (forall i :: 0 <= i < |nodes| ==> FieldRank(nodes[i].key) < below && nodes[i].children == [])
    && (forall i, j :: 0 <= i < j < |nodes| ==> FieldRank(nodes[i].key) < FieldRank(nodes[j].key))
  }

  lemma AscendingWhen(nodes: seq<Node>, below: nat, shown: bool, key: string, value: string)
    requires Ascending(nodes, below) && FieldRank(key) == below
    ensures Ascending(nodes + When(shown, Scalar(key, value)), below + 1)
  {
    hide FieldRank;
  }

  lemma FieldRanks()
    ensures FieldRank(ADDRESS_KEY) == 0 && FieldRank(PORT_KEY) == 1 && FieldRank(USER_KEY) == 2
    ensures FieldRank(BECOME_KEY) == 3 && FieldRank(KEY_FILE_KEY) == 4
  {
    FieldKeysDiffer();
  }

  lemma HostFieldsAscend(h: ContentHost)
    ensures Ascending(HostNode(h).children, 5)
  {
    hide When, Scalar, FieldRank, Ascending;
    var file := KEY_DIR + h.kubernetesName;
    var a, b := When(h.hostname != "", Scalar(ADDRESS_KEY, h.hostname)), When(h.port != 0, Scalar(PORT_KEY, Decimal(h.port)));
    var u, e := When(h.username != "", Scalar(USER_KEY, h.username)), When(h.become, Scalar(BECOME_KEY, "true"));
    FieldRanks();
    AscendingNone();
    AscendingWhen([], 0, h.hostname != "", ADDRESS_KEY, h.hostname);
    assert [] + a == a;
    AscendingWhen(a, 1, h.port != 0, PORT_KEY, Decimal(h.port));
    AscendingWhen(a + b, 2, h.username != "", USER_KEY, h.username);
    AscendingWhen(a + b + u, 3, h.become, BECOME_KEY, "true");
    AscendingWhen(a + b + u + e, 4, true, KEY_FILE_KEY, file);
    WhenShown(Scalar(KEY_FILE_KEY, file));
  }

  lemma AscendingNone()
    ensures Ascending([], 0)
  {
  }

  lemma WhenShown(x: Node)
    ensures When(true, x) == [x]
  {
  }

  lemma HostUnique(h: ContentHost)
    ensures UniqueKeys(HostNode(h).children)
  {
    hide HostNode, Ascending, UniqueKeys;
    HostFieldsAscend(h);
    AscendingUnique(HostNode(h).children, 5);
  }

  lemma AscendingUnique(nodes: seq<Node>, below: nat)
    requires Ascending(nodes, below)
    ensures UniqueKeys(nodes)
  {
    hide FieldRank;
    ScalarsUnique(nodes);
  }

  lemma HostsUniqueIff(hosts: seq<ContentHost>)
    ensures UniqueKeys(HostNodes(hosts)) <==> DistinctHostNames(hosts)
  {
    var nodes := HostNodes(hosts);
    forall i | 0 <= i < |hosts| ensures UniqueKeys(nodes[i].children) && nodes[i].key == hosts[i].inventoryName { HostUnique(hosts[i]); }
    hide HostNode;
    if UniqueKeys(nodes) {
      forall i, j | 0 <= i < j < |hosts| ensures hosts[i].inventoryName != hosts[j].inventoryName {
        assert nodes[i].key != nodes[j].key;
      }
    }
  }

  lemma GroupsUniqueIff(groups: seq<ContentGroup>)
    ensures UniqueKeys(GroupNodes(groups)) <==> DistinctGroupNames(groups) && NoRepeatedMember(groups)
  {
    var nodes := GroupNodes(groups);
    forall i | 0 <= i < |groups|
      ensures nodes[i].key == groups[i].name
      ensures UniqueKeys(nodes[i].children) <==> NoDup(groups[i].subgroups) && NoDup(groups[i].hosts)
    {
      GroupUniqueIff(groups[i]);
    }
    hide GroupNode, NoDup;
    if UniqueKeys(nodes) {
      forall i, j | 0 <= i < j < |groups| ensures groups[i].name != groups[j].name { assert nodes[i].key != nodes[j].key; }
      forall i | 0 <= i < |groups| ensures NoDup(groups[i].subgroups) && NoDup(groups[i].hosts) { assert UniqueKeys(nodes[i].children); }
    }
  }

  lemma ConsMembers(n: Node, rest: seq<Node>, i: nat)
    requires i < |rest|
    ensures ([n] + rest)[i + 1] == rest[i]
  {
  }

  lemma DistinctCons(n: Node, rest: seq<Node>)
    ensures DistinctKeys([n] + rest) <==> DistinctKeys(rest) && forall i :: 0 <= i < |rest| ==> rest[i].key != n.key
  {
    var all := [n] + rest;
    if DistinctKeys(all) {
      forall i | 0 <= i < |rest| ensures rest[i].key != n.key { assert all[0].key != all[i + 1].key; }
      forall i, j | 0 <= i < j < |rest| ensures rest[i].key != rest[j].key { assert all[i + 1].key != all[j + 1].key; }
    }
  }

  lemma UniqueCons(n: Node, rest: seq<Node>)
    ensures UniqueKeys([n] + rest) <==>
            UniqueKeys(n.children) && UniqueKeys(rest) && forall i :: 0 <= i < |rest| ==> rest[i].key != n.key
  {
    hide DistinctKeys;
    var all := [n] + rest;
    DistinctCons(n, rest);
    assert all[0] == n;
    if UniqueKeys(all) {
      forall i | 0 <= i < |rest| ensures UniqueKeys(rest[i].children) {
        ConsMembers(n, rest, i);
        assert UniqueKeys(all[i + 1].children);
      }
    } else if UniqueKeys(n.children) && UniqueKeys(rest) {
      forall i | 0 <= i < |all| ensures UniqueKeys(all[i].children) {
        if i > 0 { ConsMembers(n, rest, i - 1); }
      }
    }
  }

  /** The printed inventory repeats no key exactly if Ansible names differ among
      hosts and among groups, no group is called "all" and no group lists a
      member twice. Nothing in the resource definitions sees to that. */
  lemma InventoryKeysUniqueIff(c: Content)
    ensures UniqueKeys(Tree(c)) <==>
            DistinctHostNames(c.hosts) && DistinctGroupNames(c.groups) && NoRepeatedMember(c.groups) && NoGroupNamedAll(c.groups)
  {
    hide UniqueKeys, HostNodes, GroupNode, DistinctHostNames, DistinctGroupNames, NoRepeatedMember;
    var hosts := Node("hosts", "", HostNodes(c.hosts));
    var all := Node("all", "", [hosts]);
    HostsUniqueIff(c.hosts);
    UniqueOne(hosts);
    GroupsUniqueIff(c.groups);
    UniqueCons(all, GroupNodes(c.groups));
    forall i | 0 <= i < |c.groups| ensures GroupNodes(c.groups)[i].key == c.groups[i].name { GroupKey(c.groups[i]); }
    if forall i :: 0 <= i < |GroupNodes(c.groups)| ==> GroupNodes(c.groups)[i].key != "all" {
      forall i | 0 <= i < |c.groups| ensures c.groups[i].name != "all" { assert GroupNodes(c.groups)[i].key != "all"; }
    }
  }

  lemma GroupKey(g: ContentGroup)
    ensures GroupNode(g).key == g.name
  {
  }
}
