// String operations the controllers rely on: ordering, sorting, splitting at
// newlines and decimal numbers.

module Strings {

  // ---------- Ordering (Go compares strings element by element) ----------

  predicate Leq(a: string, b: string) {
    |a| == 0 || (|b| > 0 && (a[0] < b[0] || (a[0] == b[0] && Leq(a[1..], b[1..]))))
  }

  lemma LeqTotal(a: string, b: string)
    ensures Leq(a, b) || Leq(b, a)
  {
  }

  lemma LeqAntisymmetric(a: string, b: string)
    requires Leq(a, b) && Leq(b, a)
    ensures a == b
  {
    if |a| > 0 {
      LeqAntisymmetric(a[1..], b[1..]);
      assert a == [a[0]] + a[1..] && b == [b[0]] + b[1..];
    }
  }

  lemma LeqTransitive(a: string, b: string, c: string)
    requires Leq(a, b) && Leq(b, c)
    ensures Leq(a, c)
  {
  }

  /** It is the lexicographic order: a prefix comes first, and otherwise the first
      difference decides. */
  lemma {:induction false} LeqIff(a: string, b: string)
    ensures Leq(a, b) <==> a <= b || exists i :: DifferAt(a, b, i) && a[i] < b[i]
  {
    if a != [] && b != [] && a[0] == b[0] {
      LeqIff(a[1..], b[1..]);
      assert a == [a[0]] + a[1..] && b == [b[0]] + b[1..];
      assert a <= b <==> a[1..] <= b[1..];
      if i :| DifferAt(a, b, i) && a[i] < b[i] { assert DifferAt(a[1..], b[1..], i - 1); }
      if i :| DifferAt(a[1..], b[1..], i) && a[1..][i] < b[1..][i] { assert DifferAt(a, b, i + 1); }
    } else if a != [] && b != [] {
      assert DifferAt(a, b, 0);
    }
  }

  predicate DifferAt(a: string, b: string, i: int) {
    0 <= i < |a| && i < |b| && a[i] != b[i] && forall j :: 0 <= j < i ==> a[j] == b[j]
  }

  // ---------- Sorting ----------

  ghost predicate Sorted(s: seq<string>) {
    forall i, j :: 0 <= i < j < |s| ==> Leq(s[i], s[j])
  }

  function Insert(x: string, s: seq<string>): (r: seq<string>)
    ensures multiset(r) == multiset(s) + multiset{x}
  {
    if s == [] then [x]
    else if Leq(x, s[0]) then [x] + s
    else
      assert s == [s[0]] + s[1..];
      [s[0]] + Insert(x, s[1..])
  }

  /** The result of `slices.Sort`. */
  function Sort(s: seq<string>): (r: seq<string>)
    ensures multiset(r) == multiset(s)
  {
    if s == [] then [] else
      assert s == [s[0]] + s[1..];
      Insert(s[0], Sort(s[1..]))
  }

  lemma SameMembers<T>(a: seq<T>, b: seq<T>, x: T)
    requires multiset(a) == multiset(b)
    ensures |a| == |b| && (x in a <==> x in b)
  {
    assert x in multiset(a) <==> x in a;
    assert x in multiset(b) <==> x in b;
    assert |multiset(a)| == |a| && |multiset(b)| == |b|;
  }

  lemma {:induction false} InsertSorted(x: string, s: seq<string>)
    requires Sorted(s)
    ensures Sorted(Insert(x, s))
  {
    if s != [] {
      if Leq(x, s[0]) {
        forall j | 0 <= j < |s| ensures Leq(x, s[j]) {
          if j > 0 { LeqTransitive(x, s[0], s[j]); }
        }
      } else {
        LeqTotal(x, s[0]);
        var rest := Insert(x, s[1..]);
        InsertSorted(x, s[1..]);
        forall j | 0 <= j < |rest| ensures Leq(s[0], rest[j]) {
          assert rest[j] in multiset(rest);
          assert rest[j] == x || rest[j] in s[1..];
        }
      }
    }
  }

  lemma {:induction false} SortSorts(s: seq<string>)
    ensures Sorted(Sort(s))
  {
    if s != [] {
      SortSorts(s[1..]);
      InsertSorted(s[0], Sort(s[1..]));
    }
  }

  lemma SortedFirst(a: seq<string>, x: string)
    requires Sorted(a) && x in a
    ensures Leq(a[0], x)
  {
    var j :| 0 <= j < |a| && a[j] == x;
    if j == 0 { LeqTotal(x, x); }
  }

  lemma WithoutFirst(a: seq<string>)
    requires a != []
    ensures multiset(a[1..]) == multiset(a) - multiset{a[0]}
    ensures Sorted(a) ==> Sorted(a[1..])
  {
    assert a == [a[0]] + a[1..];
  }

  lemma {:induction false} SortedUnique(a: seq<string>, b: seq<string>)
    requires Sorted(a) && Sorted(b) && multiset(a) == multiset(b)
    ensures a == b
  {
    hide Sorted, Leq;
    assert |multiset(a)| == |a| && |multiset(b)| == |b|;
    if a != [] {
      SameMembers(a, b, a[0]);
      SameMembers(a, b, b[0]);
      SortedFirst(a, b[0]);
      SortedFirst(b, a[0]);
      LeqAntisymmetric(a[0], b[0]);
      WithoutFirst(a);
      WithoutFirst(b);
      SortedUnique(a[1..], b[1..]);
      assert a == [a[0]] + a[1..] && b == [b[0]] + b[1..];
    }
  }

  /** Sorting forgets the order its input came in. */
  lemma SortOfPermutation(a: seq<string>, b: seq<string>)
    requires multiset(a) == multiset(b)
    ensures Sort(a) == Sort(b)
  {
    SortSorts(a);
    SortSorts(b);
    SortedUnique(Sort(a), Sort(b));
  }

  // ---------- Duplicate-free lists ----------

  ghost predicate NoDup<T>(s: seq<T>) {
    forall i, j :: 0 <= i < j < |s| ==> s[i] != s[j]
  }

  lemma {:induction false} NoDupCount<T>(s: seq<T>, x: T)
    requires NoDup(s)
    ensures multiset(s)[x] == if x in s then 1 else 0
  {
    if s != [] {
      assert s == [s[0]] + s[1..];
      NoDupCount(s[1..], x);
    }
  }

  lemma NoDupPermutation<T>(a: seq<T>, b: seq<T>)
    requires NoDup(a) && NoDup(b)
    requires forall x :: x in a <==> x in b
    ensures multiset(a) == multiset(b)
  {
    forall x ensures multiset(a)[x] == multiset(b)[x] {
      NoDupCount(a, x);
      NoDupCount(b, x);
    }
  }

  lemma CountTwice<T>(s: seq<T>, i: nat, j: nat)
    requires i < j < |s| && s[i] == s[j]
    ensures multiset(s)[s[i]] >= 2
  {
    assert s == s[..j] + [s[j]] + s[j + 1..];
    assert s[i] in s[..j] by { assert s[..j][i] == s[i]; }
  }

  lemma NoDupFromMultiset<T>(a: seq<T>, b: seq<T>)
    requires multiset(a) == multiset(b) && NoDup(a)
    ensures NoDup(b)
  {
    forall i, j | 0 <= i < j < |b| ensures b[i] != b[j] {
      NoDupCount(a, b[i]);
      if b[i] == b[j] { CountTwice(b, i, j); }
    }
  }

  // ---------- Sublists ----------

  /** a can be read off b from left to right. */
  ghost predicate IsSublist<T>(a: seq<T>, b: seq<T>) {
    || a == []
    || (b != [] && IsSublist(a, b[..|b| - 1]))
    || (b != [] && a[|a| - 1] == b[|b| - 1] && IsSublist(a[..|a| - 1], b[..|b| - 1]))
  }

  lemma SublistGrows<T>(a: seq<T>, b: seq<T>, x: T)
    requires IsSublist(a, b)
    ensures IsSublist(a, b + [x]) && IsSublist(a + [x], b + [x])
  {
    assert (b + [x])[..|b|] == b && (a + [x])[..|a|] == a;
  }

  // ---------- Keys in order ----------

  /** Some listing of a finite set, in no particular order. */
  ghost function Enumerate(keys: set<string>): (r: seq<string>)
    ensures NoDup(r)
    ensures forall k :: k in r <==> k in keys
  {
    if keys == {} then []
    else
      var k :| k in keys;
      [k] + Enumerate(keys - {k})
  }

  /** `slices.Sorted(maps.Keys(m))`. */
  ghost function SortedKeys(keys: set<string>): (r: seq<string>)
    ensures NoDup(r) && Sorted(r)
    ensures forall k :: k in r <==> k in keys
  {
    var e := Enumerate(keys);
    SortSorts(e);
    NoDupFromMultiset(e, Sort(e));
    assert forall k :: k in Sort(e) <==> k in keys by {
      forall k ensures k in Sort(e) <==> k in keys { SameMembers(e, Sort(e), k); }
    }
    Sort(e)
  }

  lemma SortIsSortedKeys(listed: seq<string>, keys: set<string>)
    requires NoDup(listed)
    requires forall k :: k in listed <==> k in keys
    ensures Sort(listed) == SortedKeys(keys)
  {
    NoDupPermutation(listed, Enumerate(keys));
    SortOfPermutation(listed, Enumerate(keys));
  }

  // ---------- Splitting at newlines ----------

  /** `strings.Split(s, "\n")`. */
  function Split(s: string): (r: seq<string>)
    ensures |r| >= 1
    ensures forall p :: p in r ==> '\n' !in p
  {
    if s == "" then [""]
    else if s[0] == '\n' then [""] + Split(s[1..])
    else
      var rest := Split(s[1..]);
      assert '\n' !in [s[0]] + rest[0];
      [[s[0]] + rest[0]] + rest[1..]
  }

  lemma {:induction false} SplitLine(line: string, rest: string)
    requires '\n' !in line
    ensures Split(line + "\n" + rest) == [line] + Split(rest)
  {
    var s := line + "\n" + rest;
    if line == "" {
      assert s[1..] == rest;
    } else {
      SplitLine(line[1..], rest);
      assert s[1..] == line[1..] + "\n" + rest;
      assert [line[0]] + line[1..] == line;
    }
  }

  /** Every line, each followed by a newline. */
  function Unlines(lines: seq<string>): string {
    if lines == [] then "" else lines[0] + "\n" + Unlines(lines[1..])
  }

  lemma UnlinesHead(lines: seq<string>, rest: string)
    requires lines != []
    ensures Unlines(lines) + rest == lines[0] + "\n" + (Unlines(lines[1..]) + rest)
  {
  }

  lemma SplitHead(lines: seq<string>, rest: string)
    requires lines != [] && '\n' !in lines[0]
    ensures Split(Unlines(lines) + rest) == [lines[0]] + Split(Unlines(lines[1..]) + rest)
  {
    UnlinesHead(lines, rest);
    hide Unlines, Split;
    SplitLine(lines[0], Unlines(lines[1..]) + rest);
  }

  lemma {:induction false} SplitUnlines(lines: seq<string>, rest: string)
    requires forall l :: l in lines ==> '\n' !in l
    ensures Split(Unlines(lines) + rest) == lines + Split(rest)
  {
    if lines == [] {
      assert Unlines(lines) + rest == rest;
    } else {
      hide Unlines, Split;
      SplitUnlines(lines[1..], rest);
      SplitHead(lines, rest);
      assert [lines[0]] + (lines[1..] + Split(rest)) == lines + Split(rest);
    }
  }

  lemma {:induction false} UnlinesAppend(a: seq<string>, b: seq<string>)
    ensures Unlines(a + b) == Unlines(a) + Unlines(b)
  {
    if a == [] {
      assert a + b == b;
    } else {
      UnlinesAppend(a[1..], b);
      assert (a + b)[1..] == a[1..] + b;
    }
  }

  function NonBlank(lines: seq<string>): (r: seq<string>)
    ensures forall l :: l in r <==> l in lines && l != ""
  {
    if lines == [] then []
    else if lines[0] == "" then NonBlank(lines[1..])
    else [lines[0]] + NonBlank(lines[1..])
  }

  lemma NonBlankCons(line: string, rest: seq<string>)
    ensures NonBlank([line] + rest) == (if line == "" then [] else [line]) + NonBlank(rest)
  {
    assert ([line] + rest)[1..] == rest;
  }

  lemma {:induction false} NonBlankAppend(a: seq<string>, b: seq<string>)
    ensures NonBlank(a + b) == NonBlank(a) + NonBlank(b)
  {
    if a == [] {
      assert a + b == b;
    } else {
      hide NonBlank;
      NonBlankAppend(a[1..], b);
      NonBlankCons(a[0], a[1..]);
      NonBlankCons(a[0], a[1..] + b);
      assert a == [a[0]] + a[1..] && a + b == [a[0]] + (a[1..] + b);
    }
  }

  lemma {:induction false} NonBlankAll(a: seq<string>)
    requires "" !in a
    ensures NonBlank(a) == a
  {
    if a != [] {
      NonBlankAll(a[1..]);
      assert a == [a[0]] + a[1..];
    }
  }

  // ---------- Decimal numbers ----------

  function Digit(d: nat): (c: char)
    requires d < 10
    ensures '0' <= c <= '9'
  {
    ('0' as int + d) as char
  }

  function Decimal(n: nat): (s: string)
    ensures |s| > 0
    ensures forall c :: c in s ==> '0' <= c <= '9'
  {
    if n < 10 then [Digit(n)] else Decimal(n / 10) + [Digit(n % 10)]
  }

  function ReadDecimal(s: string): int {
    if s == "" then 0
    else 10 * ReadDecimal(s[..|s| - 1]) + (s[|s| - 1] as int - '0' as int)
  }

  lemma {:induction false} ReadDecimalOfDecimal(n: nat)
    ensures ReadDecimal(Decimal(n)) == n
  {
    if n < 10 {
      assert Decimal(n)[..0] == "";
    } else {
      ReadDecimalOfDecimal(n / 10);
      var s := Decimal(n);
      assert s[..|s| - 1] == Decimal(n / 10);
    }
  }
}
