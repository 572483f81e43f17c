/** Python string operations the parsers rely on, stated on seq<char>.
    Case mapping covers ASCII letters only; whitespace is the set of code
    points for which Python's str.isspace() holds. */
module Text {

  /** Python's str.isspace() for one code point. */
  predicate IsSpace(c: char) {
    var n := c as int;
    n == 32 || 9 <= n <= 13 || 28 <= n <= 31 || n == 0x85 || n == 0xA0 || n == 0x1680
    || 0x2000 <= n <= 0x200A || n == 0x2028 || n == 0x2029 || n == 0x202F || n == 0x205F
    || n == 0x3000
  }

  predicate IsBlank(s: string) {
    forall i :: 0 <= i < |s| ==> IsSpace(s[i])
  }

  /** The number of whitespace characters that open s. */
  function LeadingSpaces(s: string): (n: nat)
    ensures n <= |s|
  {
    if s == [] || !IsSpace(s[0]) then 0 else 1 + LeadingSpaces(s[1..])
  }

  /** The number of whitespace characters that close s. */
  function TrailingSpaces(s: string): (n: nat)
    ensures n <= |s|
  {
    if s == [] || !IsSpace(s[|s| - 1]) then 0 else 1 + TrailingSpaces(s[..|s| - 1])
  }

  lemma {:induction false} LeadingStops(s: string)
    ensures LeadingSpaces(s) < |s| ==> !IsSpace(s[LeadingSpaces(s)])
  {
    if s != [] && IsSpace(s[0]) { LeadingStops(s[1..]); }
  }

  lemma {:induction false} TrailingStops(s: string)
    ensures TrailingSpaces(s) < |s| ==> !IsSpace(s[|s| - 1 - TrailingSpaces(s)])
  {
    if s != [] && IsSpace(s[|s| - 1]) { TrailingStops(s[..|s| - 1]); }
  }

  lemma {:induction false} LeadingAreSpaces(s: string, i: nat)
    requires i < LeadingSpaces(s)
    ensures IsSpace(s[i])
  {
    if i > 0 { LeadingAreSpaces(s[1..], i - 1); }
  }

  lemma {:induction false} TrailingAreSpaces(s: string, i: nat)
    requires |s| - TrailingSpaces(s) <= i < |s|
    ensures IsSpace(s[i])
  {
    if i < |s| - 1 { TrailingAreSpaces(s[..|s| - 1], i); }
  }

  /** str.lstrip(): drop the leading whitespace. */
  function LStrip(s: string): (r: string)
    ensures r == [] || !IsSpace(r[0])
  {
    LeadingStops(s);
    s[LeadingSpaces(s)..]
  }

  /** str.rstrip(): drop the trailing whitespace. */
  function RStrip(s: string): (r: string)
    ensures r == [] || !IsSpace(r[|r| - 1])
  {
    TrailingStops(s);
    s[..|s| - TrailingSpaces(s)]
  }

  /** str.strip(). */
  function Strip(s: string): string {
    RStrip(LStrip(s))
  }

  /** Where the stripped text starts and ends inside s. */
  function StripStart(s: string): nat { LeadingSpaces(s) }

  function StripEnd(s: string): (e: nat)
    ensures StripStart(s) <= e <= |s|
  {
    |s| - TrailingSpaces(LStrip(s))
  }

  /** A stripped string is the slice of s between its leading and trailing
      whitespace runs: it neither starts nor ends with whitespace, and every
      character it dropped is whitespace. */
  lemma StripShape(s: string)
    ensures Strip(s) == s[StripStart(s)..StripEnd(s)]
    ensures Strip(s) == [] || (!IsSpace(Strip(s)[0]) && !IsSpace(Strip(s)[|Strip(s)| - 1]))
    ensures forall i :: 0 <= i < StripStart(s) ==> IsSpace(s[i])
    ensures forall i :: StripEnd(s) <= i < |s| ==> IsSpace(s[i])
  {
    var l := LStrip(s);
    var a := StripStart(s);
    forall i | 0 <= i < a ensures IsSpace(s[i]) { LeadingAreSpaces(s, i); }
    forall i | StripEnd(s) <= i < |s| ensures IsSpace(s[i]) {
      assert s[i] == l[i - a];
      TrailingAreSpaces(l, i - a);
    }
    if Strip(s) != [] {
      assert Strip(s)[0] == l[0];
    }
  }

  lemma StripEmptyIffBlank(s: string)
    ensures Strip(s) == [] <==> IsBlank(s)
  {
    StripShape(s);
    if Strip(s) == [] {
      assert StripStart(s) == StripEnd(s);
    } else {
      assert s[StripStart(s)] == Strip(s)[0];
    }
  }

  lemma StripOfStripped(s: string)
    requires s == [] || (!IsSpace(s[0]) && !IsSpace(s[|s| - 1]))
    ensures Strip(s) == s
  {
  }

  function LowerChar(c: char): (d: char)
    ensures ('A' <= c <= 'Z') == ('a' <= d <= 'z' && d != c)
  {
    if 'A' <= c <= 'Z' then (c as int + 32) as char else c
  }

  function UpperChar(c: char): (d: char)
    ensures ('a' <= c <= 'z') == ('A' <= d <= 'Z' && d != c)
  {
    if 'a' <= c <= 'z' then (c as int - 32) as char else c
  }

  /** str.lower() / str.casefold() on ASCII letters. */
  function Lower(s: string): (r: string)
    ensures |r| == |s|
    ensures forall i :: 0 <= i < |s| ==> r[i] == LowerChar(s[i])
  {
    seq(|s|, i requires 0 <= i < |s| => LowerChar(s[i]))
  }

  /** str.upper() on ASCII letters. */
  function Upper(s: string): (r: string)
    ensures |r| == |s|
    ensures forall i :: 0 <= i < |s| ==> r[i] == UpperChar(s[i])
  {
    seq(|s|, i requires 0 <= i < |s| => UpperChar(s[i]))
  }

  /** `s.lower().startswith(key)` for a lower-case key, compared character
      by character. */
  predicate LowerStartsWith(s: string, key: string)
    decreases |key|
  {
    key == [] || (s != [] && LowerChar(s[0]) == key[0] && LowerStartsWith(s[1..], key[1..]))
  }

  lemma {:induction false} LowerStartsWithIsPrefix(s: string, key: string)
    ensures LowerStartsWith(s, key) <==> key <= Lower(s)
    decreases |key|
  {
    if key != [] && s != [] {
      LowerStartsWithIsPrefix(s[1..], key[1..]);
      assert Lower(s)[1..] == Lower(s[1..]);
    }
  }

  /** Python's `p in s` on strings: p occurs in s as a substring. */
  predicate Contains(s: string, p: string)
    decreases |s|
  {
    p <= s || (s != [] && Contains(s[1..], p))
  }

  lemma {:induction false} ContainsAt(s: string, p: string, k: nat)
    requires k + |p| <= |s| && s[k..k + |p|] == p
    ensures Contains(s, p)
    decreases k
  {
    if k > 0 {
      assert s[1..][k - 1..k - 1 + |p|] == p;
      ContainsAt(s[1..], p, k - 1);
    }
  }

  lemma {:induction false} ContainsWitness(s: string, p: string) returns (k: nat)
    requires Contains(s, p)
    ensures k + |p| <= |s| && s[k..k + |p|] == p
    decreases |s|
  {
    if p <= s {
      k := 0;
    } else {
      var j := ContainsWitness(s[1..], p);
      k := j + 1;
    }
  }

  lemma ContainsCharIff(s: string, c: char)
    ensures Contains(s, [c]) <==> c in s
  {
    if Contains(s, [c]) {
      var k := ContainsWitness(s, [c]);
      assert s[k] == c;
    }
    if c in s {
      var k :| 0 <= k < |s| && s[k] == c;
      assert s[k..k + 1] == [c];
      ContainsAt(s, [c], k);
    }
  }

  /** Index of the first occurrence of c in s. */
  function IndexOf(s: string, c: char): (k: nat)
    requires c in s
    ensures k < |s| && s[k] == c && c !in s[..k]
  {
    if s[0] == c then 0 else IndexOf(s[1..], c) + 1
  }

  /** `s.split(c, 1)[1]`: the text after the first c. Every caller has just
      matched a key that ends with c, so the separator is present; without it
      the result is empty. */
  function AfterFirst(s: string, c: char): (r: string)
    ensures c in s ==> r == s[IndexOf(s, c) + 1..]
    ensures c !in s ==> r == []
  {
    if c in s then s[IndexOf(s, c) + 1..] else []
  }

  /** `s.split(c, 1)[0]`: the text before the first c (all of s without one). */
  function BeforeFirst(s: string, c: char): (r: string)
    ensures c !in r
    ensures c in s ==> s == r + [c] + AfterFirst(s, c)
    ensures c !in s ==> r == s
  {
    if c in s then s[..IndexOf(s, c)] else s
  }

  /** Python's str.split(c) for one separator character. */
  function SplitOn(s: string, c: char): (parts: seq<string>)
    ensures |parts| >= 1
    ensures forall i :: 0 <= i < |parts| ==> c !in parts[i]
    decreases |s|
  {
    if c in s then [BeforeFirst(s, c)] + SplitOn(AfterFirst(s, c), c) else [s]
  }

  /** sep.join(parts). */
  function Join(sep: string, parts: seq<string>): string
  {
    if |parts| == 0 then []
    else if |parts| == 1 then parts[0]
    else parts[0] + sep + Join(sep, parts[1..])
  }

  lemma {:induction false} SplitJoin(s: string, c: char)
    ensures Join([c], SplitOn(s, c)) == s
    decreases |s|
  {
    if c in s {
      var rest := AfterFirst(s, c);
      SplitJoin(rest, c);
      var parts := SplitOn(rest, c);
      assert SplitOn(s, c) == [BeforeFirst(s, c)] + parts;
      assert ([BeforeFirst(s, c)] + parts)[1..] == parts;
    }
  }

  lemma {:induction false} JoinSplit(parts: seq<string>, c: char)
    requires |parts| >= 1
    requires forall i :: 0 <= i < |parts| ==> c !in parts[i]
    ensures SplitOn(Join([c], parts), c) == parts
    decreases |parts|
  {
    if |parts| > 1 {
      var tail := Join([c], parts[1..]);
      var s := parts[0] + [c] + tail;
      assert s[|parts[0]|] == c;
      assert c !in s[..|parts[0]|] by { assert s[..|parts[0]|] == parts[0]; }
      assert IndexOf(s, c) == |parts[0]|;
      assert BeforeFirst(s, c) == parts[0];
      assert AfterFirst(s, c) == tail;
      JoinSplit(parts[1..], c);
    }
  }

  /** The pieces of `text.split('\n')`, with the empty piece after a final
      newline removed: Python's str.splitlines() for '\n' line ends. */
  function SplitLines(text: string): (lines: seq<string>)
    ensures forall i :: 0 <= i < |lines| ==> '\n' !in lines[i]
  {
    if text == [] then []
    else
      var parts := SplitOn(text, '\n');
      if parts[|parts| - 1] == [] then parts[..|parts| - 1] else parts
  }

  predicate NoSpace(t: string) {
    forall j :: 0 <= j < |t| ==> !IsSpace(t[j])
  }

  /** str.split() without arguments: the maximal runs of non-space characters. */
  function SplitWhitespace(s: string): (tokens: seq<string>)
    ensures forall i :: 0 <= i < |tokens| ==> tokens[i] != [] && NoSpace(tokens[i])
    decreases |s|
  {
    var t := LStrip(s);
    if t == [] then []
    else
      var k := FirstSpace(t);
      assert k > 0 by { assert !IsSpace(t[0]); }
      var tok := t[..k];
      assert NoSpace(tok) by { assert forall j :: 0 <= j < k ==> tok[j] == t[j]; }
      var rest := SplitWhitespace(t[k..]);
      var r := [tok] + rest;
      assert forall i :: 1 <= i < |r| ==> r[i] == rest[i - 1];
      r
  }

  /** Index of the first whitespace character of s, or |s|. */
  function FirstSpace(s: string): (k: nat)
    ensures k <= |s| && (k < |s| ==> IsSpace(s[k]))
    ensures forall i :: 0 <= i < k ==> !IsSpace(s[i])
  {
    if s == [] then 0 else if IsSpace(s[0]) then 0 else 1 + FirstSpace(s[1..])
  }

  /** Python's s.replace(p, r) for a non-empty pattern: every non-overlapping
      occurrence, scanned left to right, is replaced. */
  function ReplaceAll(s: string, p: string, r: string): string
    requires p != []
    decreases |s|
  {
    if |s| < |p| then s
    else if p <= s then r + ReplaceAll(s[|p|..], p, r)
    else [s[0]] + ReplaceAll(s[1..], p, r)
  }

  lemma {:induction false} ReplaceAbsent(s: string, p: string, r: string)
    requires p != [] && !Contains(s, p)
    ensures ReplaceAll(s, p, r) == s
    decreases |s|
  {
    if |s| >= |p| {
      ReplaceAbsent(s[1..], p, r);
    }
  }

  lemma ReplaceWhole(p: string, r: string)
    requires p != []
    ensures ReplaceAll(p, p, r) == r
  {
    assert p[|p|..] == [];
  }

  /** Python string order: lexicographic by code point, a proper prefix first. */
  predicate LexLess(a: string, b: string)
    decreases |a|
  {
    if a == [] then b != []
    else if b == [] then false
    else if a[0] != b[0] then a[0] < b[0]
    else LexLess(a[1..], b[1..])
  }

  lemma {:induction false} LexLessIrreflexive(a: string)
    ensures !LexLess(a, a)
    decreases |a|
  {
    if a != [] { LexLessIrreflexive(a[1..]); }
  }

  lemma {:induction false} LexLessTransitive(a: string, b: string, c: string)
    requires LexLess(a, b) && LexLess(b, c)
    ensures LexLess(a, c)
    decreases |a|
  {
    if a != [] && b != [] && c != [] && a[0] == b[0] && b[0] == c[0] {
      LexLessTransitive(a[1..], b[1..], c[1..]);
    }
  }

  lemma {:induction false} LexLessTotal(a: string, b: string)
    requires a != b
    ensures LexLess(a, b) || LexLess(b, a)
    decreases |a|
  {
    if a != [] && b != [] && a[0] == b[0] {
      assert a == [a[0]] + a[1..] && b == [b[0]] + b[1..];
      LexLessTotal(a[1..], b[1..]);
    }
  }

  lemma LexLessAsymmetric(a: string, b: string)
    requires LexLess(a, b)
    ensures !LexLess(b, a)
  {
    if LexLess(b, a) {
      LexLessTransitive(a, b, a);
      LexLessIrreflexive(a);
    }
  }

  /** m is the least element of ks in code-point order. */
  predicate IsLeast(m: string, ks: set<string>) {
    m in ks && forall x :: x in ks ==> !LexLess(x, m)
  }

  lemma {:induction false} LeastExists(ks: set<string>)
    requires ks != {}
    ensures exists m :: IsLeast(m, ks)
    decreases |ks|
  {
    var x :| x in ks;
    if ks == {x} {
      LexLessIrreflexive(x);
      assert IsLeast(x, ks);
    } else {
      LeastExists(ks - {x});
      var m :| IsLeast(m, ks - {x});
      if LexLess(x, m) {
        forall y | y in ks ensures !LexLess(y, x) {
          if y == x {
            LexLessIrreflexive(x);
          } else if LexLess(y, x) {
            LexLessTransitive(y, x, m);
          }
        }
        assert IsLeast(x, ks);
      } else {
        assert IsLeast(m, ks);
      }
    }
  }

  lemma LeastBelowOthers(m: string, ks: set<string>)
    requires IsLeast(m, ks)
    ensures forall x :: x in ks && x != m ==> LexLess(m, x)
  {
    forall x | x in ks && x != m ensures LexLess(m, x) {
      LexLessTotal(m, x);
    }
  }

  lemma LeastUnique(a: string, b: string, ks: set<string>)
    requires IsLeast(a, ks) && IsLeast(b, ks)
    ensures a == b
  {
    if a != b {
      LexLessTotal(a, b);
    }
  }

  /** Python's sorted() over a set of strings: each element once
      (SortedStringsMembers), in increasing code-point order
      (SortedStringsIncreasing). */
  ghost function SortedStrings(ks: set<string>): (r: seq<string>)
    ensures |r| == |ks|
    decreases |ks|
  {
    if ks == {} then []
    else
      LeastExists(ks);
      var m :| IsLeast(m, ks);
      [m] + SortedStrings(ks - {m})
  }

  lemma {:induction false} SortedStringsMembers(ks: set<string>)
    ensures forall x :: x in SortedStrings(ks) <==> x in ks
    decreases |ks|
  {
    if ks != {} {
      var r := SortedStrings(ks);
      assert IsLeast(r[0], ks) && r[1..] == SortedStrings(ks - {r[0]});
      SortedStringsMembers(ks - {r[0]});
      assert r == [r[0]] + r[1..];
    }
  }

  lemma {:induction false} SortedStringsIncreasing(ks: set<string>)
    ensures var r := SortedStrings(ks);
      forall i, j :: 0 <= i < j < |r| ==> LexLess(r[i], r[j])
    decreases |ks|
  {
    if ks != {} {
      var r := SortedStrings(ks);
      var m := r[0];
      assert IsLeast(m, ks) && r[1..] == SortedStrings(ks - {m});
      SortedStringsIncreasing(ks - {m});
      SortedStringsMembers(ks - {m});
      LeastBelowOthers(m, ks);
      forall i, j | 0 <= i < j < |r| ensures LexLess(r[i], r[j]) {
        if i > 0 {
          assert r[i] == r[1..][i - 1] && r[j] == r[1..][j - 1];
        } else {
          assert r[j] in r[1..];
        }
      }
    }
  }

  lemma SortedStringsAt(ks: set<string>, i: nat, j: nat)
    requires i < j < |SortedStrings(ks)|
    ensures LexLess(SortedStrings(ks)[i], SortedStrings(ks)[j])
  {
    SortedStringsIncreasing(ks);
  }

  /** sorted() of a set lists no element twice. */
  lemma SortedStringsDistinct(ks: set<string>)
    ensures forall i, j :: 0 <= i < j < |SortedStrings(ks)| ==> SortedStrings(ks)[i] != SortedStrings(ks)[j]
  {
    var r := SortedStrings(ks);
    forall i, j | 0 <= i < j < |r| ensures r[i] != r[j] {
      SortedStringsAt(ks, i, j);
      LexLessIrreflexive(r[i]);
    }
  }

  lemma SortedStringsFirst(ks: set<string>, m: string)
    requires IsLeast(m, ks)
    ensures SortedStrings(ks) == [m] + SortedStrings(ks - {m})
  {
    var r := SortedStrings(ks);
    assert IsLeast(r[0], ks) && r[1..] == SortedStrings(ks - {r[0]});
    LeastUnique(m, r[0], ks);
  }

  lemma SortStep(r: seq<string>, left: set<string>, m: string)
    requires IsLeast(m, left)
    ensures (r + [m]) + SortedStrings(left - {m}) == r + SortedStrings(left)
  {
    SortedStringsFirst(left, m);
    assert (r + [m]) + SortedStrings(left - {m}) == r + ([m] + SortedStrings(left - {m}));
  }

  method SortStrings(ks: set<string>) returns (r: seq<string>)
    ensures r == SortedStrings(ks)
  {
    r := [];
    var left := ks;
    while left != {}
      invariant r + SortedStrings(left) == SortedStrings(ks)
      decreases |left|
    {
      LeastExists(left);
      var m :| IsLeast(m, left);
      SortStep(r, left, m);
      r := r + [m];
      left := left - {m};
    }
  }
}
