/** The chemical-formula helpers: parsing a formula into element counts,
    writing counts back as a formula (carbon, hydrogen, then the other
    elements alphabetically), and the monoisotopic mass of a composition
    against a mass table. */
module ChemData {
  import opened Wrappers
  import opened Text
  import opened Decimal

  predicate IsUpperLetter(c: char) { 'A' <= c <= 'Z' }

  predicate IsLowerLetter(c: char) { 'a' <= c <= 'z' }

  /** An element symbol as the formula pattern reads it: `[A-Z][a-z]?`. */
  predicate IsSymbol(el: string) {
    (|el| == 1 && IsUpperLetter(el[0])) || (|el| == 2 && IsUpperLetter(el[0]) && IsLowerLetter(el[1]))
  }

  /** The length of the run of ASCII digits at the start of s (`\d*`). */
  function DigitRun(s: string): (n: nat)
    ensures n <= |s| && AllDigits(s[..n])
    ensures n < |s| ==> !IsDigit(s[n])
  {
    if s == [] || !IsDigit(s[0]) then 0
    else
      var n := 1 + DigitRun(s[1..]);
      assert s[..n] == [s[0]] + s[1..][..n - 1];
      n
  }

  /** One match of `([A-Z][a-z]?)(\d*)`: the symbol and its digit group. */
  datatype Match = Match(element: string, digits: string)

  /** re.findall over the formula: scanning left to right, a capital letter
      starts a match (taking one following lower-case letter and then every
      following digit); any other character is skipped. */
  function Matches(formula: string): (ms: seq<Match>)
    ensures forall i :: 0 <= i < |ms| ==> IsSymbol(ms[i].element) && AllDigits(ms[i].digits)
    decreases |formula|
  {
    if formula == [] then []
    else if !IsUpperLetter(formula[0]) then Matches(formula[1..])
    else
      var n := if |formula| > 1 && IsLowerLetter(formula[1]) then 2 else 1;
      var d := DigitRun(formula[n..]);
      assert formula[n..][..d] == formula[n..n + d];
      [Match(formula[..n], formula[n..n + d])] + Matches(formula[n + d..])
  }

  /** `int(count) if count else 1`. */
  function Count(m: Match): nat
    requires AllDigits(m.digits)
  {
    if m.digits == [] then 1 else ParseDigits(m.digits)
  }

  /** The dict comprehension over the matches: a later match of the same
      symbol overwrites the earlier count. */
  function Collect(ms: seq<Match>): map<string, int>
    requires forall i :: 0 <= i < |ms| ==> AllDigits(ms[i].digits)
  {
    if ms == [] then map[]
    else Collect(ms[..|ms| - 1])[ms[|ms| - 1].element := Count(ms[|ms| - 1])]
  }

  /** formula_to_dict. */
  function FormulaToDict(formula: string): map<string, int> {
    Collect(Matches(formula))
  }

  /** A symbol is a key exactly when some match carries it. */
  lemma {:induction false} CollectKeys(ms: seq<Match>, el: string)
    requires forall i :: 0 <= i < |ms| ==> AllDigits(ms[i].digits)
    ensures el in Collect(ms) <==> exists i :: 0 <= i < |ms| && ms[i].element == el
  {
    if ms != [] {
      var pre := ms[..|ms| - 1];
      CollectKeys(pre, el);
      if exists i :: 0 <= i < |pre| && pre[i].element == el {
        var i :| 0 <= i < |pre| && pre[i].element == el;
        assert ms[i] == pre[i];
      }
      if exists i :: 0 <= i < |ms| && ms[i].element == el {
        var i :| 0 <= i < |ms| && ms[i].element == el;
        if i < |pre| { assert pre[i] == ms[i]; }
      }
    }
  }

  /** The count kept for a symbol is that of its last match. */
  lemma {:induction false} LastMatchWins(ms: seq<Match>, i: nat)
    requires forall j :: 0 <= j < |ms| ==> AllDigits(ms[j].digits)
    requires i < |ms|
    requires forall j :: i < j < |ms| ==> ms[j].element != ms[i].element
    ensures ms[i].element in Collect(ms) && Collect(ms)[ms[i].element] == Count(ms[i])
  {
    if i < |ms| - 1 {
      var pre := ms[..|ms| - 1];
      assert pre[i] == ms[i];
      LastMatchWins(pre, i);
    }
  }

  // ---------------------------------------------------------------------------
  // dict_to_formula

  /** One element's piece: the symbol, followed by the count only when it
      exceeds 1. */
  function Piece(el: string, count: int): string {
    if count > 1 then el + NatToString(count) else el
  }

  /** The symbols written before the sorted rest: C, then H, when present. */
  function Leading(counts: map<string, int>): (els: seq<string>)
    ensures forall i :: 0 <= i < |els| ==> els[i] in counts
  {
    (if "C" in counts then ["C"] else []) + (if "H" in counts then ["H"] else [])
  }

  /** C first, then H, then every other symbol in ascending order. */
  ghost function Order(counts: map<string, int>): (els: seq<string>)
    ensures forall i :: 0 <= i < |els| ==> els[i] in counts
  {
    var rest := SortedStrings(counts.Keys - {"C", "H"});
    SortedStringsMembers(counts.Keys - {"C", "H"});
    assert forall i :: 0 <= i < |rest| ==> rest[i] in rest;
    Leading(counts) + rest
  }

  lemma OrderCovers(counts: map<string, int>, x: string)
    requires x in counts
    ensures x in Order(counts)
  {
    if x != "C" && x != "H" {
      SortedStringsMembers(counts.Keys - {"C", "H"});
    }
  }

  function Pieces(els: seq<string>, counts: map<string, int>): (ps: seq<string>)
    requires forall i :: 0 <= i < |els| ==> els[i] in counts
    ensures |ps| == |els|
  {
    if els == [] then [] else [Piece(els[0], counts[els[0]])] + Pieces(els[1..], counts)
  }

  ghost function FormulaOf(counts: map<string, int>): string {
    Join("", Pieces(Order(counts), counts))
  }

  /** dict_to_formula. */
  method DictToFormula(counts: map<string, int>) returns (formula: string)
    ensures formula == FormulaOf(counts)
  {
    var lead := LeadingPieces(counts);
    var rest := SortStrings(counts.Keys - {"C", "H"});
    OthersInCounts(counts);
    var others := OtherPieces(rest, counts);
    FormulaOfParts(counts, lead + others);
    formula := Join("", lead + others);
  }

  /** The pieces of the remaining symbols, appended in the order given. */
  method OtherPieces(rest: seq<string>, counts: map<string, int>) returns (parts: seq<string>)
    requires forall k :: 0 <= k < |rest| ==> rest[k] in counts
    ensures parts == Pieces(rest, counts)
  {
    parts := [];
    var i := 0;
    while i < |rest|
      invariant 0 <= i <= |rest|
      invariant parts == Pieces(rest[..i], counts)
    {
      PiecesPrefixStep(rest, i, counts);
      parts := parts + [Piece(rest[i], counts[rest[i]])];
      i := i + 1;
    }
    assert rest[..i] == rest;
  }

  lemma OthersInCounts(counts: map<string, int>)
    ensures var rest := SortedStrings(counts.Keys - {"C", "H"});
      forall k :: 0 <= k < |rest| ==> rest[k] in counts
  {
    var rest := SortedStrings(counts.Keys - {"C", "H"});
    SortedStringsMembers(counts.Keys - {"C", "H"});
    assert forall k :: 0 <= k < |rest| ==> rest[k] in rest;
  }

  lemma FormulaOfParts(counts: map<string, int>, parts: seq<string>)
    requires var rest := SortedStrings(counts.Keys - {"C", "H"});
      && (forall k :: 0 <= k < |rest| ==> rest[k] in counts)
      && parts == Pieces(Leading(counts), counts) + Pieces(rest, counts)
    ensures Join("", parts) == FormulaOf(counts)
  {
    var rest := SortedStrings(counts.Keys - {"C", "H"});
    PiecesAppend(Leading(counts), rest, counts);
  }

  /** The C and H pieces, appended first when present. */
  method LeadingPieces(counts: map<string, int>) returns (parts: seq<string>)
    ensures parts == Pieces(Leading(counts), counts)
  {
    parts := [];
    if "C" in counts {
      parts := parts + [Piece("C", counts["C"])];
    }
    if "H" in counts {
      parts := parts + [Piece("H", counts["H"])];
    }
  }

  lemma {:induction false} PiecesAppend(a: seq<string>, b: seq<string>, counts: map<string, int>)
    requires forall i :: 0 <= i < |a| ==> a[i] in counts
    requires forall i :: 0 <= i < |b| ==> b[i] in counts
    ensures Pieces(a + b, counts) == Pieces(a, counts) + Pieces(b, counts)
  {
    if a != [] {
      assert (a + b)[1..] == a[1..] + b;
      PiecesAppend(a[1..], b, counts);
    } else {
      assert a + b == b;
    }
  }

  lemma PiecesSnoc(els: seq<string>, x: string, counts: map<string, int>)
    requires forall i :: 0 <= i < |els| ==> els[i] in counts
    requires x in counts
    ensures Pieces(els + [x], counts) == Pieces(els, counts) + [Piece(x, counts[x])]
  {
    PiecesAppend(els, [x], counts);
  }

  lemma PiecesPrefixStep(els: seq<string>, i: nat, counts: map<string, int>)
    requires forall k :: 0 <= k < |els| ==> els[k] in counts
    requires i < |els|
    ensures Pieces(els[..i + 1], counts) == Pieces(els[..i], counts) + [Piece(els[i], counts[els[i]])]
  {
    assert els[..i + 1] == els[..i] + [els[i]];
    PiecesSnoc(els[..i], els[i], counts);
  }

  /** A count of 0 or below is written like a count of 1. */
  lemma NonPositivePrintedAsOne(counts: map<string, int>, el: string)
    requires el in counts && counts[el] <= 1
    ensures FormulaOf(counts) == FormulaOf(counts[el := 1])
  {
    var c1 := counts[el := 1];
    assert counts.Keys == c1.Keys;
    assert Order(counts) == Order(c1);
    PiecesAgree(Order(counts), counts, c1);
  }

  /** Two dictionaries that write every listed symbol the same way write
      the same pieces. */
  lemma {:induction false} PiecesAgree(els: seq<string>, a: map<string, int>, b: map<string, int>)
    requires forall i :: 0 <= i < |els| ==> els[i] in a && els[i] in b
    requires forall i :: 0 <= i < |els| ==> Piece(els[i], a[els[i]]) == Piece(els[i], b[els[i]])
    ensures Pieces(els, a) == Pieces(els, b)
  {
    if els != [] {
      PiecesAgree(els[1..], a, b);
    }
  }

  // ---------------------------------------------------------------------------
  // Round trip

  /** The dictionaries the formula writer can be read back from: every key
      is an element symbol and every count is at least 1. */
  predicate Writable(counts: map<string, int>) {
    forall el :: el in counts ==> IsSymbol(el) && counts[el] >= 1
  }

  function DigitsOf(count: int): string {
    if count > 1 then NatToString(count) else ""
  }

  lemma DigitRunStops(digits: string, rest: string)
    requires AllDigits(digits)
    requires rest == [] || IsUpperLetter(rest[0])
    ensures DigitRun(digits + rest) == |digits|
    decreases |digits|
  {
    if digits != [] {
      assert (digits + rest)[1..] == digits[1..] + rest;
      DigitRunStops(digits[1..], rest);
    }
  }

  /** Reading one piece followed by text that starts a new symbol (or
      nothing) yields exactly that piece's match. */
  lemma MatchesPiece(el: string, count: int, rest: string)
    requires IsSymbol(el)
    requires rest == [] || IsUpperLetter(rest[0])
    ensures Matches(Piece(el, count) + rest) == [Match(el, DigitsOf(count))] + Matches(rest)
  {
    var d := DigitsOf(count);
    assert Piece(el, count) == el + d;
    assert AllDigits(d);
    ConcatAssoc(el, d, rest);
    MatchesSymbolDigits(el, d, rest);
  }

  lemma ConcatAssoc(a: string, b: string, c: string)
    ensures (a + b) + c == a + (b + c)
  {
  }

  lemma MatchesSymbolDigits(el: string, d: string, rest: string)
    requires IsSymbol(el)
    requires AllDigits(d)
    requires rest == [] || IsUpperLetter(rest[0])
    ensures Matches(el + (d + rest)) == [Match(el, d)] + Matches(rest)
  {
    var s := el + (d + rest);
    SymbolThenDigits(el, d, rest);
    MatchesAt(s, |el|, |d|);
    SliceParts(el, d, rest);
  }

  lemma SliceParts(el: string, d: string, rest: string)
    ensures var s := el + (d + rest);
      s[..|el|] == el && s[|el|..|el| + |d|] == d && s[|el| + |d|..] == rest
  {
  }

  /** The digit group after a symbol: the symbol takes no letter of it, and
      the digit run stops where the next symbol starts. */
  lemma SymbolThenDigits(el: string, d: string, rest: string)
    requires IsSymbol(el)
    requires AllDigits(d)
    requires rest == [] || IsUpperLetter(rest[0])
    ensures var s := el + (d + rest);
      && IsUpperLetter(s[0])
      && (|el| == 2 <==> |s| > 1 && IsLowerLetter(s[1]))
      && s[|el|..] == d + rest
      && DigitRun(s[|el|..]) == |d|
  {
    var s := el + (d + rest);
    assert s[0] == el[0];
    if |el| == 1 && |s| > 1 {
      assert s[1] == (d + rest)[0];
      if d != [] { assert IsDigit(d[0]); }
    }
    if |el| == 2 { assert s[1] == el[1]; }
    assert s[|el|..] == d + rest;
    DigitRunStops(d, rest);
  }

  /** One scanning step of the findall at a capital letter. */
  lemma MatchesAt(s: string, n: nat, k: nat)
    requires s != [] && IsUpperLetter(s[0])
    requires n == (if |s| > 1 && IsLowerLetter(s[1]) then 2 else 1)
    requires n <= |s| && DigitRun(s[n..]) == k
    ensures n + k <= |s|
    ensures Matches(s) == [Match(s[..n], s[n..n + k])] + Matches(s[n + k..])
  {
  }

  lemma CountOfDigits(el: string, count: int)
    requires count >= 1
    ensures Count(Match(el, DigitsOf(count))) == count
  {
    if count > 1 {
      ParseNatToString(count);
    }
  }

  function MatchesOf(els: seq<string>, counts: map<string, int>): (ms: seq<Match>)
    requires forall i :: 0 <= i < |els| ==> els[i] in counts
    ensures |ms| == |els|
    ensures forall i :: 0 <= i < |ms| ==> ms[i] == Match(els[i], DigitsOf(counts[els[i]]))
  {
    if els == [] then []
    else
      var r := [Match(els[0], DigitsOf(counts[els[0]]))] + MatchesOf(els[1..], counts);
      assert forall i :: 1 <= i < |r| ==> r[i] == MatchesOf(els[1..], counts)[i - 1];
      r
  }

  lemma {:induction false} MatchesOfPieces(els: seq<string>, counts: map<string, int>)
    requires forall i :: 0 <= i < |els| ==> els[i] in counts && IsSymbol(els[i])
    ensures Matches(Join("", Pieces(els, counts))) == MatchesOf(els, counts)
    decreases |els|
  {
    if els != [] {
      var ps := Pieces(els, counts);
      var tail := Join("", ps[1..]);
      assert Pieces(els[1..], counts) == ps[1..];
      MatchesOfPieces(els[1..], counts);
      if |els| == 1 {
        assert Join("", ps) == ps[0] + [];
        MatchesPiece(els[0], counts[els[0]], []);
      } else {
        assert Join("", ps) == ps[0] + tail;
        assert tail == Join("", ps[1..]);
        assert ps[1..][0] == Piece(els[1], counts[els[1]]);
        JoinStartsWithFirst(ps[1..]);
        assert tail[0] == els[1][0];
        MatchesPiece(els[0], counts[els[0]], tail);
      }
      assert MatchesOf(els, counts) == [MatchesOf(els, counts)[0]] + MatchesOf(els[1..], counts);
    }
  }

  lemma JoinStartsWithFirst(ps: seq<string>)
    requires |ps| >= 1 && ps[0] != []
    ensures Join("", ps) != [] && Join("", ps)[0] == ps[0][0]
  {
    if |ps| > 1 {
      assert Join("", ps) == ps[0] + "" + Join("", ps[1..]);
    }
  }

  lemma OrderDistinct(counts: map<string, int>)
    ensures var els := Order(counts);
      forall i, j :: 0 <= i < j < |els| ==> els[i] != els[j]
  {
    var others := counts.Keys - {"C", "H"};
    var lead := Leading(counts);
    var sorted := SortedStrings(others);
    assert Order(counts) == lead + sorted;
    SortedStringsDistinct(others);
    assert forall i, j :: 0 <= i < j < |sorted| ==> sorted[i] != sorted[j];
    SortedStringsMembers(others);
    LeadingShape(counts);
    assert "C" !in sorted && "H" !in sorted;
    ConcatDistinct(lead, sorted);
  }

  /** The leading symbols are C and H, each at most once. */
  lemma LeadingShape(counts: map<string, int>)
    ensures var lead := Leading(counts);
      (forall i, j :: 0 <= i < j < |lead| ==> lead[i] != lead[j])
      && forall x :: x in lead ==> x == "C" || x == "H"
  {
    var lead := Leading(counts);
    assert lead == [] || lead == ["C"] || lead == ["H"] || lead == ["C", "H"];
    assert "C" != "H";
  }

  /** Two duplicate-free lists with no common element concatenate to a
      duplicate-free list. */
  lemma ConcatDistinct(a: seq<string>, b: seq<string>)
    requires forall i, j :: 0 <= i < j < |a| ==> a[i] != a[j]
    requires forall i, j :: 0 <= i < j < |b| ==> b[i] != b[j]
    requires forall x :: x in a ==> x !in b
    ensures var c := a + b;
      forall i, j :: 0 <= i < j < |c| ==> c[i] != c[j]
  {
    var c := a + b;
    forall i, j | 0 <= i < j < |c| ensures c[i] != c[j] {
      if j < |a| {
        assert c[i] == a[i] && c[j] == a[j];
      } else if i < |a| {
        assert c[i] == a[i] && c[i] in a && c[j] == b[j - |a|] && c[j] in b;
      } else {
        assert c[i] == b[i - |a|] && c[j] == b[j - |a|];
      }
    }
  }

  /** Collecting matches with pairwise distinct symbols gives back the
      counts they were written from. */
  lemma {:induction false} CollectDistinct(ms: seq<Match>, counts: map<string, int>, el: string)
    requires forall i :: 0 <= i < |ms| ==> AllDigits(ms[i].digits)
    requires forall i :: 0 <= i < |ms| ==> ms[i].element in counts && Count(ms[i]) == counts[ms[i].element]
    requires el in Collect(ms) && el in counts
    ensures Collect(ms)[el] == counts[el]
  {
    if ms != [] {
      var pre := ms[..|ms| - 1];
      if el != ms[|ms| - 1].element {
        CollectDistinct(pre, counts, el);
      }
    }
  }

  /** Reading back a written formula gives the dictionary it was written
      from, for dictionaries of element symbols with counts of at least 1. */
  lemma RoundTrip(counts: map<string, int>)
    requires Writable(counts)
    ensures FormulaToDict(FormulaOf(counts)) == counts
  {
    var els := Order(counts);
    MatchesOfPieces(els, counts);
    var ms := MatchesOf(els, counts);
    assert FormulaToDict(FormulaOf(counts)) == Collect(ms);
    CollectMatchesOf(counts);
  }

  /** The matches of the written order carry the dictionary's counts, and
      every key appears among them. */
  lemma CollectMatchesOf(counts: map<string, int>)
    requires Writable(counts)
    ensures forall i :: 0 <= i < |Order(counts)| ==> IsSymbol(Order(counts)[i])
    ensures Collect(MatchesOf(Order(counts), counts)) == counts
  {
    OrderSymbols(counts);
    var ms := MatchesOf(Order(counts), counts);
    assert Collect(ms) == counts by {
      MatchCounts(counts, ms);
      MatchKeys(counts, ms);
      forall el | el in counts ensures Collect(ms)[el] == counts[el] {
        CollectDistinct(ms, counts, el);
      }
      SameMap(Collect(ms), counts);
    }
  }

  lemma SameMap(a: map<string, int>, b: map<string, int>)
    requires forall el :: el in a <==> el in b
    requires forall el :: el in b ==> a[el] == b[el]
    ensures a == b
  {
  }

  lemma OrderSymbols(counts: map<string, int>)
    requires Writable(counts)
    ensures forall i :: 0 <= i < |Order(counts)| ==> IsSymbol(Order(counts)[i])
  {
  }

  lemma MatchCounts(counts: map<string, int>, ms: seq<Match>)
    requires Writable(counts) && ms == MatchesOf(Order(counts), counts)
    ensures forall i :: 0 <= i < |ms| ==> Count(ms[i]) == counts[ms[i].element]
  {
    var els := Order(counts);
    forall i | 0 <= i < |ms| ensures Count(ms[i]) == counts[ms[i].element] {
      CountOfDigits(els[i], counts[els[i]]);
    }
  }

  /** Every symbol of the dictionary is matched, and nothing else. */
  lemma MatchKeys(counts: map<string, int>, ms: seq<Match>)
    requires Writable(counts) && ms == MatchesOf(Order(counts), counts)
    requires forall i :: 0 <= i < |ms| ==> AllDigits(ms[i].digits)
    ensures forall el :: el in Collect(ms) <==> el in counts
  {
    var els := Order(counts);
    forall el ensures el in Collect(ms) <==> el in counts {
      CollectKeys(ms, el);
      if el in counts {
        OrderCovers(counts, el);
        var i :| 0 <= i < |els| && els[i] == el;
        assert ms[i].element == el;
      }
    }
  }

  // ---------------------------------------------------------------------------
  // calc_exact_mass

  /** One more element in front of a partial sum. */
  function AddMass(table: map<string, real>, counts: map<string, int>, el: string, rest: Option<real>): Option<real>
    requires el in counts
  {
    if el !in table then None
    else match rest
      case None => None
      case Some(v) => Some(table[el] * counts[el] as real + v)
  }

  /** The sum of mass × count over els, or None at the first element the
      table does not hold (the KeyError the source turns into None). */
  function MassOver(table: map<string, real>, counts: map<string, int>, els: seq<string>): (r: Option<real>)
    requires forall i :: 0 <= i < |els| ==> els[i] in counts
    ensures r.None? <==> exists i :: 0 <= i < |els| && els[i] !in table
  {
    if els == [] then Some(0.0)
    else AddMass(table, counts, els[0], MassOver(table, counts, els[1..]))
  }

  /** calc_exact_mass over the elements in the dictionary. */
  ghost function ExactMass(table: map<string, real>, counts: map<string, int>): (r: Option<real>)
    ensures r.None? <==> exists el :: el in counts && el !in table
    ensures counts == map[] ==> r == Some(0.0)
  {
    var els := SortedStrings(counts.Keys);
    SortedStringsMembers(counts.Keys);
    assert forall i :: 0 <= i < |els| ==> els[i] in els;
    var r := MassOver(table, counts, els);
    assert (exists i :: 0 <= i < |els| && els[i] !in table) <==> exists el :: el in counts && el !in table by {
      if exists el :: el in counts && el !in table {
        var el :| el in counts && el !in table;
        assert el in els;
        var i :| 0 <= i < |els| && els[i] == el;
      }
    }
    r
  }

  /** The mass of a single element is its tabled mass times its count. */
  lemma ExactMassSingle(table: map<string, real>, el: string, count: int)
    requires el in table
    ensures ExactMass(table, map[el := count]) == Some(table[el] * count as real)
  {
    var counts := map[el := count];
    var els := SortedStrings(counts.Keys);
    SortedStringsMembers(counts.Keys);
    assert counts.Keys == {el};
    assert |els| == 1 && els[0] in els;
    assert els == [el];
    assert els[1..] == [];
    assert [el][1..] == [];
    var m := MassOver(table, counts, [el]);
    assert MassOver(table, counts, []) == Some(0.0);
    assert m.Some? && m.value == table[el] * count as real;
    assert ExactMass(table, counts) == MassOver(table, counts, els);
  }

  // ---------------------------------------------------------------------------
  // calc_exact_mass(formula_to_dict(formula)), as the MetFrag parse calls it

  /** The symbols of the matches in order of first appearance: the key order
      of the dictionary formula_to_dict builds. */
  function KeysInOrder(ms: seq<Match>): (els: seq<string>)
    ensures forall i, j :: 0 <= i < j < |els| ==> els[i] != els[j]
  {
    if ms == [] then []
    else
      var ks := KeysInOrder(ms[..|ms| - 1]);
      var x := ms[|ms| - 1].element;
      if x in ks then ks else ks + [x]
  }

  lemma {:induction false} KeysInOrderMembers(ms: seq<Match>, x: string)
    ensures x in KeysInOrder(ms) <==> exists i :: 0 <= i < |ms| && ms[i].element == x
  {
    if ms != [] {
      var pre := ms[..|ms| - 1];
      KeysInOrderMembers(pre, x);
      if exists i :: 0 <= i < |pre| && pre[i].element == x {
        var i :| 0 <= i < |pre| && pre[i].element == x;
        assert ms[i] == pre[i];
      }
      if exists i :: 0 <= i < |ms| && ms[i].element == x {
        var i :| 0 <= i < |ms| && ms[i].element == x;
        if i < |pre| { assert pre[i] == ms[i]; }
      }
    }
  }

  /** The elements of the formula, in dictionary order, are exactly the keys
      of formula_to_dict. */
  lemma KeysInOrderAreKeys(formula: string)
    ensures forall x :: x in KeysInOrder(Matches(formula)) <==> x in FormulaToDict(formula)
  {
    forall x ensures x in KeysInOrder(Matches(formula)) <==> x in FormulaToDict(formula) {
      KeysInOrderMembers(Matches(formula), x);
      CollectKeys(Matches(formula), x);
    }
  }

  /** The monoisotopic mass of a formula against the mass table: None when
      some element of the formula is missing from the table, otherwise the
      sum over its elements of mass times count. */
  function FormulaMass(table: map<string, real>, formula: string): (r: Option<real>)
    ensures r.None? <==> exists el :: el in FormulaToDict(formula) && el !in table
  {
    var counts := FormulaToDict(formula);
    var els := KeysInOrder(Matches(formula));
    KeysInOrderAreKeys(formula);
    assert forall i :: 0 <= i < |els| ==> els[i] in counts by {
      forall i | 0 <= i < |els| ensures els[i] in counts {
        assert els[i] in els;
      }
    }
    var r := MassOver(table, counts, els);
    assert r.None? <==> exists el :: el in counts && el !in table by {
      if exists el :: el in counts && el !in table {
        var el :| el in counts && el !in table;
        assert el in els;
        var j :| 0 <= j < |els| && els[j] == el;
      }
      if exists j :: 0 <= j < |els| && els[j] !in table {
        var j :| 0 <= j < |els| && els[j] !in table;
        assert els[j] in els;
      }
    }
    r
  }

  lemma AddMassCommutes(table: map<string, real>, counts: map<string, int>, a: string, b: string, rest: Option<real>)
    requires a in counts && b in counts
    ensures AddMass(table, counts, a, AddMass(table, counts, b, rest)) == AddMass(table, counts, b, AddMass(table, counts, a, rest))
  {
  }

  /** Taking element j out of the list and adding it last gives the same sum. */
  lemma {:induction false} MassOverRemove(table: map<string, real>, counts: map<string, int>, els: seq<string>, j: nat)
    requires forall i :: 0 <= i < |els| ==> els[i] in counts
    requires j < |els|
    ensures MassOver(table, counts, els) == AddMass(table, counts, els[j], MassOver(table, counts, els[..j] + els[j + 1..]))
  {
    if j == 0 {
      assert els[..0] + els[1..] == els[1..];
    } else {
      var tail := els[1..];
      MassOverRemove(table, counts, tail, j - 1);
      var shorter := els[..j] + els[j + 1..];
      assert shorter == [els[0]] + (tail[..j - 1] + tail[j..]);
      assert shorter[0] == els[0] && shorter[1..] == tail[..j - 1] + tail[j..];
      assert tail[j - 1] == els[j];
      AddMassCommutes(table, counts, els[0], els[j], MassOver(table, counts, tail[..j - 1] + tail[j..]));
    }
  }

  lemma HeadIsMember(b: seq<string>)
    ensures b != [] ==> b[0] in b
  {
  }

  /** The sum does not depend on the order of the elements: two duplicate-free
      lists of the same elements give the same result. */
  lemma {:induction false} MassOverPermutation(table: map<string, real>, counts: map<string, int>, a: seq<string>, b: seq<string>)
    requires forall i :: 0 <= i < |a| ==> a[i] in counts
    requires forall i :: 0 <= i < |b| ==> b[i] in counts
    requires forall i, j :: 0 <= i < j < |a| ==> a[i] != a[j]
    requires forall i, j :: 0 <= i < j < |b| ==> b[i] != b[j]
    requires forall x :: x in a <==> x in b
    ensures MassOver(table, counts, a) == MassOver(table, counts, b)
    decreases |a|
  {
    if a == [] {
      HeadIsMember(b);
    } else {
      var x := a[0];
      assert x in b;
      var j :| 0 <= j < |b| && b[j] == x;
      var b' := b[..j] + b[j + 1..];
      MassOverRemove(table, counts, b, j);
      SameMembersAfterRemove(a, b, j);
      DistinctAfterRemove(b, j);
      MassOverPermutation(table, counts, a[1..], b');
    }
  }
  /** Removing the match of a's head from b leaves the members of a's tail. */
  lemma SameMembersAfterRemove(a: seq<string>, b: seq<string>, j: nat)
    requires a != [] && j < |b| && b[j] == a[0]
    requires forall i, k :: 0 <= i < k < |a| ==> a[i] != a[k]
    requires forall i, k :: 0 <= i < k < |b| ==> b[i] != b[k]
    requires forall x :: x in a <==> x in b
    ensures forall y :: y in a[1..] <==> y in b[..j] + b[j + 1..]
  {
    var x := a[0];
    var b' := b[..j] + b[j + 1..];
    forall y ensures y in a[1..] <==> y in b' {
      if y in a[1..] {
        var k :| 0 <= k < |a[1..]| && a[1..][k] == y;
        assert a[k + 1] == y && y != x;
        assert y in b;
        var m :| 0 <= m < |b| && b[m] == y;
        if m < j { assert b'[m] == y; } else { assert b'[m - 1] == y; }
      }
      if y in b' {
        var m :| 0 <= m < |b'| && b'[m] == y;
        if m < j { assert b[m] == y && m != j; } else { assert b[m + 1] == y && m + 1 != j; }
        assert y != x;
        assert y in a;
        var k :| 0 <= k < |a| && a[k] == y;
        assert k != 0 && a[1..][k - 1] == y;
      }
    }
  }

  /** Removing one element keeps a duplicate-free list duplicate-free. */
  lemma DistinctAfterRemove(b: seq<string>, j: nat)
    requires j < |b|
    requires forall i, k :: 0 <= i < k < |b| ==> b[i] != b[k]
    ensures var b' := b[..j] + b[j + 1..];
      forall p, q :: 0 <= p < q < |b'| ==> b'[p] != b'[q]
  {
    var b' := b[..j] + b[j + 1..];
    forall p, q | 0 <= p < q < |b'| ensures b'[p] != b'[q] {
      var p' := if p < j then p else p + 1;
      var q' := if q < j then q else q + 1;
      assert b'[p] == b[p'] && b'[q] == b[q'] && p' < q';
    }
  }


  /** The mass the MetFrag parse stores is calc_exact_mass of the formula's
      element counts, whatever order the dictionary's keys are in. */
  lemma FormulaMassIsExactMass(table: map<string, real>, formula: string)
    ensures FormulaMass(table, formula) == ExactMass(table, FormulaToDict(formula))
  {
    var ms := Matches(formula);
    var counts := FormulaToDict(formula);
    var a := KeysInOrder(ms);
    var b := SortedStrings(counts.Keys);
    SortedStringsMembers(counts.Keys);
    KeysInOrderAreKeys(formula);
    forall i, j | 0 <= i < j < |b| ensures b[i] != b[j] {
      SortedStringsAt(counts.Keys, i, j);
      if b[i] == b[j] { LexLessIrreflexive(b[i]); }
    }
    assert forall i :: 0 <= i < |a| ==> a[i] in counts by {
      forall i | 0 <= i < |a| ensures a[i] in counts {
        assert a[i] in a;
      }
    }
    assert forall i :: 0 <= i < |b| ==> b[i] in counts by {
      forall i | 0 <= i < |b| ensures b[i] in counts {
        assert b[i] in b;
      }
    }
    MassOverPermutation(table, counts, a, b);
  }
}
