/** The ensemble step shared by the three aggregation variants: confidence
    summed per (filename, candidate key), ranked within each filename by
    descending sum with pandas `rank(method="first")`, and cut at top_n.

    `groupby(["filename", key])` emits its groups in ascending key order, so
    "first" breaks a tie between equal sums in favour of the smaller key,
    whatever the input order. The rank of a key is therefore one more than
    the number of keys of its filename that beat it. */
module Fusion {
  import opened Wrappers
  import opened Text
  import opened StrucDataType
  import opened Candidates

  /** One scored candidate row: its filename, its candidate key
      (Canonical_SMILES or formula), its adduct cell, the tool's own rank,
      the three one-hot tool flags and the classifier's confidence. */
  datatype ScoredRow = ScoredRow(filename: string, key: string, adduct: Option<string>, rank: int,
                                 flags: (int, int, int), confidence: real)

  /** `confidence_score_sum` of the group (f, k). */
  function SumFor(rows: seq<ScoredRow>, f: string, k: string): real {
    if rows == [] then 0.0
    else
      var n := |rows| - 1;
      SumFor(rows[..n], f, k) + (if rows[n].filename == f && rows[n].key == k then rows[n].confidence else 0.0)
  }

  /** The candidate keys a filename has. */
  function KeysOf(rows: seq<ScoredRow>, f: string): (keys: set<string>)
    ensures forall k :: k in keys <==> exists i :: 0 <= i < |rows| && rows[i].filename == f && rows[i].key == k
  {
    set i | 0 <= i < |rows| && rows[i].filename == f :: rows[i].key
  }

  /** The (filename, key) groups. */
  function Groups(rows: seq<ScoredRow>): (groups: set<(string, string)>)
    ensures forall f, k :: (f, k) in groups <==> k in KeysOf(rows, f)
  {
    set i | 0 <= i < |rows| :: (rows[i].filename, rows[i].key)
  }

  /** Key a is ranked ahead of key b within filename f. */
  predicate Beats(rows: seq<ScoredRow>, f: string, a: string, b: string) {
    SumFor(rows, f, a) > SumFor(rows, f, b) || (SumFor(rows, f, a) == SumFor(rows, f, b) && LexLess(a, b))
  }

  function Beaters(rows: seq<ScoredRow>, f: string, k: string): set<string> {
    set a | a in KeysOf(rows, f) && Beats(rows, f, a, k)
  }

  /** The fused rank of key k within filename f. */
  function FusedRank(rows: seq<ScoredRow>, f: string, k: string): (r: int)
    ensures r >= 1
  {
    1 + |Beaters(rows, f, k)|
  }

  lemma BeatsIrreflexive(rows: seq<ScoredRow>, f: string, a: string)
    ensures !Beats(rows, f, a, a)
  {
    LexLessIrreflexive(a);
  }

  lemma BeatsTransitive(rows: seq<ScoredRow>, f: string, a: string, b: string, c: string)
    requires Beats(rows, f, a, b) && Beats(rows, f, b, c)
    ensures Beats(rows, f, a, c)
  {
    if SumFor(rows, f, a) == SumFor(rows, f, b) == SumFor(rows, f, c) {
      LexLessTransitive(a, b, c);
    }
  }

  lemma BeatsTotal(rows: seq<ScoredRow>, f: string, a: string, b: string)
    requires a != b
    ensures Beats(rows, f, a, b) || Beats(rows, f, b, a)
  {
    LexLessTotal(a, b);
  }

  /** A key ahead of another gets a strictly smaller rank: a larger sum
      ranks first, and an equal sum goes to the smaller key. */
  lemma FusedRankOrder(rows: seq<ScoredRow>, f: string, a: string, b: string)
    requires a in KeysOf(rows, f) && Beats(rows, f, a, b)
    ensures FusedRank(rows, f, a) < FusedRank(rows, f, b)
  {
    var ba := Beaters(rows, f, a);
    var bb := Beaters(rows, f, b);
    forall c | c in ba ensures c in bb {
      BeatsTransitive(rows, f, c, a, b);
    }
    BeatsIrreflexive(rows, f, a);
    SubsetSize(ba, bb - {a});
  }

  lemma SubsetSize<T>(a: set<T>, b: set<T>)
    requires a <= b
    ensures |a| <= |b|
  {
    var d := b - a;
    assert b == a + d;
    assert a * d == {};
  }

  /** The ranks of a filename's keys are distinct ... */
  lemma FusedRankDistinct(rows: seq<ScoredRow>, f: string, a: string, b: string)
    requires a in KeysOf(rows, f) && b in KeysOf(rows, f) && a != b
    ensures FusedRank(rows, f, a) != FusedRank(rows, f, b)
  {
    BeatsTotal(rows, f, a, b);
    if Beats(rows, f, a, b) {
      FusedRankOrder(rows, f, a, b);
    } else {
      FusedRankOrder(rows, f, b, a);
    }
  }

  /** ... and lie between 1 and the number of keys. */
  lemma FusedRankRange(rows: seq<ScoredRow>, f: string, k: string)
    requires k in KeysOf(rows, f)
    ensures 1 <= FusedRank(rows, f, k) <= |KeysOf(rows, f)|
  {
    BeatsIrreflexive(rows, f, k);
    var keys := KeysOf(rows, f);
    SubsetSize(Beaters(rows, f, k), keys - {k});
  }

  /** The ranks given to a set of keys. */
  function RanksOf(rows: seq<ScoredRow>, f: string, ks: set<string>): set<int> {
    set k | k in ks :: FusedRank(rows, f, k)
  }

  lemma {:induction false} RanksOfSize(rows: seq<ScoredRow>, f: string, ks: set<string>)
    requires ks <= KeysOf(rows, f)
    ensures |RanksOf(rows, f, ks)| == |ks|
    decreases |ks|
  {
    if ks != {} {
      var k :| k in ks;
      RanksOfSize(rows, f, ks - {k});
      forall a | a in ks - {k} ensures FusedRank(rows, f, a) != FusedRank(rows, f, k) {
        FusedRankDistinct(rows, f, a, k);
      }
      assert RanksOf(rows, f, ks) == RanksOf(rows, f, ks - {k}) + {FusedRank(rows, f, k)};
    }
  }

  /** The ranks 1 to n. */
  function UpTo(n: int): (s: set<int>)
    ensures forall r :: r in s <==> 1 <= r <= n
    ensures n >= 0 ==> |s| == n
    decreases n
  {
    if n <= 0 then {} else UpTo(n - 1) + {n}
  }

  /** Per filename, the fused ranks are exactly 1, 2, ..., K for its K
      keys. */
  lemma FusedRanksCover(rows: seq<ScoredRow>, f: string)
    ensures RanksOf(rows, f, KeysOf(rows, f)) == UpTo(|KeysOf(rows, f)|)
  {
    var keys := KeysOf(rows, f);
    var ranks := RanksOf(rows, f, keys);
    var all := UpTo(|keys|);
    forall r | r in ranks ensures r in all {
      var k :| k in keys && FusedRank(rows, f, k) == r;
      FusedRankRange(rows, f, k);
    }
    RanksOfSize(rows, f, keys);
    if ranks != all {
      var r :| r in all && r !in ranks;
      SubsetSize(ranks, all - {r});
    }
  }

  /** `df_filtered[df_filtered["rank"] <= top_n]`: the groups that survive. */
  function TopGroups(rows: seq<ScoredRow>, topN: int): (top: set<(string, string)>)
    ensures forall f, k :: (f, k) in top <==> k in KeysOf(rows, f) && FusedRank(rows, f, k) <= topN
  {
    set g | g in Groups(rows) && FusedRank(rows, g.0, g.1) <= topN
  }

  /** Each filename keeps exactly min(top_n, K) of its K keys, those ranked
      1 to top_n. */
  lemma TopGroupCount(rows: seq<ScoredRow>, f: string, topN: nat)
    ensures var kept := set k | k in KeysOf(rows, f) && FusedRank(rows, f, k) <= topN;
      |kept| == if topN <= |KeysOf(rows, f)| then topN else |KeysOf(rows, f)|
  {
    var keys := KeysOf(rows, f);
    var kept := set k | k in keys && FusedRank(rows, f, k) <= topN;
    FusedRanksCover(rows, f);
    RanksOfSize(rows, f, kept);
    var m := if topN <= |keys| then topN else |keys|;
    forall r | r in UpTo(m) ensures r in RanksOf(rows, f, kept) {
      assert r in RanksOf(rows, f, keys);
      var k :| k in keys && FusedRank(rows, f, k) == r;
    }
    forall r | r in RanksOf(rows, f, kept) ensures r in UpTo(m) {
      var k :| k in kept && FusedRank(rows, f, k) == r;
      FusedRankRange(rows, f, k);
    }
    assert RanksOf(rows, f, kept) == UpTo(m);
  }

  // ---------------------------------------------------------------------------
  // Per-group values

  /** The rows of group (f, k), in input order (the inner merge keeps the
      left table's order). */
  function GroupRows(rows: seq<ScoredRow>, f: string, k: string): (g: seq<ScoredRow>)
    ensures forall r :: r in g <==> r in rows && r.filename == f && r.key == k
  {
    if rows == [] then []
    else
      var n := |rows| - 1;
      GroupRows(rows[..n], f, k) + (if rows[n].filename == f && rows[n].key == k then [rows[n]] else [])
  }

  /** `groupby(...).agg(adduct=("adduct", "first"))`: the first non-NaN
      adduct of the group, if any. */
  function FirstAdduct(g: seq<ScoredRow>): (a: Option<string>)
    ensures a.Some? <==> exists i :: 0 <= i < |g| && g[i].adduct.Some?
    ensures a.Some? ==>
      exists i :: 0 <= i < |g| && g[i].adduct == a && forall j :: 0 <= j < i ==> g[j].adduct.None?
  {
    if g == [] then None
    else if g[0].adduct.Some? then g[0].adduct
    else
      var a := FirstAdduct(g[1..]);
      assert forall i :: 1 <= i < |g| ==> g[1..][i - 1] == g[i];
      a
  }

  /** Within a filename, a surviving group is identified by its rank. */
  lemma TopRanksIdentify(rows: seq<ScoredRow>, topN: int)
    ensures forall g, h ::
      g in TopGroups(rows, topN) && h in TopGroups(rows, topN) && g.0 == h.0 && FusedRank(rows, g.0, g.1) == FusedRank(rows, h.0, h.1)
      ==> g == h
  {
    forall g, h | g in TopGroups(rows, topN) && h in TopGroups(rows, topN) && g.0 == h.0
                  && FusedRank(rows, g.0, g.1) == FusedRank(rows, h.0, h.1)
      ensures g == h
    {
      if g.1 != h.1 {
        FusedRankDistinct(rows, g.0, g.1, h.1);
      }
    }
  }

  // ---------------------------------------------------------------------------
  // The summary by (filename, fused rank) of msemblator/struc_score_calc.py
  // and script/calculating_score.py

  /** One summary row: the first row's adduct as text, the group's sum, its
      candidate key and the set of its rows' `Used_Tool` texts. */
  datatype RankSummary = RankSummary(adduct: string, scoreSum: real, key: string, usedTools: set<string>)

  /** The `Used_Tool` texts of a group's rows; the merge has installed the
      fused rank in the `rank` column, so each names that rank. */
  function FusedProvenance(rows: seq<ScoredRow>, names: (string, string, string), f: string, k: string): set<string> {
    set r | r in GroupRows(rows, f, k) :: Provenance(names, r.flags, FusedRank(rows, f, k))
  }

  /** The summary row of group (f, k). */
  function GroupSummary(rows: seq<ScoredRow>, names: (string, string, string), f: string, k: string): RankSummary
    requires k in KeysOf(rows, f)
  {
    var group := GroupRows(rows, f, k);
    assert group != [] by {
      var i :| 0 <= i < |rows| && rows[i].filename == f && rows[i].key == k;
      assert rows[i] in group;
    }
    RankSummary(TextOf(group[0].adduct), SumFor(rows, f, k), k, FusedProvenance(rows, names, f, k))
  }

  /** The (filename, rank) pairs of the surviving groups. */
  function RankPairs(rows: seq<ScoredRow>, topN: int): set<(string, int)> {
    set g | g in TopGroups(rows, topN) :: (g.0, FusedRank(rows, g.0, g.1))
  }

  /** The key holding rank r in filename f (unique by FusedRankDistinct). */
  ghost function KeyAt(rows: seq<ScoredRow>, topN: int, f: string, r: int): (k: string)
    requires (f, r) in RankPairs(rows, topN)
    ensures (f, k) in TopGroups(rows, topN) && FusedRank(rows, f, k) == r
  {
    var k :| (f, k) in TopGroups(rows, topN) && FusedRank(rows, f, k) == r;
    k
  }

  /** The summary keyed by (filename, rank): one entry per surviving group. */
  ghost function RankKeyedSummary(rows: seq<ScoredRow>, topN: int, names: (string, string, string)): (m: map<(string, int), RankSummary>)
  {
    map p | p in RankPairs(rows, topN) :: GroupSummary(rows, names, p.0, KeyAt(rows, topN, p.0, p.1))
  }

  /** The entries are exactly the ranks 1 to min(top_n, K) of each filename
      with K keys: one row per (filename, rank). */
  lemma RankKeyedSummaryKeys(rows: seq<ScoredRow>, topN: int, names: (string, string, string), f: string, r: int)
    ensures (f, r) in RankKeyedSummary(rows, topN, names) <==> 1 <= r <= topN && r <= |KeysOf(rows, f)|
  {
    FusedRanksCover(rows, f);
    if 1 <= r <= topN && r <= |KeysOf(rows, f)| {
      assert r in RanksOf(rows, f, KeysOf(rows, f));
      var k :| k in KeysOf(rows, f) && FusedRank(rows, f, k) == r;
      assert (f, k) in TopGroups(rows, topN);
    }
    if (f, r) in RankPairs(rows, topN) {
      FusedRankRange(rows, f, KeyAt(rows, topN, f, r));
    }
  }

  /** Each entry holds the key of that fused rank with its sum, the adduct
      text of the group's first row, and the `Used_Tool` texts of its rows,
      every one naming the fused rank rather than the tool's own. */
  lemma RankKeyedSummaryEntry(rows: seq<ScoredRow>, topN: int, names: (string, string, string), f: string, r: int)
    requires (f, r) in RankKeyedSummary(rows, topN, names)
    ensures var e := RankKeyedSummary(rows, topN, names)[(f, r)];
      e.key in KeysOf(rows, f) && FusedRank(rows, f, e.key) == r && r <= topN && e.scoreSum == SumFor(rows, f, e.key)
      && (exists i :: 0 <= i < |rows| && rows[i].filename == f && rows[i].key == e.key && e.adduct == TextOf(rows[i].adduct)
            && forall j :: 0 <= j < i ==> !(rows[j].filename == f && rows[j].key == e.key))
      && forall t :: t in e.usedTools <==>
           exists i :: 0 <= i < |rows| && rows[i].filename == f && rows[i].key == e.key && t == Provenance(names, rows[i].flags, r)
  {
    var k := KeyAt(rows, topN, f, r);
    GroupRowsFirst(rows, f, k);
    FusedProvenanceMembers(rows, names, f, k);
  }

  lemma FusedProvenanceMembers(rows: seq<ScoredRow>, names: (string, string, string), f: string, k: string)
    ensures forall t :: t in FusedProvenance(rows, names, f, k) <==>
      exists i :: 0 <= i < |rows| && rows[i].filename == f && rows[i].key == k && t == Provenance(names, rows[i].flags, FusedRank(rows, f, k))
  {
    var group := GroupRows(rows, f, k);
    forall t | t in FusedProvenance(rows, names, f, k)
      ensures exists i :: 0 <= i < |rows| && rows[i].filename == f && rows[i].key == k && t == Provenance(names, rows[i].flags, FusedRank(rows, f, k))
    {
      var row :| row in group && t == Provenance(names, row.flags, FusedRank(rows, f, k));
      var i :| 0 <= i < |rows| && rows[i] == row;
    }
    forall i | 0 <= i < |rows| && rows[i].filename == f && rows[i].key == k
      ensures Provenance(names, rows[i].flags, FusedRank(rows, f, k)) in FusedProvenance(rows, names, f, k)
    {
      assert rows[i] in group;
    }
  }

  /** The first row of a non-empty group is the group's first row in the
      input. */
  lemma {:induction false} GroupRowsFirst(rows: seq<ScoredRow>, f: string, k: string)
    requires GroupRows(rows, f, k) != []
    ensures exists i ::
      0 <= i < |rows| && rows[i] == GroupRows(rows, f, k)[0] && forall j :: 0 <= j < i ==> !(rows[j].filename == f && rows[j].key == k)
  {
    var n := |rows| - 1;
    assert rows[..n] + [rows[n]] == rows;
    if GroupRows(rows[..n], f, k) != [] {
      GroupRowsFirst(rows[..n], f, k);
      var i :| 0 <= i < n && rows[..n][i] == GroupRows(rows[..n], f, k)[0]
        && forall j :: 0 <= j < i ==> !(rows[..n][j].filename == f && rows[..n][j].key == k);
      assert rows[i] == rows[..n][i];
      forall j | 0 <= j < i ensures !(rows[j].filename == f && rows[j].key == k) {
        assert rows[j] == rows[..n][j];
      }
    } else {
      forall j | 0 <= j < n ensures !(rows[j].filename == f && rows[j].key == k) {
        assert rows[j] == rows[..n][j];
        assert rows[..n][j] in rows[..n];
      }
    }
  }
}
