/** aggregate_probability_with_rank of script/struc_score_calc.py: the
    summary is keyed by (filename, Canonical_SMILES), keeps the first
    non-NaN adduct, and lists the tools with their OWN ranks, sorted and
    without repeats. The call also writes a `Used_Tool` column into the
    table it was given. The prediction step is Router.PredictAndAppend. */
module StrucScoreCalc {
  import opened Wrappers
  import opened Text
  import opened StrucDataType
  import opened Fusion

  const StrucTools := ("MetFrag", "MS-FINDER", "SIRIUS")

  /** One summary row: adduct, confidence_score_sum, Used_Tool and rank. */
  datatype Summary = Summary(adduct: Option<string>, scoreSum: real, usedTool: string, rank: int)

  /** The summary, and the `Used_Tool` column the call adds to its argument. */
  datatype Aggregate = Aggregate(summary: map<(string, string), Summary>, usedToolColumn: seq<string>)

  /** A row's `Used_Tool`: its flagged tools with the tool's own rank. */
  function RowUsedTool(row: ScoredRow): string {
    Provenance(StrucTools, row.flags, row.rank)
  }

  /** The distinct `Used_Tool` texts of a group's rows, in sorted order. */
  ghost function SortedProvenance(rows: seq<ScoredRow>, f: string, k: string): seq<string> {
    SortedTexts(GroupRows(rows, f, k), RowUsedTool)
  }

  /** The distinct texts `h` gives the rows of `g`, in sorted order. */
  ghost function SortedTexts(g: seq<ScoredRow>, h: ScoredRow -> string): seq<string> {
    SortedStrings(set r | r in g :: h(r))
  }

  lemma SortedTextsSpec(g: seq<ScoredRow>, h: ScoredRow -> string)
    ensures var pieces := SortedTexts(g, h);
      (forall i, j :: 0 <= i < j < |pieces| ==> LexLess(pieces[i], pieces[j]))
      && (forall t :: t in pieces <==> exists r :: r in g && t == h(r))
  {
    var texts := set r | r in g :: h(r);
    var pieces := SortedTexts(g, h);
    assert pieces == SortedStrings(texts);
    forall i, j | 0 <= i < j < |pieces| ensures LexLess(pieces[i], pieces[j]) {
      SortedStringsAt(texts, i, j);
    }
    SortedStringsMembers(texts);
  }

  /** The summary row of the group of key `k` within filename `f`. */
  ghost function Entry(rows: seq<ScoredRow>, f: string, k: string): Summary {
    Summary(FirstAdduct(GroupRows(rows, f, k)), SumFor(rows, f, k),
            Join(", ", SortedProvenance(rows, f, k)), FusedRank(rows, f, k))
  }

  ghost function AggregateProbabilityWithRank(rows: seq<ScoredRow>, topN: int): (r: Aggregate)
    ensures |r.usedToolColumn| == |rows|
    ensures forall i :: 0 <= i < |rows| ==> r.usedToolColumn[i] == RowUsedTool(rows[i])
    ensures r.summary.Keys == TopGroups(rows, topN)
    ensures forall g :: g in r.summary ==> r.summary[g] == Entry(rows, g.0, g.1)
  {
    var summary := map g | g in TopGroups(rows, topN) :: Entry(rows, g.0, g.1);
    Aggregate(summary, seq(|rows|, i requires 0 <= i < |rows| => RowUsedTool(rows[i])))
  }

  /** A group survives exactly when its fused rank is at most top_n; its
      entry carries that rank and the group's sum, and within a filename the
      ranks are distinct and lie between 1 and the number of its keys. */
  lemma SummaryRanks(rows: seq<ScoredRow>, topN: int, f: string, a: string, b: string)
    ensures var s := AggregateProbabilityWithRank(rows, topN).summary;
      ((f, a) in s <==> a in KeysOf(rows, f) && FusedRank(rows, f, a) <= topN)
      && ((f, a) in s ==>
            s[(f, a)].rank == FusedRank(rows, f, a) && 1 <= s[(f, a)].rank <= |KeysOf(rows, f)|
            && s[(f, a)].scoreSum == SumFor(rows, f, a))
      && ((f, a) in s && (f, b) in s && a != b ==> s[(f, a)].rank != s[(f, b)].rank)
  {
    var s := AggregateProbabilityWithRank(rows, topN).summary;
    if (f, a) in s {
      FusedRankRange(rows, f, a);
      if (f, b) in s && a != b {
        FusedRankDistinct(rows, f, a, b);
      }
    }
  }

  /** The adduct of a group's entry is the first non-NaN adduct among the group's
      rows, in input order, and NaN only when all of them are. */
  lemma SummaryAdduct(rows: seq<ScoredRow>, f: string, k: string)
    ensures var e := Entry(rows, f, k);
      var g := GroupRows(rows, f, k);
      (e.adduct.None? <==> forall r :: r in g ==> r.adduct.None?)
      && (e.adduct.Some? ==> exists i :: 0 <= i < |g| && g[i].adduct == e.adduct && forall j :: 0 <= j < i ==> g[j].adduct.None?)
  {
  }

  /** The entry's `Used_Tool` is the join of strictly increasing texts, which
      are exactly the `Used_Tool` texts of the group's rows, each naming the
      tools' own ranks. */
  lemma SummaryProvenance(rows: seq<ScoredRow>, f: string, k: string)
    ensures var pieces := SortedProvenance(rows, f, k);
      Entry(rows, f, k).usedTool == Join(", ", pieces)
    ensures var pieces := SortedProvenance(rows, f, k);
      (forall i, j :: 0 <= i < j < |pieces| ==> LexLess(pieces[i], pieces[j]))
      && (forall t :: t in pieces <==> exists r :: r in rows && r.filename == f && r.key == k && t == RowUsedTool(r))
  {
    SortedTextsSpec(GroupRows(rows, f, k), RowUsedTool);
  }

  /** A MetFrag-flagged row contributes a text that starts with MetFrag and
      the row's own tool rank. */
  lemma RowUsedToolNamesToolRank(row: ScoredRow)
    ensures row.flags.0 == 1 ==> ToolRank("MetFrag", row.rank) <= RowUsedTool(row)
    ensures row.flags.0 != 1 && row.flags.1 == 1 ==> ToolRank("MS-FINDER", row.rank) <= RowUsedTool(row)
    ensures row.flags.0 != 1 && row.flags.1 != 1 && row.flags.2 == 1 ==> RowUsedTool(row) == ToolRank("SIRIUS", row.rank)
  {
  }
}
