/** aggregate_probability_with_rank_top3 of script/calculating_score.py: the
    formula pipeline's aggregation, keyed by (filename, formula) and
    summarised by (filename, fused rank) with the tools msbuddy, MS-FINDER
    and SIRIUS. Its prediction step is Router.PredictWithModelDict. */
module CalculatingScore {
  import opened Wrappers
  import opened StrucDataType
  import opened Fusion

  ghost function AggregateProbabilityWithRankTop3(rows: seq<ScoredRow>, topN: int): (m: map<(string, int), RankSummary>)
    ensures forall f, r :: (f, r) in m ==> 1 <= r <= topN
  {
    forall f, r | (f, r) in RankKeyedSummary(rows, topN, FormulaTools) ensures 1 <= r <= topN {
      RankKeyedSummaryKeys(rows, topN, FormulaTools, f, r);
    }
    RankKeyedSummary(rows, topN, FormulaTools)
  }

  /** Every msbuddy-flagged row of a surviving formula group contributes a
      text naming msbuddy with the fused rank. */
  lemma ProvenanceNamesMsbuddy(rows: seq<ScoredRow>, topN: int, f: string, r: int, i: nat)
    requires (f, r) in AggregateProbabilityWithRankTop3(rows, topN)
    requires i < |rows| && rows[i].filename == f && rows[i].key == AggregateProbabilityWithRankTop3(rows, topN)[(f, r)].key
    requires rows[i].flags.0 == 1
    ensures exists t :: t in AggregateProbabilityWithRankTop3(rows, topN)[(f, r)].usedTools && ToolRank("msbuddy", r) <= t
  {
    RankKeyedSummaryEntry(rows, topN, FormulaTools, f, r);
    assert Provenance(FormulaTools, rows[i].flags, r) in AggregateProbabilityWithRankTop3(rows, topN)[(f, r)].usedTools;
  }
}
