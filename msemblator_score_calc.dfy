/** aggregate_probability_with_rank of msemblator/struc_score_calc.py: the
    summary is keyed by (filename, fused rank); because the input already
    has a tool `rank` column, the merge suffixes it and the re-merge installs
    the fused rank, so the provenance texts name the fused rank. The
    prediction step is Router.PredictAndAppend, as in the script copy. */
module MsemblatorScoreCalc {
  import opened Wrappers
  import opened StrucDataType
  import opened Fusion

  const StrucTools := ("MetFrag", "MS-FINDER", "SIRIUS")

  ghost function AggregateProbabilityWithRank(rows: seq<ScoredRow>, topN: int): (m: map<(string, int), RankSummary>)
    ensures forall f, r :: (f, r) in m ==> 1 <= r <= topN
  {
    forall f, r | (f, r) in RankKeyedSummary(rows, topN, StrucTools) ensures 1 <= r <= topN {
      RankKeyedSummaryKeys(rows, topN, StrucTools, f, r);
    }
    RankKeyedSummary(rows, topN, StrucTools)
  }

  /** Every MetFrag-flagged row of a surviving group contributes a text
      naming the FUSED rank, whatever MetFrag ranked it. */
  lemma ProvenanceNamesFusedRank(rows: seq<ScoredRow>, topN: int, f: string, r: int, i: nat)
    requires (f, r) in AggregateProbabilityWithRank(rows, topN)
    requires i < |rows| && rows[i].filename == f && rows[i].key == AggregateProbabilityWithRank(rows, topN)[(f, r)].key
    requires rows[i].flags.0 == 1
    ensures exists t :: t in AggregateProbabilityWithRank(rows, topN)[(f, r)].usedTools && ToolRank("MetFrag", r) <= t
  {
    RankKeyedSummaryEntry(rows, topN, StrucTools, f, r);
    assert Provenance(StrucTools, rows[i].flags, r) in AggregateProbabilityWithRank(rows, topN)[(f, r)].usedTools;
  }
}
