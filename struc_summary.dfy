/** struc_summary (script/creating_struc_summary.py): the structure pipeline.
    The (filename, adduct) pairs of the MSP file seed the tables; the
    MS-FINDER, SIRIUS and MetFrag summaries append their score rows; the
    tool names become one-hot flags; rows without a SMILES are dropped; each
    remaining row gets a classifier probability; the SMILES are
    canonicalised; the probabilities are fused per (filename, structure);
    and every key of the merged SMILES summary is joined with the structure
    ranked first for its filename.

    As written, the MetFrag summary is called with six arguments although it
    needs seven, so the pipeline raises TypeError; the rest of the model uses
    the corrected call, which hands it an empty score table. */
module StrucSummary {
  import opened Wrappers
  import opened Text
  import opened Candidates
  import opened StrucDataType
  import opened MsfinderStrucSummary
  import opened SiriusStrucSummary
  import opened MetfragSummary
  import opened Router
  import opened Fusion
  import opened StrucScoreCalc

  // The (filename, adduct) tables

  /** The `.at` loop: the three seed tables (InChIKey summary, SMILES summary
      and name/adduct) each get one row per extracted pair, in order. */
  method SeedTable(pairs: seq<(string, string)>) returns (table: seq<(string, string)>)
    ensures |table| == |pairs|
    ensures forall i :: 0 <= i < |pairs| ==> table[i] == pairs[i]
  {
    table := [];
    var idx := 0;
    while idx < |pairs|
      invariant 0 <= idx <= |pairs|
      invariant table == pairs[..idx]
    {
      table := table + [pairs[idx]];
      idx := idx + 1;
    }
  }

  /** `name_adduct_df.set_index('filename')['adduct']` as the lookup the tool
      summaries map filenames through; for a repeated filename the later
      pair is kept. */
  function NameAdduct(pairs: seq<(string, string)>): (m: map<string, string>)
    ensures forall f :: f in m <==> exists i :: 0 <= i < |pairs| && pairs[i].0 == f
    ensures forall f :: f in m ==> (f, m[f]) in pairs
  {
    if pairs == [] then map[]
    else
      var n := |pairs| - 1;
      var m := NameAdduct(pairs[..n]);
      assert forall i :: 0 <= i < n ==> pairs[..n][i] == pairs[i];
      m[pairs[n].0 := pairs[n].1]
  }

  /** The adduct looked up for a filename is the one of its last pair. */
  lemma {:induction false} NameAdductLastWins(pairs: seq<(string, string)>, i: nat)
    requires i < |pairs|
    requires forall j :: i < j < |pairs| ==> pairs[j].0 != pairs[i].0
    ensures NameAdduct(pairs)[pairs[i].0] == pairs[i].1
    decreases |pairs|
  {
    var n := |pairs| - 1;
    assert NameAdduct(pairs) == NameAdduct(pairs[..n])[pairs[n].0 := pairs[n].1];
    if i < n {
      assert pairs[..n][i] == pairs[i];
      assert forall j :: i < j < n ==> pairs[..n][j] == pairs[j];
      NameAdductLastWins(pairs[..n], i);
      assert pairs[n].0 != pairs[i].0;
    }
  }

  // The calls into the three tool summaries

  /** The tool result folders and the fitted score pipelines the three tool
      summaries load from `machine_dir`; `ln` is the natural logarithm and
      `inchikeyOf` the RDKit InChIKey conversion SIRIUS uses. */
  datatype ToolInputs = ToolInputs(
    msfinderFiles: seq<ResultFile>, msfinderScore: real -> real, msfinderDiff: real -> real, ln: real -> real,
    siriusFiles: seq<ResultFile>, siriusScore: real -> real, siriusDiff: real -> real,
    inchikeyOf: Option<string> -> Option<string>,
    metfragFiles: seq<ResultFile>, metfragScore: real -> real, metfragDiff: real -> real)

  /** A parameter of a Python function: its name and whether it has a default. */
  datatype Param = Param(name: string, hasDefault: bool)

  /** The parameters of process_metfrag_output, in order. */
  const MetfragParams := [
    Param("metfrag_folder", false), Param("machine_dir", false), Param("name_adduct_df", false),
    Param("summary_inchikey_df", false), Param("summary_smiles_df", false),
    Param("class_summary_df", false), Param("smiles_score_df", false), Param("top_n", true)]

  /** The first parameter at or after `from` that has no default, if any. */
  function FirstRequired(params: seq<Param>, from: nat): (k: Option<nat>)
    ensures k.None? <==> forall i :: from <= i < |params| ==> params[i].hasDefault
    ensures k.Some? ==>
      from <= k.value < |params| && !params[k.value].hasDefault
      && forall i :: from <= i < k.value ==> params[i].hasDefault
    decreases |params| - from
  {
    if from >= |params| then None
    else if !params[from].hasDefault then Some(from)
    else FirstRequired(params, from + 1)
  }

  /** Binding `given` positional arguments: too many arguments, or a
      parameter without a default left unfilled, raises TypeError. */
  function BindPositional(params: seq<Param>, given: nat): (r: Result<nat>)
    ensures r.Ok? <==> given <= |params| && forall i :: given <= i < |params| ==> params[i].hasDefault
    ensures r.Err? ==> r.error.TypeError?
  {
    if given > |params| then Err(TypeError("too many positional arguments"))
    else match FirstRequired(params, given)
      case Some(k) => Err(TypeError("missing required positional argument: " + params[k].name))
      case None => Ok(given)
  }

  /** The MS-FINDER and SIRIUS steps (lines 32-34): MS-FINDER's score rows
      then SIRIUS's, appended to the empty seed score table; the step raises
      when either tool summary raises. */
  function ToolScoreRows(inp: ToolInputs, pairs: seq<(string, string)>): (r: Result<seq<ScoreRow>>)
    requires LogLike(inp.ln)
    ensures r.Err? <==> MsfinderStrucSummary.Raises(inp.msfinderFiles) || SiriusStrucSummary.Raises(inp.siriusFiles)
    ensures r.Ok? ==> r.value == MsfinderRows(inp, pairs) + SiriusRows(inp, pairs)
  {
    match MsfinderScoreTable(inp, pairs)
    case Err(e) => Err(e)
    case Ok(scoreTable) => SiriusScoreTable(inp, pairs, scoreTable)
  }

  /** The score table process_msfinder_output returns when it is handed the
      empty seed table, or the error it raises. */
  function MsfinderScoreTable(inp: ToolInputs, pairs: seq<(string, string)>): (r: Result<seq<ScoreRow>>)
    requires LogLike(inp.ln)
    ensures r.Err? <==> MsfinderStrucSummary.Raises(inp.msfinderFiles)
    ensures r.Ok? ==> r.value == MsfinderRows(inp, pairs)
  {
    match MsfinderOutput(inp.msfinderFiles, 3, NameAdduct(pairs), inp.msfinderScore, inp.msfinderDiff, inp.ln, [], [])
    case Err(e) => Err(e)
    case Ok(ms) => Ok(if ms.Updated? then ms.scoreTable else [])
  }

  /** The score table process_sirius_output returns when it is handed
      `scoreTable`, or the error it raises. */
  function SiriusScoreTable(inp: ToolInputs, pairs: seq<(string, string)>, scoreTable: seq<ScoreRow>)
    : (r: Result<seq<ScoreRow>>)
    ensures r.Err? <==> SiriusStrucSummary.Raises(inp.siriusFiles)
    ensures r.Ok? ==> r.value == scoreTable + SiriusRows(inp, pairs)
  {
    match SiriusOutput(inp.siriusFiles, NameAdduct(pairs), inp.siriusScore, inp.siriusDiff, inp.inchikeyOf, [], scoreTable)
    case Err(e) => Err(e)
    case Ok(si) =>
      if si.Updated? then Ok(si.scoreTable)
      else
        NoneReadableNoRows(inp.siriusFiles);
        assert SiriusRows(inp, pairs) == [];
        Ok(scoreTable)
  }

  /** The score rows MS-FINDER adds; none when it found no result file. */
  function MsfinderRows(inp: ToolInputs, pairs: seq<(string, string)>): seq<ScoreRow>
    requires LogLike(inp.ln)
  {
    MsfinderStrucSummary.AddedScoreRows(inp.msfinderFiles, 3, NameAdduct(pairs), inp.msfinderScore, inp.msfinderDiff, inp.ln)
  }

  /** The score rows SIRIUS adds; none when it read no file. */
  function SiriusRows(inp: ToolInputs, pairs: seq<(string, string)>): seq<ScoreRow> {
    SiriusStrucSummary.AddedScoreRows(inp.siriusFiles, NameAdduct(pairs), inp.siriusScore, inp.siriusDiff)
  }

  /** The score rows MetFrag adds, each merged with the seed pairs of its
      filename; none when it read no file. */
  ghost function MetfragRows(inp: ToolInputs, pairs: seq<(string, string)>): seq<ScoreRow> {
    if AnyReadable(inp.metfragFiles) then OuterMerge(RankedRows(inp.metfragFiles, 5, inp.metfragScore, inp.metfragDiff), pairs)
    else []
  }

  /** The score table process_metfrag_output returns when it is handed
      `scoreTable`, or the error it raises. */
  ghost function MetfragScoreTable(inp: ToolInputs, pairs: seq<(string, string)>, scoreTable: seq<ScoreRow>)
    : (r: Result<seq<ScoreRow>>)
    ensures r.Err? <==> MetfragSummary.Raises(inp.metfragFiles, 5)
    ensures r.Ok? ==> r.value == scoreTable + MetfragRows(inp, pairs)
    ensures r.Ok? && !AnyReadable(inp.metfragFiles) ==> r.value == scoreTable
  {
    match MetfragOutput(inp.metfragFiles, 5, pairs, inp.metfragScore, inp.metfragDiff, [], scoreTable)
    case Err(e) => Err(e)
    case Ok(mf) => Ok(if mf.Updated? then mf.scoreTable else scoreTable)
  }

  /** Lines 36 and 44 as written: six arguments for a function with seven
      required parameters. */
  ghost function ScoreTableAsWritten(inp: ToolInputs, pairs: seq<(string, string)>): (r: Result<seq<ScoreRow>>)
    requires LogLike(inp.ln)
  {
    match ToolScoreRows(inp, pairs)
    case Err(e) => Err(e)
    case Ok(rows) =>
      match BindPositional(MetfragParams, 6)
      case Err(e) => Err(e)
      case Ok(_) =>
        match MetfragScoreTable(inp, pairs, [])
        case Err(e) => Err(e)
        case Ok(added) => Ok(rows + added)
  }

  /** As written, the structure pipeline never gets past the MetFrag call:
      whenever MS-FINDER and SIRIUS do not raise, the call raises TypeError. */
  lemma AsWrittenRaisesTypeError(inp: ToolInputs, pairs: seq<(string, string)>)
    requires LogLike(inp.ln)
    ensures ScoreTableAsWritten(inp, pairs).Err?
    ensures ToolScoreRows(inp, pairs).Ok? ==> ScoreTableAsWritten(inp, pairs).error.TypeError?
  {
    assert !MetfragParams[6].hasDefault;
  }

  /** The corrected call: the seventh argument is an empty score table, so
      the concatenation on line 44 appends each MetFrag row once, after the
      MS-FINDER and SIRIUS rows. */
  ghost function ScoreTable(inp: ToolInputs, pairs: seq<(string, string)>): (r: Result<seq<ScoreRow>>)
    requires LogLike(inp.ln)
    ensures r.Err? <==>
      MsfinderStrucSummary.Raises(inp.msfinderFiles) || SiriusStrucSummary.Raises(inp.siriusFiles)
      || MetfragSummary.Raises(inp.metfragFiles, 5)
    ensures r.Ok? ==> r.value == MsfinderRows(inp, pairs) + SiriusRows(inp, pairs) + MetfragRows(inp, pairs)
  {
    match ToolScoreRows(inp, pairs)
    case Err(e) => Err(e)
    case Ok(rows) =>
      match MetfragScoreTable(inp, pairs, [])
      case Err(e) => Err(e)
      case Ok(added) =>
        assert added == MetfragRows(inp, pairs);
        Ok(rows + added)
  }

  /** Seven arguments bind, and six do not. */
  lemma MetfragCallBinds()
    ensures BindPositional(MetfragParams, 7).Ok?
    ensures BindPositional(MetfragParams, 6).Err?
  {
    assert MetfragParams[7].hasDefault;
    assert !MetfragParams[6].hasDefault;
  }

  /** Handing MetFrag the running table instead would repeat every MS-FINDER
      and SIRIUS row after the concatenation on line 44; the empty table
      keeps each once. Whether MetFrag raises does not depend on the table
      it is handed. */
  lemma RunningTableWouldRepeatRows(inp: ToolInputs, pairs: seq<(string, string)>, rows: seq<ScoreRow>)
    ensures MetfragScoreTable(inp, pairs, rows).Ok? <==> MetfragScoreTable(inp, pairs, []).Ok?
    ensures AnyReadable(inp.metfragFiles) && MetfragScoreTable(inp, pairs, []).Ok? ==>
      rows + MetfragScoreTable(inp, pairs, rows).value == rows + rows + MetfragScoreTable(inp, pairs, []).value
  {
    if AnyReadable(inp.metfragFiles) && MetfragScoreTable(inp, pairs, []).Ok? {
      var added := MetfragRows(inp, pairs);
      assert MetfragScoreTable(inp, pairs, rows).value == rows + added;
      assert MetfragScoreTable(inp, pairs, []).value == [] + added;
      AppendTwice(rows, added);
    }
  }

  lemma AppendTwice(rows: seq<ScoreRow>, added: seq<ScoreRow>)
    ensures rows + (rows + added) == rows + rows + ([] + added)
  {
    assert [] + added == added;
  }

  // One-hot tool flags and the SMILES filter

  /** `tool_name` after `astype("string").fillna("").str.strip().str.lower()`. */
  function ToolName(cell: Option<string>): (t: string)
    ensures forall i :: 0 <= i < |t| ==> !('A' <= t[i] <= 'Z')
  {
    Lower(Strip(cell.GetOr("")))
  }

  /** `pd.get_dummies` on the normalised name, restricted to the three
      required columns (MetFrag, MS-FINDER, SIRIUS). */
  function ToolFlags(row: ScoreRow): (flags: (int, int, int))
    ensures flags.0 + flags.1 + flags.2 <= 1
    ensures flags.0 == 1 <==> ToolName(row.toolName) == "metfrag"
    ensures flags.1 == 1 <==> ToolName(row.toolName) == "msfinder"
    ensures flags.2 == 1 <==> ToolName(row.toolName) == "sirius"
  {
    var t := ToolName(row.toolName);
    (if t == "metfrag" then 1 else 0, if t == "msfinder" then 1 else 0, if t == "sirius" then 1 else 0)
  }

  /** A row survives when its SMILES is present and not blank. */
  predicate HasSmiles(row: ScoreRow) {
    row.candidate.Some? && Strip(row.candidate.value) != ""
  }

  /** The rows with a SMILES, in order. */
  function SmilesRows(rows: seq<ScoreRow>): (kept: seq<ScoreRow>)
    ensures forall r :: r in kept <==> r in rows && HasSmiles(r)
    ensures |kept| <= |rows|
  {
    if rows == [] then []
    else
      var n := |rows| - 1;
      SmilesRows(rows[..n]) + (if HasSmiles(rows[n]) then [rows[n]] else [])
  }

  /** The classifier's features: the three normalised scores and the flags. */
  function Features(row: ScoreRow): (f: FeatureRow)
    ensures f.adduct == row.adduct && |f.features| == 6
  {
    var flags := ToolFlags(row);
    FeatureRow(row.adduct, [row.zscore, row.zscoreDiff, row.normalizedRank,
                            Some(flags.0 as real), Some(flags.1 as real), Some(flags.2 as real)])
  }

  function FeatureRows(rows: seq<ScoreRow>): (fs: seq<FeatureRow>)
    ensures |fs| == |rows|
  {
    seq(|rows|, i requires 0 <= i < |rows| => Features(rows[i]))
  }

  // Canonical SMILES and the fused summary

  /** `convert_to_canonical_smiles`: RDKit's canonical form when it parses
      the SMILES, the SMILES itself otherwise. */
  function CanonicalSmiles(smiles: string, canonical: string -> Option<string>): (c: string)
    ensures canonical(smiles).None? ==> c == smiles
  {
    match canonical(smiles)
    case Some(c) => c
    case None => smiles
  }

  /** `s` is the aggregation's view of `row`, scored `prob`. */
  predicate ScoredFrom(s: ScoredRow, row: ScoreRow, prob: Prob, canonical: string -> Option<string>)
    requires HasSmiles(row)
  {
    row.filename == Some(s.filename) && s.key == CanonicalSmiles(row.candidate.value, canonical)
    && s.adduct == row.adduct && s.flags == ToolFlags(row) && s.confidence == prob as real
  }

  /** The rows the aggregation groups: a row without a filename is dropped
      by `groupby`; a row with a SMILES but no rank cannot come from the tool
      summaries and is read as rank 0. */
  function ScoredRows(rows: seq<ScoreRow>, probs: seq<Prob>, canonical: string -> Option<string>): (scored: seq<ScoredRow>)
    requires |probs| == |rows|
    requires forall i :: 0 <= i < |rows| ==> HasSmiles(rows[i])
    ensures |scored| <= |rows|
    ensures forall s :: s in scored ==> exists i :: 0 <= i < |rows| && ScoredFrom(s, rows[i], probs[i], canonical)
  {
    if rows == [] then []
    else
      var n := |rows| - 1;
      var front := ScoredRows(rows[..n], probs[..n], canonical);
      assert forall i :: 0 <= i < n ==> rows[..n][i] == rows[i] && probs[..n][i] == probs[i];
      var row := rows[n];
      assert HasSmiles(row);
      if row.filename.None? then front
      else
        front + [ScoredRow(row.filename.value, CanonicalSmiles(row.candidate.value, canonical), row.adduct,
                           row.rank.GetOr(0), ToolFlags(row), probs[n] as real)]
  }

  /** One row of `summary_output_score`: a key of the SMILES summary joined
      with the summary of the structure ranked first for its filename; the
      adduct is None where the key's adduct is NaN. */
  datatype TopRow = TopRow(filename: string, adduct: Option<string>, smiles: string, scoreSum: real, usedTool: string)

  /** The filenames of the seed pairs. */
  function SeedNames(pairs: seq<(string, string)>): set<string> {
    set p | p in pairs :: p.0
  }

  /** The (filename, adduct) keys of summary_smiles_df after the outer
      merges of line 39, given the keys MS-FINDER's SMILES pivot adds and the
      filenames of the SIRIUS and MetFrag SMILES pivots. MS-FINDER merges on
      (filename, adduct), so each of its pivot keys is a key; SIRIUS and
      MetFrag merge on the filename alone, so each of their filenames that
      no seed pair has becomes a key with a NaN adduct. */
  function SummaryKeys(pairs: seq<(string, string)>, msfinderKeys: set<(string, string)>, pivotNames: set<string>)
    : (keys: set<(string, Option<string>)>)
    ensures forall f, a :: (f, Some(a)) in keys <==> (f, a) in pairs || (f, a) in msfinderKeys
    ensures forall f :: (f, None) in keys <==> f !in SeedNames(pairs) && f in pivotNames
  {
    (set p | p in pairs :: (p.0, Some(p.1)))
    + (set k | k in msfinderKeys :: (k.0, Some(k.1)))
    + (set f | f in pivotNames && f !in SeedNames(pairs) :: (f, None))
  }

  /** The keys of summary_smiles_df for these tool results. */
  ghost function SmilesKeys(inp: ToolInputs, pairs: seq<(string, string)>): set<(string, Option<string>)> {
    SummaryKeys(pairs, PivotKeys(inp.msfinderFiles, 3),
                SiriusStrucSummary.PivotNames(inp.siriusFiles) + MetfragSummary.PivotNames(inp.metfragFiles, 5))
  }

  /** The inner merge of the summary keys with the rank-1 summary rows on
      (filename, adduct); as in pandas, a NaN adduct matches a NaN adduct. */
  function JoinTop(keys: set<(string, Option<string>)>, summary: map<(string, string), Summary>): (out: set<TopRow>)
    ensures forall t :: t in out <==>
      (t.filename, t.adduct) in keys && (t.filename, t.smiles) in summary
      && summary[(t.filename, t.smiles)].rank == 1 && summary[(t.filename, t.smiles)].adduct == t.adduct
      && t.scoreSum == summary[(t.filename, t.smiles)].scoreSum && t.usedTool == summary[(t.filename, t.smiles)].usedTool
  {
    set p, g | p in keys && g in summary && g.0 == p.0 && summary[g].rank == 1 && summary[g].adduct == p.1
      :: TopRow(p.0, p.1, g.1, summary[g].scoreSum, summary[g].usedTool)
  }

  /** What struc_summary returns: the fused summary (result_score_df) and
      its join with the summary keys (summary_output_score). */
  datatype StrucResult = StrucResult(summary: map<(string, string), Summary>, top: set<TopRow>)

  /** The scored rows of the pipeline: the score table's rows with a SMILES,
      each with the probability its model gives it. */
  ghost function PipelineRows(inp: ToolInputs, pairs: seq<(string, string)>, listing: seq<string>,
                              classify: Classifier, canonical: string -> Option<string>): (r: Result<seq<ScoredRow>>)
    requires LogLike(inp.ln)
    ensures ScoreTable(inp, pairs).Err? ==> r.Err?
  {
    match ScoreTable(inp, pairs)
    case Err(e) => Err(e)
    case Ok(table) =>
      var kept := SmilesRows(table);
      match StrucPredictions(listing, classify, true, FeatureRows(kept))
      case Err(e) => Err(e)
      case Ok(probs) => Ok(ScoredRows(kept, probs, canonical))
  }

  /** struc_summary with the corrected MetFrag call; top_n of the
      aggregation is its default 3. */
  ghost function StrucSummary(mspData: string, inp: ToolInputs, listing: seq<string>,
                              classify: Classifier, canonical: string -> Option<string>): (r: Result<StrucResult>)
    requires LogLike(inp.ln)
    ensures AllModelFile !in listing && ScoreTable(inp, Pairs(mspData)).Ok? ==> r == Err(FileNotFoundError(AllModelFile))
    ensures r.Ok? ==> r.value.top == JoinTop(SmilesKeys(inp, Pairs(mspData)), r.value.summary)
  {
    var pairs := Pairs(mspData);
    match PipelineRows(inp, pairs, listing, classify, canonical)
    case Err(e) => Err(e)
    case Ok(rows) =>
      var summary := AggregateProbabilityWithRank(rows, 3).summary;
      Ok(StrucResult(summary, JoinTop(SmilesKeys(inp, pairs), summary)))
  }

  /** A joined row names a summary key and the one structure that no other
      structure of its filename beats; its adduct is the key's adduct. */
  lemma TopRowIsBestStructure(keys: set<(string, Option<string>)>, rows: seq<ScoredRow>, t: TopRow)
    requires t in JoinTop(keys, AggregateProbabilityWithRank(rows, 3).summary)
    ensures (t.filename, t.adduct) in keys
    ensures t.smiles in KeysOf(rows, t.filename)
    ensures forall k :: k in KeysOf(rows, t.filename) && k != t.smiles ==> Beats(rows, t.filename, t.smiles, k)
    ensures FirstAdduct(GroupRows(rows, t.filename, t.smiles)) == t.adduct
    ensures t.scoreSum == SumFor(rows, t.filename, t.smiles)
  {
    var f, a := t.filename, t.smiles;
    forall k | k in KeysOf(rows, f) && k != a ensures Beats(rows, f, a, k) {
      BeatsTotal(rows, f, a, k);
      if Beats(rows, f, k, a) {
        FusedRankOrder(rows, f, k, a);
      }
    }
  }

  /** Conversely, a summary key whose filename's best structure has that
      key's adduct first is joined with it. */
  lemma BestStructureIsJoined(keys: set<(string, Option<string>)>, rows: seq<ScoredRow>, f: string, a: Option<string>, k: string)
    requires (f, a) in keys && k in KeysOf(rows, f)
    requires FusedRank(rows, f, k) == 1
    requires FirstAdduct(GroupRows(rows, f, k)) == a
    ensures TopRow(f, a, k, SumFor(rows, f, k), Join(", ", SortedProvenance(rows, f, k)))
      in JoinTop(keys, AggregateProbabilityWithRank(rows, 3).summary)
  {
    assert (f, k) in TopGroups(rows, 3);
  }

  /** A filename that SIRIUS or MetFrag ranked but no seed pair names is
      still reported when its best structure's rows carry no adduct: the
      NaN key its pivot added matches the NaN adduct. */
  lemma UnseededFilenameJoined(inp: ToolInputs, pairs: seq<(string, string)>, rows: seq<ScoredRow>, f: string, k: string)
    requires f !in SeedNames(pairs)
    requires f in SiriusStrucSummary.PivotNames(inp.siriusFiles) || f in MetfragSummary.PivotNames(inp.metfragFiles, 5)
    requires k in KeysOf(rows, f) && FusedRank(rows, f, k) == 1
    requires FirstAdduct(GroupRows(rows, f, k)).None?
    ensures TopRow(f, None, k, SumFor(rows, f, k), Join(", ", SortedProvenance(rows, f, k)))
      in JoinTop(SmilesKeys(inp, pairs), AggregateProbabilityWithRank(rows, 3).summary)
  {
    BestStructureIsJoined(SmilesKeys(inp, pairs), rows, f, None, k);
  }

  /** A summary key is joined with at most one structure. */
  lemma OneTopRowPerPair(keys: set<(string, Option<string>)>, rows: seq<ScoredRow>, t: TopRow, u: TopRow)
    requires t in JoinTop(keys, AggregateProbabilityWithRank(rows, 3).summary)
    requires u in JoinTop(keys, AggregateProbabilityWithRank(rows, 3).summary)
    requires t.filename == u.filename && t.adduct == u.adduct
    ensures t == u
  {
    if t.smiles != u.smiles {
      SummaryRanks(rows, 3, t.filename, t.smiles, u.smiles);
    }
  }

  /** Every row the aggregation sees has a non-blank SMILES, one model
      probability and flags for at most one tool. */
  lemma ScoredRowsShape(rows: seq<ScoreRow>, probs: seq<Prob>, canonical: string -> Option<string>, s: ScoredRow)
    requires |probs| == |rows|
    requires forall i :: 0 <= i < |rows| ==> HasSmiles(rows[i])
    requires s in ScoredRows(rows, probs, canonical)
    ensures 0.0 <= s.confidence <= 1.0
    ensures s.flags.0 + s.flags.1 + s.flags.2 <= 1
    ensures exists i :: 0 <= i < |rows| && rows[i].filename == Some(s.filename) && Strip(rows[i].candidate.value) != ""
  {
  }

  /** The tags the three tool summaries write are read back as their own
      flags. */
  lemma ToolTagsFlag(row: ScoreRow)
    ensures row.toolName == Some("metfrag") ==> ToolFlags(row) == (1, 0, 0)
    ensures row.toolName == Some("msfinder") ==> ToolFlags(row) == (0, 1, 0)
    ensures row.toolName == Some("sirius") ==> ToolFlags(row) == (0, 0, 1)
    ensures row.toolName.None? ==> ToolFlags(row) == (0, 0, 0)
  {
    if row.toolName.Some? {
      var tag := row.toolName.value;
      if tag == "metfrag" || tag == "msfinder" || tag == "sirius" {
        TagNormalizesToItself(tag);
      }
    }
  }

  /** Each tag is already in the normal form ToolName gives. */
  lemma TagNormalizesToItself(tag: string)
    requires tag == "metfrag" || tag == "msfinder" || tag == "sirius"
    ensures ToolName(Some(tag)) == tag
  {
    StripTrimmedWord(tag);
    LowerOfLowercase(tag);
  }

  /** A word with no space at either end strips to itself. */
  lemma StripTrimmedWord(s: string)
    requires s == "metfrag" || s == "msfinder" || s == "sirius"
    ensures Strip(s) == s
  {
  }

  lemma LowerOfLowercase(s: string)
    requires forall i :: 0 <= i < |s| ==> !('A' <= s[i] <= 'Z')
    ensures Lower(s) == s
  {
  }
}
