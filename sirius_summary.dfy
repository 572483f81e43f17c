/** process_sirius_summary (script/sirius_summary.py): the SIRIUS
    `formula_candidates.tsv` tables, one per spectrum folder, become the
    top-n SIRIUS rows of the formula score table and a formula pivot by
    filename and rank. */
module SiriusSummary {
  import opened Wrappers
  import opened Text
  import opened Candidates
  import opened StrucDataType
  import SiriusStrucSummary

  /** The formula pivot (merged into the summary table by the caller's
      table, not modelled) and the score table with the SIRIUS rows
      appended, or both inputs unchanged. */
  datatype Output =
    | Unchanged
    | Updated(formulas: map<string, map<int, string>>, scoreTable: seq<ScoreRow>)

  function Table(files: seq<ResultFile>, topN: nat): (t: Ranked)
    ensures t.Valid() && |t.names| == |Combined(files)|
  {
    var rows := Combined(files);
    var names := SiriusStrucSummary.FilenamesOf(rows);
    RankRows(names, names, ScoresIn(rows, ScoreColumn(files, "SiriusScore", "score")), topN)
  }

  /** The kept rows are empty iff no row was read or top_n is 0. */
  lemma KeepsNone(files: seq<ResultFile>, topN: nat)
    ensures Table(files, topN).kept == [] <==> Combined(files) == [] || topN == 0
  {
    var rows := Combined(files);
    var names := SiriusStrucSummary.FilenamesOf(rows);
    RankRowsKeepNone(names, names, ScoresIn(rows, ScoreColumn(files, "SiriusScore", "score")), topN);
  }

  /** The SIRIUS rows appended to the score table: `molecularFormula` as the
      formula, normalize_rank (1 minus min-max) over the kept ranks. */
  function AddedScoreRows(files: seq<ResultFile>, topN: nat, nameAdduct: map<string, string>,
                          scorePipe: real -> real, diffPipe: real -> real): (rows: seq<ScoreRow>)
    ensures |rows| == |Table(files, topN).kept|
  {
    var t := Table(files, topN);
    ScoreRowsOf(t, Smiles(Combined(files)), nameAdduct, scorePipe, diffPipe, "sirius", None,
                NormalizeRankN(Pick(t.ranks, t.kept)))
  }

  /** The formula column after `astype(str)`: NaN reads "nan". */
  function FormulaTexts(rows: seq<(ResultFile, Hit)>): (texts: seq<string>)
    ensures |texts| == |rows|
  {
    seq(|rows|, i requires 0 <= i < |rows| => TextOf(rows[i].1.candidate))
  }

  /** The columns process_sirius_summary selects, in the order it selects
      them: the score column, `adduct` and `molecularFormula` (renamed to
      `formula` before it is selected). */
  function SelectedColumns(files: seq<ResultFile>): seq<string> {
    [ScoreColumn(files, "SiriusScore", "score"), "adduct", "molecularFormula"]
  }

  /** What process_sirius_summary returns. Nothing readable leaves both
      tables as they were. Otherwise a selected column that no file read
      has raises KeyError, and an empty head(top_n) (no rows read, or top_n
      0) raises normalize_rank's ValueError. In every other case the result
      is the pivot, which never raises, and the score table with the SIRIUS
      rows appended. */
  function SiriusSummaryOutput(files: seq<ResultFile>, topN: nat, nameAdduct: map<string, string>,
                               scorePipe: real -> real, diffPipe: real -> real,
                               scoreTable: seq<ScoreRow>): (r: Result<Output>)
    ensures !AnyReadable(files) ==> r == Ok(Unchanged)
    ensures AnyReadable(files) && MissingColumn(files, SelectedColumns(files)).Some? ==>
      r == Err(KeyError(MissingColumn(files, SelectedColumns(files)).value))
    ensures AnyReadable(files) && MissingColumn(files, SelectedColumns(files)).None? ==>
      (r.Err? <==> Combined(files) == [] || topN == 0) && (r.Err? ==> r.error == NoSamples)
    ensures r.Ok? ==> (r.value.Unchanged? <==> !AnyReadable(files))
    ensures r.Ok? && r.value.Updated? ==>
      r.value.scoreTable == scoreTable + AddedScoreRows(files, topN, nameAdduct, scorePipe, diffPipe)
      && r.value.formulas == PivotMap(Cells(Table(files, topN), FormulaTexts(Combined(files))))
  {
    if !AnyReadable(files) then Ok(Unchanged)
    else
      match MissingColumn(files, SelectedColumns(files))
      case Some(c) => Err(KeyError(c))
      case None =>
        var t := Table(files, topN);
        KeepsNone(files, topN);
        match FitMinMax(Pick(t.ranks, t.kept))
        case Err(e) => Err(e)
        case Ok(_) =>
          var fs := FormulaTexts(Combined(files));
          RankedCellsDistinct(t.names, t.scores, topN, fs);
          match Pivot(Cells(t, fs))
          case Err(e) => Err(e)
          case Ok(formulaPivot) =>
            Ok(Updated(formulaPivot, scoreTable + AddedScoreRows(files, topN, nameAdduct, scorePipe, diffPipe)))
  }

  method ProcessSiriusSummary(files: seq<ResultFile>, topN: nat, nameAdduct: map<string, string>,
                              scorePipe: real -> real, diffPipe: real -> real,
                              scoreTable: seq<ScoreRow>) returns (r: Result<Output>)
    ensures r == SiriusSummaryOutput(files, topN, nameAdduct, scorePipe, diffPipe, scoreTable)
  {
    if files == [] {
      return Ok(Unchanged);
    }
    var rows, anyRead := ReadResults(files);
    if !anyRead {
      return Ok(Unchanged);
    }
    var missing := MissingColumn(files, SelectedColumns(files));
    if missing.Some? {
      return Err(KeyError(missing.value));
    }
    var names := SiriusStrucSummary.FilenamesOf(rows);
    var t := RankTable(names, names, ScoresIn(rows, ScoreColumn(files, "SiriusScore", "score")), topN);
    var scaled := FitMinMax(Pick(t.ranks, t.kept));
    if scaled.Err? {
      return Err(scaled.error);
    }
    var normalized := seq(|scaled.value|, i requires 0 <= i < |scaled.value| => 1.0 - scaled.value[i]);
    var scoreRows := ScoreRowsOf(t, Smiles(rows), nameAdduct, scorePipe, diffPipe, "sirius", None, normalized);
    var fs := FormulaTexts(rows);
    RankedCellsDistinct(t.names, t.scores, topN, fs);
    r := Ok(Updated(PivotMap(Cells(t, fs)), scoreTable + scoreRows));
  }

  /** The SIRIUS formula rows: at most topN per filename and at least one for
      every filename read, each tagged "sirius" with no Used_tools text, its
      adduct from the name/adduct table and a rank between 1 and topN. */
  lemma SiriusSummaryScoreRows(files: seq<ResultFile>, topN: nat, nameAdduct: map<string, string>,
                               scorePipe: real -> real, diffPipe: real -> real, x: string)
    ensures var t := Table(files, topN);
      var added := AddedScoreRows(files, topN, nameAdduct, scorePipe, diffPipe);
      (forall j :: 0 <= j < |added| ==> TaggedRow(t, added, nameAdduct, "sirius", None, topN, j))
      && CountIn(Pick(t.names, t.kept), x) == Min(topN, CountIn(t.names, x))
  {
    var rows := Combined(files);
    var names := SiriusStrucSummary.FilenamesOf(rows);
    var scores := ScoresIn(rows, ScoreColumn(files, "SiriusScore", "score"));
    var t := RankRows(names, names, scores, topN);
    assert t == Table(files, topN);
    RankRowsKept(names, scores, topN);
    KeptScoreRows(t, AddedScoreRows(files, topN, nameAdduct, scorePipe, diffPipe), Smiles(rows), nameAdduct,
                  scorePipe, diffPipe, "sirius", None, NormalizeRankN(Pick(t.ranks, t.kept)), topN, x);
  }


  /** The formula pipeline's normalize_rank is decreasing: rank 1 maps to 1
      and a worse rank to a smaller value. */
  lemma SiriusSummaryNormalizedRank(files: seq<ResultFile>, topN: nat, nameAdduct: map<string, string>,
                                    scorePipe: real -> real, diffPipe: real -> real)
    ensures var added := AddedScoreRows(files, topN, nameAdduct, scorePipe, diffPipe);
      (forall j :: 0 <= j < |added| && added[j].rank == Some(1) ==> added[j].normalizedRank == Some(1.0))
      && (forall j, l :: 0 <= j < |added| && 0 <= l < |added| && added[j].rank.value < added[l].rank.value ==>
            added[j].normalizedRank.value > added[l].normalizedRank.value)
  {
    var rows := Combined(files);
    var names := SiriusStrucSummary.FilenamesOf(rows);
    var scores := ScoresIn(rows, ScoreColumn(files, "SiriusScore", "score"));
    var t := RankRows(names, names, scores, topN);
    assert t == Table(files, topN);
    RankRowsKept(names, scores, topN);
    NormalizedNRows(t, AddedScoreRows(files, topN, nameAdduct, scorePipe, diffPipe), Smiles(rows), nameAdduct,
                    scorePipe, diffPipe, "sirius", None);
  }


  /** Every kept candidate's formula text sits in the pivot under its
      filename and rank. */
  lemma SiriusSummaryPivotCells(files: seq<ResultFile>, topN: nat, j: nat)
    requires j < |Table(files, topN).kept|
    ensures var t := Table(files, topN);
      var i := t.kept[j];
      var pivot := PivotMap(Cells(t, FormulaTexts(Combined(files))));
      t.names[i] in pivot && t.ranks[i] in pivot[t.names[i]]
      && pivot[t.names[i]][t.ranks[i]] == FormulaTexts(Combined(files))[i]
  {
    var t := Table(files, topN);
    var fs := FormulaTexts(Combined(files));
    RankedCellsDistinct(t.names, t.scores, topN, fs);
    PivotMapSpec(Cells(t, fs));
    assert Cells(t, fs)[j] == (t.names[t.kept[j]], t.ranks[t.kept[j]], fs[t.kept[j]]);
  }
}
