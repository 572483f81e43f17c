/** process_sirius_output (script/sirius_struc_summary.py): SIRIUS structure
    candidates, one `structure_candidates.tsv` per spectrum folder, become
    the top 3 SIRIUS rows of the score table, two pivots (InChIKey and
    SMILES by rank) and the rank-1 rows of the class table. */
module SiriusStrucSummary {
  import opened Wrappers
  import opened Text
  import opened Candidates
  import opened StrucDataType

  const TopK := 3

  /** The returned tables: the four inputs unchanged, or the two pivots
      (merged into the running summaries by the caller's tables, not
      modelled), the class table and the score table with SIRIUS rows
      appended. */
  datatype Output =
    | Unchanged
    | Updated(inchikeys: map<string, map<int, string>>, smiles: map<string, map<int, string>>,
              classTable: seq<ClassRow>, scoreTable: seq<ScoreRow>)

  /** `os.path.basename(os.path.dirname(file)).split('_')[-1]`. */
  function FilenamesOf(rows: seq<(ResultFile, Hit)>): (names: seq<string>)
    ensures |names| == |rows|
  {
    seq(|rows|, i requires 0 <= i < |rows| => LastPiece(rows[i].0.folder, '_'))
  }

  function Table(files: seq<ResultFile>): (t: Ranked)
    ensures t.Valid() && |t.names| == |Combined(files)|
  {
    var rows := Combined(files);
    var names := FilenamesOf(rows);
    RankRows(names, names, ScoresIn(rows, ScoreColumn(files, "CSI:FingerIDScore", "score")), TopK)
  }

  /** The InChIKey column after `astype(str)`: RDKit's key, or "None" when
      it could not parse the SMILES. */
  function InchikeyTexts(rows: seq<(ResultFile, Hit)>, inchikeyOf: Option<string> -> Option<string>): (texts: seq<string>)
    ensures |texts| == |rows|
  {
    seq(|rows|, i requires 0 <= i < |rows| =>
      var k := inchikeyOf(rows[i].1.candidate);
      if k.Some? then k.value else "None")
  }

  function SmilesTexts(rows: seq<(ResultFile, Hit)>): (texts: seq<string>)
    ensures |texts| == |rows|
  {
    seq(|rows|, i requires 0 <= i < |rows| => TextOf(rows[i].1.candidate))
  }

  /** The SIRIUS rows appended to the score table. */
  /** The kept rows are empty iff no row was read. */
  lemma KeepsNone(files: seq<ResultFile>)
    ensures Table(files).kept == [] <==> Combined(files) == []
  {
    var rows := Combined(files);
    var names := FilenamesOf(rows);
    RankRowsKeepNone(names, names, ScoresIn(rows, ScoreColumn(files, "CSI:FingerIDScore", "score")), TopK);
  }

  function AddedScoreRows(files: seq<ResultFile>, nameAdduct: map<string, string>,
                          scorePipe: real -> real, diffPipe: real -> real): (rows: seq<ScoreRow>)
    ensures |rows| == |Table(files).kept|
  {
    var t := Table(files);
    ScoreRowsOf(t, Smiles(Combined(files)), nameAdduct, scorePipe, diffPipe, "sirius", None,
                NormalizeRank(Pick(t.ranks, t.kept)))
  }

  /** The SIRIUS rows appended to the class table. */
  function AddedClassRows(files: seq<ResultFile>, inchikeyOf: Option<string> -> Option<string>): seq<ClassRow> {
    var t := Table(files);
    ClassRows("SIRIUS", t.names, t.ranks, InchikeyTexts(Combined(files), inchikeyOf), SmilesTexts(Combined(files)), t.kept)
  }

  /** The columns process_sirius_output selects, in the order it selects
      them: the score column (for the score differences), `adduct` (for the
      relabelling) and `smiles` (for the score table). */
  function SelectedColumns(files: seq<ResultFile>): seq<string> {
    [ScoreColumn(files, "CSI:FingerIDScore", "score"), "adduct", "smiles"]
  }

  /** The filenames of the SMILES pivot: one per filename of a kept row. */
  function PivotNames(files: seq<ResultFile>): set<string> {
    KeptNames(Table(files))
  }

  /** process_sirius_output raises when a file was read and either a
      selected column is missing or no row was read. */
  predicate Raises(files: seq<ResultFile>) {
    AnyReadable(files) && (MissingColumn(files, SelectedColumns(files)).Some? || Combined(files) == [])
  }

  /** What process_sirius_output returns; the SMILES to InChIKey conversion
      (RDKit) is the parameter inchikeyOf. Nothing readable leaves every
      table as it was. Otherwise a selected column that no file read has
      raises KeyError, and files read without any row raise normalize_rank's
      ValueError. In every other case the SIRIUS rows are appended to both
      tables, and the pivots never raise. */
  function SiriusOutput(files: seq<ResultFile>, nameAdduct: map<string, string>,
                        scorePipe: real -> real, diffPipe: real -> real,
                        inchikeyOf: Option<string> -> Option<string>,
                        classTable: seq<ClassRow>, scoreTable: seq<ScoreRow>): (r: Result<Output>)
    ensures r.Err? <==> Raises(files)
    ensures !AnyReadable(files) ==> r == Ok(Unchanged)
    ensures AnyReadable(files) && MissingColumn(files, SelectedColumns(files)).Some? ==>
      r == Err(KeyError(MissingColumn(files, SelectedColumns(files)).value))
    ensures AnyReadable(files) && MissingColumn(files, SelectedColumns(files)).None? ==>
      (r.Err? <==> Combined(files) == []) && (r.Err? ==> r.error == NoSamples)
    ensures r.Ok? ==> (r.value.Unchanged? <==> !AnyReadable(files))
    ensures r.Ok? && r.value.Updated? ==>
      r.value.scoreTable == scoreTable + AddedScoreRows(files, nameAdduct, scorePipe, diffPipe)
      && r.value.classTable == classTable + AddedClassRows(files, inchikeyOf)
      && r.value.inchikeys == PivotMap(Cells(Table(files), InchikeyTexts(Combined(files), inchikeyOf)))
  {
    if !AnyReadable(files) then Ok(Unchanged)
    else
      match MissingColumn(files, SelectedColumns(files))
      case Some(c) => Err(KeyError(c))
      case None =>
        var t := Table(files);
        KeepsNone(files);
        match FitMinMax(Pick(t.ranks, t.kept))
        case Err(e) => Err(e)
        case Ok(_) =>
          var iks := InchikeyTexts(Combined(files), inchikeyOf);
          var sms := SmilesTexts(Combined(files));
          RankedCellsDistinct(t.names, t.scores, TopK, iks);
          RankedCellsDistinct(t.names, t.scores, TopK, sms);
          match Pivot(Cells(t, iks))
          case Err(e) => Err(e)
          case Ok(inchikeyPivot) =>
            match Pivot(Cells(t, sms))
            case Err(e) => Err(e)
            case Ok(smilesPivot) =>
              Ok(Updated(inchikeyPivot, smilesPivot, classTable + AddedClassRows(files, inchikeyOf),
                         scoreTable + AddedScoreRows(files, nameAdduct, scorePipe, diffPipe)))
  }

  method ProcessSiriusOutput(files: seq<ResultFile>, nameAdduct: map<string, string>,
                             scorePipe: real -> real, diffPipe: real -> real,
                             inchikeyOf: Option<string> -> Option<string>,
                             classTable: seq<ClassRow>, scoreTable: seq<ScoreRow>) returns (r: Result<Output>)
    ensures r == SiriusOutput(files, nameAdduct, scorePipe, diffPipe, inchikeyOf, classTable, scoreTable)
  {
    if files == [] {
      return Ok(Unchanged);
    }
    var rows, anyRead := ReadResults(files);
    if !anyRead {
      return Ok(Unchanged);
    }
    var missing := MissingColumn(files, SelectedColumns(files));
    if missing.Some? {
      return Err(KeyError(missing.value));
    }
    var names := FilenamesOf(rows);
    var t := RankTable(names, names, ScoresIn(rows, ScoreColumn(files, "CSI:FingerIDScore", "score")), TopK);
    var normalized := FitMinMax(Pick(t.ranks, t.kept));
    if normalized.Err? {
      return Err(normalized.error);
    }
    var iks := InchikeyTexts(rows, inchikeyOf);
    var sms := SmilesTexts(rows);
    var scoreRows := ScoreRowsOf(t, Smiles(rows), nameAdduct, scorePipe, diffPipe, "sirius", None, normalized.value);
    var classRows := ClassRows("SIRIUS", t.names, t.ranks, iks, sms, t.kept);
    RankedCellsDistinct(t.names, t.scores, TopK, iks);
    RankedCellsDistinct(t.names, t.scores, TopK, sms);
    r := Ok(Updated(PivotMap(Cells(t, iks)), PivotMap(Cells(t, sms)), classTable + classRows, scoreTable + scoreRows));
  }

  /** The SIRIUS score rows: one per kept candidate, at most 3 per filename
      and at least one for every filename read; each is tagged "sirius",
      carries no Used_tools text, takes its adduct from the name/adduct
      table, and has a rank between 1 and 3. */
  lemma SiriusScoreRows(files: seq<ResultFile>, nameAdduct: map<string, string>,
                        scorePipe: real -> real, diffPipe: real -> real, x: string)
    ensures var t := Table(files);
      var added := AddedScoreRows(files, nameAdduct, scorePipe, diffPipe);
      (forall j :: 0 <= j < |added| ==> TaggedRow(t, added, nameAdduct, "sirius", None, TopK, j))
      && CountIn(Pick(t.names, t.kept), x) == Min(TopK, CountIn(t.names, x))
  {
    var rows := Combined(files);
    var names := FilenamesOf(rows);
    var scores := ScoresIn(rows, ScoreColumn(files, "CSI:FingerIDScore", "score"));
    var t := RankRows(names, names, scores, TopK);
    assert t == Table(files);
    RankRowsKept(names, scores, TopK);
    KeptScoreRows(t, AddedScoreRows(files, nameAdduct, scorePipe, diffPipe), Smiles(rows), nameAdduct,
                  scorePipe, diffPipe, "sirius", None, NormalizeRank(Pick(t.ranks, t.kept)), TopK, x);
  }


  /** SIRIUS uses the increasing normalize_rank: every kept rank-1 row gets
      normalised rank 0, and a better rank always gets a smaller value. */
  lemma SiriusRankOneNormalizesToZero(files: seq<ResultFile>, nameAdduct: map<string, string>,
                                      scorePipe: real -> real, diffPipe: real -> real)
    ensures var added := AddedScoreRows(files, nameAdduct, scorePipe, diffPipe);
      (forall j :: 0 <= j < |added| && added[j].rank == Some(1) ==> added[j].normalizedRank == Some(0.0))
      && (forall j, l :: 0 <= j < |added| && 0 <= l < |added| && added[j].rank.value < added[l].rank.value ==>
            added[j].normalizedRank.value < added[l].normalizedRank.value)
  {
    var rows := Combined(files);
    var names := FilenamesOf(rows);
    var scores := ScoresIn(rows, ScoreColumn(files, "CSI:FingerIDScore", "score"));
    var t := RankRows(names, names, scores, TopK);
    assert t == Table(files);
    RankRowsKept(names, scores, TopK);
    IncreasingRows(t, AddedScoreRows(files, nameAdduct, scorePipe, diffPipe), Smiles(rows), nameAdduct,
                   scorePipe, diffPipe);
  }

  /** On any ranked table whose kept ranks are at least 1 and include 1,
      the SIRIUS score rows normalise rank 1 to 0 and keep the rank order. */
  lemma IncreasingRows(t: Ranked, added: seq<ScoreRow>, candidates: seq<Option<string>>,
                       nameAdduct: map<string, string>, scorePipe: real -> real, diffPipe: real -> real)
    requires t.Valid() && |candidates| == |t.names|
    requires forall j :: 0 <= j < |t.kept| ==> 1 <= t.ranks[t.kept[j]]
    requires t.kept != [] ==> 1 in Pick(t.ranks, t.kept)
    requires added == ScoreRowsOf(t, candidates, nameAdduct, scorePipe, diffPipe, "sirius", None,
                                  NormalizeRank(Pick(t.ranks, t.kept)))
    ensures forall j :: 0 <= j < |added| && added[j].rank == Some(1) ==> added[j].normalizedRank == Some(0.0)
    ensures forall j, l :: 0 <= j < |added| && 0 <= l < |added| && added[j].rank.value < added[l].rank.value ==>
              added[j].normalizedRank.value < added[l].normalizedRank.value
  {
    var kr := Pick(t.ranks, t.kept);
    NormalizeRankIncreasing(kr);
    if kr != [] {
      assert MinOf(kr) == 1;
    }
    ScoreRowsOfShape(t, candidates, nameAdduct, scorePipe, diffPipe, "sirius", None, NormalizeRank(kr));
  }


  /** The class rows SIRIUS adds are exactly its kept rank-1 candidates
      whose InChIKey and SMILES text are both non-blank, tagged "SIRIUS". */
  lemma SiriusClassRows(files: seq<ResultFile>, inchikeyOf: Option<string> -> Option<string>, c: ClassRow)
    ensures var t := Table(files);
      var iks := InchikeyTexts(Combined(files), inchikeyOf);
      var sms := SmilesTexts(Combined(files));
      c in AddedClassRows(files, inchikeyOf) <==>
        exists j ::
          0 <= j < |t.kept| && ClassWorthy(t.ranks[t.kept[j]], iks[t.kept[j]], sms[t.kept[j]])
          && c == ClassRow(t.names[t.kept[j]], iks[t.kept[j]], sms[t.kept[j]], "SIRIUS")
  {
  }

  /** Every kept candidate's InChIKey text sits in the pivot under its
      filename and rank. */
  lemma SiriusPivotCells(files: seq<ResultFile>, inchikeyOf: Option<string> -> Option<string>, j: nat)
    requires j < |Table(files).kept|
    ensures var t := Table(files);
      var i := t.kept[j];
      var pivot := PivotMap(Cells(t, InchikeyTexts(Combined(files), inchikeyOf)));
      t.names[i] in pivot && t.ranks[i] in pivot[t.names[i]]
      && pivot[t.names[i]][t.ranks[i]] == InchikeyTexts(Combined(files), inchikeyOf)[i]
  {
    var t := Table(files);
    var iks := InchikeyTexts(Combined(files), inchikeyOf);
    RankedCellsDistinct(t.names, t.scores, TopK, iks);
    PivotMapSpec(Cells(t, iks));
    assert Cells(t, iks)[j] == (t.names[t.kept[j]], t.ranks[t.kept[j]], iks[t.kept[j]]);
  }
}
