/** process_msfinder_output (script/msfinder_struc_summary.py): the
    MS-FINDER `Structure result*.txt` tables become the top-n MS-FINDER rows
    of the score table and the rank-1 rows of the class table. */
module MsfinderStrucSummary {
  import opened Wrappers
  import opened Text
  import opened Decimal
  import opened Candidates
  import opened StrucDataType

  /** The returned class and score tables, or the inputs unchanged. The
      InChIKey and SMILES pivots, merged into the wide summaries, are not
      part of this model. */
  datatype Output =
    | Unchanged
    | Updated(classTable: seq<ClassRow>, scoreTable: seq<ScoreRow>)

  /** `File name` up to its first '.'. */
  function FilenamesOf(rows: seq<(ResultFile, Hit)>): (names: seq<string>)
    ensures |names| == |rows|
    ensures forall i :: 0 <= i < |rows| ==> '.' !in names[i]
  {
    seq(|rows|, i requires 0 <= i < |rows| => BeforeFirst(rows[i].1.ident, '.'))
  }

  function Table(files: seq<ResultFile>, topN: nat): (t: Ranked)
    ensures t.Valid() && |t.names| == |Combined(files)|
  {
    var rows := Combined(files);
    var names := FilenamesOf(rows);
    RankRows(names, names, ScoresIn(rows, ScoreColumn(files, "Score", "Total score")), topN)
  }

  /** The MS-FINDER rows appended to the score table; normalize_rank_score
      takes the natural logarithm as the parameter ln. */
  function AddedScoreRows(files: seq<ResultFile>, topN: nat, nameAdduct: map<string, string>,
                          scorePipe: real -> real, diffPipe: real -> real, ln: real -> real): (rows: seq<ScoreRow>)
    requires LogLike(ln)
    ensures |rows| == |Table(files, topN).kept|
  {
    var t := Table(files, topN);
    var kr := Pick(t.ranks, t.kept);
    KeptRanks(t.names, topN);
    ScoreRowsOf(t, Filled(Smiles(Combined(files))), nameAdduct, scorePipe, diffPipe, "msfinder",
                Some("MS-FINDER_Rank:"), NormalizeRankScore(kr, ln))
  }

  function AddedClassRows(files: seq<ResultFile>, topN: nat): seq<ClassRow> {
    var t := Table(files, topN);
    var rows := Combined(files);
    ClassRows("MS-FINDER", t.names, t.ranks, TextColumn(Inchikeys(rows)), TextColumn(Smiles(rows)), t.kept)
  }

  /** The columns process_msfinder_output selects, in the order it selects
      them: `File name`, the score column, `Precursor type` (renamed to
      `adduct` before it is selected), `SMILES` and `InChIKey` (for the
      InChIKey pivot). */
  function SelectedColumns(files: seq<ResultFile>): seq<string> {
    ["File name", ScoreColumn(files, "Score", "Total score"), "Precursor type", "SMILES", "InChIKey"]
  }

  /** The (filename, adduct) keys of the SMILES pivot: the kept rows of rank
      at most 5, their `Precursor type` read as '' where it is missing. */
  function PivotKeys(files: seq<ResultFile>, topN: nat): (keys: set<(string, string)>)
    ensures forall f, a :: (f, a) in keys ==> exists j :: 0 <= j < |Table(files, topN).kept| && Table(files, topN).names[Table(files, topN).kept[j]] == f
  {
    var t := Table(files, topN);
    var rows := Combined(files);
    set j | 0 <= j < |t.kept| && t.ranks[t.kept[j]] <= 5 :: (t.names[t.kept[j]], rows[t.kept[j]].1.adduct.GetOr(""))
  }

  /** process_msfinder_output raises when there are result files and one
      cannot be read or a selected column is missing. */
  predicate Raises(files: seq<ResultFile>) {
    files != [] && (!AllReadable(files) || MissingColumn(files, SelectedColumns(files)).Some?)
  }

  /** What process_msfinder_output returns: no result file leaves every
      table as it was, a file that cannot be read raises, a selected column
      that no file has raises KeyError, and otherwise the MS-FINDER rows are
      appended to the class and score tables. */
  function MsfinderOutput(files: seq<ResultFile>, topN: nat, nameAdduct: map<string, string>,
                          scorePipe: real -> real, diffPipe: real -> real, ln: real -> real,
                          classTable: seq<ClassRow>, scoreTable: seq<ScoreRow>): (r: Result<Output>)
    requires LogLike(ln)
    ensures r.Err? <==> Raises(files)
    ensures files == [] ==> r == Ok(Unchanged)
    ensures files != [] && (exists i :: 0 <= i < |files| && files[i].rows.None?) ==> r.Err? && r.error.ReadError?
    ensures files != [] && (forall i :: 0 <= i < |files| ==> files[i].rows.Some?) ==>
      (r.Err? <==> MissingColumn(files, SelectedColumns(files)).Some?)
      && (r.Err? ==> r.error == KeyError(MissingColumn(files, SelectedColumns(files)).value))
    ensures r.Ok? && files != [] ==>
      r.value == Updated(classTable + AddedClassRows(files, topN),
                         scoreTable + AddedScoreRows(files, topN, nameAdduct, scorePipe, diffPipe, ln))
  {
    if files == [] then Ok(Unchanged)
    else
      match ReadAll(files)
      case Err(e) => Err(e)
      case Ok(_) =>
        match MissingColumn(files, SelectedColumns(files))
        case Some(c) => Err(KeyError(c))
        case None =>
          Ok(Updated(classTable + AddedClassRows(files, topN),
                     scoreTable + AddedScoreRows(files, topN, nameAdduct, scorePipe, diffPipe, ln)))
  }

  method ProcessMsfinderOutput(files: seq<ResultFile>, topN: nat, nameAdduct: map<string, string>,
                               scorePipe: real -> real, diffPipe: real -> real, ln: real -> real,
                               classTable: seq<ClassRow>, scoreTable: seq<ScoreRow>) returns (r: Result<Output>)
    requires LogLike(ln)
    ensures r == MsfinderOutput(files, topN, nameAdduct, scorePipe, diffPipe, ln, classTable, scoreTable)
  {
    if files == [] {
      return Ok(Unchanged);
    }
    var read := ReadEvery(files);
    if read.Err? {
      return Err(read.error);
    }
    var missing := MissingColumn(files, SelectedColumns(files));
    if missing.Some? {
      return Err(KeyError(missing.value));
    }
    var rows := read.value;
    var names := FilenamesOf(rows);
    var t := RankTable(names, names, ScoresIn(rows, ScoreColumn(files, "Score", "Total score")), topN);
    var kr := Pick(t.ranks, t.kept);
    KeptRanks(t.names, topN);
    var scoreRows := ScoreRowsOf(t, Filled(Smiles(rows)), nameAdduct, scorePipe, diffPipe, "msfinder",
                                 Some("MS-FINDER_Rank:"), NormalizeRankScore(kr, ln));
    var classRows := ClassRows("MS-FINDER", t.names, t.ranks, TextColumn(Inchikeys(rows)), TextColumn(Smiles(rows)), t.kept);
    r := Ok(Updated(classTable + classRows, scoreTable + scoreRows));
  }

  /** The MS-FINDER score rows: at most topN per filename and at least one
      for every filename read, each tagged "msfinder" with Used_tools
      `MS-FINDER_Rank:{rank}`, its adduct from the name/adduct table, a rank
      between 1 and topN, and normalised rank 1 at rank 1. */
  lemma MsfinderScoreRows(files: seq<ResultFile>, topN: nat, nameAdduct: map<string, string>,
                          scorePipe: real -> real, diffPipe: real -> real, ln: real -> real, x: string)
    requires LogLike(ln)
    ensures var t := Table(files, topN);
      var added := AddedScoreRows(files, topN, nameAdduct, scorePipe, diffPipe, ln);
      (forall j :: 0 <= j < |added| ==>
            added[j].toolName == Some("msfinder")
            && added[j].filename == Some(t.names[t.kept[j]])
            && added[j].adduct == AdductOf(nameAdduct, t.names[t.kept[j]])
            && added[j].rank.Some? && 1 <= added[j].rank.value <= topN
            && added[j].usedTools == Some("MS-FINDER_Rank:" + IntToString(added[j].rank.value))
            && (added[j].rank == Some(1) ==> added[j].normalizedRank == Some(1.0)))
      && CountIn(Pick(t.names, t.kept), x) == Min(topN, CountIn(t.names, x))
  {
    var rows := Combined(files);
    var names := FilenamesOf(rows);
    var scores := ScoresIn(rows, ScoreColumn(files, "Score", "Total score"));
    var t := RankRows(names, names, scores, topN);
    assert t == Table(files, topN);
    var kr := Pick(t.ranks, t.kept);
    var normalized := NormalizeRankScore(kr, ln);
    TopScoreRows(names, scores, topN, Filled(Smiles(rows)), nameAdduct, scorePipe, diffPipe, "msfinder",
                 Some("MS-FINDER_Rank:"), normalized, x);
    forall j | 0 <= j < |kr| && kr[j] == 1 ensures normalized[j] == 1.0 {
      NormalizeRankScoreTop(kr, ln, j);
    }
  }

  /** The class rows MS-FINDER adds are exactly its kept rank-1 candidates
      whose InChIKey and SMILES are both non-blank, tagged "MS-FINDER". */
  lemma MsfinderClassRows(files: seq<ResultFile>, topN: nat, c: ClassRow)
    ensures var t := Table(files, topN);
      var iks := TextColumn(Inchikeys(Combined(files)));
      var sms := TextColumn(Smiles(Combined(files)));
      c in AddedClassRows(files, topN) <==>
        exists j ::
          0 <= j < |t.kept| && ClassWorthy(t.ranks[t.kept[j]], iks[t.kept[j]], sms[t.kept[j]])
          && c == ClassRow(t.names[t.kept[j]], iks[t.kept[j]], sms[t.kept[j]], "MS-FINDER")
  {
  }
}
