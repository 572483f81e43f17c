/** process_msfinder_summary (script/msfinder_summary.py): the MS-FINDER
    formula result tables become the top-n MS-FINDER rows of the formula
    score table and a formula pivot by (filename, adduct) and rank. */
module MsfinderSummary {
  import opened Wrappers
  import opened Text
  import opened Decimal
  import opened Candidates
  import opened StrucDataType

  /** The formula pivot (merged into the summary table by the caller's
      table, not modelled) and the score table with the MS-FINDER rows
      appended. */
  datatype Output = Output(formulas: map<(string, string), map<int, string>>, scoreTable: seq<ScoreRow>)

  /** The pivot keeps only ranks up to this. */
  const PivotRanks := 5

  /** `File name` up to its first '.', then the text after its last '_'. */
  function FilenameOf(ident: string): (name: string)
    ensures '_' !in name
  {
    LastPiece(BeforeFirst(ident, '.'), '_')
  }

  function FilenamesOf(rows: seq<(ResultFile, Hit)>): (names: seq<string>)
    ensures |names| == |rows|
    ensures forall i :: 0 <= i < |rows| ==> names[i] == FilenameOf(rows[i].1.ident)
  {
    seq(|rows|, i requires 0 <= i < |rows| => FilenameOf(rows[i].1.ident))
  }

  /** The `File name` column the ranks are counted by. */
  function Idents(rows: seq<(ResultFile, Hit)>): (ids: seq<string>)
    ensures |ids| == |rows|
    ensures forall i :: 0 <= i < |rows| ==> ids[i] == rows[i].1.ident
  {
    seq(|rows|, i requires 0 <= i < |rows| => rows[i].1.ident)
  }

  /** Ranks and score differences per `File name`, head(n) per derived
      filename. */
  function Table(files: seq<ResultFile>, topN: nat): (t: Ranked)
    ensures t.Valid() && |t.names| == |Combined(files)|
    ensures t.names == FilenamesOf(Combined(files))
    ensures t.ranks == GroupRanks(Idents(Combined(files)))
    ensures t.kept == HeadIndices(t.names, topN)
  {
    var rows := Combined(files);
    RankRows(FilenamesOf(rows), Idents(rows), ScoresIn(rows, ScoreColumn(files, "Score", "Formula score")), topN)
  }

  /** Every kept row's rank lies between 1 and topN, though it is counted
      per `File name` rather than per filename. */
  lemma KeptRanksWithinTopN(files: seq<ResultFile>, topN: nat)
    ensures var t := Table(files, topN);
      forall j :: 0 <= j < |t.kept| ==> 1 <= t.ranks[t.kept[j]] <= topN
  {
    var t := Table(files, topN);
    var ids := Idents(Combined(files));
    forall j | 0 <= j < |t.kept| ensures 1 <= t.ranks[t.kept[j]] <= topN {
      assert t.kept[j] in HeadIndices(t.names, topN);
      FinerRanksWithinHead(t.names, ids, topN, t.kept[j]);
    }
  }

  /** The MS-FINDER rows appended to the score table; normalize_rank_score
      takes the natural logarithm as the parameter ln. */
  function AddedScoreRows(files: seq<ResultFile>, topN: nat, nameAdduct: map<string, string>,
                          scorePipe: real -> real, diffPipe: real -> real, ln: real -> real): (rows: seq<ScoreRow>)
    requires LogLike(ln)
    ensures |rows| == |Table(files, topN).kept|
  {
    var t := Table(files, topN);
    var kr := Pick(t.ranks, t.kept);
    KeptRanksWithinTopN(files, topN);
    assert kr != [] ==> MaxOf(kr) >= kr[0] >= 1;
    ScoreRowsOf(t, Filled(Smiles(Combined(files))), nameAdduct, scorePipe, diffPipe, "msfinder",
                Some("MS-FINDER_Rank:"), NormalizeRankScore(kr, ln))
  }

  /** The pivot cells ((filename, adduct), rank, formula) of the kept rows
      whose rank is at most 5, after `fillna('')`. */
  function TopCells(t: Ranked, idx: seq<nat>, adducts: seq<string>, formulas: seq<string>): (cells: seq<((string, string), int, string)>)
    requires t.Valid() && |adducts| == |t.names| && |formulas| == |t.names|
    requires forall j :: 0 <= j < |idx| ==> idx[j] < |t.names|
    ensures |cells| <= |idx|
    ensures forall c :: c in cells <==>
      exists j :: 0 <= j < |idx| && t.ranks[idx[j]] <= PivotRanks
        && c == ((t.names[idx[j]], adducts[idx[j]]), t.ranks[idx[j]], formulas[idx[j]])
  {
    if idx == [] then []
    else
      var i := idx[0];
      (if t.ranks[i] <= PivotRanks then [((t.names[i], adducts[i]), t.ranks[i], formulas[i])] else [])
      + TopCells(t, idx[1..], adducts, formulas)
  }

  function Adducts(rows: seq<(ResultFile, Hit)>): (cs: seq<Option<string>>)
    ensures |cs| == |rows|
  {
    seq(|rows|, i requires 0 <= i < |rows| => rows[i].1.adduct)
  }

  function PivotCells(files: seq<ResultFile>, topN: nat): seq<((string, string), int, string)> {
    var t := Table(files, topN);
    var rows := Combined(files);
    TopCells(t, t.kept, TextColumn(Adducts(rows)), TextColumn(Smiles(rows)))
  }

  /** The columns process_msfinder_summary selects, in the order it
      selects them: `File name`, the score column, then `Precursor type`
      and `Formula` (renamed to `adduct` and `formula` before they are
      selected). */
  function SelectedColumns(files: seq<ResultFile>): seq<string> {
    ["File name", ScoreColumn(files, "Score", "Formula score"), "Precursor type", "Formula"]
  }

  /** What process_msfinder_summary returns: no matching file raises
      FileNotFoundError, a file that cannot be read raises, a selected
      column that no file has raises KeyError, a pivot cell given twice
      raises ValueError; otherwise the pivot and the score table with the
      MS-FINDER rows appended. */
  function MsfinderSummaryOutput(pattern: string, files: seq<ResultFile>, topN: nat, nameAdduct: map<string, string>,
                                 scorePipe: real -> real, diffPipe: real -> real, ln: real -> real,
                                 scoreTable: seq<ScoreRow>): (r: Result<Output>)
    requires LogLike(ln)
    ensures files == [] ==> r == Err(FileNotFoundError("No files found matching pattern: " + pattern))
    ensures files != [] && (exists i :: 0 <= i < |files| && files[i].rows.None?) ==> r.Err? && r.error.ReadError?
    ensures files != [] && AllReadable(files) && MissingColumn(files, SelectedColumns(files)).Some? ==>
      r == Err(KeyError(MissingColumn(files, SelectedColumns(files)).value))
    ensures files != [] && AllReadable(files) && MissingColumn(files, SelectedColumns(files)).None? ==>
      (r.Ok? <==> DistinctCells(PivotCells(files, topN)))
      && (r.Err? ==> r.error == ValueError("Index contains duplicate entries, cannot reshape"))
    ensures r.Ok? ==> DistinctCells(PivotCells(files, topN)) && r.value.formulas == PivotMap(PivotCells(files, topN))
    ensures r.Ok? ==> r.value.scoreTable == scoreTable + AddedScoreRows(files, topN, nameAdduct, scorePipe, diffPipe, ln)
  {
    if files == [] then Err(FileNotFoundError("No files found matching pattern: " + pattern))
    else
      match ReadAll(files)
      case Err(e) => Err(e)
      case Ok(_) =>
        match MissingColumn(files, SelectedColumns(files))
        case Some(c) => Err(KeyError(c))
        case None =>
          match Pivot(PivotCells(files, topN))
          case Err(e) => Err(e)
          case Ok(formulaPivot) =>
            Ok(Output(formulaPivot, scoreTable + AddedScoreRows(files, topN, nameAdduct, scorePipe, diffPipe, ln)))
  }

  method ProcessMsfinderSummary(pattern: string, files: seq<ResultFile>, topN: nat, nameAdduct: map<string, string>,
                                scorePipe: real -> real, diffPipe: real -> real, ln: real -> real,
                                scoreTable: seq<ScoreRow>) returns (r: Result<Output>)
    requires LogLike(ln)
    ensures r == MsfinderSummaryOutput(pattern, files, topN, nameAdduct, scorePipe, diffPipe, ln, scoreTable)
  {
    if files == [] {
      return Err(FileNotFoundError("No files found matching pattern: " + pattern));
    }
    var read := ReadEvery(files);
    if read.Err? {
      return Err(read.error);
    }
    var missing := MissingColumn(files, SelectedColumns(files));
    if missing.Some? {
      return Err(KeyError(missing.value));
    }
    var rows := read.value;
    var t := RankTable(FilenamesOf(rows), Idents(rows), ScoresIn(rows, ScoreColumn(files, "Score", "Formula score")), topN);
    assert t == Table(files, topN);
    var kr := Pick(t.ranks, t.kept);
    KeptRanksWithinTopN(files, topN);
    assert kr != [] ==> MaxOf(kr) >= kr[0] >= 1;
    var scoreRows := ScoreRowsOf(t, Filled(Smiles(rows)), nameAdduct, scorePipe, diffPipe, "msfinder",
                                 Some("MS-FINDER_Rank:"), NormalizeRankScore(kr, ln));
    var cells := TopCells(t, t.kept, TextColumn(Adducts(rows)), TextColumn(Smiles(rows)));
    assert cells == PivotCells(files, topN);
    assert scoreRows == AddedScoreRows(files, topN, nameAdduct, scorePipe, diffPipe, ln);
    var pivot := Pivot(cells);
    if pivot.Err? {
      return Err(pivot.error);
    }
    r := Ok(Output(pivot.value, scoreTable + scoreRows));
  }

  /** The MS-FINDER formula rows: at most topN per filename and at least one
      for every filename read, each tagged "msfinder" with Used_tools
      `MS-FINDER_Rank:{rank}`, its adduct from the name/adduct table and a
      rank between 1 and topN. */
  lemma MsfinderSummaryScoreRows(files: seq<ResultFile>, topN: nat, nameAdduct: map<string, string>,
                                 scorePipe: real -> real, diffPipe: real -> real, ln: real -> real, x: string)
    requires LogLike(ln)
    ensures var t := Table(files, topN);
      var added := AddedScoreRows(files, topN, nameAdduct, scorePipe, diffPipe, ln);
      (forall j :: 0 <= j < |added| ==> TaggedRow(t, added, nameAdduct, "msfinder", Some("MS-FINDER_Rank:"), topN, j))
      && CountIn(Pick(t.names, t.kept), x) == Min(topN, CountIn(t.names, x))
  {
    var t := Table(files, topN);
    var kr := Pick(t.ranks, t.kept);
    KeptRanksWithinTopN(files, topN);
    assert kr != [] ==> MaxOf(kr) >= kr[0] >= 1;
    KeptScoreRows(t, AddedScoreRows(files, topN, nameAdduct, scorePipe, diffPipe, ln),
                  Filled(Smiles(Combined(files))), nameAdduct, scorePipe, diffPipe, "msfinder",
                  Some("MS-FINDER_Rank:"), NormalizeRankScore(kr, ln), topN, x);
  }


  /** The formula pivot of a successful summary: every kept row of rank at
      most 5 has its `fillna('')` formula at its (filename, `fillna('')`
      adduct) row and rank column, and every row of the pivot is the
      (filename, adduct) of such a kept row. */
  lemma MsfinderSummaryPivot(pattern: string, files: seq<ResultFile>, topN: nat, nameAdduct: map<string, string>,
                             scorePipe: real -> real, diffPipe: real -> real, ln: real -> real, scoreTable: seq<ScoreRow>)
    requires LogLike(ln)
    requires MsfinderSummaryOutput(pattern, files, topN, nameAdduct, scorePipe, diffPipe, ln, scoreTable).Ok?
    ensures var t := Table(files, topN);
      TopPivot(t, t.kept, TextColumn(Adducts(Combined(files))), TextColumn(Smiles(Combined(files))),
               MsfinderSummaryOutput(pattern, files, topN, nameAdduct, scorePipe, diffPipe, ln, scoreTable).value.formulas)
  {
    var t := Table(files, topN);
    var adducts := TextColumn(Adducts(Combined(files)));
    var texts := TextColumn(Smiles(Combined(files)));
    assert PivotCells(files, topN) == TopCells(t, t.kept, adducts, texts);
    TopCellsPivot(t, t.kept, adducts, texts);
  }

  /** The pivot of the kept rows idx: each of rank at most 5 has its formula
      at its (filename, adduct) row and rank column, and the pivot's rows are
      exactly the (filename, adduct) pairs of those rows. */
  ghost predicate TopPivot(t: Ranked, idx: seq<nat>, adducts: seq<string>, formulas: seq<string>,
                           pivot: map<(string, string), map<int, string>>)
    requires t.Valid() && |adducts| == |t.names| && |formulas| == |t.names|
    requires forall j :: 0 <= j < |idx| ==> idx[j] < |t.names|
  {
    (forall j :: 0 <= j < |idx| && t.ranks[idx[j]] <= PivotRanks ==>
       var key := (t.names[idx[j]], adducts[idx[j]]);
       key in pivot && t.ranks[idx[j]] in pivot[key] && pivot[key][t.ranks[idx[j]]] == formulas[idx[j]])
    && (forall key :: key in pivot <==>
          exists j :: 0 <= j < |idx| && t.ranks[idx[j]] <= PivotRanks && key == (t.names[idx[j]], adducts[idx[j]]))
  }

  lemma TopCellsPivot(t: Ranked, idx: seq<nat>, adducts: seq<string>, formulas: seq<string>)
    requires t.Valid() && |adducts| == |t.names| && |formulas| == |t.names|
    requires forall j :: 0 <= j < |idx| ==> idx[j] < |t.names|
    requires DistinctCells(TopCells(t, idx, adducts, formulas))
    ensures TopPivot(t, idx, adducts, formulas, PivotMap(TopCells(t, idx, adducts, formulas)))
  {
    var cells := TopCells(t, idx, adducts, formulas);
    PivotMapSpec(cells);
    forall j | 0 <= j < |idx| && t.ranks[idx[j]] <= PivotRanks
      ensures var key := (t.names[idx[j]], adducts[idx[j]]);
        key in PivotMap(cells) && t.ranks[idx[j]] in PivotMap(cells)[key]
        && PivotMap(cells)[key][t.ranks[idx[j]]] == formulas[idx[j]]
    {
      var c := ((t.names[idx[j]], adducts[idx[j]]), t.ranks[idx[j]], formulas[idx[j]]);
      assert c in cells;
      var k :| 0 <= k < |cells| && cells[k] == c;
    }
    TopCellsKeys(t, idx, adducts, formulas);
  }

  /** The index values of the cells are the (filename, adduct) pairs of the
      rows of rank at most 5. */
  lemma TopCellsKeys(t: Ranked, idx: seq<nat>, adducts: seq<string>, formulas: seq<string>)
    requires t.Valid() && |adducts| == |t.names| && |formulas| == |t.names|
    requires forall j :: 0 <= j < |idx| ==> idx[j] < |t.names|
    ensures forall key :: key in IndexKeys(TopCells(t, idx, adducts, formulas)) <==>
      exists j :: 0 <= j < |idx| && t.ranks[idx[j]] <= PivotRanks && key == (t.names[idx[j]], adducts[idx[j]])
  {
    var cells := TopCells(t, idx, adducts, formulas);
    forall key ensures key in IndexKeys(cells) <==>
      exists j :: 0 <= j < |idx| && t.ranks[idx[j]] <= PivotRanks && key == (t.names[idx[j]], adducts[idx[j]])
    {
      if key in IndexKeys(cells) {
        var c :| c in cells && c.0 == key;
      }
      if exists j :: 0 <= j < |idx| && t.ranks[idx[j]] <= PivotRanks && key == (t.names[idx[j]], adducts[idx[j]]) {
        var j :| 0 <= j < |idx| && t.ranks[idx[j]] <= PivotRanks && key == (t.names[idx[j]], adducts[idx[j]]);
        var c := ((t.names[idx[j]], adducts[idx[j]]), t.ranks[idx[j]], formulas[idx[j]]);
        assert c in cells;
      }
    }
  }

  /** normalize_rank_score gives every kept rank-1 row exactly 1. */
  lemma MsfinderSummaryRankOne(files: seq<ResultFile>, topN: nat, nameAdduct: map<string, string>,
                               scorePipe: real -> real, diffPipe: real -> real, ln: real -> real)
    requires LogLike(ln)
    ensures var added := AddedScoreRows(files, topN, nameAdduct, scorePipe, diffPipe, ln);
      forall j :: 0 <= j < |added| && added[j].rank == Some(1) ==> added[j].normalizedRank == Some(1.0)
  {
    var t := Table(files, topN);
    var kr := Pick(t.ranks, t.kept);
    KeptRanksWithinTopN(files, topN);
    assert kr != [] ==> MaxOf(kr) >= kr[0] >= 1;
    ScoreRowsOfShape(t, Filled(Smiles(Combined(files))), nameAdduct, scorePipe, diffPipe, "msfinder",
                     Some("MS-FINDER_Rank:"), NormalizeRankScore(kr, ln));
    forall j | 0 <= j < |kr| && kr[j] == 1 ensures NormalizeRankScore(kr, ln)[j] == 1.0 {
      NormalizeRankScoreTop(kr, ln, j);
    }
  }

  lemma FilenameOfDotted()
    ensures FilenameOf("x") == "x" && FilenameOf("x.1") == "x"
  {
    var r := BeforeFirst("x.1", '.');
    assert "x.1"[1] == '.';
    assert "x.1" == r + ['.'] + AfterFirst("x.1", '.');
  }

  /** The two rows of the example below: one `File name` and the same name
      with a suffix after a '.', same adduct. */
  function ExampleFiles(): seq<ResultFile> {
    [ResultFile("msfinder", "Formula result.txt", {"File name", "Score", "Precursor type", "Formula"},
                Some([Hit("x", Some("[M+H]+"), Some("C6H12O6"), None, map["Score" := 1.0], 0),
                      Hit("x.1", Some("[M+H]+"), Some("C6H12O6"), None, map["Score" := 2.0], 0)]))]
  }

  lemma ExampleColumns()
    ensures var rows := Combined(ExampleFiles());
      FilenamesOf(rows) == ["x", "x"] && Idents(rows) == ["x", "x.1"]
      && TextColumn(Adducts(rows)) == ["[M+H]+", "[M+H]+"]
  {
    var files := ExampleFiles();
    assert files[..0] == [];
    var rows := Combined(files);
    assert rows == RowsOf(files[0]);
    FilenameOfDotted();
  }

  lemma ExampleRanks()
    ensures GroupRanks(["x", "x.1"]) == [1, 1] && HeadIndices(["x", "x"], 5) == [0, 1]
  {
    var ids := ["x", "x.1"];
    assert ids[..1] == ["x"];
    var names := ["x", "x"];
    assert names[..1] == ["x"];
    assert names[..1][..0] == [];
    assert CountIn(["x"], "x") == 1;
    assert GroupRank(names, 1) == 2;
    assert HeadIndices(names[..1], 5) == [0];
  }

  lemma ExampleTable()
    ensures var t := Table(ExampleFiles(), 5);
      t.names == ["x", "x"] && t.ranks == [1, 1] && t.kept == [0, 1]
  {
    ExampleColumns();
    ExampleRanks();
  }

  /** Two `File name`s that differ only after the first '.' share a
      filename but are ranked separately, so both rank-1 rows land in the
      same pivot cell and the pivot raises ValueError. */
  lemma SharedFilenameBreaksPivot(scorePipe: real -> real, diffPipe: real -> real, ln: real -> real)
    requires LogLike(ln)
    ensures MsfinderSummaryOutput("*.txt", ExampleFiles(), 5, map[], scorePipe, diffPipe, ln, [])
      == Err(ValueError("Index contains duplicate entries, cannot reshape"))
  {
    var files := ExampleFiles();
    assert forall i :: 0 <= i < |files| ==> files[i].rows.Some? by {
      assert |files| == 1 && files[0].rows.Some?;
    }
    assert MissingColumn(files, SelectedColumns(files)).None? by {
      var columns := files[0].columns;
      assert files[0].rows.Some?;
      assert "File name" in columns && "Score" in columns && "Precursor type" in columns && "Formula" in columns;
      assert HasColumn(files, "Score");
      assert SelectedColumns(files) == ["File name", "Score", "Precursor type", "Formula"];
    }
    ExampleCellsClash();
    PivotClash("*.txt", files, 5, map[], scorePipe, diffPipe, ln, []);
  }

  /** Whenever every file was read and has the columns selected, but two
      rows fall into one pivot cell, the summary raises pandas' ValueError. */
  lemma PivotClash(pattern: string, files: seq<ResultFile>, topN: nat, nameAdduct: map<string, string>,
                   scorePipe: real -> real, diffPipe: real -> real, ln: real -> real, scoreTable: seq<ScoreRow>)
    requires LogLike(ln)
    requires files != [] && forall i :: 0 <= i < |files| ==> files[i].rows.Some?
    requires MissingColumn(files, SelectedColumns(files)).None?
    requires !DistinctCells(PivotCells(files, topN))
    ensures MsfinderSummaryOutput(pattern, files, topN, nameAdduct, scorePipe, diffPipe, ln, scoreTable)
      == Err(ValueError("Index contains duplicate entries, cannot reshape"))
  {
  }

  lemma ExampleCellsClash()
    ensures !DistinctCells(PivotCells(ExampleFiles(), 5))
  {
    ExampleTable();
    ExampleColumns();
    var files := ExampleFiles();
    var t := Table(files, 5);
    var rows := Combined(files);
    TwinCellsClash(t, TextColumn(Adducts(rows)), TextColumn(Smiles(rows)));
  }

  /** Two rank-1 rows with the same filename and adduct give two cells for
      one pivot position. */
  lemma TwinCellsClash(t: Ranked, adducts: seq<string>, formulas: seq<string>)
    requires t.Valid() && t.names == ["x", "x"] && t.ranks == [1, 1] && t.kept == [0, 1]
    requires |adducts| == 2 && |formulas| == 2 && adducts[0] == adducts[1]
    ensures !DistinctCells(TopCells(t, t.kept, adducts, formulas))
  {
    var c0 := (("x", adducts[0]), 1, formulas[0]);
    var c1 := (("x", adducts[1]), 1, formulas[1]);
    var idx: seq<nat> := [1];
    assert idx[1..] == [];
    assert TopCells(t, idx, adducts, formulas) == [c1];
    assert t.kept[1..] == idx;
    var cells := TopCells(t, t.kept, adducts, formulas);
    assert cells == [c0] + [c1];
    assert (cells[0].0, cells[0].1) == (cells[1].0, cells[1].1);
  }
}
