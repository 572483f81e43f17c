/** process_buddy_summary (script/msbuddy_summary.py): the msbuddy
    `detailed_summary_*.csv` tables become the msbuddy rows of the formula
    score table, filtered by msbuddy's own rank, and a formula pivot by
    filename and rank. */
module MsbuddySummary {
  import opened Wrappers
  import opened Text
  import opened Decimal
  import opened Candidates
  import opened StrucDataType

  /** The formula pivot (merged into the summary table by the caller's
      table, not modelled) and the score table with the msbuddy rows
      appended, or both inputs unchanged. */
  datatype Output =
    | Unchanged
    | Updated(formulas: map<string, map<int, string>>, scoreTable: seq<ScoreRow>)

  /** `Scan_ID` as text. */
  function FilenamesOf(rows: seq<(ResultFile, Hit)>): (names: seq<string>)
    ensures |names| == |rows|
  {
    seq(|rows|, i requires 0 <= i < |rows| => rows[i].1.ident)
  }

  /** msbuddy's own `Rank` column. */
  function ToolRanks(rows: seq<(ResultFile, Hit)>): (ranks: seq<int>)
    ensures |ranks| == |rows|
  {
    seq(|rows|, i requires 0 <= i < |rows| => rows[i].1.toolRank)
  }

  /** `Estimated_FDR_2`: one minus the estimated false discovery rate. */
  function Scores(rows: seq<(ResultFile, Hit)>): (scores: seq<Option<real>>)
    ensures |scores| == |rows|
    ensures forall i :: 0 <= i < |rows| ==>
      if "Estimated_FDR" in rows[i].1.scores then scores[i] == Some(1.0 - rows[i].1.scores["Estimated_FDR"])
      else scores[i].None?
  {
    seq(|rows|, i requires 0 <= i < |rows| =>
      if "Estimated_FDR" in rows[i].1.scores then Some(1.0 - rows[i].1.scores["Estimated_FDR"]) else None)
  }

  /** `df[df["Rank"] <= top_n]`: the indices of the rows whose own rank is
      at most topN, in table order. */
  function RankFilter(ranks: seq<int>, topN: int): (idx: seq<nat>)
    ensures forall j :: 0 <= j < |idx| ==> idx[j] < |ranks|
  {
    if ranks == [] then []
    else
      var n := |ranks| - 1;
      RankFilter(ranks[..n], topN) + (if ranks[n] <= topN then [n] else [])
  }

  method FilterByRank(ranks: seq<int>, topN: int) returns (idx: seq<nat>)
    ensures idx == RankFilter(ranks, topN)
  {
    idx := [];
    for i := 0 to |ranks|
      invariant idx == RankFilter(ranks[..i], topN)
    {
      assert ranks[..i + 1][..i] == ranks[..i];
      if ranks[i] <= topN {
        idx := idx + [i];
      }
    }
    assert ranks[..|ranks|] == ranks;
  }

  /** A row is kept exactly when its own rank is at most topN, whatever its
      position in its filename group; kept rows stay in table order. */
  lemma {:induction false} RankFilterSpec(ranks: seq<int>, topN: int)
    ensures var idx := RankFilter(ranks, topN);
      (forall j, l :: 0 <= j < l < |idx| ==> idx[j] < idx[l])
      && (forall i :: 0 <= i < |ranks| ==> (i in idx <==> ranks[i] <= topN))
  {
    if ranks != [] {
      var n := |ranks| - 1;
      RankFilterSpec(ranks[..n], topN);
      forall i | 0 <= i < n ensures ranks[..n][i] == ranks[i] {
      }
    }
  }

  /** Score differences over msbuddy's own ranks, rows kept by that rank. */
  function Table(rows: seq<(ResultFile, Hit)>, topN: int): (t: Ranked)
    ensures t.Valid() && |t.names| == |rows|
  {
    var ranks := ToolRanks(rows);
    var scores := Scores(rows);
    Ranked(FilenamesOf(rows), ranks, scores, ScoreDiffs(ranks, scores), RankFilter(ranks, topN))
  }

  function AddedScoreRows(rows: seq<(ResultFile, Hit)>, topN: int, nameAdduct: map<string, string>,
                          scorePipe: real -> real, diffPipe: real -> real): (added: seq<ScoreRow>)
    ensures |added| == |Table(rows, topN).kept|
  {
    var t := Table(rows, topN);
    ScoreRowsOf(t, Smiles(rows), nameAdduct, scorePipe, diffPipe, "buddy", Some("msbuddy_Rank:"),
                NormalizeRankN(Pick(t.ranks, t.kept)))
  }

  /** The formula column after `astype(str)`: NaN reads "nan". */
  function FormulaTexts(rows: seq<(ResultFile, Hit)>): (texts: seq<string>)
    ensures |texts| == |rows|
  {
    seq(|rows|, i requires 0 <= i < |rows| => TextOf(rows[i].1.candidate))
  }

  // ---------------------------------------------------------------------------
  // drop_duplicates(subset=["filename", "rank"])

  predicate HasCell(cells: seq<(string, int, string)>, key: string, rank: int) {
    exists c :: c in cells && c.0 == key && c.1 == rank
  }

  /** The cells with every later repeat of a (filename, rank) pair removed. */
  function FirstCells(cells: seq<(string, int, string)>): (r: seq<(string, int, string)>)
    ensures forall c :: c in r ==> c in cells
  {
    if cells == [] then []
    else
      var n := |cells| - 1;
      var d := FirstCells(cells[..n]);
      if HasCell(d, cells[n].0, cells[n].1) then d else d + [cells[n]]
  }

  method DropDuplicates(cells: seq<(string, int, string)>) returns (r: seq<(string, int, string)>)
    ensures r == FirstCells(cells)
  {
    r := [];
    var seen: set<(string, int)> := {};
    for i := 0 to |cells|
      invariant r == FirstCells(cells[..i])
      invariant forall key, rank :: (key, rank) in seen <==> HasCell(r, key, rank)
    {
      assert cells[..i + 1][..i] == cells[..i];
      var c := cells[i];
      if (c.0, c.1) !in seen {
        r := r + [c];
        seen := seen + {(c.0, c.1)};
        assert HasCell(r, c.0, c.1) by {
          assert c in r;
        }
      }
    }
    assert cells[..|cells|] == cells;
  }

  /** After dropping repeats no (filename, rank) pair is left twice, so the
      pivot never raises. */
  lemma {:induction false} FirstCellsDistinct(cells: seq<(string, int, string)>)
    ensures DistinctCells(FirstCells(cells))
  {
    if cells != [] {
      var n := |cells| - 1;
      FirstCellsDistinct(cells[..n]);
      var d := FirstCells(cells[..n]);
      if !HasCell(d, cells[n].0, cells[n].1) {
        var r := d + [cells[n]];
        forall i, j | 0 <= i < j < |r| ensures (r[i].0, r[i].1) != (r[j].0, r[j].1) {
          if j == |d| {
            assert r[i] in d;
          }
        }
      }
    }
  }

  /** Each (filename, rank) pair of the cells survives, with the value of its
      first occurrence. */
  lemma {:induction false} FirstCellsKeepFirst(cells: seq<(string, int, string)>, i: nat)
    requires i < |cells|
    requires forall j :: 0 <= j < i ==> (cells[j].0, cells[j].1) != (cells[i].0, cells[i].1)
    ensures cells[i] in FirstCells(cells)
  {
    var n := |cells| - 1;
    var d := FirstCells(cells[..n]);
    if i < n {
      FirstCellsKeepFirst(cells[..n], i);
    }
  }

  // ---------------------------------------------------------------------------
  // process_buddy_summary

  /** The columns the code selects, in the order it reads them. */
  function SelectedColumns(): seq<string> {
    ["Scan_ID", "Estimated_FDR", "Rank", "Formula"]
  }

  /** No row of the table has an own rank of at most topN. */
  predicate NoneKept(rows: seq<(ResultFile, Hit)>, topN: int) {
    forall i :: 0 <= i < |rows| ==> rows[i].1.toolRank > topN
  }

  /** What process_buddy_summary returns. No result file leaves both tables
      as they were; otherwise, in the order the code meets them: a file that
      cannot be read raises; a selected column that no file has raises
      KeyError; no row of own rank at most topN raises ValueError when the
      ranks are scaled; and otherwise the pivot of the first cell per
      (filename, rank), which never raises, and the score table with the
      msbuddy rows appended. */
  function BuddyOutput(files: seq<ResultFile>, topN: int, nameAdduct: map<string, string>,
                       scorePipe: real -> real, diffPipe: real -> real,
                       scoreTable: seq<ScoreRow>): (r: Result<Output>)
    ensures files == [] ==> r == Ok(Unchanged)
    ensures files != [] && !AllReadable(files) ==> r.Err? && r.error.ReadError?
    ensures files != [] && AllReadable(files) && MissingColumn(files, SelectedColumns()).Some? ==>
      r == Err(KeyError(MissingColumn(files, SelectedColumns()).value))
    ensures files != [] && AllReadable(files) && MissingColumn(files, SelectedColumns()).None? ==>
      (r.Err? <==> NoneKept(Combined(files), topN)) && (r.Err? ==> r.error == NoSamples)
    ensures r.Ok? && files != [] ==>
      var rows := Combined(files);
      var t := Table(rows, topN);
      r.value == Updated(PivotMap(FirstCells(Cells(t, FormulaTexts(rows)))),
                         scoreTable + AddedScoreRows(rows, topN, nameAdduct, scorePipe, diffPipe))
  {
    if files == [] then Ok(Unchanged)
    else
      match ReadAll(files)
      case Err(e) => Err(e)
      case Ok(rows) =>
        match MissingColumn(files, SelectedColumns())
        case Some(c) => Err(KeyError(c))
        case None =>
          var t := Table(rows, topN);
          KeptIffRanked(rows, topN);
          match FitMinMax(Pick(t.ranks, t.kept))
          case Err(e) => Err(e)
          case Ok(_) =>
            var cells := FirstCells(Cells(t, FormulaTexts(rows)));
            FirstCellsDistinct(Cells(t, FormulaTexts(rows)));
            match Pivot(cells)
            case Err(e) => Err(e)
            case Ok(formulaPivot) =>
              Ok(Updated(formulaPivot, scoreTable + AddedScoreRows(rows, topN, nameAdduct, scorePipe, diffPipe)))
  }

  /** The kept rows are empty exactly when no row has an own rank of at
      most topN. */
  lemma KeptIffRanked(rows: seq<(ResultFile, Hit)>, topN: int)
    ensures Table(rows, topN).kept == [] <==> NoneKept(rows, topN)
  {
    var t := Table(rows, topN);
    RankFilterSpec(t.ranks, topN);
    if t.kept != [] {
      assert t.kept[0] in t.kept;
    } else {
      forall i | 0 <= i < |rows| ensures rows[i].1.toolRank > topN {
        assert i !in t.kept;
      }
    }
  }

  method ProcessBuddySummary(files: seq<ResultFile>, topN: int, nameAdduct: map<string, string>,
                             scorePipe: real -> real, diffPipe: real -> real,
                             scoreTable: seq<ScoreRow>) returns (r: Result<Output>)
    ensures r == BuddyOutput(files, topN, nameAdduct, scorePipe, diffPipe, scoreTable)
  {
    if files == [] {
      return Ok(Unchanged);
    }
    var read := ReadEvery(files);
    if read.Err? {
      return Err(read.error);
    }
    var rows := read.value;
    var missing := MissingColumn(files, SelectedColumns());
    if missing.Some? {
      return Err(KeyError(missing.value));
    }
    var ranks := ToolRanks(rows);
    var scores := Scores(rows);
    var diffs := ScoreDifferences(ranks, scores);
    var kept := FilterByRank(ranks, topN);
    var t := Ranked(FilenamesOf(rows), ranks, scores, diffs, kept);
    var scaled := FitMinMax(Pick(t.ranks, t.kept));
    if scaled.Err? {
      return Err(scaled.error);
    }
    var scoreRows := ScoreRowsOf(t, Smiles(rows), nameAdduct, scorePipe, diffPipe, "buddy", Some("msbuddy_Rank:"),
                                 NormalizeRankN(Pick(t.ranks, t.kept)));
    var cells := DropDuplicates(Cells(t, FormulaTexts(rows)));
    FirstCellsDistinct(Cells(t, FormulaTexts(rows)));
    r := Ok(Updated(PivotMap(cells), scoreTable + scoreRows));
  }

  /** The msbuddy score rows: exactly the rows whose own rank is at most
      topN are kept, and each is tagged "buddy" with Used_tools
      `msbuddy_Rank:{rank}`, its adduct from the name/adduct table and its
      Scan_ID as filename. */
  lemma BuddyKeptRows(rows: seq<(ResultFile, Hit)>, topN: int)
    ensures var t := Table(rows, topN);
      (forall i :: 0 <= i < |rows| ==> (i in t.kept <==> rows[i].1.toolRank <= topN))
      && (forall j :: 0 <= j < |t.kept| ==> t.ranks[t.kept[j]] <= topN)
  {
    var t := Table(rows, topN);
    RankFilterSpec(t.ranks, topN);
    forall j | 0 <= j < |t.kept| ensures t.ranks[t.kept[j]] <= topN {
      assert t.kept[j] in t.kept;
    }
  }

  lemma BuddyScoreRows(rows: seq<(ResultFile, Hit)>, topN: int, nameAdduct: map<string, string>,
                       scorePipe: real -> real, diffPipe: real -> real)
    ensures var t := Table(rows, topN);
      var added := AddedScoreRows(rows, topN, nameAdduct, scorePipe, diffPipe);
      forall j :: 0 <= j < |added| ==>
        added[j].toolName == Some("buddy")
        && added[j].filename == Some(rows[t.kept[j]].1.ident)
        && added[j].adduct == AdductOf(nameAdduct, rows[t.kept[j]].1.ident)
        && added[j].rank == Some(rows[t.kept[j]].1.toolRank) && added[j].rank.value <= topN
        && added[j].usedTools == Some("msbuddy_Rank:" + IntToString(added[j].rank.value))
  {
    var t := Table(rows, topN);
    BuddyKeptRows(rows, topN);
    ScoreRowsOfShape(t, Smiles(rows), nameAdduct, scorePipe, diffPipe, "buddy", Some("msbuddy_Rank:"),
                     NormalizeRankN(Pick(t.ranks, t.kept)));
  }

  /** msbuddy uses normalize_rank_n over its own ranks: the best kept rank
      normalises to 1 and a worse rank to a smaller value. */
  lemma BuddyNormalizedRank(rows: seq<(ResultFile, Hit)>, topN: int, nameAdduct: map<string, string>,
                            scorePipe: real -> real, diffPipe: real -> real)
    ensures var added := AddedScoreRows(rows, topN, nameAdduct, scorePipe, diffPipe);
      (forall j :: 0 <= j < |added| && added[j].rank.value == MinOf(Pick(ToolRanks(rows), Table(rows, topN).kept)) ==>
          added[j].normalizedRank == Some(1.0))
      && (forall j, l :: 0 <= j < |added| && 0 <= l < |added| && added[j].rank.value < added[l].rank.value ==>
            added[j].normalizedRank.value > added[l].normalizedRank.value)
  {
    var t := Table(rows, topN);
    var picked := Pick(t.ranks, t.kept);
    ScoreRowsOfShape(t, Smiles(rows), nameAdduct, scorePipe, diffPipe, "buddy", Some("msbuddy_Rank:"),
                     NormalizeRankN(picked));
    NormalizeRankNDecreasing(picked);
  }

  /** The score is 1 - Estimated_FDR, and the score difference is taken
      only towards a next row whose own rank is one more. */
  lemma BuddyScoreDiffs(rows: seq<(ResultFile, Hit)>, topN: int, i: nat)
    requires i < |rows|
    ensures var t := Table(rows, topN);
      t.diffs[i] != 0.0 ==>
        i + 1 < |rows| && rows[i + 1].1.toolRank == rows[i].1.toolRank + 1
        && t.diffs[i] == (1.0 - rows[i].1.scores["Estimated_FDR"]) - (1.0 - rows[i + 1].1.scores["Estimated_FDR"])
  {
  }

  /** Every (filename, rank) pair of the kept rows appears in the pivot with
      the formula of its first row. */
  lemma BuddyPivotFirst(rows: seq<(ResultFile, Hit)>, topN: int, j: nat)
    requires j < |Table(rows, topN).kept|
    requires var t := Table(rows, topN);
      forall l :: 0 <= l < j ==>
        (t.names[t.kept[l]], t.ranks[t.kept[l]]) != (t.names[t.kept[j]], t.ranks[t.kept[j]])
    ensures var t := Table(rows, topN);
      var i := t.kept[j];
      var pivot := PivotMap(FirstCells(Cells(t, FormulaTexts(rows))));
      t.names[i] in pivot && t.ranks[i] in pivot[t.names[i]]
      && pivot[t.names[i]][t.ranks[i]] == FormulaTexts(rows)[i]
  {
    var t := Table(rows, topN);
    var cells := Cells(t, FormulaTexts(rows));
    FirstCellsKeepFirst(cells, j);
    FirstCellsDistinct(cells);
    var firsts := FirstCells(cells);
    PivotMapSpec(firsts);
    var m :| 0 <= m < |firsts| && firsts[m] == cells[j];
  }
}
