/** process_metfrag_output (script/metfrag_summary.py): the MetFrag `.xls`
    result tables become the top-n MetFrag rows of the score table, outer
    merged with the name/adduct table, and the rank-1 rows of the class
    table. */
module MetfragSummary {
  import opened Wrappers
  import opened Text
  import opened Decimal
  import opened Candidates
  import opened StrucDataType

  /** The returned class and score tables, or the inputs unchanged. The
      InChIKey and SMILES pivots, merged into the wide summaries, are not
      part of this model. */
  datatype Output =
    | Unchanged
    | Updated(classTable: seq<ClassRow>, scoreTable: seq<ScoreRow>)

  /** The file's base name up to its first '.'. */
  function FilenamesOf(rows: seq<(ResultFile, Hit)>): (names: seq<string>)
    ensures |names| == |rows|
    ensures forall i :: 0 <= i < |rows| ==> '.' !in names[i]
  {
    seq(|rows|, i requires 0 <= i < |rows| => BeforeFirst(rows[i].0.name, '.'))
  }

  function Table(files: seq<ResultFile>, topN: nat): (t: Ranked)
    ensures t.Valid() && |t.names| == |Combined(files)|
  {
    var rows := Combined(files);
    var names := FilenamesOf(rows);
    RankRows(names, names, ScoresIn(rows, ScoreColumn(files, "Score", "Total score")), topN)
  }

  /** The MetFrag score rows before the merge: they have no adduct yet. */
  /** The kept rows are empty iff no row was read or top_n is 0. */
  lemma KeepsNone(files: seq<ResultFile>, topN: nat)
    ensures Table(files, topN).kept == [] <==> Combined(files) == [] || topN == 0
  {
    var rows := Combined(files);
    var names := FilenamesOf(rows);
    RankRowsKeepNone(names, names, ScoresIn(rows, ScoreColumn(files, "Score", "Total score")), topN);
  }

  function RankedRows(files: seq<ResultFile>, topN: nat, scorePipe: real -> real, diffPipe: real -> real): (rows: seq<ScoreRow>)
    ensures |rows| == |Table(files, topN).kept|
  {
    var t := Table(files, topN);
    ScoreRowsOf(t, Filled(Smiles(Combined(files))), map[], scorePipe, diffPipe, "metfrag",
                Some("MetFrag_Rank:"), NormalizeRankN(Pick(t.ranks, t.kept)))
  }

  function AddedClassRows(files: seq<ResultFile>, topN: nat): seq<ClassRow> {
    var t := Table(files, topN);
    var rows := Combined(files);
    ClassRows("MetFrag", t.names, t.ranks, TextColumn(Inchikeys(rows)), TextColumn(Smiles(rows)), t.kept)
  }

  // ---------------------------------------------------------------------------
  // merge(name_adduct_df, on="filename", how="outer")

  /** The row the merge makes for a name/adduct pair no MetFrag row has. */
  function PairOnly(key: string, adduct: string): ScoreRow {
    ScoreRow(Some(key), Some(adduct), None, None, None, None, None, None, None)
  }

  function RowsFor(rows: seq<ScoreRow>, key: string): (r: seq<ScoreRow>)
    ensures forall x :: x in r <==> x in rows && x.filename == Some(key)
  {
    if rows == [] then []
    else (if rows[0].filename == Some(key) then [rows[0]] else []) + RowsFor(rows[1..], key)
  }

  function AdductsFor(pairs: seq<(string, string)>, key: string): (a: seq<string>)
    ensures forall x :: x in a <==> (key, x) in pairs
  {
    if pairs == [] then []
    else (if pairs[0].0 == key then [pairs[0].1] else []) + AdductsFor(pairs[1..], key)
  }

  /** Every left row paired with every matching adduct, left rows outermost. */
  function WithAdducts(rows: seq<ScoreRow>, adducts: seq<string>): (r: seq<ScoreRow>)
    ensures forall x, a :: x in rows && a in adducts ==> x.(adduct := Some(a)) in r
    ensures forall y :: y in r ==> exists x, a :: x in rows && a in adducts && y == x.(adduct := Some(a))
  {
    if rows == [] then []
    else
      var first := seq(|adducts|, j requires 0 <= j < |adducts| => rows[0].(adduct := Some(adducts[j])));
      assert forall a :: a in adducts ==> rows[0].(adduct := Some(a)) in first by {
        forall a | a in adducts ensures rows[0].(adduct := Some(a)) in first {
          var j :| 0 <= j < |adducts| && adducts[j] == a;
          assert first[j] == rows[0].(adduct := Some(a));
        }
      }
      first + WithAdducts(rows[1..], adducts)
  }

  /** The merged rows of one key: left rows times adducts when both sides
      have the key, the left rows with no adduct when only the left does,
      and one bare row per adduct when only the name/adduct table does. */
  function MergeKey(rows: seq<ScoreRow>, pairs: seq<(string, string)>, key: string): seq<ScoreRow> {
    var left := RowsFor(rows, key);
    var adducts := AdductsFor(pairs, key);
    if adducts == [] then left
    else if left == [] then seq(|adducts|, j requires 0 <= j < |adducts| => PairOnly(key, adducts[j]))
    else WithAdducts(left, adducts)
  }

  function MergeAlong(keys: seq<string>, rows: seq<ScoreRow>, pairs: seq<(string, string)>): (r: seq<ScoreRow>)
    ensures forall x :: x in r <==> exists k :: k in keys && x in MergeKey(rows, pairs, k)
  {
    if keys == [] then []
    else MergeKey(rows, pairs, keys[0]) + MergeAlong(keys[1..], rows, pairs)
  }

  /** The union of the join keys of both sides. */
  function MergeKeys(rows: seq<ScoreRow>, pairs: seq<(string, string)>): (ks: set<string>)
    ensures forall p :: p in pairs ==> p.0 in ks
    ensures forall x :: x in rows && x.filename.Some? ==> x.filename.value in ks
  {
    (set x | x in rows && x.filename.Some? :: x.filename.value) + (set p | p in pairs :: p.0)
  }

  /** The outer merge: the keys in sorted order, each with its merged rows. */
  ghost function OuterMerge(rows: seq<ScoreRow>, pairs: seq<(string, string)>): seq<ScoreRow> {
    MergeAlong(SortedStrings(MergeKeys(rows, pairs)), rows, pairs)
  }

  method MergeOuter(rows: seq<ScoreRow>, pairs: seq<(string, string)>) returns (merged: seq<ScoreRow>)
    ensures merged == OuterMerge(rows, pairs)
  {
    var keys := SortStrings(MergeKeys(rows, pairs));
    merged := [];
    var i := |keys|;
    while i > 0
      invariant 0 <= i <= |keys|
      invariant merged == MergeAlong(keys[i..], rows, pairs)
    {
      i := i - 1;
      assert keys[i..][1..] == keys[i + 1..];
      merged := MergeKey(rows, pairs, keys[i]) + merged;
    }
  }

  /** Every name/adduct pair shows up in the merged score rows. */
  lemma MergeKeepsEveryPair(rows: seq<ScoreRow>, pairs: seq<(string, string)>, n: string, a: string)
    requires (n, a) in pairs
    ensures exists y :: y in OuterMerge(rows, pairs) && y.filename == Some(n) && y.adduct == Some(a)
  {
    var ks := MergeKeys(rows, pairs);
    SortedStringsMembers(ks);
    var left := RowsFor(rows, n);
    var adducts := AdductsFor(pairs, n);
    assert a in adducts;
    var y;
    if left == [] {
      var j :| 0 <= j < |adducts| && adducts[j] == a;
      y := PairOnly(n, a);
      assert MergeKey(rows, pairs, n)[j] == y;
    } else {
      assert left[0] in left;
      y := left[0].(adduct := Some(a));
    }
    assert y in MergeKey(rows, pairs, n);
  }

  /** Every MetFrag row survives the merge: as it is when its filename has no
      adduct, and once per adduct of its filename otherwise. */
  lemma MergeKeepsEveryRow(rows: seq<ScoreRow>, pairs: seq<(string, string)>, x: ScoreRow, a: string)
    requires x in rows && x.filename.Some?
    ensures AdductsFor(pairs, x.filename.value) == [] ==> x in OuterMerge(rows, pairs)
    ensures (x.filename.value, a) in pairs ==> x.(adduct := Some(a)) in OuterMerge(rows, pairs)
  {
    var k := x.filename.value;
    SortedStringsMembers(MergeKeys(rows, pairs));
    assert x in RowsFor(rows, k);
  }

  /** The merge invents no filename: each merged row carries a key of one
      of the two sides. */
  lemma MergeInventsNoFilename(rows: seq<ScoreRow>, pairs: seq<(string, string)>, y: ScoreRow)
    requires y in OuterMerge(rows, pairs)
    ensures y.filename.Some? && y.filename.value in MergeKeys(rows, pairs)
  {
    var ks := MergeKeys(rows, pairs);
    SortedStringsMembers(ks);
    var k :| k in SortedStrings(ks) && y in MergeKey(rows, pairs, k);
    var left := RowsFor(rows, k);
    var adducts := AdductsFor(pairs, k);
    if adducts != [] && left == [] {
      var j :| 0 <= j < |adducts| && MergeKey(rows, pairs, k)[j] == y;
    }
  }

  // ---------------------------------------------------------------------------
  // process_metfrag_output

  /** The columns process_metfrag_output selects before it normalises the
      ranks: the score column and `SMILES`. `InChIKey` is selected after
      that, for the InChIKey pivot. */
  function SelectedColumns(files: seq<ResultFile>): seq<string> {
    [ScoreColumn(files, "Score", "Total score"), "SMILES"]
  }

  /** The filenames of the SMILES pivot: one per filename of a kept row. */
  function PivotNames(files: seq<ResultFile>, topN: nat): set<string> {
    KeptNames(Table(files, topN))
  }

  /** process_metfrag_output raises when a file was read and a selected
      column is missing, no row is kept, or no file has `InChIKey`. */
  predicate Raises(files: seq<ResultFile>, topN: nat) {
    AnyReadable(files)
    && (MissingColumn(files, SelectedColumns(files)).Some? || Combined(files) == [] || topN == 0
        || !HasColumn(files, "InChIKey"))
  }

  /** What process_metfrag_output returns. No result file, or none
      readable, leaves every table as it was. Otherwise, in the order the
      code meets them: a missing score or `SMILES` column raises KeyError;
      an empty head(top_n) (no rows read, or top_n 0) raises
      normalize_rank_n's ValueError; a missing `InChIKey` column raises
      KeyError. In every other case the MetFrag rows are appended to the
      class table, and the score table returned is the given one followed
      by the MetFrag rows outer-merged with the name/adduct pairs. */
  ghost function MetfragOutput(files: seq<ResultFile>, topN: nat, pairs: seq<(string, string)>,
                               scorePipe: real -> real, diffPipe: real -> real,
                               classTable: seq<ClassRow>, scoreTable: seq<ScoreRow>): (r: Result<Output>)
    ensures r.Err? <==> Raises(files, topN)
    ensures !AnyReadable(files) ==> r == Ok(Unchanged)
    ensures AnyReadable(files) && MissingColumn(files, SelectedColumns(files)).Some? ==>
      r == Err(KeyError(MissingColumn(files, SelectedColumns(files)).value))
    ensures AnyReadable(files) && MissingColumn(files, SelectedColumns(files)).None?
      ==> (Combined(files) == [] || topN == 0 ==> r == Err(NoSamples))
    ensures AnyReadable(files) && MissingColumn(files, SelectedColumns(files)).None?
      ==> (Combined(files) != [] && topN > 0 ==>
             (r.Err? <==> !HasColumn(files, "InChIKey")) && (r.Err? ==> r.error == KeyError("InChIKey")))
    ensures r.Ok? ==> (r.value.Unchanged? <==> !AnyReadable(files))
    ensures r.Ok? && r.value.Updated? ==>
      r.value.classTable == classTable + AddedClassRows(files, topN)
      && r.value.scoreTable == scoreTable + OuterMerge(RankedRows(files, topN, scorePipe, diffPipe), pairs)
  {
    if !AnyReadable(files) then Ok(Unchanged)
    else
      match MissingColumn(files, SelectedColumns(files))
      case Some(c) => Err(KeyError(c))
      case None =>
        var t := Table(files, topN);
        KeepsNone(files, topN);
        match FitMinMax(Pick(t.ranks, t.kept))
        case Err(e) => Err(e)
        case Ok(_) =>
          if !HasColumn(files, "InChIKey") then Err(KeyError("InChIKey"))
          else
            Ok(Updated(classTable + AddedClassRows(files, topN),
                       scoreTable + OuterMerge(RankedRows(files, topN, scorePipe, diffPipe), pairs)))
  }

  method ProcessMetfragOutput(files: seq<ResultFile>, topN: nat, pairs: seq<(string, string)>,
                              scorePipe: real -> real, diffPipe: real -> real,
                              classTable: seq<ClassRow>, scoreTable: seq<ScoreRow>) returns (r: Result<Output>)
    ensures r == MetfragOutput(files, topN, pairs, scorePipe, diffPipe, classTable, scoreTable)
  {
    if files == [] {
      return Ok(Unchanged);
    }
    var rows, anyRead := ReadResults(files);
    if !anyRead {
      return Ok(Unchanged);
    }
    var missing := MissingColumn(files, SelectedColumns(files));
    if missing.Some? {
      return Err(KeyError(missing.value));
    }
    var names := FilenamesOf(rows);
    var t := RankTable(names, names, ScoresIn(rows, ScoreColumn(files, "Score", "Total score")), topN);
    var scaled := FitMinMax(Pick(t.ranks, t.kept));
    if scaled.Err? {
      return Err(scaled.error);
    }
    var normalized := seq(|scaled.value|, i requires 0 <= i < |scaled.value| => 1.0 - scaled.value[i]);
    var scoreRows := ScoreRowsOf(t, Filled(Smiles(rows)), map[], scorePipe, diffPipe, "metfrag",
                                 Some("MetFrag_Rank:"), normalized);
    var merged := MergeOuter(scoreRows, pairs);
    if !HasColumn(files, "InChIKey") {
      return Err(KeyError("InChIKey"));
    }
    var classRows := ClassRows("MetFrag", t.names, t.ranks, TextColumn(Inchikeys(rows)), TextColumn(Smiles(rows)), t.kept);
    r := Ok(Updated(classTable + classRows, scoreTable + merged));
  }

  /** The MetFrag score rows before the merge: at most topN per filename and
      at least one for every filename read, each tagged "metfrag" with
      Used_tools `MetFrag_Rank:{rank}` and a rank between 1 and topN. */
  lemma MetfragScoreRows(files: seq<ResultFile>, topN: nat, scorePipe: real -> real, diffPipe: real -> real, x: string)
    ensures var t := Table(files, topN);
      var added := RankedRows(files, topN, scorePipe, diffPipe);
      (forall j :: 0 <= j < |added| ==> TaggedRow(t, added, map[], "metfrag", Some("MetFrag_Rank:"), topN, j))
      && CountIn(Pick(t.names, t.kept), x) == Min(topN, CountIn(t.names, x))
  {
    var rows := Combined(files);
    var names := FilenamesOf(rows);
    var scores := ScoresIn(rows, ScoreColumn(files, "Score", "Total score"));
    var t := RankRows(names, names, scores, topN);
    assert t == Table(files, topN);
    RankRowsKept(names, scores, topN);
    KeptScoreRows(t, RankedRows(files, topN, scorePipe, diffPipe), Filled(Smiles(rows)), map[],
                  scorePipe, diffPipe, "metfrag", Some("MetFrag_Rank:"), NormalizeRankN(Pick(t.ranks, t.kept)), topN, x);
  }


  /** MetFrag uses normalize_rank_n: the normalised rank is 1 at rank 1 and
      falls as the rank grows. */
  lemma MetfragNormalizedRank(files: seq<ResultFile>, topN: nat, scorePipe: real -> real, diffPipe: real -> real)
    ensures var added := RankedRows(files, topN, scorePipe, diffPipe);
      (forall j :: 0 <= j < |added| && added[j].rank == Some(1) ==> added[j].normalizedRank == Some(1.0))
      && (forall j, l :: 0 <= j < |added| && 0 <= l < |added| && added[j].rank.value < added[l].rank.value ==>
            added[j].normalizedRank.value > added[l].normalizedRank.value)
  {
    var rows := Combined(files);
    var names := FilenamesOf(rows);
    var scores := ScoresIn(rows, ScoreColumn(files, "Score", "Total score"));
    var t := RankRows(names, names, scores, topN);
    assert t == Table(files, topN);
    RankRowsKept(names, scores, topN);
    NormalizedNRows(t, RankedRows(files, topN, scorePipe, diffPipe), Filled(Smiles(rows)), map[],
                    scorePipe, diffPipe, "metfrag", Some("MetFrag_Rank:"));
  }


  /** The class rows MetFrag adds are exactly its kept rank-1 candidates
      whose InChIKey and SMILES are both non-blank, tagged "MetFrag". */
  lemma MetfragClassRows(files: seq<ResultFile>, topN: nat, c: ClassRow)
    ensures var t := Table(files, topN);
      var iks := TextColumn(Inchikeys(Combined(files)));
      var sms := TextColumn(Smiles(Combined(files)));
      c in AddedClassRows(files, topN) <==>
        exists j ::
          0 <= j < |t.kept| && ClassWorthy(t.ranks[t.kept[j]], iks[t.kept[j]], sms[t.kept[j]])
          && c == ClassRow(t.names[t.kept[j]], iks[t.kept[j]], sms[t.kept[j]], "MetFrag")
  {
  }
}
