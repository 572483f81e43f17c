/** The steps every per-tool candidate summary applies to its combined
    result table (script/sirius_struc_summary.py, script/msfinder_struc_summary.py,
    script/metfrag_summary.py, script/sirius_summary.py,
    script/msfinder_summary.py, script/msbuddy_summary.py): the 1-based rank
    within a filename group, the score difference to the next row, the first
    k rows of each group, the adduct relabelling and the pivot into one
    column per rank. A table is modelled column by column as sequences of
    equal length. */
module Candidates {
  import opened Wrappers
  import opened Text
  import opened Decimal
  import opened StrucDataType

  /** The number of occurrences of x in s. */
  function CountIn(s: seq<string>, x: string): (n: nat)
    ensures n <= |s|
  {
    if s == [] then 0 else CountIn(s[..|s| - 1], x) + (if s[|s| - 1] == x then 1 else 0)
  }

  lemma {:induction false} CountInZero(s: seq<string>, x: string)
    ensures CountIn(s, x) == 0 <==> x !in s
  {
    if s != [] {
      CountInZero(s[..|s| - 1], x);
      assert s == s[..|s| - 1] + [s[|s| - 1]];
    }
  }

  lemma {:induction false} CountInAppend(a: seq<string>, b: seq<string>, x: string)
    ensures CountIn(a + b, x) == CountIn(a, x) + CountIn(b, x)
  {
    if b != [] {
      assert (a + b)[..|a + b| - 1] == a + b[..|b| - 1];
      CountInAppend(a, b[..|b| - 1], x);
    } else {
      assert a + b == a;
    }
  }

  /** `groupby(key).cumcount() + 1` at row i: the row's 1-based position
      among the rows that share its key, in table order. */
  function GroupRank(keys: seq<string>, i: nat): int
    requires i < |keys|
  {
    1 + CountIn(keys[..i], keys[i])
  }

  function GroupRanks(keys: seq<string>): (ranks: seq<int>)
    ensures |ranks| == |keys|
  {
    seq(|keys|, i requires 0 <= i < |keys| => GroupRank(keys, i))
  }

  /** The rank column, filled row by row with a running count per key. */
  method CumCount(keys: seq<string>) returns (ranks: seq<int>)
    ensures ranks == GroupRanks(keys)
  {
    var seen: map<string, nat> := map[];
    ranks := [];
    for i := 0 to |keys|
      invariant |ranks| == i
      invariant forall j :: 0 <= j < i ==> ranks[j] == GroupRank(keys, j)
      invariant forall x :: CountIn(keys[..i], x) == (if x in seen then seen[x] else 0)
    {
      var c := if keys[i] in seen then seen[keys[i]] else 0;
      ranks := ranks + [c + 1];
      seen := seen[keys[i] := c + 1];
      assert keys[..i + 1][..i] == keys[..i];
    }
  }

  /** A row's rank does not depend on the rows after it. */
  lemma GroupRankPrefix(keys: seq<string>, n: nat, j: nat)
    requires j < n <= |keys|
    ensures GroupRank(keys[..n], j) == GroupRank(keys, j)
  {
    assert keys[..n][..j] == keys[..j];
  }

  /** Rank 1 goes exactly to the first row of each key. */
  lemma GroupRankFirst(keys: seq<string>, i: nat)
    requires i < |keys|
    ensures GroupRank(keys, i) >= 1
    ensures GroupRank(keys, i) == 1 <==> keys[i] !in keys[..i]
  {
    CountInZero(keys[..i], keys[i]);
  }

  /** Later rows of the same key get strictly larger ranks, so the ranks
      within a group are distinct. */
  lemma GroupRankIncreasing(keys: seq<string>, i: nat, j: nat)
    requires i < j < |keys| && keys[i] == keys[j]
    ensures GroupRank(keys, i) < GroupRank(keys, j)
  {
    assert keys[..j] == keys[..i] + [keys[i]] + keys[i + 1..j];
    CountInAppend(keys[..i] + [keys[i]], keys[i + 1..j], keys[i]);
    CountInAppend(keys[..i], [keys[i]], keys[i]);
    assert CountIn([keys[i]], keys[i]) == 1 by {
      assert [keys[i]][..0] == [];
    }
  }

  /** The next row of the same key gets the next rank: the ranks of a group
      run 1, 2, 3, ... in table order. */
  lemma GroupRankNext(keys: seq<string>, i: nat, j: nat)
    requires i < j < |keys| && keys[i] == keys[j] && keys[i] !in keys[i + 1..j]
    ensures GroupRank(keys, j) == GroupRank(keys, i) + 1
  {
    assert keys[..j] == keys[..i] + [keys[i]] + keys[i + 1..j];
    CountInAppend(keys[..i] + [keys[i]], keys[i + 1..j], keys[i]);
    CountInAppend(keys[..i], [keys[i]], keys[i]);
    CountInZero(keys[i + 1..j], keys[i]);
    assert CountIn([keys[i]], keys[i]) == 1 by {
      assert [keys[i]][..0] == [];
    }
  }

  /** No rank exceeds the size of its group. */
  lemma GroupRankBound(keys: seq<string>, i: nat)
    requires i < |keys|
    ensures GroupRank(keys, i) <= CountIn(keys, keys[i])
  {
    assert keys[..i + 1][..i] == keys[..i];
    CountInPrefix(keys, i + 1, keys[i]);
  }

  /** A prefix never holds more rows of a key than the whole column. */
  lemma {:induction false} CountInPrefix(s: seq<string>, j: nat, x: string)
    requires j <= |s|
    ensures CountIn(s[..j], x) <= CountIn(s, x)
    decreases |s| - j
  {
    if j < |s| {
      CountInPrefix(s[..|s| - 1], j, x);
      assert s[..|s| - 1][..j] == s[..j];
    } else {
      assert s[..j] == s;
    }
  }

  /** Every row of a key sits next to the other rows of that key: a key
      that differs from the previous row's has not been seen before. */
  predicate Contiguous(keys: seq<string>) {
    forall i :: 0 < i < |keys| ==> keys[i] == keys[i - 1] || keys[i] !in keys[..i]
  }

  /** The score difference at row i: this row's score minus the next row's
      when the next row's rank is one more (a missing score makes it NaN,
      and fillna(0) makes that 0), else 0, which includes the last row. */
  function ScoreDiff(ranks: seq<int>, scores: seq<Option<real>>, i: nat): real
    requires |ranks| == |scores| && i < |ranks|
  {
    if i + 1 < |ranks| && ranks[i] + 1 == ranks[i + 1] && scores[i].Some? && scores[i + 1].Some? then
      scores[i].value - scores[i + 1].value
    else 0.0
  }

  function ScoreDiffs(ranks: seq<int>, scores: seq<Option<real>>): (d: seq<real>)
    requires |ranks| == |scores|
    ensures |d| == |ranks|
  {
    seq(|ranks|, i requires 0 <= i < |ranks| => ScoreDiff(ranks, scores, i))
  }

  /** The score_diff column: zero everywhere, then the rows whose next row
      has the next rank are overwritten with the difference. */
  method ScoreDifferences(ranks: seq<int>, scores: seq<Option<real>>) returns (d: seq<real>)
    requires |ranks| == |scores|
    ensures d == ScoreDiffs(ranks, scores)
  {
    d := seq(|ranks|, _ => 0.0);
    var i := 0;
    while i + 1 < |ranks|
      invariant 0 <= i <= |ranks| || (i == 0 && ranks == [])
      invariant |d| == |ranks|
      invariant forall j :: 0 <= j < i ==> d[j] == ScoreDiff(ranks, scores, j)
      invariant forall j :: i <= j < |d| ==> d[j] == 0.0
    {
      if ranks[i] + 1 == ranks[i + 1] && scores[i].Some? && scores[i + 1].Some? {
        d := d[i := scores[i].value - scores[i + 1].value];
      }
      i := i + 1;
    }
  }

  /** With the rank column from CumCount and contiguous groups, the
      difference is taken only between two rows of the same group, and is
      taken for every such pair of neighbours. */
  lemma DiffStaysInGroup(keys: seq<string>, scores: seq<Option<real>>, i: nat)
    requires |keys| == |scores| && i + 1 < |keys| && Contiguous(keys)
    ensures keys[i + 1] != keys[i] ==> ScoreDiffs(GroupRanks(keys), scores)[i] == 0.0
    ensures keys[i + 1] == keys[i] && scores[i].Some? && scores[i + 1].Some? ==>
      ScoreDiffs(GroupRanks(keys), scores)[i] == scores[i].value - scores[i + 1].value
  {
    GroupRankFirst(keys, i);
    GroupRankFirst(keys, i + 1);
    if keys[i + 1] == keys[i] {
      assert keys[i + 1..i + 1] == [];
      GroupRankNext(keys, i, i + 1);
    }
  }

  /** Without contiguity the difference can cross groups: with filenames
      b, a, b the "a" row (rank 1) is followed by the second "b" row
      (rank 2), and a's score minus b's score is stored for "a". */
  lemma DiffCrossesInterleavedGroups()
    ensures var keys := ["b", "a", "b"];
      var scores := [Some(1.0), Some(5.0), Some(2.0)];
      keys[1] != keys[2] && ScoreDiffs(GroupRanks(keys), scores)[1] == 3.0
  {
    var keys := ["b", "a", "b"];
    assert keys[..1] == ["b"] && keys[..2] == ["b", "a"];
    assert ["b", "a"][..1] == ["b"] && ["b"][..0] == [];
    assert GroupRank(keys, 1) == 1 && GroupRank(keys, 2) == 2;
  }

  /** `groupby(key).head(k)`: the positions of the rows kept, those among
      the first k of their key, in table order. */
  function HeadIndices(keys: seq<string>, k: int): (idx: seq<nat>)
    ensures forall j :: 0 <= j < |idx| ==> idx[j] < |keys|
  {
    if keys == [] then []
    else
      var n := |keys| - 1;
      HeadIndices(keys[..n], k) + (if GroupRank(keys, n) <= k then [n] else [])
  }

  method GroupHead(keys: seq<string>, k: int) returns (idx: seq<nat>)
    ensures idx == HeadIndices(keys, k)
  {
    var seen: map<string, nat> := map[];
    idx := [];
    for i := 0 to |keys|
      invariant idx == HeadIndices(keys[..i], k)
      invariant forall x :: CountIn(keys[..i], x) == (if x in seen then seen[x] else 0)
    {
      var c := if keys[i] in seen then seen[keys[i]] else 0;
      assert keys[..i + 1][..i] == keys[..i];
      if c < k {
        idx := idx + [i];
      }
      seen := seen[keys[i] := c + 1];
    }
    assert keys[..|keys|] == keys;
  }

  /** The positions kept are valid and strictly increasing, and a row is
      kept exactly when its rank is at most k. */
  lemma {:induction false} HeadIndicesSpec(keys: seq<string>, k: int)
    ensures var idx := HeadIndices(keys, k);
      (forall j, l :: 0 <= j < l < |idx| ==> idx[j] < idx[l])
      && (forall i :: 0 <= i < |keys| ==> (i in idx <==> GroupRank(keys, i) <= k))
  {
    if keys != [] {
      var n := |keys| - 1;
      HeadIndicesSpec(keys[..n], k);
      forall i | 0 <= i < n ensures GroupRank(keys[..n], i) == GroupRank(keys, i) {
        GroupRankPrefix(keys, n, i);
      }
    }
  }

  /** The cells of column xs at positions idx. */
  function Pick<T>(xs: seq<T>, idx: seq<nat>): (ys: seq<T>)
    requires forall j :: 0 <= j < |idx| ==> idx[j] < |xs|
    ensures |ys| == |idx|
  {
    seq(|idx|, j requires 0 <= j < |idx| => xs[idx[j]])
  }

  function Min(a: int, b: int): int {
    if a <= b then a else b
  }

  /** Each key keeps exactly its first min(k, count) rows: at most k rows per
      filename, and every filename keeps at least one row when k >= 1. */
  lemma {:induction false} HeadCount(keys: seq<string>, k: nat, x: string)
    ensures CountIn(Pick(keys, HeadIndices(keys, k)), x) == Min(k, CountIn(keys, x))
  {
    if keys != [] {
      var n := |keys| - 1;
      var prefix := keys[..n];
      var before := HeadIndices(prefix, k);
      HeadCount(prefix, k, x);
      var kept := GroupRank(keys, n) <= k;
      assert HeadIndices(keys, k) == before + (if kept then [n] else []);
      PickSnoc(keys, before, n, kept);
      CountInAppend(Pick(prefix, before), if kept then [keys[n]] else [], x);
      assert keys == prefix + [keys[n]];
      CountInAppend(prefix, [keys[n]], x);
      assert CountIn([keys[n]], x) == (if keys[n] == x then 1 else 0) by {
        assert [keys[n]][..0] == [];
      }
    }
  }

  lemma PickSnoc(keys: seq<string>, before: seq<nat>, n: nat, kept: bool)
    requires n + 1 == |keys|
    requires forall j :: 0 <= j < |before| ==> before[j] < n
    ensures Pick(keys, before + (if kept then [n] else [])) == Pick(keys[..n], before) + (if kept then [keys[n]] else [])
  {
  }

  /** Every filename in the table survives head(k) for k >= 1, and none
      keeps more than k rows. */
  lemma HeadKeepsEveryKey(keys: seq<string>, k: nat, x: string)
    ensures var kept := Pick(keys, HeadIndices(keys, k));
      CountIn(kept, x) <= k && (k >= 1 && x in keys ==> x in kept)
  {
    HeadIndicesSpec(keys, k);
    HeadCount(keys, k, x);
    var kept := Pick(keys, HeadIndices(keys, k));
    CountInZero(kept, x);
    CountInZero(keys, x);
  }

  /** head(k) keeps nothing exactly when the table has no rows or k is
      below 1 (every rank is at least 1). */
  lemma HeadEmpty(keys: seq<string>, k: int)
    ensures HeadIndices(keys, k) == [] <==> keys == [] || k < 1
  {
    HeadIndicesSpec(keys, k);
    var idx := HeadIndices(keys, k);
    if keys != [] && k >= 1 {
      GroupRankFirst(keys, 0);
      assert 0 in idx;
    }
    if k < 1 && idx != [] {
      assert idx[0] in idx;
      GroupRankFirst(keys, idx[0]);
    }
  }

  /** The two SIRIUS adduct spellings the summaries rewrite. */
  const AmmoniumSirius := "[M + H3N + H]+"
  const FormateSirius := "[M + CH2O2 - H]-"

  /** `adduct.fillna("").str.replace(pattern, replacement)` for the two rules
      in order: every occurrence of each spelling is rewritten. */
  function RelabelAdduct(adduct: Option<string>): string {
    ReplaceAll(ReplaceAll(adduct.GetOr(""), AmmoniumSirius, "[M+NH4]+"), FormateSirius, "[M+FA+H]+")
  }

  /** The SIRIUS ammonium spelling becomes `[M+NH4]+`. */
  lemma RelabelAmmonium()
    ensures RelabelAdduct(Some(AmmoniumSirius)) == "[M+NH4]+"
  {
    ReplaceWhole(AmmoniumSirius, "[M+NH4]+");
    ReplaceAbsent("[M+NH4]+", FormateSirius, "[M+FA+H]+");
  }

  /** The SIRIUS formate spelling becomes `[M+FA+H]+`. */
  lemma RelabelFormate()
    ensures RelabelAdduct(Some(FormateSirius)) == "[M+FA+H]+"
  {
    FormateLacksAmmonium();
    ReplaceAbsent(FormateSirius, AmmoniumSirius, "[M+NH4]+");
    ReplaceWhole(FormateSirius, "[M+FA+H]+");
  }

  lemma FormateLacksAmmonium()
    ensures !Contains(FormateSirius, AmmoniumSirius)
  {
    var s, p := FormateSirius, AmmoniumSirius;
    assert !(p <= s) by { assert s[5] != p[5]; }
    assert !(p <= s[1..]) by { assert s[1..][0] != p[0]; }
    assert !(p <= s[2..]) by { assert s[2..][0] != p[0]; }
    assert s[1..][1..] == s[2..] && s[2..][1..] == s[3..];
    ShorterNotContained(s[3..], p);
  }

  lemma {:induction false} ShorterNotContained(s: string, p: string)
    requires |s| < |p|
    ensures !Contains(s, p)
  {
    if s != [] {
      ShorterNotContained(s[1..], p);
    }
  }

  /** A missing adduct becomes the empty string, and an adduct with neither
      spelling in it passes through unchanged. */
  lemma RelabelOthers(a: Option<string>)
    requires a.Some? ==> !Contains(a.value, AmmoniumSirius) && !Contains(a.value, FormateSirius)
    ensures RelabelAdduct(a) == a.GetOr("")
  {
    if a.Some? {
      ReplaceAbsent(a.value, AmmoniumSirius, "[M+NH4]+");
      ReplaceAbsent(a.value, FormateSirius, "[M+FA+H]+");
    }
  }

  /** `s.split(c)[-1]`: the text after the last c, all of s without one. */
  function LastPiece(s: string, c: char): (r: string)
    ensures c !in r
    ensures c !in s ==> r == s
  {
    var parts := SplitOn(s, c);
    parts[|parts| - 1]
  }

  /** `Series.map` through the name/adduct table: the adduct recorded for
      the filename, or NaN. */
  function AdductOf(nameAdduct: map<string, string>, filename: string): Option<string> {
    if filename in nameAdduct then Some(nameAdduct[filename]) else None
  }

  /** A fitted scikit-learn pipeline applied to one column: NaN passes
      through. */
  function Apply(pipeline: real -> real, x: Option<real>): Option<real> {
    if x.Some? then Some(pipeline(x.value)) else None
  }

  /** `f"{prefix}{r}"` for an integer rank. */
  function RankTag(prefix: string, r: int): string {
    prefix + IntToString(r)
  }

  /** `DataFrame.pivot(index, columns="rank", values)`: one cell per
      (index, rank) pair, or ValueError when a pair repeats. */
  function Pivot<K(==)>(cells: seq<(K, int, string)>): (r: Result<map<K, map<int, string>>>)
    ensures r.Ok? <==> DistinctCells(cells)
  {
    if DistinctCells(cells) then Ok(PivotMap(cells))
    else Err(ValueError("Index contains duplicate entries, cannot reshape"))
  }

  predicate DistinctCells<K(==)>(cells: seq<(K, int, string)>) {
    forall i, j :: 0 <= i < j < |cells| ==> (cells[i].0, cells[i].1) != (cells[j].0, cells[j].1)
  }

  function PivotMap<K(==)>(cells: seq<(K, int, string)>): map<K, map<int, string>> {
    if cells == [] then map[]
    else
      var m := PivotMap(cells[..|cells| - 1]);
      var c := cells[|cells| - 1];
      m[c.0 := (if c.0 in m then m[c.0] else map[])[c.1 := c.2]]
  }

  /** The index values of the cells. */
  function IndexKeys<K>(cells: seq<(K, int, string)>): set<K> {
    set c | c in cells :: c.0
  }

  /** Without repeated pairs every cell lands in its place, and the pivot's
      rows are exactly the index values. */
  lemma {:induction false} PivotMapSpec<K>(cells: seq<(K, int, string)>)
    requires DistinctCells(cells)
    ensures forall i :: 0 <= i < |cells| ==>
      cells[i].0 in PivotMap(cells) && cells[i].1 in PivotMap(cells)[cells[i].0]
      && PivotMap(cells)[cells[i].0][cells[i].1] == cells[i].2
    ensures PivotMap(cells).Keys == IndexKeys(cells)
  {
    PivotMapCells(cells);
    PivotMapKeys(cells);
  }

  lemma {:induction false} PivotMapCells<K>(cells: seq<(K, int, string)>)
    requires DistinctCells(cells)
    ensures forall i :: 0 <= i < |cells| ==>
      cells[i].0 in PivotMap(cells) && cells[i].1 in PivotMap(cells)[cells[i].0]
      && PivotMap(cells)[cells[i].0][cells[i].1] == cells[i].2
  {
    if cells != [] {
      var n := |cells| - 1;
      var pre := cells[..n];
      assert DistinctCells(pre) by {
        forall i, j | 0 <= i < j < |pre| ensures (pre[i].0, pre[i].1) != (pre[j].0, pre[j].1) {
          assert pre[i] == cells[i] && pre[j] == cells[j];
        }
      }
      PivotMapCells(pre);
      forall i | 0 <= i < |cells|
        ensures cells[i].0 in PivotMap(cells) && cells[i].1 in PivotMap(cells)[cells[i].0]
             && PivotMap(cells)[cells[i].0][cells[i].1] == cells[i].2
      {
        if i < n {
          assert cells[i] == pre[i];
          assert (cells[i].0, cells[i].1) != (cells[n].0, cells[n].1);
        }
      }
    }
  }

  lemma {:induction false} PivotMapKeys<K>(cells: seq<(K, int, string)>)
    ensures PivotMap(cells).Keys == IndexKeys(cells)
  {
    if cells != [] {
      var n := |cells| - 1;
      PivotMapKeys(cells[..n]);
      assert cells == cells[..n] + [cells[n]];
      assert IndexKeys(cells) == IndexKeys(cells[..n]) + {cells[n].0};
    }
  }

  // ---------------------------------------------------------------------------
  // Result files and the combined table

  /** One row of a tool's result file, reduced to the cells the summaries
      read; a None cell is an empty (NaN) cell. `ident` is the row's
      `File name` (MS-FINDER) or `Scan_ID` (msbuddy) as text, `candidate` its
      SMILES or formula, `scores` the numeric cells it has a value in, and
      `toolRank` msbuddy's own `Rank` column. */
  datatype Hit = Hit(ident: string, adduct: Option<string>, candidate: Option<string>,
                     inchikey: Option<string>, scores: map<string, real>, toolRank: int)

  /** A result file the glob found: the name of the folder it sits in, its
      own base name, its header, and its rows, or None when reading it
      raised. */
  datatype ResultFile = ResultFile(folder: string, name: string, columns: set<string>, rows: Option<seq<Hit>>)

  function RowsOf(f: ResultFile): seq<(ResultFile, Hit)> {
    if f.rows.None? then []
    else seq(|f.rows.value|, i requires 0 <= i < |f.rows.value| => (f, f.rows.value[i]))
  }

  /** `pd.concat` of every file that could be read, in glob order; each row
      remembers the file it came from. */
  function Combined(files: seq<ResultFile>): seq<(ResultFile, Hit)> {
    if files == [] then [] else Combined(files[..|files| - 1]) + RowsOf(files[|files| - 1])
  }

  predicate AnyReadable(files: seq<ResultFile>) {
    exists i :: 0 <= i < |files| && files[i].rows.Some?
  }

  /** With no file readable, the concatenation holds no row. */
  lemma {:induction false} NoneReadableNoRows(files: seq<ResultFile>)
    ensures !AnyReadable(files) ==> Combined(files) == []
  {
    if files != [] && !AnyReadable(files) {
      var n := |files| - 1;
      assert forall i :: 0 <= i < n ==> files[..n][i] == files[i];
      NoneReadableNoRows(files[..n]);
      assert files[n].rows.None?;
    }
  }

  /** Every file the glob found could be read. */
  predicate AllReadable(files: seq<ResultFile>) {
    forall i :: 0 <= i < |files| ==> files[i].rows.Some?
  }

  /** The reading loop of the SIRIUS and MetFrag summaries: a file that
      cannot be read is reported and skipped. */
  method ReadResults(files: seq<ResultFile>) returns (rows: seq<(ResultFile, Hit)>, anyRead: bool)
    ensures rows == Combined(files)
    ensures anyRead == AnyReadable(files)
  {
    rows, anyRead := [], false;
    for i := 0 to |files|
      invariant rows == Combined(files[..i])
      invariant anyRead == AnyReadable(files[..i])
    {
      assert files[..i + 1][..i] == files[..i];
      if files[i].rows.Some? {
        rows := rows + RowsOf(files[i]);
        anyRead := true;
        assert files[..i + 1][i].rows.Some?;
      }
    }
    assert files[..|files|] == files;
  }

  /** `pd.concat([pd.read_table(f) for f in files])`: the first file that
      cannot be read raises out of the summary. */
  function ReadAll(files: seq<ResultFile>): (r: Result<seq<(ResultFile, Hit)>>)
    ensures r.Ok? <==> forall i :: 0 <= i < |files| ==> files[i].rows.Some?
    ensures r.Ok? ==> r.value == Combined(files)
    ensures r.Err? ==> exists i :: 0 <= i < |files| && files[i].rows.None? && r.error == ReadError(files[i].name)
  {
    if files == [] then Ok([])
    else
      var n := |files| - 1;
      match ReadAll(files[..n])
      case Err(e) => Err(e)
      case Ok(rows) =>
        if files[n].rows.None? then Err(ReadError(files[n].name)) else Ok(rows + RowsOf(files[n]))
  }

  /** The reading loop of the MS-FINDER and msbuddy summaries. */
  method ReadEvery(files: seq<ResultFile>) returns (r: Result<seq<(ResultFile, Hit)>>)
    ensures r == ReadAll(files)
  {
    var rows := [];
    for i := 0 to |files|
      invariant ReadAll(files[..i]) == Ok(rows)
    {
      assert files[..i + 1][..i] == files[..i];
      if files[i].rows.None? {
        r := Err(ReadError(files[i].name));
        ReadAllKeepsError(files, i + 1);
        return;
      }
      rows := rows + RowsOf(files[i]);
    }
    assert files[..|files|] == files;
    r := Ok(rows);
  }

  /** Once a prefix of the files fails to read, the whole read fails with
      the same error. */
  lemma {:induction false} ReadAllKeepsError(files: seq<ResultFile>, n: nat)
    requires n <= |files| && ReadAll(files[..n]).Err?
    ensures ReadAll(files) == ReadAll(files[..n])
    decreases |files| - n
  {
    if n < |files| {
      assert files[..n + 1][..n] == files[..n];
      ReadAllKeepsError(files, n + 1);
    } else {
      assert files[..n] == files;
    }
  }

  /** A text column after `fillna('')`. */
  function TextColumn(cells: seq<Option<string>>): (texts: seq<string>)
    ensures |texts| == |cells|
    ensures forall i :: 0 <= i < |cells| ==> (cells[i].Some? ==> texts[i] == cells[i].value)
  {
    seq(|cells|, i requires 0 <= i < |cells| => cells[i].GetOr(""))
  }

  /** The InChIKey column of the combined table. */
  function Inchikeys(rows: seq<(ResultFile, Hit)>): (cs: seq<Option<string>>)
    ensures |cs| == |rows|
  {
    seq(|rows|, i requires 0 <= i < |rows| => rows[i].1.inchikey)
  }

  /** The SMILES (or formula) column of the combined table. */
  function Smiles(rows: seq<(ResultFile, Hit)>): (cs: seq<Option<string>>)
    ensures |cs| == |rows|
  {
    seq(|rows|, i requires 0 <= i < |rows| => rows[i].1.candidate)
  }

  /** A text column after `fillna('')`, kept as cells. */
  function Filled(cells: seq<Option<string>>): (filled: seq<Option<string>>)
    ensures |filled| == |cells|
  {
    seq(|cells|, i requires 0 <= i < |cells| => Some(cells[i].GetOr("")))
  }

  /** A column of the concatenated table: `pd.concat` keeps every column of
      every file it was given. */
  predicate HasColumn(files: seq<ResultFile>, column: string) {
    exists i :: 0 <= i < |files| && files[i].rows.Some? && column in files[i].columns
  }

  /** The score column: the preferred one when any file read has it (the
      concatenated frame then has the column), else the fallback. */
  function ScoreColumn(files: seq<ResultFile>, preferred: string, fallback: string): string {
    if HasColumn(files, preferred) then preferred else fallback
  }

  /** The score column chosen is in the table exactly when the preferred or
      the fallback column is; when neither is, selecting it raises
      KeyError naming the fallback. */
  lemma ScoreColumnPresent(files: seq<ResultFile>, preferred: string, fallback: string)
    ensures HasColumn(files, ScoreColumn(files, preferred, fallback))
      <==> HasColumn(files, preferred) || HasColumn(files, fallback)
    ensures !HasColumn(files, preferred) ==> ScoreColumn(files, preferred, fallback) == fallback
  {
  }

  /** The first of `selected` (the columns a summary selects, in the order
      it selects them) that the concatenated table lacks: selecting it
      raises KeyError. None when every selected column is there. */
  function MissingColumn(files: seq<ResultFile>, selected: seq<string>): (m: Option<string>)
    ensures m.None? <==> forall j :: 0 <= j < |selected| ==> HasColumn(files, selected[j])
    ensures m.Some? ==>
      exists j :: 0 <= j < |selected| && selected[j] == m.value && !HasColumn(files, m.value)
        && forall l :: 0 <= l < j ==> HasColumn(files, selected[l])
  {
    if selected == [] then None
    else if !HasColumn(files, selected[0]) then Some(selected[0])
    else
      var m := MissingColumn(files, selected[1..]);
      assert forall j :: 1 <= j < |selected| ==> selected[j] == selected[1..][j - 1];
      if m.Some? then
        var j :| 0 <= j < |selected[1..]| && selected[1..][j] == m.value && !HasColumn(files, m.value)
          && forall l :: 0 <= l < j ==> HasColumn(files, selected[1..][l]);
        assert selected[j + 1] == m.value;
        m
      else m
  }

  /** The cells of one numeric column; a row without a value is NaN. */
  function ScoresIn(rows: seq<(ResultFile, Hit)>, column: string): (scores: seq<Option<real>>)
    ensures |scores| == |rows|
  {
    seq(|rows|, i requires 0 <= i < |rows| =>
      if column in rows[i].1.scores then Some(rows[i].1.scores[column]) else None)
  }

  /** The combined table after the shared steps: the filename column, the
      rank column, the score and score-difference columns, and the
      positions of the rows head(k) keeps. */
  datatype Ranked = Ranked(names: seq<string>, ranks: seq<int>, scores: seq<Option<real>>, diffs: seq<real>, kept: seq<nat>)
  {
    predicate Valid() {
      |ranks| == |names| && |scores| == |names| && |diffs| == |names|
      && forall j :: 0 <= j < |kept| ==> kept[j] < |names|
    }
  }

  /** The names of the kept rows, as the index of a pivot on them. */
  function KeptNames(t: Ranked): (names: set<string>)
    requires t.Valid()
    ensures names == {} <==> t.kept == []
    ensures forall j :: 0 <= j < |t.kept| ==> t.names[t.kept[j]] in names
  {
    var names := set j | 0 <= j < |t.kept| :: t.names[t.kept[j]];
    assert t.kept != [] ==> t.names[t.kept[0]] in names;
    names
  }

  /** Rank by `groupKeys` (the filename, or MS-FINDER's `File name`), take
      the score differences over the whole table, and keep the first k rows
      of each filename. */
  function RankRows(names: seq<string>, groupKeys: seq<string>, scores: seq<Option<real>>, k: int): (t: Ranked)
    requires |groupKeys| == |names| && |scores| == |names|
    ensures t.Valid() && t.names == names && t.scores == scores
  {
    var ranks := GroupRanks(groupKeys);
    Ranked(names, ranks, scores, ScoreDiffs(ranks, scores), HeadIndices(names, k))
  }

  /** Ranking keeps no row iff there is none or k < 1. */
  lemma RankRowsKeepNone(names: seq<string>, groupKeys: seq<string>, scores: seq<Option<real>>, k: int)
    requires |groupKeys| == |names| && |scores| == |names|
    ensures RankRows(names, groupKeys, scores, k).kept == [] <==> names == [] || k < 1
  {
    HeadEmpty(names, k);
  }

  method RankTable(names: seq<string>, groupKeys: seq<string>, scores: seq<Option<real>>, k: int) returns (t: Ranked)
    requires |groupKeys| == |names| && |scores| == |names|
    ensures t == RankRows(names, groupKeys, scores, k)
  {
    var ranks := CumCount(groupKeys);
    var diffs := ScoreDifferences(ranks, scores);
    var kept := GroupHead(names, k);
    t := Ranked(names, ranks, scores, diffs, kept);
  }

  /** Ranked by filename, the rows head(k) keeps carry ranks 1..k, and rank
      1 is among them whenever anything is kept. */
  lemma KeptRanks(names: seq<string>, k: int)
    ensures var idx := HeadIndices(names, k);
      var kr := Pick(GroupRanks(names), idx);
      (forall j :: 0 <= j < |kr| ==> 1 <= kr[j] <= k)
      && (idx != [] ==> 1 in kr)
  {
    HeadIndicesSpec(names, k);
    var idx := HeadIndices(names, k);
    var kr := Pick(GroupRanks(names), idx);
    forall j | 0 <= j < |kr| ensures 1 <= kr[j] <= k {
      GroupRankFirst(names, idx[j]);
      assert idx[j] in idx;
    }
    if idx != [] {
      assert 1 <= kr[0] <= k;
      GroupRankFirst(names, 0);
      assert 0 in idx;
      var j :| 0 <= j < |idx| && idx[j] == 0;
      assert kr[j] == 1;
    }
  }

  // ---------------------------------------------------------------------------
  // Output tables

  /** A row of the score table the classifier reads (smiles_score_df or
      score_df): SMILES or formula in `candidate`; a None cell is NaN. */
  datatype ScoreRow = ScoreRow(filename: Option<string>, adduct: Option<string>, rank: Option<int>,
                               candidate: Option<string>, zscore: Option<real>, zscoreDiff: Option<real>,
                               toolName: Option<string>, usedTools: Option<string>, normalizedRank: Option<real>)

  /** A row of class_summary_df. */
  datatype ClassRow = ClassRow(filename: string, inchikey: string, smiles: string, toolName: string)

  /** A candidate enters the class table when it is its tool's rank 1 and
      both its InChIKey and SMILES text are non-blank. */
  predicate ClassWorthy(rank: int, inchikey: string, smiles: string) {
    rank == 1 && Strip(inchikey) != [] && Strip(smiles) != []
  }

  /** The class rows of the kept positions idx, in order. */
  function ClassRows(tool: string, names: seq<string>, ranks: seq<int>, inchikeys: seq<string>, smiles: seq<string>,
                     idx: seq<nat>): (rows: seq<ClassRow>)
    requires |ranks| == |names| && |inchikeys| == |names| && |smiles| == |names|
    requires forall j :: 0 <= j < |idx| ==> idx[j] < |names|
    ensures forall r :: r in rows <==>
      exists j :: 0 <= j < |idx| && ClassWorthy(ranks[idx[j]], inchikeys[idx[j]], smiles[idx[j]])
        && r == ClassRow(names[idx[j]], inchikeys[idx[j]], smiles[idx[j]], tool)
  {
    if idx == [] then []
    else
      var n := |idx| - 1;
      var i := idx[n];
      var rest := ClassRows(tool, names, ranks, inchikeys, smiles, idx[..n]);
      assert forall j :: 0 <= j < n ==> idx[..n][j] == idx[j];
      rest + (if ClassWorthy(ranks[i], inchikeys[i], smiles[i]) then [ClassRow(names[i], inchikeys[i], smiles[i], tool)] else [])
  }

  /** `astype(str)` of a text cell: NaN prints as "nan". */
  function TextOf(cell: Option<string>): string {
    cell.GetOr("nan")
  }

  /** The score rows of the kept rows, in table order: filename, the adduct
      looked up by filename, rank, candidate, the two pipeline outputs, the
      tool tag, the optional `Used_tools` text `{prefix}{rank}`, and the
      normalised rank computed over the kept rows. */
  function ScoreRowsOf(t: Ranked, candidates: seq<Option<string>>, nameAdduct: map<string, string>,
                       scorePipe: real -> real, diffPipe: real -> real, tool: string,
                       usedPrefix: Option<string>, normalized: seq<real>): (rows: seq<ScoreRow>)
    requires t.Valid() && |candidates| == |t.names| && |normalized| == |t.kept|
    ensures |rows| == |t.kept|
  {
    seq(|t.kept|, j requires 0 <= j < |t.kept| =>
      var i := t.kept[j];
      ScoreRow(Some(t.names[i]), AdductOf(nameAdduct, t.names[i]), Some(t.ranks[i]), candidates[i],
               Apply(scorePipe, t.scores[i]), Some(diffPipe(t.diffs[i])), Some(tool),
               if usedPrefix.Some? then Some(RankTag(usedPrefix.value, t.ranks[i])) else None,
               Some(normalized[j])))
  }

  /** Each score row carries its kept row's filename, the adduct looked up
      for it, its rank, the tool tag, `{prefix}{rank}` as Used_tools and its
      normalised rank. */
  lemma ScoreRowsOfShape(t: Ranked, candidates: seq<Option<string>>,
                         nameAdduct: map<string, string>, scorePipe: real -> real, diffPipe: real -> real,
                         tool: string, usedPrefix: Option<string>, normalized: seq<real>)
    requires t.Valid() && |candidates| == |t.names| && |normalized| == |t.kept|
    ensures var rows := ScoreRowsOf(t, candidates, nameAdduct, scorePipe, diffPipe, tool, usedPrefix, normalized);
      forall j :: 0 <= j < |rows| ==>
        rows[j].filename == Some(t.names[t.kept[j]])
        && rows[j].adduct == AdductOf(nameAdduct, t.names[t.kept[j]])
        && rows[j].rank == Some(t.ranks[t.kept[j]])
        && rows[j].toolName == Some(tool)
        && rows[j].usedTools == (if usedPrefix.Some? then Some(usedPrefix.value + IntToString(t.ranks[t.kept[j]])) else None)
        && rows[j].normalizedRank == Some(normalized[j])
  {
  }

  /** Score rows of kept rows whose ranks lie in 1..k carry those ranks. */
  lemma BoundedScoreRows(t: Ranked, candidates: seq<Option<string>>, nameAdduct: map<string, string>,
                         scorePipe: real -> real, diffPipe: real -> real,
                         tool: string, usedPrefix: Option<string>, normalized: seq<real>, k: int)
    requires t.Valid() && |candidates| == |t.names| && |normalized| == |t.kept|
    requires forall j :: 0 <= j < |t.kept| ==> 1 <= t.ranks[t.kept[j]] <= k
    ensures var rows := ScoreRowsOf(t, candidates, nameAdduct, scorePipe, diffPipe, tool, usedPrefix, normalized);
      forall j :: 0 <= j < |rows| ==>
        rows[j].toolName == Some(tool)
        && rows[j].filename == Some(t.names[t.kept[j]])
        && rows[j].adduct == AdductOf(nameAdduct, t.names[t.kept[j]])
        && rows[j].rank == Some(t.ranks[t.kept[j]])
        && 1 <= rows[j].rank.value <= k
        && rows[j].usedTools == (if usedPrefix.Some? then Some(usedPrefix.value + IntToString(rows[j].rank.value)) else None)
        && rows[j].normalizedRank == Some(normalized[j])
  {
    ScoreRowsOfShape(t, candidates, nameAdduct, scorePipe, diffPipe, tool, usedPrefix, normalized);
  }

  /** Ranked by its own filenames, the table keeps the rows head(k) keeps,
      and they carry ranks 1..k. */
  lemma RankRowsKept(names: seq<string>, scores: seq<Option<real>>, k: int)
    requires |scores| == |names|
    ensures var t := RankRows(names, names, scores, k);
      t.kept == HeadIndices(t.names, k)
      && (forall j :: 0 <= j < |t.kept| ==> 1 <= t.ranks[t.kept[j]] <= k)
      && (t.kept != [] ==> 1 in Pick(t.ranks, t.kept))
  {
    var t := RankRows(names, names, scores, k);
    assert t.ranks == GroupRanks(names) && t.kept == HeadIndices(names, k);
    KeptRanks(names, k);
    forall j | 0 <= j < |t.kept| ensures 1 <= t.ranks[t.kept[j]] <= k {
      assert t.ranks[t.kept[j]] == Pick(GroupRanks(names), HeadIndices(names, k))[j];
    }
  }

  /** A normalisation that gives rank 1 the value 1 and a worse rank a
      smaller value carries over to the score rows. */
  lemma DecreasingRows(t: Ranked, added: seq<ScoreRow>, candidates: seq<Option<string>>,
                       nameAdduct: map<string, string>, scorePipe: real -> real, diffPipe: real -> real,
                       tool: string, usedPrefix: Option<string>, normalized: seq<real>)
    requires t.Valid() && |candidates| == |t.names| && |normalized| == |t.kept|
    requires added == ScoreRowsOf(t, candidates, nameAdduct, scorePipe, diffPipe, tool, usedPrefix, normalized)
    requires forall j :: 0 <= j < |t.kept| && t.ranks[t.kept[j]] == 1 ==> normalized[j] == 1.0
    requires forall j, l :: 0 <= j < |t.kept| && 0 <= l < |t.kept| && t.ranks[t.kept[j]] < t.ranks[t.kept[l]] ==>
               normalized[j] > normalized[l]
    ensures forall j :: 0 <= j < |added| && added[j].rank == Some(1) ==> added[j].normalizedRank == Some(1.0)
    ensures forall j, l :: 0 <= j < |added| && 0 <= l < |added| && added[j].rank.value < added[l].rank.value ==>
              added[j].normalizedRank.value > added[l].normalizedRank.value
  {
    ScoreRowsOfShape(t, candidates, nameAdduct, scorePipe, diffPipe, tool, usedPrefix, normalized);
  }

  /** normalize_rank_n (and the formula pipeline's normalize_rank) over
      kept ranks that are at least 1 and include 1: rank 1 gets 1, and a
      worse rank a smaller value. */
  lemma NormalizedNRows(t: Ranked, added: seq<ScoreRow>, candidates: seq<Option<string>>,
                        nameAdduct: map<string, string>, scorePipe: real -> real, diffPipe: real -> real,
                        tool: string, usedPrefix: Option<string>)
    requires t.Valid() && |candidates| == |t.names|
    requires forall j :: 0 <= j < |t.kept| ==> 1 <= t.ranks[t.kept[j]]
    requires t.kept != [] ==> 1 in Pick(t.ranks, t.kept)
    requires added == ScoreRowsOf(t, candidates, nameAdduct, scorePipe, diffPipe, tool, usedPrefix,
                                  NormalizeRankN(Pick(t.ranks, t.kept)))
    ensures forall j :: 0 <= j < |added| && added[j].rank == Some(1) ==> added[j].normalizedRank == Some(1.0)
    ensures forall j, l :: 0 <= j < |added| && 0 <= l < |added| && added[j].rank.value < added[l].rank.value ==>
              added[j].normalizedRank.value > added[l].normalizedRank.value
  {
    var kr := Pick(t.ranks, t.kept);
    NormalizeRankNDecreasing(kr);
    if kr != [] {
      assert MinOf(kr) == 1;
    }
    DecreasingRows(t, added, candidates, nameAdduct, scorePipe, diffPipe, tool, usedPrefix, NormalizeRankN(kr));
  }

  /** Score row j of the kept rows: the tool tag, its kept row's filename,
      the adduct looked up for it, a rank between 1 and k, and
      `{prefix}{rank}` as Used_tools when the tool writes one. */
  predicate TaggedRow(t: Ranked, rows: seq<ScoreRow>, nameAdduct: map<string, string>, tool: string,
                      usedPrefix: Option<string>, k: int, j: nat)
    requires t.Valid() && |rows| == |t.kept| && j < |rows|
  {
    rows[j].toolName == Some(tool)
    && rows[j].filename == Some(t.names[t.kept[j]])
    && rows[j].adduct == AdductOf(nameAdduct, t.names[t.kept[j]])
    && rows[j].rank.Some? && 1 <= rows[j].rank.value <= k
    && rows[j].usedTools == (if usedPrefix.Some? then Some(usedPrefix.value + IntToString(rows[j].rank.value)) else None)
  }

  /** The score rows of the rows head(k) keeps, when those carry ranks in
      1..k: every row is a TaggedRow, and each filename keeps min(k, its
      row count) rows. */
  lemma KeptScoreRows(t: Ranked, added: seq<ScoreRow>, candidates: seq<Option<string>>,
                      nameAdduct: map<string, string>, scorePipe: real -> real, diffPipe: real -> real,
                      tool: string, usedPrefix: Option<string>, normalized: seq<real>, k: nat, x: string)
    requires t.Valid() && |candidates| == |t.names| && |normalized| == |t.kept|
    requires t.kept == HeadIndices(t.names, k)
    requires forall j :: 0 <= j < |t.kept| ==> 1 <= t.ranks[t.kept[j]] <= k
    requires added == ScoreRowsOf(t, candidates, nameAdduct, scorePipe, diffPipe, tool, usedPrefix, normalized)
    ensures forall j :: 0 <= j < |added| ==> TaggedRow(t, added, nameAdduct, tool, usedPrefix, k, j)
    ensures CountIn(Pick(t.names, t.kept), x) == Min(k, CountIn(t.names, x))
  {
    BoundedScoreRows(t, candidates, nameAdduct, scorePipe, diffPipe, tool, usedPrefix, normalized, k);
    HeadCount(t.names, k, x);
  }


  /** The score rows of a table ranked by its own filenames: each carries
      its kept row's filename, the looked-up adduct, the tool tag and a rank
      between 1 and k, and each filename keeps min(k, its row count) rows. */
  lemma TopScoreRows(names: seq<string>, scores: seq<Option<real>>, k: nat, candidates: seq<Option<string>>,
                     nameAdduct: map<string, string>, scorePipe: real -> real, diffPipe: real -> real,
                     tool: string, usedPrefix: Option<string>, normalized: seq<real>, x: string)
    requires |scores| == |names| && |candidates| == |names| && |normalized| == |HeadIndices(names, k)|
    ensures var t := RankRows(names, names, scores, k);
      var rows := ScoreRowsOf(t, candidates, nameAdduct, scorePipe, diffPipe, tool, usedPrefix, normalized);
      (forall j :: 0 <= j < |rows| ==>
            rows[j].toolName == Some(tool)
            && rows[j].filename == Some(t.names[t.kept[j]])
            && rows[j].adduct == AdductOf(nameAdduct, t.names[t.kept[j]])
            && rows[j].rank == Some(Pick(t.ranks, t.kept)[j])
            && 1 <= rows[j].rank.value <= k
            && rows[j].usedTools == (if usedPrefix.Some? then Some(usedPrefix.value + IntToString(rows[j].rank.value)) else None)
            && rows[j].normalizedRank == Some(normalized[j]))
      && CountIn(Pick(t.names, t.kept), x) == Min(k, CountIn(t.names, x))
  {
    var t := RankRows(names, names, scores, k);
    var rows := ScoreRowsOf(t, candidates, nameAdduct, scorePipe, diffPipe, tool, usedPrefix, normalized);
    var kr := Pick(t.ranks, t.kept);
    KeptRanks(names, k);
    ScoreRowsOfShape(t, candidates, nameAdduct, scorePipe, diffPipe, tool, usedPrefix, normalized);
    forall j | 0 <= j < |rows|
      ensures rows[j].rank == Some(kr[j]) && 1 <= rows[j].rank.value <= k
    {
    }
    HeadCount(names, k, x);
  }

  /** Counting a finer key never exceeds counting the coarser key every one
      of its rows maps to. */
  lemma {:induction false} CountInCoarser(fine: seq<string>, coarse: seq<string>, x: string, y: string)
    requires |fine| == |coarse|
    requires forall j :: 0 <= j < |fine| && fine[j] == x ==> coarse[j] == y
    ensures CountIn(fine, x) <= CountIn(coarse, y)
  {
    if fine != [] {
      var n := |fine| - 1;
      CountInCoarser(fine[..n], coarse[..n], x, y);
    }
  }

  /** Ranks counted per a finer key than the filename (MS-FINDER's
      `File name`) still lie between 1 and k on the rows head(k) keeps by
      filename. */
  lemma FinerRanksWithinHead(names: seq<string>, idents: seq<string>, k: int, i: nat)
    requires |idents| == |names|
    requires forall a, b :: 0 <= a < |names| && 0 <= b < |names| && idents[a] == idents[b] ==> names[a] == names[b]
    requires i in HeadIndices(names, k)
    ensures i < |names| && 1 <= GroupRank(idents, i) <= k
  {
    HeadIndicesSpec(names, k);
    var idx := HeadIndices(names, k);
    var j :| 0 <= j < |idx| && idx[j] == i;
    GroupRankFirst(idents, i);
    CountInCoarser(idents[..i], names[..i], idents[i], names[i]);
  }

  /** The pivot cells (filename, rank, value) of the kept rows. */
  function Cells(t: Ranked, values: seq<string>): (cells: seq<(string, int, string)>)
    requires t.Valid() && |values| == |t.names|
    ensures |cells| == |t.kept|
  {
    seq(|t.kept|, j requires 0 <= j < |t.kept| => (t.names[t.kept[j]], t.ranks[t.kept[j]], values[t.kept[j]]))
  }

  /** A table ranked by its own filename column pivots without repeated
      cells, so its pivots never raise. */
  lemma RankedCellsDistinct(names: seq<string>, scores: seq<Option<real>>, k: int, values: seq<string>)
    requires |scores| == |names| && |values| == |names|
    ensures DistinctCells(Cells(RankRows(names, names, scores, k), values))
  {
    HeadIndicesSpec(names, k);
    var t := RankRows(names, names, scores, k);
    var idx := t.kept;
    var cells := Cells(t, values);
    forall i, j | 0 <= i < j < |cells| ensures (cells[i].0, cells[i].1) != (cells[j].0, cells[j].1) {
      assert idx[i] < idx[j];
      assert t.ranks[idx[i]] == GroupRank(names, idx[i]) && t.ranks[idx[j]] == GroupRank(names, idx[j]);
      if names[idx[i]] == names[idx[j]] {
        GroupRankIncreasing(names, idx[i], idx[j]);
      }
    }
  }
}
