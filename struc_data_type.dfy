/** Helpers of the structure pipeline (script/convert_struc_data_type.py and
    the formula-pipeline copies in script/converting_data_type.py): the
    (compound, ionization) extractor, the MS-FINDER configuration rewrite and
    the three mappings of tool ranks into [0, 1]. */
module StrucDataType {
  import opened Wrappers
  import opened Text
  import opened Decimal

  // ---------------------------------------------------------------------------
  // extract_compound_and_ionization

  /** What a stripped line is to the extractor; keys are case-insensitive
      prefixes, NAME tested first. */
  datatype PairLine = BlankLine | NameLine(value: string) | TypeLine(value: string) | OtherLine

  /** `line.split(':', 1)[1].strip()`. */
  function FieldValue(line: string): string {
    Strip(AfterFirst(line, ':'))
  }

  function ClassifyPairLine(line: string): PairLine {
    if line == [] then BlankLine
    else if LowerStartsWith(line, "name:") then NameLine(FieldValue(line))
    else if LowerStartsWith(line, "precursortype:") then TypeLine(FieldValue(line))
    else OtherLine
  }

  function PairKinds(lines: seq<string>): (kinds: seq<PairLine>)
    ensures |kinds| == |lines|
  {
    if lines == [] then [] else PairKinds(lines[..|lines| - 1]) + [ClassifyPairLine(Strip(lines[|lines| - 1]))]
  }

  /** The loop variables: the compound of the current block and the pairs
      emitted so far (the dictionary's ionization entry is only ever read
      right after it is written, so it is not kept). */
  datatype PairState = PairState(compound: string, pairs: seq<(string, string)>)

  function PairStep(st: PairState, kind: PairLine): PairState {
    match kind
    case BlankLine => st.(compound := "")
    case NameLine(v) => st.(compound := v)
    case TypeLine(v) => st.(pairs := st.pairs + [(st.compound, v)])
    case OtherLine => st
  }

  function PairRun(kinds: seq<PairLine>): PairState {
    if kinds == [] then PairState("", [])
    else PairStep(PairRun(kinds[..|kinds| - 1]), kinds[|kinds| - 1])
  }

  function PairLines(mspData: string): seq<string> {
    SplitLines(Strip(mspData))
  }

  function Pairs(mspData: string): seq<(string, string)> {
    PairRun(PairKinds(PairLines(mspData))).pairs
  }

  /** extract_compound_and_ionization. */
  method ExtractCompoundAndIonization(mspData: string) returns (pairs: seq<(string, string)>)
    ensures pairs == Pairs(mspData)
  {
    var lines := PairLines(mspData);
    pairs := [];
    var compound := "";
    var i := 0;
    while i < |lines|
      invariant 0 <= i <= |lines|
      invariant PairRun(PairKinds(lines[..i])) == PairState(compound, pairs)
    {
      var line := Strip(lines[i]);
      assert lines[..i + 1][..i] == lines[..i];
      if line == [] {
        compound := "";
      } else if LowerStartsWith(line, "name:") {
        compound := FieldValue(line);
      } else if LowerStartsWith(line, "precursortype:") {
        pairs := pairs + [(compound, FieldValue(line))];
      }
      i := i + 1;
    }
    assert lines[..i] == lines;
  }

  /** The reference reading of a PRECURSORTYPE line at position i: its
      compound is the value of the nearest NAME line above it in the same
      blank-line-delimited block, or "" when there is none. */
  function CompoundAbove(kinds: seq<PairLine>, i: nat): string
    requires i <= |kinds|
  {
    if i == 0 then ""
    else match kinds[i - 1]
      case BlankLine => ""
      case NameLine(v) => v
      case _ => CompoundAbove(kinds, i - 1)
  }

  /** The reference list of pairs: one per PRECURSORTYPE line, in order. */
  function PairsOf(kinds: seq<PairLine>, n: nat): seq<(string, string)>
    requires n <= |kinds|
  {
    if n == 0 then []
    else PairsOf(kinds, n - 1) + (if kinds[n - 1].TypeLine? then [(CompoundAbove(kinds, n - 1), kinds[n - 1].value)] else [])
  }

  lemma CompoundAbovePrefix(kinds: seq<PairLine>, n: nat, i: nat)
    requires i <= n <= |kinds|
    ensures CompoundAbove(kinds[..n], i) == CompoundAbove(kinds, i)
    decreases i
  {
    if i > 0 {
      assert kinds[..n][i - 1] == kinds[i - 1];
      CompoundAbovePrefix(kinds, n, i - 1);
    }
  }

  lemma {:induction false} PairRunTracks(kinds: seq<PairLine>)
    ensures PairRun(kinds).compound == CompoundAbove(kinds, |kinds|)
    ensures PairRun(kinds).pairs == PairsOf(kinds, |kinds|)
  {
    if kinds != [] {
      var n := |kinds|;
      var pre := kinds[..n - 1];
      PairRunTracks(pre);
      CompoundAbovePrefix(kinds, n - 1, n - 1);
      PairsOfPrefix(kinds, n - 1, n - 1);
    }
  }

  lemma PairsOfPrefix(kinds: seq<PairLine>, n: nat, m: nat)
    requires m <= n <= |kinds|
    ensures PairsOf(kinds[..n], m) == PairsOf(kinds, m)
    decreases m
  {
    if m > 0 {
      assert kinds[..n][m - 1] == kinds[m - 1];
      PairsOfPrefix(kinds, n, m - 1);
      CompoundAbovePrefix(kinds, n, m - 1);
    }
  }

  /** One pair per PRECURSORTYPE line, in input order, each carrying that
      line's value and the compound of the nearest NAME line above it in the
      same block ("" when the block has none before it); NAME lines of blocks
      without a PRECURSORTYPE line contribute nothing. */
  lemma PairsFollowTypeLines(mspData: string)
    ensures var kinds := PairKinds(PairLines(mspData));
      Pairs(mspData) == PairsOf(kinds, |kinds|)
  {
    PairRunTracks(PairKinds(PairLines(mspData)));
  }

  /** The number of PRECURSORTYPE lines among the first n. */
  function TypeCount(kinds: seq<PairLine>, n: nat): nat
    requires n <= |kinds|
  {
    if n == 0 then 0 else TypeCount(kinds, n - 1) + (if kinds[n - 1].TypeLine? then 1 else 0)
  }

  lemma {:induction false} PairsOfCount(kinds: seq<PairLine>, n: nat)
    requires n <= |kinds|
    ensures |PairsOf(kinds, n)| == TypeCount(kinds, n)
  {
    if n > 0 { PairsOfCount(kinds, n - 1); }
  }

  /** A line that is blank resets the compound, so a PRECURSORTYPE line right
      after a blank line pairs with "". */
  lemma TypeAfterBlankHasNoCompound(kinds: seq<PairLine>, i: nat)
    requires 0 < i < |kinds| && kinds[i - 1].BlankLine?
    ensures CompoundAbove(kinds, i) == ""
  {
  }

  // ---------------------------------------------------------------------------
  // modify_msfinder_config_in_place

  const DbKey := "UserDefinedDbFilePath="

  /** One line of the rewrite: a line starting with the key (case-sensitive)
      becomes the key, the library path and a newline. */
  function ConfigLine(line: string, libraryPath: string): string {
    if DbKey <= line then DbKey + libraryPath + "\n" else line
  }

  /** The MS-FINDER method file, as the lines `readlines()` returns, which
      the rewrite replaces in place. */
  class MethodFile {
    var lines: seq<string>

    constructor (lines: seq<string>)
      ensures this.lines == lines
    {
      this.lines := lines;
    }

    /** modify_msfinder_config_in_place: the same number of lines, every
        `UserDefinedDbFilePath=` line replaced, every other line unchanged. */
    method ModifyInPlace(libraryPath: string)
      modifies this
      ensures |lines| == |old(lines)|
      ensures forall i :: 0 <= i < |lines| ==> lines[i] == ConfigLine(old(lines)[i], libraryPath)
    {
      var written: seq<string> := [];
      var i := 0;
      while i < |lines|
        invariant 0 <= i <= |lines| && lines == old(lines)
        invariant |written| == i
        invariant forall k :: 0 <= k < i ==> written[k] == ConfigLine(lines[k], libraryPath)
      {
        var line := lines[i];
        if DbKey <= line {
          line := DbKey + libraryPath + "\n";
        }
        written := written + [line];
        i := i + 1;
      }
      lines := written;
    }
  }

  /** Rewriting the method file twice with the same path gives the same file
      as rewriting it once. */
  lemma ConfigLineIdempotent(line: string, libraryPath: string)
    ensures ConfigLine(ConfigLine(line, libraryPath), libraryPath) == ConfigLine(line, libraryPath)
  {
    if !(DbKey <= line) && DbKey <= ConfigLine(line, libraryPath) {
      assert false;
    }
    if DbKey <= line {
      assert DbKey <= DbKey + libraryPath + "\n";
    }
  }

  // ---------------------------------------------------------------------------
  // Rank normalisation

  /** The smallest rank of a non-empty column. */
  function MinOf(xs: seq<int>): (m: int)
    requires xs != []
    ensures m in xs && forall i :: 0 <= i < |xs| ==> m <= xs[i]
  {
    if |xs| == 1 then xs[0]
    else
      var rest := MinOf(xs[1..]);
      assert forall i :: 1 <= i < |xs| ==> xs[i] == xs[1..][i - 1];
      if xs[0] <= rest then xs[0] else rest
  }

  /** The largest rank of a non-empty column. */
  function MaxOf(xs: seq<int>): (m: int)
    requires xs != []
    ensures m in xs && forall i :: 0 <= i < |xs| ==> xs[i] <= m
  {
    if |xs| == 1 then xs[0]
    else
      var rest := MaxOf(xs[1..]);
      assert forall i :: 1 <= i < |xs| ==> xs[i] == xs[1..][i - 1];
      if xs[0] >= rest then xs[0] else rest
  }

  /** MinMaxScaler on one value: (x - min) / (max - min), and 0 when every
      rank is the same (sklearn replaces a zero range by 1). */
  function Scaled(x: int, lo: int, hi: int): real {
    if hi == lo then 0.0 else (x - lo) as real / (hi - lo) as real
  }

  /** The values `MinMaxScaler().fit_transform(df[["rank"]])` gives a
      column with rows. On a column without rows the call raises instead
      (FitMinMax); the empty result here is never used. */
  function MinMax(ranks: seq<int>): (r: seq<real>)
    ensures |r| == |ranks|
  {
    if ranks == [] then []
    else
      var lo, hi := MinOf(ranks), MaxOf(ranks);
      seq(|ranks|, i requires 0 <= i < |ranks| => Scaled(ranks[i], lo, hi))
  }

  /** normalize_rank of script/convert_struc_data_type.py: the min-max value
      itself, an increasing mapping. */
  function NormalizeRank(ranks: seq<int>): (r: seq<real>)
    ensures |r| == |ranks|
  {
    MinMax(ranks)
  }

  /** normalize_rank_n (and normalize_rank of script/converting_data_type.py):
      one minus the min-max value, a decreasing mapping. */
  function NormalizeRankN(ranks: seq<int>): (r: seq<real>)
    ensures |r| == |ranks|
  {
    var m := MinMax(ranks);
    seq(|m|, i requires 0 <= i < |m| => 1.0 - m[i])
  }

  /** What scikit-learn raises when an estimator is fitted on no rows. */
  const NoSamples := ValueError("Found array with 0 sample(s) (shape=(0, 1)) while a minimum of 1 is required by MinMaxScaler.")

  /** The call normalize_rank and normalize_rank_n make: ValueError on a
      column without rows, else the column scaled into [0, 1]. */
  function FitMinMax(ranks: seq<int>): (r: Result<seq<real>>)
    ensures r.Err? <==> ranks == []
    ensures r.Err? ==> r.error == NoSamples
    ensures r.Ok? ==> r.value == MinMax(ranks)
    ensures r.Ok? ==> forall i :: 0 <= i < |ranks| ==> 0.0 <= r.value[i] <= 1.0
  {
    if ranks == [] then Err(NoSamples)
    else
      forall i | 0 <= i < |ranks| ensures 0.0 <= MinMax(ranks)[i] <= 1.0 {
        ScaledBounds(ranks[i], MinOf(ranks), MaxOf(ranks));
      }
      Ok(MinMax(ranks))
  }

  lemma ScaledBounds(x: int, lo: int, hi: int)
    requires lo <= x <= hi
    ensures 0.0 <= Scaled(x, lo, hi) <= 1.0
    ensures x == lo ==> Scaled(x, lo, hi) == 0.0
    ensures x == hi && lo < hi ==> Scaled(x, lo, hi) == 1.0
  {
    if lo < hi {
      assert (x - lo) as real <= (hi - lo) as real;
    }
  }

  lemma ScaledMonotone(x: int, y: int, lo: int, hi: int)
    requires lo <= x < y <= hi
    ensures Scaled(x, lo, hi) < Scaled(y, lo, hi)
  {
  }

  /** normalize_rank maps the smallest rank to 0 and the largest to 1 (when
      they differ), every rank into [0, 1], and a smaller rank to a smaller
      value: rank 1 gets the lowest value, the opposite of the other tools'
      mappings. */
  lemma NormalizeRankIncreasing(ranks: seq<int>)
    ensures forall i :: 0 <= i < |ranks| ==> 0.0 <= NormalizeRank(ranks)[i] <= 1.0
    ensures forall i :: 0 <= i < |ranks| && ranks[i] == MinOf(ranks) ==> NormalizeRank(ranks)[i] == 0.0
    ensures forall i :: 0 <= i < |ranks| && ranks[i] == MaxOf(ranks) && MinOf(ranks) < MaxOf(ranks) ==> NormalizeRank(ranks)[i] == 1.0
    ensures forall i, j :: 0 <= i < |ranks| && 0 <= j < |ranks| && ranks[i] < ranks[j] ==> NormalizeRank(ranks)[i] < NormalizeRank(ranks)[j]
  {
    forall i | 0 <= i < |ranks| ensures 0.0 <= NormalizeRank(ranks)[i] <= 1.0 {
      NormalizeRankAt(ranks, i);
      ScaledBounds(ranks[i], MinOf(ranks), MaxOf(ranks));
    }
    forall i | 0 <= i < |ranks| && ranks[i] == MinOf(ranks) ensures NormalizeRank(ranks)[i] == 0.0 {
      NormalizeRankAt(ranks, i);
      ScaledBounds(ranks[i], MinOf(ranks), MaxOf(ranks));
    }
    forall i | 0 <= i < |ranks| && ranks[i] == MaxOf(ranks) && MinOf(ranks) < MaxOf(ranks)
      ensures NormalizeRank(ranks)[i] == 1.0
    {
      NormalizeRankAt(ranks, i);
      ScaledBounds(ranks[i], MinOf(ranks), MaxOf(ranks));
    }
    forall i, j | 0 <= i < |ranks| && 0 <= j < |ranks| && ranks[i] < ranks[j]
      ensures NormalizeRank(ranks)[i] < NormalizeRank(ranks)[j]
    {
      NormalizeRankAt(ranks, i);
      NormalizeRankAt(ranks, j);
      ScaledMonotone(ranks[i], ranks[j], MinOf(ranks), MaxOf(ranks));
    }
  }

  lemma NormalizeRankAt(ranks: seq<int>, i: nat)
    requires i < |ranks|
    ensures MinOf(ranks) <= ranks[i] <= MaxOf(ranks)
    ensures NormalizeRank(ranks)[i] == Scaled(ranks[i], MinOf(ranks), MaxOf(ranks))
  {
  }

  /** normalize_rank_n maps the smallest rank to 1 and the largest to 0 (when
      they differ), every rank into [0, 1], and a smaller rank to a larger
      value. */
  lemma NormalizeRankNDecreasing(ranks: seq<int>)
    ensures forall i :: 0 <= i < |ranks| ==> 0.0 <= NormalizeRankN(ranks)[i] <= 1.0
    ensures forall i :: 0 <= i < |ranks| && ranks[i] == MinOf(ranks) ==> NormalizeRankN(ranks)[i] == 1.0
    ensures forall i :: 0 <= i < |ranks| && ranks[i] == MaxOf(ranks) && MinOf(ranks) < MaxOf(ranks) ==> NormalizeRankN(ranks)[i] == 0.0
    ensures forall i, j :: 0 <= i < |ranks| && 0 <= j < |ranks| && ranks[i] < ranks[j] ==> NormalizeRankN(ranks)[i] > NormalizeRankN(ranks)[j]
  {
    NormalizeRankIncreasing(ranks);
  }

  /** normalize_rank_score: `1 - log(rank) / log(max(rank) + 1)`, with the
      natural logarithm given as a function. */
  function NormalizeRankScore(ranks: seq<int>, ln: real -> real): (r: seq<real>)
    requires ranks != [] ==> ln(MaxOf(ranks) as real + 1.0) != 0.0
    ensures |r| == |ranks|
  {
    if ranks == [] then []
    else
      var d := ln(MaxOf(ranks) as real + 1.0);
      seq(|ranks|, i requires 0 <= i < |ranks| => 1.0 - ln(ranks[i] as real) / d)
  }

  /** What the summaries rely on of `np.log`: log 1 = 0 and the log of a
      number above 1 is positive. */
  ghost predicate LogLike(ln: real -> real) {
    ln(1.0) == 0.0 && forall x :: x > 1.0 ==> ln(x) > 0.0
  }

  /** With log 1 = 0, rank 1 is mapped to exactly 1. */
  lemma NormalizeRankScoreTop(ranks: seq<int>, ln: real -> real, i: nat)
    requires ranks != [] ==> ln(MaxOf(ranks) as real + 1.0) != 0.0
    requires ln(1.0) == 0.0
    requires i < |ranks| && ranks[i] == 1
    ensures NormalizeRankScore(ranks, ln)[i] == 1.0
  {
  }

  // ---------------------------------------------------------------------------
  // extract_used_tooks

  /** The one-hot tool columns of a formula-pipeline row; a column the row
      lacks reads as 0. */
  datatype FormulaToolFlags = FormulaToolFlags(buddy: int, msfinder: int, sirius: int)

  function ToolRank(name: string, rank: int): string {
    name + "(rank=" + IntToString(rank) + ")"
  }

  /** The tools whose flag equals 1, in the fixed tool order, each with the
      given rank. */
  function ToolRanks(names: (string, string, string), flags: (int, int, int), rank: int): seq<string> {
    (if flags.0 == 1 then [ToolRank(names.0, rank)] else [])
    + (if flags.1 == 1 then [ToolRank(names.1, rank)] else [])
    + (if flags.2 == 1 then [ToolRank(names.2, rank)] else [])
  }

  /** A provenance text: the flagged tools' `Name(rank=r)` joined by ", ";
      with no flag set it is empty. */
  function Provenance(names: (string, string, string), flags: (int, int, int), rank: int): (s: string)
    ensures flags.0 != 1 && flags.1 != 1 && flags.2 != 1 ==> s == ""
    ensures flags.0 == 1 ==> ToolRank(names.0, rank) <= s
    ensures flags.0 != 1 && flags.1 == 1 ==> ToolRank(names.1, rank) <= s
    ensures flags.0 != 1 && flags.1 != 1 && flags.2 == 1 ==> s == ToolRank(names.2, rank)
  {
    var ts := ToolRanks(names, flags, rank);
    JoinHead(", ", ts);
    Join(", ", ts)
  }

  const FormulaTools := ("msbuddy", "MS-FINDER", "SIRIUS")

  function UsedToolList(flags: FormulaToolFlags, rank: int): seq<string> {
    ToolRanks(FormulaTools, (flags.buddy, flags.msfinder, flags.sirius), rank)
  }

  /** The names of the tools whose flag equals 1, in list order. */
  function Flagged(tools: seq<(string, int)>): (names: seq<string>)
    ensures |names| <= |tools|
    ensures forall n :: n in names <==> exists i :: 0 <= i < |tools| && tools[i].1 == 1 && tools[i].0 == n
  {
    if tools == [] then []
    else
      assert forall i :: 1 <= i < |tools| ==> tools[i] == tools[1..][i - 1];
      (if tools[0].1 == 1 then [tools[0].0] else []) + Flagged(tools[1..])
  }

  /** The formula tools in the order of the one-hot columns, each with its
      flag. */
  function FormulaToolColumns(flags: FormulaToolFlags): seq<(string, int)> {
    [("msbuddy", flags.buddy), ("MS-FINDER", flags.msfinder), ("SIRIUS", flags.sirius)]
  }

  /** extract_used_tooks: the flagged tools among msbuddy, MS-FINDER and
      SIRIUS, in that order, each as `Name(rank=r)`, joined by ", ". */
  function ExtractUsedTools(flags: FormulaToolFlags, rank: int): (s: string)
    ensures flags.buddy != 1 && flags.msfinder != 1 && flags.sirius != 1 ==> s == ""
    ensures flags.buddy == 1 ==> ToolRank("msbuddy", rank) <= s
    ensures flags.buddy != 1 && flags.msfinder == 1 ==> ToolRank("MS-FINDER", rank) <= s
    ensures var names := Flagged(FormulaToolColumns(flags));
      s == Join(", ", seq(|names|, i requires 0 <= i < |names| => ToolRank(names[i], rank)))
  {
    UsedToolListFlagged(flags, rank);
    Provenance(FormulaTools, (flags.buddy, flags.msfinder, flags.sirius), rank)
  }

  /** Entry i of the tool list is the i-th flagged tool with the rank. */
  lemma UsedToolListFlagged(flags: FormulaToolFlags, rank: int)
    ensures var names := Flagged(FormulaToolColumns(flags));
      UsedToolList(flags, rank) == seq(|names|, i requires 0 <= i < |names| => ToolRank(names[i], rank))
  {
    var cols := FormulaToolColumns(flags);
    assert cols[1..][1..][1..] == [];
    var names := Flagged(cols);
    assert names == (if flags.buddy == 1 then ["msbuddy"] else []) + (if flags.msfinder == 1 then ["MS-FINDER"] else [])
      + (if flags.sirius == 1 then ["SIRIUS"] else []);
  }

  lemma JoinHead(sep: string, ts: seq<string>)
    ensures ts != [] ==> ts[0] <= Join(sep, ts)
  {
    if |ts| > 1 {
      assert Join(sep, ts) == ts[0] + (sep + Join(sep, ts[1..]));
    }
  }

  /** Every tool entry is the tool's name followed by its rank, and they
      come in the fixed order with exactly the flagged tools. */
  lemma UsedToolListShape(flags: FormulaToolFlags, rank: int)
    ensures var ts := UsedToolList(flags, rank);
      |ts| == (if flags.buddy == 1 then 1 else 0) + (if flags.msfinder == 1 then 1 else 0) + (if flags.sirius == 1 then 1 else 0)
    ensures flags.buddy == 1 && flags.sirius == 1 ==>
      var ts := UsedToolList(flags, rank);
      ts[0] == ToolRank("msbuddy", rank) && ts[|ts| - 1] == ToolRank("SIRIUS", rank)
  {
  }
}
