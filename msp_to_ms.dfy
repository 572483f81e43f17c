/** MSP text to SIRIUS `.ms` text (msemblator/msp_to_ms.py).
    The converter walks the stripped lines once, holding an open record, a
    peak flag and the list of finished blocks; this module states that walk
    as a left fold (`Run`), proves the loop of `ConvertMspToMs` against it and
    proves what the fold guarantees about the records it emits. */
module MspToMs {
  import opened Wrappers
  import opened Text

  /** The spectrum dictionary once a NAME line has opened it. */
  datatype Spectrum = Spectrum(
    compound: string, formula: string, parentmass: string, ionization: string, ms2: seq<string>)

  /** The loop variables between two lines. `current` is `None` while the
      dictionary holds no `ms2` key: fields seen before any NAME line are
      overwritten by the next NAME line and never reach the output, so only
      their absence is kept. */
  datatype Parse = Parse(current: Option<Spectrum>, inPeaks: bool, emitted: seq<Spectrum>)

  /** `line.casefold().startswith(key)` for a lower-case key. */
  predicate HasKey(line: string, key: string) {
    LowerStartsWith(line, key)
  }

  /** `line.split(':', 1)[1].strip()`. */
  function FieldValue(line: string): string {
    Strip(AfterFirst(line, ':'))
  }

  /** The PRECURSORTYPE rewrite: only `[M+NH4]+` changes, and nothing is
      rewritten into `[M+NH4]+`. */
  function Ionization(v: string): (r: string)
    ensures r != "[M+NH4]+"
    ensures (r != v) <==> v == "[M+NH4]+"
  {
    if v == "[M+NH4]+" then "[M+H3N+H]+" else v
  }

  /** A re-emitted peak line: the two whitespace-separated tokens joined by a tab. */
  function PeakEntry(toks: seq<string>): string
    requires |toks| == 2
  {
    toks[0] + "\t" + toks[1]
  }

  function Flush(current: Option<Spectrum>): seq<Spectrum> {
    if current.Some? then [current.value] else []
  }

  function SetFormula(c: Option<Spectrum>, v: string): Option<Spectrum> {
    if c.Some? then Some(c.value.(formula := v)) else None
  }

  function SetParentMass(c: Option<Spectrum>, v: string): Option<Spectrum> {
    if c.Some? then Some(c.value.(parentmass := v)) else None
  }

  function SetIonization(c: Option<Spectrum>, v: string): Option<Spectrum> {
    if c.Some? then Some(c.value.(ionization := Ionization(v))) else None
  }

  /** What a stripped line is to the loop, tested in the source's order:
      blank, then the five case-insensitive key prefixes, then anything else
      (split on whitespace in case it is a peak line). */
  datatype LineKind =
    | Blank
    | NameLine(value: string)
    | FormulaLine(value: string)
    | MzLine(value: string)
    | TypeLine(value: string)
    | NumPeaksLine
    | OtherLine(tokens: seq<string>)

  function Classify(line: string): LineKind {
    if line == [] then Blank
    else if HasKey(line, "name:") then NameLine(FieldValue(line))
    else if HasKey(line, "formula:") then FormulaLine(FieldValue(line))
    else if HasKey(line, "precursormz:") then MzLine(FieldValue(line))
    else if HasKey(line, "precursortype:") then TypeLine(FieldValue(line))
    else if HasKey(line, "num peaks:") then NumPeaksLine
    else OtherLine(SplitWhitespace(line))
  }

  /** The tokens of a line that is not blank and not a key line are
      non-empty runs of non-whitespace characters. */
  predicate ValidKind(kind: LineKind) {
    kind.OtherLine? ==> forall k :: 0 <= k < |kind.tokens| ==> kind.tokens[k] != [] && NoSpace(kind.tokens[k])
  }

  /** The loop's view of each input line, which it strips before testing. */
  function Kinds(lines: seq<string>): (kinds: seq<LineKind>)
    ensures |kinds| == |lines|
  {
    if lines == [] then [] else Kinds(lines[..|lines| - 1]) + [Classify(Strip(lines[|lines| - 1]))]
  }

  lemma ClassifyValid(line: string)
    ensures ValidKind(Classify(line))
  {
  }

  lemma {:induction false} KindsValid(lines: seq<string>)
    ensures forall i :: 0 <= i < |lines| ==> ValidKind(Kinds(lines)[i])
  {
    if lines != [] {
      KindsValid(lines[..|lines| - 1]);
      ClassifyValid(Strip(lines[|lines| - 1]));
    }
  }

  /** One iteration of the line loop. A two-token peak line with no open
      record indexes the missing `ms2` key, and the KeyError propagates out of
      the converter. */
  function Step(st: Parse, kind: LineKind): Result<Parse> {
    match kind
    case Blank => Ok(Parse(None, false, st.emitted + Flush(st.current)))
    case NameLine(v) => Ok(Parse(Some(Spectrum(v, "", "", "", [])), st.inPeaks, st.emitted + Flush(st.current)))
    case FormulaLine(v) => Ok(st.(current := SetFormula(st.current, v)))
    case MzLine(v) => Ok(st.(current := SetParentMass(st.current, v)))
    case TypeLine(v) => Ok(st.(current := SetIonization(st.current, v)))
    case NumPeaksLine => Ok(st.(inPeaks := true))
    case OtherLine(toks) =>
      if !st.inPeaks || |toks| != 2 then Ok(st)
      else if st.current.None? then Err(KeyError("ms2"))
      else
        var c := st.current.value;
        Ok(st.(current := Some(c.(ms2 := c.ms2 + [PeakEntry(toks)]))))
  }

  const Start := Parse(None, false, [])

  /** The loop state after the given lines (a left fold of `Step`). */
  function Run(kinds: seq<LineKind>): Result<Parse> {
    if kinds == [] then Ok(Start)
    else
      match Run(kinds[..|kinds| - 1])
      case Err(e) => Err(e)
      case Ok(st) => Step(st, kinds[|kinds| - 1])
  }

  function Lines(mspData: string): seq<string> {
    SplitLines(Strip(mspData))
  }

  /** The records the converter formats, in output order: those flushed by the
      loop and the one still open at the end of the input. */
  function Records(mspData: string): Result<seq<Spectrum>> {
    match Run(Kinds(Lines(mspData)))
    case Err(e) => Err(e)
    case Ok(st) => Ok(st.emitted + Flush(st.current))
  }

  /** format_ms: five header lines, then the peaks one per line. */
  function FormatMs(s: Spectrum): string {
    (">compound " + s.compound) + "\n"
    + ((">formula " + s.formula) + "\n"
    + ((">parentmass " + s.parentmass) + "\n"
    + ((">ionization " + s.ionization) + "\n"
    + (">ms2" + "\n" + Join("\n", s.ms2)))))
  }

  function FormatAll(recs: seq<Spectrum>): (out: seq<string>)
    ensures |out| == |recs|
    ensures forall i :: 0 <= i < |recs| ==> out[i] == FormatMs(recs[i])
  {
    if recs == [] then [] else FormatAll(recs[..|recs| - 1]) + [FormatMs(recs[|recs| - 1])]
  }

  /** The loop's result on the given lines: the formatted records separated
      by blank lines. */
  function ConvertedLines(lines: seq<string>): Result<string> {
    match Run(Kinds(lines))
    case Err(e) => Err(e)
    case Ok(st) => Ok(Join("\n\n", FormatAll(st.emitted + Flush(st.current))))
  }

  /** The converter's result. */
  function Converted(mspData: string): Result<string> {
    ConvertedLines(Lines(mspData))
  }

  /** convert_msp_to_ms: strip the text, split it into lines and run the loop. */
  method ConvertMspToMs(mspData: string) returns (r: Result<string>)
    ensures r == Converted(mspData)
  {
    r := ConvertLines(Lines(mspData));
  }

  /** The line loop of convert_msp_to_ms, with the loop variables of the source. */
  method ConvertLines(lines: seq<string>) returns (r: Result<string>)
    ensures r == ConvertedLines(lines)
  {
    var msData: seq<string> := [];
    var spectrum: Option<Spectrum> := None;
    var isInPeaks := false;
    ghost var emitted: seq<Spectrum> := [];
    var i := 0;
    while i < |lines|
      invariant 0 <= i <= |lines|
      invariant Run(Kinds(lines[..i])) == Ok(Parse(spectrum, isInPeaks, emitted))
      invariant msData == FormatAll(emitted)
    {
      var line := Strip(lines[i]);
      assert lines[..i + 1][..i] == lines[..i];
      assert Kinds(lines[..i + 1]) == Kinds(lines[..i]) + [Classify(line)];
      RunSnoc(Kinds(lines[..i]), Classify(line));
      var failed;
      failed, spectrum, isInPeaks, msData, emitted := LoopBody(spectrum, isInPeaks, msData, emitted, line);
      if failed {
        RunFailureSticks(lines, i + 1);
        return Err(KeyError("ms2"));
      }
      i := i + 1;
    }
    assert lines[..i] == lines;
    if spectrum.Some? {
      FormatAllSnoc(emitted, spectrum.value);
      msData := msData + [FormatMs(spectrum.value)];
      emitted := emitted + [spectrum.value];
    } else {
      assert emitted + Flush(spectrum) == emitted;
    }
    r := Ok(Join("\n\n", msData));
  }

  /** The body of the line loop on one stripped line; `failed` reports the
      KeyError of a peak line that arrives with no open record. */
  method LoopBody(spectrum: Option<Spectrum>, isInPeaks: bool, msData: seq<string>,
                  ghost emitted: seq<Spectrum>, line: string)
    returns (failed: bool, spectrum': Option<Spectrum>, isInPeaks': bool, msData': seq<string>,
             ghost emitted': seq<Spectrum>)
    requires msData == FormatAll(emitted)
    ensures var next := Step(Parse(spectrum, isInPeaks, emitted), Classify(line));
      if failed then next == Err(KeyError("ms2"))
      else next == Ok(Parse(spectrum', isInPeaks', emitted')) && msData' == FormatAll(emitted')
  {
    failed, spectrum', isInPeaks', msData', emitted' := false, spectrum, isInPeaks, msData, emitted;
    match Classify(line) {
      case Blank =>
        if spectrum.Some? {
          FormatAllSnoc(emitted, spectrum.value);
          msData' := msData + [FormatMs(spectrum.value)];
          emitted' := emitted + [spectrum.value];
          spectrum' := None;
        } else {
          assert emitted + Flush(spectrum) == emitted;
        }
        isInPeaks' := false;
      case NameLine(compound) =>
        if spectrum.Some? {
          FormatAllSnoc(emitted, spectrum.value);
          msData' := msData + [FormatMs(spectrum.value)];
          emitted' := emitted + [spectrum.value];
        } else {
          assert emitted + Flush(spectrum) == emitted;
        }
        spectrum' := Some(Spectrum(compound, "", "", "", []));
      case FormulaLine(v) =>
        spectrum' := SetFormula(spectrum, v);
      case MzLine(v) =>
        spectrum' := SetParentMass(spectrum, v);
      case TypeLine(v) =>
        spectrum' := SetIonization(spectrum, v);
      case NumPeaksLine =>
        isInPeaks' := true;
      case OtherLine(mzIntensity) =>
        if isInPeaks && |mzIntensity| == 2 {
          if spectrum.None? {
            failed := true;
          } else {
            var c := spectrum.value;
            spectrum' := Some(c.(ms2 := c.ms2 + [PeakEntry(mzIntensity)]));
          }
        }
    }
  }

  lemma FormatAllSnoc(recs: seq<Spectrum>, s: Spectrum)
    ensures FormatAll(recs + [s]) == FormatAll(recs) + [FormatMs(s)]
  {
    assert (recs + [s])[..|recs|] == recs;
  }

  lemma RunSnoc(kinds: seq<LineKind>, k: LineKind)
    ensures Run(kinds + [k]) == match Run(kinds) case Err(e) => Err(e) case Ok(st) => Step(st, k)
  {
    assert (kinds + [k])[..|kinds|] == kinds;
  }

  /** Once the loop has raised, the converter's result is that error. */
  lemma {:induction false} RunFailureSticks(lines: seq<string>, j: nat)
    requires j <= |lines| && Run(Kinds(lines[..j])).Err?
    ensures Run(Kinds(lines)) == Run(Kinds(lines[..j]))
    decreases |lines| - j
  {
    if j < |lines| {
      assert lines[..j + 1][..j] == lines[..j];
      RunSnoc(Kinds(lines[..j]), Classify(Strip(lines[j])));
      RunFailureSticks(lines, j + 1);
    } else {
      assert lines[..j] == lines;
    }
  }

  // ---------------------------------------------------------------------------
  // What the fold guarantees

  /** The compound names of the NAME lines, in input order. */
  function NameValues(kinds: seq<LineKind>): seq<string> {
    if kinds == [] then []
    else
      var last := kinds[|kinds| - 1];
      NameValues(kinds[..|kinds| - 1]) + (if last.NameLine? then [last.value] else [])
  }

  function Compounds(recs: seq<Spectrum>): (names: seq<string>)
    ensures |names| == |recs|
  {
    if recs == [] then [] else Compounds(recs[..|recs| - 1]) + [recs[|recs| - 1].compound]
  }

  lemma CompoundsAppend(a: seq<Spectrum>, b: seq<Spectrum>)
    ensures Compounds(a + b) == Compounds(a) + Compounds(b)
    decreases |b|
  {
    if b == [] {
      assert a + b == a;
    } else {
      assert (a + b)[..|a + b| - 1] == a + b[..|b| - 1];
      CompoundsAppend(a, b[..|b| - 1]);
    }
  }

  lemma {:induction false} RunTracksNames(kinds: seq<LineKind>)
    requires Run(kinds).Ok?
    ensures Compounds(Run(kinds).value.emitted + Flush(Run(kinds).value.current)) == NameValues(kinds)
  {
    if kinds != [] {
      var pre := kinds[..|kinds| - 1];
      var last := kinds[|kinds| - 1];
      assert Run(pre).Ok?;
      RunTracksNames(pre);
      var st := Run(pre).value;
      assert Run(kinds) == Step(st, last);
      var st' := Run(kinds).value;
      var before := st.emitted + Flush(st.current);
      var after := st'.emitted + Flush(st'.current);
      if last.Blank? {
        assert st'.emitted == before && st'.current == None;
        assert after == before;
        assert NameValues(kinds) == NameValues(pre);
      } else if last.NameLine? {
        var newRec := Spectrum(last.value, "", "", "", []);
        assert after == before + [newRec];
        CompoundsAppend(before, [newRec]);
        assert NameValues(kinds) == NameValues(pre) + [last.value];
      } else {
        assert NameValues(kinds) == NameValues(pre);
        assert st'.emitted == st.emitted;
        assert Compounds(Flush(st'.current)) == Compounds(Flush(st.current));
        CompoundsAppend(st.emitted, Flush(st.current));
        CompoundsAppend(st'.emitted, Flush(st'.current));
      }
    }
  }

  /** Every NAME line opens exactly one record and every opened record is
      emitted exactly once, in input order: the compounds of the converted
      records are the NAME values of the input lines. */
  lemma RecordsFollowNameLines(mspData: string)
    requires Records(mspData).Ok?
    ensures Compounds(Records(mspData).value) == NameValues(Kinds(Lines(mspData)))
  {
    RunTracksNames(Kinds(Lines(mspData)));
  }

  /** The only failure is the missing `ms2` key. */
  lemma {:induction false} RunFailsOnlyOnMissingPeaks(kinds: seq<LineKind>)
    requires Run(kinds).Err?
    ensures Run(kinds).error == KeyError("ms2")
  {
    if kinds != [] && Run(kinds[..|kinds| - 1]).Err? {
      RunFailsOnlyOnMissingPeaks(kinds[..|kinds| - 1]);
    }
  }

  // ---------------------------------------------------------------------------
  // Shape of the emitted records

  /** A kept peak: two non-empty whitespace-free tokens joined by one tab. */
  predicate IsPeakEntry(p: string) {
    '\t' in p
    && BeforeFirst(p, '\t') != [] && NoSpace(BeforeFirst(p, '\t'))
    && AfterFirst(p, '\t') != [] && NoSpace(AfterFirst(p, '\t'))
  }

  lemma PeakEntryShape(a: string, b: string)
    requires a != [] && b != [] && NoSpace(a) && NoSpace(b)
    ensures IsPeakEntry(a + "\t" + b)
  {
    var p := a + "\t" + b;
    assert IsSpace('\t');
    assert '\t' !in a;
    assert p[|a|] == '\t' && p[..|a|] == a;
    assert IndexOf(p, '\t') == |a|;
    assert p[|a| + 1..] == b;
  }

  predicate WellFormed(s: Spectrum) {
    s.ionization != "[M+NH4]+"
    && forall k :: 0 <= k < |s.ms2| ==> IsPeakEntry(s.ms2[k])
  }

  predicate AllWellFormed(recs: seq<Spectrum>) {
    forall k :: 0 <= k < |recs| ==> WellFormed(recs[k])
  }

  lemma {:induction false} StepKeepsWellFormed(st: Parse, kind: LineKind)
    requires ValidKind(kind)
    requires AllWellFormed(st.emitted + Flush(st.current))
    requires Step(st, kind).Ok?
    ensures AllWellFormed(Step(st, kind).value.emitted + Flush(Step(st, kind).value.current))
  {
    var all := st.emitted + Flush(st.current);
    assert forall k :: 0 <= k < |st.emitted| ==> st.emitted[k] == all[k];
    if st.current.Some? {
      assert all[|all| - 1] == st.current.value;
      if kind.OtherLine? && st.inPeaks && |kind.tokens| == 2 {
        var c := st.current.value;
        var toks := kind.tokens;
        PeakEntryShape(toks[0], toks[1]);
        var c' := c.(ms2 := c.ms2 + [PeakEntry(toks)]);
        assert WellFormed(c') by {
          assert forall k :: 0 <= k < |c.ms2| ==> c'.ms2[k] == c.ms2[k];
        }
      }
    }
  }

  lemma {:induction false} RunWellFormed(kinds: seq<LineKind>)
    requires forall i :: 0 <= i < |kinds| ==> ValidKind(kinds[i])
    requires Run(kinds).Ok?
    ensures AllWellFormed(Run(kinds).value.emitted + Flush(Run(kinds).value.current))
  {
    if kinds != [] {
      RunWellFormed(kinds[..|kinds| - 1]);
      StepKeepsWellFormed(Run(kinds[..|kinds| - 1]).value, kinds[|kinds| - 1]);
    }
  }

  /** No emitted record carries the adduct `[M+NH4]+` (it was rewritten), and
      every ms2 line is a pair of tokens joined by a tab. */
  lemma RecordsWellFormed(mspData: string)
    requires Records(mspData).Ok?
    ensures AllWellFormed(Records(mspData).value)
  {
    KindsValid(Lines(mspData));
    RunWellFormed(Kinds(Lines(mspData)));
  }

  // ---------------------------------------------------------------------------
  // format_ms layout

  predicate NoNewline(s: Spectrum) {
    '\n' !in s.compound && '\n' !in s.formula && '\n' !in s.parentmass && '\n' !in s.ionization
    && forall k :: 0 <= k < |s.ms2| ==> '\n' !in s.ms2[k]
  }

  function Header(s: Spectrum): seq<string> {
    [">compound " + s.compound, ">formula " + s.formula, ">parentmass " + s.parentmass,
     ">ionization " + s.ionization, ">ms2"]
  }

  lemma JoinCons(sep: string, x: string, rest: seq<string>)
    requires rest != []
    ensures Join(sep, [x] + rest) == x + sep + Join(sep, rest)
  {
    assert ([x] + rest)[1..] == rest;
  }

  /** The converted text is the blank-line-separated join of the formatted
      records, in the order `Records` lists them. */
  lemma ConvertedIsJoinOfRecords(mspData: string)
    ensures Converted(mspData).Ok? <==> Records(mspData).Ok?
    ensures Records(mspData).Ok? ==> Converted(mspData).value == Join("\n\n", FormatAll(Records(mspData).value))
  {
  }

  /** The lines format_ms separates with newlines: the five header lines,
      then the peak lines (one empty line when there are none). */
  function MsLines(s: Spectrum): seq<string> {
    Header(s) + (if s.ms2 == [] then [""] else s.ms2)
  }

  lemma FormatMsIsJoin(s: Spectrum)
    ensures FormatMs(s) == Join("\n", MsLines(s))
  {
    var body := if s.ms2 == [] then [""] else s.ms2;
    assert Join("\n", body) == Join("\n", s.ms2);
    JoinFive(">compound " + s.compound, ">formula " + s.formula, ">parentmass " + s.parentmass,
             ">ionization " + s.ionization, ">ms2", body);
  }

  /** Five lines joined in front of a non-empty rest, nested as format_ms
      writes them. */
  lemma JoinFive(a: string, b: string, c: string, d: string, e: string, body: seq<string>)
    requires body != []
    ensures Join("\n", [a, b, c, d, e] + body)
         == a + "\n" + (b + "\n" + (c + "\n" + (d + "\n" + (e + "\n" + Join("\n", body)))))
  {
    var b4 := [e] + body;
    var b3 := [d] + b4;
    var b2 := [c] + b3;
    var b1 := [b] + b2;
    assert [a] + b1 == [a, b, c, d, e] + body;
    var j4 := Join("\n", b4);
    assert j4 == e + "\n" + Join("\n", body) by { JoinCons("\n", e, body); }
    var j3 := Join("\n", b3);
    assert j3 == d + "\n" + j4 by { JoinCons("\n", d, b4); }
    var j2 := Join("\n", b2);
    assert j2 == c + "\n" + j3 by { JoinCons("\n", c, b3); }
    var j1 := Join("\n", b1);
    assert j1 == b + "\n" + j2 by { JoinCons("\n", b, b2); }
    JoinCons("\n", a, b1);
  }

  /** format_ms emits exactly the compound, formula, parentmass, ionization
      and ms2 header lines, in that order, followed by the peak lines (one
      empty line when there are none). */
  lemma FormatMsLines(s: Spectrum)
    requires NoNewline(s)
    ensures SplitOn(FormatMs(s), '\n') == MsLines(s)
  {
    FormatMsIsJoin(s);
    var ls := MsLines(s);
    forall k | 0 <= k < |ls| ensures '\n' !in ls[k] {
      if k >= 5 && s.ms2 != [] {
        assert ls[k] == s.ms2[k - 5];
      }
    }
    JoinSplit(ls, '\n');
  }
}
