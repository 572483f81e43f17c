/** The MSP reader shared by both copies of creat_metfrag_file
    (msemblator/metfrag_file_processing.py and
    script/metfrag_file_processing.py), and the parameter-template rewrite
    each spectrum's MetFrag parameter file is made from. */
module MetfragParse {
  import opened Wrappers
  import opened Text
  import ChemData

  /** The spectrum dictionary. A key the source never set is None; the
      three keys ADDUCT, PrecursorIonMode and IsPositiveIonMode are always
      set together, so only the adduct is kept and the other two are
      derived from it. NeutralPrecursorMass is present (Some) as soon as a
      FORMULA line was read, and its value may itself be None. */
  datatype Spectrum = Spectrum(
    name: Option<string>,
    precursorMz: Option<string>,
    adduct: Option<string>,
    formula: Option<string>,
    mass: Option<Option<real>>,
    peaks: Option<seq<string>>)

  /** The empty dictionary `{}`. */
  const NoSpectrum := Spectrum(None, None, None, None, None, None)

  /** `{"[M+H]+": "1", "[M-H]-": "-1"}.get(adduct, "1")`. */
  function PrecursorIonMode(adduct: string): (mode: string)
    ensures mode == "1" || mode == "-1"
    ensures mode == "-1" <==> adduct == "[M-H]-"
  {
    if adduct == "[M+H]+" then "1"
    else if adduct == "[M-H]-" then "-1"
    else "1"
  }

  /** `"True" if "+" in adduct else "False"`. */
  function IsPositiveIonMode(adduct: string): (flag: string)
    ensures flag == "True" || flag == "False"
    ensures flag == "True" <==> '+' in adduct
  {
    if '+' in adduct then "True" else "False"
  }

  /** A negative adduct other than [M-H]- still gets ion mode 1, and one
      written with a '+' inside, such as the formate adduct, is even flagged
      positive. */
  lemma OtherNegativeAdductsGetModeOne()
    ensures PrecursorIonMode("[M-H2O-H]-") == "1" && IsPositiveIonMode("[M-H2O-H]-") == "False"
    ensures PrecursorIonMode("[M+FA-H]-") == "1" && IsPositiveIonMode("[M+FA-H]-") == "True"
  {
    assert "[M-H2O-H]-" != "[M-H]-" && "[M-H2O-H]-" != "[M+H]+";
    assert "[M+FA-H]-" != "[M-H]-" && "[M+FA-H]-" != "[M+H]+";
    assert "[M+FA-H]-"[2] == '+';
    var a := "[M-H2O-H]-";
    assert forall i :: 0 <= i < |a| ==> a[i] != '+';
  }

  // ---------------------------------------------------------------------------
  // The parse loop

  /** How the loop reads a line: by substring tests on the stripped,
      lower-cased line, in the order the source tests them. */
  datatype MspLine =
    | Blank
    | NameField(value: string)
    | MzField(value: string)
    | TypeField(value: string)
    | FormulaField(value: string)
    | NumPeaks
    | Other(text: string)

  /** `line.split(":", 1)[1].strip()`. */
  function FieldValue(line: string): string {
    Strip(AfterFirst(line, ':'))
  }

  function Classify(line: string): MspLine {
    var low := Lower(Strip(line));
    if low == [] then Blank
    else if Contains(low, "name:") then NameField(FieldValue(line))
    else if Contains(low, "precursormz:") then MzField(FieldValue(line))
    else if Contains(low, "precursortype:") then TypeField(FieldValue(line))
    else if Contains(low, "formula:") then FormulaField(FieldValue(line))
    else if Contains(low, "num peaks:") then NumPeaks
    else Other(Strip(line))
  }

  function Kinds(lines: seq<string>): (kinds: seq<MspLine>)
    ensures |kinds| == |lines|
  {
    if lines == [] then [] else Kinds(lines[..|lines| - 1]) + [Classify(lines[|lines| - 1])]
  }

  /** The loop variables `spectra`, `spectrum` and `is_in_peaks`. */
  datatype ParseState = ParseState(spectra: seq<Spectrum>, current: Spectrum, inPeaks: bool)

  const Start := ParseState([], NoSpectrum, false)

  /** One iteration of the loop; the formula's mass is computed against the
      atomic mass table. */
  function Step(table: map<string, real>, st: ParseState, kind: MspLine): ParseState {
    match kind
    case Blank =>
      if st.current != NoSpectrum then ParseState(st.spectra + [st.current], NoSpectrum, false) else st
    case NameField(v) => st.(current := st.current.(name := Some(v)))
    case MzField(v) => st.(current := st.current.(precursorMz := Some(v)))
    case TypeField(v) => st.(current := st.current.(adduct := Some(v)))
    case FormulaField(v) => st.(current := st.current.(formula := Some(v), mass := Some(ChemData.FormulaMass(table, v))))
    case NumPeaks => st.(inPeaks := true)
    case Other(t) =>
      if st.inPeaks then st.(current := st.current.(peaks := Some(st.current.peaks.GetOr([]) + [t]))) else st
  }

  function RunFrom(table: map<string, real>, st: ParseState, kinds: seq<MspLine>): ParseState {
    if kinds == [] then st
    else Step(table, RunFrom(table, st, kinds[..|kinds| - 1]), kinds[|kinds| - 1])
  }

  /** The flush after the loop: the last spectrum is kept if it is not empty. */
  function Finish(st: ParseState): seq<Spectrum> {
    if st.current != NoSpectrum then st.spectra + [st.current] else st.spectra
  }

  function SpectraOf(table: map<string, real>, kinds: seq<MspLine>): seq<Spectrum> {
    Finish(RunFrom(table, Start, kinds))
  }

  /** The spectra creat_metfrag_file reads from the MSP file's lines. */
  function Spectra(table: map<string, real>, lines: seq<string>): seq<Spectrum> {
    SpectraOf(table, Kinds(lines))
  }

  lemma RunFromSnoc(table: map<string, real>, st: ParseState, kinds: seq<MspLine>, k: MspLine)
    ensures RunFrom(table, st, kinds + [k]) == Step(table, RunFrom(table, st, kinds), k)
  {
    assert (kinds + [k])[..|kinds|] == kinds;
  }

  lemma KindsSnoc(lines: seq<string>, i: nat)
    requires i < |lines|
    ensures Kinds(lines[..i + 1]) == Kinds(lines[..i]) + [Classify(lines[i])]
  {
    assert lines[..i + 1][..i] == lines[..i];
  }

  /** The parse loop of creat_metfrag_file (both copies). */
  method ParseMsp(table: map<string, real>, lines: seq<string>) returns (spectra: seq<Spectrum>)
    ensures spectra == Spectra(table, lines)
  {
    spectra := [];
    var spectrum := NoSpectrum;
    var isInPeaks := false;
    var i := 0;
    while i < |lines|
      invariant 0 <= i <= |lines|
      invariant RunFrom(table, Start, Kinds(lines[..i])) == ParseState(spectra, spectrum, isInPeaks)
    {
      KindsSnoc(lines, i);
      RunFromSnoc(table, Start, Kinds(lines[..i]), Classify(lines[i]));
      spectra, spectrum, isInPeaks := ReadLine(table, spectra, spectrum, isInPeaks, lines[i]);
      i := i + 1;
    }
    assert lines[..i] == lines;
    if spectrum != NoSpectrum {
      spectra := spectra + [spectrum];
    }
  }

  /** The body of the parse loop. */
  method ReadLine(table: map<string, real>, spectra: seq<Spectrum>, spectrum: Spectrum, isInPeaks: bool, line: string)
    returns (spectra': seq<Spectrum>, spectrum': Spectrum, isInPeaks': bool)
    ensures ParseState(spectra', spectrum', isInPeaks') == Step(table, ParseState(spectra, spectrum, isInPeaks), Classify(line))
  {
    spectra', spectrum', isInPeaks' := spectra, spectrum, isInPeaks;
    match Classify(line)
    case Blank =>
      if spectrum != NoSpectrum {
        spectra' := spectra + [spectrum];
        spectrum' := NoSpectrum;
        isInPeaks' := false;
      }
    case NameField(v) => spectrum' := spectrum.(name := Some(v));
    case MzField(v) => spectrum' := spectrum.(precursorMz := Some(v));
    case TypeField(v) => spectrum' := spectrum.(adduct := Some(v));
    case FormulaField(v) =>
      spectrum' := spectrum.(formula := Some(v), mass := Some(ChemData.FormulaMass(table, v)));
    case NumPeaks => isInPeaks' := true;
    case Other(t) =>
      if isInPeaks {
        spectrum' := spectrum.(peaks := Some(spectrum.peaks.GetOr([]) + [t]));
      }
  }

  // ---------------------------------------------------------------------------
  // What the parse guarantees

  /** A spectrum whose FORMULA is known has its mass stored next to it,
      None when the formula names an element the mass table lacks. */
  predicate MassMatchesFormula(table: map<string, real>, s: Spectrum) {
    (s.formula.Some? <==> s.mass.Some?)
    && (s.formula.Some? ==> s.mass.value == ChemData.FormulaMass(table, s.formula.value))
  }

  predicate GoodState(table: map<string, real>, st: ParseState) {
    MassMatchesFormula(table, st.current)
    && forall i :: 0 <= i < |st.spectra| ==> st.spectra[i] != NoSpectrum && MassMatchesFormula(table, st.spectra[i])
  }

  lemma {:induction false} RunFromGood(table: map<string, real>, kinds: seq<MspLine>)
    ensures GoodState(table, RunFrom(table, Start, kinds))
  {
    if kinds != [] {
      RunFromGood(table, kinds[..|kinds| - 1]);
      StepKeepsGood(table, RunFrom(table, Start, kinds[..|kinds| - 1]), kinds[|kinds| - 1]);
    }
  }

  /** One step keeps every spectrum non-empty and its mass in step with its
      formula: a blank line closes only a non-empty spectrum, and a FORMULA
      line sets the mass with it. */
  lemma StepKeepsGood(table: map<string, real>, st: ParseState, kind: MspLine)
    requires GoodState(table, st)
    ensures GoodState(table, Step(table, st, kind))
  {
    if kind == Blank && st.current != NoSpectrum {
      var spectra := st.spectra + [st.current];
      assert forall i :: 0 <= i < |st.spectra| ==> spectra[i] == st.spectra[i];
    }
  }

  /** Every spectrum the reader returns is non-empty (a blank line after an
      empty spectrum closes nothing), and each one's NeutralPrecursorMass is
      present exactly when its FORMULA is, holding the formula's mass or
      None. */
  lemma SpectraAreNonEmpty(table: map<string, real>, lines: seq<string>)
    ensures forall i :: 0 <= i < |Spectra(table, lines)| ==>
      Spectra(table, lines)[i] != NoSpectrum && MassMatchesFormula(table, Spectra(table, lines)[i])
  {
    RunFromGood(table, Kinds(lines));
  }

  /** The spectra emitted so far are never revisited: running on from a
      state with more spectra in front keeps them in front. */
  lemma {:induction false} RunFromPrefix(table: map<string, real>, pre: seq<Spectrum>, st: ParseState, kinds: seq<MspLine>)
    ensures RunFrom(table, st.(spectra := pre + st.spectra), kinds)
      == RunFrom(table, st, kinds).(spectra := pre + RunFrom(table, st, kinds).spectra)
  {
    if kinds != [] {
      RunFromPrefix(table, pre, st, kinds[..|kinds| - 1]);
      var last := RunFrom(table, st, kinds[..|kinds| - 1]);
      if kinds[|kinds| - 1] == Blank && last.current != NoSpectrum {
        assert (pre + last.spectra) + [last.current] == pre + (last.spectra + [last.current]);
      }
    }
  }

  lemma {:induction false} RunFromAppend(table: map<string, real>, st: ParseState, a: seq<MspLine>, b: seq<MspLine>)
    ensures RunFrom(table, st, a + b) == RunFrom(table, RunFrom(table, st, a), b)
    decreases |b|
  {
    if b == [] {
      assert a + b == a;
    } else {
      var b' := b[..|b| - 1];
      assert a + b == (a + b') + [b[|b| - 1]];
      RunFromSnoc(table, st, a + b', b[|b| - 1]);
      RunFromAppend(table, st, a, b');
    }
  }

  /** Records separated by a blank line are read independently: when the
      first part leaves a non-empty spectrum open, the blank line closes it
      and resets the peak flag, and the rest is read as if from the start. */
  lemma BlankLineSeparatesRecords(table: map<string, real>, a: seq<MspLine>, b: seq<MspLine>)
    requires RunFrom(table, Start, a).current != NoSpectrum
    ensures SpectraOf(table, a + [Blank] + b) == SpectraOf(table, a) + SpectraOf(table, b)
  {
    var mid := RunFrom(table, Start, a + [Blank]);
    RunFromSnoc(table, Start, a, Blank);
    assert mid == Start.(spectra := SpectraOf(table, a) + Start.spectra);
    RunFromAppend(table, Start, a + [Blank], b);
    RunFromPrefix(table, SpectraOf(table, a), Start, b);
  }

  /** Lines that match no field, read as Other lines. */
  function OtherLines(ts: seq<string>): (kinds: seq<MspLine>)
    ensures |kinds| == |ts| && forall i :: 0 <= i < |ts| ==> kinds[i] == Other(ts[i])
  {
    seq(|ts|, i requires 0 <= i < |ts| => Other(ts[i]))
  }

  /** Once a `num peaks:` line has been read, every further line that is no
      field line is appended, stripped and in order, to the peaks. */
  lemma {:induction false} PeakLinesAppend(table: map<string, real>, st: ParseState, ts: seq<string>)
    requires st.inPeaks
    ensures var kinds := OtherLines(ts);
      var r := RunFrom(table, st, kinds);
      r.spectra == st.spectra && r.inPeaks
      && r.current == (if ts == [] then st.current else st.current.(peaks := Some(st.current.peaks.GetOr([]) + ts)))
  {
    var kinds := OtherLines(ts);
    if ts != [] {
      var t := ts[|ts| - 1];
      var ts' := ts[..|ts| - 1];
      var kinds' := OtherLines(ts');
      assert kinds[..|kinds| - 1] == kinds';
      assert kinds[|kinds| - 1] == Other(t);
      PeakLinesAppend(table, st, ts');
      var r' := RunFrom(table, st, kinds');
      assert RunFrom(table, st, kinds) == Step(table, r', Other(t));
      var base := st.current.peaks.GetOr([]);
      if ts' == [] {
        assert ts == [t];
        assert r'.current == st.current;
      } else {
        assert r'.current.peaks == Some(base + ts');
        assert base + ts' + [t] == base + ts;
      }
    }
  }

  /** A complete record (NAME, PRECURSORTYPE, FORMULA, `Num Peaks`, then its
      peak lines) is read as exactly one spectrum carrying those values and
      the formula's mass. */
  lemma OneRecord(table: map<string, real>, name: string, adduct: string, formula: string, ts: seq<string>)
    requires ts != []
    ensures var kinds := [NameField(name), TypeField(adduct), FormulaField(formula), NumPeaks]
        + OtherLines(ts);
      SpectraOf(table, kinds)
        == [Spectrum(Some(name), None, Some(adduct), Some(formula), Some(ChemData.FormulaMass(table, formula)), Some(ts))]
  {
    var head := [NameField(name), TypeField(adduct), FormulaField(formula), NumPeaks];
    var peaks := OtherLines(ts);
    RunFromAppend(table, Start, head, peaks);
    var mid := RunFrom(table, Start, head);
    HeaderState(table, name, adduct, formula);
    PeakLinesAppend(table, mid, ts);
    assert mid.current.peaks.GetOr([]) + ts == ts;
    var r := RunFrom(table, mid, peaks);
    assert r.spectra == [] && r.current != NoSpectrum;
    assert SpectraOf(table, head + peaks) == [r.current];
  }

  /** The record's four header lines leave one open spectrum with the name,
      adduct, formula and mass set, and the peak flag raised. */
  lemma HeaderState(table: map<string, real>, name: string, adduct: string, formula: string)
    ensures RunFrom(table, Start, [NameField(name), TypeField(adduct), FormulaField(formula), NumPeaks])
      == ParseState([], Spectrum(Some(name), None, Some(adduct), Some(formula), Some(ChemData.FormulaMass(table, formula)), None), true)
  {
    var n, a, f := NameField(name), TypeField(adduct), FormulaField(formula);
    var s1 := RunFrom(table, Start, [n]);
    assert s1 == ParseState([], NoSpectrum.(name := Some(name)), false) by {
      RunFromSnoc(table, Start, [], n);
      assert [] + [n] == [n];
    }
    var s2 := RunFrom(table, Start, [n, a]);
    assert s2 == Step(table, s1, a) by {
      RunFromSnoc(table, Start, [n], a);
      assert [n] + [a] == [n, a];
    }
    var s3 := RunFrom(table, Start, [n, a, f]);
    assert s3 == Step(table, s2, f) by {
      RunFromSnoc(table, Start, [n, a], f);
      assert [n, a] + [f] == [n, a, f];
    }
    assert RunFrom(table, Start, [n, a, f, NumPeaks]) == Step(table, s3, NumPeaks) by {
      RunFromSnoc(table, Start, [n, a, f], NumPeaks);
      assert [n, a, f] + [NumPeaks] == [n, a, f, NumPeaks];
    }
  }

  /** A peaks-only block leaves the dictionary empty, so its blank line does
      not reset the peak flag and the next block's unmatched lines are taken
      as peaks. */
  lemma PeakFlagSurvivesEmptyBlock(table: map<string, real>, t: string)
    ensures SpectraOf(table, [NumPeaks, Blank, Other(t)])
      == [NoSpectrum.(peaks := Some([t]))]
  {
    var s1 := RunFrom(table, Start, [NumPeaks]);
    assert s1 == ParseState([], NoSpectrum, true) by {
      RunFromSnoc(table, Start, [], NumPeaks);
      assert [] + [NumPeaks] == [NumPeaks];
    }
    var s2 := RunFrom(table, Start, [NumPeaks, Blank]);
    assert s2 == s1 by {
      RunFromSnoc(table, Start, [NumPeaks], Blank);
      assert [NumPeaks] + [Blank] == [NumPeaks, Blank];
    }
    var s3 := RunFrom(table, Start, [NumPeaks, Blank, Other(t)]);
    assert s3 == Step(table, s2, Other(t)) by {
      RunFromSnoc(table, Start, [NumPeaks, Blank], Other(t));
      assert [NumPeaks, Blank] + [Other(t)] == [NumPeaks, Blank, Other(t)];
    }
    assert s3.current == NoSpectrum.(peaks := Some([] + [t]));
    assert [] + [t] == [t];
  }

  // ---------------------------------------------------------------------------
  // The parameter-template rewrite

  /** `spectrum.get('NeutralPrecursorMass', '')` as an f-string prints it:
      "" without the key, "None" for a None mass, and the float's text
      (given as a function) otherwise. */
  function MassText(mass: Option<Option<real>>, showReal: real -> string): string {
    match mass
    case None => ""
    case Some(None) => "None"
    case Some(Some(m)) => showReal(m)
  }

  /** None of the seven keys the rewrite looks for. */
  predicate PlainLine(line: string) {
    !LowerStartsWith(line, "neutralprecursormolecularformula")
    && !LowerStartsWith(line, "neutralprecursormass")
    && !LowerStartsWith(line, "precursorionmode")
    && !LowerStartsWith(line, "ispositiveionmode")
    && !LowerStartsWith(line, "peaklistpath")
    && !("SampleName" <= line)
    && !("LocalDatabasePath" <= line)
  }

  /** The rewrite of one template line; the first key that matches decides
      (case-insensitively, except SampleName and LocalDatabasePath). A key
      whose value the dictionary lacks raises KeyError. */
  function ParamLine(line: string, s: Spectrum, showReal: real -> string): (r: Result<string>)
    ensures PlainLine(line) ==> r == Ok(line)
    ensures !PlainLine(line) && r.Ok? ==> |r.value| > 0 && r.value[|r.value| - 1] == '\n'
    ensures r.Err? ==>
      ((s.adduct.None? && r.error in {KeyError("PrecursorIonMode"), KeyError("IsPositiveIonMode")})
       || (s.name.None? && r.error == KeyError("PeakListPath")))
    ensures s.adduct.Some? && s.name.Some? ==> r.Ok?
  {
    if LowerStartsWith(line, "neutralprecursormolecularformula") then
      Ok("NeutralPrecursorMolecularFormula = " + s.formula.GetOr("") + "\n")
    else if LowerStartsWith(line, "neutralprecursormass") then
      Ok("NeutralPrecursorMass = " + MassText(s.mass, showReal) + "\n")
    else if LowerStartsWith(line, "precursorionmode") then
      if s.adduct.None? then Err(KeyError("PrecursorIonMode"))
      else Ok("PrecursorIonMode = " + PrecursorIonMode(s.adduct.value) + "\n")
    else if LowerStartsWith(line, "ispositiveionmode") then
      if s.adduct.None? then Err(KeyError("IsPositiveIonMode"))
      else Ok("IsPositiveIonMode = " + IsPositiveIonMode(s.adduct.value) + "\n")
    else if LowerStartsWith(line, "peaklistpath") then
      if s.name.None? then Err(KeyError("PeakListPath"))
      else Ok("PeakListPath = " + s.name.value + "_peaklist.txt\n")
    else if "SampleName" <= line then
      if s.name.None? then Err(KeyError("PeakListPath"))
      else Ok("SampleName = " + s.name.value + "\n")
    else if "LocalDatabasePath" <= line then
      if s.name.None? then Err(KeyError("PeakListPath"))
      else Ok("LocalDatabasePath = " + s.name.value + "_library.txt\n")
    else Ok(line)
  }

  /** What the write loop leaves behind: the lines written before the first
      line that raised, and that line's error if there was one. The output
      file is opened before the loop, so a failure leaves a partial file. */
  datatype Written = Written(lines: seq<string>, error: Option<Error>)

  /** The write loop over the template lines with a rewrite that may raise. */
  function RewriteWith(params: seq<string>, f: string -> Result<string>): (w: Written)
    ensures |w.lines| <= |params|
  {
    if params == [] then Written([], None)
    else
      var pre := RewriteWith(params[..|params| - 1], f);
      if pre.error.Some? then pre
      else match f(params[|params| - 1])
        case Ok(l) => Written(pre.lines + [l], None)
        case Err(e) => Written(pre.lines, Some(e))
  }

  function Rewritten(params: seq<string>, s: Spectrum, showReal: real -> string): (w: Written)
    ensures |w.lines| <= |params|
  {
    RewriteWith(params, line => ParamLine(line, s, showReal))
  }

  /** The write loop of the parameter file. */
  method WriteParams(params: seq<string>, s: Spectrum, showReal: real -> string) returns (w: Written)
    ensures w == Rewritten(params, s, showReal)
  {
    ghost var f := line => ParamLine(line, s, showReal);
    var written: seq<string> := [];
    var i := 0;
    while i < |params|
      invariant 0 <= i <= |params|
      invariant RewriteWith(params[..i], f) == Written(written, None)
    {
      assert params[..i + 1][..i] == params[..i];
      var line := ParamLine(params[i], s, showReal);
      assert f(params[i]) == line;
      if line.Err? {
        ErrorSticks(params, f, i + 1);
        return Written(written, Some(line.error));
      }
      written := written + [line.value];
      i := i + 1;
    }
    assert params[..i] == params;
    return Written(written, None);
  }

  lemma {:induction false} ErrorSticks(params: seq<string>, f: string -> Result<string>, j: nat)
    requires j <= |params| && RewriteWith(params[..j], f).error.Some?
    ensures RewriteWith(params, f) == RewriteWith(params[..j], f)
    decreases |params| - j
  {
    if j < |params| {
      assert params[..j + 1][..j] == params[..j];
      ErrorSticks(params, f, j + 1);
    } else {
      assert params[..j] == params;
    }
  }

  /** The written lines are the rewrites of the template's first lines, in
      order; the loop stops exactly at the first line that raises, and
      without an error every line was written. */
  lemma {:induction false} RewriteWithSpec(params: seq<string>, f: string -> Result<string>)
    ensures var w := RewriteWith(params, f);
      (forall i :: 0 <= i < |w.lines| ==> f(params[i]) == Ok(w.lines[i]))
      && (w.error.None? <==> |w.lines| == |params|)
      && (w.error.Some? ==> f(params[|w.lines|]) == Err(w.error.value))
  {
    if params != [] {
      var pre := params[..|params| - 1];
      RewriteWithSpec(pre, f);
      assert forall i :: 0 <= i < |pre| ==> params[i] == pre[i];
    }
  }

  lemma RewrittenSpec(params: seq<string>, s: Spectrum, showReal: real -> string)
    ensures var w := Rewritten(params, s, showReal);
      (forall i :: 0 <= i < |w.lines| ==> ParamLine(params[i], s, showReal) == Ok(w.lines[i]))
      && (w.error.None? <==> |w.lines| == |params|)
      && (w.error.Some? ==> ParamLine(params[|w.lines|], s, showReal) == Err(w.error.value))
  {
    RewriteWithSpec(params, line => ParamLine(line, s, showReal));
  }

  /** With a name and an adduct the whole template is written: one line per
      template line, every line without a key copied unchanged. */
  lemma RewriteKeepsLineCount(params: seq<string>, s: Spectrum, showReal: real -> string)
    requires s.adduct.Some? && s.name.Some?
    ensures var w := Rewritten(params, s, showReal);
      w.error.None? && |w.lines| == |params|
      && forall i :: 0 <= i < |params| && PlainLine(params[i]) ==> w.lines[i] == params[i]
  {
    RewrittenSpec(params, s, showReal);
  }

  /** A spectrum without a PRECURSORTYPE line fails at the first
      PrecursorIonMode or IsPositiveIonMode line of the template (when the
      name is known), after writing the lines before it. */
  lemma MissingAdductFails(params: seq<string>, s: Spectrum, showReal: real -> string, k: nat)
    requires s.adduct.None? && s.name.Some?
    requires k < |params|
    requires LowerStartsWith(params[k], "precursorionmode") || LowerStartsWith(params[k], "ispositiveionmode")
    ensures var w := Rewritten(params, s, showReal);
      w.error.Some? && |w.lines| <= k
      && w.error.value in {KeyError("PrecursorIonMode"), KeyError("IsPositiveIonMode")}
  {
    RewrittenSpec(params, s, showReal);
    var w := Rewritten(params, s, showReal);
    assert ParamLine(params[k], s, showReal).Err?;
    assert w.error.Some? && |w.lines| <= k;
    assert ParamLine(params[|w.lines|], s, showReal).Err?;
  }
}
