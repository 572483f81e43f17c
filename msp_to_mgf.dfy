/** MSP text to MGF text, and MGF text split by adduct (script/msp_to_mgf.py).
    Both functions of the source are line loops; each is stated here as a
    left fold over classified lines, the loops are proved against the folds,
    and the guarantees of the output are proved about the folds. */
module MspToMgf {
  import opened Wrappers
  import opened Text

  // ---------------------------------------------------------------------------
  // convert_msp_to_mgf

  /** The ADDUCT, CHARGE and IONMODE keys, which a PRECURSORTYPE line always
      sets together. CHARGE is `1` whatever the adduct's sign. */
  datatype Precursor = Precursor(adduct: string)

  /** The spectrum dictionary: each key is present or absent. */
  datatype MgfSpectrum = MgfSpectrum(
    title: Option<string>, pepmass: Option<string>, precursor: Option<Precursor>,
    mz: Option<seq<string>>)

  const Empty := MgfSpectrum(None, None, None, None)

  /** What a stripped line is to the parse loop, tested in the source's order;
      keys are case-insensitive substrings of the line. */
  datatype MspKind =
    | Blank
    | TitleLine(value: string)
    | PepMassLine(value: string)
    | TypeLine(value: string)
    | NumPeaksLine
    | OtherLine(line: string)

  /** `key in line.upper()`. */
  predicate HasKey(line: string, key: string) {
    Contains(Upper(line), key)
  }

  /** `line.split(':', 1)[1].strip()`. */
  function FieldValue(line: string): string {
    Strip(AfterFirst(line, ':'))
  }

  function Classify(line: string): MspKind {
    if line == [] then Blank
    else if HasKey(line, "NAME:") then TitleLine(FieldValue(line))
    else if HasKey(line, "PRECURSORMZ:") then PepMassLine(FieldValue(line))
    else if HasKey(line, "PRECURSORTYPE:") then TypeLine(FieldValue(line))
    else if HasKey(line, "NUM PEAKS:") then NumPeaksLine
    else OtherLine(line)
  }

  function Kinds(lines: seq<string>): (kinds: seq<MspKind>)
    ensures |kinds| == |lines|
  {
    if lines == [] then [] else Kinds(lines[..|lines| - 1]) + [Classify(Strip(lines[|lines| - 1]))]
  }

  datatype MgfParse = MgfParse(spectrum: MgfSpectrum, inPeaks: bool, spectra: seq<MgfSpectrum>)

  /** One iteration of the parse loop. A blank line closes the record only
      when the dictionary is non-empty, and only then clears the peak flag;
      peak lines are copied without validation. */
  function Step(st: MgfParse, kind: MspKind): MgfParse {
    var sp := st.spectrum;
    match kind
    case Blank =>
      if sp != Empty then MgfParse(Empty, false, st.spectra + [sp]) else st
    case TitleLine(v) => st.(spectrum := sp.(title := Some(v)))
    case PepMassLine(v) => st.(spectrum := sp.(pepmass := Some(v)))
    case TypeLine(v) => st.(spectrum := sp.(precursor := Some(Precursor(v))))
    case NumPeaksLine => st.(inPeaks := true)
    case OtherLine(line) =>
      if st.inPeaks then st.(spectrum := sp.(mz := Some(sp.mz.GetOr([]) + [line]))) else st
  }

  const Start := MgfParse(Empty, false, [])

  function Run(kinds: seq<MspKind>): MgfParse {
    if kinds == [] then Start else Step(Run(kinds[..|kinds| - 1]), kinds[|kinds| - 1])
  }

  /** The spectra the converter emits: those closed by blank lines and the
      non-empty one still open at the end of the file. */
  function Spectra(lines: seq<string>): seq<MgfSpectrum> {
    var st := Run(Kinds(lines));
    if st.spectrum != Empty then st.spectra + [st.spectrum] else st.spectra
  }

  function IonMode(adduct: string): string {
    if '+' in adduct then "POSITIVE" else "NEGATIVE"
  }

  /** The key lines of one spectrum, in the order they are written. */
  function Header(sp: MgfSpectrum): seq<string> {
    (if sp.title.Some? then ["TITLE=" + sp.title.value] else [])
    + (if sp.pepmass.Some? then ["PEPMASS=" + sp.pepmass.value] else [])
    + ChargeLines(sp)
    + (if sp.precursor.Some? then ["ADDUCT=" + sp.precursor.value.adduct] else [])
  }

  /** The lines written when the dictionary holds CHARGE. */
  function ChargeLines(sp: MgfSpectrum): seq<string> {
    if sp.precursor.Some?
    then ["CHARGE=" + "1", "MSLEVEL=2", "IONMODE=" + IonMode(sp.precursor.value.adduct)]
    else []
  }

  /** The lines written for one spectrum. */
  function FormatMgf(sp: MgfSpectrum): seq<string> {
    ["BEGIN IONS"] + Header(sp) + sp.mz.GetOr([]) + ["END IONS\n"]
  }

  /** The lines written for all spectra, in order. */
  function MgfLines(sps: seq<MgfSpectrum>): seq<string> {
    if sps == [] then [] else MgfLines(sps[..|sps| - 1]) + FormatMgf(sps[|sps| - 1])
  }

  function Converted(lines: seq<string>): string {
    Join("\n", MgfLines(Spectra(lines)))
  }

  /** convert_msp_to_mgf on the lines of the input file. */
  method ConvertMspToMgf(lines: seq<string>) returns (mgfContent: string)
    ensures mgfContent == Converted(lines)
  {
    var spectra := ParseSpectra(lines);
    var mgfData := WriteSpectra(spectra);
    mgfContent := Join("\n", mgfData);
  }

  /** The parse loop of convert_msp_to_mgf, with the append of the
      spectrum still open at the end of the file. */
  method ParseSpectra(lines: seq<string>) returns (spectra: seq<MgfSpectrum>)
    ensures spectra == Spectra(lines)
  {
    spectra := [];
    var spectrum := Empty;
    var isInPeaks := false;
    var i := 0;
    while i < |lines|
      invariant 0 <= i <= |lines|
      invariant Run(Kinds(lines[..i])) == MgfParse(spectrum, isInPeaks, spectra)
    {
      assert lines[..i + 1][..i] == lines[..i];
      assert Kinds(lines[..i + 1]) == Kinds(lines[..i]) + [Classify(Strip(lines[i]))];
      spectrum, isInPeaks, spectra := ParseLine(spectrum, isInPeaks, spectra, Strip(lines[i]));
      i := i + 1;
    }
    assert lines[..i] == lines;
    if spectrum != Empty {
      spectra := spectra + [spectrum];
    }
  }

  /** The write loop of convert_msp_to_mgf: every spectrum's lines, in order. */
  method WriteSpectra(spectra: seq<MgfSpectrum>) returns (mgfData: seq<string>)
    ensures mgfData == MgfLines(spectra)
  {
    mgfData := [];
    var j := 0;
    while j < |spectra|
      invariant 0 <= j <= |spectra|
      invariant mgfData == MgfLines(spectra[..j])
    {
      assert spectra[..j + 1][..j] == spectra[..j];
      mgfData := mgfData + FormatMgf(spectra[j]);
      j := j + 1;
    }
    assert spectra[..j] == spectra;
  }

  /** The body of the parse loop on one stripped line. */
  method ParseLine(spectrum: MgfSpectrum, isInPeaks: bool, spectra: seq<MgfSpectrum>, line: string)
    returns (spectrum': MgfSpectrum, isInPeaks': bool, spectra': seq<MgfSpectrum>)
    ensures MgfParse(spectrum', isInPeaks', spectra')
            == Step(MgfParse(spectrum, isInPeaks, spectra), Classify(line))
  {
    spectrum', isInPeaks', spectra' := spectrum, isInPeaks, spectra;
    match Classify(line) {
      case Blank =>
        if spectrum != Empty {
          spectra' := spectra + [spectrum];
          spectrum' := Empty;
          isInPeaks' := false;
        }
      case TitleLine(v) => spectrum' := spectrum.(title := Some(v));
      case PepMassLine(v) => spectrum' := spectrum.(pepmass := Some(v));
      case TypeLine(v) => spectrum' := spectrum.(precursor := Some(Precursor(v)));
      case NumPeaksLine => isInPeaks' := true;
      case OtherLine(l) =>
        if isInPeaks {
          spectrum' := spectrum.(mz := Some(spectrum.mz.GetOr([]) + [l]));
        }
    }
  }

  /** Every spectrum is framed by BEGIN IONS and END IONS, and the spectra are
      written one after another in order. */
  lemma FramedInOrder(sps: seq<MgfSpectrum>, sp: MgfSpectrum)
    ensures FormatMgf(sp)[0] == "BEGIN IONS"
    ensures FormatMgf(sp)[|FormatMgf(sp)| - 1] == "END IONS\n"
    ensures MgfLines(sps + [sp]) == MgfLines(sps) + FormatMgf(sp)
  {
    assert (sps + [sp])[..|sps|] == sps;
  }

  /** CHARGE, MSLEVEL=2 and IONMODE are written iff a PRECURSORTYPE line was
      seen; CHARGE is always 1, and IONMODE is POSITIVE iff the adduct
      contains `+`. */
  lemma PrecursorLines(sp: MgfSpectrum)
    ensures ("CHARGE=1" in Header(sp)) <==> sp.precursor.Some?
    ensures ("MSLEVEL=2" in Header(sp)) <==> sp.precursor.Some?
    ensures ("IONMODE=POSITIVE" in Header(sp)) <==> (sp.precursor.Some? && '+' in sp.precursor.value.adduct)
    ensures ("IONMODE=NEGATIVE" in Header(sp)) <==> (sp.precursor.Some? && '+' !in sp.precursor.value.adduct)
    ensures forall x :: x in Header(sp) && "CHARGE=" <= x ==> x == "CHARGE=1"
  {
    HeaderMembers(sp);
    ChargeIsOne(sp);
    KeyLinePresent(sp, "CHARGE=1");
    KeyLinePresent(sp, "MSLEVEL=2");
    PositiveModeLine(sp);
    NegativeModeLine(sp);
  }

  /** The IONMODE lines of PrecursorLines, one mode at a time. */
  lemma PositiveModeLine(sp: MgfSpectrum)
    ensures ("IONMODE=POSITIVE" in Header(sp)) <==> (sp.precursor.Some? && '+' in sp.precursor.value.adduct)
  {
    HeaderMembers(sp);
    IonModeLine(sp, "POSITIVE");
    assert "IONMODE=" + "POSITIVE" == "IONMODE=POSITIVE";
    assert "POSITIVE"[0] != "NEGATIVE"[0];
  }

  lemma NegativeModeLine(sp: MgfSpectrum)
    ensures ("IONMODE=NEGATIVE" in Header(sp)) <==> (sp.precursor.Some? && '+' !in sp.precursor.value.adduct)
  {
    HeaderMembers(sp);
    IonModeLine(sp, "NEGATIVE");
    assert "IONMODE=" + "NEGATIVE" == "IONMODE=NEGATIVE";
    assert "POSITIVE"[0] != "NEGATIVE"[0];
  }

  /** A line that starts with C, M or I is in the header iff it is one of the
      CHARGE group. */
  lemma KeyLinePresent(sp: MgfSpectrum, line: string)
    requires forall x :: x in Header(sp) ==> x in ChargeLines(sp) || (x != [] && (x[0] == 'T' || x[0] == 'P' || x[0] == 'A'))
    requires line == "CHARGE=1" || line == "MSLEVEL=2"
    ensures line in Header(sp) <==> sp.precursor.Some?
  {
    assert line[0] == 'C' || line[0] == 'M';
    if sp.precursor.Some? {
      ChargeGroup(sp);
      HeaderMembers2(sp);
    }
  }

  lemma IonModeLine(sp: MgfSpectrum, mode: string)
    requires forall x :: x in Header(sp) ==> x in ChargeLines(sp) || (x != [] && (x[0] == 'T' || x[0] == 'P' || x[0] == 'A'))
    requires mode == "POSITIVE" || mode == "NEGATIVE"
    ensures ("IONMODE=" + mode in Header(sp)) <==> (sp.precursor.Some? && IonMode(sp.precursor.value.adduct) == mode)
  {
    var line := "IONMODE=" + mode;
    assert line[0] == 'I';
    if sp.precursor.Some? {
      var m := IonMode(sp.precursor.value.adduct);
      ChargeGroup(sp);
      HeaderMembers2(sp);
      if line in Header(sp) {
        assert line in ChargeLines(sp);
        assert line != "CHARGE=1" by { assert "CHARGE=1"[0] == 'C'; }
        assert line != "MSLEVEL=2" by { assert "MSLEVEL=2"[0] == 'M'; }
        assert line == "IONMODE=" + m;
        SamePrefixSameRest("IONMODE=", mode, m);
      }
    }
  }

  lemma SamePrefixSameRest(prefix: string, a: string, b: string)
    requires prefix + a == prefix + b
    ensures a == b
  {
    assert a == (prefix + a)[|prefix|..];
    assert b == (prefix + b)[|prefix|..];
  }

  lemma ChargeIsOne(sp: MgfSpectrum)
    requires forall x :: x in Header(sp) ==> x in ChargeLines(sp) || (x != [] && (x[0] == 'T' || x[0] == 'P' || x[0] == 'A'))
    ensures forall x :: x in Header(sp) && "CHARGE=" <= x ==> x == "CHARGE=1"
  {
    forall x | x in Header(sp) && "CHARGE=" <= x ensures x == "CHARGE=1" {
      assert x[0] == 'C';
      assert x in ChargeLines(sp);
      var m := IonMode(sp.precursor.value.adduct);
      assert ("IONMODE=" + m)[0] == 'I';
      assert "MSLEVEL=2"[0] == 'M';
      assert x == "CHARGE=" + "1";
    }
  }

  lemma ChargeGroup(sp: MgfSpectrum)
    requires sp.precursor.Some?
    ensures ChargeLines(sp) == ["CHARGE=1", "MSLEVEL=2", "IONMODE=" + IonMode(sp.precursor.value.adduct)]
  {
    assert "CHARGE=" + "1" == "CHARGE=1";
  }

  /** Every header line other than the CHARGE group starts with T, P or A. */
  lemma HeaderMembers(sp: MgfSpectrum)
    ensures forall x :: x in Header(sp) ==> x in ChargeLines(sp) || (x != [] && (x[0] == 'T' || x[0] == 'P' || x[0] == 'A'))
  {
    var t := if sp.title.Some? then ["TITLE=" + sp.title.value] else [];
    var p := if sp.pepmass.Some? then ["PEPMASS=" + sp.pepmass.value] else [];
    var a := if sp.precursor.Some? then ["ADDUCT=" + sp.precursor.value.adduct] else [];
    assert forall x :: x in t + p + a ==> x != [] && (x[0] == 'T' || x[0] == 'P' || x[0] == 'A');
    assert Header(sp) == t + p + ChargeLines(sp) + a;
  }

  lemma HeaderMembers2(sp: MgfSpectrum)
    ensures forall x :: x in ChargeLines(sp) ==> x in Header(sp)
  {
    var t := if sp.title.Some? then ["TITLE=" + sp.title.value] else [];
    var p := if sp.pepmass.Some? then ["PEPMASS=" + sp.pepmass.value] else [];
    var a := if sp.precursor.Some? then ["ADDUCT=" + sp.precursor.value.adduct] else [];
    assert Header(sp) == t + p + ChargeLines(sp) + a;
  }

  /** No spectrum the converter emits is an empty dictionary. */
  predicate AllNonEmpty(sps: seq<MgfSpectrum>) {
    forall k :: 0 <= k < |sps| ==> sps[k] != Empty
  }

  lemma {:induction false} RunNonEmpty(kinds: seq<MspKind>)
    ensures AllNonEmpty(Run(kinds).spectra)
  {
    if kinds != [] {
      RunNonEmpty(kinds[..|kinds| - 1]);
    }
  }

  lemma SpectraNonEmpty(lines: seq<string>)
    ensures AllNonEmpty(Spectra(lines))
  {
    RunNonEmpty(Kinds(lines));
  }

  // ---------------------------------------------------------------------------
  // split_mgf_by_adduct_in_memory

  /** `line.split('=')[1].strip()`: the text between the first and the second `=`. */
  function AdductValue(line: string): string {
    Strip(BeforeFirst(AfterFirst(line, '='), '='))
  }

  /** The loop variables: the adduct of the open spectrum, its lines so far,
      and the spectra kept per adduct. */
  datatype Split = Split(adduct: Option<string>, data: seq<string>, groups: map<string, seq<string>>)

  /** An adduct is kept only when it is set and non-empty (Python truthiness). */
  predicate Kept(adduct: Option<string>) {
    adduct.Some? && adduct.value != []
  }

  function Lookup(groups: map<string, seq<string>>, key: string): seq<string> {
    if key in groups then groups[key] else []
  }

  function SplitStep(st: Split, line: string): Split {
    if "BEGIN IONS" <= line then st.(data := [line])
    else if "END IONS" <= line then
      var data := st.data + [line];
      var groups :=
        if Kept(st.adduct)
        then st.groups[st.adduct.value := Lookup(st.groups, st.adduct.value) + [Join("\n", data)]]
        else st.groups;
      Split(None, data, groups)
    else
      st.(data := st.data + [line],
          adduct := if "ADDUCT=" <= line then Some(AdductValue(line)) else st.adduct)
  }

  function SplitRun(lines: seq<string>): Split {
    if lines == [] then Split(None, [], map[])
    else SplitStep(SplitRun(lines[..|lines| - 1]), lines[|lines| - 1])
  }

  function SplitResult(mgfContent: string): Result<map<string, seq<string>>> {
    if Strip(mgfContent) == [] then Err(ValueError("The MGF content is empty or invalid."))
    else Ok(SplitRun(SplitLines(mgfContent)).groups)
  }

  method SplitMgfByAdduct(mgfContent: string) returns (r: Result<map<string, seq<string>>>)
    ensures r == SplitResult(mgfContent)
  {
    if Strip(mgfContent) == [] {
      return Err(ValueError("The MGF content is empty or invalid."));
    }
    var lines := SplitLines(mgfContent);
    var adductData: map<string, seq<string>> := map[];
    var currentAdduct: Option<string> := None;
    var currentData: seq<string> := [];
    var i := 0;
    while i < |lines|
      invariant 0 <= i <= |lines|
      invariant SplitRun(lines[..i]) == Split(currentAdduct, currentData, adductData)
    {
      assert lines[..i + 1][..i] == lines[..i];
      currentAdduct, currentData, adductData := SplitLine(currentAdduct, currentData, adductData, lines[i]);
      i := i + 1;
    }
    assert lines[..i] == lines;
    r := Ok(adductData);
  }

  /** The body of the splitting loop on one line. */
  method SplitLine(currentAdduct: Option<string>, currentData: seq<string>,
                   adductData: map<string, seq<string>>, line: string)
    returns (currentAdduct': Option<string>, currentData': seq<string>,
             adductData': map<string, seq<string>>)
    ensures Split(currentAdduct', currentData', adductData')
            == SplitStep(Split(currentAdduct, currentData, adductData), line)
  {
    currentAdduct', currentData', adductData' := currentAdduct, currentData, adductData;
    if "BEGIN IONS" <= line {
      currentData' := [line];
    } else if "END IONS" <= line {
      currentData' := currentData + [line];
      if currentAdduct.Some? && currentAdduct.value != [] {
        var a := currentAdduct.value;
        var prior := if a in adductData then adductData[a] else [];
        adductData' := adductData[a := prior + [Join("\n", currentData')]];
      }
      currentAdduct' := None;
    } else {
      currentData' := currentData + [line];
      if "ADDUCT=" <= line {
        currentAdduct' := Some(AdductValue(line));
      }
    }
  }

  /** Splitting fails exactly on empty or whitespace-only content. */
  lemma SplitFailsOnBlank(mgfContent: string)
    ensures SplitResult(mgfContent).Err? <==> IsBlank(mgfContent)
  {
    StripEmptyIffBlank(mgfContent);
  }

  /** The spectra an END IONS line closes, each with the adduct it was seen
      with (None when no ADDUCT line preceded it). */
  function Closed(lines: seq<string>): seq<(Option<string>, string)> {
    if lines == [] then []
    else
      var pre := lines[..|lines| - 1];
      var line := lines[|lines| - 1];
      var st := SplitRun(pre);
      Closed(pre)
      + (if !("BEGIN IONS" <= line) && "END IONS" <= line
         then [(st.adduct, Join("\n", st.data + [line]))] else [])
  }

  /** The texts of the closed spectra whose adduct is `key`, in input order. */
  function Select(closed: seq<(Option<string>, string)>, key: string): seq<string> {
    if closed == [] then []
    else
      var last := closed[|closed| - 1];
      Select(closed[..|closed| - 1], key) + (if last.0 == Some(key) then [last.1] else [])
  }

  /** The groups are exactly the closed spectra with a non-empty adduct,
      grouped by adduct in input order; spectra without an ADDUCT line, or
      with an empty one, are dropped. */
  lemma {:induction false} GroupsAreSelections(lines: seq<string>)
    ensures forall k :: k in SplitRun(lines).groups ==> k != []
    ensures forall k :: k != [] ==> Lookup(SplitRun(lines).groups, k) == Select(Closed(lines), k)
  {
    if lines != [] {
      var pre := lines[..|lines| - 1];
      var line := lines[|lines| - 1];
      GroupsAreSelections(pre);
      var st := SplitRun(pre);
      forall k | k != [] ensures Lookup(SplitRun(lines).groups, k) == Select(Closed(lines), k) {
        if !("BEGIN IONS" <= line) && "END IONS" <= line {
          var c := (st.adduct, Join("\n", st.data + [line]));
          assert Closed(lines) == Closed(pre) + [c];
          assert Closed(lines)[..|Closed(lines)| - 1] == Closed(pre);
        } else {
          assert Closed(lines) == Closed(pre);
        }
      }
    }
  }

  /** The adduct is forgotten after every END IONS line. */
  lemma AdductResetsAtEnd(lines: seq<string>, line: string)
    requires !("BEGIN IONS" <= line) && "END IONS" <= line
    ensures SplitRun(lines + [line]).adduct == None
  {
    assert (lines + [line])[..|lines|] == lines;
  }
}
