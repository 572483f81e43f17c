/** The files creat_metfrag_file writes for each spectrum, in the two copies:
    msemblator/metfrag_file_processing.py (the library file is scanned for
    every spectrum) and script/metfrag_file_processing.py (process_spectrum
    over a library loaded and sorted once). Each spectrum's work runs inside
    one try block: whatever raises is logged and the next spectrum is
    processed, so a spectrum's outcome records the files written before the
    error and the error itself. */
module MetfragFiles {
  import opened Wrappers
  import opened Text
  import opened MetfragParse
  import opened MetfragLibrary

  /** The mass tolerance both copies pass to the library filter. */
  const Tolerance: real := 0.01

  /** `os.path.join(output_dir, name)`: an absolute name discards the
      directory; a relative one follows it, after a '/' unless the directory
      is empty or already ends with one. */
  function PathJoin(dir: string, name: string): (path: string)
    ensures |name| <= |path| && path[|path| - |name|..] == name
    ensures name != [] && name[0] == '/' ==> path == name
    ensures (name == [] || name[0] != '/') ==> |dir| <= |path| && path[..|dir|] == dir
    ensures (name == [] || name[0] != '/') && dir != [] ==> (path[|dir| - 1] == '/' || (|dir| < |path| && path[|dir|] == '/'))
  {
    if name != [] && name[0] == '/' then name
    else if dir == [] then name
    else if dir[|dir| - 1] == '/' then dir + name
    else dir + "/" + name
  }

  /** One spectrum's written files: the peak list (path and text), the
      filtered library (path and rows), the parameter file (path and the
      lines written before any error), and the error that ended the work. */
  datatype Outcome = Outcome(
    peakList: Option<(string, string)>,
    library: Option<(string, seq<Row>)>,
    params: Option<(string, seq<string>)>,
    error: Option<Error>)

  const NoPeakListPath := KeyError("PeakListPath")

  /** The peak list is written when the spectrum has a name and peaks: the
      stripped peak lines joined by newlines. */
  function PeakListFile(s: Spectrum, outputDir: string): Option<(string, string)> {
    if s.name.Some? && s.peaks.Some? then
      Some((PathJoin(outputDir, s.name.value + "_peaklist.txt"), Join("\n", s.peaks.value)))
    else None
  }

  /** The parameter-file step, shared by both copies: the output path needs
      the name (KeyError before the file is opened), then the template is
      rewritten line by line into the open file. */
  function ParamFile(s: Spectrum, outputDir: string, template: seq<string>, showReal: real -> string,
                     peak: Option<(string, string)>, lib: Option<(string, seq<Row>)>): Outcome
  {
    if s.name.None? then Outcome(peak, lib, None, Some(NoPeakListPath))
    else
      var w := Rewritten(template, s, showReal);
      Outcome(peak, lib, Some((PathJoin(outputDir, "parameter_" + s.name.value + ".txt"), w.lines)), w.error)
  }

  /** The library-file step: skipped without a NeutralPrecursorMass key;
      otherwise the filter runs first, and then the file name needs the
      spectrum's name. */
  function LibraryStep(s: Spectrum, outputDir: string, filtered: Result<seq<Row>>): Result<Option<(string, seq<Row>)>>
    requires s.mass.Some?
  {
    match filtered
    case Err(e) => Err(e)
    case Ok(rows) =>
      if s.name.None? then Err(NoPeakListPath)
      else Ok(Some((PathJoin(outputDir, s.name.value + "_library.txt"), rows)))
  }

  /** The loop body of the msemblator copy for one spectrum. */
  function ProcessScanning(s: Spectrum, outputDir: string, template: seq<string>, libraryRows: seq<Row>,
                           parseFloat: string -> Option<real>, showReal: real -> string): (o: Outcome)
    ensures o.peakList == PeakListFile(s, outputDir)
  {
    var peak := PeakListFile(s, outputDir);
    if s.mass.None? then ParamFile(s, outputDir, template, showReal, peak, None)
    else
      match LibraryStep(s, outputDir, FilterLibrary(libraryRows, s.mass.value, Tolerance, parseFloat))
      case Err(e) => Outcome(peak, None, None, Some(e))
      case Ok(lib) => ParamFile(s, outputDir, template, showReal, peak, lib)
  }

  /** process_spectrum of the script copy. */
  function ProcessPreloaded(s: Spectrum, outputDir: string, template: seq<string>, lib: Library,
                            showReal: real -> string): (o: Outcome)
    ensures o.peakList == PeakListFile(s, outputDir)
    ensures s.mass == Some(None) ==> o.error.Some? && o.error.value.TypeError? && o.library.None? && o.params.None?
  {
    var peak := PeakListFile(s, outputDir);
    if s.mass.None? then ParamFile(s, outputDir, template, showReal, peak, None)
    else
      match LibraryStep(s, outputDir, FilterPreloaded(lib, s.mass.value, Tolerance))
      case Err(e) => Outcome(peak, None, None, Some(e))
      case Ok(l) => ParamFile(s, outputDir, template, showReal, peak, l)
  }

  /** A spectrum without a NeutralPrecursorMass key skips the library file
      in both copies; with a name and an adduct it then gets the whole
      parameter file and no error. */
  lemma MasslessSpectrum(s: Spectrum, outputDir: string, template: seq<string>, libraryRows: seq<Row>,
                         parseFloat: string -> Option<real>, lib: Library, showReal: real -> string)
    requires s.mass.None? && s.name.Some? && s.adduct.Some?
    ensures var o := ProcessScanning(s, outputDir, template, libraryRows, parseFloat, showReal);
      o.error.None? && o.library.None? && o.params.Some? && |o.params.value.1| == |template|
    ensures ProcessPreloaded(s, outputDir, template, lib, showReal)
         == ProcessScanning(s, outputDir, template, libraryRows, parseFloat, showReal)
  {
    RewriteKeepsLineCount(template, s, showReal);
  }

  /** A spectrum with a name, an adduct and a formula whose mass is known
      gets all three files and no error in the script copy: the whole
      template is rewritten, and the library file holds the header and the
      rows within 0.01 of the mass. */
  lemma PreloadedCompleteSpectrum(s: Spectrum, outputDir: string, template: seq<string>, lib: Library, showReal: real -> string)
    requires s.name.Some? && s.adduct.Some? && s.mass.Some? && s.mass.value.Some?
    ensures var o := ProcessPreloaded(s, outputDir, template, lib, showReal);
      o.error.None? && o.library.Some? && o.params.Some?
      && o.library.value.1 == FilterPreloaded(lib, s.mass.value, Tolerance).value
      && |o.params.value.1| == |template|
      && (forall i :: 0 <= i < |template| && PlainLine(template[i]) ==> o.params.value.1[i] == template[i])
  {
    RewriteKeepsLineCount(template, s, showReal);
  }

  /** In the msemblator copy the same spectrum gets the library rows within
      the tolerance, provided the library file has a header with the mass
      column. */
  lemma ScanningCompleteSpectrum(s: Spectrum, outputDir: string, template: seq<string>, libraryRows: seq<Row>,
                                 parseFloat: string -> Option<real>, showReal: real -> string)
    requires s.name.Some? && s.adduct.Some? && s.mass.Some? && s.mass.value.Some?
    requires libraryRows != [] && MassColumn in libraryRows[0]
    ensures var o := ProcessScanning(s, outputDir, template, libraryRows, parseFloat, showReal);
      o.error.None? && o.library.Some? && o.params.Some?
      && o.library.value.1 == FilterLibrary(libraryRows, s.mass.value, Tolerance, parseFloat).value
      && |o.params.value.1| == |template|
  {
    RewriteKeepsLineCount(template, s, showReal);
  }

  /** A spectrum without a name still gets its library filtered (and the
      filter's errors take precedence), but then fails with KeyError before
      any library or parameter file is written. */
  lemma NamelessSpectrumWritesNothing(s: Spectrum, outputDir: string, template: seq<string>, lib: Library, showReal: real -> string)
    requires s.name.None?
    ensures var o := ProcessPreloaded(s, outputDir, template, lib, showReal);
      o.peakList.None? && o.library.None? && o.params.None? && o.error.Some?
      && (s.mass.None? || s.mass.value.Some? ==> o.error == Some(NoPeakListPath))
  {
  }

  /** creat_metfrag_file, msemblator copy: parse, then process every
      spectrum in order; an error in one spectrum does not stop the rest. */
  method CreateMetfragFilesScanning(table: map<string, real>, mspLines: seq<string>, template: seq<string>,
                                    outputDir: string, libraryRows: seq<Row>,
                                    parseFloat: string -> Option<real>, showReal: real -> string)
    returns (outcomes: seq<Outcome>)
    ensures |outcomes| == |Spectra(table, mspLines)|
    ensures forall i :: 0 <= i < |outcomes| ==>
      outcomes[i] == ProcessScanning(Spectra(table, mspLines)[i], outputDir, template, libraryRows, parseFloat, showReal)
  {
    var spectra := ParseMsp(table, mspLines);
    outcomes := ProcessEach(spectra, s => ProcessScanning(s, outputDir, template, libraryRows, parseFloat, showReal));
  }

  /** process_spectrum applied to every parsed spectrum, in order. */
  method ProcessAllPreloaded(spectra: seq<Spectrum>, outputDir: string, template: seq<string>, lib: Library,
                             showReal: real -> string)
    returns (outcomes: seq<Outcome>)
    ensures |outcomes| == |spectra|
    ensures forall i :: 0 <= i < |outcomes| ==> outcomes[i] == ProcessPreloaded(spectra[i], outputDir, template, lib, showReal)
  {
    outcomes := ProcessEach(spectra, s => ProcessPreloaded(s, outputDir, template, lib, showReal));
  }

  /** The `for spectrum in spectra` loop of both copies: one outcome per
      spectrum, in order, whatever the earlier spectra's outcomes were. */
  method ProcessEach(spectra: seq<Spectrum>, process: Spectrum -> Outcome) returns (outcomes: seq<Outcome>)
    ensures |outcomes| == |spectra|
    ensures forall i :: 0 <= i < |outcomes| ==> outcomes[i] == process(spectra[i])
  {
    outcomes := [];
    for i := 0 to |spectra|
      invariant |outcomes| == i
      invariant forall k :: 0 <= k < i ==> outcomes[k] == process(spectra[k])
    {
      outcomes := outcomes + [process(spectra[i])];
    }
  }

  /** creat_metfrag_file, script copy: parse, load the library once (an
      error there ends the whole call before any spectrum is processed),
      then process every spectrum. */
  method CreateMetfragFilesPreloaded(table: map<string, real>, mspLines: seq<string>, template: seq<string>,
                                     outputDir: string, libraryRows: seq<Row>,
                                     parseFloat: string -> Option<real>, showReal: real -> string)
    returns (r: Result<seq<Outcome>>)
    ensures LoadLibrary(libraryRows, parseFloat).Err? <==> r.Err?
    ensures r.Err? ==> r.error == LoadLibrary(libraryRows, parseFloat).error
    ensures r.Ok? ==> (|r.value| == |Spectra(table, mspLines)|
      && forall i :: 0 <= i < |r.value| ==>
        r.value[i] == ProcessPreloaded(Spectra(table, mspLines)[i], outputDir, template, LoadLibrary(libraryRows, parseFloat).value, showReal))
  {
    var spectra := ParseMsp(table, mspLines);
    var library := LoadLibrary(libraryRows, parseFloat);
    if library.Err? {
      return Err(library.error);
    }
    var outcomes := ProcessAllPreloaded(spectra, outputDir, template, library.value, showReal);
    return Ok(outcomes);
  }
}
