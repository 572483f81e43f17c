# Msemblator core, modelled in Dafny

Msemblator annotates MS/MS spectra with an ensemble of three tools: SIRIUS,
MS-FINDER and MetFrag for structures, and SIRIUS, MS-FINDER and msbuddy for
formulas. This project models the text and table logic around the tools:

- reading MSP libraries and converting them to SIRIUS `.ms` and MGF text
  (`msp_to_ms`, `msp_to_mgf`, `split_mgf`);
- splitting an MSP library into sanitised per-compound entries, and
  re-identifying records by peak id, with the restore as a round trip
  (`splitting_msp`, `msp_format_change`);
- the formula codec: formula text to element counts and back, and the
  exact mass of a composition (`chem_data`);
- the MetFrag inputs written per spectrum: the peak list, the filtered
  candidate library (both copies: one scans the file per spectrum, the
  other filters a library sorted once) and the parameter file; and the
  in-place cleaning of MetFrag's `.psv` results;
- the data-type helpers: the (compound, ionization) extractor, the
  MS-FINDER configuration rewrite, the three rank normalisations, the
  provenance texts, and the `ClippingTransformer`;
- the six per-tool candidate summaries: SIRIUS, MS-FINDER and MetFrag for
  structures, and SIRIUS, MS-FINDER and msbuddy for formulas. They share the
  rank within a filename, the score difference to the next row, `head(k)`,
  the adduct relabelling, the KeyError for a missing column, the ValueError
  of the rank scaling on an empty kept table, and the formula and InChIKey
  pivots by filename and rank;
- classifier routing: each row goes to the model trained for its adduct, or
  to the `all` model;
- the three aggregation variants. Each sums confidence per candidate,
  ranks the candidates per filename with pandas `rank(method="first")`,
  cuts at top_n and lists the tools that proposed each candidate;
- `struc_summary`, the structure pipeline that joins the above.

Each source file is one Dafny module. A pure function becomes a Dafny
function. A line loop becomes a method whose loop is proved against a
left-fold specification, and the guarantees of the output are proved as
lemmas about that fold. The MetFrag `.psv` file and the MS-FINDER method
file are rewritten in place, so each is a class with a `modifies` clause.
The ClippingTransformer's bounds are fixed by its constructor, so it is a
datatype with member functions. Tables are modelled as sequences of rows or
columns. A groupby over unique keys becomes a `map`, and a pandas NaN cell
becomes `None`. A Python exception becomes an `Err` carrying its kind
(`wrappers.dfy`).

Some behaviour of the code is modelled as written even where it looks
unintended. These cases are stated as lemmas:

- `score_diff` compares adjacent rows of the whole table, not of one
  filename. With interleaved filenames a row takes the difference to
  another filename's row (`Candidates.DiffCrossesInterleavedGroups`).
  With each filename's rows together, the difference stays within the
  group (`Candidates.DiffStaysInGroup`).
- The formula MS-FINDER summary counts ranks by `File name` but cuts and
  pivots by the derived filename. Two results `x` and `x.1` both become
  rank 1 of filename `x`, so the pivot raises ValueError
  (`MsfinderSummary.SharedFilenameBreaksPivot`).
- The SIRIUS structure summary's `normalize_rank` is increasing: rank 1
  maps to 0. The other summaries map rank 1 to 1
  (`SiriusStrucSummary.SiriusRankOneNormalizesToZero`).
- In `msemblator/struc_score_calc.py` the merge installs the fused rank in
  the `rank` column, so the provenance texts name the fused rank, not the
  tool's rank (`MsemblatorScoreCalc.ProvenanceNamesFusedRank`).

Where the code and its description disagree, the model follows the code.

## Model

| member | source | states |
|---|---|---|
| MspToMs.Ionization | msemblator/msp_to_ms.py:83-86 | the PRECURSORTYPE value changes exactly when it is `[M+NH4]+`, and the result is never `[M+NH4]+` |
| MspToMs.FormatAll | msemblator/msp_to_ms.py:106-128 | one `.ms` block per record, block i being format_ms of record i |
| MspToMs.ConvertMspToMs | msemblator/msp_to_ms.py:30-104 | the converter (strip, split into lines, run the loop) returns exactly the fold `Converted` of the text |
| MspToMs.ConvertLines | msemblator/msp_to_ms.py:46-101 | the line loop with its own variables (open spectrum, peak flag, finished blocks) computes `ConvertedLines`, the fold of one step per line |
| MspToMs.LoopBody | msemblator/msp_to_ms.py:50-92 | one iteration either raises KeyError('ms2') exactly when the fold's step does, or leaves the variables equal to the step's state, with the finished blocks still the formatted emitted records |
| MspToMs.RunFailureSticks | msemblator/msp_to_ms.py:102-104 | once a prefix of the lines has raised, the whole conversion raises that same error |
| MspToMs.RunTracksNames | msemblator/msp_to_ms.py:63-78 | the compounds of the emitted records plus the open one are the NAME values, one per NAME line, in input order (each NAME line opens exactly one record and each record is flushed once) |
| MspToMs.RecordsFollowNameLines | msemblator/msp_to_ms.py:52-99 | the records formatted are exactly one per NAME line, in input order, flushed at a blank line, the next NAME line or the end |
| MspToMs.RunFailsOnlyOnMissingPeaks | msemblator/msp_to_ms.py:89-92 | the only way the loop fails is KeyError('ms2'): a two-token peak line before any NAME line |
| MspToMs.PeakEntryShape | msemblator/msp_to_ms.py:90-92 | a kept peak line is re-emitted as its two non-empty, space-free tokens joined by one tab |
| MspToMs.StepKeepsWellFormed | msemblator/msp_to_ms.py:89-92 | a step keeps every record well formed: each ms2 entry is two space-free tokens separated by a tab |
| MspToMs.RunWellFormed | msemblator/msp_to_ms.py:50-99 | after any number of lines every emitted or open record is well formed (only two-token peak lines are kept) |
| MspToMs.RecordsWellFormed | msemblator/msp_to_ms.py:89-101 | every record the converter formats holds only tab-joined two-token peaks |
| MspToMs.ConvertedIsJoinOfRecords | msemblator/msp_to_ms.py:94-101 | the converter succeeds exactly when the fold does, and its text is the formatted records joined by a blank line, in input order |
| MspToMs.FormatMsIsJoin | msemblator/msp_to_ms.py:120-127 | format_ms is the lines `>compound`, `>formula`, `>parentmass`, `>ionization`, `>ms2` and then the peaks, joined by newlines |
| MspToMs.FormatMsLines | msemblator/msp_to_ms.py:120-127 | for fields without newlines, splitting a block on newlines gives back exactly those header lines followed by the peaks |
| MspToMgf.ConvertMspToMgf | script/msp_to_mgf.py:26-85 | the parse loop and the emit loop return exactly `Converted(lines)`: the spectra parsed by the fold, each formatted, joined by newlines |
| MspToMgf.ParseSpectra | script/msp_to_mgf.py:26-56 | the parse loop, with the flush of the record still open at end of file, returns exactly the spectra of the line fold |
| MspToMgf.WriteSpectra | script/msp_to_mgf.py:58-77 | the emit loop returns the formatted lines of every spectrum, one spectrum after another in parse order |
| MspToMgf.ParseLine | script/msp_to_mgf.py:30-49 | one iteration of the parse loop leaves the open spectrum, the peak flag and the finished spectra equal to one step of the fold on the stripped line |
| MspToMgf.FramedInOrder | script/msp_to_mgf.py:59-73 | every emitted spectrum starts with `BEGIN IONS` and ends with `END IONS`, and the spectra are emitted in parse order |
| MspToMgf.PrecursorLines | script/msp_to_mgf.py:41-69 | CHARGE=1 and MSLEVEL=2 appear iff a PRECURSORTYPE line was seen; IONMODE is POSITIVE iff the adduct contains '+' and NEGATIVE otherwise; every CHARGE line reads CHARGE=1 |
| MspToMgf.KeyLinePresent | script/msp_to_mgf.py:66-69 | given the header shape, CHARGE=1 or MSLEVEL=2 is in a header iff the spectrum has a precursor type |
| MspToMgf.IonModeLine | script/msp_to_mgf.py:45-69 | given the header shape, the header holds IONMODE=mode iff a precursor type was seen and its sign gives that mode |
| MspToMgf.ChargeIsOne | script/msp_to_mgf.py:44-67 | whatever the adduct's sign, every CHARGE line of a header is `CHARGE=1` |
| MspToMgf.ChargeGroup | script/msp_to_mgf.py:66-69 | with a precursor type the CHARGE group is exactly CHARGE=1, MSLEVEL=2, IONMODE=<sign mode>, in that order |
| MspToMgf.HeaderMembers | script/msp_to_mgf.py:61-71 | every header line is in the CHARGE group or is a TITLE, PEPMASS or ADDUCT line |
| MspToMgf.HeaderMembers2 | script/msp_to_mgf.py:66-69 | the whole CHARGE group is part of the header |
| MspToMgf.RunNonEmpty | script/msp_to_mgf.py:32-56 | the fold never emits an empty dictionary: a blank line closes a record only if it is non-empty |
| MspToMgf.SpectraNonEmpty | script/msp_to_mgf.py:32-56 | no spectrum the converter emits, including the one flushed at end of file, is empty |
| MspToMgf.SplitMgfByAdduct | script/msp_to_mgf.py:105-137 | split_mgf_by_adduct_in_memory returns exactly `SplitResult`: ValueError on blank content, otherwise the groups of the line fold |
| MspToMgf.SplitLine | script/msp_to_mgf.py:116-131 | one iteration of the splitting loop leaves its three variables equal to one step of the fold |
| MspToMgf.SplitFailsOnBlank | script/msp_to_mgf.py:106-107 | splitting fails exactly when the content is empty or whitespace only |
| MspToMgf.GroupsAreSelections | script/msp_to_mgf.py:117-129 | every group key is non-empty, and the group of adduct k is the text of every closed spectrum whose ADDUCT value is k, in input order; spectra with no or an empty adduct are dropped |
| MspToMgf.AdductResetsAtEnd | script/msp_to_mgf.py:119-125 | after an END IONS line no adduct is carried into the next spectrum |
| SplittingMsp.SlicePrefix | script/splitting_msp.py:15 | Python's `s[:m]`: a prefix of s, of length min(m, \|s\|) for m ≥ 0 and \|s\| + m (floored at 0) for negative m |
| SplittingMsp.SanitizeFilename | script/splitting_msp.py:3-15 | every character of `/:*?"<>\|` becomes '_' (a backslash is kept), every other character is kept, the result holds no invalid character and is cut to max_length |
| SplittingMsp.SanitizeIdempotent | script/splitting_msp.py:3-15 | sanitising twice with the same non-negative bound gives the same name as sanitising once |
| SplittingMsp.AnyStartsWithIff | script/splitting_msp.py:64 | the `any(entry.startswith(...))` scan is true iff some entry starts with the prefix |
| SplittingMsp.EntryRun | script/splitting_msp.py:37-60 | the content loop never loses a required key from the dictionary |
| SplittingMsp.FormatMspEntry | script/splitting_msp.py:17-72 | format_msp_entry returns exactly `FormattedEntry`: NAME line, the content loop, the missing required keys, the Num Peaks line and the peaks, joined by newlines; EntryStartsWithName and OneNumPeaksLine state the docstring's one-NAME and one-Num-Peaks promises about its lines |
| SplittingMsp.AppendMissing | script/splitting_msp.py:62-65 | the loop over the nine required keys appends `KEY: default` for each key no entry line starts with, in key order |
| SplittingMsp.EntryLineStep | script/splitting_msp.py:42-60 | one content line is skipped (NAME, NUM PEAKS), written as `KEY: value` and recorded if required, or kept as a stripped peak line |
| SplittingMsp.StartsWithAny | script/splitting_msp.py:64 | the scan loop finds exactly whether some entry starts with the prefix |
| SplittingMsp.AddMissingKeepsPrefix | script/splitting_msp.py:62-65 | appending the missing keys keeps every line written before |
| SplittingMsp.EntryStartsWithName | script/splitting_msp.py:18-51 | every formatted entry opens with the clean `NAME: name` line, and no later line is a field whose key (text before the first ':', stripped, upper-cased) is NAME |
| SplittingMsp.OneNumPeaksLine | script/splitting_msp.py:21-69 | the only line whose key is NUM PEAKS is the `Num Peaks: n` line right before the peaks, n their count, and there is one iff the record has peaks |
| SplittingMsp.EntryLinesKeys | script/splitting_msp.py:38-70 | the lines are the NAME line, then fields that are neither NAME nor NUM PEAKS, then with peaks the count line and the ':'-free peak lines |
| SplittingMsp.FieldLineKey | script/splitting_msp.py:44-53 | a written `KEY: value` line with a clean key reads back with that key |
| SplittingMsp.EntryKeyClean | script/splitting_msp.py:44-46 | the key of any ':' line has no ':', no surrounding whitespace and no lower-case letter |
| SplittingMsp.EntryRunFields | script/splitting_msp.py:42-60 | after the NAME line the content loop writes only fields other than NAME and NUM PEAKS, and keeps only ':'-free peaks |
| SplittingMsp.AddMissingCovers | script/splitting_msp.py:62-65 | after the loop, some line starts with `KEY:` for every required key |
| SplittingMsp.RequiredKeysPresent | script/splitting_msp.py:25-65 | every formatted entry has a line for each of the nine required keys, found in the record or appended |
| SplittingMsp.EntryRunDefaults | script/splitting_msp.py:52-56 | a required key's recorded value differs from "" only after a line with that key was written |
| SplittingMsp.MissingKeysEmpty | script/splitting_msp.py:62-65 | every line appended for a missing key is `KEY: ` with an empty value |
| SplittingMsp.PeaksClose | script/splitting_msp.py:68-70 | with peaks, the entry ends with exactly the peak lines, preceded by `Num Peaks: n` where n is their count and parses back to it |
| SplittingMsp.ReadMsp | script/splitting_msp.py:88-115 | read_msp returns exactly `ReadResult`: each saved record formatted under its sanitised name, later records overwriting earlier ones |
| SplittingMsp.ReadLine | script/splitting_msp.py:93-108 | one iteration of the splitter loop equals one step of the reader fold, and the dictionary stays the assignments of the saved records |
| SplittingMsp.NoSaveBetweenNames | script/splitting_msp.py:96-108 | lines without a NAME key save nothing and change neither the name nor the flag; they are collected only inside a record |
| SplittingMsp.IgnoredBeforeFirstName | script/splitting_msp.py:91-108 | lines before the first NAME line do not affect the result |
| SplittingMsp.LaterRecordWins | script/splitting_msp.py:98-113 | each sanitised name holds the entry of the last record whose name sanitises to it |
| SplittingMsp.FilesKeys | script/splitting_msp.py:99-112 | the result's keys are exactly the sanitised names of the saved records |
| MspFormatChange.SplitBlocks | script/msp_format_change.py:70 | `re.split(r'\n\s*\n', ...)`: the stripped text cut at every blank-line separator, always at least one block |
| MspFormatChange.SeparatorFrom | script/msp_format_change.py:70 | a separator found from position i is a newline, then whitespace, then a newline, starting at or after i |
| MspFormatChange.NoSeparatorOneBlock | script/msp_format_change.py:70 | text with no newline from i on holds no separator |
| MspFormatChange.RemoveTags | script/msp_format_change.py:89 | removing `\|ORIGNAME=...\|` tags never lengthens the COMMENT line |
| MspFormatChange.RemoveTagsAbsent | script/msp_format_change.py:89 | a COMMENT line without a tag is left as it is |
| MspFormatChange.RStripBar | script/msp_format_change.py:90 | `rstrip('\|')`: a prefix of the line, not ending in '\|', and only '\|' characters were removed |
| MspFormatChange.RewriteCommentTag | script/msp_format_change.py:86-93 | a rewritten COMMENT line ends with `\|ORIGNAME=<name>\|` when a name was seen, and otherwise does not end in '\|' |
| MspFormatChange.UpdatedBlocks | script/msp_format_change.py:74-103 | one rewritten block per input block |
| MspFormatChange.Records | script/msp_format_change.py:104-107 | one (Original_NAME, Updated_NAME) record per block |
| MspFormatChange.ConvertNameToPeakId | script/msp_format_change.py:65-111 | convert_name_to_peakid returns exactly `Converted`: the rewritten blocks joined by a blank line, and the records |
| MspFormatChange.RewriteBlock | script/msp_format_change.py:80-101 | the inner loop yields the block's rewritten lines and the last NAME value seen in it |
| MspFormatChange.BlockRunName | script/msp_format_change.py:81-82 | the original name of a block is the value of its last NAME line, or None |
| MspFormatChange.BlockRunComment | script/msp_format_change.py:86-94 | the comment flag is set iff the block has a COMMENT line that is not also a NAME line |
| MspFormatChange.HasCommentLineSnoc | script/msp_format_change.py:81-94 | a block has a COMMENT line after one more line iff it had one or that line is a COMMENT line that is not a NAME line |
| MspFormatChange.BlockRunLines | script/msp_format_change.py:80-97 | the loop rewrites the lines one for one: NAME lines become `NAME: i`, COMMENT lines are re-tagged, other lines are kept |
| MspFormatChange.RewrittenLinePrefix | script/msp_format_change.py:80-97 | the rewrite of a line depends only on the lines up to it |
| MspFormatChange.CommentAppended | script/msp_format_change.py:99-101 | a named block with no COMMENT line gets `COMMENT: \|ORIGNAME=<name>\|` as its last line |
| MspFormatChange.RecordsDense | script/msp_format_change.py:74-107 | record k pairs the k-th block's original name with the string of k+1: the new names are 1, 2, ... in block order |
| MspFormatChange.RecordAt | script/msp_format_change.py:74-107 | the k-th block's record is the one built with the number k+1 |
| MspFormatChange.RestoreFinds | script/msp_format_change.py:104-107 | with distinct updated names, looking up record k's updated name returns its original name |
| MspFormatChange.RestoreRoundTrip | script/msp_format_change.py:65-111 | re-identification round trip: joining back on str(k+1) recovers the original name of block k |
| MspFormatChange.ChangeLine | script/msp_format_change.py:27-54 | one line of the loop moves the loop's five variables exactly as `ChangerStep` says: a NAME line flushes the open record when it is to be written and starts a new one; inside a mapped record a FORMULA line is replaced by the mapped formula when that is valid |
| MspFormatChange.MspFormulaChanger | script/msp_format_change.py:20-60 | the loop of msp_formula_changer writes exactly `FormulaChanged(lines, rename)` |
| MspFormatChange.RewriteAll | script/msp_format_change.py:44-54 | the lines of a kept record, each rewritten on its own (only FORMULA lines change) |
| MspFormatChange.ChangerTracks | script/msp_format_change.py:26-54 | after any prefix of lines the loop variables describe the records read so far: what was written, the open record's name, flag, buffered lines and formula validity |
| MspFormatChange.TracksNameLine | script/msp_format_change.py:27-42 | a NAME line flushes the open record if it qualifies and opens a new one |
| MspFormatChange.TracksOtherLine | script/msp_format_change.py:44-54 | a non-NAME line extends the open record's description |
| MspFormatChange.TracksKeptLine | script/msp_format_change.py:44-54 | inside a kept record a line is rewritten onto the buffer and the formula flag follows the FORMULA lines |
| MspFormatChange.RewriteAllSnoc | script/msp_format_change.py:54 | rewriting one more line appends its rewrite |
| MspFormatChange.HasFormulaLineSnoc | script/msp_format_change.py:46 | a record gains a FORMULA line iff it had one or the new line is one |
| MspFormatChange.OutputIsWrittenRecords | script/msp_format_change.py:26-58 | the output is, in file order, every record whose name is mapped to a non-empty, non-"nan" formula and which has a FORMULA line, with its FORMULA lines rewritten; lines before the first NAME line are dropped |
| MspFormatChange.FlushedEmits | script/msp_format_change.py:56-58 | the write after the loop emits the last record exactly when it is one to be written |
| ChemData.DigitRun | msemblator/chem_data.py:44 | the `\d*` group: the longest run of ASCII digits at the start, stopping at the first non-digit |
| ChemData.Matches | msemblator/chem_data.py:44 | `re.findall(r'([A-Z][a-z]?)(\d*)')`: every match is an element symbol (capital, optional small letter) with a digit string |
| ChemData.CollectKeys | msemblator/chem_data.py:44 | a symbol is a key of formula_to_dict's result exactly when some match carries it |
| ChemData.LastMatchWins | msemblator/chem_data.py:44 | for a repeated symbol the dict comprehension keeps the count of its last match (`int(count)`, or 1 for no digits) |
| ChemData.Leading | msemblator/chem_data.py:51-54 | C and then H are written first, when present |
| ChemData.Order | msemblator/chem_data.py:51-56 | the symbols in writing order are all keys of the dictionary |
| ChemData.OrderCovers | msemblator/chem_data.py:51-56 | every key of the dictionary is written |
| ChemData.OrderDistinct | msemblator/chem_data.py:51-56 | no symbol is written twice |
| ChemData.Pieces | msemblator/chem_data.py:52-56 | one piece per symbol written |
| ChemData.DictToFormula | msemblator/chem_data.py:48-57 | dict_to_formula returns exactly `FormulaOf`: C, H, then the other symbols in sorted order, each followed by its count when above 1 |
| ChemData.OtherPieces | msemblator/chem_data.py:55-56 | the loop over the remaining symbols appends, in the order given, each symbol followed by its count when above 1 |
| ChemData.LeadingPieces | msemblator/chem_data.py:50-54 | the two `if` statements append the C and H pieces |
| ChemData.FormulaOfParts | msemblator/chem_data.py:55-57 | joining the leading pieces and the sorted rest's pieces gives the formula |
| ChemData.NonPositivePrintedAsOne | msemblator/chem_data.py:52-56 | a count of 1 or less (0 and negatives included) is written exactly like a count of 1 |
| ChemData.MatchesPiece | msemblator/chem_data.py:44-56 | reading a written piece back gives one match: the symbol and its count's digits |
| ChemData.MatchesAt | msemblator/chem_data.py:44 | one scanning step of the findall at a capital letter: symbol of 1 or 2 letters, then its digits |
| ChemData.CountOfDigits | msemblator/chem_data.py:44-56 | the digits written for a count of at least 1 are read back as that count |
| ChemData.MatchesOf | msemblator/chem_data.py:56 | the matches expected from a written formula: each symbol with its count's digits |
| ChemData.MatchesOfPieces | msemblator/chem_data.py:44-57 | the findall over a joined formula yields exactly those matches, in writing order |
| ChemData.CollectDistinct | msemblator/chem_data.py:44 | when the matches agree with a dictionary, the comprehension reads back its counts |
| ChemData.RoundTrip | msemblator/chem_data.py:41-57 | for keys that are element symbols and counts of at least 1, formula_to_dict(dict_to_formula(d)) == d |
| ChemData.CollectMatchesOf | msemblator/chem_data.py:44-56 | collecting the matches of a written formula gives back the dictionary |
| ChemData.MassOver | msemblator/chem_data.py:27 | the sum over the listed elements is None exactly when one of them has no tabled mass |
| ChemData.ExactMass | msemblator/chem_data.py:24-30 | calc_exact_mass is None exactly when some element is not in the mass table, and 0 for an empty composition |
| ChemData.ExactMassSingle | msemblator/chem_data.py:27 | the mass of a single element is its tabled mass times its count |
| ChemData.MassOverRemove | msemblator/chem_data.py:27 | taking one element out of the sum and adding it last gives the same result |
| ChemData.MassOverPermutation | msemblator/chem_data.py:27 | the sum does not depend on the order the dictionary is iterated in |
| ChemData.KeysInOrder | msemblator/chem_data.py:44 | the symbols of the matches in first-seen order, without repeats |
| ChemData.KeysInOrderMembers | msemblator/chem_data.py:44 | a symbol is listed iff some match carries it |
| ChemData.KeysInOrderAreKeys | msemblator/chem_data.py:44 | the listed symbols are exactly the keys of formula_to_dict |
| ChemData.FormulaMass | msemblator/chem_data.py:24-46 | the mass of a formula is None exactly when one of its elements is not tabled |
| ChemData.FormulaMassIsExactMass | msemblator/chem_data.py:24-46 | the mass of a formula string equals calc_exact_mass of its dictionary |
| MetfragParse.PrecursorIonMode | msemblator/metfrag_file_processing.py:48 | the ion mode is "1" or "-1", and "-1" exactly for the adduct [M-H]- (every other adduct falls back to "1") |
| MetfragParse.IsPositiveIonMode | msemblator/metfrag_file_processing.py:49 | the flag is "True" exactly when the adduct text contains a '+', else "False" |
| MetfragParse.OtherNegativeAdductsGetModeOne | msemblator/metfrag_file_processing.py:48-49 | [M-H2O-H]- is given ion mode "1" with IsPositiveIonMode "False"; [M+FA-H]- is given mode "1" and "True" |
| MetfragParse.ParseMsp | msemblator/metfrag_file_processing.py:27-66 | the parse loop returns exactly the spectra the line-by-line state machine yields, the last spectrum included |
| MetfragParse.ReadLine | msemblator/metfrag_file_processing.py:34-61 | one loop iteration is one step of the state machine on the line's kind (blank, name, precursormz, precursortype, formula, num peaks, other) |
| MetfragParse.RunFromGood | msemblator/metfrag_file_processing.py:36-66 | every finished spectrum is non-empty and its mass is the mass of its formula |
| MetfragParse.SpectraAreNonEmpty | msemblator/metfrag_file_processing.py:37-65 | no parsed spectrum is the empty dictionary, and each one's NeutralPrecursorMass agrees with its FORMULA |
| MetfragParse.BlankLineSeparatesRecords | msemblator/metfrag_file_processing.py:36-40 | a blank line after a non-empty record closes it: the spectra of a + blank + b are those of a followed by those of b |
| MetfragParse.PeakLinesAppend | msemblator/metfrag_file_processing.py:58-61 | once in the peak block, unmatched lines are appended to m/z in order and nothing else changes |
| MetfragParse.OneRecord | msemblator/metfrag_file_processing.py:41-61 | a name, precursortype, formula and num-peaks header followed by peak lines gives one spectrum carrying exactly those fields, its mass and its peaks |
| MetfragParse.HeaderState | msemblator/metfrag_file_processing.py:41-59 | the NAME, PRECURSORTYPE, FORMULA and Num Peaks lines leave one open spectrum with those fields, the formula's mass and the peak flag raised |
| MetfragParse.PeakFlagSurvivesEmptyBlock | msemblator/metfrag_file_processing.py:36-61 | a blank line with an empty spectrum does not reset is_in_peaks, so a following line is still read as a peak |
| MetfragParse.ParamLine | msemblator/metfrag_file_processing.py:92-106 | a line matching none of the seven keys is kept; a rewritten line ends in a newline; a KeyError happens only for a missing adduct (PrecursorIonMode, IsPositiveIonMode) or name (PeakListPath), and never when both are present |
| MetfragParse.WriteParams | msemblator/metfrag_file_processing.py:91-107 | the write loop writes the rewritten template lines in order, stopping at the first line that raises |
| MetfragParse.ErrorSticks | msemblator/metfrag_file_processing.py:107-111 | once a line has raised, later template lines change nothing |
| MetfragParse.RewriteWithSpec | msemblator/metfrag_file_processing.py:92-111 | every written line is the rewrite of the template line at its position; all lines are written iff nothing raised; the error is the one the first failing line raised |
| MetfragParse.RewrittenSpec | msemblator/metfrag_file_processing.py:92-111 | the same, for the parameter rewrite of a spectrum |
| MetfragParse.RewriteKeepsLineCount | msemblator/metfrag_file_processing.py:91-107 | with an adduct and a name, the parameter file has one line per template line and unmatched lines are copied unchanged |
| MetfragParse.MissingAdductFails | msemblator/metfrag_file_processing.py:97-111 | a spectrum without precursortype fails with KeyError at or before the template's first ion-mode line |
| MetfragLibrary.ColumnIndex | msemblator/metfrag_file_processing.py:130 | `headers.index`: the first position holding the column name |
| MetfragLibrary.SelectMembers | msemblator/metfrag_file_processing.py:132-136 | a row is kept iff it is in the input and passes the test |
| MetfragLibrary.SelectCount | msemblator/metfrag_file_processing.py:132-136 | the filter keeps every copy of a passing row and no copy of a failing one |
| MetfragLibrary.FilterLibrary | msemblator/metfrag_file_processing.py:114-140 | filtering_library fails exactly for an empty file, a header without MonoisotopicMass, or a None target mass meeting a parsable row |
| MetfragLibrary.ScanLibrary | msemblator/metfrag_file_processing.py:132-138 | the scan loop keeps, in order, the rows whose mass parses and lies within the tolerance; unparsable or short rows are skipped; a None target raises TypeError at the first parsable row |
| MetfragLibrary.FilteringLibrary | msemblator/metfrag_file_processing.py:126-140 | the loop computes FilterLibrary |
| MetfragLibrary.FilterLibraryRows | msemblator/metfrag_file_processing.py:129-140 | the result starts with the header row, and a later row is in it iff it is a data row within the tolerance of the target |
| MetfragLibrary.Entries | script/metfrag_file_processing.py:29 | the (mass, row) pairs of the non-empty rows; fails iff a non-empty row's mass does not parse; each pair's mass is its row's mass |
| MetfragLibrary.Insert | script/metfrag_file_processing.py:30 | one insertion step of the sort keeps the multiset and adds the entry |
| MetfragLibrary.InsertSorted | script/metfrag_file_processing.py:30 | inserting into a mass-sorted list keeps it sorted |
| MetfragLibrary.InsertAbove | script/metfrag_file_processing.py:30 | a lower bound on the inserted entry and on every entry bounds every entry after the insertion |
| MetfragLibrary.SortByMass | script/metfrag_file_processing.py:30 | `rows.sort(key=mass)`: sorted by mass and a permutation of its input |
| MetfragLibrary.LoadLibrary | script/metfrag_file_processing.py:23-31 | load_library keeps the header row and the entries sorted by mass |
| MetfragLibrary.FilterPreloaded | script/metfrag_file_processing.py:34-38 | filtering_library_preloaded fails (TypeError) iff the target is None, and otherwise starts with the header |
| MetfragLibrary.SelectKeepsSorted | script/metfrag_file_processing.py:38 | keeping the rows in the window keeps them sorted by mass |
| MetfragLibrary.PreloadedWindow | script/metfrag_file_processing.py:23-38 | the preloaded filter returns, sorted by mass, a permutation of the rows the file holds within the window |
| MetfragLibrary.SelectPermutation | script/metfrag_file_processing.py:30-38 | filtering commutes with reordering up to a permutation |
| MetfragLibrary.WindowsAgree | msemblator/metfrag_file_processing.py:135 | `abs(mass - target) <= tol` (scanning copy) and `lo <= mass <= hi` (preloaded copy) keep the same masses |
| MetfragFiles.PathJoin | msemblator/metfrag_file_processing.py:74 | `os.path.join` ends with the file name; an absolute name discards the directory; a relative one follows the directory and a separating '/' |
| MetfragFiles.ProcessScanning | msemblator/metfrag_file_processing.py:70-111 | the peak list is written iff the spectrum has a name and peaks |
| MetfragFiles.ProcessPreloaded | script/metfrag_file_processing.py:41-83 | the same for the script copy; a None mass stops the spectrum with TypeError before the library and parameter files |
| MetfragFiles.MasslessSpectrum | msemblator/metfrag_file_processing.py:79-107 | a spectrum without a NeutralPrecursorMass key but with a name and an adduct writes no library file and the whole parameter file, without error; the script copy (script/metfrag_file_processing.py:51-80) gives the same outcome |
| MetfragFiles.PreloadedCompleteSpectrum | script/metfrag_file_processing.py:41-80 | a spectrum with name, adduct and known mass gets its library file (the header and the rows within 0.01 of its mass) and the whole rewritten template, without error |
| MetfragFiles.ScanningCompleteSpectrum | msemblator/metfrag_file_processing.py:70-107 | the same for the scanning copy, given a library file with the mass column |
| MetfragFiles.NamelessSpectrumWritesNothing | script/metfrag_file_processing.py:45-83 | a spectrum without a name writes no file and ends in an error (KeyError PeakListPath when its mass is absent or known) |
| MetfragFiles.CreateMetfragFilesScanning | msemblator/metfrag_file_processing.py:24-111 | one outcome per parsed spectrum, in order, each the per-spectrum processing |
| MetfragFiles.ProcessAllPreloaded | script/metfrag_file_processing.py:131-140 | process_spectrum is applied to every parsed spectrum; one failure does not stop the others |
| MetfragFiles.ProcessEach | msemblator/metfrag_file_processing.py:70-71 | the per-spectrum loop (and the executor map of script/metfrag_file_processing.py:134-141) yields one outcome per spectrum, in order, each the processing of that spectrum alone |
| MetfragFiles.CreateMetfragFilesPreloaded | script/metfrag_file_processing.py:92-140 | fails iff load_library fails (with its error); otherwise one outcome per parsed spectrum, each process_spectrum over the loaded library |
| PsvClean.PsvFile.constructor | script/metfrag_struc_cmd.py:20-22 | the file object holds the rows the csv reader yields |
| PsvClean.PsvFile.Clean | script/metfrag_struc_cmd.py:18-33 | an empty file raises StopIteration and is left as it is; otherwise the file is rewritten as the header followed by the non-blank rows, in order |
| PsvClean.KeepNonBlank | script/metfrag_struc_cmd.py:25-28 | the writing loop emits exactly the non-blank rows after the header, in file order |
| PsvClean.BlankRow | script/metfrag_struc_cmd.py:26 | a row is skipped exactly when it has no cells or every cell strips to "" |
| PsvClean.KeptRowsMembers | script/metfrag_struc_cmd.py:25-28 | a row survives iff it is a row of the file and not blank |
| PsvClean.CleanedIdempotent | script/metfrag_struc_cmd.py:18-33 | cleaning a cleaned file changes nothing |
| PsvClean.KeptRowsOfKept | script/metfrag_struc_cmd.py:25-28 | filtering the surviving rows again keeps them all |
| PsvClean.NoBlankRowsUnchanged | script/metfrag_struc_cmd.py:25-28 | a file without blank rows is written back unchanged |
| StrucDataType.PairKinds | script/convert_struc_data_type.py:22-32 | one line kind per stripped line |
| StrucDataType.ExtractCompoundAndIonization | script/convert_struc_data_type.py:17-36 | the loop returns the (compound, ionization) pairs of the line-by-line run |
| StrucDataType.PairRunTracks | script/convert_struc_data_type.py:20-34 | after any prefix the running compound is the value of the last name line since the last blank line, and the pairs are one per precursortype line so far |
| StrucDataType.PairsFollowTypeLines | script/convert_struc_data_type.py:17-36 | extract_compound_and_ionization yields, for each precursortype line in order, the compound above it and that line's value |
| StrucDataType.PairsOfCount | script/convert_struc_data_type.py:31-34 | there are exactly as many pairs as precursortype lines |
| StrucDataType.TypeAfterBlankHasNoCompound | script/convert_struc_data_type.py:24-34 | a precursortype line right after a blank line is paired with the empty compound "" |
| StrucDataType.MethodFile.constructor | script/convert_struc_data_type.py:59-60 | the method file holds the lines read from it |
| StrucDataType.MethodFile.ModifyInPlace | script/convert_struc_data_type.py:58-66 | the file keeps its line count; each line starting with UserDefinedDbFilePath= is replaced by that key, the library path and a newline, and every other line is kept |
| StrucDataType.ConfigLineIdempotent | script/convert_struc_data_type.py:63-66 | rewriting the configuration a second time with the same path changes nothing |
| StrucDataType.MinOf | script/convert_struc_data_type.py:101 | the smallest rank of the column |
| StrucDataType.MaxOf | script/convert_struc_data_type.py:101 | the largest rank of the column |
| StrucDataType.ScaledBounds | script/convert_struc_data_type.py:100-101 | the min-max value lies in [0, 1], is 0 at the minimum, and 1 at the maximum when the ranks differ |
| StrucDataType.ScaledMonotone | script/convert_struc_data_type.py:100-101 | a smaller rank gets a strictly smaller min-max value |
| StrucDataType.NormalizeRankIncreasing | script/convert_struc_data_type.py:99-101 | normalize_rank maps ranks into [0, 1], the best rank to 0, the worst to 1, strictly increasing |
| StrucDataType.FitMinMax | script/convert_struc_data_type.py:99-101 | MinMaxScaler's fit raises ValueError iff the rank column is empty; otherwise each value lies in [0, 1] |
| StrucDataType.NormalizeRankAt | script/convert_struc_data_type.py:100-101 | each value is (rank - min) / (max - min) over the whole column |
| StrucDataType.NormalizeRankNDecreasing | script/convert_struc_data_type.py:103-105 | normalize_rank_n (and normalize_rank of script/converting_data_type.py:25-27) maps ranks into [0, 1], the best rank to 1, the worst to 0, strictly decreasing |
| StrucDataType.NormalizeRankScore | script/convert_struc_data_type.py:107-108 | one value per rank, 1 - log(rank) / log(max + 1) |
| StrucDataType.NormalizeRankScoreTop | script/convert_struc_data_type.py:107-108 | rank 1 is mapped to exactly 1 |
| StrucDataType.Provenance | script/struc_score_calc.py:87-97 | no flagged tool gives ""; otherwise the text starts with the first flagged tool's `Name(rank=r)` |
| StrucDataType.ExtractUsedTools | script/converting_data_type.py:65-73 | extract_used_tooks: the ', '-join of `Name(rank=r)` for each tool whose one-hot column is 1, in the order msbuddy, MS-FINDER, SIRIUS; empty without a flag |
| StrucDataType.Flagged | script/converting_data_type.py:65-72 | a tool name is listed iff its flag is 1, at most one entry per column |
| StrucDataType.UsedToolListFlagged | script/converting_data_type.py:65-73 | entry i of the tool list is the i-th flagged tool's `Name(rank=r)` |
| StrucDataType.UsedToolListShape | script/converting_data_type.py:65-73 | one entry per flagged tool, msbuddy first and SIRIUS last |
| Clipping.ClippingTransformer.Fit | script/struc_score_normalization.py:10-11 | fit returns the transformer itself, unchanged |
| Clipping.ClippingTransformer.Transform | script/struc_score_normalization.py:13-18 | transform raises ValueError iff a bound is None; otherwise one value per input, each `np.clip` of it between q_low and q_high |
| Clipping.ClipBounds | script/struc_score_normalization.py:17 | with ordered bounds a clipped value lies between them |
| Clipping.ClipFixesInside | script/struc_score_normalization.py:17 | a value inside the bounds is left alone |
| Clipping.ClipInvertedBounds | script/struc_score_normalization.py:17 | with q_high below q_low every value becomes q_high |
| Clipping.TransformBounded | script/struc_score_normalization.py:13-18 | with ordered bounds every transformed value lies between them |
| Clipping.TransformKeepsInRange | script/struc_score_normalization.py:13-18 | values already in range pass through unchanged |
| Clipping.TransformIdempotent | script/struc_score_normalization.py:13-18 | transforming twice equals transforming once |
| Candidates.CountInZero | script/sirius_struc_summary.py:50 | a key occurs nowhere iff its count is 0 |
| Candidates.CountInAppend | script/sirius_struc_summary.py:50 | counts add over concatenated tables |
| Candidates.CumCount | script/sirius_struc_summary.py:50 | `groupby(filename).cumcount() + 1`, filled row by row with a running count per filename |
| Candidates.GroupRankPrefix | script/sirius_struc_summary.py:50 | a row's rank depends only on the rows above it |
| Candidates.GroupRankFirst | script/sirius_struc_summary.py:50 | every rank is at least 1, and rank 1 goes exactly to the first row of each filename |
| Candidates.GroupRankIncreasing | script/sirius_struc_summary.py:50 | later rows of the same filename get strictly larger ranks |
| Candidates.GroupRankNext | script/sirius_struc_summary.py:50 | the next row of the same filename gets the next rank |
| Candidates.GroupRankBound | script/sirius_struc_summary.py:50 | no rank exceeds the number of rows of its filename |
| Candidates.ScoreDifferences | script/sirius_struc_summary.py:56-61 | the loop computes each row's score minus the next row's where the next rank is one more, else 0 (NaN filled with 0) |
| Candidates.DiffStaysInGroup | script/sirius_struc_summary.py:56-61 | with each filename's rows together, the last row of a group gets 0 and any other row its score minus its successor's |
| Candidates.DiffCrossesInterleavedGroups | script/sirius_struc_summary.py:57-60 | the mask compares only ranks: with interleaved filenames a row takes the difference to another filename's row |
| Candidates.GroupHead | script/sirius_struc_summary.py:79 | `groupby(filename).head(k)` as a loop over the rows |
| Candidates.HeadIndicesSpec | script/sirius_struc_summary.py:79 | head(k) keeps rows in their order, and a row iff its rank within its filename is at most k |
| Candidates.HeadCount | script/sirius_struc_summary.py:79 | each filename keeps min(k, its row count) rows |
| Candidates.HeadKeepsEveryKey | script/sirius_struc_summary.py:79 | no filename keeps more than k rows, and with k >= 1 every filename keeps at least one |
| Candidates.HeadEmpty | script/sirius_struc_summary.py:79 | head(k) keeps no row iff the table has none or k < 1 |
| Candidates.ScoreColumnPresent | script/sirius_struc_summary.py:53 | the chosen score column is present iff the preferred or the fallback column is, and without the preferred one the fallback is chosen |
| Candidates.MissingColumn | script/sirius_struc_summary.py:59-86 | no column is reported iff every selected column is in some read file; otherwise the reported column is the first selected one that no read file has |
| Candidates.NoneReadableNoRows | script/sirius_struc_summary.py:34-47 | with no file readable the concatenation holds no row |
| Candidates.KeptNames | script/sirius_struc_summary.py:101-102 | the pivot's filenames are empty iff no row is kept, and hold the filename of every kept row |
| Candidates.RelabelAmmonium | script/sirius_struc_summary.py:64-69 | `[M + H3N + H]+` becomes `[M+NH4]+` |
| Candidates.RelabelFormate | script/sirius_struc_summary.py:64-69 | `[M + CH2O2 - H]-` becomes `[M+FA+H]+` |
| Candidates.FormateLacksAmmonium | script/sirius_struc_summary.py:64-69 | the first rule cannot fire on the formate spelling |
| Candidates.RelabelOthers | script/sirius_struc_summary.py:64-69 | any other adduct is kept, and NaN becomes "" |
| Candidates.LastPiece | script/sirius_struc_summary.py:38 | `split('_')[-1]`: the text after the last '_', with no '_' left in it; the whole name without one |
| Candidates.Pivot | script/sirius_struc_summary.py:101-102 | the pivot succeeds iff no (filename, rank) pair repeats (ValueError otherwise) |
| Candidates.PivotMapSpec | script/sirius_struc_summary.py:101-105 | every kept cell lands at its filename and rank, and the pivot's rows are exactly the filenames |
| Candidates.ReadResults | script/sirius_struc_summary.py:34-44 | the reading loop concatenates, in glob order, the rows of every readable file and skips the others; it reports whether any file was read |
| Candidates.ReadAll | script/msfinder_struc_summary.py:32 | reading every file in one concat succeeds iff every file can be read, giving the concatenation; else it fails with the error of an unreadable file |
| Candidates.ReadEvery | script/msfinder_struc_summary.py:32 | the reading loop computes ReadAll |
| Candidates.ReadAllKeepsError | script/msfinder_struc_summary.py:32 | the first unreadable file decides the error |
| Candidates.TextColumn | script/msfinder_struc_summary.py:54 | `fillna('')` keeps every present text |
| Candidates.RankTable | script/sirius_struc_summary.py:50-79 | the shared steps: the ranks, the score differences and the rows head(k) keeps |
| Candidates.RankRows | script/sirius_struc_summary.py:50-79 | the ranked table keeps the filenames and scores of the combined table |
| Candidates.KeptRanks | script/sirius_struc_summary.py:50-79 | the kept rows carry ranks 1..k, and rank 1 is kept whenever any row is |
| Candidates.ClassRows | script/sirius_struc_summary.py:113-118 | a class row is added iff a kept row is rank 1 with non-blank InChIKey and SMILES, carrying its filename, InChIKey, SMILES and the tool name |
| Candidates.ScoreRowsOfShape | script/sirius_struc_summary.py:86-94 | each score row carries the kept row's filename, the adduct the name/adduct table records for it (NaN when absent), its rank, the tool name, the Used_tools tag and its normalised rank |
| Candidates.FinerRanksWithinHead | script/msfinder_summary.py:16-30 | ranked by `File name` (a finer key than the filename it yields) and cut by filename, every kept row still has a rank in 1..k |
| Candidates.RankedCellsDistinct | script/sirius_struc_summary.py:50-102 | ranked by filename, the kept cells never repeat a (filename, rank) pair, so the pivot cannot fail |
| SiriusStrucSummary.FilenamesOf | script/sirius_struc_summary.py:38 | one filename per combined row, taken from the folder name |
| SiriusStrucSummary.Table | script/sirius_struc_summary.py:47-79 | the ranked combined table has one row per row of every readable file |
| SiriusStrucSummary.AddedScoreRows | script/sirius_struc_summary.py:82-94 | one score row per kept candidate |
| SiriusStrucSummary.SiriusOutput | script/sirius_struc_summary.py:27-126 | inputs unchanged iff no file could be read; otherwise KeyError naming the first of score column, `adduct`, `smiles` that no read file has; otherwise ValueError iff the files hold no row; otherwise the SIRIUS score rows and class rows are appended and the InChIKey pivot holds the kept candidates by filename and rank |
| SiriusStrucSummary.ProcessSiriusOutput | script/sirius_struc_summary.py:27-126 | the imperative reading loop computes SiriusOutput, errors included |
| SiriusStrucSummary.SiriusScoreRows | script/sirius_struc_summary.py:79-91 | every added score row is tool "sirius" without Used_tools, carries its kept row's filename, the name/adduct table's adduct for it and a rank in 1..3, and each filename keeps min(3, its row count) candidates |
| SiriusStrucSummary.SiriusRankOneNormalizesToZero | script/sirius_struc_summary.py:94 | normalize_rank maps rank 1 to 0 and orders the normalised ranks like the ranks |
| SiriusStrucSummary.SiriusClassRows | script/sirius_struc_summary.py:113-121 | a class row is added iff a kept candidate is rank 1 with non-blank InChIKey and SMILES, tagged "SIRIUS" |
| SiriusStrucSummary.SiriusPivotCells | script/sirius_struc_summary.py:97-108 | every kept candidate's InChIKey sits in the pivot at its filename and rank |
| MsfinderStrucSummary.FilenamesOf | script/msfinder_struc_summary.py:35 | `File name` up to its first '.', so no filename holds a '.' |
| MsfinderStrucSummary.Table | script/msfinder_struc_summary.py:32-53 | the ranked combined table has one row per row of the result files |
| MsfinderStrucSummary.AddedScoreRows | script/msfinder_struc_summary.py:65-77 | one score row per kept candidate |
| MsfinderStrucSummary.MsfinderOutput | script/msfinder_struc_summary.py:27-107 | no file leaves the tables unchanged; an unreadable file raises its read error; otherwise KeyError iff one of `File name`, the score column, `Precursor type`, `SMILES`, `InChIKey` is in no file, naming the first; otherwise the MS-FINDER class rows and score rows are appended |
| MsfinderStrucSummary.ProcessMsfinderOutput | script/msfinder_struc_summary.py:27-107 | the reading loop computes MsfinderOutput, errors included |
| MsfinderStrucSummary.PivotKeys | script/msfinder_struc_summary.py:81-85 | every (filename, adduct) key of the SMILES pivot names the filename of a kept row |
| MsfinderStrucSummary.MsfinderScoreRows | script/msfinder_struc_summary.py:53-77 | every added row is tool "msfinder" with Used_tools `MS-FINDER_Rank:r`, its filename, the mapped adduct and a rank in 1..top_n; rank 1 is normalised to 1; each filename keeps min(top_n, its rows) |
| MsfinderStrucSummary.MsfinderClassRows | script/msfinder_struc_summary.py:96-102 | a class row is added iff a kept candidate is rank 1 with non-blank InChIKey and SMILES, tagged "MS-FINDER" |
| MetfragSummary.FilenamesOf | script/metfrag_summary.py:39 | the file's base name up to its first '.', so no filename holds a '.' |
| MetfragSummary.Table | script/metfrag_summary.py:48-65 | the ranked combined table has one row per row of every readable file |
| MetfragSummary.RankedRows | script/metfrag_summary.py:76-85 | one score row per kept candidate, before the adduct merge |
| MetfragSummary.RowsFor | script/metfrag_summary.py:88 | the left rows whose filename is the join key |
| MetfragSummary.AdductsFor | script/metfrag_summary.py:88 | the adducts name_adduct_df lists for the join key |
| MetfragSummary.WithAdducts | script/metfrag_summary.py:88 | every left row of a key is paired with every adduct of that key, and nothing else is produced |
| MetfragSummary.MergeAlong | script/metfrag_summary.py:88 | a merged row belongs to exactly one of the join keys |
| MetfragSummary.MergeKeys | script/metfrag_summary.py:88 | the outer merge's keys include every filename of both sides |
| MetfragSummary.MergeOuter | script/metfrag_summary.py:88 | the merge loop computes the outer merge over the sorted keys |
| MetfragSummary.MergeKeepsEveryPair | script/metfrag_summary.py:88 | every name/adduct pair shows up in the merged score rows |
| MetfragSummary.MergeKeepsEveryRow | script/metfrag_summary.py:88 | a score row without a matching adduct is kept as it is, and one with matches is kept once per matching adduct |
| MetfragSummary.MergeInventsNoFilename | script/metfrag_summary.py:88 | every merged row has a filename from one of the two sides |
| MetfragSummary.MetfragOutput | script/metfrag_summary.py:28-119 | the tables are unchanged iff no file could be read; otherwise KeyError for a missing score column or `SMILES`; otherwise ValueError iff no row is kept; otherwise KeyError iff no file has `InChIKey`; otherwise the class rows and the ranked rows merged with the seed pairs are appended |
| MetfragSummary.ProcessMetfragOutput | script/metfrag_summary.py:28-119 | the reading loop and the merge compute MetfragOutput, errors included |
| MetfragSummary.MetfragScoreRows | script/metfrag_summary.py:65-82 | every added row is tool "metfrag" with Used_tools `MetFrag_Rank:r`, its kept filename and a rank in 1..top_n; each filename keeps min(top_n, its rows) |
| MetfragSummary.MetfragNormalizedRank | script/metfrag_summary.py:85 | normalize_rank_n maps rank 1 to 1 and a smaller rank to a strictly larger value |
| MetfragSummary.MetfragClassRows | script/metfrag_summary.py:107-115 | a class row is added iff a kept candidate is rank 1 with non-blank InChIKey and SMILES, tagged "MetFrag" |
| SiriusSummary.Table | script/sirius_summary.py:26-50 | the ranked combined table has one row per row of every readable file |
| SiriusSummary.AddedScoreRows | script/sirius_summary.py:50-60 | one score row per kept candidate |
| SiriusSummary.FormulaTexts | script/sirius_summary.py:62 | one text per row, NaN printed as "nan" |
| SiriusSummary.SiriusSummaryOutput | script/sirius_summary.py:7-75 | returns its inputs unchanged iff no file could be read; otherwise KeyError naming the first of score column, `adduct`, `molecularFormula` that no read file has; otherwise ValueError iff no row is read or top_n is 0; otherwise appends the SIRIUS score rows, and the formula pivot holds the kept candidates by filename and rank |
| SiriusSummary.ProcessSiriusSummary | script/sirius_summary.py:7-75 | the reading loop computes SiriusSummaryOutput, errors included |
| SiriusSummary.SiriusSummaryScoreRows | script/sirius_summary.py:50-58 | every added row is tool "sirius" without Used_tools, with its filename, the mapped adduct and a rank in 1..top_n; each filename keeps min(top_n, its rows) |
| SiriusSummary.SiriusSummaryNormalizedRank | script/sirius_summary.py:60 | normalize_rank of script/converting_data_type.py maps rank 1 to 1 and a smaller rank to a strictly larger value |
| SiriusSummary.SiriusSummaryPivotCells | script/sirius_summary.py:62-69 | every kept candidate's formula sits in the pivot at its filename and rank |
| MsfinderSummary.FilenameOf | script/msfinder_summary.py:16 | `File name` up to its first '.', then the text after its last '_', so no '_' is left |
| MsfinderSummary.FilenamesOf | script/msfinder_summary.py:15-16 | one filename per combined row, each FilenameOf its `File name` |
| MsfinderSummary.Idents | script/msfinder_summary.py:15-17 | the `File name` column the ranks are counted by |
| MsfinderSummary.Table | script/msfinder_summary.py:14-30 | ranks are counted per `File name`, head(top_n) is taken per filename |
| MsfinderSummary.KeptRanksWithinTopN | script/msfinder_summary.py:17-30 | every kept row has a rank in 1..top_n |
| MsfinderSummary.AddedScoreRows | script/msfinder_summary.py:41-50 | one score row per kept candidate |
| MsfinderSummary.TopCells | script/msfinder_summary.py:52-58 | a cell is present iff it is ((filename, adduct), rank, formula) of a kept row of rank at most 5 |
| MsfinderSummary.TopCellsPivot | script/msfinder_summary.py:52-58 | without repeated cells every kept row of rank at most 5 has its formula at its (filename, adduct) row and rank column |
| MsfinderSummary.TopCellsKeys | script/msfinder_summary.py:52-58 | the pivot's (filename, adduct) rows are exactly those of the kept rows of rank at most 5 |
| MsfinderSummary.MsfinderSummaryPivot | script/msfinder_summary.py:31-65 | the returned formula pivot holds every kept rank-≤5 row's `fillna('')` formula at its (filename, adduct) and rank, and has no other rows |
| MsfinderSummary.Adducts | script/msfinder_summary.py:32 | the `Precursor type` column, one cell per row |
| MsfinderSummary.MsfinderSummaryOutput | script/msfinder_summary.py:8-67 | no file raises FileNotFoundError with the pattern; an unreadable file raises its read error; otherwise KeyError naming the first of `File name`, the score column, `Precursor type`, `Formula` that no file has; otherwise the pivot succeeds iff no (filename, adduct, rank) cell repeats (else ValueError), and on success the formula pivot is the pivot of those cells and the MS-FINDER score rows are appended |
| MsfinderSummary.ProcessMsfinderSummary | script/msfinder_summary.py:8-67 | the imperative steps compute MsfinderSummaryOutput, errors included |
| MsfinderSummary.MsfinderSummaryScoreRows | script/msfinder_summary.py:30-50 | every added row is tool "msfinder" with Used_tools `MS-FINDER_Rank:r`, its filename, the mapped adduct and a rank in 1..top_n; each filename keeps min(top_n, its rows) |
| MsfinderSummary.MsfinderSummaryRankOne | script/msfinder_summary.py:49 | normalize_rank_score gives every kept rank-1 row exactly 1 |
| MsfinderSummary.FilenameOfDotted | script/msfinder_summary.py:16 | `x` and `x.1` give the same filename |
| MsfinderSummary.ExampleTable | script/msfinder_summary.py:16-30 | two result rows with `File name` `x` and `x.1` share filename x and both get rank 1 |
| MsfinderSummary.SharedFilenameBreaksPivot | script/msfinder_summary.py:16-59 | for those two rows with the same adduct the pivot raises ValueError |
| MsfinderSummary.PivotClash | script/msfinder_summary.py:55-59 | when every file was read, no selected column is missing and two rows fall into one pivot cell, the summary raises ValueError |
| MsbuddySummary.FilenamesOf | script/msbuddy_summary.py:15-16 | `Scan_ID` as text is the filename, one per row |
| MsbuddySummary.ToolRanks | script/msbuddy_summary.py:20-26 | msbuddy's own `Rank` column, one per row |
| MsbuddySummary.Scores | script/msbuddy_summary.py:17 | `Estimated_FDR_2` is 1 - Estimated_FDR, and NaN where that is missing |
| MsbuddySummary.FilterByRank | script/msbuddy_summary.py:26 | the loop computes the rows with Rank <= top_n |
| MsbuddySummary.RankFilterSpec | script/msbuddy_summary.py:26 | the kept rows stay in order, and a row is kept iff its Rank is at most top_n |
| MsbuddySummary.Table | script/msbuddy_summary.py:18-26 | score differences over msbuddy's own ranks, one entry per row |
| MsbuddySummary.AddedScoreRows | script/msbuddy_summary.py:34-46 | one score row per kept candidate |
| MsbuddySummary.FormulaTexts | script/msbuddy_summary.py:48 | one text per row, NaN printed as "nan" |
| MsbuddySummary.FirstCells | script/msbuddy_summary.py:49 | drop_duplicates keeps only cells of the input |
| MsbuddySummary.DropDuplicates | script/msbuddy_summary.py:49 | the loop removes every later repeat of a (filename, rank) pair |
| MsbuddySummary.FirstCellsDistinct | script/msbuddy_summary.py:49-55 | after drop_duplicates no (filename, rank) pair repeats, so the pivot cannot fail |
| MsbuddySummary.FirstCellsKeepFirst | script/msbuddy_summary.py:49 | the first cell of each (filename, rank) pair is kept |
| MsbuddySummary.BuddyOutput | script/msbuddy_summary.py:7-63 | no file leaves the tables unchanged; an unreadable file raises; otherwise KeyError naming the first of `Scan_ID`, `Estimated_FDR`, `Rank`, `Formula` that no file has; otherwise ValueError iff no row has own rank at most top_n; otherwise the pivot holds the first formula per (filename, rank) and the msbuddy score rows are appended |
| MsbuddySummary.ProcessBuddySummary | script/msbuddy_summary.py:7-63 | the imperative steps compute BuddyOutput, errors included |
| MsbuddySummary.KeptIffRanked | script/msbuddy_summary.py:25 | the rank filter keeps no row iff no row has own rank at most top_n |
| MsbuddySummary.BuddyKeptRows | script/msbuddy_summary.py:26 | a row is kept iff msbuddy ranked it at most top_n |
| MsbuddySummary.BuddyScoreRows | script/msbuddy_summary.py:36-45 | every added row is tool "buddy" with Used_tools `msbuddy_Rank:r`, the `Scan_ID` as filename, the mapped adduct and msbuddy's own rank |
| MsbuddySummary.BuddyNormalizedRank | script/msbuddy_summary.py:46 | normalize_rank gives the best kept rank 1 and a smaller rank a strictly larger value |
| MsbuddySummary.BuddyScoreDiffs | script/msbuddy_summary.py:18-23 | a non-zero score difference only comes from a next row ranked one more, and is the difference of their 1 - FDR values |
| MsbuddySummary.BuddyPivotFirst | script/msbuddy_summary.py:48-55 | the first kept candidate of each (filename, rank) has its formula in the pivot |
| MsfinderSummary.ExampleColumns | script/msfinder_summary.py:15-32 | for the two example rows the filename column reads x, x while `File name` keeps x and x.1 |
| MsfinderSummary.ExampleRanks | script/msfinder_summary.py:17-30 | counted by `File name` both rows are rank 1, and head(5) by filename keeps both |
| Router.FeatureValues | script/struc_score_calc.py:52-57 | the features handed to the model, each NaN replaced by 0 |
| Router.SelectorKey | script/struc_score_calc.py:43 | the adduct key has every '+' and '-' spelled out, so neither is left in it |
| Router.SelectorKeyUnsigned | script/struc_score_calc.py:43 | without an adduct column the key is "all"; a NaN adduct gives "nan"; an adduct without signs is its own key |
| Router.SelectorKeyProtonated | script/struc_score_calc.py:43 | `[M+H]+` is looked up as `[MplusH]plus` |
| Router.ModelFileHasTwoTokens | script/struc_score_calc.py:35-37 | a model file name splits into at least two '_' tokens, so `split("_")[-2]` exists |
| Router.ModelKeyOf | script/struc_score_calc.py:36 | the key of `..._<key>_<tail>` is the second-to-last token |
| Router.SplitOnLastTwo | script/struc_score_calc.py:36 | the last two '_' tokens of `stem_key_tail` are key and tail |
| Router.TrainedKeys | script/struc_score_calc.py:35-37 | `trained_adducts`: one key per listed model file at most |
| Router.TrainedKeyOfFile | script/struc_score_calc.py:35-37 | every listed model file's key is trained |
| Router.TrainedKeyHasFile | script/struc_score_calc.py:35-37 | every trained key comes from a listed model file |
| Router.ModelFileFor | script/struc_score_calc.py:46 | a trained key picks `random_forest_<key>_optimized.pkl`; any other key the all model |
| Router.NoAdductColumnUsesAllModel | script/struc_score_calc.py:43-46 | without an adduct column every row uses the all model |
| Router.Load | script/struc_score_calc.py:49 | loading succeeds iff the file is listed, and raises FileNotFoundError for that file otherwise |
| Router.ModelFiles | script/struc_score_calc.py:41-46 | one model file per row, in row order |
| Router.RowPredictions | script/struc_score_calc.py:41-61 | succeeds iff every row's model file is listed, giving one probability per row: its model applied to its NaN-free features |
| Router.StrucPredictions | script/struc_score_calc.py:30-66 | without the all model nothing is predicted (FileNotFoundError); otherwise each row is routed by its adduct key |
| Router.PredictAndAppend | script/struc_score_calc.py:6-66 | the row loop computes StrucPredictions |
| Router.RowPredictionsKeepError | script/struc_score_calc.py:41-61 | once a row fails, later rows change nothing |
| Router.FirstMissingModel | script/struc_score_calc.py:41-49 | the first row whose model file is missing decides the error |
| Router.ModelDict | script/calculating_score.py:38-44 | each dictionary entry is a listed adduct model file whose key is its entry's key |
| Router.ModelDictLastWins | script/calculating_score.py:38-44 | for a repeated key the file listed last wins |
| Router.LoadModels | script/calculating_score.py:38-44 | the dict-building loop computes ModelDict |
| Router.DictModel | script/calculating_score.py:49 | `model_dict.get(adduct, model_all)` |
| Router.DictPredictions | script/calculating_score.py:47-57 | one probability per row |
| Router.FormulaPredictions | script/calculating_score.py:5-59 | fails with FileNotFoundError iff `random_forest_all.pkl` is not listed; otherwise each row is scored by the dictionary's model for its key, or the all model |
| Router.PredictWithModelDict | script/calculating_score.py:5-59 | the imperative steps compute FormulaPredictions |
| Fusion.KeysOf | script/struc_score_calc.py:99-101 | the candidate keys a filename has in the table |
| Fusion.Groups | script/struc_score_calc.py:99-101 | the (filename, key) groups are exactly the keys of each filename |
| Fusion.FusedRank | script/struc_score_calc.py:102-103 | every fused rank is at least 1 |
| Fusion.BeatsIrreflexive | script/struc_score_calc.py:102-103 | no key beats itself |
| Fusion.BeatsTransitive | script/struc_score_calc.py:102-103 | the order `rank(method="first", ascending=False)` uses is transitive |
| Fusion.BeatsTotal | script/struc_score_calc.py:99-103 | of two different keys one beats the other: a larger sum, or an equal sum and the smaller key (groupby's order) |
| Fusion.FusedRankOrder | script/struc_score_calc.py:102-103 | a key that beats another gets a strictly smaller rank |
| Fusion.FusedRankDistinct | script/struc_score_calc.py:102-103 | different keys of a filename get different ranks |
| Fusion.FusedRankRange | script/struc_score_calc.py:102-103 | the ranks lie between 1 and the number of keys |
| Fusion.UpTo | script/struc_score_calc.py:102-103 | the ranks 1 to n |
| Fusion.FusedRanksCover | script/struc_score_calc.py:102-103 | a filename's ranks are exactly 1 to its number of keys |
| Fusion.TopGroups | script/struc_score_calc.py:104 | a group survives iff its fused rank is at most top_n |
| Fusion.TopGroupCount | script/struc_score_calc.py:104 | a filename keeps min(top_n, its number of keys) groups |
| Fusion.GroupRows | script/struc_score_calc.py:106-110 | the rows the inner merge joins to a group are exactly its rows |
| Fusion.FirstAdduct | script/struc_score_calc.py:113 | groupby "first" gives the first non-NaN adduct of the group, and NaN iff there is none |
| Fusion.TopRanksIdentify | msemblator/struc_score_calc.py:103-135 | within a filename, a surviving group is identified by its rank |
| Fusion.KeyAt | msemblator/struc_score_calc.py:135-138 | the key holding a surviving rank |
| Fusion.RankKeyedSummaryKeys | msemblator/struc_score_calc.py:94-140 | the summary has an entry (filename, r) iff 1 <= r <= top_n and r <= the filename's number of keys |
| Fusion.RankKeyedSummaryEntry | msemblator/struc_score_calc.py:106-140 | each entry holds the group with that fused rank, its sum, the adduct text of its first row, and exactly the `Used_Tool` texts of its rows with the fused rank |
| Fusion.FusedProvenanceMembers | msemblator/struc_score_calc.py:126-139 | a group's `Used_Tool` set holds exactly its rows' provenance texts with the fused rank |
| Fusion.GroupRowsFirst | msemblator/struc_score_calc.py:106-136 | the first row of a group is the first table row with that filename and key |
| StrucScoreCalc.SortedTextsSpec | script/struc_score_calc.py:115 | `sorted(set(x))`: the pieces are strictly increasing and are exactly the texts of the group's rows |
| StrucScoreCalc.AggregateProbabilityWithRank | script/struc_score_calc.py:70-118 | the `Used_Tool` column has one text per input row, its provenance; the summary has exactly the surviving (filename, SMILES) groups, each its Entry |
| StrucScoreCalc.SummaryRanks | script/struc_score_calc.py:99-116 | a group is summarised iff its fused rank is at most top_n; its rank is the fused rank, within 1..number of keys; its sum is the group's confidence sum; two summarised keys of a filename never share a rank |
| StrucScoreCalc.SummaryAdduct | script/struc_score_calc.py:113 | the summary adduct is NaN iff every row of the group has a NaN adduct, and otherwise the first non-NaN one |
| StrucScoreCalc.SummaryProvenance | script/struc_score_calc.py:115 | `Used_Tool` is the ", "-join of the sorted distinct provenance texts of the group's rows |
| StrucScoreCalc.RowUsedToolNamesToolRank | script/struc_score_calc.py:87-95 | a row's provenance starts with MetFrag's entry when flagged, else MS-FINDER's, and is SIRIUS's alone when only it is flagged; each carries the row's own tool rank |
| MsemblatorScoreCalc.AggregateProbabilityWithRank | msemblator/struc_score_calc.py:72-142 | the summary is keyed by (filename, rank) with ranks in 1..top_n |
| MsemblatorScoreCalc.ProvenanceNamesFusedRank | msemblator/struc_score_calc.py:106-132 | the inner merge installs the fused rank in the `rank` column, so a MetFrag-flagged row's `Used_Tool` names the fused rank, not MetFrag's own |
| CalculatingScore.AggregateProbabilityWithRankTop3 | script/calculating_score.py:61-123 | the formula summary is keyed by (filename, rank) with ranks in 1..top_n |
| CalculatingScore.ProvenanceNamesMsbuddy | script/calculating_score.py:95-114 | an msbuddy-flagged row's `Used_Tool` names msbuddy with the fused rank |
| StrucSummary.SeedTable | script/creating_struc_summary.py:24-30 | the `.at` loop fills row i of the seed tables with the i-th (compound, ionization) pair |
| StrucSummary.NameAdduct | script/sirius_struc_summary.py:91 | `name_adduct_df.set_index('filename')['adduct']` as a lookup: a filename is a key iff some pair carries it, and the adduct it gives belongs to one of its pairs |
| StrucSummary.NameAdductLastWins | script/sirius_struc_summary.py:91 | the adduct looked up for a filename is the one of its last pair |
| StrucSummary.FirstRequired | script/metfrag_summary.py:9-11 | the first parameter at or after a position that has no default |
| StrucSummary.BindPositional | script/metfrag_summary.py:9-11 | binding n positional arguments succeeds iff n does not exceed the parameters and every later parameter has a default; otherwise TypeError |
| StrucSummary.ToolScoreRows | script/creating_struc_summary.py:32-34 | the MS-FINDER then SIRIUS calls raise iff either summary raises; otherwise the score table is the MS-FINDER rows followed by the SIRIUS rows |
| StrucSummary.MsfinderScoreTable | script/creating_struc_summary.py:32 | raises iff process_msfinder_output raises; otherwise the MS-FINDER score rows, none when no file was found |
| StrucSummary.SiriusScoreTable | script/creating_struc_summary.py:34 | raises iff process_sirius_output raises; otherwise the table it is handed followed by the SIRIUS score rows |
| StrucSummary.MetfragScoreTable | script/creating_struc_summary.py:36 | raises iff process_metfrag_output raises; otherwise the table it is handed followed by the MetFrag rows merged with the seed pairs, and unchanged when no file was read |
| StrucSummary.AsWrittenRaisesTypeError | script/creating_struc_summary.py:36 | the call to process_metfrag_output as written never succeeds, and raises TypeError whenever neither the MS-FINDER nor the SIRIUS step raised first |
| StrucSummary.ScoreTable | script/creating_struc_summary.py:32-44 | the corrected score table exists iff none of the three tool summaries raises, and is the MS-FINDER, SIRIUS and MetFrag rows in that order |
| StrucSummary.MetfragCallBinds | script/metfrag_summary.py:9-11 | seven positional arguments bind process_metfrag_output, six do not |
| StrucSummary.RunningTableWouldRepeatRows | script/creating_struc_summary.py:36-44 | whether the MetFrag step raises does not depend on the table it is handed; passing the running score table and then concatenating would repeat the earlier rows |
| StrucSummary.ToolName | script/creating_struc_summary.py:46-51 | the normalised tool name holds no upper-case letter |
| StrucSummary.ToolFlags | script/creating_struc_summary.py:52-58 | the one-hot columns: at most one is set, each iff the normalised name is "metfrag", "msfinder" or "sirius" |
| StrucSummary.SmilesRows | script/creating_struc_summary.py:60 | a row is kept iff it has a SMILES that is not blank |
| StrucSummary.Features | script/creating_struc_summary.py:59 | six features per row, and the row's adduct routes it |
| StrucSummary.FeatureRows | script/creating_struc_summary.py:59-62 | one feature row per table row |
| StrucSummary.CanonicalSmiles | script/convert_struc_data_type.py:81-93 | a SMILES that cannot be canonicalised is kept as it is |
| StrucSummary.ScoredRows | script/creating_struc_summary.py:62-64 | every aggregated row comes from a scored table row, with its probability and its canonical SMILES |
| StrucSummary.SummaryKeys | script/creating_struc_summary.py:38-39 | the keys of the merged SMILES summary: (f, a) with a present iff it is a seed pair or an MS-FINDER pivot key; (f, NaN) iff f is no seed filename but a SIRIUS or MetFrag pivot filename |
| StrucSummary.JoinTop | script/creating_struc_summary.py:65-66 | a top row is produced iff a summary key (filename, adduct) meets a rank-1 summary entry with that filename and the same adduct, NaN matching NaN, carrying its SMILES, sum and `Used_Tool` |
| StrucSummary.PipelineRows | script/creating_struc_summary.py:32-64 | a failing tool step makes the pipeline fail |
| StrucSummary.StrucSummary | script/creating_struc_summary.py:15-67 | without the all model (and once the tool steps succeed) struc_summary raises FileNotFoundError; on success the top table is the inner merge of the merged SMILES summary's keys with the rank-1 entries |
| StrucSummary.TopRowIsBestStructure | script/creating_struc_summary.py:64-66 | a top row's pair is a summary key, its SMILES is a candidate of the filename that beats every other candidate, its adduct is the group's first non-NaN adduct (NaN when there is none) and its sum is the group's sum |
| StrucSummary.BestStructureIsJoined | script/creating_struc_summary.py:64-66 | conversely, the rank-1 candidate is joined with every summary key of its filename and its first adduct |
| StrucSummary.UnseededFilenameJoined | script/creating_struc_summary.py:64-66 | a filename the SIRIUS or MetFrag pivot has but no seed pair names is joined, with a NaN adduct, to its rank-1 candidate when that candidate's rows carry no adduct |
| StrucSummary.OneTopRowPerPair | script/creating_struc_summary.py:65-66 | a summary key is joined with at most one structure |
| StrucSummary.ScoredRowsShape | script/creating_struc_summary.py:52-64 | every scored row has a confidence in [0, 1], at most one tool flag, and comes from a row with a filename and a non-blank SMILES |
| StrucSummary.ToolTagsFlag | script/creating_struc_summary.py:46-58 | the tags "metfrag", "msfinder" and "sirius" set exactly their own flag, and a NaN tag sets none |

## Left out

- Running the external tools is left out because it is process plumbing: SIRIUS, MS-FINDER, MetFrag and msbuddy, with their subprocess calls and login handling. Their result files are inputs to the model.
- The orchestration and CLI scripts are left out because they only sequence I/O. So are the alternative main scripts and `generate_unique_filename`. The restore join they perform is covered by `MspFormatChange.RestoreRoundTrip`.
- File I/O is not modelled. A file is the lines `readlines()` yields, or the rows the csv or pandas reader yields. A directory is its listing, taken in the order glob returns it. Whatever pandas raises on an unreadable file is one `ReadError`.
- `print`, logging and the tqdm progress bars are not modelled because they change no result.
- The ProcessPoolExecutor fan-out and the `lru_cache` of the MetFrag file step are left out because they are concurrency and caching. The spectra are processed one after another, in order.
- The classifiers are joblib-loaded random forests. Each is a function from a model file name and a feature row to a probability in [0, 1]. Their internals, and errors from unpickling, are not modelled.
- The pickled normalisation pipelines are real-to-real functions applied to each value. This includes scikit-learn's MinMaxScaler on constant columns.
- RDKit canonicalisation and the SMILES-to-InChIKey conversions are not modelled. Each is a string function passed in as a parameter.
- Floating point is not modelled: scores are `real`. This covers rounding, the exact-mass sums and the printed form of a float. `normalize_rank_score` takes the natural logarithm as a parameter, and only its value 1 at rank 1 is stated.
- The YAML load of the atomic data and its isotope sort are not modelled. The mass table is a map from element to mass.
- NaN scores are not modelled. A missing score cell is `None`, and a NaN that pandas carries through arithmetic is not modelled.
- MsbuddySummary.BuddyScoreDiffs: the source has no `fillna` on msbuddy's `score_diff`. A NaN `Estimated_FDR` cell therefore leaves NaN, where the model gives 0.
- A `top_n` below 0 is not given pandas' `head` semantics of counting from the end. The model keeps no rows.
- A feature column missing from the structure table (pandas KeyError) is not modelled. In the formula pipeline a missing column is added as 0, and that is modelled.
- The wide summary tables are not modelled. These are the InChIKey, SMILES and formula pivots after they are merged into `summary_inchikey_df`, `summary_smiles_df` and the formula summary. Of `summary_smiles_df` the model keeps only its (filename, adduct) keys, which the final join reads.
- The SIRIUS InChIKey pivot and the SIRIUS, MS-FINDER and msbuddy formula pivots are modelled as maps. The InChIKey and SMILES pivots of the MS-FINDER and MetFrag structure summaries, and the SIRIUS SMILES pivot, are modelled only by their keys; their cells and the ValueError a repeated (filename, rank) cell would raise there are not modelled.
- A KeyError carries the column name as the code selects it before any rename. pandas words the message differently for a list of columns or a renamed column, and that wording is not modelled.
- The empty-table ValueError is stated with MinMaxScaler's message. In the source the score pipelines' own `transform` meets the empty table first; the pipelines are functions on one value here, so their message is not modelled.
- MsfinderStrucSummary.MsfinderOutput: with every file read but no row, the score pipeline's `transform` raises ValueError on the empty table in the source; the model appends nothing, because the pipelines are functions on one value and this summary does not scale ranks with MinMaxScaler.
- MsfinderSummary.MsfinderSummaryOutput: the same empty-table ValueError of the score pipelines is not modelled, for the same reason.
- A result table that already carries an `adduct` column before the MS-FINDER rename, or a `filename` column before the code sets it, is not modelled.
- A filename that appears twice in the name/adduct table is not modelled. The lookup `set_index('filename')['adduct']` is a map in which the later pair wins, whereas pandas `.map` raises InvalidIndexError for a duplicated index.
- The join order of the set-joined `Used_Tool` column is not modelled, because Python's set iteration order is not fixed (msemblator/struc_score_calc.py and script/calculating_score.py). The column is modelled as the set of texts.
- The order and multiplicity of the rows of `summary_output_score` are not modelled. It is the set of joined top rows.
- `int()` of a NaN rank raises in Python. The model reads the missing rank as 0.
- The class tables are threaded through each step, but their final merged form is not modelled.
- The one-hot frame `df_onehot` built at script/struc_score_calc.py:25-26 is never used, so it is left out.
- The SIRIUS structure summary relabels its `adduct` column (script/sirius_struc_summary.py:64-69). Line 91 then replaces that column with the name/adduct lookup before anything reads it. The relabel rules are modelled in `Candidates`, but they reach no output.
- In the MS-FINDER structure summary, `fillna('')` at script/msfinder_struc_summary.py:54 would turn a missing score into '' before the pipeline sees it. This is not modelled, because NaN scores are not modelled.
- `splitlines()` is modelled as a split on '\n' only. The other Unicode line terminators are left out.
- Case folding (`lower`, `upper`, `casefold`) is modelled for ASCII letters only.
- Regular expressions are modelled only for the patterns the code uses: the formula pattern, the blank-line separator, the file-name character class and the `ORIGNAME` tag.
- Excel, CSV and TSV reading and writing are modelled as the rows the reader yields. Quoting and dialects are left out.

## Findings

| source | as written | input that shows it | evidently intended | confidence | as-written member | corrected member |
|---|---|---|---|---|---|---|
| script/creating_struc_summary.py:36 | `process_metfrag_output` is called with 6 positional arguments, but it has 7 parameters without defaults (script/metfrag_summary.py:9-11), so the call raises TypeError | any run in which neither the MS-FINDER nor the SIRIUS step before it raises | pass an empty score table as the 7th argument, since line 44 concatenates the returned score rows with the running table again | not executed | StrucSummary.AsWrittenRaisesTypeError | StrucSummary.ScoreTable |
