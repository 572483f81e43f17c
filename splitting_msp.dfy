/** Splitting an MSP library into one normalised entry per compound
    (script/splitting_msp.py): file-name sanitising, the entry normaliser
    and the record splitter. */
module SplittingMsp {
  import opened Wrappers
  import opened Text
  import opened Decimal

  // ---------------------------------------------------------------------------
  // sanitize_filename

  /** The characters of the regular-expression class `[\/:*?"<>|]`; the
      backslash in it only escapes the slash. */
  predicate Invalid(c: char) {
    c == '/' || c == ':' || c == '*' || c == '?' || c == '"' || c == '<' || c == '>' || c == '|'
  }

  /** Python's `s[:m]`: a negative bound counts from the end. */
  function SlicePrefix(s: string, m: int): (r: string)
    ensures r <= s
    ensures 0 <= m ==> |r| == if m < |s| then m else |s|
    ensures m < 0 ==> |r| == if |s| + m < 0 then 0 else |s| + m
  {
    if m >= |s| then s
    else if m >= 0 then s[..m]
    else if |s| + m >= 0 then s[..|s| + m]
    else []
  }

  const DefaultMaxLength := 150

  function SanitizeFilename(name: string, maxLength: int): (r: string)
    ensures |r| <= |name|
    ensures 0 <= maxLength ==> |r| == if maxLength < |name| then maxLength else |name|
    ensures forall i :: 0 <= i < |r| ==> !Invalid(r[i])
    ensures forall i :: 0 <= i < |r| ==> (Invalid(name[i]) ==> r[i] == '_') && (!Invalid(name[i]) ==> r[i] == name[i])
  {
    var replaced := seq(|name|, i requires 0 <= i < |name| => if Invalid(name[i]) then '_' else name[i]);
    SlicePrefix(replaced, maxLength)
  }

  /** Sanitising twice with the same non-negative bound changes nothing. */
  lemma SanitizeIdempotent(name: string, maxLength: nat)
    ensures SanitizeFilename(SanitizeFilename(name, maxLength), maxLength) == SanitizeFilename(name, maxLength)
  {
    var once := SanitizeFilename(name, maxLength);
    var twice := SanitizeFilename(once, maxLength);
    assert |twice| == |once|;
    forall i | 0 <= i < |once| ensures twice[i] == once[i] {
      assert !Invalid(once[i]);
    }
  }

  // ---------------------------------------------------------------------------
  // format_msp_entry

  /** The required keys, in the order the dictionary lists them. */
  const RequiredKeys: seq<string> :=
    ["PRECURSORMZ", "PRECURSORTYPE", "RETENTIONTIME", "FORMULA", "SMILES", "INCHIKEY",
     "COLLISIONENERGY", "IONMODE", "COMMENT"]

  const RequiredDefaults: map<string, string> :=
    map["PRECURSORMZ" := "", "PRECURSORTYPE" := "", "RETENTIONTIME" := "", "FORMULA" := "",
        "SMILES" := "", "INCHIKEY" := "", "COLLISIONENERGY" := "", "IONMODE" := "", "COMMENT" := ""]

  /** What one content line is to the normaliser. */
  datatype EntryLine =
    | Field(key: string, value: string)
    | Dropped
    | Peak(text: string)
    | Ignored

  /** A key is the trimmed, upper-cased text before the first `:`. */
  function EntryKey(line: string): string {
    Upper(Strip(BeforeFirst(line, ':')))
  }

  function ClassifyEntryLine(line: string): EntryLine {
    if ':' in line then
      var key := EntryKey(line);
      if key == "NAME" || key == "NUM PEAKS" then Dropped
      else Field(key, Strip(AfterFirst(line, ':')))
    else if Strip(line) != [] then Peak(Strip(line))
    else Ignored
  }

  /** `any(entry.startswith(prefix) for entry in entries)`. */
  predicate AnyStartsWith(entries: seq<string>, prefix: string) {
    if entries == [] then false
    else AnyStartsWith(entries[..|entries| - 1], prefix) || prefix <= entries[|entries| - 1]
  }

  lemma {:induction false} AnyStartsWithIff(entries: seq<string>, prefix: string)
    ensures AnyStartsWith(entries, prefix) <==> exists i :: 0 <= i < |entries| && prefix <= entries[i]
  {
    if entries != [] {
      AnyStartsWithIff(entries[..|entries| - 1], prefix);
      var pre := entries[..|entries| - 1];
      if exists i :: 0 <= i < |entries| && prefix <= entries[i] {
        var i :| 0 <= i < |entries| && prefix <= entries[i];
        if i < |pre| { assert pre[i] == entries[i]; }
      }
    }
  }

  /** The normaliser's variables after the content loop. */
  datatype Entry = Entry(formatted: seq<string>, required: map<string, string>, peaks: seq<string>)

  function EntryStep(e: Entry, line: string): Entry {
    match ClassifyEntryLine(line)
    case Field(key, value) =>
      e.(formatted := e.formatted + [key + ": " + value],
         required := if key in e.required then e.required[key := value] else e.required)
    case Dropped => e
    case Peak(text) => e.(peaks := e.peaks + [text])
    case Ignored => e
  }

  /** Every required key the dictionary still holds. */
  predicate HoldsRequired(required: map<string, string>) {
    forall k :: k in RequiredKeys ==> k in required
  }

  function EntryRun(name: string, content: seq<string>): (e: Entry)
    ensures HoldsRequired(e.required)
  {
    if content == [] then Entry(["NAME: " + name], RequiredDefaults, [])
    else EntryStep(EntryRun(name, content[..|content| - 1]), content[|content| - 1])
  }

  /** The required keys, in order, each appended with its dictionary value
      when no entry yet starts with `KEY:`. */
  function AddMissing(formatted: seq<string>, required: map<string, string>, keys: seq<string>): seq<string>
    requires forall k :: k in keys ==> k in required
  {
    if keys == [] then formatted
    else
      var f := AddMissing(formatted, required, keys[..|keys| - 1]);
      var key := keys[|keys| - 1];
      if AnyStartsWith(f, key + ":") then f else f + [key + ": " + required[key]]
  }

  /** The lines of the normalised entry. */
  function EntryLines(name: string, content: seq<string>): seq<string> {
    var e := EntryRun(name, content);
    AddMissing(e.formatted, e.required, RequiredKeys)
    + (if e.peaks != [] then ["Num Peaks: " + NatToString(|e.peaks|)] + e.peaks else [])
  }

  function FormattedEntry(name: string, content: seq<string>): string {
    Join("\n", EntryLines(name, content))
  }

  /** format_msp_entry. */
  method FormatMspEntry(name: string, content: seq<string>) returns (r: string)
    ensures r == FormattedEntry(name, content)
  {
    var formatted := ["NAME: " + name];
    var required := RequiredDefaults;
    var peaks: seq<string> := [];
    var i := 0;
    while i < |content|
      invariant 0 <= i <= |content|
      invariant EntryRun(name, content[..i]) == Entry(formatted, required, peaks)
    {
      assert content[..i + 1][..i] == content[..i];
      formatted, required, peaks := EntryLineStep(formatted, required, peaks, content[i]);
      i := i + 1;
    }
    assert content[..i] == content;
    formatted := AppendMissing(formatted, required);
    if peaks != [] {
      formatted := formatted + (["Num Peaks: " + NatToString(|peaks|)] + peaks);
    }
    assert formatted == EntryLines(name, content);
    r := Join("\n", formatted);
  }

  /** The loop over the required keys. */
  method AppendMissing(formatted: seq<string>, required: map<string, string>) returns (formatted': seq<string>)
    requires HoldsRequired(required)
    ensures formatted' == AddMissing(formatted, required, RequiredKeys)
  {
    formatted' := formatted;
    var j := 0;
    while j < |RequiredKeys|
      invariant 0 <= j <= |RequiredKeys|
      invariant formatted' == AddMissing(formatted, required, RequiredKeys[..j])
    {
      var key := RequiredKeys[j];
      assert RequiredKeys[..j + 1][..j] == RequiredKeys[..j];
      var present := StartsWithAny(formatted', key + ":");
      if !present {
        formatted' := formatted' + [key + ": " + required[key]];
      }
      j := j + 1;
    }
    assert RequiredKeys[..j] == RequiredKeys;
  }

  /** The body of the content loop on one line. */
  method EntryLineStep(formatted: seq<string>, required: map<string, string>, peaks: seq<string>, line: string)
    returns (formatted': seq<string>, required': map<string, string>, peaks': seq<string>)
    ensures Entry(formatted', required', peaks') == EntryStep(Entry(formatted, required, peaks), line)
  {
    formatted', required', peaks' := formatted, required, peaks;
    if ':' in line {
      var key := EntryKey(line);
      var value := Strip(AfterFirst(line, ':'));
      if key != "NAME" && key != "NUM PEAKS" {
        formatted' := formatted + [key + ": " + value];
        if key in required {
          required' := required[key := value];
        }
      }
    } else if Strip(line) != [] {
      peaks' := peaks + [Strip(line)];
    }
  }

  /** The `any(...)` scan over the entries written so far. */
  method StartsWithAny(entries: seq<string>, prefix: string) returns (found: bool)
    ensures found == AnyStartsWith(entries, prefix)
  {
    AnyStartsWithIff(entries, prefix);
    found := false;
    var i := 0;
    while i < |entries|
      invariant 0 <= i <= |entries|
      invariant found <==> exists k :: 0 <= k < i && prefix <= entries[k]
    {
      if prefix <= entries[i] {
        found := true;
      }
      i := i + 1;
    }
  }

  lemma {:induction false} AddMissingKeepsPrefix(formatted: seq<string>, required: map<string, string>, keys: seq<string>)
    requires forall k :: k in keys ==> k in required
    ensures formatted <= AddMissing(formatted, required, keys)
  {
    if keys != [] {
      AddMissingKeepsPrefix(formatted, required, keys[..|keys| - 1]);
    }
  }

  lemma {:induction false} EntryRunStartsWithName(name: string, content: seq<string>)
    ensures EntryRun(name, content).formatted != []
    ensures EntryRun(name, content).formatted[0] == "NAME: " + name
  {
    if content != [] {
      EntryRunStartsWithName(name, content[..|content| - 1]);
    }
  }

  /** The entry opens with the new NAME line, and it is the entry's only
      NAME field: no later line has a `:` with NAME before it. */
  lemma EntryStartsWithName(name: string, content: seq<string>)
    ensures EntryLines(name, content) != []
    ensures EntryLines(name, content)[0] == "NAME: " + name
    ensures KeyedLine(EntryLines(name, content)[0], "NAME")
    ensures forall i :: 0 < i < |EntryLines(name, content)| ==> !KeyedLine(EntryLines(name, content)[i], "NAME")
  {
    var e := EntryRun(name, content);
    var lines := EntryLines(name, content);
    var head := AddMissing(e.formatted, e.required, RequiredKeys);
    EntryRunStartsWithName(name, content);
    AddMissingKeepsPrefix(e.formatted, e.required, RequiredKeys);
    EntryLinesKeys(name, content);
    assert lines[0] == head[0] == e.formatted[0];
    NameLineKey(name);
    NumPeaksKey(NatToString(|e.peaks|));
    forall i | 0 < i < |lines| ensures !KeyedLine(lines[i], "NAME") {
      if i < |head| {
        assert OtherField(lines[i]);
      } else if i == |head| {
        assert KeyedLine(lines[i], "NUM PEAKS");
      } else {
        assert ':' !in lines[i];
      }
    }
  }

  /** The entry's only Num Peaks field is the `Num Peaks: n` line written
      before the peaks, n their count; there is one exactly when the record
      has peak lines. */
  lemma OneNumPeaksLine(name: string, content: seq<string>)
    ensures var lines := EntryLines(name, content);
      var peaks := EntryRun(name, content).peaks;
      (forall i :: 0 <= i < |lines| && KeyedLine(lines[i], "NUM PEAKS") ==>
         peaks != [] && i == |lines| - |peaks| - 1 && lines[i] == "Num Peaks: " + NatToString(|peaks|))
      && (peaks != [] ==> |peaks| < |lines| && KeyedLine(lines[|lines| - |peaks| - 1], "NUM PEAKS"))
  {
    var e := EntryRun(name, content);
    var lines := EntryLines(name, content);
    var head := AddMissing(e.formatted, e.required, RequiredKeys);
    EntryRunStartsWithName(name, content);
    AddMissingKeepsPrefix(e.formatted, e.required, RequiredKeys);
    EntryLinesKeys(name, content);
    NameLineKey(name);
    assert lines[0] == head[0] == e.formatted[0];
    NumPeaksKey(NatToString(|e.peaks|));
    forall i | 0 <= i < |lines| && i != |head| ensures !KeyedLine(lines[i], "NUM PEAKS") {
      if i == 0 {
        assert KeyedLine(lines[i], "NAME");
      } else if i < |head| {
        assert OtherField(lines[i]);
      } else {
        assert ':' !in lines[i];
      }
    }
  }

  /** A line read back as a field with the given key. */
  predicate KeyedLine(line: string, key: string) {
    ':' in line && EntryKey(line) == key
  }

  /** A field line that is neither NAME nor Num Peaks. */
  predicate OtherField(line: string) {
    ':' in line && EntryKey(line) != "NAME" && EntryKey(line) != "NUM PEAKS"
  }

  /** A key as the normaliser writes it: no `:`, no surrounding whitespace,
      already upper case. */
  predicate CleanKey(k: string) {
    ':' !in k && (k == [] || (!IsSpace(k[0]) && !IsSpace(k[|k| - 1])))
    && forall i :: 0 <= i < |k| ==> UpperChar(k[i]) == k[i]
  }

  lemma BeforeColon(k: string, v: string)
    requires ':' !in k
    ensures ':' in k + ": " + v && BeforeFirst(k + ": " + v, ':') == k
  {
    var s := k + ": " + v;
    assert s[|k|] == ':';
    assert s[..|k|] == k;
  }

  /** A written `KEY: value` line reads back with its key. */
  lemma FieldLineKey(k: string, v: string)
    requires CleanKey(k)
    ensures ':' in k + ": " + v && EntryKey(k + ": " + v) == k
  {
    BeforeColon(k, v);
    StripOfStripped(k);
    assert Upper(k) == k;
  }

  /** The key of any line with a `:` is a clean key. */
  lemma EntryKeyClean(line: string)
    requires ':' in line
    ensures CleanKey(EntryKey(line))
  {
    var b := BeforeFirst(line, ':');
    StripShape(b);
    var st := Strip(b);
    assert ':' !in st by {
      forall i | 0 <= i < |st| ensures st[i] != ':' {
        assert st[i] == b[StripStart(b) + i];
      }
    }
  }

  lemma NameLineKey(name: string)
    ensures KeyedLine("NAME: " + name, "NAME")
  {
    assert CleanKey("NAME");
    FieldLineKey("NAME", name);
    assert "NAME" + ": " + name == "NAME: " + name;
  }

  lemma NumPeaksKey(n: string)
    requires ':' !in n
    ensures KeyedLine("Num Peaks: " + n, "NUM PEAKS")
  {
    var k := "Num Peaks";
    assert k + ": " == "Num Peaks: ";
    StripOfStripped(k);
    RawLineKey(k, n);
    UpperNumPeaks();
  }

  lemma UpperNumPeaks()
    ensures Upper("Num Peaks") == "NUM PEAKS"
  {
  }

  /** A `key: value` line whose key has no `:` and no surrounding whitespace
      reads back with the upper-cased key. */
  lemma RawLineKey(k: string, v: string)
    requires ':' !in k && Strip(k) == k
    ensures ':' in k + ": " + v && EntryKey(k + ": " + v) == Upper(k)
  {
    BeforeColon(k, v);
  }

  /** Upper-case ASCII letters only. */
  predicate UpperLetters(k: string) {
    forall i :: 0 <= i < |k| ==> 'A' <= k[i] <= 'Z'
  }

  lemma UpperLettersClean(k: string)
    requires UpperLetters(k)
    ensures CleanKey(k)
  {
  }

  lemma RequiredKeysClean()
    ensures forall k :: k in RequiredKeys ==> CleanKey(k) && k != "NAME" && k != "NUM PEAKS"
  {
    forall k | k in RequiredKeys ensures CleanKey(k) && k != "NAME" && k != "NUM PEAKS" {
      assert UpperLetters(k);
      UpperLettersClean(k);
    }
  }

  /** After the first line every written line is a field other than NAME and
      Num Peaks, and no peak holds a `:`. */
  predicate FieldsAfterName(e: Entry) {
    (forall i :: 0 < i < |e.formatted| ==> OtherField(e.formatted[i]))
    && forall i :: 0 <= i < |e.peaks| ==> ':' !in e.peaks[i]
  }

  lemma {:induction false} EntryRunFields(name: string, content: seq<string>)
    ensures FieldsAfterName(EntryRun(name, content))
  {
    if content != [] {
      var pre := content[..|content| - 1];
      EntryRunFields(name, pre);
      StepKeepsFields(EntryRun(name, pre), content[|content| - 1]);
    }
  }

  lemma StepKeepsFields(e: Entry, line: string)
    requires FieldsAfterName(e)
    ensures FieldsAfterName(EntryStep(e, line))
  {
    match ClassifyEntryLine(line)
    case Field(key, value) =>
      EntryKeyClean(line);
      FieldLineKey(key, value);
      var f := e.formatted + [key + ": " + value];
      assert EntryStep(e, line).formatted == f;
      forall i | 0 < i < |f| ensures OtherField(f[i]) {
        if i < |e.formatted| { assert f[i] == e.formatted[i]; }
      }
    case Dropped =>
    case Peak(text) =>
      StripShape(line);
      assert ':' !in text by {
        forall i | 0 <= i < |text| ensures text[i] != ':' {
          assert text[i] == line[StripStart(line) + i];
        }
      }
      var ps := e.peaks + [text];
      assert EntryStep(e, line).peaks == ps;
      forall i | 0 <= i < |ps| ensures ':' !in ps[i] {
        if i < |e.peaks| { assert ps[i] == e.peaks[i]; }
      }
    case Ignored =>
  }

  /** Every line the required-key loop appends is a field other than NAME
      and Num Peaks. */
  lemma {:induction false} AddMissingFields(formatted: seq<string>, required: map<string, string>, keys: seq<string>)
    requires forall k :: k in keys ==> k in required && k in RequiredKeys
    ensures var f := AddMissing(formatted, required, keys);
      formatted <= f && forall i :: |formatted| <= i < |f| ==> OtherField(f[i])
  {
    if keys != [] {
      var pre := keys[..|keys| - 1];
      var key := keys[|keys| - 1];
      AddMissingFields(formatted, required, pre);
      RequiredKeysClean();
      FieldLineKey(key, required[key]);
    }
  }

  /** The lines of an entry: the NAME line, fields other than NAME and Num
      Peaks, then with peaks the `Num Peaks: n` line and the colon-free
      peaks. */
  lemma EntryLinesKeys(name: string, content: seq<string>)
    ensures var e := EntryRun(name, content);
      var lines := EntryLines(name, content);
      var head := AddMissing(e.formatted, e.required, RequiredKeys);
      |lines| == |head| + (if e.peaks != [] then 1 + |e.peaks| else 0)
      && (forall i :: 0 < i < |head| ==> lines[i] == head[i] && OtherField(lines[i]))
      && (e.peaks != [] ==> lines[|head|] == "Num Peaks: " + NatToString(|e.peaks|))
      && (forall i :: |head| < i < |lines| ==> ':' !in lines[i])
      && ':' !in NatToString(|e.peaks|)
  {
    var e := EntryRun(name, content);
    EntryRunFields(name, content);
    var head := AddMissing(e.formatted, e.required, RequiredKeys);
    HeadFields(e);
    var tail := if e.peaks != [] then ["Num Peaks: " + NatToString(|e.peaks|)] + e.peaks else [];
    var lines := EntryLines(name, content);
    assert lines == head + tail;
    forall i | |head| < i < |lines| ensures ':' !in lines[i] {
      assert lines[i] == e.peaks[i - |head| - 1];
    }
    assert ':' !in NatToString(|e.peaks|) by {
      var d := NatToString(|e.peaks|);
      forall i | 0 <= i < |d| ensures d[i] != ':' { assert IsDigit(d[i]); }
    }
  }

  /** The written fields and the appended required keys: after the NAME line
      none is NAME or Num Peaks. */
  lemma HeadFields(e: Entry)
    requires HoldsRequired(e.required) && FieldsAfterName(e)
    ensures forall i :: 0 < i < |AddMissing(e.formatted, e.required, RequiredKeys)| ==>
      OtherField(AddMissing(e.formatted, e.required, RequiredKeys)[i])
  {
    var head := AddMissing(e.formatted, e.required, RequiredKeys);
    AddMissingFields(e.formatted, e.required, RequiredKeys);
    forall i | 0 < i < |head| ensures OtherField(head[i]) {
      if i < |e.formatted| { assert head[i] == e.formatted[i]; }
    }
  }

  lemma {:induction false} AnyStartsWithAppend(entries: seq<string>, more: seq<string>, prefix: string)
    requires AnyStartsWith(entries, prefix)
    ensures AnyStartsWith(entries + more, prefix)
  {
    AnyStartsWithIff(entries, prefix);
    AnyStartsWithIff(entries + more, prefix);
    var i :| 0 <= i < |entries| && prefix <= entries[i];
    assert (entries + more)[i] == entries[i];
  }

  lemma {:induction false} AddMissingCovers(formatted: seq<string>, required: map<string, string>, keys: seq<string>)
    requires forall k :: k in keys ==> k in required
    ensures forall k :: k in keys ==> AnyStartsWith(AddMissing(formatted, required, keys), k + ":")
  {
    if keys != [] {
      var pre := keys[..|keys| - 1];
      var key := keys[|keys| - 1];
      AddMissingCovers(formatted, required, pre);
      var f := AddMissing(formatted, required, pre);
      if !AnyStartsWith(f, key + ":") {
        var line := key + ": " + required[key];
        assert key + ":" <= line;
        assert AnyStartsWith(f + [line], key + ":") by { assert (f + [line])[..|f|] == f; }
        forall k | k in pre ensures AnyStartsWith(f + [line], k + ":") {
          AnyStartsWithAppend(f, [line], k + ":");
        }
      }
    }
  }

  /** Every required key has a line: found in the record or appended. */
  lemma RequiredKeysPresent(name: string, content: seq<string>)
    ensures forall k :: k in RequiredKeys ==> AnyStartsWith(EntryLines(name, content), k + ":")
  {
    var e := EntryRun(name, content);
    var added := AddMissing(e.formatted, e.required, RequiredKeys);
    AddMissingCovers(e.formatted, e.required, RequiredKeys);
    var tail := if e.peaks != [] then ["Num Peaks: " + NatToString(|e.peaks|)] + e.peaks else [];
    forall k | k in RequiredKeys ensures AnyStartsWith(added + tail, k + ":") {
      AnyStartsWithAppend(added, tail, k + ":");
    }
  }

  /** The dictionary value of a required key differs from its empty default
      only after a line with that key was written, so every key appended at
      the end is appended with an empty value. */
  predicate DefaultsUnlessWritten(e: Entry) {
    forall k :: k in RequiredKeys && k in e.required && e.required[k] != "" ==> AnyStartsWith(e.formatted, k + ":")
  }

  lemma {:induction false} EntryRunDefaults(name: string, content: seq<string>)
    ensures DefaultsUnlessWritten(EntryRun(name, content))
  {
    if content != [] {
      var pre := content[..|content| - 1];
      EntryRunDefaults(name, pre);
      StepKeepsDefaults(EntryRun(name, pre), content[|content| - 1]);
    }
  }

  /** One content line keeps DefaultsUnlessWritten: a field line that sets a
      required key also writes a line starting with that key. */
  lemma StepKeepsDefaults(e: Entry, line: string)
    requires DefaultsUnlessWritten(e)
    ensures DefaultsUnlessWritten(EntryStep(e, line))
  {
    var e' := EntryStep(e, line);
    match ClassifyEntryLine(line)
    case Field(key, value) =>
      var written := key + ": " + value;
      assert e'.formatted == e.formatted + [written];
      assert AnyStartsWith(e'.formatted, key + ":") by {
        assert key + ":" <= written;
        assert (e.formatted + [written])[..|e.formatted|] == e.formatted;
      }
      forall k | k in RequiredKeys && k in e'.required && e'.required[k] != "" && k != key
        ensures AnyStartsWith(e'.formatted, k + ":")
      {
        AnyStartsWithAppend(e.formatted, [written], k + ":");
      }
    case Dropped =>
    case Peak(_) =>
    case Ignored =>
  }

  lemma {:induction false} AddMissingEmpty(formatted: seq<string>, required: map<string, string>, keys: seq<string>)
    requires forall k :: k in keys ==> k in RequiredKeys && k in required
    requires forall k :: k in keys && required[k] != "" ==> AnyStartsWith(formatted, k + ":")
    ensures forall i :: |formatted| <= i < |AddMissing(formatted, required, keys)| ==>
      exists k :: k in keys && AddMissing(formatted, required, keys)[i] == k + ": "
  {
    AddMissingKeepsPrefix(formatted, required, keys);
    if keys != [] {
      var pre := keys[..|keys| - 1];
      var key := keys[|keys| - 1];
      AddMissingEmpty(formatted, required, pre);
      var f := AddMissing(formatted, required, pre);
      AddMissingKeepsPrefix(formatted, required, pre);
      if !AnyStartsWith(f, key + ":") {
        if AnyStartsWith(formatted, key + ":") {
          assert f == formatted + f[|formatted|..];
          AnyStartsWithAppend(formatted, f[|formatted|..], key + ":");
        }
        assert required[key] == "";
        var r := AddMissing(formatted, required, keys);
        forall i | |formatted| <= i < |r| ensures exists k :: k in keys && r[i] == k + ": " {
          if i < |f| {
            var k :| k in pre && f[i] == k + ": ";
            assert r[i] == f[i];
          } else {
            assert r[i] == key + ": " + "";
          }
        }
      }
    }
  }

  /** A required key missing from the record is appended as `KEY: ` with an
      empty value. */
  lemma MissingKeysEmpty(name: string, content: seq<string>)
    ensures var e := EntryRun(name, content);
        var added := AddMissing(e.formatted, e.required, RequiredKeys);
      forall i :: |e.formatted| <= i < |added| ==> exists k :: k in RequiredKeys && added[i] == k + ": "
  {
    EntryRunDefaults(name, content);
    var e := EntryRun(name, content);
    AddMissingEmpty(e.formatted, e.required, RequiredKeys);
  }

  /** The peak lines close the entry, after a `Num Peaks` line with their count. */
  lemma PeaksClose(name: string, content: seq<string>)
    ensures var e := EntryRun(name, content);
      var lines := EntryLines(name, content);
      e.peaks != [] ==>
        && lines[|lines| - |e.peaks|..] == e.peaks
        && lines[|lines| - |e.peaks| - 1] == "Num Peaks: " + NatToString(|e.peaks|)
        && ParseDigits(lines[|lines| - |e.peaks| - 1][11..]) == |e.peaks|
  {
    var e := EntryRun(name, content);
    var n := NatToString(|e.peaks|);
    assert ("Num Peaks: " + n)[11..] == n;
    ParseNatToString(|e.peaks|);
  }

  // ---------------------------------------------------------------------------
  // read_msp

  /** The splitter's variables. The dictionary is kept as the list of its
      assignments (`saved`), in order. */
  datatype Reader = Reader(saved: seq<(string, seq<string>)>, processed: seq<string>,
                           currentName: Option<string>, inPeaks: bool)

  /** Python truthiness of `current_name`. */
  predicate HasName(n: Option<string>) {
    n.Some? && n.value != []
  }

  predicate IsNameLine(line: string) {
    LowerStartsWith(Strip(line), "name:")
  }

  function ReadStep(st: Reader, line: string): Reader {
    if IsNameLine(line) then
      var saved := if HasName(st.currentName) && st.processed != []
        then st.saved + [(st.currentName.value, st.processed)] else st.saved;
      Reader(saved, [line], Some(Strip(AfterFirst(Strip(line), ':'))), true)
    else if st.inPeaks then st.(processed := st.processed + [line])
    else st
  }

  const ReadStart := Reader([], [], None, false)

  function ReadFrom(st: Reader, lines: seq<string>): Reader {
    if lines == [] then st else ReadStep(ReadFrom(st, lines[..|lines| - 1]), lines[|lines| - 1])
  }

  /** Every assignment the splitter makes, in order, including the last record. */
  function Saved(lines: seq<string>): seq<(string, seq<string>)> {
    var st := ReadFrom(ReadStart, lines);
    if st.processed != [] && HasName(st.currentName)
    then st.saved + [(st.currentName.value, st.processed)] else st.saved
  }

  /** The dictionary after the given assignments: keyed by sanitised name,
      a later assignment overwriting an earlier one. */
  function Files(saved: seq<(string, seq<string>)>): map<string, string> {
    if saved == [] then map[]
    else
      var last := saved[|saved| - 1];
      Files(saved[..|saved| - 1])[SanitizeFilename(last.0, DefaultMaxLength) := FormattedEntry(last.0, last.1)]
  }

  function ReadResult(lines: seq<string>): map<string, string> {
    Files(Saved(lines))
  }

  /** read_msp on the lines of the file. */
  method ReadMsp(lines: seq<string>) returns (splitFiles: map<string, string>)
    ensures splitFiles == ReadResult(lines)
  {
    splitFiles := map[];
    var processedLines: seq<string> := [];
    var currentName: Option<string> := None;
    var isInPeaks := false;
    ghost var saved: seq<(string, seq<string>)> := [];
    var i := 0;
    while i < |lines|
      invariant 0 <= i <= |lines|
      invariant ReadFrom(ReadStart, lines[..i]) == Reader(saved, processedLines, currentName, isInPeaks)
      invariant splitFiles == Files(saved)
    {
      assert lines[..i + 1][..i] == lines[..i];
      splitFiles, saved, processedLines, currentName, isInPeaks :=
        ReadLine(splitFiles, saved, processedLines, currentName, isInPeaks, lines[i]);
      i := i + 1;
    }
    assert lines[..i] == lines;
    if processedLines != [] && HasName(currentName) {
      var filename := SanitizeFilename(currentName.value, DefaultMaxLength);
      var entry := FormatMspEntry(currentName.value, processedLines);
      splitFiles := splitFiles[filename := entry];
      FilesSnoc(saved, currentName.value, processedLines);
      saved := saved + [(currentName.value, processedLines)];
    }
  }

  /** Saving one more record writes (or overwrites) its file. */
  lemma FilesSnoc(saved: seq<(string, seq<string>)>, name: string, content: seq<string>)
    ensures Files(saved + [(name, content)])
         == Files(saved)[SanitizeFilename(name, DefaultMaxLength) := FormattedEntry(name, content)]
  {
    assert (saved + [(name, content)])[..|saved|] == saved;
  }

  /** The body of the splitter loop on one line. */
  method ReadLine(splitFiles: map<string, string>, ghost saved: seq<(string, seq<string>)>,
                  processedLines: seq<string>, currentName: Option<string>, isInPeaks: bool, line: string)
    returns (splitFiles': map<string, string>, ghost saved': seq<(string, seq<string>)>,
             processedLines': seq<string>, currentName': Option<string>, isInPeaks': bool)
    requires splitFiles == Files(saved)
    ensures Reader(saved', processedLines', currentName', isInPeaks')
            == ReadStep(Reader(saved, processedLines, currentName, isInPeaks), line)
    ensures splitFiles' == Files(saved')
  {
    splitFiles', saved', processedLines', currentName', isInPeaks' :=
      splitFiles, saved, processedLines, currentName, isInPeaks;
    if IsNameLine(line) {
      var strippedLine := Strip(line);
      if HasName(currentName) && processedLines != [] {
        var filename := SanitizeFilename(currentName.value, DefaultMaxLength);
        var entry := FormatMspEntry(currentName.value, processedLines);
        splitFiles' := splitFiles[filename := entry];
        saved' := saved + [(currentName.value, processedLines)];
        FilesSnoc(saved, currentName.value, processedLines);
      }
      currentName' := Some(Strip(AfterFirst(strippedLine, ':')));
      processedLines' := [line];
      isInPeaks' := true;
    } else if isInPeaks {
      processedLines' := processedLines + [line];
    }
  }

  lemma {:induction false} ReadFromAppend(st: Reader, a: seq<string>, b: seq<string>)
    ensures ReadFrom(st, a + b) == ReadFrom(ReadFrom(st, a), b)
    decreases |b|
  {
    if b == [] {
      assert a + b == a;
    } else {
      assert (a + b)[..|a + b| - 1] == a + b[..|b| - 1];
      ReadFromAppend(st, a, b[..|b| - 1]);
    }
  }

  /** Between two NAME lines nothing is saved: blank lines do not close a
      record, they are kept in it while the record is open. */
  lemma {:induction false} NoSaveBetweenNames(st: Reader, lines: seq<string>)
    requires forall i :: 0 <= i < |lines| ==> !IsNameLine(lines[i])
    ensures ReadFrom(st, lines).saved == st.saved
    ensures ReadFrom(st, lines).currentName == st.currentName
    ensures ReadFrom(st, lines).inPeaks == st.inPeaks
    ensures ReadFrom(st, lines).processed == st.processed + (if st.inPeaks then lines else [])
  {
    if lines != [] {
      var pre := lines[..|lines| - 1];
      NoSaveBetweenNames(st, pre);
      assert pre + [lines[|lines| - 1]] == lines;
    }
  }

  /** Lines before the first NAME line are ignored. */
  lemma IgnoredBeforeFirstName(prefix: seq<string>, rest: seq<string>)
    requires forall i :: 0 <= i < |prefix| ==> !IsNameLine(prefix[i])
    ensures ReadResult(prefix + rest) == ReadResult(rest)
  {
    NoSaveBetweenNames(ReadStart, prefix);
    ReadFromAppend(ReadStart, prefix, rest);
    assert ReadFrom(ReadStart, prefix) == ReadStart;
  }

  /** Each key holds the entry of the last record whose name sanitises to it. */
  lemma {:induction false} LaterRecordWins(saved: seq<(string, seq<string>)>, i: nat)
    requires i < |saved|
    requires forall j :: i < j < |saved| ==>
      SanitizeFilename(saved[j].0, DefaultMaxLength) != SanitizeFilename(saved[i].0, DefaultMaxLength)
    ensures SanitizeFilename(saved[i].0, DefaultMaxLength) in Files(saved)
    ensures Files(saved)[SanitizeFilename(saved[i].0, DefaultMaxLength)] == FormattedEntry(saved[i].0, saved[i].1)
  {
    if i < |saved| - 1 {
      LaterRecordWins(saved[..|saved| - 1], i);
    }
  }

  /** The keys of the result are exactly the sanitised names of the saved records. */
  lemma {:induction false} FilesKeys(saved: seq<(string, seq<string>)>, k: string)
    ensures k in Files(saved) <==> k in FileKeys(saved)
  {
    if saved != [] {
      FilesKeys(saved[..|saved| - 1], k);
    }
  }

  /** The sanitised names of the saved records, in order. */
  function FileKeys(saved: seq<(string, seq<string>)>): (keys: seq<string>)
    ensures |keys| == |saved|
    ensures forall j :: 0 <= j < |saved| ==> keys[j] == SanitizeFilename(saved[j].0, DefaultMaxLength)
  {
    if saved == [] then []
    else FileKeys(saved[..|saved| - 1]) + [SanitizeFilename(saved[|saved| - 1].0, DefaultMaxLength)]
  }
}
