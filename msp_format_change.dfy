/** Re-identification of MSP records and the formula rewrite
    (script/msp_format_change.py). */
module MspFormatChange {
  import opened Wrappers
  import opened Text
  import opened Decimal

  // ---------------------------------------------------------------------------
  // re.split(r'\n\s*\n', text)

  /** The last newline of the whitespace run that starts at j, or `acc` if
      the run holds none. */
  function RunLastNewline(s: string, j: nat, acc: Option<nat>): (r: Option<nat>)
    requires j <= |s|
    requires acc.Some? ==> acc.value < j && s[acc.value] == '\n'
    ensures r.Some? ==> r.value < |s| && s[r.value] == '\n'
    ensures acc.None? && r.Some? ==> j <= r.value
    ensures acc.Some? ==> r.Some? && acc.value <= r.value
    decreases |s| - j
  {
    if j < |s| && IsSpace(s[j]) then RunLastNewline(s, j + 1, if s[j] == '\n' then Some(j) else acc)
    else acc
  }

  /** The leftmost match of `\n\s*\n` at or after i, as a half-open range: a
      newline, then the whitespace after it up to its last newline. */
  function SeparatorFrom(s: string, i: nat): (r: Option<(nat, nat)>)
    requires i <= |s|
    ensures r.Some? ==> i <= r.value.0 && r.value.0 + 2 <= r.value.1 <= |s|
    ensures r.Some? ==> s[r.value.0] == '\n' && s[r.value.1 - 1] == '\n'
    decreases |s| - i
  {
    if i == |s| then None
    else if s[i] == '\n' && RunLastNewline(s, i + 1, None).Some? then
      Some((i, RunLastNewline(s, i + 1, None).value + 1))
    else SeparatorFrom(s, i + 1)
  }

  /** The pieces between the blank-line separators. */
  function SplitBlocks(s: string): (blocks: seq<string>)
    ensures |blocks| >= 1
    decreases |s|
  {
    match SeparatorFrom(s, 0)
    case None => [s]
    case Some((a, b)) => [s[..a]] + SplitBlocks(s[b..])
  }

  /** Text without a blank line is one block. */
  lemma {:induction false} NoSeparatorOneBlock(s: string, i: nat)
    requires i <= |s|
    requires forall k :: i <= k < |s| ==> s[k] != '\n'
    ensures SeparatorFrom(s, i) == None
    decreases |s| - i
  {
    if i < |s| {
      NoSeparatorOneBlock(s, i + 1);
    }
  }

  // ---------------------------------------------------------------------------
  // The COMMENT rewrite

  const TagOpen := "|ORIGNAME="

  /** `re.sub(r'\|ORIGNAME=[^|]+\|', '', s)`: matches are removed left to
      right without rescanning the text that follows a removal. */
  function RemoveTags(s: string): (r: string)
    ensures |r| <= |s|
    decreases |s|
  {
    if s == [] then []
    else if TagOpen <= s && '|' in s[10..] && IndexOf(s[10..], '|') > 0 then
      RemoveTags(s[10 + IndexOf(s[10..], '|') + 1..])
    else [s[0]] + RemoveTags(s[1..])
  }

  lemma {:induction false} RemoveTagsAbsent(s: string)
    requires !Contains(s, TagOpen)
    ensures RemoveTags(s) == s
    decreases |s|
  {
    if s != [] {
      assert !(TagOpen <= s);
      RemoveTagsAbsent(s[1..]);
    }
  }

  /** `s.rstrip('|')`. */
  function RStripBar(s: string): (r: string)
    ensures r <= s
    ensures r == [] || r[|r| - 1] != '|'
    ensures forall k :: |r| <= k < |s| ==> s[k] == '|'
  {
    if s == [] || s[|s| - 1] != '|' then s
    else
      var r := RStripBar(s[..|s| - 1]);
      assert forall k :: |r| <= k < |s| - 1 ==> s[k] == s[..|s| - 1][k];
      r
  }

  /** Python truthiness of an optional name. */
  predicate HasName(n: Option<string>) {
    n.Some? && n.value != []
  }

  function OrigTag(name: string): string {
    TagOpen + name + "|"
  }

  function RewriteComment(line: string, originalName: Option<string>): string {
    var comment := RStripBar(RemoveTags(line));
    if HasName(originalName) then comment + OrigTag(originalName.value) else comment
  }

  /** A rewritten COMMENT ends with the original-name tag exactly when a
      named NAME line came before it; otherwise it does not end in `|`, so it
      carries no trailing tag. */
  lemma RewriteCommentTag(line: string, originalName: Option<string>)
    ensures var c := RewriteComment(line, originalName);
      if HasName(originalName)
      then |OrigTag(originalName.value)| <= |c| && c[|c| - |OrigTag(originalName.value)|..] == OrigTag(originalName.value)
      else c == [] || c[|c| - 1] != '|'
  {
  }

  // ---------------------------------------------------------------------------
  // convert_name_to_peakid

  predicate IsNameLine(line: string) {
    LowerStartsWith(line, "name:")
  }

  predicate IsCommentLine(line: string) {
    LowerStartsWith(line, "comment:")
  }

  function NameValue(line: string): string {
    Strip(AfterFirst(line, ':'))
  }

  /** The inner loop's variables. */
  datatype BlockState = BlockState(originalName: Option<string>, newLines: seq<string>, commentUpdated: bool)

  function BlockStep(st: BlockState, line: string, id: nat): BlockState {
    if IsNameLine(line) then
      st.(originalName := Some(NameValue(line)), newLines := st.newLines + ["NAME: " + NatToString(id)])
    else if IsCommentLine(line) then
      st.(newLines := st.newLines + [RewriteComment(line, st.originalName)], commentUpdated := true)
    else st.(newLines := st.newLines + [line])
  }

  function BlockRun(lines: seq<string>, id: nat): BlockState {
    if lines == [] then BlockState(None, [], false)
    else BlockStep(BlockRun(lines[..|lines| - 1], id), lines[|lines| - 1], id)
  }

  /** One row of the returned table. */
  datatype NameRecord = NameRecord(originalName: Option<string>, updatedName: string)

  /** The lines a block is rewritten to. */
  function BlockLines(block: string, id: nat): seq<string> {
    var st := BlockRun(SplitLines(block), id);
    if !st.commentUpdated && HasName(st.originalName)
    then st.newLines + ["COMMENT: " + OrigTag(st.originalName.value)]
    else st.newLines
  }

  function BlockRecord(block: string, id: nat): NameRecord {
    NameRecord(BlockRun(SplitLines(block), id).originalName, NatToString(id))
  }

  function Blocks(mspData: string): seq<string> {
    SplitBlocks(Strip(mspData))
  }

  /** The rewritten blocks of the first n blocks, numbered from 1. */
  function UpdatedBlocks(blocks: seq<string>): (r: seq<string>)
    ensures |r| == |blocks|
  {
    if blocks == [] then []
    else UpdatedBlocks(blocks[..|blocks| - 1]) + [Join("\n", BlockLines(blocks[|blocks| - 1], |blocks|))]
  }

  function Records(blocks: seq<string>): (r: seq<NameRecord>)
    ensures |r| == |blocks|
  {
    if blocks == [] then []
    else Records(blocks[..|blocks| - 1]) + [BlockRecord(blocks[|blocks| - 1], |blocks|)]
  }

  function Converted(mspData: string): (string, seq<NameRecord>) {
    var blocks := Blocks(mspData);
    (Join("\n\n", UpdatedBlocks(blocks)), Records(blocks))
  }

  /** convert_name_to_peakid. */
  method ConvertNameToPeakId(mspData: string) returns (updatedMspData: string, records: seq<NameRecord>)
    ensures (updatedMspData, records) == Converted(mspData)
  {
    var blocks := Blocks(mspData);
    var updatedBlocks: seq<string> := [];
    records := [];
    var i := 0;
    while i < |blocks|
      invariant 0 <= i <= |blocks|
      invariant updatedBlocks == UpdatedBlocks(blocks[..i])
      invariant records == Records(blocks[..i])
    {
      assert blocks[..i + 1][..i] == blocks[..i];
      var newLines, originalName := RewriteBlock(blocks[i], i + 1);
      updatedBlocks := updatedBlocks + [Join("\n", newLines)];
      records := records + [NameRecord(originalName, NatToString(i + 1))];
      i := i + 1;
    }
    assert blocks[..i] == blocks;
    updatedMspData := Join("\n\n", updatedBlocks);
  }

  /** The inner loop over one block's lines, and the COMMENT added after it. */
  method RewriteBlock(block: string, id: nat) returns (newLines: seq<string>, originalName: Option<string>)
    ensures newLines == BlockLines(block, id)
    ensures originalName == BlockRun(SplitLines(block), id).originalName
  {
    var lines := SplitLines(block);
    originalName := None;
    newLines := [];
    var commentUpdated := false;
    var k := 0;
    while k < |lines|
      invariant 0 <= k <= |lines|
      invariant BlockRun(lines[..k], id) == BlockState(originalName, newLines, commentUpdated)
    {
      var line := lines[k];
      assert lines[..k + 1][..k] == lines[..k];
      if LowerStartsWith(line, "name:") {
        originalName := Some(Strip(AfterFirst(line, ':')));
        newLines := newLines + ["NAME: " + NatToString(id)];
      } else if LowerStartsWith(line, "comment:") {
        var comment := RemoveTags(line);
        comment := RStripBar(comment);
        if originalName.Some? && originalName.value != [] {
          comment := comment + OrigTag(originalName.value);
        }
        newLines := newLines + [comment];
        commentUpdated := true;
      } else {
        newLines := newLines + [line];
      }
      k := k + 1;
    }
    assert lines[..k] == lines;
    if !commentUpdated && originalName.Some? && originalName.value != [] {
      newLines := newLines + ["COMMENT: " + OrigTag(originalName.value)];
    }
  }

  /** The value of the last NAME line, searched from the end of the block. */
  function LastName(lines: seq<string>): Option<string> {
    if lines == [] then None
    else if IsNameLine(lines[|lines| - 1]) then Some(NameValue(lines[|lines| - 1]))
    else LastName(lines[..|lines| - 1])
  }

  lemma {:induction false} BlockRunName(lines: seq<string>, id: nat)
    ensures BlockRun(lines, id).originalName == LastName(lines)
  {
    if lines != [] {
      BlockRunName(lines[..|lines| - 1], id);
    }
  }

  /** Some line of the block satisfies p. */
  predicate SomeLine(lines: seq<string>, p: string -> bool) {
    exists k :: 0 <= k < |lines| && p(lines[k])
  }

  /** A line the inner loop treats as a COMMENT line. */
  predicate CommentOnly(line: string) {
    !IsNameLine(line) && IsCommentLine(line)
  }

  predicate HasCommentLine(lines: seq<string>) {
    SomeLine(lines, CommentOnly)
  }

  lemma {:induction false} BlockRunComment(lines: seq<string>, id: nat)
    ensures BlockRun(lines, id).commentUpdated <==> HasCommentLine(lines)
  {
    if lines != [] {
      var pre := lines[..|lines| - 1];
      BlockRunComment(pre, id);
      StepComment(BlockRun(pre, id), lines[|lines| - 1], id);
      HasCommentLineSnoc(lines);
    }
  }

  /** One line sets the flag iff it is a COMMENT line that is not a NAME line. */
  lemma StepComment(st: BlockState, line: string, id: nat)
    ensures BlockStep(st, line, id).commentUpdated <==> st.commentUpdated || (!IsNameLine(line) && IsCommentLine(line))
  {
  }

  lemma HasCommentLineSnoc(lines: seq<string>)
    requires lines != []
    ensures var pre := lines[..|lines| - 1];
      var line := lines[|lines| - 1];
      HasCommentLine(lines) <==> HasCommentLine(pre) || (!IsNameLine(line) && IsCommentLine(line))
  {
    SomeLineSnoc(lines, CommentOnly);
  }

  lemma SomeLineSnoc(lines: seq<string>, p: string -> bool)
    requires lines != []
    ensures SomeLine(lines, p) <==> SomeLine(lines[..|lines| - 1], p) || p(lines[|lines| - 1])
  {
    var pre := lines[..|lines| - 1];
    if SomeLine(lines, p) && !p(lines[|lines| - 1]) {
      var k :| 0 <= k < |lines| && p(lines[k]);
      assert k < |pre| && pre[k] == lines[k];
    }
    if SomeLine(pre, p) {
      var k :| 0 <= k < |pre| && p(pre[k]);
      assert lines[k] == pre[k];
    }
  }

  /** What the inner loop writes for one line, given the name seen so far. */
  function LineRewrite(line: string, originalName: Option<string>, id: nat): string {
    if IsNameLine(line) then "NAME: " + NatToString(id)
    else if IsCommentLine(line) then RewriteComment(line, originalName)
    else line
  }

  /** What the inner loop writes for the line at k. */
  function RewrittenLine(lines: seq<string>, k: nat, id: nat): string
    requires k < |lines|
  {
    LineRewrite(lines[k], LastName(lines[..k]), id)
  }

  lemma StepNewLines(st: BlockState, line: string, id: nat)
    ensures BlockStep(st, line, id).newLines == st.newLines + [LineRewrite(line, st.originalName, id)]
  {
  }

  /** Line by line: a NAME line becomes `NAME: id`, a COMMENT line is
      rewritten with the name of the last NAME line before it, and every
      other line is kept. */
  lemma {:induction false} BlockRunLines(lines: seq<string>, id: nat)
    ensures |BlockRun(lines, id).newLines| == |lines|
    ensures forall k :: 0 <= k < |lines| ==> BlockRun(lines, id).newLines[k] == RewrittenLine(lines, k, id)
  {
    if lines != [] {
      var n := |lines| - 1;
      var pre := lines[..n];
      var st := BlockRun(pre, id);
      BlockRunLines(pre, id);
      BlockRunName(pre, id);
      StepNewLines(st, lines[n], id);
      var out := BlockRun(lines, id).newLines;
      assert out == st.newLines + [RewrittenLine(lines, n, id)];
      forall k | 0 <= k < |lines| ensures out[k] == RewrittenLine(lines, k, id) {
        if k < n {
          assert out[k] == st.newLines[k] == RewrittenLine(pre, k, id);
          RewrittenLinePrefix(lines, n, k, id);
        } else {
          assert k == n == |st.newLines|;
        }
      }
    }
  }

  /** The rewrite of a line depends only on the lines up to it. */
  lemma RewrittenLinePrefix(lines: seq<string>, n: nat, k: nat, id: nat)
    requires k < n <= |lines|
    ensures RewrittenLine(lines[..n], k, id) == RewrittenLine(lines, k, id)
  {
    assert lines[..n][..k] == lines[..k];
  }

  /** A block with a named NAME line and no COMMENT line gets the tag in a
      new COMMENT line at its end. */
  lemma CommentAppended(block: string, id: nat)
    requires HasName(LastName(SplitLines(block)))
    requires forall k :: 0 <= k < |SplitLines(block)| ==> IsNameLine(SplitLines(block)[k]) || !IsCommentLine(SplitLines(block)[k])
    ensures var b := BlockLines(block, id);
      b[|b| - 1] == "COMMENT: " + OrigTag(LastName(SplitLines(block)).value)
  {
    BlockRunName(SplitLines(block), id);
    BlockRunComment(SplitLines(block), id);
  }

  /** The i-th block (from 1) is numbered i and records the name of its
      last NAME line. */
  lemma {:induction false} RecordsDense(blocks: seq<string>)
    ensures forall k :: 0 <= k < |blocks| ==> Records(blocks)[k] == NameRecord(LastName(SplitLines(blocks[k])), NatToString(k + 1))
  {
    forall k | 0 <= k < |blocks|
      ensures Records(blocks)[k] == NameRecord(LastName(SplitLines(blocks[k])), NatToString(k + 1))
    {
      RecordNamed(blocks, k);
    }
  }

  lemma RecordNamed(blocks: seq<string>, k: nat)
    requires k < |blocks|
    ensures Records(blocks)[k] == NameRecord(LastName(SplitLines(blocks[k])), NatToString(k + 1))
  {
    RecordAt(blocks, k);
    BlockRunName(SplitLines(blocks[k]), k + 1);
  }

  /** Block k (from 0) is recorded under the number k + 1. */
  lemma {:induction false} RecordAt(blocks: seq<string>, k: nat)
    requires k < |blocks|
    ensures Records(blocks)[k] == BlockRecord(blocks[k], k + 1)
  {
    var n := |blocks| - 1;
    if k < n {
      RecordAt(blocks[..n], k);
      assert blocks[..n][k] == blocks[k];
    }
  }

  /** Restoring: the original name joined back on `Updated_NAME`. */
  function Restore(records: seq<NameRecord>, updatedName: string): Option<Option<string>> {
    if records == [] then None
    else if records[0].updatedName == updatedName then Some(records[0].originalName)
    else Restore(records[1..], updatedName)
  }

  lemma {:induction false} RestoreFinds(records: seq<NameRecord>, k: nat)
    requires k < |records|
    requires forall j :: 0 <= j < |records| && j != k ==> records[j].updatedName != records[k].updatedName
    ensures Restore(records, records[k].updatedName) == Some(records[k].originalName)
  {
    if k > 0 {
      RestoreFinds(records[1..], k - 1);
    }
  }

  /** Joining on `Updated_NAME` gives back every block's original name, even
      when several blocks share a name, because the ids are distinct. */
  lemma RestoreRoundTrip(mspData: string, k: nat)
    requires k < |Blocks(mspData)|
    ensures Restore(Converted(mspData).1, NatToString(k + 1)) == Some(LastName(SplitLines(Blocks(mspData)[k])))
  {
    var blocks := Blocks(mspData);
    var recs := Records(blocks);
    RecordsDense(blocks);
    forall j | 0 <= j < |recs| && j != k ensures recs[j].updatedName != recs[k].updatedName {
      if recs[j].updatedName == recs[k].updatedName {
        NatToStringInjective(j + 1, k + 1);
      }
    }
    RestoreFinds(recs, k);
  }

  // ---------------------------------------------------------------------------
  // msp_formula_changer

  /** The formula a record's FORMULA line is rewritten to, when valid: the
      trimmed value of the mapping, neither empty nor "nan" in any case. */
  function NewFormula(rename: map<string, string>, name: string): string {
    Strip(if name in rename then rename[name] else "")
  }

  predicate ValidFormula(f: string) {
    f != [] && Lower(f) != "nan"
  }

  function RewriteLine(line: string, rename: map<string, string>, name: string): string {
    if "FORMULA:" <= line && ValidFormula(NewFormula(rename, name))
    then "FORMULA: " + NewFormula(rename, name) + "\n"
    else line
  }

  /** The loop's variables; `written` is what went to the output file. */
  datatype Changer = Changer(written: seq<string>, temp: seq<string>, currentName: Option<string>,
                             addEntry: bool, hasValidFormula: bool)

  function Flushed(st: Changer): seq<string> {
    if st.addEntry && st.temp != [] && st.hasValidFormula then st.written + st.temp else st.written
  }

  function ChangerStep(st: Changer, line: string, rename: map<string, string>): Changer {
    if "NAME:" <= line then
      var name := NameValue(line);
      Changer(Flushed(st), [line], Some(name), name in rename, false)
    else if HasName(st.currentName) && st.addEntry then
      var name := st.currentName.value;
      var valid := if "FORMULA:" <= line then ValidFormula(NewFormula(rename, name)) else st.hasValidFormula;
      st.(temp := st.temp + [RewriteLine(line, rename, name)], hasValidFormula := valid)
    else st
  }

  function ChangerRun(lines: seq<string>, rename: map<string, string>): Changer {
    if lines == [] then Changer([], [], None, false, false)
    else ChangerStep(ChangerRun(lines[..|lines| - 1], rename), lines[|lines| - 1], rename)
  }

  function FormulaChanged(lines: seq<string>, rename: map<string, string>): seq<string> {
    Flushed(ChangerRun(lines, rename))
  }

  lemma ChangerRunSnoc(lines: seq<string>, i: nat, rename: map<string, string>)
    requires i < |lines|
    ensures ChangerRun(lines[..i + 1], rename) == ChangerStep(ChangerRun(lines[..i], rename), lines[i], rename)
  {
    assert lines[..i + 1][..i] == lines[..i];
  }

  /** msp_formula_changer on the lines of the input file and the
      filename-to-formula mapping; the result is what is written. */
  method MspFormulaChanger(lines: seq<string>, rename: map<string, string>) returns (output: seq<string>)
    ensures output == FormulaChanged(lines, rename)
  {
    output := [];
    var currentName: Option<string> := None;
    var addEntry := false;
    var tempEntry: seq<string> := [];
    var hasValidFormula := false;
    var i := 0;
    while i < |lines|
      invariant 0 <= i <= |lines|
      invariant ChangerRun(lines[..i], rename) == Changer(output, tempEntry, currentName, addEntry, hasValidFormula)
    {
      ChangerRunSnoc(lines, i, rename);
      output, tempEntry, currentName, addEntry, hasValidFormula :=
        ChangeLine(output, tempEntry, currentName, addEntry, hasValidFormula, lines[i], rename);
      i := i + 1;
    }
    assert lines[..i] == lines;
    if addEntry && tempEntry != [] && hasValidFormula {
      output := output + tempEntry;
    }
  }

  /** One pass of msp_formula_changer's loop over one line. */
  method ChangeLine(output: seq<string>, tempEntry: seq<string>, currentName: Option<string>, addEntry: bool,
                    hasValidFormula: bool, line: string, rename: map<string, string>)
    returns (output': seq<string>, tempEntry': seq<string>, currentName': Option<string>, addEntry': bool,
             hasValidFormula': bool)
    ensures Changer(output', tempEntry', currentName', addEntry', hasValidFormula')
      == ChangerStep(Changer(output, tempEntry, currentName, addEntry, hasValidFormula), line, rename)
  {
    output', tempEntry', currentName', addEntry', hasValidFormula' := output, tempEntry, currentName, addEntry, hasValidFormula;
    if "NAME:" <= line {
      if addEntry && tempEntry != [] && hasValidFormula {
        output' := output + tempEntry;
      }
      tempEntry' := [line];
      hasValidFormula' := false;
      currentName' := Some(NameValue(line));
      addEntry' := currentName'.value in rename;
    } else if HasName(currentName) && addEntry {
      var written := line;
      if "FORMULA:" <= line {
        var newFormula := NewFormula(rename, currentName.value);
        if ValidFormula(newFormula) {
          written := "FORMULA: " + newFormula + "\n";
          hasValidFormula' := true;
        } else {
          hasValidFormula' := false;
        }
      }
      tempEntry' := tempEntry + [written];
    }
  }

  /** The records as the file lists them: each NAME line with the lines up
      to the next one. Lines before the first NAME line belong to none. */
  function Segments(lines: seq<string>): seq<(string, seq<string>)> {
    if lines == [] then []
    else
      var segs := Segments(lines[..|lines| - 1]);
      var line := lines[|lines| - 1];
      if "NAME:" <= line then segs + [(line, [])]
      else if segs == [] then segs
      else segs[..|segs| - 1] + [(segs[|segs| - 1].0, segs[|segs| - 1].1 + [line])]
  }

  function RewriteAll(body: seq<string>, rename: map<string, string>, name: string): (r: seq<string>)
    ensures |r| == |body|
    ensures forall k :: 0 <= k < |body| ==> r[k] == RewriteLine(body[k], rename, name)
  {
    if body == [] then []
    else RewriteAll(body[..|body| - 1], rename, name) + [RewriteLine(body[|body| - 1], rename, name)]
  }

  predicate HasFormulaLine(body: seq<string>) {
    exists k :: 0 <= k < |body| && "FORMULA:" <= body[k]
  }

  /** A record is written iff its name is set, in the mapping, and mapped to
      a valid formula, and it holds a FORMULA line. */
  predicate Written(seg: (string, seq<string>), rename: map<string, string>) {
    var name := NameValue(seg.0);
    name != [] && name in rename && ValidFormula(NewFormula(rename, name)) && HasFormulaLine(seg.1)
  }

  function Emit(seg: (string, seq<string>), rename: map<string, string>): seq<string> {
    if Written(seg, rename) then [seg.0] + RewriteAll(seg.1, rename, NameValue(seg.0)) else []
  }

  function EmitAll(segs: seq<(string, seq<string>)>, rename: map<string, string>): seq<string> {
    if segs == [] then [] else EmitAll(segs[..|segs| - 1], rename) + Emit(segs[|segs| - 1], rename)
  }

  /** How the loop's variables describe the record being read. */
  predicate Tracks(st: Changer, segs: seq<(string, seq<string>)>, rename: map<string, string>) {
    if segs == [] then st.written == [] && !st.addEntry
    else
      var seg := segs[|segs| - 1];
      var name := NameValue(seg.0);
      && st.written == EmitAll(segs[..|segs| - 1], rename)
      && st.currentName == Some(name)
      && st.addEntry == (name in rename)
      && st.temp == [seg.0] + (if name != [] && name in rename then RewriteAll(seg.1, rename, name) else [])
      && st.hasValidFormula == (name != [] && name in rename && ValidFormula(NewFormula(rename, name)) && HasFormulaLine(seg.1))
  }

  lemma {:induction false} ChangerTracks(lines: seq<string>, rename: map<string, string>)
    ensures Tracks(ChangerRun(lines, rename), Segments(lines), rename)
  {
    if lines != [] {
      var pre := lines[..|lines| - 1];
      var line := lines[|lines| - 1];
      ChangerTracks(pre, rename);
      if "NAME:" <= line {
        TracksNameLine(ChangerRun(pre, rename), Segments(pre), line, rename);
      } else if Segments(pre) != [] {
        TracksOtherLine(ChangerRun(pre, rename), Segments(pre), line, rename);
      }
    }
  }

  lemma TracksNameLine(st: Changer, segs: seq<(string, seq<string>)>, line: string, rename: map<string, string>)
    requires Tracks(st, segs, rename)
    requires "NAME:" <= line
    ensures Tracks(ChangerStep(st, line, rename), segs + [(line, [])], rename)
  {
    if segs != [] {
      assert Flushed(st) == EmitAll(segs, rename);
    }
    assert (segs + [(line, [])])[..|segs|] == segs;
  }

  lemma TracksOtherLine(st: Changer, segs: seq<(string, seq<string>)>, line: string, rename: map<string, string>)
    requires Tracks(st, segs, rename) && segs != []
    requires !("NAME:" <= line)
    ensures var seg := segs[|segs| - 1];
      Tracks(ChangerStep(st, line, rename), segs[..|segs| - 1] + [(seg.0, seg.1 + [line])], rename)
  {
    var seg := segs[|segs| - 1];
    var segs' := segs[..|segs| - 1] + [(seg.0, seg.1 + [line])];
    assert segs'[..|segs'| - 1] == segs[..|segs| - 1];
    var name := NameValue(seg.0);
    if name != [] && name in rename {
      TracksKeptLine(st, seg, line, rename);
    }
  }

  /** A line inside a record that is being kept is rewritten onto `temp`. */
  lemma TracksKeptLine(st: Changer, seg: (string, seq<string>), line: string, rename: map<string, string>)
    requires var name := NameValue(seg.0); name != [] && name in rename
    requires st.currentName == Some(NameValue(seg.0)) && st.addEntry
    requires st.temp == [seg.0] + RewriteAll(seg.1, rename, NameValue(seg.0))
    requires st.hasValidFormula == (ValidFormula(NewFormula(rename, NameValue(seg.0))) && HasFormulaLine(seg.1))
    requires !("NAME:" <= line)
    ensures var st' := ChangerStep(st, line, rename);
      && st'.temp == [seg.0] + RewriteAll(seg.1 + [line], rename, NameValue(seg.0))
      && st'.hasValidFormula == (ValidFormula(NewFormula(rename, NameValue(seg.0))) && HasFormulaLine(seg.1 + [line]))
      && st'.written == st.written && st'.currentName == st.currentName && st'.addEntry
  {
    var name := NameValue(seg.0);
    assert HasName(st.currentName) && st.currentName.value == name;
    var valid := if "FORMULA:" <= line then ValidFormula(NewFormula(rename, name)) else st.hasValidFormula;
    assert ChangerStep(st, line, rename) == st.(temp := st.temp + [RewriteLine(line, rename, name)], hasValidFormula := valid);
    RewriteAllSnoc(seg.1, line, rename, name);
    HasFormulaLineSnoc(seg.1, line);
    ConsSnoc(seg.0, RewriteAll(seg.1, rename, name), RewriteLine(line, rename, name));
  }

  lemma ConsSnoc(head: string, body: seq<string>, last: string)
    ensures [head] + body + [last] == [head] + (body + [last])
  {
  }

  lemma RewriteAllSnoc(body: seq<string>, line: string, rename: map<string, string>, name: string)
    ensures RewriteAll(body + [line], rename, name) == RewriteAll(body, rename, name) + [RewriteLine(line, rename, name)]
  {
    assert (body + [line])[..|body|] == body;
  }

  lemma HasFormulaLineSnoc(body: seq<string>, line: string)
    ensures HasFormulaLine(body + [line]) <==> HasFormulaLine(body) || "FORMULA:" <= line
  {
    var body' := body + [line];
    if HasFormulaLine(body) {
      var k :| 0 <= k < |body| && "FORMULA:" <= body[k];
      assert body'[k] == body[k];
    }
    if HasFormulaLine(body') && !("FORMULA:" <= line) {
      var k :| 0 <= k < |body'| && "FORMULA:" <= body'[k];
      assert k < |body| && body[k] == body'[k];
    }
    if "FORMULA:" <= line {
      assert body'[|body|] == line;
    }
  }

  /** The output is the written records in file order: each one's NAME line,
      then its lines in order with only the FORMULA lines rewritten. Lines
      before the first NAME line never reach the output. */
  lemma OutputIsWrittenRecords(lines: seq<string>, rename: map<string, string>)
    ensures FormulaChanged(lines, rename) == EmitAll(Segments(lines), rename)
  {
    ChangerTracks(lines, rename);
    FlushedEmits(ChangerRun(lines, rename), Segments(lines), rename);
  }

  /** The flush after the loop writes the last record exactly when it is
      one to be written. */
  lemma FlushedEmits(st: Changer, segs: seq<(string, seq<string>)>, rename: map<string, string>)
    requires Tracks(st, segs, rename)
    ensures Flushed(st) == EmitAll(segs, rename)
  {
    if segs != [] {
      var pre := segs[..|segs| - 1];
      var seg := segs[|segs| - 1];
      var name := NameValue(seg.0);
      assert EmitAll(segs, rename) == EmitAll(pre, rename) + Emit(seg, rename);
      assert st.written == EmitAll(pre, rename) && st.temp != [];
      assert Written(seg, rename) <==> st.addEntry && st.hasValidFormula;
      if Written(seg, rename) {
        assert Emit(seg, rename) == [seg.0] + RewriteAll(seg.1, rename, name) == st.temp;
      } else {
        assert Emit(seg, rename) == [];
        assert EmitAll(pre, rename) + [] == EmitAll(pre, rename);
      }
    }
  }
}
