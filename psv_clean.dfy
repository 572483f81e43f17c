/** clean_psv_file (script/metfrag_struc_cmd.py): the MetFrag result table,
    read with '|' as the delimiter, is rewritten in place without its blank
    rows. The file is modelled by the rows the csv reader yields. */
module PsvClean {
  import opened Wrappers
  import opened Text

  type Row = seq<string>

  /** A row the cleaner drops: no cells, or only cells that strip to "". */
  predicate Blank(row: Row) {
    forall c :: c in row ==> Strip(c) == []
  }

  /** The rows after the header that survive, in order. */
  function KeptRows(rows: seq<Row>): (r: seq<Row>)
    ensures |r| <= |rows|
  {
    if rows == [] then []
    else (if Blank(rows[0]) then [] else [rows[0]]) + KeptRows(rows[1..])
  }

  /** The cleaned file: the header row, kept whatever it holds, then every
      non-blank row. */
  function Cleaned(rows: seq<Row>): seq<Row>
    requires rows != []
  {
    [rows[0]] + KeptRows(rows[1..])
  }

  class PsvFile {
    var rows: seq<Row>

    constructor (rows: seq<Row>)
      ensures this.rows == rows
    {
      this.rows := rows;
    }

    /** clean_psv_file: an empty file stops at `next(reader)` and is left as
        it is; any other file is rewritten as its cleaned rows. */
    method Clean() returns (r: Result<()>)
      modifies this
      ensures old(rows) == [] <==> r.Err?
      ensures r.Err? ==> r.error == StopIteration && rows == old(rows)
      ensures r.Ok? ==> rows == Cleaned(old(rows))
    {
      var input := rows;
      if input == [] {
        return Err(StopIteration);
      }
      var kept := KeepNonBlank(input[1..]);
      var cleaned := [input[0]] + kept;
      rows := cleaned;
      return Ok(());
    }
  }

  /** The writing loop of clean_psv_file over the rows after the header:
      each row is written unless it is blank. */
  method KeepNonBlank(rows: seq<Row>) returns (kept: seq<Row>)
    ensures kept == KeptRows(rows)
  {
    kept := [];
    var i := 0;
    while i < |rows|
      invariant 0 <= i <= |rows|
      invariant kept == KeptRows(rows[..i])
    {
      var blank := BlankRow(rows[i]);
      if !blank {
        kept := kept + [rows[i]];
      }
      KeptPrefixStep(rows, i);
      i := i + 1;
    }
    assert rows[..i] == rows;
  }

  lemma KeptPrefixStep(rows: seq<Row>, i: nat)
    requires i < |rows|
    ensures KeptRows(rows[..i + 1]) == KeptRows(rows[..i]) + (if Blank(rows[i]) then [] else [rows[i]])
  {
    assert rows[..i + 1] == rows[..i] + [rows[i]];
    KeptRowsSnoc(rows[..i], rows[i]);
  }

  /** `not row or all(cell.strip() == '' for cell in row)`. */
  method BlankRow(row: Row) returns (b: bool)
    ensures b == Blank(row)
  {
    var j := 0;
    while j < |row|
      invariant 0 <= j <= |row|
      invariant forall k :: 0 <= k < j ==> Strip(row[k]) == []
    {
      if Strip(row[j]) != [] {
        return false;
      }
      j := j + 1;
    }
    return true;
  }

  lemma {:induction false} KeptRowsSnoc(rows: seq<Row>, x: Row)
    ensures KeptRows(rows + [x]) == KeptRows(rows) + (if Blank(x) then [] else [x])
  {
    if rows == [] {
      assert [x][1..] == [];
    } else {
      var head := if Blank(rows[0]) then [] else [rows[0]];
      assert (rows + [x])[0] == rows[0];
      assert (rows + [x])[1..] == rows[1..] + [x];
      KeptRowsSnoc(rows[1..], x);
      assert KeptRows(rows + [x]) == head + (KeptRows(rows[1..]) + (if Blank(x) then [] else [x]));
    }
  }

  /** A row survives exactly when it is not blank. */
  lemma {:induction false} KeptRowsMembers(rows: seq<Row>, x: Row)
    ensures x in KeptRows(rows) <==> x in rows && !Blank(x)
  {
    if rows != [] {
      KeptRowsMembers(rows[1..], x);
      assert x in rows <==> x == rows[0] || x in rows[1..];
    }
  }

  /** Cleaning a cleaned file changes nothing. */
  lemma CleanedIdempotent(rows: seq<Row>)
    requires rows != []
    ensures Cleaned(Cleaned(rows)) == Cleaned(rows)
  {
    var c := Cleaned(rows);
    assert c[1..] == KeptRows(rows[1..]);
    KeptRowsOfKept(rows[1..]);
  }

  lemma {:induction false} KeptRowsOfKept(rows: seq<Row>)
    ensures KeptRows(KeptRows(rows)) == KeptRows(rows)
  {
    if rows != [] {
      var rest := KeptRows(rows[1..]);
      KeptRowsOfKept(rows[1..]);
      if Blank(rows[0]) {
        assert KeptRows(rows) == rest;
      } else {
        var k := [rows[0]] + rest;
        assert KeptRows(rows) == k;
        assert k[0] == rows[0] && k[1..] == rest;
        assert KeptRows(k) == [rows[0]] + KeptRows(rest);
      }
    }
  }

  /** The header is kept and nothing but blank rows is removed: the
      cleaned file is the header plus the non-blank rows in their order, and
      a file without blank rows is left as it is. */
  lemma {:induction false} NoBlankRowsUnchanged(rows: seq<Row>)
    requires forall i :: 0 <= i < |rows| ==> !Blank(rows[i])
    ensures KeptRows(rows) == rows
  {
    if rows != [] {
      NoBlankRowsUnchanged(rows[1..]);
    }
  }
}
