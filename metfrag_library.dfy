/** The candidate library for MetFrag: the '|'-separated library file as the
    rows the csv reader yields, and the two ways the copies of
    creat_metfrag_file keep the candidates near a spectrum's neutral mass:
    filtering_library (msemblator/metfrag_file_processing.py), which scans
    the file for each spectrum, and load_library with
    filtering_library_preloaded (script/metfrag_file_processing.py), which
    sorts the library once by mass. Number parsing is given as a function
    (`float` on a cell; None where it raises ValueError). */
module MetfragLibrary {
  import opened Wrappers

  type Row = seq<string>

  const MassColumn := "MonoisotopicMass"

  /** `headers.index(name)`: the first position holding name. */
  function ColumnIndex(headers: Row, name: string): (i: nat)
    requires name in headers
    ensures i < |headers| && headers[i] == name
    ensures forall j :: 0 <= j < i ==> headers[j] != name
  {
    if headers[0] == name then 0 else 1 + ColumnIndex(headers[1..], name)
  }

  /** The elements of xs that keep, in order. */
  function Select<T>(xs: seq<T>, keep: T -> bool): (r: seq<T>)
    ensures |r| <= |xs|
  {
    if xs == [] then [] else (if keep(xs[0]) then [xs[0]] else []) + Select(xs[1..], keep)
  }

  lemma {:induction false} SelectMembers<T>(xs: seq<T>, keep: T -> bool, x: T)
    ensures x in Select(xs, keep) <==> x in xs && keep(x)
  {
    if xs != [] {
      SelectMembers(xs[1..], keep, x);
      assert x in xs <==> x == xs[0] || x in xs[1..];
    }
  }

  lemma {:induction false} SelectCount<T>(xs: seq<T>, keep: T -> bool, x: T)
    ensures multiset(Select(xs, keep))[x] == if keep(x) then multiset(xs)[x] else 0
  {
    if xs != [] {
      SelectCount(xs[1..], keep, x);
      assert xs == [xs[0]] + xs[1..];
    }
  }

  lemma SelectSnoc<T>(xs: seq<T>, x: T, keep: T -> bool)
    ensures Select(xs + [x], keep) == Select(xs, keep) + (if keep(x) then [x] else [])
  {
    if xs != [] {
      assert (xs + [x])[1..] == xs[1..] + [x];
      SelectSnoc(xs[1..], x, keep);
    }
  }

  // ---------------------------------------------------------------------------
  // filtering_library (msemblator copy)

  /** The mass a row's cell holds, if the row is long enough and the cell
      parses (`float(row[mass_index])` raising IndexError or ValueError,
      which the loop skips). */
  function RowMass(row: Row, index: nat, parseFloat: string -> Option<real>): Option<real> {
    if index < |row| then parseFloat(row[index]) else None
  }

  function Abs(x: real): real { if x < 0.0 then -x else x }

  /** Whether the loop keeps a row: its mass parses and lies within the
      tolerance of the target. */
  predicate WithinTolerance(row: Row, index: nat, target: real, tolerance: real, parseFloat: string -> Option<real>) {
    var m := RowMass(row, index, parseFloat);
    m.Some? && Abs(m.value - target) <= tolerance
  }

  const NoneOperand := "unsupported operand type(s) for -: 'float' and 'NoneType'"

  function Near(index: nat, target: real, tolerance: real, parseFloat: string -> Option<real>): Row -> bool {
    row => WithinTolerance(row, index, target, tolerance, parseFloat)
  }

  /** filtering_library: StopIteration on an empty file, ValueError when the
      header lacks the mass column; otherwise the header, then every row
      whose mass is within the tolerance, in file order. A None target makes
      the first row with a readable mass raise TypeError, which the loop
      does not catch. */
  function FilterLibrary(rows: seq<Row>, target: Option<real>, tolerance: real, parseFloat: string -> Option<real>): (r: Result<seq<Row>>)
    ensures r.Err? <==>
      (rows == [] || MassColumn !in rows[0]
       || (target.None? && exists i :: 1 <= i < |rows| && RowMass(rows[i], ColumnIndex(rows[0], MassColumn), parseFloat).Some?))
  {
    if rows == [] then Err(StopIteration)
    else if MassColumn !in rows[0] then Err(ValueError("'MonoisotopicMass' is not in list"))
    else
      var index := ColumnIndex(rows[0], MassColumn);
      if target.None? then
        if exists i :: 1 <= i < |rows| && RowMass(rows[i], index, parseFloat).Some? then
          Err(TypeError(NoneOperand))
        else Ok([rows[0]])
      else Ok([rows[0]] + Select(rows[1..], Near(index, target.value, tolerance, parseFloat)))
  }

  /** The loop of filtering_library, over the rows after the header. */
  method ScanLibrary(rows: seq<Row>, index: nat, target: Option<real>, tolerance: real, parseFloat: string -> Option<real>)
    returns (r: Result<seq<Row>>)
    ensures r.Err? <==> target.None? && exists i :: 0 <= i < |rows| && RowMass(rows[i], index, parseFloat).Some?
    ensures r.Err? ==> r.error == TypeError(NoneOperand)
    ensures r.Ok? && target.Some? ==> r.value == Select(rows, Near(index, target.value, tolerance, parseFloat))
    ensures r.Ok? && target.None? ==> r.value == []
  {
    ghost var keep := row => target.Some? && WithinTolerance(row, index, target.value, tolerance, parseFloat);
    var matching: seq<Row> := [];
    var i := 0;
    while i < |rows|
      invariant 0 <= i <= |rows|
      invariant matching == Select(rows[..i], keep)
      invariant target.None? ==> forall k :: 0 <= k < i ==> RowMass(rows[k], index, parseFloat).None?
    {
      assert rows[..i + 1] == rows[..i] + [rows[i]];
      SelectSnoc(rows[..i], rows[i], keep);
      var mass := RowMass(rows[i], index, parseFloat);
      if mass.Some? {
        if target.None? {
          return Err(TypeError(NoneOperand));
        }
        if Abs(mass.value - target.value) <= tolerance {
          matching := matching + [rows[i]];
        }
      }
      i := i + 1;
    }
    assert rows[..i] == rows;
    if target.None? {
      SelectNone(rows, keep);
    } else {
      SelectSame(rows, keep, Near(index, target.value, tolerance, parseFloat));
    }
    return Ok(matching);
  }

  lemma {:induction false} SelectNone<T>(xs: seq<T>, keep: T -> bool)
    requires forall i :: 0 <= i < |xs| ==> !keep(xs[i])
    ensures Select(xs, keep) == []
  {
    if xs != [] {
      SelectNone(xs[1..], keep);
    }
  }

  lemma {:induction false} SelectSame<T>(xs: seq<T>, a: T -> bool, b: T -> bool)
    requires forall i :: 0 <= i < |xs| ==> a(xs[i]) == b(xs[i])
    ensures Select(xs, a) == Select(xs, b)
  {
    if xs != [] {
      SelectSame(xs[1..], a, b);
    }
  }

  /** filtering_library as its loop computes it. */
  method FilteringLibrary(rows: seq<Row>, target: Option<real>, tolerance: real, parseFloat: string -> Option<real>)
    returns (r: Result<seq<Row>>)
    ensures r == FilterLibrary(rows, target, tolerance, parseFloat)
  {
    if rows == [] {
      return Err(StopIteration);
    }
    if MassColumn !in rows[0] {
      return Err(ValueError("'MonoisotopicMass' is not in list"));
    }
    var index := ColumnIndex(rows[0], MassColumn);
    var matching := ScanLibrary(rows[1..], index, target, tolerance, parseFloat);
    if matching.Err? {
      assert exists i :: 1 <= i < |rows| && RowMass(rows[i], index, parseFloat).Some? by {
        var i :| 0 <= i < |rows[1..]| && RowMass(rows[1..][i], index, parseFloat).Some?;
        assert rows[1..][i] == rows[i + 1];
      }
      return Err(matching.error);
    }
    if target.None? {
      assert !exists i :: 1 <= i < |rows| && RowMass(rows[i], index, parseFloat).Some? by {
        forall i | 1 <= i < |rows| ensures RowMass(rows[i], index, parseFloat).None? {
          assert rows[i] == rows[1..][i - 1];
        }
      }
    }
    if target.None? {
      assert [rows[0]] + matching.value == [rows[0]];
    } else {
      assert matching.value == Select(rows[1..], Near(index, target.value, tolerance, parseFloat));
    }
    return Ok([rows[0]] + matching.value);
  }

  /** The header comes first, and a row follows it exactly when it is a row
      of the file whose mass is readable and within the tolerance. */
  lemma FilterLibraryRows(rows: seq<Row>, target: real, tolerance: real, parseFloat: string -> Option<real>, row: Row)
    requires FilterLibrary(rows, Some(target), tolerance, parseFloat).Ok?
    ensures var r := FilterLibrary(rows, Some(target), tolerance, parseFloat).value;
      r != [] && r[0] == rows[0]
      && (row in r[1..] <==> row in rows[1..] && WithinTolerance(row, ColumnIndex(rows[0], MassColumn), target, tolerance, parseFloat))
  {
    var index := ColumnIndex(rows[0], MassColumn);
    var keep := Near(index, target, tolerance, parseFloat);
    SelectMembers(rows[1..], keep, row);
    var r := FilterLibrary(rows, Some(target), tolerance, parseFloat).value;
    assert r[1..] == Select(rows[1..], keep);
  }

  // ---------------------------------------------------------------------------
  // load_library and filtering_library_preloaded (script copy)

  /** A library row with its parsed mass. */
  type Entry = (real, Row)

  datatype Library = Library(headers: Row, entries: seq<Entry>)

  /** The list comprehension of load_library over the rows after the header:
      empty rows are skipped; a short row raises IndexError and an
      unreadable mass ValueError, either of which ends the whole run. */
  function Entries(rows: seq<Row>, index: nat, parseFloat: string -> Option<real>): (r: Result<seq<Entry>>)
    ensures r.Ok? ==> |r.value| <= |rows|
    ensures r.Err? <==> exists i :: 0 <= i < |rows| && rows[i] != [] && RowMass(rows[i], index, parseFloat).None?
    ensures r.Ok? ==> forall e :: e in r.value ==> e.1 in rows && e.1 != [] && RowMass(e.1, index, parseFloat) == Some(e.0)
  {
    if rows == [] then Ok([])
    else
      var rest := Entries(rows[1..], index, parseFloat);
      assert forall e :: e in rows[1..] ==> e in rows;
      assert (exists i :: 0 <= i < |rows| && rows[i] != [] && RowMass(rows[i], index, parseFloat).None?)
        <==> (rows[0] != [] && RowMass(rows[0], index, parseFloat).None?)
             || exists i :: 0 <= i < |rows[1..]| && rows[1..][i] != [] && RowMass(rows[1..][i], index, parseFloat).None? by {
        if exists i :: 0 <= i < |rows| && rows[i] != [] && RowMass(rows[i], index, parseFloat).None? {
          var i :| 0 <= i < |rows| && rows[i] != [] && RowMass(rows[i], index, parseFloat).None?;
          if i > 0 { assert rows[1..][i - 1] == rows[i]; }
        }
        if exists i :: 0 <= i < |rows[1..]| && rows[1..][i] != [] && RowMass(rows[1..][i], index, parseFloat).None? {
          var i :| 0 <= i < |rows[1..]| && rows[1..][i] != [] && RowMass(rows[1..][i], index, parseFloat).None?;
          assert rows[i + 1] == rows[1..][i];
        }
      }
      if rows[0] == [] then rest
      else if index >= |rows[0]| then Err(IndexError("list index out of range"))
      else match parseFloat(rows[0][index])
        case None => Err(ValueError("could not convert string to float"))
        case Some(m) =>
          if rest.Err? then rest else Ok([(m, rows[0])] + rest.value)
  }

  predicate SortedByMass(es: seq<Entry>) {
    forall i, j :: 0 <= i < j < |es| ==> es[i].0 <= es[j].0
  }

  /** Put e in front of the first entry whose mass is not below its own: the
      entries of equal mass keep their order, as Python's stable sort does. */
  function Insert(e: Entry, es: seq<Entry>): (r: seq<Entry>)
    ensures |r| == |es| + 1
    ensures r[0] == e || (es != [] && r[0] == es[0])
    ensures multiset(r) == multiset(es) + multiset{e}
  {
    if es == [] || e.0 <= es[0].0 then
      [e] + es
    else
      assert es == [es[0]] + es[1..];
      [es[0]] + Insert(e, es[1..])
  }

  lemma {:induction false} InsertSorted(e: Entry, es: seq<Entry>)
    requires SortedByMass(es)
    ensures SortedByMass(Insert(e, es))
  {
    if es != [] && e.0 > es[0].0 {
      var tail := Insert(e, es[1..]);
      InsertSorted(e, es[1..]);
      assert forall k :: 0 <= k < |es[1..]| ==> es[0].0 <= es[1..][k].0 by {
        forall k | 0 <= k < |es[1..]| ensures es[0].0 <= es[1..][k].0 {
          assert es[1..][k] == es[k + 1];
        }
      }
      InsertAbove(e, es[1..], es[0].0);
      var r := Insert(e, es);
      assert r == [es[0]] + tail;
      forall i, j | 0 <= i < j < |r| ensures r[i].0 <= r[j].0 {
        assert r[j] == tail[j - 1];
        if i > 0 {
          assert r[i] == tail[i - 1];
        }
      }
    }
  }

  /** A lower bound on e and on every entry of es bounds every entry after
      the insertion. */
  lemma {:induction false} InsertAbove(e: Entry, es: seq<Entry>, m: real)
    requires m <= e.0
    requires forall k :: 0 <= k < |es| ==> m <= es[k].0
    ensures forall k :: 0 <= k < |Insert(e, es)| ==> m <= Insert(e, es)[k].0
  {
    if es != [] && e.0 > es[0].0 {
      var tail := Insert(e, es[1..]);
      InsertAbove(e, es[1..], m);
      var r := Insert(e, es);
      assert r == [es[0]] + tail;
      forall k | 0 <= k < |r| ensures m <= r[k].0 {
        if k > 0 {
          assert r[k] == tail[k - 1];
        }
      }
    }
  }

  /** `rows.sort(key=lambda x: x[0])`. */
  function SortByMass(es: seq<Entry>): (r: seq<Entry>)
    ensures SortedByMass(r)
    ensures multiset(r) == multiset(es)
  {
    if es == [] then []
    else
      assert es == [es[0]] + es[1..];
      var rest := SortByMass(es[1..]);
      InsertSorted(es[0], rest);
      Insert(es[0], rest)
  }

  /** load_library. */
  function LoadLibrary(rows: seq<Row>, parseFloat: string -> Option<real>): (r: Result<Library>)
    ensures r.Ok? ==> rows != [] && r.value.headers == rows[0] && SortedByMass(r.value.entries)
  {
    if rows == [] then Err(StopIteration)
    else if MassColumn !in rows[0] then Err(ValueError("'MonoisotopicMass' is not in list"))
    else
      match Entries(rows[1..], ColumnIndex(rows[0], MassColumn), parseFloat)
      case Err(e) => Err(e)
      case Ok(es) => Ok(Library(rows[0], SortByMass(es)))
  }

  predicate InWindow(e: Entry, lo: real, hi: real) {
    lo <= e.0 <= hi
  }

  function Window(lo: real, hi: real): Entry -> bool {
    e => InWindow(e, lo, hi)
  }

  function RowsOf(es: seq<Entry>): (rows: seq<Row>)
    ensures |rows| == |es| && forall i :: 0 <= i < |es| ==> rows[i] == es[i].1
  {
    seq(|es|, i requires 0 <= i < |es| => es[i].1)
  }

  /** filtering_library_preloaded: the header, then the rows whose mass lies
      in [target - tolerance, target + tolerance], in library (ascending
      mass) order. A None target raises TypeError at `target_mass -
      tolerance`. */
  function FilterPreloaded(lib: Library, target: Option<real>, tolerance: real): (r: Result<seq<Row>>)
    ensures r.Err? <==> target.None?
    ensures r.Ok? ==> r.value != [] && r.value[0] == lib.headers
  {
    if target.None? then Err(TypeError("unsupported operand type(s) for -: 'NoneType' and 'float'"))
    else
      Ok([lib.headers] + RowsOf(Select(lib.entries, Window(target.value - tolerance, target.value + tolerance))))
  }

  lemma {:induction false} SelectKeepsSorted(es: seq<Entry>, keep: Entry -> bool)
    requires SortedByMass(es)
    ensures SortedByMass(Select(es, keep))
  {
    if es != [] {
      SelectKeepsSorted(es[1..], keep);
      var rest := Select(es[1..], keep);
      if keep(es[0]) {
        var r := [es[0]] + rest;
        forall i, j | 0 <= i < j < |r| ensures r[i].0 <= r[j].0 {
          if i == 0 {
            assert r[j] in rest;
            SelectMembers(es[1..], keep, r[j]);
          }
        }
      }
    }
  }

  /** The preloaded filter keeps exactly the library file's rows whose mass
      lies in the window, each as often as the file holds it, and returns
      them in ascending mass. */
  lemma PreloadedWindow(rows: seq<Row>, parseFloat: string -> Option<real>, target: real, tolerance: real)
    requires LoadLibrary(rows, parseFloat).Ok?
    ensures var lib := LoadLibrary(rows, parseFloat).value;
      var keep := Window(target - tolerance, target + tolerance);
      var kept := Select(lib.entries, keep);
      SortedByMass(kept)
      && multiset(kept) == multiset(Select(Entries(rows[1..], ColumnIndex(rows[0], MassColumn), parseFloat).value, keep))
  {
    var lib := LoadLibrary(rows, parseFloat).value;
    var es := Entries(rows[1..], ColumnIndex(rows[0], MassColumn), parseFloat).value;
    var keep := Window(target - tolerance, target + tolerance);
    assert lib.entries == SortByMass(es);
    SelectKeepsSorted(lib.entries, keep);
    SelectPermutation(SortByMass(es), es, keep);
  }

  lemma SelectPermutation(xs: seq<Entry>, ys: seq<Entry>, keep: Entry -> bool)
    requires multiset(xs) == multiset(ys)
    ensures multiset(Select(xs, keep)) == multiset(Select(ys, keep))
  {
    forall x ensures multiset(Select(xs, keep))[x] == multiset(Select(ys, keep))[x] {
      SelectCount(xs, keep, x);
      SelectCount(ys, keep, x);
    }
    assert multiset(Select(xs, keep)) == multiset(Select(ys, keep));
  }

  /** Both copies keep the same masses: within the tolerance of the target
      is the same as between target - tolerance and target + tolerance. */
  lemma WindowsAgree(m: real, target: real, tolerance: real)
    ensures (Abs(m - target) <= tolerance) <==> (target - tolerance <= m <= target + tolerance)
  {
  }
}
