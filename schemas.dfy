/** The scan list: the schemas of the database that a run extracts. */
module Schemas {
  import opened Text
  import opened Metadata

  const SYSTEM_SCHEMA := "INFORMATION_SCHEMA"

  /** A schema name is scanned when the filter is empty or names it up to
      case, and it is not the system schema (compared exactly). */
  predicate Selected(name: string, filter: seq<string>) {
    && (|filter| == 0 || exists f :: f in filter && Lower(name) == Lower(f))
    && name != SYSTEM_SCHEMA
  }

  /** Every row has a name column (column 1). */
  predicate Named(rows: seq<Row>) {
    forall r :: r in rows ==> |r| > 1
  }

  /** `a` is `b` with some elements left out, in the same order. */
  predicate Subsequence<T(==)>(a: seq<T>, b: seq<T>)
    decreases |b|
  {
    if a == [] then true
    else if b == [] then false
    else (a[|a| - 1] == b[|b| - 1] && Subsequence(a[..|a| - 1], b[..|b| - 1]))
         || Subsequence(a, b[..|b| - 1])
  }

  /** The rows a scan keeps: in listing order, exactly the selected ones,
      never the system schema. */
  function ScanList(rows: seq<Row>, filter: seq<string>): (r: seq<Row>)
    requires Named(rows)
    ensures Subsequence(r, rows)
    ensures forall x :: x in r <==> x in rows && Selected(x[1], filter)
    ensures forall x :: x in r ==> x[1] != SYSTEM_SCHEMA
    ensures |r| <= |rows|
    decreases |rows|
  {
    if rows == [] then []
    else
      var init := rows[..|rows| - 1];
      var last := rows[|rows| - 1];
      assert rows == init + [last];
      var kept := ScanList(init, filter);
      if Selected(last[1], filter) then
        assert (kept + [last])[..|kept|] == kept;
        kept + [last]
      else
        assert Subsequence(kept, rows) by {
          if kept != [] { assert rows[..|rows| - 1] == init; }
        }
        kept
  }

  lemma ScanListOfPrefix(rows: seq<Row>, filter: seq<string>, i: nat)
    requires i < |rows| && Named(rows[..i]) && |rows[i]| > 1
    ensures Named(rows[..i + 1])
    ensures ScanList(rows[..i + 1], filter) ==
      ScanList(rows[..i], filter) + (if Selected(rows[i][1], filter) then [rows[i]] else [])
  {
    assert rows[..i + 1] == rows[..i] + [rows[i]];
    assert rows[..i + 1][..i] == rows[..i];
  }

  /** A row without a name column makes the listing as a whole unnamed:
      the condition under which the scan raises. */
  lemma ScanAborts(rows: seq<Row>, i: nat)
    requires i < |rows| && |rows[i]| <= 1
    ensures !Named(rows)
  {
    assert rows[i] in rows;
  }
}
