/** The metadata source seen from the extractor: the two kinds of statement
    it sends, the row sets it gets back, and the failures that abort a run. */
module Metadata {
  import opened Catalog

  /** One row of a `show` result, each column as its text. */
  type Row = seq<string>

  /** What executing a `show` statement yields: its rows, or a failed
      statement (the error is printed and swallowed). */
  datatype Listing = Rows(rows: seq<Row>) | Failed

  /** The exceptions that end a run: an index past the end of a row
      (`IndexError`), `index("RETURN")` on a declaration without it
      (`ValueError`), and an output root that cannot be created. */
  datatype Failure = IndexOutOfRange | ReturnNotFound | OutputRootUnavailable

  /** The scope of one run: the version of the extractor, the database, and
      the two queries of the metadata source as functions of the statement
      text. `ddl` yields the first column of the single `GET_DDL` row, and ""
      when the statement failed. */
  datatype Context = Context(
    version: Version,
    database: string,
    listing: string -> Listing,
    ddl: string -> string)

  /** The result set the loops iterate over. A failed statement yields the
      placeholder `[""]`, a single row with no column at all. */
  function ResultSet(l: Listing): (r: seq<Row>)
    ensures l.Failed? ==> |r| == 1 && |r[0]| == 0
    ensures l.Rows? ==> r == l.rows
  {
    match l
    case Rows(rows) => rows
    case Failed => [[]]
  }

  /** The `show` statement for one object type: schemas are listed in the
      database, every other type in one schema of it. */
  function ShowStatement(database: string, typeWord: string, schema: string): string {
    if typeWord == "schemas" then
      "show " + typeWord + " in database \"" + database + "\""
    else
      "show " + typeWord + " in schema \"" + database + "\".\"" + schema + "\""
  }

  /** The `GET_DDL` query for one object; the argument fragment is appended
      to the quoted key so that overloads can be told apart. */
  function GetDdlStatement(term: string, database: string, schema: string, name: string, args: string): string {
    "SELECT GET_DDL('" + term + "','\"" + database + "\".\"" + schema + "\".\"" + name + "\"" + args + "',true)"
  }

  lemma {:induction false} SameAffixes(p: string, a: string, b: string, q: string)
    requires p + a + q == p + b + q
    ensures a == b
  {
    var s := p + a + q;
    assert |a| == |b|;
    assert a == s[|p|..|p| + |a|];
    assert b == (p + b + q)[|p|..|p| + |b|];
  }

  /** The listing of schemas is never confused with a listing of objects. */
  lemma ShowSchemasIsDistinct(database: string, schema: string, w: string)
    requires w != "schemas"
    ensures ShowStatement(database, "schemas", schema) != ShowStatement(database, w, schema)
  {
    // Either the lengths differ or, right after "show <w>", one statement
    // has a space where the other still spells "schemas".
    var s := "show schemas" + " in database \"" + database + "\"";
    var s' := "show " + w + " in schema \"" + database + "\".\"" + schema + "\"";
    assert ShowStatement(database, "schemas", schema) == s;
    assert ShowStatement(database, w, schema) == s';
    if |w| + |schema| == 6 {
      assert s'[5 + |w|] == ' ';
      assert s[5 + |w|] == "schemas"[|w|];
    } else {
      assert |s| != |s'|;
    }
  }

  /** Within one schema, different object types are listed by different
      statements, so the source answers each type on its own. */
  lemma ShowStatementInjective(database: string, schema: string, a: string, b: string)
    requires ShowStatement(database, a, schema) == ShowStatement(database, b, schema)
    ensures a == b
  {
    if a != "schemas" && b != "schemas" {
      var tail := " in schema \"" + database + "\".\"" + schema + "\"";
      assert ShowStatement(database, a, schema) == "show " + a + tail;
      assert ShowStatement(database, b, schema) == "show " + b + tail;
      SameAffixes("show ", a, b, tail);
    } else if a != "schemas" {
      ShowSchemasIsDistinct(database, schema, a);
    } else if b != "schemas" {
      ShowSchemasIsDistinct(database, schema, b);
    }
  }
}
