/** Worked examples: concrete inputs and the outputs the model assigns them. */
module Scenarios {
  import opened Wrappers
  import opened Text
  import opened Catalog
  import opened Metadata
  import opened Schemas
  import opened Descriptor
  import opened Rewriter
  import opened Layout

  /** The filter ["SALES"] over SALES, sales_archive and the system schema
      keeps SALES alone. */
  lemma SalesFilter(a: Row, b: Row, c: Row)
    requires |a| > 1 && |b| > 1 && |c| > 1
    requires a[1] == "SALES" && b[1] == "sales_archive" && c[1] == "INFORMATION_SCHEMA"
    ensures ScanList([a, b, c], ["SALES"]) == [a]
  {
    assert Selected(a[1], ["SALES"]) by {
      assert "SALES" in ["SALES"];
    }
    assert !Selected(b[1], ["SALES"]) by {
      assert |Lower(b[1])| != |Lower("SALES")|;
    }
    assert [a, b, c][..2] == [a, b] && [a, b][..1] == [a] && [a][..0] == [];
  }

  /** Even a filter naming it cannot bring back the system schema. */
  lemma SystemSchemaNeverScanned(c: Row)
    requires |c| > 1 && c[1] == SYSTEM_SCHEMA
    ensures ScanList([c], [SYSTEM_SCHEMA]) == []
  {
    assert [c][..0] == [];
  }

  const DECLARATION := "MYFUNC (A NUMBER) RETURN NUMBER"

  lemma DeclarationReturn()
    ensures Find(DECLARATION, "RETURN") == Some(18)
  {
    assert OccursAt(DECLARATION, "RETURN", 18);
    NoOccurrenceBefore(DECLARATION, "RETURN", 18);
    FindFirst(DECLARATION, "RETURN", 18);
  }

  lemma DeclarationHead()
    ensures DECLARATION[..18] == "MYFUNC (A NUMBER) "
  {
  }

  lemma StripName()
    ensures ReplaceAll("MYFUNC (A NUMBER) ", "MYFUNC", "") == " (A NUMBER) "
  {
    var head := "MYFUNC (A NUMBER) ";
    assert OccursAt(head, "MYFUNC", 0);
    assert head[6..] == " (A NUMBER) ";
    AbsentByLeadingPair(" (A NUMBER) ", "MYFUNC");
    ReplaceAllSingleOccurrence(head, "MYFUNC", "", 0);
  }

  /** The declaration "MYFUNC (A NUMBER) RETURN NUMBER" of MYFUNC yields the
      fragment " (A NUMBER) ". */
  lemma FunctionFragment(row: Row)
    requires |row| > 8 && row[1] == "MYFUNC" && row[8] == DECLARATION
    ensures ArgFragment("user functions", row) == Ok(" (A NUMBER) ")
    ensures ArgFragment("procedures", row) == Ok(" (A NUMBER) ")
  {
    DeclarationReturn();
    DeclarationHead();
    StripName();
  }

  lemma TableClauses()
    ensures CreateOrReplaceClause("table") == "create or replace TABLE "
    ensures IfNotExistsClause("table") == "create TABLE if not exists "
  {
    assert forall i :: 0 <= i < 5 ==> Upper("table")[i] == "TABLE"[i];
    assert Upper("table") == "TABLE";
  }

  const TABLE_DDL := "create or replace TABLE T1 (ID NUMBER);"

  lemma TableDdlSplit()
    ensures FirstOccurrence(TABLE_DDL, "create or replace TABLE ", 0)
    ensures TABLE_DDL[24..] == "T1 (ID NUMBER);"
  {
    assert TABLE_DDL[..24] == "create or replace TABLE ";
  }

  /** A downgraded table definition keeps its body and drops the replace. */
  lemma TableDowngrade()
    ensures ApplyReplacePolicy(TABLE_DDL, "table", false) == "create TABLE if not exists T1 (ID NUMBER);"
  {
    TableClauses();
    TableDdlSplit();
  }

  /** Environment substitution is not idempotent: a replacement containing
      the pattern grows on every pass ... */
  lemma SubstitutionGrows()
    ensures ReplaceAll("a", "a", "aa") == "aa"
    ensures ReplaceAll("aa", "a", "aa") == "aaaa"
  {
    assert OccursAt("a", "a", 0);
    assert "a"[1..] == "";
    assert OccursAt("aa", "a", 0);
    assert "aa"[1..] == "a";
  }

  /** ... and deleting a pattern can form a new occurrence of it. */
  lemma SubstitutionFormsNewOccurrence()
    ensures ReplaceAll("aabb", "ab", "") == "ab"
    ensures ReplaceAll("ab", "ab", "") == ""
  {
    assert "aabb"[0..2][1] != "ab"[1];
    assert "aabb"[1..] == "abb";
    assert OccursAt("abb", "ab", 0);
    assert "abb"[2..] == "b";
    assert "b"[1..] == "";
    assert OccursAt("ab", "ab", 0);
    assert "ab"[2..] == "";
  }
}
