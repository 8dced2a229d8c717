/** Per object type and listing row: the term `GET_DDL` expects, whether the
    row is emitted, and the argument fragment that tells overloads apart. */
module Descriptor {
  import opened Wrappers
  import opened Text
  import opened Catalog
  import opened Metadata

  /** `name[:len(name)-1]`: drops the plural "s". */
  function Depluralise(name: string): (r: string)
    ensures |name| > 0 ==> r + [name[|name| - 1]] == name
    ensures |name| == 0 ==> r == ""
  {
    if |name| == 0 then "" else name[..|name| - 1]
  }

  /** The current term: "policy" for both policy kinds, else depluralised. */
  function CurrentTypeTerm(name: string): string {
    if Contains(name, "policies") then "policy" else Depluralise(name)
  }

  /** The older versions always depluralise. */
  function LegacyTypeTerm(name: string): string {
    Depluralise(name)
  }

  function TypeTerm(v: Version, name: string): string {
    match v
    case Current => CurrentTypeTerm(name)
    case Legacy => LegacyTypeTerm(name)
  }

  /** The two singular display names that `GET_DDL` spells differently,
      compared up to case; every other term is passed through. */
  function NormaliseTerm(term: string): string {
    if Lower(term) == "user function" then "function"
    else if Lower(term) == "file format" then "file_format"
    else term
  }

  /** Kinds whose rows carry a declaration with an argument signature. */
  predicate IsSignatureKind(name: string) {
    name == "procedures" || name == "user functions"
  }

  /** Whether a listed row is extracted: procedures whose column 3 is "Y"
      are built in and skipped; reading that column fails on a short row. */
  function IsEmitted(kind: string, row: Row): (r: Result<bool, Failure>)
    ensures r.Err? <==> kind == "procedures" && |row| <= 3
    ensures r.Err? ==> r.error == IndexOutOfRange
    ensures r.Ok? ==> (r.value <==> kind != "procedures" || row[3] != "Y")
  {
    if kind == "procedures" then
      if |row| <= 3 then Err(IndexOutOfRange) else Ok(row[3] != "Y")
    else Ok(true)
  }

  /** The argument fragment of a procedure or user function: its
      declaration (column 8) cut before the first "RETURN", with every
      occurrence of its name (column 1) removed; "" for every other kind. */
  function ArgFragment(kind: string, row: Row): (r: Result<string, Failure>)
    ensures !IsSignatureKind(kind) ==> r == Ok("")
    ensures IsSignatureKind(kind) && |row| <= 8 ==> r == Err(IndexOutOfRange)
    ensures IsSignatureKind(kind) && |row| > 8 ==>
      (r.Err? <==> !Contains(row[8], "RETURN")) && (r.Err? ==> r.error == ReturnNotFound)
    ensures IsSignatureKind(kind) && r.Ok? ==>
      |row| > 8 &&
      exists i: nat :: FirstOccurrence(row[8], "RETURN", i) && r.value == ReplaceAll(row[8][..i], row[1], "")
  {
    if !IsSignatureKind(kind) then Ok("")
    else if |row| <= 8 then Err(IndexOutOfRange)
    else
      match Find(row[8], "RETURN")
      case None => Err(ReturnNotFound)
      case Some(i) => Ok(ReplaceAll(row[8][..i], row[1], ""))
  }

  /** The `GET_DDL` statement issued for one object, or `None` when the
      current version short-circuits the "stage" term without a query. */
  function DdlRequest(v: Version, database: string, schema: string, term: string, name: string, args: string)
    : (r: Option<string>)
    ensures v == Legacy ==> r.Some?
    ensures v == Current ==> (r.None? <==> NormaliseTerm(term) == "stage")
    ensures r.Some? ==> r.value == GetDdlStatement(NormaliseTerm(term), database, schema, name, args)
  {
    var t := NormaliseTerm(term);
    if v == Current && t == "stage" then None
    else Some(GetDdlStatement(t, database, schema, name, args))
  }

  /** A text without upper-case ASCII letters is its own lower case. */
  lemma LowerOfLower(s: string)
    requires forall i :: 0 <= i < |s| ==> !('A' <= s[i] <= 'Z')
    ensures Lower(s) == s
  {
  }

  /** A text in which the first two characters of `sub` never appear side
      by side does not contain `sub`. */
  lemma AbsentByLeadingPair(s: string, sub: string)
    requires |sub| >= 2
    requires forall i :: 0 <= i < |s| - 1 ==> !(s[i] == sub[0] && s[i + 1] == sub[1])
    ensures !Contains(s, sub)
  {
    forall i: nat
      ensures !OccursAt(s, sub, i)
    {
      if i + |sub| <= |s| {
        assert s[i..i + |sub|][0] == s[i] && s[i..i + |sub|][1] == s[i + 1];
      }
    }
  }

  /** The term of a kind whose name has no "po" and whose singular is not
      one of the two irregular ones is its singular, in both versions. */
  lemma PlainTerm(name: string, singular: string)
    requires |name| > 0 && name[..|name| - 1] == singular
    requires forall i :: 0 <= i < |name| - 1 ==> !(name[i] == 'p' && name[i + 1] == 'o')
    requires Lower(singular) != "user function" && Lower(singular) != "file format"
    ensures NormaliseTerm(CurrentTypeTerm(name)) == singular
    ensures NormaliseTerm(LegacyTypeTerm(name)) == singular
  {
    AbsentByLeadingPair(name, "policies");
  }

  lemma FileFormatsTerm()
    ensures NormaliseTerm(CurrentTypeTerm("file formats")) == "file_format"
    ensures NormaliseTerm(LegacyTypeTerm("file formats")) == "file_format"
  {
    LowerOfLower("file format");
    AbsentByLeadingPair("file formats", "policies");
  }

  lemma UserFunctionsTerm()
    ensures NormaliseTerm(CurrentTypeTerm("user functions")) == "function"
    ensures NormaliseTerm(LegacyTypeTerm("user functions")) == "function"
  {
    LowerOfLower("user function");
    AbsentByLeadingPair("user functions", "policies");
  }

  lemma PolicyTerms()
    ensures NormaliseTerm(CurrentTypeTerm("masking policies")) == "policy"
    ensures NormaliseTerm(CurrentTypeTerm("row access policies")) == "policy"
  {
    assert OccursAt("masking policies", "policies", 8);
    assert OccursAt("row access policies", "policies", 11);
  }

  /** Only a kind spelled like "stages" can produce the term "stage". */
  lemma StageTermShape(v: Version, name: string)
    ensures NormaliseTerm(TypeTerm(v, name)) == "stage" ==> |name| == 6 && name[0] == 's'
  {
    if NormaliseTerm(TypeTerm(v, name)) == "stage" {
      assert Lower("stage") != "user function" && Lower("stage") != "file format";
      assert TypeTerm(v, name) == "stage";
      assert TypeTerm(v, name) != "policy";
      assert Depluralise(name) == "stage";
      assert name[0] == Depluralise(name)[0];
    }
  }

  /** Neither catalog lists a six-letter kind starting with 's'. */
  lemma NoStageKind(v: Version)
    ensures forall i :: 0 <= i < |ObjectTypes(v)| ==>
      !(|ObjectTypes(v)[i].name| == 6 && ObjectTypes(v)[i].name[0] == 's')
  {
  }

  /** No catalog entry of either version reaches the "stage" short-circuit:
      every object of the current version issues exactly one query, just as
      in the older version. */
  lemma StageIsNeverRequested(v: Version)
    ensures forall i :: 0 <= i < |ObjectTypes(v)| ==>
      NormaliseTerm(TypeTerm(v, ObjectTypes(v)[i].name)) != "stage"
  {
    NoStageKind(v);
    forall i | 0 <= i < |ObjectTypes(v)|
      ensures NormaliseTerm(TypeTerm(v, ObjectTypes(v)[i].name)) != "stage"
    {
      StageTermShape(v, ObjectTypes(v)[i].name);
    }
  }
}
