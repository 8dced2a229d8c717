/** The definition of one object as it is saved: fetched with `GET_DDL`
    and, for the kinds that must not be replaced on replay, rewritten from
    `create or replace` to `create ... if not exists`. */
module Rewriter {
  import opened Wrappers
  import opened Text
  import opened Catalog
  import opened Metadata
  import opened Descriptor

  /** The clause `GET_DDL` opens a definition with; the type is the term
      before normalisation, upper-cased. */
  function CreateOrReplaceClause(term: string): string {
    "create or replace " + Upper(term) + " "
  }

  /** Its idempotent counterpart. */
  function IfNotExistsClause(term: string): string {
    "create " + Upper(term) + " if not exists "
  }

  /** Keeps the definition when the kind may be replaced; otherwise turns
      its first `create or replace <TYPE> ` into `create <TYPE> if not exists `
      and leaves everything else, later occurrences included, as it was. */
  function ApplyReplacePolicy(ddl: string, term: string, createOrReplace: bool): (r: string)
    ensures createOrReplace ==> r == ddl
    ensures !Contains(ddl, CreateOrReplaceClause(term)) ==> r == ddl
    ensures !createOrReplace ==> forall i: nat :: FirstOccurrence(ddl, CreateOrReplaceClause(term), i) ==>
      r == ddl[..i] + IfNotExistsClause(term) + ddl[i + |CreateOrReplaceClause(term)|..]
  {
    if createOrReplace then ddl
    else
      var pat := CreateOrReplaceClause(term);
      ReplaceFirst(ddl, pat, IfNotExistsClause(term))
  }

  /** A failed `GET_DDL` (the empty text) stays empty under the rewrite. */
  lemma ReplacePolicyKeepsEmpty(term: string, createOrReplace: bool)
    ensures ApplyReplacePolicy("", term, createOrReplace) == ""
  {
    assert !OccursAt("", CreateOrReplaceClause(term), 0);
  }

  /** A definition that came back is never rewritten to nothing. */
  lemma ReplacePolicyKeepsNonEmpty(ddl: string, term: string, createOrReplace: bool)
    ensures ddl != "" ==> ApplyReplacePolicy(ddl, term, createOrReplace) != ""
  {
    var pat := CreateOrReplaceClause(term);
    if ddl != "" && !createOrReplace && Contains(ddl, pat) {
      var i := Find(ddl, pat).value;
      assert |ApplyReplacePolicy(ddl, term, createOrReplace)| >= |IfNotExistsClause(term)| > 0;
    }
  }

  /** The text saved for one object: "" when the current version meets the
      "stage" term (no query is sent); otherwise the answer to the object's
      `GET_DDL` statement under the replace policy of its kind. */
  function ObjectDdl(ctx: Context, schema: string, term: string, name: string, args: string, createOrReplace: bool)
    : (r: string)
    ensures ctx.version == Current && NormaliseTerm(term) == "stage" ==> r == ""
    ensures ctx.version == Legacy || NormaliseTerm(term) != "stage" ==>
      var answer := ctx.ddl(GetDdlStatement(NormaliseTerm(term), ctx.database, schema, name, args));
      r == ApplyReplacePolicy(answer, term, createOrReplace) &&
      (r == "" <==> answer == "") &&
      (createOrReplace ==> r == answer) &&
      (!Contains(answer, CreateOrReplaceClause(term)) ==> r == answer)
  {
    match DdlRequest(ctx.version, ctx.database, schema, term, name, args)
    case None => ""
    case Some(statement) =>
      ReplacePolicyKeepsEmpty(term, createOrReplace);
      ReplacePolicyKeepsNonEmpty(ctx.ddl(statement), term, createOrReplace);
      ApplyReplacePolicy(ctx.ddl(statement), term, createOrReplace)
  }
}
