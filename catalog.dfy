/** The fixed, ordered tables of object-type descriptors of the two versions
    of the extractor. */
module Catalog {

  /** The current extractor and the older one it replaced. */
  datatype Version = Current | Legacy

  /** One object-type descriptor: the plural name used in `show` statements
      and as a directory name, the two-digit order token that prefixes that
      directory, and whether the retrieved `create or replace` may be kept. */
  datatype ObjectType = ObjectType(name: string, order: string, createOrReplace: bool)

  predicate IsOrderToken(t: string) {
    |t| == 2 && '0' <= t[0] <= '9' && '0' <= t[1] <= '9'
  }

  function Rank(t: string): nat
    requires IsOrderToken(t)
  {
    (t[0] as int - '0' as int) * 10 + (t[1] as int - '0' as int)
  }

  /** The kinds whose definitions must not be replaced on replay. */
  predicate IsDowngraded(name: string) {
    name == "sequences" || name == "tables" || name == "pipes" || name == "streams"
  }

  predicate TokensValid(c: seq<ObjectType>) {
    forall i :: 0 <= i < |c| ==> IsOrderToken(c[i].order)
  }

  /** Order tokens never decrease; equal tokens keep declaration order. */
  predicate TokensOrdered(c: seq<ObjectType>)
    requires TokensValid(c)
  {
    forall i, j :: 0 <= i < j < |c| ==> Rank(c[i].order) <= Rank(c[j].order)
  }

  predicate NamesDistinct(c: seq<ObjectType>) {
    forall i, j :: 0 <= i < j < |c| ==> c[i].name != c[j].name
  }

  /** Each name is usable as a single directory segment. */
  predicate NamesAreSegments(c: seq<ObjectType>) {
    forall i :: 0 <= i < |c| ==> |c[i].name| > 0 && '/' !in c[i].name
  }

  predicate PolicyByKind(c: seq<ObjectType>) {
    forall i :: 0 <= i < |c| ==> (c[i].createOrReplace <==> !IsDowngraded(c[i].name))
  }

  /** What both catalogs guarantee. */
  predicate WellFormed(c: seq<ObjectType>) {
    TokensValid(c) && TokensOrdered(c) && NamesDistinct(c) && NamesAreSegments(c) && PolicyByKind(c)
  }

  const CURRENT_TABLE: seq<ObjectType> :=
    [ ObjectType("file formats", "01", true),
      ObjectType("masking policies", "01", true),
      ObjectType("row access policies", "01", true),
      ObjectType("tags", "01", true),
      ObjectType("sequences", "02", false),
      ObjectType("tables", "03", false),
      ObjectType("views", "04", true),
      ObjectType("pipes", "05", false),
      ObjectType("streams", "06", false),
      ObjectType("user functions", "07", true),
      ObjectType("procedures", "08", true),
      ObjectType("tasks", "09", true) ]

  const LEGACY_TABLE: seq<ObjectType> :=
    [ ObjectType("file formats", "01", true),
      ObjectType("sequences", "02", false),
      ObjectType("tables", "03", false),
      ObjectType("views", "04", true),
      ObjectType("pipes", "05", false),
      ObjectType("streams", "06", false),
      ObjectType("user functions", "07", true),
      ObjectType("procedures", "08", true),
      ObjectType("tasks", "09", true) ]

  lemma CurrentTokens()
    ensures TokensValid(CURRENT_TABLE)
    ensures forall i :: 0 <= i < |CURRENT_TABLE| ==> (CURRENT_TABLE[i].order == "01" <==> i < 4)
  {
  }

  /** Pairwise order follows from the order of neighbours. */
  lemma {:induction false} OrderedByNeighbours(c: seq<ObjectType>)
    requires TokensValid(c)
    requires forall i :: 0 <= i < |c| - 1 ==> Rank(c[i].order) <= Rank(c[i + 1].order)
    ensures TokensOrdered(c)
    decreases |c|
  {
    if |c| > 1 {
      var d := c[..|c| - 1];
      assert forall i :: 0 <= i < |d| ==> d[i] == c[i];
      OrderedByNeighbours(d);
      forall i, j | 0 <= i < j < |c|
        ensures Rank(c[i].order) <= Rank(c[j].order)
      {
        if j < |c| - 1 {
          assert d[i] == c[i] && d[j] == c[j];
        } else if i < j - 1 {
          assert d[i] == c[i] && d[j - 1] == c[j - 1];
        }
      }
    }
  }

  lemma CurrentOrdered()
    ensures TokensValid(CURRENT_TABLE) && TokensOrdered(CURRENT_TABLE)
    ensures forall i :: 0 <= i < |CURRENT_TABLE| ==> 1 <= Rank(CURRENT_TABLE[i].order) <= 9
  {
    CurrentTokens();
    OrderedByNeighbours(CURRENT_TABLE);
  }

  lemma CurrentDistinct()
    ensures NamesDistinct(CURRENT_TABLE)
  {
  }

  /** The names of both tables, one by one. */
  lemma KindNamesAreSegments()
    ensures '/' !in "file formats" && '/' !in "masking policies" && '/' !in "row access policies"
    ensures '/' !in "tags" && '/' !in "sequences" && '/' !in "tables" && '/' !in "views"
    ensures '/' !in "pipes" && '/' !in "streams" && '/' !in "user functions"
    ensures '/' !in "procedures" && '/' !in "tasks"
  {
  }

  lemma CurrentSegments()
    ensures NamesAreSegments(CURRENT_TABLE)
  {
    KindNamesAreSegments();
  }

  lemma CurrentPolicies()
    ensures PolicyByKind(CURRENT_TABLE)
  {
  }

  lemma LegacyTokens()
    ensures TokensValid(LEGACY_TABLE)
    ensures forall i :: 0 <= i < |LEGACY_TABLE| ==> Rank(LEGACY_TABLE[i].order) == i + 1
  {
  }

  lemma LegacyOrdered()
    ensures TokensValid(LEGACY_TABLE) && TokensOrdered(LEGACY_TABLE)
    ensures forall i :: 0 <= i < |LEGACY_TABLE| ==> Rank(LEGACY_TABLE[i].order) == i + 1
  {
    LegacyTokens();
    OrderedByNeighbours(LEGACY_TABLE);
  }

  lemma LegacyDistinct()
    ensures NamesDistinct(LEGACY_TABLE)
  {
  }

  lemma LegacySegments()
    ensures NamesAreSegments(LEGACY_TABLE)
  {
    KindNamesAreSegments();
  }

  lemma LegacyPolicies()
    ensures PolicyByKind(LEGACY_TABLE)
    ensures forall i :: 0 <= i < |LEGACY_TABLE| ==>
      LEGACY_TABLE[i].name != "tags" && LEGACY_TABLE[i].name != "masking policies"
      && LEGACY_TABLE[i].name != "row access policies"
  {
  }

  /** The descriptor table of the current extractor: twelve kinds, the four
      schema-level kinds (file formats, both policies, tags) sharing "01". */
  lemma CurrentCatalog()
    ensures |CURRENT_TABLE| == 12 && WellFormed(CURRENT_TABLE)
    ensures forall i :: 0 <= i < |CURRENT_TABLE| ==> (CURRENT_TABLE[i].order == "01" <==> i < 4)
    ensures forall i :: 0 <= i < |CURRENT_TABLE| ==> 1 <= Rank(CURRENT_TABLE[i].order) <= 9
    ensures CURRENT_TABLE[|CURRENT_TABLE| - 1].order == "09"
  {
    CurrentTokens();
    CurrentOrdered();
    CurrentDistinct();
    CurrentSegments();
    CurrentPolicies();
  }

  /** The descriptor table of the older extractor: no policies and no tags,
      one token per kind. */
  lemma LegacyCatalog()
    ensures |LEGACY_TABLE| == 9 && WellFormed(LEGACY_TABLE)
    ensures forall i :: 0 <= i < |LEGACY_TABLE| ==> Rank(LEGACY_TABLE[i].order) == i + 1
    ensures forall i :: 0 <= i < |LEGACY_TABLE| ==>
      LEGACY_TABLE[i].name != "tags" && LEGACY_TABLE[i].name != "masking policies"
      && LEGACY_TABLE[i].name != "row access policies"
  {
    LegacyTokens();
    LegacyOrdered();
    LegacyDistinct();
    LegacySegments();
    LegacyPolicies();
  }

  /** The descriptor table a version installs. */
  function ObjectTypes(v: Version): seq<ObjectType> {
    match v
    case Current => CURRENT_TABLE
    case Legacy => LEGACY_TABLE
  }

  lemma ObjectTypesWellFormed(v: Version)
    ensures WellFormed(ObjectTypes(v))
  {
    match v
    case Current => CurrentCatalog();
    case Legacy => LegacyCatalog();
  }

  /** The older table is the current one without its policies and tags. */
  lemma LegacyIsCurrentWithoutPoliciesAndTags()
    ensures LEGACY_TABLE == CURRENT_TABLE[..1] + CURRENT_TABLE[4..]
  {
  }
}
