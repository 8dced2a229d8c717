/** What one extraction run does, as a value: the saves it issues in order
    and the failure that ends it early, if any. Schemas are visited in
    scan-list order, types in catalog order, objects in listing order. */
module Plan {
  import opened Wrappers
  import opened Text
  import opened Catalog
  import opened Metadata
  import opened Schemas
  import opened Descriptor
  import opened Rewriter
  import opened Layout

  /** The saves issued so far and how the run ended. */
  datatype Run = Run(writes: seq<Write>, failure: Option<Failure>)

  /** `a` followed by `b`; nothing after an abort happens. */
  function Then(a: Run, b: Run): Run {
    if a.failure.Some? then a else Run(a.writes + b.writes, b.failure)
  }

  /** A loop: the steps for `xs`, in order, until one aborts. */
  function PlanSeq<T>(xs: seq<T>, step: T -> Run): Run
    decreases |xs|
  {
    if xs == [] then Run([], None) else Then(PlanSeq(xs[..|xs| - 1], step), step(xs[|xs| - 1]))
  }

  /** A loop over one element is that element's step. */
  lemma PlanSeqSingle<T>(x: T, step: T -> Run)
    ensures PlanSeq([x], step) == step(x)
  {
    assert [x][..0] == [];
    assert [] + step(x).writes == step(x).writes;
  }

  lemma ThenAssoc(a: Run, b: Run, c: Run)
    ensures Then(Then(a, b), c) == Then(a, Then(b, c))
  {
    if a.failure.None? && b.failure.None? {
      assert (a.writes + b.writes) + c.writes == a.writes + (b.writes + c.writes);
    }
  }

  /** Two loops over `a` and `b` in a row are one loop over `a + b`. */
  lemma {:induction false} PlanSeqConcat<T>(a: seq<T>, b: seq<T>, step: T -> Run)
    ensures PlanSeq(a + b, step) == Then(PlanSeq(a, step), PlanSeq(b, step))
    decreases |b|
  {
    if b == [] {
      assert a + b == a;
      assert PlanSeq(a, step).writes + [] == PlanSeq(a, step).writes;
    } else {
      var b' := b[..|b| - 1];
      assert (a + b)[..|a + b| - 1] == a + b';
      assert (a + b)[|a + b| - 1] == b[|b| - 1];
      PlanSeqConcat(a, b', step);
      ThenAssoc(PlanSeq(a, step), PlanSeq(b', step), step(b[|b| - 1]));
    }
  }

  /** A loop whose every step does nothing does nothing. */
  lemma {:induction false} PlanSeqSilent<T>(xs: seq<T>, step: T -> Run)
    requires forall i :: 0 <= i < |xs| ==> step(xs[i]) == Run([], None)
    ensures PlanSeq(xs, step) == Run([], None)
    decreases |xs|
  {
    if xs != [] {
      var init := xs[..|xs| - 1];
      assert forall i :: 0 <= i < |init| ==> init[i] == xs[i];
      PlanSeqSilent(init, step);
    }
  }

  /** One more iteration of the loop. */
  lemma PlanSeqStep<T>(xs: seq<T>, step: T -> Run, i: nat)
    requires i < |xs|
    ensures PlanSeq(xs[..i + 1], step) == Then(PlanSeq(xs[..i], step), step(xs[i]))
  {
    assert xs[..i + 1][..i] == xs[..i];
  }

  /** A loop that has not failed before iteration `i` and fails there ends
      with that failure, after the saves issued so far. */
  lemma {:induction false} PlanSeqAbort<T>(xs: seq<T>, step: T -> Run, i: nat)
    requires i < |xs|
    requires PlanSeq(xs[..i], step).failure.None? && step(xs[i]).failure.Some?
    ensures PlanSeq(xs, step) == Run(PlanSeq(xs[..i], step).writes + step(xs[i]).writes, step(xs[i]).failure)
    decreases |xs|
  {
    if i == |xs| - 1 {
      assert xs[..|xs| - 1] == xs[..i];
    } else {
      var init := xs[..|xs| - 1];
      assert init[..i] == xs[..i] && init[i] == xs[i];
      PlanSeqAbort(init, step, i);
    }
  }

  /** A loop iteration seen from the file map: after the saves of the
      iterations so far and those of iteration `i`, the map is that of one
      more iteration, or, when iteration `i` aborts, that of the whole loop. */
  lemma LoopAdvance<T>(base: map<string, string>, xs: seq<T>, step: T -> Run, i: nat, env: Env)
    requires i < |xs|
    requires PlanSeq(xs[..i], step).failure.None?
    ensures step(xs[i]).failure.None? ==>
      && PlanSeq(xs[..i + 1], step).failure.None?
      && ApplyAll(ApplyAll(base, PlanSeq(xs[..i], step).writes, env), step(xs[i]).writes, env)
         == ApplyAll(base, PlanSeq(xs[..i + 1], step).writes, env)
    ensures step(xs[i]).failure.Some? ==>
      && PlanSeq(xs, step).failure == step(xs[i]).failure
      && ApplyAll(ApplyAll(base, PlanSeq(xs[..i], step).writes, env), step(xs[i]).writes, env)
         == ApplyAll(base, PlanSeq(xs, step).writes, env)
  {
    PlanSeqStep(xs, step, i);
    ApplyAllConcat(base, PlanSeq(xs[..i], step).writes, step(xs[i]).writes, env);
    if step(xs[i]).failure.Some? {
      PlanSeqAbort(xs, step, i);
    }
  }

  /** When every step saves only under `root`, so does the loop. */
  lemma {:induction false} PlanSeqUnder<T>(xs: seq<T>, step: T -> Run, root: string)
    requires forall x :: x in xs ==> forall k :: 0 <= k < |step(x).writes| ==> Under(step(x).writes[k].path, root)
    ensures forall k :: 0 <= k < |PlanSeq(xs, step).writes| ==> Under(PlanSeq(xs, step).writes[k].path, root)
    decreases |xs|
  {
    if xs != [] {
      var init := xs[..|xs| - 1];
      assert forall x :: x in init ==> x in xs;
      PlanSeqUnder(init, step, root);
      assert xs[|xs| - 1] in xs;
    }
  }

  /** One listed object, in the order the extractor evaluates it: the
      built-in test (column 3 of procedures), the argument fragment
      (column 8 of procedures and user functions), the file path (column 1),
      then the save of its definition. */
  function ObjectRun(ctx: Context, root: string, schema: string, t: ObjectType, row: Row): (r: Run)
    ensures r.failure.Some? ==> r.writes == []
    ensures t.name == "procedures" && |row| > 3 && row[3] == "Y" ==> r == Run([], None)
    ensures r.failure.None? && r.writes != [] ==>
      |row| > 1 && IsEmitted(t.name, row) == Ok(true) && ArgFragment(t.name, row).Ok? &&
      r.writes == [Write(ObjectFile(root, schema, t, row[1]),
                         ObjectDdl(ctx, schema, TypeTerm(ctx.version, t.name), row[1],
                                   ArgFragment(t.name, row).value, t.createOrReplace))]
    ensures r.failure.None? && r.writes == [] ==> IsEmitted(t.name, row) == Ok(false)
    ensures r.failure.Some? <==>
      || IsEmitted(t.name, row).Err?
      || (IsEmitted(t.name, row) == Ok(true) && (ArgFragment(t.name, row).Err? || |row| <= 1))
  {
    match IsEmitted(t.name, row)
    case Err(e) => Run([], Some(e))
    case Ok(emitted) =>
      if !emitted then Run([], None)
      else
        match ArgFragment(t.name, row)
        case Err(e) => Run([], Some(e))
        case Ok(args) =>
          if |row| <= 1 then Run([], Some(IndexOutOfRange))
          else
            var payload := ObjectDdl(ctx, schema, TypeTerm(ctx.version, t.name), row[1], args, t.createOrReplace);
            Run([Write(ObjectFile(root, schema, t, row[1]), payload)], None)
  }

  function RowStep(ctx: Context, root: string, schema: string, t: ObjectType): Row -> Run {
    row => ObjectRun(ctx, root, schema, t, row)
  }

  /** The rows listed by the schema listing of the database. */
  function SchemaListing(ctx: Context): seq<Row> {
    ResultSet(ctx.listing(ShowStatement(ctx.database, "schemas", "")))
  }

  /** The rows listed for one type in one schema. */
  function TypeRows(ctx: Context, schema: string, t: ObjectType): seq<Row> {
    ResultSet(ctx.listing(ShowStatement(ctx.database, t.name, schema)))
  }

  /** One type of one schema: its objects in listing order. */
  function TypeRun(ctx: Context, root: string, schema: string, t: ObjectType): Run {
    PlanSeq(TypeRows(ctx, schema, t), RowStep(ctx, root, schema, t))
  }

  function TypeStep(ctx: Context, root: string, schema: string): ObjectType -> Run {
    t => TypeRun(ctx, root, schema, t)
  }

  /** One schema: its declarative script, then every catalog type in
      order. Reading columns 1, 6 and 8 of a short row aborts first. */
  function SchemaRun(ctx: Context, root: string, schema: Row): Run {
    if |schema| <= 8 then Run([], Some(IndexOutOfRange))
    else
      Then(Run([Write(SchemaFile(root, schema[1]), SchemaDdl(ctx.database, schema))], None),
           PlanSeq(ObjectTypes(ctx.version), TypeStep(ctx, root, schema[1])))
  }

  function SchemaStep(ctx: Context, root: string): Row -> Run {
    schema => SchemaRun(ctx, root, schema)
  }

  /** The whole run after the reset: the database script, then the
      schemas of the scan list in order. An empty root cannot be created. */
  function GenerateRun(ctx: Context, root: string, schemas: seq<Row>): Run {
    if root == "" then Run([], Some(OutputRootUnavailable))
    else
      Then(Run([Write(DatabaseFile(root, ctx.database), DatabaseDdl(ctx.database))], None),
           PlanSeq(schemas, SchemaStep(ctx, root)))
  }

  /** The file map after a run: the output tree is cleared, then every
      save of the run happens in order; with an empty root nothing changes. */
  function Outcome(files: map<string, string>, ctx: Context, root: string, schemas: seq<Row>, env: Env)
    : map<string, string>
  {
    if root == "" then files else ApplyAll(Cleared(files, root), GenerateRun(ctx, root, schemas).writes, env)
  }

  // ---- properties of a run ----

  /** A built-in procedure is never saved; a user-defined procedure whose
      declaration contains "RETURN" is saved, and so is every row of another
      kind with a name column and (for user functions) such a declaration. */
  lemma BuiltinProceduresSkipped(ctx: Context, root: string, schema: string, t: ObjectType, row: Row)
    ensures t.name == "procedures" && |row| > 3 && row[3] == "Y" ==> ObjectRun(ctx, root, schema, t, row).writes == []
    ensures t.name == "procedures" && |row| > 8 && row[3] != "Y" && Contains(row[8], "RETURN")
      ==> |ObjectRun(ctx, root, schema, t, row).writes| == 1
    ensures t.name != "procedures" && |row| > 1 && (t.name == "user functions" ==> |row| > 8 && Contains(row[8], "RETURN"))
      ==> |ObjectRun(ctx, root, schema, t, row).writes| == 1
  {
    if t.name == "procedures" && |row| > 8 && row[3] != "Y" && Contains(row[8], "RETURN") {
      assert IsEmitted(t.name, row) == Ok(true);
      assert ArgFragment(t.name, row).Ok?;
    }
    if t.name != "procedures" && |row| > 1 && (t.name == "user functions" ==> |row| > 8 && Contains(row[8], "RETURN")) {
      assert IsEmitted(t.name, row) == Ok(true);
      assert ArgFragment(t.name, row).Ok?;
    }
  }

  /** A failed listing (the placeholder row without columns) aborts the
      run with an index error, whatever the kind. */
  lemma FailedListingAborts(ctx: Context, root: string, schema: string, t: ObjectType)
    requires ctx.listing(ShowStatement(ctx.database, t.name, schema)).Failed?
    ensures TypeRun(ctx, root, schema, t) == Run([], Some(IndexOutOfRange))
  {
    var rows := TypeRows(ctx, schema, t);
    assert rows == [[]];
    assert rows[..|rows| - 1] == [];
    var empty: Row := [];
    assert ObjectRun(ctx, root, schema, t, empty) == Run([], Some(IndexOutOfRange)) by {
      if t.name != "procedures" {
        assert IsEmitted(t.name, empty) == Ok(true);
      }
    }
    var step := RowStep(ctx, root, schema, t);
    assert rows[0] == empty && step(empty) == ObjectRun(ctx, root, schema, t, empty);
    assert PlanSeq(rows, step) == Then(PlanSeq([], step), step(rows[0]));
  }

  /** A failed `GET_DDL` (or the "stage" term) saves nothing for that object. */
  lemma FailedDefinitionSavesNothing(ctx: Context, root: string, schema: string, t: ObjectType, row: Row, files: map<string, string>, env: Env)
    requires |row| > 1
    requires ctx.ddl(GetDdlStatement(NormaliseTerm(TypeTerm(ctx.version, t.name)), ctx.database, schema, row[1],
                     if ArgFragment(t.name, row).Ok? then ArgFragment(t.name, row).value else "")) == ""
    ensures ApplyAll(files, ObjectRun(ctx, root, schema, t, row).writes, env) == files
  {
    var r := ObjectRun(ctx, root, schema, t, row);
    if r.writes != [] {
      assert r.writes == [r.writes[0]];
      assert r.writes[..0] == [];
    }
  }

  /** Two saved rows with the same name in one type (overloads of a
      procedure or user function) share one file; the later one wins. */
  lemma OverloadsOverwrite(ctx: Context, root: string, schema: string, t: ObjectType, a: Row, b: Row,
                           files: map<string, string>, env: Env)
    requires |a| > 1 && |b| > 1 && a[1] == b[1]
    requires ObjectRun(ctx, root, schema, t, a).writes != [] && ObjectRun(ctx, root, schema, t, b).writes != []
    requires |ObjectRun(ctx, root, schema, t, b).writes[0].payload| > 0
    ensures ObjectRun(ctx, root, schema, t, a).writes[0].path == ObjectRun(ctx, root, schema, t, b).writes[0].path
    ensures var p := ObjectFile(root, schema, t, b[1]);
      var after := ApplyAll(files, ObjectRun(ctx, root, schema, t, a).writes + ObjectRun(ctx, root, schema, t, b).writes, env);
      p in after && after[p] == Artifact(ObjectRun(ctx, root, schema, t, b).writes[0].payload, env)
  {
    var ws := ObjectRun(ctx, root, schema, t, a).writes + ObjectRun(ctx, root, schema, t, b).writes;
    assert |ws| == 2 && ws[1] == ObjectRun(ctx, root, schema, t, b).writes[0];
    LastWriteWins(files, ws, env, ObjectFile(root, schema, t, b[1]), 1);
  }

  lemma ObjectRunUnder(ctx: Context, root: string, schema: string, t: ObjectType, row: Row)
    requires IsOrderToken(t.order)
    ensures forall k :: 0 <= k < |ObjectRun(ctx, root, schema, t, row).writes| ==>
      Under(ObjectRun(ctx, root, schema, t, row).writes[k].path, root)
  {
  }

  lemma TypeRunUnder(ctx: Context, root: string, schema: string, t: ObjectType)
    requires IsOrderToken(t.order)
    ensures forall k :: 0 <= k < |TypeRun(ctx, root, schema, t).writes| ==>
      Under(TypeRun(ctx, root, schema, t).writes[k].path, root)
  {
    var step := RowStep(ctx, root, schema, t);
    forall row | row in TypeRows(ctx, schema, t)
      ensures forall k :: 0 <= k < |step(row).writes| ==> Under(step(row).writes[k].path, root)
    {
      ObjectRunUnder(ctx, root, schema, t, row);
    }
    PlanSeqUnder(TypeRows(ctx, schema, t), step, root);
  }

  lemma SchemaRunUnder(ctx: Context, root: string, schema: Row)
    ensures forall k :: 0 <= k < |SchemaRun(ctx, root, schema).writes| ==>
      Under(SchemaRun(ctx, root, schema).writes[k].path, root)
  {
    if |schema| > 8 {
      var types := ObjectTypes(ctx.version);
      ObjectTypesWellFormed(ctx.version);
      var step := TypeStep(ctx, root, schema[1]);
      forall t | t in types
        ensures forall k :: 0 <= k < |step(t).writes| ==> Under(step(t).writes[k].path, root)
      {
        TypeRunUnder(ctx, root, schema[1], t);
      }
      PlanSeqUnder(types, step, root);
    }
  }

  /** Every save of a run lands inside the output root. */
  lemma GenerateRunUnder(ctx: Context, root: string, schemas: seq<Row>)
    ensures forall k :: 0 <= k < |GenerateRun(ctx, root, schemas).writes| ==>
      Under(GenerateRun(ctx, root, schemas).writes[k].path, root)
  {
    if root != "" {
      var step := SchemaStep(ctx, root);
      forall s | s in schemas
        ensures forall k :: 0 <= k < |step(s).writes| ==> Under(step(s).writes[k].path, root)
      {
        SchemaRunUnder(ctx, root, s);
      }
      PlanSeqUnder(schemas, step, root);
    }
  }

  /** Files outside the output root are never touched. */
  lemma OutsideRootUntouched(files: map<string, string>, ctx: Context, root: string, schemas: seq<Row>, env: Env, p: string)
    requires !Under(p, root)
    ensures p in Outcome(files, ctx, root, schemas, env) <==> p in files
    ensures p in files ==> Outcome(files, ctx, root, schemas, env)[p] == files[p]
  {
    if root != "" {
      GenerateRunUnder(ctx, root, schemas);
      var ws := GenerateRun(ctx, root, schemas).writes;
      ApplyAllFrame(Cleared(files, root), ws, env, p);
    }
  }

  /** Every file inside the output root after a run was saved by it: it
      starts with the preamble and holds a substituted, non-empty payload. */
  lemma InsideRootIsArtifact(files: map<string, string>, ctx: Context, root: string, schemas: seq<Row>, env: Env, p: string)
    requires root != "" && Under(p, root) && p in Outcome(files, ctx, root, schemas, env)
    ensures exists k ::
      && 0 <= k < |GenerateRun(ctx, root, schemas).writes|
      && Lands(GenerateRun(ctx, root, schemas).writes[k], p)
      && Outcome(files, ctx, root, schemas, env)[p] == Artifact(GenerateRun(ctx, root, schemas).writes[k].payload, env)
  {
    ApplyAllOrigin(Cleared(files, root), GenerateRun(ctx, root, schemas).writes, env, p);
  }

  /** Running the extractor twice with the same answers from the metadata
      source leaves the same files as running it once. */
  lemma OutcomeIdempotent(files: map<string, string>, ctx: Context, root: string, schemas: seq<Row>, env: Env)
    ensures Outcome(Outcome(files, ctx, root, schemas, env), ctx, root, schemas, env)
         == Outcome(files, ctx, root, schemas, env)
  {
    if root != "" {
      GenerateRunUnder(ctx, root, schemas);
      RerunIdempotent(files, GenerateRun(ctx, root, schemas).writes, root, env);
    }
  }

  /** The database script is always the first save of a run. */
  lemma DatabaseFileFirst(ctx: Context, root: string, schemas: seq<Row>)
    requires root != ""
    ensures GenerateRun(ctx, root, schemas).writes != []
    ensures GenerateRun(ctx, root, schemas).writes[0] ==
      Write(Dir(root) + "00_" + ctx.database + ".sql", "CREATE DATABASE IF NOT EXISTS \"" + ctx.database + "\";")
  {
  }
}
