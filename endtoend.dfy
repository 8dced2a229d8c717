/** A whole run of the current extractor over a small database: schema
    PUBLIC (listed beside the system schema) holding one table, one
    built-in and one user-defined procedure. */
module EndToEnd {
  import opened Wrappers
  import opened Text
  import opened Catalog
  import opened Metadata
  import opened Schemas
  import opened Descriptor
  import opened Rewriter
  import opened Layout
  import opened Plan
  import Extractor

  /** The schema listing of the database: PUBLIC, then the system schema. */
  ghost predicate PublicSchemaListing(ctx: Context, schema: Row, system: Row) {
    && |schema| > 8 && schema[1] == "PUBLIC"
    && |system| > 1 && system[1] == SYSTEM_SCHEMA
    && ctx.listing(ShowStatement(ctx.database, "schemas", "")) == Rows([schema, system])
  }

  /** The listings of schema PUBLIC: one table, the two procedures, nothing
      of any other object kind. */
  ghost predicate PublicListings(ctx: Context, table: Row, builtin: Row, proc: Row) {
    && ctx.listing(ShowStatement(ctx.database, "tables", "PUBLIC")) == Rows([table])
    && ctx.listing(ShowStatement(ctx.database, "procedures", "PUBLIC")) == Rows([builtin, proc])
    && forall kind :: kind != "tables" && kind != "procedures" && kind != "schemas" ==>
      ctx.listing(ShowStatement(ctx.database, kind, "PUBLIC")) == Rows([])
  }

  /** A filter that selects PUBLIC scans PUBLIC alone. */
  lemma PublicScan(ctx: Context, schema: Row, system: Row, filter: seq<string>)
    requires PublicSchemaListing(ctx, schema, system)
    requires Selected("PUBLIC", filter)
    ensures Named(SchemaListing(ctx))
    ensures ScanList(SchemaListing(ctx), filter) == [schema]
  {
    var rows := SchemaListing(ctx);
    assert rows == [schema, system];
    assert rows[..1] == [schema] && [schema][..0] == [];
  }

  /** The save of one saved object of the scenario. */
  function ObjectWrite(ctx: Context, root: string, t: ObjectType, row: Row): Write
    requires |row| > 1 && ArgFragment(t.name, row).Ok?
  {
    Write(ObjectFile(root, "PUBLIC", t, row[1]),
          ObjectDdl(ctx, "PUBLIC", TypeTerm(ctx.version, t.name), row[1], ArgFragment(t.name, row).value, t.createOrReplace))
  }

  lemma EmptyTypeRun(ctx: Context, root: string, t: ObjectType)
    requires ctx.listing(ShowStatement(ctx.database, t.name, "PUBLIC")) == Rows([])
    ensures TypeRun(ctx, root, "PUBLIC", t) == Run([], None)
  {
  }

  /** A listing of one row, or of a skipped row and then one row, runs as
      that one row. */
  lemma LastRowRun(ctx: Context, root: string, t: ObjectType, skipped: seq<Row>, row: Row)
    requires |skipped| <= 1
    requires forall x :: x in skipped ==> ObjectRun(ctx, root, "PUBLIC", t, x) == Run([], None)
    requires ctx.listing(ShowStatement(ctx.database, t.name, "PUBLIC")) == Rows(skipped + [row])
    ensures TypeRun(ctx, root, "PUBLIC", t) == ObjectRun(ctx, root, "PUBLIC", t, row)
  {
    var step := RowStep(ctx, root, "PUBLIC", t);
    var rows := skipped + [row];
    assert rows[..|rows| - 1] == skipped;
    assert PlanSeq(skipped, step) == Run([], None) by {
      if skipped != [] {
        assert skipped[..0] == [];
        assert skipped[0] in skipped;
      }
    }
    var r := ObjectRun(ctx, root, "PUBLIC", t, row);
    assert [] + r.writes == r.writes;
  }

  lemma SavedRow(ctx: Context, root: string, t: ObjectType, row: Row)
    requires |row| > 1 && IsEmitted(t.name, row) == Ok(true) && ArgFragment(t.name, row).Ok?
    ensures ObjectRun(ctx, root, "PUBLIC", t, row) == Run([ObjectWrite(ctx, root, t, row)], None)
  {
  }

  lemma TablesRun(ctx: Context, root: string, t: ObjectType, table: Row)
    requires t.name == "tables" && |table| > 1
    requires ctx.listing(ShowStatement(ctx.database, t.name, "PUBLIC")) == Rows([table])
    ensures TypeRun(ctx, root, "PUBLIC", t) == Run([ObjectWrite(ctx, root, t, table)], None)
  {
    assert [] + [table] == [table];
    LastRowRun(ctx, root, t, [], table);
    SavedRow(ctx, root, t, table);
  }

  lemma ProceduresRun(ctx: Context, root: string, t: ObjectType, builtin: Row, proc: Row)
    requires t.name == "procedures"
    requires |builtin| > 3 && builtin[3] == "Y"
    requires |proc| > 8 && proc[3] != "Y" && Contains(proc[8], "RETURN")
    requires ctx.listing(ShowStatement(ctx.database, t.name, "PUBLIC")) == Rows([builtin, proc])
    ensures ArgFragment("procedures", proc).Ok?
    ensures TypeRun(ctx, root, "PUBLIC", t) == Run([ObjectWrite(ctx, root, t, proc)], None)
  {
    assert [builtin] + [proc] == [builtin, proc];
    LastRowRun(ctx, root, t, [builtin], proc);
    SavedRow(ctx, root, t, proc);
  }

  /** Any catalog made of silent kinds around one kind of tables and,
      later, one kind of procedures. */
  lemma CatalogRun(ctx: Context, root: string, a: seq<ObjectType>, tt: ObjectType, b: seq<ObjectType>,
                   pt: ObjectType, c: seq<ObjectType>, tw: Write, pw: Write)
    requires forall t :: t in a || t in b || t in c ==>
      ctx.listing(ShowStatement(ctx.database, t.name, "PUBLIC")) == Rows([])
    requires TypeRun(ctx, root, "PUBLIC", tt) == Run([tw], None)
    requires TypeRun(ctx, root, "PUBLIC", pt) == Run([pw], None)
    ensures PlanSeq(a + [tt] + b + [pt] + c, TypeStep(ctx, root, "PUBLIC")) == Run([tw, pw], None)
  {
    var step := TypeStep(ctx, root, "PUBLIC");
    forall i | 0 <= i < |a| ensures step(a[i]) == Run([], None) {
      assert a[i] in a;
      EmptyTypeRun(ctx, root, a[i]);
    }
    forall i | 0 <= i < |b| ensures step(b[i]) == Run([], None) {
      assert b[i] in b;
      EmptyTypeRun(ctx, root, b[i]);
    }
    forall i | 0 <= i < |c| ensures step(c[i]) == Run([], None) {
      assert c[i] in c;
      EmptyTypeRun(ctx, root, c[i]);
    }
    PlanSeqSilent(a, step);
    PlanSeqSilent(b, step);
    PlanSeqSilent(c, step);
    assert PlanSeq([tt], step) == Run([tw], None) by {
      assert [tt][..0] == [];
    }
    assert PlanSeq([pt], step) == Run([pw], None) by {
      assert [pt][..0] == [];
    }
    PlanSeqConcat(a, [tt], step);
    PlanSeqConcat(a + [tt], b, step);
    PlanSeqConcat(a + [tt] + b, [pt], step);
    PlanSeqConcat(a + [tt] + b + [pt], c, step);
    assert [] + [tw] + [] + [pw] + [] == [tw, pw];
  }

  /** The entries of the current catalog for tables and procedures. */
  const TABLES := ObjectType("tables", "03", false)
  const PROCEDURES := ObjectType("procedures", "08", true)

  /** The current catalog around its tables and procedures. */
  lemma CurrentSplit()
    ensures CURRENT_TABLE == CURRENT_TABLE[..5] + [TABLES] + CURRENT_TABLE[6..10] + [PROCEDURES] + CURRENT_TABLE[11..]
  {
    assert CURRENT_TABLE[5] == TABLES && CURRENT_TABLE[10] == PROCEDURES;
  }

  lemma CurrentSilentKinds(t: ObjectType)
    requires t in CURRENT_TABLE[..5] || t in CURRENT_TABLE[6..10] || t in CURRENT_TABLE[11..]
    ensures t in CURRENT_TABLE && t.name != "tables" && t.name != "procedures" && t.name != "schemas"
  {
  }

  /** The types of PUBLIC yield the table file, then the procedure file. */
  lemma PublicTypes(ctx: Context, root: string, table: Row, builtin: Row, proc: Row)
    requires ctx.version == Current && PublicListings(ctx, table, builtin, proc)
    requires |table| > 1
    requires |builtin| > 3 && builtin[3] == "Y"
    requires |proc| > 8 && proc[3] != "Y" && Contains(proc[8], "RETURN")
    ensures ArgFragment("procedures", proc).Ok?
    ensures PlanSeq(ObjectTypes(ctx.version), TypeStep(ctx, root, "PUBLIC")) ==
      Run([ObjectWrite(ctx, root, TABLES, table), ObjectWrite(ctx, root, PROCEDURES, proc)], None)
  {
    CurrentSplit();
    var tt, pt := TABLES, PROCEDURES;
    assert tt in CURRENT_TABLE && pt in CURRENT_TABLE;
    TablesRun(ctx, root, tt, table);
    ProceduresRun(ctx, root, pt, builtin, proc);
    forall t | t in CURRENT_TABLE[..5] || t in CURRENT_TABLE[6..10] || t in CURRENT_TABLE[11..]
      ensures ctx.listing(ShowStatement(ctx.database, t.name, "PUBLIC")) == Rows([])
    {
      CurrentSilentKinds(t);
    }
    CatalogRun(ctx, root, CURRENT_TABLE[..5], tt, CURRENT_TABLE[6..10], pt, CURRENT_TABLE[11..],
               ObjectWrite(ctx, root, tt, table), ObjectWrite(ctx, root, pt, proc));
  }

  /** A schema whose catalog types run as `tw`, `pw` saves its script, then those. */
  lemma PublicSchemaRun(ctx: Context, root: string, schema: Row, sw: Write, tw: Write, pw: Write)
    requires |schema| > 8 && sw == Write(SchemaFile(root, schema[1]), SchemaDdl(ctx.database, schema))
    requires PlanSeq(ObjectTypes(ctx.version), TypeStep(ctx, root, schema[1])) == Run([tw, pw], None)
    ensures SchemaRun(ctx, root, schema) == Run([sw, tw, pw], None)
  {
    assert [sw] + [tw, pw] == [sw, tw, pw];
  }

  /** A scan list of one schema whose own run writes `ws`. */
  lemma OneSchemaRun(ctx: Context, root: string, schema: Row, ws: seq<Write>)
    requires root != ""
    requires SchemaStep(ctx, root)(schema) == Run(ws, None)
    ensures GenerateRun(ctx, root, [schema]) ==
      Run([Write(DatabaseFile(root, ctx.database), DatabaseDdl(ctx.database))] + ws, None)
  {
    PlanSeqSingle(schema, SchemaStep(ctx, root));
  }

  lemma Prepend<T>(a: T, b: T, c: T, d: T)
    ensures [a] + [b, c, d] == [a, b, c, d]
  {
  }

  /** The run over the scanned schemas issues four saves — database,
      schema, table and user-defined procedure — and none for the built-in
      procedure. */
  lemma PublicScenario(ctx: Context, root: string, filter: seq<string>, schema: Row, system: Row,
                       table: Row, builtin: Row, proc: Row)
    requires ctx.version == Current && root != ""
    requires PublicSchemaListing(ctx, schema, system) && Selected("PUBLIC", filter)
    requires PublicListings(ctx, table, builtin, proc)
    requires |table| > 1
    requires |builtin| > 3 && builtin[3] == "Y"
    requires |proc| > 8 && proc[3] != "Y" && Contains(proc[8], "RETURN")
    ensures ArgFragment("procedures", proc).Ok?
    ensures Named(SchemaListing(ctx))
    ensures GenerateRun(ctx, root, ScanList(SchemaListing(ctx), filter)) == Run(
      [ Write(DatabaseFile(root, ctx.database), DatabaseDdl(ctx.database)),
        Write(SchemaFile(root, "PUBLIC"), SchemaDdl(ctx.database, schema)),
        ObjectWrite(ctx, root, TABLES, table),
        ObjectWrite(ctx, root, PROCEDURES, proc) ], None)
  {
    PublicScan(ctx, schema, system, filter);
    PublicTypes(ctx, root, table, builtin, proc);
    var sw := Write(SchemaFile(root, "PUBLIC"), SchemaDdl(ctx.database, schema));
    var tw, pw := ObjectWrite(ctx, root, TABLES, table), ObjectWrite(ctx, root, PROCEDURES, proc);
    PublicSchemaRun(ctx, root, schema, sw, tw, pw);
    OneSchemaRun(ctx, root, schema, [sw, tw, pw]);
    Prepend(Write(DatabaseFile(root, ctx.database), DatabaseDdl(ctx.database)), sw, tw, pw);
  }

  /** The four files of the scenario are four different paths. */
  lemma PublicPathsDistinct(root: string, database: string, table: string, proc: string)
    ensures DatabaseFile(root, database) != SchemaFile(root, "PUBLIC")
    ensures DatabaseFile(root, database) != ObjectFile(root, "PUBLIC", TABLES, table)
    ensures DatabaseFile(root, database) != ObjectFile(root, "PUBLIC", PROCEDURES, proc)
    ensures SchemaFile(root, "PUBLIC") != ObjectFile(root, "PUBLIC", TABLES, table)
    ensures SchemaFile(root, "PUBLIC") != ObjectFile(root, "PUBLIC", PROCEDURES, proc)
    ensures ObjectFile(root, "PUBLIC", TABLES, table) != ObjectFile(root, "PUBLIC", PROCEDURES, proc)
  {
    var n := |Dir(root)|;
    assert DatabaseFile(root, database)[n + 1] == '0';
    assert SchemaFile(root, "PUBLIC")[n + 1] == '1';
    assert SchemaFile(root, "PUBLIC")[n + 11] == '0';
    assert ObjectFile(root, "PUBLIC", TABLES, table)[n + 1] == '1';
    assert ObjectFile(root, "PUBLIC", TABLES, table)[n + 11] == '3';
    assert ObjectFile(root, "PUBLIC", PROCEDURES, proc)[n + 1] == '1';
    assert ObjectFile(root, "PUBLIC", PROCEDURES, proc)[n + 11] == '8';
  }

  /** A table or procedure definition that comes back non-empty is saved
      non-empty. */
  lemma PublicPayloads(ctx: Context, root: string, table: Row, proc: Row)
    requires ctx.version == Current
    requires |table| > 1 && ctx.ddl(GetDdlStatement("table", ctx.database, "PUBLIC", table[1], "")) != ""
    requires |proc| > 8 && Contains(proc[8], "RETURN")
    requires ctx.ddl(GetDdlStatement("procedure", ctx.database, "PUBLIC", proc[1], ArgFragment("procedures", proc).value)) != ""
    ensures |ObjectWrite(ctx, root, TABLES, table).payload| > 0
    ensures |ObjectWrite(ctx, root, PROCEDURES, proc).payload| > 0
  {
    PlainTerm("tables", "table");
    PlainTerm("procedures", "procedure");
  }

  /** Being one of four saves' paths, said without a quantifier. */
  lemma FourPaths(ws: seq<Write>, out: map<string, string>, root: string)
    requires |ws| == 4
    requires forall p :: Under(p, root) ==> (p in out <==> exists k :: 0 <= k < |ws| && ws[k].path == p)
    ensures forall p :: Under(p, root) ==>
      (p in out <==> p == ws[0].path || p == ws[1].path || p == ws[2].path || p == ws[3].path)
  {
    forall p | Under(p, root)
      ensures p in out <==> p == ws[0].path || p == ws[1].path || p == ws[2].path || p == ws[3].path
    {
      if p == ws[0].path { assert ws[0].path == p; }
      else if p == ws[1].path { assert ws[1].path == p; }
      else if p == ws[2].path { assert ws[2].path == p; }
      else if p == ws[3].path { assert ws[3].path == p; }
    }
  }

  /** Four non-empty saves to different paths under a cleared root leave
      exactly those four files there. */
  lemma FourFiles(files: map<string, string>, root: string, env: Env, ws: seq<Write>)
    requires |ws| == 4
    requires Under(ws[0].path, root) && Under(ws[1].path, root) && Under(ws[2].path, root) && Under(ws[3].path, root)
    requires |ws[0].payload| > 0 && |ws[1].payload| > 0 && |ws[2].payload| > 0 && |ws[3].payload| > 0
    requires ws[0].path != ws[1].path && ws[0].path != ws[2].path && ws[0].path != ws[3].path
    requires ws[1].path != ws[2].path && ws[1].path != ws[3].path && ws[2].path != ws[3].path
    ensures forall p :: Under(p, root) ==>
      (p in ApplyAll(Cleared(files, root), ws, env) <==>
         p == ws[0].path || p == ws[1].path || p == ws[2].path || p == ws[3].path)
    ensures forall k :: 0 <= k < 4 ==>
      Holds(ApplyAll(Cleared(files, root), ws, env), ws[k].path, Artifact(ws[k].payload, env))
  {
    FreshTree(files, ws, root, env);
    FourPaths(ws, ApplyAll(Cleared(files, root), ws, env), root);
  }

  /** The file map holds `content` at `p`. */
  predicate Holds(out: map<string, string>, p: string, content: string) {
    p in out && out[p] == content
  }

  /** The saves of the scenario, in order. */
  function PublicWrites(ctx: Context, root: string, schema: Row, table: Row, proc: Row): seq<Write>
    requires |schema| > 8 && |table| > 1 && |proc| > 1 && ArgFragment("procedures", proc).Ok?
  {
    [ Write(DatabaseFile(root, ctx.database), DatabaseDdl(ctx.database)),
      Write(SchemaFile(root, "PUBLIC"), SchemaDdl(ctx.database, schema)),
      ObjectWrite(ctx, root, TABLES, table),
      ObjectWrite(ctx, root, PROCEDURES, proc) ]
  }

  /** The scenario's file map is the cleared map after its four saves. */
  lemma PublicOutcome(ctx: Context, root: string, filter: seq<string>, schema: Row, system: Row,
                      table: Row, builtin: Row, proc: Row, files: map<string, string>, env: Env)
    requires ctx.version == Current && root != ""
    requires PublicSchemaListing(ctx, schema, system) && Selected("PUBLIC", filter)
    requires PublicListings(ctx, table, builtin, proc)
    requires |table| > 1
    requires |builtin| > 3 && builtin[3] == "Y"
    requires |proc| > 8 && proc[3] != "Y" && Contains(proc[8], "RETURN")
    ensures ArgFragment("procedures", proc).Ok?
    ensures Named(SchemaListing(ctx))
    ensures Outcome(files, ctx, root, ScanList(SchemaListing(ctx), filter), env) ==
      ApplyAll(Cleared(files, root), PublicWrites(ctx, root, schema, table, proc), env)
  {
    PublicScenario(ctx, root, filter, schema, system, table, builtin, proc);
  }

  /** On disk, the scenario leaves exactly four files under the root —
      database, schema, table and user procedure, each holding its script —
      when the two definitions come back non-empty. */
  lemma PublicFiles(ctx: Context, root: string, filter: seq<string>, schema: Row, system: Row,
                    table: Row, builtin: Row, proc: Row, files: map<string, string>, env: Env)
    requires ctx.version == Current && root != ""
    requires PublicSchemaListing(ctx, schema, system) && Selected("PUBLIC", filter)
    requires PublicListings(ctx, table, builtin, proc)
    requires |table| > 1
    requires |builtin| > 3 && builtin[3] == "Y"
    requires |proc| > 8 && proc[3] != "Y" && Contains(proc[8], "RETURN")
    requires ctx.ddl(GetDdlStatement("table", ctx.database, "PUBLIC", table[1], "")) != ""
    requires ctx.ddl(GetDdlStatement("procedure", ctx.database, "PUBLIC", proc[1], ArgFragment("procedures", proc).value)) != ""
    ensures Named(SchemaListing(ctx))
    ensures forall p :: Under(p, root) ==>
      (p in Outcome(files, ctx, root, ScanList(SchemaListing(ctx), filter), env) <==>
        || p == DatabaseFile(root, ctx.database)
        || p == SchemaFile(root, "PUBLIC")
        || p == ObjectFile(root, "PUBLIC", TABLES, table[1])
        || p == ObjectFile(root, "PUBLIC", PROCEDURES, proc[1]))
    ensures var out, ws := Outcome(files, ctx, root, ScanList(SchemaListing(ctx), filter), env),
                           PublicWrites(ctx, root, schema, table, proc);
      && Holds(out, DatabaseFile(root, ctx.database), Artifact(DatabaseDdl(ctx.database), env))
      && Holds(out, SchemaFile(root, "PUBLIC"), Artifact(SchemaDdl(ctx.database, schema), env))
      && Holds(out, ObjectFile(root, "PUBLIC", TABLES, table[1]), Artifact(ws[2].payload, env))
      && Holds(out, ObjectFile(root, "PUBLIC", PROCEDURES, proc[1]), Artifact(ws[3].payload, env))
  {
    PublicOutcome(ctx, root, filter, schema, system, table, builtin, proc, files, env);
    PublicPayloads(ctx, root, table, proc);
    PublicPathsDistinct(root, ctx.database, table[1], proc[1]);
    assert IsOrderToken(TABLES.order) && IsOrderToken(PROCEDURES.order);
    FourFiles(files, root, env, PublicWrites(ctx, root, schema, table, proc));
  }

  /** An extractor built on `ctx` whose schema scan succeeds, then run:
      it fails as the plan over its scan list does and leaves that plan's
      outcome. */
  method Extraction(ctx: Context, filter: seq<string>, fs: FileSystem, root: string, env: Env)
      returns (failure: Option<Failure>)
    requires Named(SchemaListing(ctx))
    modifies fs
    ensures failure == GenerateRun(ctx, root, ScanList(SchemaListing(ctx), filter)).failure
    ensures fs.files == Outcome(old(fs.files), ctx, root, ScanList(SchemaListing(ctx), filter), env)
  {
    var extractor := new Extractor.Extractor(ctx.version, ctx.database, ctx.listing, ctx.ddl, fs, filter);
    assert extractor.Ctx() == ctx && extractor.SchemaRows() == SchemaListing(ctx);
    failure := extractor.GenerateDbDdlScripts(root, env);
  }

  /** The extractor itself, built on the scenario's database and run: it
      does not fail and leaves the four scripts as the only files under the
      root, each holding its artifact. */
  method PublicExtraction(ctx: Context, root: string, filter: seq<string>, schema: Row, system: Row,
                          table: Row, builtin: Row, proc: Row, fs: FileSystem, env: Env)
      returns (failure: Option<Failure>)
    requires ctx.version == Current && root != ""
    requires PublicSchemaListing(ctx, schema, system) && Selected("PUBLIC", filter)
    requires PublicListings(ctx, table, builtin, proc)
    requires |table| > 1
    requires |builtin| > 3 && builtin[3] == "Y"
    requires |proc| > 8 && proc[3] != "Y" && Contains(proc[8], "RETURN")
    requires ctx.ddl(GetDdlStatement("table", ctx.database, "PUBLIC", table[1], "")) != ""
    requires ctx.ddl(GetDdlStatement("procedure", ctx.database, "PUBLIC", proc[1], ArgFragment("procedures", proc).value)) != ""
    modifies fs
    ensures failure.None?
    ensures forall p :: Under(p, root) ==>
      (p in fs.files <==>
        || p == DatabaseFile(root, ctx.database)
        || p == SchemaFile(root, "PUBLIC")
        || p == ObjectFile(root, "PUBLIC", TABLES, table[1])
        || p == ObjectFile(root, "PUBLIC", PROCEDURES, proc[1]))
    ensures var ws := PublicWrites(ctx, root, schema, table, proc);
      && Holds(fs.files, DatabaseFile(root, ctx.database), Artifact(DatabaseDdl(ctx.database), env))
      && Holds(fs.files, SchemaFile(root, "PUBLIC"), Artifact(SchemaDdl(ctx.database, schema), env))
      && Holds(fs.files, ObjectFile(root, "PUBLIC", TABLES, table[1]), Artifact(ws[2].payload, env))
      && Holds(fs.files, ObjectFile(root, "PUBLIC", PROCEDURES, proc[1]), Artifact(ws[3].payload, env))
  {
    PublicScenario(ctx, root, filter, schema, system, table, builtin, proc);
    ghost var before := fs.files;
    PublicFiles(ctx, root, filter, schema, system, table, builtin, proc, before, env);
    failure := Extraction(ctx, filter, fs, root, env);
  }
}
