/** The extractor object: the database it scans, the answers of the
    metadata source, the scan list it fills in a loop, and the nested loops
    that write the script tree. */
module Extractor {
  import opened Wrappers
  import opened Text
  import opened Catalog
  import opened Metadata
  import opened Schemas
  import opened Descriptor
  import opened Rewriter
  import opened Layout
  import opened Plan

  class Extractor {
    const version: Version
    const databaseName: string
    /** The metadata source: the rows a `show` statement lists and the
        text a `GET_DDL` statement returns ("" when it failed). */
    const listing: string -> Listing
    const ddl: string -> string
    /** The object-type catalog of this version. */
    const objectTypes: seq<ObjectType> := ObjectTypes(version)
    /** Where the scripts go. */
    const fs: FileSystem
    /** The schema rows to extract, in listing order. */
    var schemasToScan: seq<Row>
    /** The exception the schema scan of the constructor raised, if any;
        an extractor whose scan failed would not exist. */
    var scanFailure: Option<Failure>

    function Ctx(): Context {
      Context(version, databaseName, listing, ddl)
    }

    /** The rows listed by the schema listing of the database. */
    function SchemaRows(): seq<Row> {
      ResultSet(listing(ShowStatement(databaseName, "schemas", "")))
    }

    /** Sets the database, scans its schemas with `filter` and installs
        the catalog of `version`. */
    constructor (version: Version, databaseName: string, listing: string -> Listing, ddl: string -> string,
                 fs: FileSystem, filter: seq<string>)
      ensures this.version == version && this.databaseName == databaseName
      ensures this.listing == listing && this.ddl == ddl && this.fs == fs
      ensures objectTypes == ObjectTypes(version)
      ensures scanFailure.None? <==> Named(SchemaRows())
      ensures scanFailure.None? ==> schemasToScan == ScanList(SchemaRows(), filter)
    {
      this.version := version;
      this.databaseName := databaseName;
      this.listing := listing;
      this.ddl := ddl;
      this.fs := fs;
      new;
      scanFailure := SetSchemasToScan(filter);
    }

    /** Lists a type of objects (or, for "schemas", the schemas of the
        database); a failed statement yields the placeholder row. */
    method GetDatabaseObjectsByType(typeWord: string, schema: string) returns (rows: seq<Row>)
      ensures listing(ShowStatement(databaseName, typeWord, schema)).Rows? ==>
        rows == listing(ShowStatement(databaseName, typeWord, schema)).rows
      ensures listing(ShowStatement(databaseName, typeWord, schema)).Failed? ==> rows == [[]]
    {
      var statement := ShowStatement(databaseName, typeWord, schema);
      rows := ResultSet(listing(statement));
    }

    /** Rebuilds the scan list from the schema listing, in listing order.
        A row without a name column raises, leaving the rows kept so far. */
    method SetSchemasToScan(filter: seq<string>) returns (failure: Option<Failure>)
      modifies this
      ensures unchanged(fs) && scanFailure == old(scanFailure)
      ensures failure.None? <==> Named(SchemaRows())
      ensures failure.None? ==> schemasToScan == ScanList(SchemaRows(), filter)
      ensures failure.Some? ==> failure.value == IndexOutOfRange && exists i ::
        && 0 <= i < |SchemaRows()|
        && |SchemaRows()[i]| <= 1
        && Named(SchemaRows()[..i])
        && schemasToScan == ScanList(SchemaRows()[..i], filter)
    {
      schemasToScan := [];
      var rows := GetDatabaseObjectsByType("schemas", "");
      assert rows == SchemaRows();
      assert rows[..0] == [];
      var i := 0;
      while i < |rows| && |rows[i]| > 1
        invariant 0 <= i <= |rows|
        invariant Named(rows[..i])
        invariant schemasToScan == ScanList(rows[..i], filter)
        invariant scanFailure == old(scanFailure)
      {
        var row := rows[i];
        ScanListOfPrefix(rows, filter, i);
        if Selected(row[1], filter) {
          schemasToScan := schemasToScan + [row];
        }
        i := i + 1;
      }
      if i < |rows| {
        ScanAborts(rows, i);
        assert |rows[i]| <= 1 && Named(rows[..i]) && schemasToScan == ScanList(rows[..i], filter);
        return Some(IndexOutOfRange);
      }
      assert rows[..i] == rows;
      return None;
    }

    /** Removes the output tree and creates its root again; the empty path
        cannot be created. */
    method EmptyOutputFolder(root: string) returns (failure: Option<Failure>)
      modifies fs
      ensures failure.Some? <==> root == ""
      ensures failure.Some? ==> failure.value == OutputRootUnavailable && fs.files == old(fs.files)
      ensures failure.None? ==> fs.files == Cleared(old(fs.files), root)
    {
      if root == "" {
        return Some(OutputRootUnavailable);
      }
      fs.files := Cleared(fs.files, root);
      return None;
    }

    /** Saves one script; nothing is written for an empty payload. */
    method SaveDdlScript(path: string, payload: string, env: Env)
      modifies fs
      ensures fs.files == Save(old(fs.files), Write(path, payload), env)
    {
      if |payload| > 0 {
        fs.files := fs.files[path := Artifact(payload, env)];
      }
    }

    /** The definition of one object: no query for the "stage" term in the
        current version; otherwise `GET_DDL`, downgraded to
        `create ... if not exists` when the kind may not be replaced. */
    method GetObjectDdl(schema: string, term: string, name: string, args: string, createOrReplace: bool)
      returns (text: string)
      ensures text == ObjectDdl(Ctx(), schema, term, name, args, createOrReplace)
    {
      var kind := NormaliseTerm(term);
      text := "";
      if version == Legacy || kind != "stage" {
        text := ddl(GetDdlStatement(kind, databaseName, schema, name, args));
        if !createOrReplace {
          text := ReplaceFirst(text, CreateOrReplaceClause(term), IfNotExistsClause(term));
        }
      }
    }

    /** One listed object, in the order the extractor evaluates it. */
    method ExtractObject(root: string, schema: string, t: ObjectType, row: Row, env: Env)
      returns (failure: Option<Failure>)
      modifies fs
      ensures failure == ObjectRun(Ctx(), root, schema, t, row).failure
      ensures fs.files == ApplyAll(old(fs.files), ObjectRun(Ctx(), root, schema, t, row).writes, env)
    {
      var emitted := IsEmitted(t.name, row);
      if emitted.Err? {
        return Some(emitted.error);
      }
      if emitted.value {
        var args := ArgFragment(t.name, row);
        if args.Err? {
          return Some(args.error);
        }
        if |row| <= 1 {
          return Some(IndexOutOfRange);
        }
        var text := GetObjectDdl(schema, TypeTerm(version, t.name), row[1], args.value, t.createOrReplace);
        SaveDdlScript(ObjectFile(root, schema, t, row[1]), text, env);
        ApplyAllSnoc(old(fs.files), [], Write(ObjectFile(root, schema, t, row[1]), text), env);
      }
      return None;
    }

    /** The innermost loop: every listed object of one type in one schema. */
    method ExtractObjects(root: string, schema: string, t: ObjectType, env: Env) returns (failure: Option<Failure>)
      modifies fs
      ensures failure == TypeRun(Ctx(), root, schema, t).failure
      ensures fs.files == ApplyAll(old(fs.files), TypeRun(Ctx(), root, schema, t).writes, env)
    {
      var objects := GetDatabaseObjectsByType(t.name, schema);
      assert objects == TypeRows(Ctx(), schema, t);
      ghost var step := RowStep(Ctx(), root, schema, t);
      var i := 0;
      while i < |objects|
        invariant 0 <= i <= |objects|
        invariant PlanSeq(objects[..i], step).failure.None?
        invariant fs.files == ApplyAll(old(fs.files), PlanSeq(objects[..i], step).writes, env)
      {
        LoopAdvance(old(fs.files), objects, step, i, env);
        var f := ExtractObject(root, schema, t, objects[i], env);
        if f.Some? {
          return f;
        }
        i := i + 1;
      }
      assert objects[..i] == objects;
      return None;
    }

    /** The middle loop: every catalog type of one schema, in order. */
    method ExtractTypes(root: string, schema: string, env: Env) returns (failure: Option<Failure>)
      modifies fs
      ensures failure == PlanSeq(objectTypes, TypeStep(Ctx(), root, schema)).failure
      ensures fs.files == ApplyAll(old(fs.files), PlanSeq(objectTypes, TypeStep(Ctx(), root, schema)).writes, env)
    {
      ghost var step := TypeStep(Ctx(), root, schema);
      var i := 0;
      while i < |objectTypes|
        invariant 0 <= i <= |objectTypes|
        invariant PlanSeq(objectTypes[..i], step).failure.None?
        invariant fs.files == ApplyAll(old(fs.files), PlanSeq(objectTypes[..i], step).writes, env)
      {
        LoopAdvance(old(fs.files), objectTypes, step, i, env);
        var f := ExtractObjects(root, schema, objectTypes[i], env);
        if f.Some? {
          return f;
        }
        i := i + 1;
      }
      assert objectTypes[..i] == objectTypes;
      return None;
    }

    /** One schema: its declarative script, then its objects. Columns 1, 6
        and 8 of the row are read before anything is saved. */
    method ExtractSchema(root: string, schema: Row, env: Env) returns (failure: Option<Failure>)
      modifies fs
      ensures failure == SchemaRun(Ctx(), root, schema).failure
      ensures fs.files == ApplyAll(old(fs.files), SchemaRun(Ctx(), root, schema).writes, env)
    {
      if |schema| <= 8 {
        return Some(IndexOutOfRange);
      }
      var header := Write(SchemaFile(root, schema[1]), SchemaDdl(databaseName, schema));
      SaveDdlScript(header.path, header.payload, env);
      ApplyAllSnoc(old(fs.files), [], header, env);
      failure := ExtractTypes(root, schema[1], env);
      ApplyAllConcat(old(fs.files), [header], PlanSeq(objectTypes, TypeStep(Ctx(), root, schema[1])).writes, env);
    }

    /** The outer loop: every schema of the scan list, in order. */
    method ExtractSchemas(root: string, env: Env) returns (failure: Option<Failure>)
      modifies fs
      ensures failure == PlanSeq(schemasToScan, SchemaStep(Ctx(), root)).failure
      ensures fs.files == ApplyAll(old(fs.files), PlanSeq(schemasToScan, SchemaStep(Ctx(), root)).writes, env)
    {
      ghost var step := SchemaStep(Ctx(), root);
      var schemas := schemasToScan;
      var i := 0;
      while i < |schemas|
        invariant 0 <= i <= |schemas|
        invariant PlanSeq(schemas[..i], step).failure.None?
        invariant fs.files == ApplyAll(old(fs.files), PlanSeq(schemas[..i], step).writes, env)
      {
        LoopAdvance(old(fs.files), schemas, step, i, env);
        var f := ExtractSchema(root, schemas[i], env);
        if f.Some? {
          return f;
        }
        i := i + 1;
      }
      assert schemas[..i] == schemas;
      return None;
    }

    /** Resets the output tree, saves the database script, then extracts
        every schema of the scan list in order. */
    method GenerateDbDdlScripts(root: string, env: Env) returns (failure: Option<Failure>)
      requires scanFailure.None?
      modifies fs
      ensures failure == GenerateRun(Ctx(), root, schemasToScan).failure
      ensures fs.files == Outcome(old(fs.files), Ctx(), root, schemasToScan, env)
    {
      failure := EmptyOutputFolder(root);
      if failure.Some? {
        return;
      }
      ghost var base := fs.files;
      var header := Write(DatabaseFile(root, databaseName), DatabaseDdl(databaseName));
      SaveDdlScript(header.path, header.payload, env);
      ApplyAllSnoc(base, [], header, env);
      failure := ExtractSchemas(root, env);
      ApplyAllConcat(base, [header], PlanSeq(schemasToScan, SchemaStep(Ctx(), root)).writes, env);
    }
  }
}
