# snow-db-reverse: the extraction-and-layout engine in Dafny

snow-db-reverse reverse-engineers a Snowflake database into a tree of
declarative SQL scripts. An extractor is bound to one database. It lists the
database's schemas with `show schemas`, keeps the ones selected by a
case-insensitive name filter, and never keeps `INFORMATION_SCHEMA`. A run
then goes through these steps:

1. It deletes and re-creates the output folder.
2. It writes `00_<database>.sql`.
3. For every kept schema:
   - it writes `01_<schema>/00_<schema>.sql`;
   - for every entry of a fixed catalog of object types, in order, it lists
     the objects with `show <type> in schema`;
   - it saves each object's `GET_DDL` text as
     `01_<schema>/<order>_<type>/00_<object>.sql`.

Objects are handled as follows:

- Built-in procedures are skipped.
- Procedures and user functions are addressed by their argument signature.
- Kinds that must not be replaced on replay have their first
  `create or replace <TYPE> ` rewritten to `create <TYPE> if not exists `.
  These kinds are sequences, tables, pipes and streams.

Every saved file consists of a line turning on SnowSQL variable substitution,
then the payload with an environment pattern replaced everywhere.

Two versions of the engine are modelled through one parameter,
`Catalog.Version`:

- `Current` is `src/snow_db_reverse_ddl.py`. Its catalog has twelve kinds,
  including tags and the two policy kinds sharing order `01`. An object type
  whose name contains "policies" is addressed as `policy`. It sends no
  `GET_DDL` query for the `stage` term.
- `Legacy` is `snow-db-reverse-ddl.py`. Its catalog has nine kinds, each with
  its own order token. Every type is addressed by its name minus the last
  letter. It has no `stage` short-circuit.

The model is layered as follows:

- **`Text`** models Python's `str.find`/`index`, `in`, `str.replace` and
  ASCII `lower`/`upper`. `str.replace` is modelled exactly, including the
  empty pattern and the count-1 form.
- **`Catalog`** holds both descriptor tables and the facts proved about them.
- **`Metadata`** holds the metadata source as two answer functions, keyed by
  statement text:
  - `listing` gives the rows a `show` statement lists;
  - `ddl` gives the text a `GET_DDL` query returns.

  It also holds the builders of those statements, and the placeholder result
  the source returns when a statement fails. That placeholder is one row
  without columns.
- **`Schemas`** holds the scan list.
- **`Descriptor`** holds the type term, its normalisation, the built-in
  exclusion and the argument fragment.
- **`Rewriter`** holds the replace policy and the text saved for one object.
- **`Layout`** holds the target paths (POSIX `os.path.join`), the file
  content, one save, a sequence of saves, and the removal of the output tree.
- **`Plan`** describes a whole run as a value: the saves it issues in order,
  and the exception that ended it, if any. It also holds the properties of
  runs.
- **`Extractor`** holds the extractor as a class whose methods change a
  `FileSystem`. Every method is proved to do what its `Plan` counterpart
  describes.
- **`Scenarios`** and **`EndToEnd`** hold worked examples. The end-to-end
  one is the one-schema database with a table, a built-in procedure and a
  user-defined procedure.

An exception raised by the extractor's own code is a `Metadata.Failure`:

- `IndexOutOfRange` is a column read past the end of a row.
- `ReturnNotFound` is `str.index("RETURN")` on a declaration without it.
- `OutputRootUnavailable` is `os.makedirs("")`.

A statement that the metadata source rejects with a `ProgrammingError` is no
exception: it yields a placeholder result (see `Metadata.ResultSet`). The run
stops at the first failure. Files saved before it stay saved.

Two facts about the code shape the model:

- **A run writes the database file too.** Take a database that lists the
  schemas `PUBLIC` and `INFORMATION_SCHEMA`, where `PUBLIC` holds one
  table, one built-in procedure and one user procedure. The scan keeps
  `PUBLIC` alone, and the run leaves four files:
  - the database script;
  - the schema script;
  - the table script;
  - the procedure script.

  `EndToEnd.PublicFiles` states this of the run's outcome, for definitions
  that come back non-empty. `EndToEnd.PublicExtraction` states it of an
  `Extractor` built on that database and run. `Plan.DatabaseFileFirst` states that the database script is
  always the first save.
- **Overloads share one path.** The object file name is only
  `00_<object>.sql`, so two overloads of a procedure or function share one
  path. The later save replaces the earlier one (`Plan.OverloadsOverwrite`).

## Model

| member | source | states |
|---|---|---|
| Catalog.CurrentCatalog | src/snow_db_reverse_ddl.py:41-54 | The current table has twelve kinds. Its order tokens are two digits, are non-decreasing, rank 1..9, and end at `09`. The first four kinds (file formats, both policies, tags) are exactly those with order `01`. Names are distinct path segments. A kind is not replaceable exactly when it is sequences, tables, pipes or streams. |
| Catalog.CurrentOrdered | src/snow_db_reverse_ddl.py:41-54 | The order tokens of the current table never decrease, so declaration order is emission order. |
| Catalog.CurrentDistinct | src/snow_db_reverse_ddl.py:41-54 | No two kinds of the current table have the same name. |
| Catalog.CurrentPolicies | src/snow_db_reverse_ddl.py:41-54 | In the current table, `createOrReplace` is false exactly for sequences, tables, pipes and streams. |
| Catalog.LegacyCatalog | snow-db-reverse-ddl.py:39-49 | The older table has nine kinds with tokens `01`..`09` (the i-th has rank i+1). It is well formed in the same sense and has no tags and no policies. |
| Catalog.LegacyPolicies | snow-db-reverse-ddl.py:39-49 | In the older table, `createOrReplace` is false exactly for sequences, tables, pipes and streams. |
| Catalog.ObjectTypesWellFormed | src/snow_db_reverse_ddl.py:41-54 | The table either version installs is well formed: valid tokens, non-decreasing order, distinct names without separators, and the replace policy by kind. |
| Catalog.LegacyIsCurrentWithoutPoliciesAndTags | snow-db-reverse-ddl.py:39-49 | The older table is the current one with its entries 1..3 (the two policies and tags) removed. Every remaining entry is identical, tokens included. |
| Metadata.ResultSet | src/snow_db_reverse_ddl.py:101-117 | A failed statement yields one row with no columns. A successful one yields the rows it listed. |
| Metadata.ShowStatement | src/snow_db_reverse_ddl.py:129-132 | The listing statement: `show schemas in database "<db>"` for "schemas", otherwise `show <type> in schema "<db>"."<schema>"`. |
| Metadata.GetDdlStatement | src/snow_db_reverse_ddl.py:178 | The query `SELECT GET_DDL('<term>','"<db>"."<schema>"."<name>"<args>',true)`: the argument fragment follows the quoted name, inside the key. |
| Metadata.ShowStatementInjective | src/snow_db_reverse_ddl.py:129-132 | Within one database and schema, different type words give different `show` statements, so every type has its own answer. |
| Metadata.ShowSchemasIsDistinct | src/snow_db_reverse_ddl.py:129-132 | The `show schemas` statement differs from every per-schema listing statement. |
| Schemas.Selected | src/snow_db_reverse_ddl.py:76 | A schema is selected when the filter is empty or one entry equals its name after ASCII lower-casing both, and its name is not exactly `INFORMATION_SCHEMA`. |
| Schemas.ScanList | src/snow_db_reverse_ddl.py:69-77 | The scan list keeps listing order (it is a subsequence of the listing). A row is in it exactly when it is listed and its name is selected: the filter is empty, or the name matches an entry ignoring ASCII case. It never holds `INFORMATION_SCHEMA`. |
| Schemas.ScanListOfPrefix | src/snow_db_reverse_ddl.py:75-77 | One more listed row appends that row to the scan list exactly when it is selected. |
| Schemas.ScanAborts | src/snow_db_reverse_ddl.py:75-76 | A listed row without a name column makes the listing as a whole unnamed; this is the abort condition the scan uses. |
| Descriptor.Depluralise | snow-db-reverse-ddl.py:228 | The type term is the name minus its last character: appending that character gives the name back. The empty name gives the empty term. |
| Descriptor.CurrentTypeTerm | src/snow_db_reverse_ddl.py:232 | The current term: `policy` when the kind name contains "policies", otherwise the name minus its last character. |
| Descriptor.LegacyTypeTerm | snow-db-reverse-ddl.py:228 | The older term: always the name minus its last character. |
| Descriptor.TypeTerm | src/snow_db_reverse_ddl.py:232 | The term of the given version: `CurrentTypeTerm` or `LegacyTypeTerm`. |
| Descriptor.NormaliseTerm | src/snow_db_reverse_ddl.py:168-173 | `user function` becomes `function` and `file format` becomes `file_format`, compared after lower-casing; every other term is passed through unchanged. The older version does the same at snow-db-reverse-ddl.py:164-170. |
| Descriptor.IsEmitted | src/snow_db_reverse_ddl.py:225 | Reading the built-in flag fails exactly for a procedure row of at most three columns. An object is emitted exactly when it is not a procedure or its column 3 is not `Y`. |
| Descriptor.ArgFragment | src/snow_db_reverse_ddl.py:227-229 | Other kinds get no fragment. A procedure or user function needs column 8, fails when `RETURN` is absent, and otherwise gets the text before the first `RETURN`, with the object name replaced by "" as `str.replace` does it (left to right, non-overlapping). |
| Descriptor.DdlRequest | src/snow_db_reverse_ddl.py:175-178 | The older version always queries. The current version sends no query exactly when the normalised term is `stage`. Any query is the `GET_DDL` statement for the normalised term. |
| Descriptor.PlainTerm | snow-db-reverse-ddl.py:164-170 | In both versions, a kind name with no "po" in it and no special normalisation requests its name minus the last letter. |
| Descriptor.FileFormatsTerm | src/snow_db_reverse_ddl.py:170-171 | "file formats" is requested as `file_format` by both versions. |
| Descriptor.UserFunctionsTerm | src/snow_db_reverse_ddl.py:168-169 | "user functions" is requested as `function` by both versions. |
| Descriptor.PolicyTerms | src/snow_db_reverse_ddl.py:232 | The current version requests both policy kinds as `policy`. |
| Descriptor.StageTermShape | src/snow_db_reverse_ddl.py:177 | Only a six-letter name starting with `s` can normalise to `stage`. |
| Descriptor.StageIsNeverRequested | src/snow_db_reverse_ddl.py:177 | No kind of either catalog normalises to `stage`, so the stage short-circuit never fires for a catalog type. |
| Text.Find | src/snow_db_reverse_ddl.py:229 | `str.find`: a result is the first occurrence. None means the pattern occurs nowhere. |
| Text.ReplaceFirst | src/snow_db_reverse_ddl.py:183 | `str.replace(.., .., 1)`: without an occurrence the text is unchanged. Otherwise the first occurrence, and only it, is replaced. |
| Text.ReplaceAll | src/snow_db_reverse_ddl.py:155 | `str.replace(pat, rep)`: scanning left to right, every non-overlapping occurrence of `pat` becomes `rep`. The empty pattern puts `rep` before every character and at the end. |
| Text.ReplaceAllByFind | src/snow_db_reverse_ddl.py:155 | `str.replace` with a non-empty pattern: with no occurrence it is the identity. Otherwise it is the text up to the first occurrence, the replacement, and the rest replaced in turn. |
| Text.ReplaceAllSingleOccurrence | src/snow_db_reverse_ddl.py:229 | For a pattern that occurs only once, at `i`, replacing all occurrences equals the count-1 replace. Both splice the replacement in at `i`. |
| Text.ReplaceAllSelf | src/snow_db_reverse_ddl.py:155 | Replacing a pattern by itself leaves every text unchanged, the empty pattern included. |
| Text.ReplaceAllAbsent | src/snow_db_reverse_ddl.py:155 | A pattern that does not occur leaves the text unchanged. So does the empty pattern with the empty replacement. |
| Text.InterleaveEmpty | src/snow_db_reverse_ddl.py:155 | Inserting the empty text around every character leaves the text unchanged. This is what the empty-pattern replace does with an empty replacement. |
| Text.ReplaceFirstEmpty | src/snow_db_reverse_ddl.py:183 | The count-1 replace of a non-empty pattern leaves the empty text empty. |
| Rewriter.ApplyReplacePolicy | src/snow_db_reverse_ddl.py:182-183 | A replaceable kind keeps its definition. Otherwise exactly the first `create or replace <TYPE> ` becomes `create <TYPE> if not exists ` and everything else stays. A definition without the clause is kept. |
| Rewriter.ReplacePolicyKeepsEmpty | src/snow_db_reverse_ddl.py:181-183 | A failed `GET_DDL` (the empty text) stays empty under the rewrite. |
| Rewriter.ObjectDdl | src/snow_db_reverse_ddl.py:158-185 | Current version with the `stage` term: empty. Otherwise it is the replace policy applied to the answer of the object's `GET_DDL` statement: a non-replaceable kind gets its first clause downgraded. The result is empty exactly when the answer is, and unchanged when the kind is replaceable or the answer lacks the clause. |
| Rewriter.ReplacePolicyKeepsNonEmpty | src/snow_db_reverse_ddl.py:182-183 | A non-empty definition is never rewritten to the empty text, so it is always saved. |
| Layout.DatabaseDdl | src/snow_db_reverse_ddl.py:201 | The database script `CREATE DATABASE IF NOT EXISTS "<db>";`. |
| Layout.SchemaDdl | src/snow_db_reverse_ddl.py:212 | The schema script `CREATE SCHEMA IF NOT EXISTS "<db>"."<schema>" DATA_RETENTION_TIME_IN_DAYS=<col 8> COMMENT='<col 6>';`, with the name from column 1. It is defined only for a row with column 8. |
| Layout.DatabaseFile | src/snow_db_reverse_ddl.py:200 | The database script is `root/00_<database>.sql` (one separator inserted unless the root ends with one). |
| Layout.SchemaFolder | src/snow_db_reverse_ddl.py:209 | The schema folder is `root/01_<schema>`. |
| Layout.SchemaFile | src/snow_db_reverse_ddl.py:211 | The schema script lies under the root. For a schema name without a trailing separator it is `root/01_<schema>/00_<schema>.sql`. |
| Layout.ObjectFile | src/snow_db_reverse_ddl.py:236 | For a two-digit order token, an object script lies under the root. For a schema name without a trailing separator it is `root/01_<schema>/<order>_<type>/00_<object>.sql`. |
| Layout.ObjectFileInjective | src/snow_db_reverse_ddl.py:236 | Within one schema and type, different object names get different files. |
| Layout.Artifact | src/snow_db_reverse_ddl.py:152-155 | A saved file is the substitution preamble, then the payload with every occurrence of the pattern replaced, then a newline. |
| Layout.DefaultEnvKeepsPayload | src/snow_db_reverse_ddl.py:256-257 | With the command line's defaults (empty pattern, empty token) the payload is saved as is. |
| Layout.Save | src/snow_db_reverse_ddl.py:148-155 | An empty payload changes nothing. Otherwise the target, and only it, is added or overwritten with the artifact. Every other file is kept. |
| Layout.ApplyAllFrame | src/snow_db_reverse_ddl.py:148-155 | A path no save lands on keeps its content, or stays absent. |
| Layout.LastWriteWins | src/snow_db_reverse_ddl.py:235-240 | The last non-empty save to a path decides its content. |
| Layout.ApplyAllOrigin | src/snow_db_reverse_ddl.py:148-155 | A file present after a sequence of saves was there before or was landed on. A changed or new file holds the artifact of some save. |
| Layout.Cleared | src/snow_db_reverse_ddl.py:85-90 | Removing the output tree keeps exactly the files outside it, unchanged. |
| Layout.ClearedAfterSaves | src/snow_db_reverse_ddl.py:85-90 | Saves under the root do not disturb what clearing the root leaves. |
| Layout.RerunIdempotent | src/snow_db_reverse_ddl.py:196 | Clearing again and repeating the same saves gives the same files. |
| Layout.FileSystem.constructor | src/snow_db_reverse_ddl.py:148-155 | The file map that the reset (lines 85-90) and the saves act on starts as the given files. |
| Layout.FreshTree | src/snow_db_reverse_ddl.py:196-240 | After the root is cleared, non-empty saves to distinct paths under it leave exactly those paths in the tree, each holding its save's artifact. |
| Plan.ObjectRun | src/snow_db_reverse_ddl.py:223-240 | One object: a failure saves nothing. The step fails exactly when the built-in test raises, or the object is emitted and then its argument fragment raises or the row has no name column. A built-in procedure is a silent no-op. A save goes to the object's file with its `ObjectDdl` text. No save without a failure means the object was not emitted. |
| Plan.TypeRun | src/snow_db_reverse_ddl.py:220-240 | One type of one schema: the `show` listing of that type in that schema, then `ObjectRun` for each row in listing order, stopping at the first failure. |
| Plan.SchemaRun | src/snow_db_reverse_ddl.py:207-240 | One schema: a row without column 8 fails with `IndexOutOfRange` before any save. Otherwise the schema script is saved, then `TypeRun` for every catalog type in order. |
| Plan.GenerateRun | src/snow_db_reverse_ddl.py:196-240 | The whole run: the empty root fails with `OutputRootUnavailable`. Otherwise the database script is saved, then `SchemaRun` for each schema of the scan list in order. |
| Plan.Outcome | src/snow_db_reverse_ddl.py:188-240 | The files after a run: with the empty root they are unchanged. Otherwise the output tree is cleared, then every save of `GenerateRun` is applied in order. |
| Plan.PlanSeqConcat | src/snow_db_reverse_ddl.py:207-240 | Running the loop over `a` then `b` is running it over `a + b`. |
| Plan.PlanSeqAbort | src/snow_db_reverse_ddl.py:223 | A loop whose step `i` is the first to fail ends there. It keeps the saves of steps before `i` and the partial saves of step `i`. |
| Plan.BuiltinProceduresSkipped | src/snow_db_reverse_ddl.py:225-229 | A built-in procedure is never saved. A user-defined procedure (column 3 not `Y`) whose declaration contains `RETURN` issues exactly one save. So does a row of any other kind that has a name column; for user functions the row also needs a declaration containing `RETURN`. |
| Plan.FailedListingAborts | src/snow_db_reverse_ddl.py:101 | A failed listing aborts its type with `IndexOutOfRange` and saves nothing. |
| Plan.FailedDefinitionSavesNothing | src/snow_db_reverse_ddl.py:148 | An object whose definition comes back empty leaves the files as they were. |
| Plan.OverloadsOverwrite | src/snow_db_reverse_ddl.py:236 | Two saved rows of one type with the same name go to the same file, and the later one's artifact is what remains. |
| Plan.GenerateRunUnder | src/snow_db_reverse_ddl.py:196-240 | Every save of a run lands under the output root. |
| Plan.OutsideRootUntouched | src/snow_db_reverse_ddl.py:196-240 | A run never adds, changes or removes a file outside the output root. |
| Plan.InsideRootIsArtifact | src/snow_db_reverse_ddl.py:196-240 | Every file under the root after a run was landed on by one of its saves, and holds that save's artifact. |
| Plan.OutcomeIdempotent | src/snow_db_reverse_ddl.py:188-240 | With the same metadata answers, running twice gives the same files as running once. |
| Plan.DatabaseFileFirst | src/snow_db_reverse_ddl.py:199-204 | With a usable root, the first save of a run is always the database script. |
| Extractor.Extractor.constructor | src/snow_db_reverse_ddl.py:15-54 | It installs the database, the metadata source, the file system and the version's catalog, and scans the schemas. The scan fails exactly when a listed row has no name column. Otherwise the scan list is `ScanList` of the listing. |
| Extractor.Extractor.GetDatabaseObjectsByType | src/snow_db_reverse_ddl.py:119-137 | It lists with the `show` statement for the type (`show schemas in database` for "schemas"). A failed statement gives the placeholder row. |
| Extractor.Extractor.SetSchemasToScan | src/snow_db_reverse_ddl.py:64-77 | It fails with `IndexOutOfRange` exactly when a listed row lacks column 1. Otherwise the scan list becomes `ScanList` of the listing. The files and the recorded scan failure are untouched. |
| Extractor.Extractor.EmptyOutputFolder | src/snow_db_reverse_ddl.py:79-90 | The empty root fails and leaves the files. Any other root leaves exactly the files outside its tree. |
| Extractor.Extractor.SaveDdlScript | src/snow_db_reverse_ddl.py:139-155 | The files become `Save` of the old files with this path and payload. |
| Extractor.Extractor.GetObjectDdl | src/snow_db_reverse_ddl.py:158-185 | It returns `ObjectDdl` for the object. |
| Extractor.Extractor.ExtractObject | src/snow_db_reverse_ddl.py:225-240 | Its failure and new files are those of `ObjectRun`. |
| Extractor.Extractor.ExtractObjects | src/snow_db_reverse_ddl.py:220-240 | The loop over the listed objects ends as `TypeRun` does and leaves its saves applied. |
| Extractor.Extractor.ExtractTypes | src/snow_db_reverse_ddl.py:218-240 | The loop over the catalog ends as the plan over the catalog does and leaves its saves applied. |
| Extractor.Extractor.ExtractSchema | src/snow_db_reverse_ddl.py:207-240 | One schema ends as `SchemaRun` does and leaves its saves applied. |
| Extractor.Extractor.ExtractSchemas | src/snow_db_reverse_ddl.py:207-240 | The loop over the scan list ends as the plan over the scan list does and leaves its saves applied. |
| Extractor.Extractor.GenerateDbDdlScripts | src/snow_db_reverse_ddl.py:188-240 | It runs only on an extractor whose schema scan succeeded. A run fails as `GenerateRun` does. It leaves exactly `Outcome`: the old files with the output tree cleared, then every save of the run applied in order. |
| Scenarios.SalesFilter | src/snow_db_reverse_ddl.py:76 | The filter `["SALES"]` keeps `SALES` and drops `sales_archive` and `INFORMATION_SCHEMA`. |
| Scenarios.SystemSchemaNeverScanned | src/snow_db_reverse_ddl.py:76 | A filter naming `INFORMATION_SCHEMA` still does not select it. |
| Scenarios.FunctionFragment | src/snow_db_reverse_ddl.py:229 | `MYFUNC (A NUMBER) RETURN NUMBER` yields the fragment ` (A NUMBER) `. |
| Scenarios.TableDowngrade | src/snow_db_reverse_ddl.py:183 | `create or replace TABLE T1 (ID NUMBER);` of a table is saved as `create TABLE if not exists T1 (ID NUMBER);`. |
| Scenarios.SubstitutionGrows | src/snow_db_reverse_ddl.py:155 | The substitution is not idempotent: a replacement holding the pattern grows on each pass. |
| Scenarios.SubstitutionFormsNewOccurrence | src/snow_db_reverse_ddl.py:155 | Deleting a pattern can form a new occurrence of it. |
| EndToEnd.TablesRun | src/snow_db_reverse_ddl.py:220-240 | A tables listing with one row saves exactly that table's file. |
| EndToEnd.ProceduresRun | src/snow_db_reverse_ddl.py:223-229 | A built-in procedure and a user procedure save exactly the user procedure's file. |
| EndToEnd.PublicTypes | src/snow_db_reverse_ddl.py:218-240 | In schema PUBLIC, the twelve catalog types save the table file and then the procedure file, nothing else. |
| EndToEnd.PublicScan | src/snow_db_reverse_ddl.py:69-77 | A database listing `PUBLIC` and then `INFORMATION_SCHEMA`, with a filter selecting `PUBLIC`, scans `PUBLIC` alone. |
| EndToEnd.PublicScenario | src/snow_db_reverse_ddl.py:196-240 | Over the scan list of that database, the run issues four saves, in order: database, schema, table and user procedure. There is none for the built-in procedure, and the run does not fail. |
| EndToEnd.PublicPathsDistinct | src/snow_db_reverse_ddl.py:199-240 | The database, schema, table and procedure files of the scenario are four different paths. |
| EndToEnd.PublicPayloads | src/snow_db_reverse_ddl.py:182-183 | When their `GET_DDL` answers are non-empty, the table and procedure saves carry non-empty payloads. |
| EndToEnd.FourFiles | src/snow_db_reverse_ddl.py:196-240 | Four non-empty saves to different paths under a cleared root leave exactly those four files under it, each with its artifact. |
| EndToEnd.PublicFiles | src/snow_db_reverse_ddl.py:188-240 | For the outcome over the scan list of that database, when the table and procedure definitions come back non-empty, the files under the root afterwards are exactly four: the database, schema, table and procedure scripts. Each holds the artifact of its save, and nothing else lies under the root. |
| EndToEnd.Extraction | src/snow_db_reverse_ddl.py:15-77 | An extractor built on a database whose schema listing has a name column everywhere, and then run, fails as the plan over `ScanList` of that listing does and leaves that plan's outcome. |
| EndToEnd.PublicExtraction | src/snow_db_reverse_ddl.py:15-240 | The extractor built on the one-schema database and run does not fail. It leaves exactly the database, schema, table and procedure scripts under the root, each holding its artifact. |

## Left out

- The Snowflake connection, the cursor and `getpass` are not modelled. The
  answers of the metadata source are parameters (`listing`, `ddl`) keyed by
  statement text.
- Command-line parsing, logging, printing and `__main__` are I/O around the
  engine. Only the defaults of the environment options appear, in
  `Layout.DefaultEnvKeepsPayload`.
- `fetchone()` returning `None`, and the `TypeError` that follows, are not
  modelled. A successful `GET_DDL` always answers a text.
- Operating-system failures of `os.makedirs`, `open` and `shutil.rmtree`
  are not modelled, beyond the empty root. These include permissions, a
  file where a directory is needed, and a full disk. In particular,
  `shutil.rmtree` can fail part-way. Both versions then swallow the
  `OSError` (src/snow_db_reverse_ddl.py:85-88, snow-db-reverse-ddl.py:81-83)
  and leave some files under the root, whereas `Layout.Cleared` removes
  all of them.
- Directories are implicit in the file map; `..` and repeated separators are
  not normalised. `Under` compares paths as text, so a schema or object name
  containing `..` is not seen to escape the root.
- `lower`/`upper` map ASCII letters only. Unicode case mapping is not
  modelled.
- The older version's default of `None` for the environment pattern is not
  modelled: `str.replace(None, ...)` raises. Both versions are modelled with
  text-valued options.
- Statement errors other than `ProgrammingError` are not modelled. This
  covers any other error raised by `execute`, `fetchall` or `fetchone`. The
  current version does not catch them, so they end the run. The older
  version's bare `except` refers to the unbound name `e`, so it raises
  `UnboundLocalError`, a `NameError`. The answer functions `listing` and
  `ddl` cannot express either: every statement either answers or fails with
  a `ProgrammingError`, which both versions turn into the placeholder.
- Extractor.Extractor.constructor: an exception raised by the schema scan is
  recorded in the field `scanFailure` rather than ending the construction,
  because a constructor must return an object. `GenerateDbDdlScripts`
  requires that no scan failure was recorded, since such an extractor never
  exists in the source.
- Extractor.Extractor.GenerateDbDdlScripts: the three nested loops are split
  into one method per level (`ExtractSchemas`, `ExtractTypes`,
  `ExtractObjects`, `ExtractObject`). They run in the same order.
