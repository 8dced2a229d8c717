/** Where a run puts its scripts and what each script file holds: the path
    scheme under the output root, the fixed preamble line, the environment
    substitution, and the file map a sequence of saves produces. */
module Layout {
  import opened Text
  import opened Catalog
  import opened Metadata

  /** `a` as the directory part of `os.path.join(a, b)`: a separator is
      added unless `a` is empty or already ends with one. */
  function Dir(a: string): string {
    if a == [] || a[|a| - 1] == '/' then a else a + "/"
  }

  /** `os.path.join(a, b)` on POSIX: an absolute `b` discards `a`. */
  function Join(a: string, b: string): string {
    if |b| > 0 && b[0] == '/' then b else Dir(a) + b
  }

  /** A path lies in the tree of `root` (compared as text). */
  predicate Under(p: string, root: string) {
    Dir(root) <= p
  }

  /** A name that does not end with a separator. */
  predicate NoTrailingSlash(s: string) {
    s == [] || s[|s| - 1] != '/'
  }

  lemma DirPrefix(a: string)
    ensures a <= Dir(a)
    ensures Dir(Dir(a)) == Dir(a)
  {
  }

  /** `root/00_<db>.sql`. */
  function DatabaseFile(root: string, database: string): (r: string)
    ensures r == Dir(root) + "00_" + database + ".sql"
  {
    Join(root, "00_" + database + ".sql")
  }

  /** `root/01_<schema>`. */
  function SchemaFolder(root: string, schema: string): (r: string)
    ensures r == Dir(root) + "01_" + schema
  {
    Join(root, "01_" + schema)
  }

  /** `root/01_<schema>/00_<schema>.sql`. */
  function SchemaFile(root: string, schema: string): (r: string)
    ensures Under(r, root)
    ensures NoTrailingSlash(schema) ==> r == Dir(root) + "01_" + schema + "/00_" + schema + ".sql"
  {
    var folder := SchemaFolder(root, schema);
    DirPrefix(folder);
    Join(folder, "00_" + schema + ".sql")
  }

  /** `root/01_<schema>/<order>_<type name>/00_<object>.sql`. */
  function ObjectFile(root: string, schema: string, t: ObjectType, name: string): (r: string)
    ensures IsOrderToken(t.order) ==> Under(r, root)
    ensures IsOrderToken(t.order) && NoTrailingSlash(schema) ==>
      r == Dir(root) + "01_" + schema + "/" + t.order + "_" + t.name + "/00_" + name + ".sql"
  {
    var folder := SchemaFolder(root, schema);
    DirPrefix(folder);
    Join(folder, t.order + "_" + t.name + "/00_" + name + ".sql")
  }

  /** Within one schema folder and one type, an object's file name
      determines the object name. */
  lemma ObjectFileInjective(root: string, schema: string, t: ObjectType, a: string, b: string)
    requires IsOrderToken(t.order)
    requires ObjectFile(root, schema, t, a) == ObjectFile(root, schema, t, b)
    ensures a == b
  {
    var p := Dir(SchemaFolder(root, schema)) + t.order + "_" + t.name + "/00_";
    assert ObjectFile(root, schema, t, a) == p + a + ".sql";
    assert ObjectFile(root, schema, t, b) == p + b + ".sql";
    SameAffixes(p, a, b, ".sql");
  }

  /** The declarative script of the database. */
  function DatabaseDdl(database: string): string {
    "CREATE DATABASE IF NOT EXISTS \"" + database + "\";"
  }

  /** The declarative script of a schema from its listing row: name in
      column 1, comment in column 6, retention time in column 8. */
  function SchemaDdl(database: string, schema: Row): string
    requires |schema| > 8
  {
    "CREATE SCHEMA IF NOT EXISTS \"" + database + "\".\"" + schema[1] + "\" DATA_RETENTION_TIME_IN_DAYS="
      + schema[8] + " COMMENT='" + schema[6] + "';"
  }

  /** The environment substitution applied to every saved script. */
  datatype Env = Env(pattern: string, replacement: string)

  /** The first line of every script: turns on SnowSQL variable substitution. */
  const PREAMBLE := "!set variable_substitution=true;\n"

  /** The content of a saved script: the preamble, the payload with every
      occurrence of the pattern replaced, and a final newline. */
  function Artifact(payload: string, env: Env): (r: string)
    ensures PREAMBLE <= r && |r| > |PREAMBLE| && r[|r| - 1] == '\n'
    ensures r[|PREAMBLE|..|r| - 1] == ReplaceAll(payload, env.pattern, env.replacement)
  {
    PREAMBLE + ReplaceAll(payload, env.pattern, env.replacement) + "\n"
  }

  /** With the command line's defaults (empty pattern, empty token) the
      payload is stored as it is. */
  lemma DefaultEnvKeepsPayload(payload: string)
    ensures Artifact(payload, Env("", "")) == PREAMBLE + payload + "\n"
  {
    ReplaceAllAbsent(payload, "", "");
  }

  /** One call of the save operation: a target path and a payload. */
  datatype Write = Write(path: string, payload: string)

  /** The save lands a file exactly when its payload is not empty. */
  predicate Lands(w: Write, p: string) {
    w.path == p && |w.payload| > 0
  }

  /** One save: an empty payload changes nothing; otherwise the target holds
      the artifact and every other path keeps its content. */
  function Save(files: map<string, string>, w: Write, env: Env): (r: map<string, string>)
    ensures |w.payload| == 0 ==> r == files
    ensures |w.payload| > 0 ==> r.Keys == files.Keys + {w.path} && r[w.path] == Artifact(w.payload, env)
    ensures forall p :: p in files && p != w.path ==> p in r && r[p] == files[p]
  {
    if |w.payload| == 0 then files else files[w.path := Artifact(w.payload, env)]
  }

  /** The saves of a sequence, first to last. */
  function ApplyAll(files: map<string, string>, ws: seq<Write>, env: Env): map<string, string>
    decreases |ws|
  {
    if ws == [] then files else Save(ApplyAll(files, ws[..|ws| - 1], env), ws[|ws| - 1], env)
  }

  lemma ApplyAllSnoc(files: map<string, string>, ws: seq<Write>, w: Write, env: Env)
    ensures ApplyAll(files, ws + [w], env) == Save(ApplyAll(files, ws, env), w, env)
  {
    assert (ws + [w])[..|ws|] == ws;
  }

  /** Saving `a` and then `b` is saving `a + b`. */
  lemma {:induction false} ApplyAllConcat(files: map<string, string>, a: seq<Write>, b: seq<Write>, env: Env)
    ensures ApplyAll(files, a + b, env) == ApplyAll(ApplyAll(files, a, env), b, env)
    decreases |b|
  {
    if b == [] {
      assert a + b == a;
    } else {
      var b' := b[..|b| - 1];
      assert a + b == (a + b') + [b[|b| - 1]];
      ApplyAllSnoc(files, a + b', b[|b| - 1], env);
      ApplyAllConcat(files, a, b', env);
    }
  }

  /** A path no save lands on keeps what it had, present or absent. */
  lemma {:induction false} ApplyAllFrame(files: map<string, string>, ws: seq<Write>, env: Env, p: string)
    requires forall k :: 0 <= k < |ws| ==> !Lands(ws[k], p)
    ensures p in ApplyAll(files, ws, env) <==> p in files
    ensures p in files ==> ApplyAll(files, ws, env)[p] == files[p]
    decreases |ws|
  {
    if ws != [] {
      var init := ws[..|ws| - 1];
      assert forall k :: 0 <= k < |init| ==> init[k] == ws[k];
      ApplyAllFrame(files, init, env, p);
      assert !Lands(ws[|ws| - 1], p);
    }
  }

  /** The last save landing on a path decides its content: a later write to
      the same path overwrites an earlier one. */
  lemma {:induction false} LastWriteWins(files: map<string, string>, ws: seq<Write>, env: Env, p: string, k: nat)
    requires k < |ws| && Lands(ws[k], p)
    requires forall j :: k < j < |ws| ==> !Lands(ws[j], p)
    ensures p in ApplyAll(files, ws, env)
    ensures ApplyAll(files, ws, env)[p] == Artifact(ws[k].payload, env)
    decreases |ws|
  {
    var init := ws[..|ws| - 1];
    if k < |ws| - 1 {
      assert forall j :: k < j < |init| ==> init[j] == ws[j];
      LastWriteWins(files, init, env, p, k);
      assert !Lands(ws[|ws| - 1], p);
    }
  }

  /** Every file present after the saves was there before or is the
      artifact of a save that landed on it. */
  lemma {:induction false} ApplyAllOrigin(files: map<string, string>, ws: seq<Write>, env: Env, p: string)
    requires p in ApplyAll(files, ws, env)
    ensures p in files || exists k :: 0 <= k < |ws| && Lands(ws[k], p)
    ensures (p !in files || ApplyAll(files, ws, env)[p] != files[p]) ==>
      exists k :: 0 <= k < |ws| && Lands(ws[k], p) && ApplyAll(files, ws, env)[p] == Artifact(ws[k].payload, env)
    decreases |ws|
  {
    if ws != [] {
      var init := ws[..|ws| - 1];
      var last := ws[|ws| - 1];
      if Lands(last, p) {
        assert ApplyAll(files, ws, env)[p] == Artifact(last.payload, env);
      } else {
        assert forall k :: 0 <= k < |init| ==> init[k] == ws[k];
        ApplyAllOrigin(files, init, env, p);
      }
    }
  }

  /** What removing the output tree leaves: every file outside it. */
  function Cleared(files: map<string, string>, root: string): (r: map<string, string>)
    ensures forall p :: p in r <==> p in files && !Under(p, root)
    ensures forall p :: p in r ==> r[p] == files[p]
  {
    map p | p in files && !Under(p, root) :: files[p]
  }

  /** Saves that all land under the root leave the outside of the root as
      it was, and clearing their result again gives the cleared start. */
  lemma ClearedAfterSaves(files: map<string, string>, ws: seq<Write>, root: string, env: Env)
    requires forall k :: 0 <= k < |ws| ==> Under(ws[k].path, root)
    ensures Cleared(ApplyAll(Cleared(files, root), ws, env), root) == Cleared(files, root)
  {
    var start := Cleared(files, root);
    var after := ApplyAll(start, ws, env);
    forall p | !Under(p, root)
      ensures (p in after <==> p in start) && (p in start ==> after[p] == start[p])
    {
      ApplyAllFrame(start, ws, env, p);
    }
    assert Cleared(after, root) == start;
  }

  /** Re-running the same saves after clearing the root again yields the
      same file map: extraction is a reset followed by a deterministic
      rewrite of the tree. */
  lemma RerunIdempotent(files: map<string, string>, ws: seq<Write>, root: string, env: Env)
    requires forall k :: 0 <= k < |ws| ==> Under(ws[k].path, root)
    ensures ApplyAll(Cleared(ApplyAll(Cleared(files, root), ws, env), root), ws, env)
         == ApplyAll(Cleared(files, root), ws, env)
  {
    ClearedAfterSaves(files, ws, root, env);
  }

  /** Non-empty saves to distinct paths under a freshly cleared root: the
      tree then holds exactly those paths, each with its save's artifact. */
  lemma FreshTree(files: map<string, string>, ws: seq<Write>, root: string, env: Env)
    requires forall k :: 0 <= k < |ws| ==> Under(ws[k].path, root) && |ws[k].payload| > 0
    requires forall j, k :: 0 <= j < k < |ws| ==> ws[j].path != ws[k].path
    ensures forall p :: Under(p, root) ==>
      (p in ApplyAll(Cleared(files, root), ws, env) <==> exists k :: 0 <= k < |ws| && ws[k].path == p)
    ensures forall k :: 0 <= k < |ws| ==>
      ws[k].path in ApplyAll(Cleared(files, root), ws, env) &&
      ApplyAll(Cleared(files, root), ws, env)[ws[k].path] == Artifact(ws[k].payload, env)
  {
    var start := Cleared(files, root);
    var after := ApplyAll(start, ws, env);
    forall k | 0 <= k < |ws|
      ensures ws[k].path in after && after[ws[k].path] == Artifact(ws[k].payload, env)
    {
      LastWriteWins(start, ws, env, ws[k].path, k);
    }
    forall p | Under(p, root) && p in after
      ensures exists k :: 0 <= k < |ws| && ws[k].path == p
    {
      ApplyAllOrigin(start, ws, env, p);
    }
  }

  /** The local file system the scripts are written to: regular files by
      path; directories exist implicitly. */
  class FileSystem {
    var files: map<string, string>

    constructor (files: map<string, string>)
      ensures this.files == files
    {
      this.files := files;
    }
  }
}
