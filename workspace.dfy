/**
 * The file-changing steps of `customizeSkeleton` and of the SQLite set-up,
 * as methods of the file store they change.
 */
module PluginWorkspace {
  import opened Wrappers
  import opened PhpStrings
  import opened Environment
  import opened Authors
  import opened Manifest
  import opened PackageName
  import opened FileTree

  /** The files the rename pass's Finder lists. */
  function RenameScope(files: map<string, string>, dir: string): (scope: set<string>)
    ensures scope <= files.Keys
  {
    set p | p in files && InRenameScope(dir, p)
  }

  /** `order` lists every file of `scope` exactly once. */
  predicate IsListing(order: seq<string>, scope: set<string>) {
    Distinct(order) && Listed(order) == scope
  }

  /** The path of the manifest inside the plugin folder. */
  function ManifestPath(dir: string): string {
    dir + "/composer.json"
  }

  /** The `.env` files the SQLite set-up's Finder lists. */
  function EnvScope(files: map<string, string>, dir: string): (scope: set<string>)
    ensures scope <= files.Keys
  {
    set p | p in files && InEnvScope(dir, p)
  }

  /** The template of the test application's settings, and the settings file copied from it. */
  function EnvTemplatePath(dir: string): string {
    ApplicationFolder(dir) + ".env.dist"
  }

  function EnvPath(dir: string): string {
    ApplicationFolder(dir) + ".env"
  }

  /** The text of `Filesystem::copy`'s exception for a missing source file. */
  function CopyFailedMessage(origin: string): string {
    "Failed" + " to" + " copy" + " \"" + origin + "\"" + " because" + " file" + " does" + " not" + " exist."
  }

  /** `.env` after the copy: the template's contents, unless an existing `.env` is at least as new. */
  function EnvCopied(files: map<string, string>, dir: string, templateNewer: bool): (r: map<string, string>)
    requires EnvTemplatePath(dir) in files
    ensures r.Keys == files.Keys + {EnvPath(dir)}
  {
    if EnvPath(dir) !in files || templateNewer then files[EnvPath(dir) := files[EnvTemplatePath(dir)]]
    else files
  }

  /** The file store after the file work of `createSQLiteDatabase`. */
  function EnvPrepared(files: map<string, string>, dir: string, templateNewer: bool): map<string, string>
    requires EnvTemplatePath(dir) in files
  {
    var copied := EnvCopied(files, dir, templateNewer);
    Rewritten(copied, EnvScope(copied, dir), EnvPairs())
  }

  /** The rename pass lists the same files in two stores that hold the same paths. */
  lemma RenameScopeOfSamePaths(a: map<string, string>, b: map<string, string>, dir: string)
    requires a.Keys == b.Keys
    ensures RenameScope(a, dir) == RenameScope(b, dir)
  {
  }

  /** The settings file itself is one of the files the `.env` Finder lists. */
  lemma EnvFileInScope(dir: string)
    ensures InEnvScope(dir, EnvPath(dir))
  {
    var root := ApplicationFolder(dir);
    var relative := EnvPath(dir)[|root|..];
    assert relative == ".env";
    ExplodeCharAbsent('/', relative);
  }

  /** The MySQL line on its own becomes the commented-out line followed by the SQLite line. */
  lemma EnvLineRewritten(line: string, replacement: string)
    requires line == MysqlDatabaseUrl && replacement == "#" + MysqlDatabaseUrl + "\n" + SqliteDatabaseUrl
    ensures ReplacePairs(line, EnvPairs()) == replacement
  {
    assert line[|line|..] == [];
    assert ReplaceAll(line, line, replacement) == replacement + ReplaceAll([], line, replacement);
  }

  /** A settings file without the MySQL line is left as it is. */
  lemma EnvWithoutMysqlUnchanged(contents: string)
    requires !Contains(contents, MysqlDatabaseUrl)
    ensures ReplacePairs(contents, EnvPairs()) == contents
  {
    ReplacePairsAbsent(contents, EnvPairs());
  }

  /** The settings template is not a `.php` file, so the rename pass neither lists it nor moves a file onto it. */
  lemma EnvTemplateIsNotPhp(dir: string)
    ensures !EndsWith(EnvTemplatePath(dir), ".php")
  {
    var path := EnvTemplatePath(dir);
    assert path[|path| - 1] == 't';
  }

  /** The manifest and the settings template are different files. */
  lemma ManifestIsNotEnvTemplate(dir: string)
    ensures ManifestPath(dir) != EnvTemplatePath(dir)
  {
    assert ManifestPath(dir)[|dir| + 1] == 'c';
    assert EnvTemplatePath(dir)[|dir| + 1] == 't';
  }

  /** The file store of the working directory. */
  class Workspace {
    var files: map<string, string>

    constructor (files: map<string, string>)
      ensures this.files == files
    {
      this.files := files;
    }

    /** `writeFile` on every file of `scope`, one at a time. */
    method WriteFiles(scope: set<string>, pairs: seq<(string, string)>)
      requires scope <= files.Keys
      modifies this
      ensures files == Rewritten(old(files), scope, pairs)
    {
      ghost var before := files;
      var pending := scope;
      while pending != {}
        invariant pending <= scope
        invariant files.Keys == before.Keys
        invariant forall p :: p in files ==>
          files[p] == if p in scope && p !in pending then ReplacePairs(before[p], pairs) else before[p]
        decreases pending
      {
        var p :| p in pending;
        files := files[p := ReplacePairs(files[p], pairs)];
        pending := pending - {p};
      }
      assert files == Rewritten(before, scope, pairs);
    }

    /** `changeDummyPluginNameToCustomPluginName`: the content pass over the plugin folder. */
    method ChangeDummyPluginName(dir: string, ns: string)
      modifies this
      ensures files == ContentPass(old(files), dir, ns)
    {
      WriteFiles(ContentScope(files, dir), ContentPairs(dir, ns));
    }

    /**
     * `renameClasses`: each listed file in turn has its class renamed and is
     * moved to its renamed path, replacing any file there.
     */
    method RenameClasses(dir: string, order: seq<string>)
      requires IsListing(order, RenameScope(files, dir))
      modifies this
      ensures files == RenamePass(old(files), order, PlainPluginName(dir))
    {
      var plain := PlainPluginName(dir);
      var i := 0;
      while i < |order|
        invariant 0 <= i <= |order|
        invariant forall k :: i <= k < |order| ==> order[k] in files
        invariant Distinct(order[i..])
        invariant RenamePass(files, order[i..], plain) == RenamePass(old(files), order, plain)
      {
        var path := order[i];
        var contents := ReplaceAll(files[path], AcmeExample, plain);
        var target := ReplaceAll(path, AcmeExample, plain);
        assert RenameOne(files, path, plain) == (files - {path})[target := contents];
        assert order[i..][1..] == order[i + 1..];
        files := (files - {path})[target := contents];
        i := i + 1;
      }
    }

    /**
     * The file work of `createSQLiteDatabase`: copy `.env.dist` to `.env`
     * (an existing `.env` is replaced only when the template is newer, as
     * `Filesystem::copy` decides), then rewrite every listed `.env` file.
     * A missing template fails before anything changes.
     */
    method PrepareSqliteEnv(dir: string, templateNewer: bool) returns (r: Result<(), string>)
      modifies this
      ensures EnvTemplatePath(dir) !in old(files) ==>
                r == Err(CopyFailedMessage(EnvTemplatePath(dir))) && files == old(files)
      ensures EnvTemplatePath(dir) in old(files) ==> r.Ok?
      ensures r.Ok? ==> EnvTemplatePath(dir) in old(files) && files == EnvPrepared(old(files), dir, templateNewer)
      ensures r.Ok? ==> EnvPath(dir) in files
      ensures r.Ok? && (EnvPath(dir) !in old(files) || templateNewer) ==>
                files[EnvPath(dir)] == ReplacePairs(old(files)[EnvTemplatePath(dir)], EnvPairs())
    {
      var template := EnvTemplatePath(dir);
      var target := EnvPath(dir);
      if template !in files {
        return Err(CopyFailedMessage(template));
      }
      if target !in files || templateNewer {
        files := files[target := files[template]];
      }
      EnvFileInScope(dir);
      WriteFiles(EnvScope(files, dir), EnvPairs());
      r := Ok(());
    }

    /**
     * `customizeComposerFile`: read and decode `composer.json`, rewrite the
     * document, encode it and write it back. Nothing is written when a
     * step fails.
     */
    method CustomizeComposerFile(edition: Edition, platform: Platform, codec: JsonCodec, dir: string,
                                 fields: ManifestFields, ns: string)
      returns (r: Result<(), ManifestError>)
      modifies this
      ensures r.Err? ==> files == old(files)
      ensures (ManifestPath(dir) !in old(files) || !IsObject(codec.decode(old(files)[ManifestPath(dir)])))
              ==> r == Err(Unreadable)
      ensures r.Err? <==> ComposerFileFailure(edition, platform, codec, old(files), dir, fields).Some?
      ensures r.Err? ==> r.error == ComposerFileFailure(edition, platform, codec, old(files), dir, fields).value
      ensures r.Ok? ==>
        && ManifestPath(dir) in old(files)
        && IsObject(codec.decode(old(files)[ManifestPath(dir)]))
        && exists out ::
             && ManifestRewritten(codec.decode(old(files)[ManifestPath(dir)]).value.fields, out, fields,
                                  AuthorsGiven(edition, platform, fields.author), ns)
             && files == old(files)[ManifestPath(dir) := codec.encode(JObject(out))]
    {
      var path := ManifestPath(dir);
      if path !in files {
        return Err(Unreadable);
      }
      var document := codec.decode(files[path]);
      if !IsObject(document) {
        return Err(Unreadable);
      }
      var rewritten := CustomizeManifest(edition, platform, document.value.fields, fields, ns);
      if rewritten.Err? {
        return Err(rewritten.error);
      }
      files := files[path := codec.encode(JObject(rewritten.value))];
      r := Ok(());
    }
  }

  /**
   * Why `customizeComposerFile` fails on `files`, if it does: a manifest
   * that is missing or does not decode to an object is unreadable;
   * otherwise the rewrite's own failure. `None` when it goes through.
   */
  ghost function ComposerFileFailure(edition: Edition, platform: Platform, codec: JsonCodec, files: map<string, string>,
                                     dir: string, fields: ManifestFields): Option<ManifestError>
  {
    var path := ManifestPath(dir);
    if path !in files || !IsObject(codec.decode(files[path])) then Some(Unreadable)
    else RewriteFailure(edition, platform, codec.decode(files[path]).value.fields, fields)
  }

  predicate IsObject(document: Option<Json>) {
    document.Some? && document.value.JObject?
  }
}
