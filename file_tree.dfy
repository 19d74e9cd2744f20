/**
 * The plugin's files after the template has been downloaded, and the two
 * passes that turn the template into the plugin: the content pass of
 * `changeDummyPluginNameToCustomPluginName` and the class/file renaming of
 * `renameClasses`. The file store maps each path, relative to the working
 * directory and with `/` as separator, to the file's contents.
 */
module FileTree {
  import opened PhpStrings
  import opened Underscore
  import opened PackageName
  import opened Manifest

  // ----- which files a Finder lists -----

  /** The directory names that `exclude()` removes, and the file names skipped besides. */
  const ExcludedNames: set<string> := {"node_modules", "vendor"}

  /** The version-control directories Finder skips by default (`ignoreVCS`). */
  const VcsDirectories: set<string> := {".svn", "_svn", "CVS", "_darcs", ".arch-params", ".monotone", ".bzr", ".git", ".hg"}

  /** Finder's default `ignoreDotFiles`: a segment that is a dot followed by at least one character. */
  predicate IsHiddenSegment(segment: string) {
    |segment| > 1 && segment[0] == '.'
  }

  /** The segments of a path below the search root. */
  function Segments(relative: string): (segments: seq<string>)
    ensures |segments| >= 1
  {
    Explode("/", relative)
  }

  function Basename(relative: string): string {
    var segments := Segments(relative);
    segments[|segments| - 1]
  }

  /** The path below `root` lies under no hidden and no version-control directory and is not hidden itself. */
  predicate ListedByDefault(relative: string) {
    var segments := Segments(relative);
    && (forall k :: 0 <= k < |segments| ==> !IsHiddenSegment(segments[k]))
    && (forall k :: 0 <= k < |segments| - 1 ==> segments[k] !in VcsDirectories)
  }

  /**
   * The files the content pass rewrites: below `dir/`, listed by a default
   * Finder, under no `node_modules` or `vendor` directory, and not
   * themselves named `node_modules` or `vendor`.
   */
  predicate InContentScope(dir: string, path: string) {
    var root := dir + "/";
    StartsWith(path, root)
    && var relative := path[|root|..];
       var segments := Segments(relative);
       && ListedByDefault(relative)
       && (forall k :: 0 <= k < |segments| - 1 ==> segments[k] !in ExcludedNames)
       && Basename(relative) !in ExcludedNames
  }

  /** The files the rename pass touches: `*.php` files below `getSrcFolder(dir)`, listed by a default Finder. */
  predicate InRenameScope(dir: string, path: string) {
    var root := SrcFolder(dir);
    StartsWith(path, root)
    && var relative := path[|root|..];
       ListedByDefault(relative) && EndsWith(Basename(relative), ".php")
  }

  // ----- the content pass -----

  /** The template's class prefix and plugin name, written word by word (its namespace is `AcmeNamespace`). */
  const AcmeExample := "Acme" + "Sylius" + "Example"
  const AcmeExamplePlugin := AcmeExample + "Plugin"

  /** `Strings::remove($directory, 'Plugin')`: the folder name without `Plugin`. */
  function PlainPluginName(dir: string): string {
    Remove(dir, "Plugin")
  }

  /** The snake-cased and the lower-cased template name, as they appear in the template's files. */
  const AcmeSnake := "acme" + "_sylius" + "_example"
  const AcmeLower := "acme" + "sylius" + "example" + "plugin"

  /**
   * The search texts of the content pass are computed by the source with
   * the case helpers: `toPascalCase` of the plugin name, `ltrim` of
   * `toSnakeCase` of the class prefix, and `lower` of the plugin name. They
   * evaluate to the template's names as they appear in its files.
   */
  lemma SearchTokens(example: string, examplePlugin: string)
    requires example == AcmeExample && examplePlugin == AcmeExamplePlugin
    ensures ToPascalCase(examplePlugin) == AcmeExamplePlugin
    ensures LtrimChar(ToSnakeCase(example), '_') == AcmeSnake
    ensures Lower(examplePlugin) == AcmeLower
  {
    PascalToken(examplePlugin, "Acme", "Sylius", "Example", "Plugin");
    SnakeToken(example, "Acme", "Sylius", "Example");
    LowerToken(examplePlugin, "Acme", "Sylius", "Example", "Plugin");
  }

  /**
   * The four search/replace pairs of the content pass, in order: the
   * namespace, the Pascal-cased plugin name, the snake-cased class prefix
   * and the lower-cased plugin name of the template (the search texts as
   * `SearchTokens` evaluates them), each replaced by the same form of the
   * new plugin's names.
   */
  function ContentPairs(dir: string, ns: string): seq<(string, string)> {
    [ (AcmeNamespace, ns),
      (AcmeExamplePlugin, dir),
      (AcmeSnake, LtrimChar(ToSnakeCase(PlainPluginName(dir)), '_')),
      (AcmeLower, Lower(dir)) ]
  }

  lemma PascalToken(t: string, a: string, b: string, c: string, d: string)
    requires a == "Acme" && b == "Sylius" && c == "Example" && d == "Plugin" && t == a + b + c + d
    ensures ToPascalCase(t) == t
  {
    NoWordBreakConcat(a, b);
    NoWordBreakConcat(a + b, c);
    NoWordBreakConcat(a + b + c, d);
    StudlyWord(t);
    assert t[0] == a[0] == 'A';
    assert [t[0]] + t[1..] == t;
  }

  lemma SnakeToken(t: string, a: string, b: string, c: string)
    requires a == "Acme" && b == "Sylius" && c == "Example" && t == a + b + c
    ensures LtrimChar(ToSnakeCase(t), '_') == "acme" + "_sylius" + "_example"
  {
    SnakeWords(t, a, b, c, "acme", "_sylius", "_example");
    LtrimOne("acme" + "_sylius" + "_example");
  }

  lemma SnakeWords(t: string, a: string, b: string, c: string, sa: string, sb: string, sc: string)
    requires a == "Acme" && b == "Sylius" && c == "Example" && t == a + b + c
    requires sa == "acme" && sb == "_sylius" && sc == "_example"
    ensures ToSnakeCase(t) == "_" + (sa + sb + sc)
  {
    SnakeConcat(a + b, c);
    SnakeConcat(a, b);
    SnakeCapitalisedWord(a);
    SnakeCapitalisedWord(b);
    SnakeCapitalisedWord(c);
    assert ToSnakeCase(a) == "_" + sa;
    assert ToSnakeCase(b) == sb && ToSnakeCase(c) == sc;
    assert "_" + sa + sb + sc == "_" + (sa + sb + sc);
  }

  lemma LtrimOne(rest: string)
    requires |rest| > 0 && rest[0] != '_'
    ensures LtrimChar("_" + rest, '_') == rest
  {
    assert ("_" + rest)[1..] == rest;
  }

  lemma LowerToken(t: string, a: string, b: string, c: string, d: string)
    requires a == "Acme" && b == "Sylius" && c == "Example" && d == "Plugin" && t == a + b + c + d
    ensures Lower(t) == "acme" + "sylius" + "example" + "plugin"
  {
    LowerConcat(a + b + c, d);
    LowerConcat(a + b, c);
    LowerConcat(a, b);
    assert Lower(a) == "acme" && Lower(b) == "sylius";
    assert Lower(c) == "example" && Lower(d) == "plugin";
  }

  /** `writeFile` with the four pairs: PHP's array `str_replace`, one pair after another. */
  function RewriteContents(dir: string, ns: string, contents: string): string {
    ReplacePairs(contents, ContentPairs(dir, ns))
  }

  /**
   * The pairs are applied one after another over the running result: the
   * namespace first, the lower-cased name last.
   */
  lemma RewriteContentsInOrder(dir: string, ns: string, contents: string)
    ensures RewriteContents(dir, ns, contents)
            == ReplaceAll(ReplaceAll(ReplaceAll(ReplaceAll(contents, AcmeNamespace, ns),
                                                AcmeExamplePlugin, dir),
                                     AcmeSnake, LtrimChar(ToSnakeCase(PlainPluginName(dir)), '_')),
                          AcmeLower, Lower(dir))
  {
    var pairs := ContentPairs(dir, ns);
    ReplaceFourPairs(contents, pairs);
  }

  /** Four pairs applied one after another. */
  lemma ReplaceFourPairs(contents: string, pairs: seq<(string, string)>)
    requires |pairs| == 4
    ensures ReplacePairs(contents, pairs)
            == ReplaceAll(ReplaceAll(ReplaceAll(ReplaceAll(contents, pairs[0].0, pairs[0].1),
                                                pairs[1].0, pairs[1].1),
                                     pairs[2].0, pairs[2].1),
                          pairs[3].0, pairs[3].1)
  {
    var c1 := ReplaceAll(contents, pairs[0].0, pairs[0].1);
    var c2 := ReplaceAll(c1, pairs[1].0, pairs[1].1);
    var c3 := ReplaceAll(c2, pairs[2].0, pairs[2].1);
    var c4 := ReplaceAll(c3, pairs[3].0, pairs[3].1);
    assert ReplacePairs(contents, pairs) == ReplacePairs(c1, pairs[1..]);
    assert ReplacePairs(c1, pairs[1..]) == ReplacePairs(c2, pairs[2..]) by { assert pairs[1..][1..] == pairs[2..]; }
    assert ReplacePairs(c2, pairs[2..]) == ReplacePairs(c3, pairs[3..]) by { assert pairs[2..][1..] == pairs[3..]; }
    assert ReplacePairs(c3, pairs[3..]) == c4 by { assert pairs[3..][1..] == []; }
  }

  /** A file that holds none of the four search texts keeps its contents. */
  lemma TokenFreeContentsUnchanged(dir: string, ns: string, contents: string)
    requires !Contains(contents, AcmeNamespace) && !Contains(contents, AcmeExamplePlugin)
    requires !Contains(contents, AcmeSnake) && !Contains(contents, AcmeLower)
    ensures RewriteContents(dir, ns, contents) == contents
  {
    ReplacePairsAbsent(contents, ContentPairs(dir, ns));
  }

  /** The file store after `writeFile` with `pairs` on every file of `scope`. */
  function Rewritten(files: map<string, string>, scope: set<string>, pairs: seq<(string, string)>): (r: map<string, string>)
    ensures r.Keys == files.Keys
  {
    map p | p in files :: if p in scope then ReplacePairs(files[p], pairs) else files[p]
  }

  /** The files the content pass's Finder lists. */
  function ContentScope(files: map<string, string>, dir: string): (scope: set<string>)
    ensures scope <= files.Keys
  {
    set p | p in files && InContentScope(dir, p)
  }

  /** The whole content pass of `changeDummyPluginNameToCustomPluginName`. */
  function ContentPass(files: map<string, string>, dir: string, ns: string): map<string, string> {
    Rewritten(files, ContentScope(files, dir), ContentPairs(dir, ns))
  }

  /** The content pass changes no path, and rewrites exactly the files in its scope. */
  lemma ContentPassRewritesScope(files: map<string, string>, dir: string, ns: string, p: string)
    requires p in files
    ensures ContentPass(files, dir, ns).Keys == files.Keys
    ensures ContentPass(files, dir, ns)[p]
            == if InContentScope(dir, p) then RewriteContents(dir, ns, files[p]) else files[p]
  {
  }

  /** The excluded names hold no slash, so each is one path segment. */
  lemma ExcludedNameIsSegment(e: string)
    requires e in ExcludedNames
    ensures '/' !in e
  {
  }

  /** A file below a `node_modules` or `vendor` directory, at any depth, is left as it is. */
  lemma ExcludedDirectoryUntouched(files: map<string, string>, dir: string, ns: string,
                                   above: string, e: string, below: string)
    requires dir + "/" + above + e + "/" + below in files
    requires above == [] || above[|above| - 1] == '/'
    requires e in ExcludedNames
    ensures ContentPass(files, dir, ns)[dir + "/" + above + e + "/" + below]
            == files[dir + "/" + above + e + "/" + below]
  {
    ExcludedDirectoryOutOfScope(dir, above, e, below);
    ContentPassRewritesScope(files, dir, ns, dir + "/" + above + e + "/" + below);
  }

  lemma ExcludedDirectoryOutOfScope(dir: string, above: string, e: string, below: string)
    requires above == [] || above[|above| - 1] == '/'
    requires e in ExcludedNames
    ensures !InContentScope(dir, dir + "/" + above + e + "/" + below)
  {
    var p := dir + "/" + above + e + "/" + below;
    var root := dir + "/";
    assert StartsWith(p, root) && p[|root|..] == above + e + "/" + below;
    ExcludedNameIsSegment(e);
    var k := DirectorySegment(above, e, below);
  }

  /** The segment `e` between `above` and `/below` is a directory segment of the path. */
  lemma DirectorySegment(above: string, e: string, below: string) returns (k: nat)
    requires above == [] || above[|above| - 1] == '/'
    requires '/' !in e
    ensures k < |Segments(above + e + "/" + below)| - 1 && Segments(above + e + "/" + below)[k] == e
  {
    var relative := above + e + "/" + below;
    var tail := e + ['/'] + below;
    assert Explode("/", tail) == [e] + Explode("/", below) by {
      ExplodeCharAbsent('/', e);
      ExplodeCharConcat('/', e, below);
    }
    if above == [] {
      assert relative == tail;
      k := 0;
    } else {
      var up := above[..|above| - 1];
      assert relative == up + ['/'] + tail by {
        assert above == up + ['/'];
      }
      ExplodeCharConcat('/', up, tail);
      k := |Explode("/", up)|;
    }
  }

  /** The segment `e` after `above` is the last segment of the path. */
  lemma LastSegment(above: string, e: string)
    requires above == [] || above[|above| - 1] == '/'
    requires '/' !in e
    ensures Basename(above + e) == e
  {
    ExplodeCharAbsent('/', e);
    if above != [] {
      var up := above[..|above| - 1];
      assert above + e == up + ['/'] + e;
      ExplodeCharConcat('/', up, e);
      assert Segments(above + e) == Explode("/", up) + [e];
    } else {
      assert above + e == e;
    }
  }

  /** A file named `node_modules` or `vendor` is skipped by the loop's own check. */
  lemma ExcludedFileNameUntouched(files: map<string, string>, dir: string, ns: string, above: string, e: string)
    requires dir + "/" + above + e in files
    requires above == [] || above[|above| - 1] == '/'
    requires e in ExcludedNames
    ensures ContentPass(files, dir, ns)[dir + "/" + above + e] == files[dir + "/" + above + e]
  {
    ExcludedFileNameOutOfScope(dir, above, e);
    ContentPassRewritesScope(files, dir, ns, dir + "/" + above + e);
  }

  lemma ExcludedFileNameOutOfScope(dir: string, above: string, e: string)
    requires above == [] || above[|above| - 1] == '/'
    requires e in ExcludedNames
    ensures !InContentScope(dir, dir + "/" + above + e)
  {
    var p := dir + "/" + above + e;
    var root := dir + "/";
    assert StartsWith(p, root) && p[|root|..] == above + e;
    ExcludedNameIsSegment(e);
    LastSegment(above, e);
  }

  // ----- the rename pass -----

  /** Where `renameClasses` moves a file: the token replaced throughout its path. */
  function RenameTarget(path: string, plain: string): string {
    ReplaceAll(path, AcmeExample, plain)
  }

  /** The class rename inside a file. */
  function RenameInContents(contents: string, plain: string): string {
    ReplaceAll(contents, AcmeExample, plain)
  }

  /**
   * One iteration of `renameClasses`: rewrite the file, then move it to its
   * target, replacing any file already there.
   */
  function RenameOne(files: map<string, string>, path: string, plain: string): (r: map<string, string>)
    requires path in files
    ensures r.Keys == files.Keys - {path} + {RenameTarget(path, plain)}
    ensures r[RenameTarget(path, plain)] == RenameInContents(files[path], plain)
    ensures forall q :: q in files && q != path && q != RenameTarget(path, plain) ==> r[q] == files[q]
  {
    (files - {path})[RenameTarget(path, plain) := RenameInContents(files[path], plain)]
  }

  function Listed(order: seq<string>): set<string> {
    set k | 0 <= k < |order| :: order[k]
  }

  function Targets(order: seq<string>, plain: string): set<string> {
    set k | 0 <= k < |order| :: RenameTarget(order[k], plain)
  }

  predicate Distinct(order: seq<string>) {
    forall i, j :: 0 <= i < j < |order| ==> order[i] != order[j]
  }

  /** `renameClasses` over the files in the order the Finder lists them. */
  function RenamePass(files: map<string, string>, order: seq<string>, plain: string): map<string, string>
    requires Distinct(order) && forall k :: 0 <= k < |order| ==> order[k] in files
    decreases |order|
  {
    if order == [] then files
    else RenamePass(RenameOne(files, order[0], plain), order[1..], plain)
  }

  /**
   * A file that is not listed and that no listed file is moved onto keeps
   * its path and its contents.
   */
  lemma {:induction false} RenamePassUntouched(files: map<string, string>, order: seq<string>, plain: string, p: string)
    requires Distinct(order) && forall k :: 0 <= k < |order| ==> order[k] in files
    requires p in files && p !in order
    requires forall k :: 0 <= k < |order| ==> RenameTarget(order[k], plain) != p
    ensures p in RenamePass(files, order, plain) && RenamePass(files, order, plain)[p] == files[p]
    decreases |order|
  {
    if order != [] {
      var next := RenameOne(files, order[0], plain);
      assert forall k :: 0 <= k < |order[1..]| ==> order[1..][k] == order[k + 1];
      RenamePassUntouched(next, order[1..], plain, p);
    }
  }

  /**
   * No listed file is moved onto another file: each target is its own
   * source or a path not in use, and no two listed files share a target.
   */
  ghost predicate NoCollisions(files: map<string, string>, order: seq<string>, plain: string) {
    && (forall k, q :: 0 <= k < |order| && q in files && RenameTarget(order[k], plain) == q ==> q == order[k])
    && (forall i, j :: 0 <= i < j < |order| ==> RenameTarget(order[i], plain) != RenameTarget(order[j], plain))
  }

  /**
   * Without collisions, every listed file ends up at its target with its
   * class renamed, and the other files stay where they were.
   */
  lemma {:induction false} RenamePassMovesEachFile(files: map<string, string>, order: seq<string>, plain: string)
    requires Distinct(order) && forall k :: 0 <= k < |order| ==> order[k] in files
    requires NoCollisions(files, order, plain)
    ensures var r := RenamePass(files, order, plain);
      && r.Keys == (files.Keys - Listed(order)) + Targets(order, plain)
      && (forall k :: 0 <= k < |order| ==>
            r[RenameTarget(order[k], plain)] == RenameInContents(files[order[k]], plain))
      && (forall q :: q in files && q !in order ==> r[q] == files[q])
    decreases |order|
  {
    if order != [] {
      var first, rest := order[0], order[1..];
      var next := RenameOne(files, first, plain);
      FirstRenameKeepsRest(files, order, plain);
      RenamePassMovesEachFile(next, rest, plain);
      var r := RenamePass(files, order, plain);
      assert r == RenamePass(next, rest, plain);
      forall k | 0 <= k < |order|
        ensures r[RenameTarget(order[k], plain)] == RenameInContents(files[order[k]], plain)
      {
        if k == 0 {
          assert RenameTarget(first, plain) in next && RenameTarget(first, plain) !in rest;
        } else {
          assert order[k] == rest[k - 1];
        }
      }
      forall q | q in files && q !in order ensures r[q] == files[q] {
        assert q != RenameTarget(first, plain);
        assert q in next && q !in rest;
      }
      ListedAndTargetsOfCons(order, plain);
    }
  }

  /**
   * After the first listed file is renamed, the rest of the listing is
   * still distinct, still in place with the same contents, still free of
   * collisions, and none of it is moved onto the first file's target.
   */
  lemma FirstRenameKeepsRest(files: map<string, string>, order: seq<string>, plain: string)
    requires order != []
    requires Distinct(order) && forall k :: 0 <= k < |order| ==> order[k] in files
    requires NoCollisions(files, order, plain)
    ensures var next, rest := RenameOne(files, order[0], plain), order[1..];
      && Distinct(rest)
      && (forall k :: 0 <= k < |rest| ==> rest[k] in next && next[rest[k]] == files[rest[k]])
      && NoCollisions(next, rest, plain)
      && RenameTarget(order[0], plain) !in rest
      && (forall k :: 0 <= k < |rest| ==> RenameTarget(rest[k], plain) != RenameTarget(order[0], plain))
  {
    var first, rest := order[0], order[1..];
    var next := RenameOne(files, first, plain);
    assert forall k :: 0 <= k < |rest| ==> rest[k] == order[k + 1];
    forall k | 0 <= k < |rest| ensures rest[k] in next && next[rest[k]] == files[rest[k]] {
      assert RenameTarget(first, plain) != rest[k];
    }
    forall k | 0 <= k < |rest| ensures RenameTarget(rest[k], plain) != RenameTarget(first, plain) {
      assert RenameTarget(order[0], plain) != RenameTarget(order[k + 1], plain);
    }
    assert NoCollisions(next, rest, plain) by {
      forall k, q | 0 <= k < |rest| && q in next && RenameTarget(rest[k], plain) == q ensures q == rest[k] {
        assert RenameTarget(order[0], plain) != RenameTarget(order[k + 1], plain);
      }
    }
  }

  /** The listed paths and the targets of a listing, split at its first element. */
  lemma ListedAndTargetsOfCons(order: seq<string>, plain: string)
    requires order != []
    ensures Listed(order) == {order[0]} + Listed(order[1..])
    ensures Targets(order, plain) == {RenameTarget(order[0], plain)} + Targets(order[1..], plain)
  {
    var rest := order[1..];
    assert forall k :: 0 <= k < |rest| ==> rest[k] == order[k + 1];
    forall p | p in Listed(order) ensures p in {order[0]} + Listed(rest) {
      var k :| 0 <= k < |order| && order[k] == p;
      if k > 0 { assert rest[k - 1] == p; }
    }
    forall p | p in Targets(order, plain) ensures p in {RenameTarget(order[0], plain)} + Targets(rest, plain) {
      var k :| 0 <= k < |order| && RenameTarget(order[k], plain) == p;
      if k > 0 { assert RenameTarget(rest[k - 1], plain) == p; }
    }
  }

  /** A listed file whose path does not contain the token keeps its path. */
  lemma TokenFreePathStays(path: string, plain: string)
    requires !Contains(path, AcmeExample)
    ensures RenameTarget(path, plain) == path
  {
    ReplaceAllAbsent(path, AcmeExample, plain);
  }

  /** Every file the rename pass lists is a `.php` file. */
  lemma RenameScopeIsPhp(dir: string, path: string)
    requires InRenameScope(dir, path)
    ensures EndsWith(path, ".php")
  {
    var cut := |SrcFolder(dir)|;
    var relative := path[cut..];
    ExplodeLastIsSuffix("/", relative);
    assert Basename(relative) == Last(Explode("/", relative));
    EndsWithTransitive(relative, Basename(relative), ".php");
    SuffixOfSuffix(path, cut, ".php");
  }

  /** The token holds no dot, and is longer than the `.php` extension. */
  lemma TokenShape()
    ensures '.' !in AcmeExample && |AcmeExample| > |".php"|
  {
    assert AcmeExample == "AcmeSyliusExample";
  }

  /** Renaming a `.php` file keeps the extension: the token cannot run into `.php`. */
  lemma RenameTargetIsPhp(path: string, plain: string)
    requires EndsWith(path, ".php")
    ensures EndsWith(RenameTarget(path, plain), ".php")
  {
    var stem := path[..|path| - 4];
    assert path == stem + ".php";
    TokenShape();
    ReplaceAllSplit(stem, ".php", AcmeExample, plain);
    assert ReplaceAll(".php", AcmeExample, plain) == ".php";
    var target := ReplaceAll(stem, AcmeExample, plain) + ".php";
    assert target[|target| - 4..] == ".php";
  }

  /**
   * A path that is not listed and that no listed file is moved onto is in
   * the files after the rename pass exactly when it was before.
   */
  lemma {:induction false} RenamePassKeepsPath(files: map<string, string>, order: seq<string>, plain: string, p: string)
    requires Distinct(order) && forall k :: 0 <= k < |order| ==> order[k] in files
    requires forall k :: 0 <= k < |order| ==> order[k] != p && RenameTarget(order[k], plain) != p
    ensures p in RenamePass(files, order, plain) <==> p in files
    decreases |order|
  {
    if order != [] {
      var next := RenameOne(files, order[0], plain);
      assert forall k :: 0 <= k < |order[1..]| ==> order[1..][k] == order[k + 1];
      RenamePassKeepsPath(next, order[1..], plain, p);
    }
  }

  // ----- the SQLite set-up -----

  /** The test application's folder inside the plugin folder. */
  function ApplicationFolder(dir: string): string {
    dir + "/tests/Application/"
  }

  /**
   * The files `createSQLiteDatabase`'s Finder lists: every file named
   * `.env` below the application folder, hidden directories included
   * (`ignoreDotFiles(false)`), version-control directories still skipped.
   */
  predicate InEnvScope(dir: string, path: string) {
    var root := ApplicationFolder(dir);
    StartsWith(path, root)
    && var relative := path[|root|..];
       var segments := Segments(relative);
       && Basename(relative) == ".env"
       && (forall k :: 0 <= k < |segments| - 1 ==> segments[k] !in VcsDirectories)
  }

  /** The MySQL connection line of the template's `.env`, and the SQLite line put after it. */
  const MysqlDatabaseUrl := "DATABASE_URL=mysql://root@127.0.0.1/sylius_%kernel.environment%?serverVersion=5.5"
  const SqliteDatabaseUrl := "DATABASE_URL=sqlite:///%kernel.project_dir%/var/data.db"

  /** The one pair of the `.env` rewrite: the MySQL line commented out and the SQLite line added. */
  function EnvPairs(): seq<(string, string)> {
    [(MysqlDatabaseUrl, "#" + MysqlDatabaseUrl + "\n" + SqliteDatabaseUrl)]
  }
}
