/**
 * The package-name layer of the `new:plugin` command: validation of a
 * `vendor/name` identifier, its split into vendor and plugin name, and the
 * names derived from them (project folder, PHP namespace, source folder).
 * The two copies of the command share this code word for word.
 */
module PackageName {
  import opened Wrappers
  import opened PhpStrings
  import opened Underscore

  /** The character class `[a-z0-9_.-]`. */
  predicate IsPackageChar(c: char) {
    'a' <= c <= 'z' || '0' <= c <= '9' || c == '_' || c == '.' || c == '-'
  }

  /** One side of the slash: `[a-z0-9_.-]+`. */
  predicate IsSegment(t: string) {
    |t| > 0 && forall i :: 0 <= i < |t| ==> IsPackageChar(t[i])
  }

  /** `s` reads `vendor/name` with both sides in the package character class. */
  predicate SplitsAs(s: string, vendor: string, name: string) {
    IsSegment(vendor) && IsSegment(name) && s == vendor + "/" + name
  }

  /** The pattern `^[a-z0-9_.-]+/[a-z0-9_.-]+$`, checked around the first slash. */
  predicate MatchesPackagePattern(s: string) {
    var i := IndexOf(s, '/');
    i < |s| && IsSegment(s[..i]) && IsSegment(s[i + 1..])
  }

  /** A segment never contains the slash, so a `vendor/name` split is unique. */
  lemma SplitIsAtFirstSlash(s: string, vendor: string, name: string)
    requires SplitsAs(s, vendor, name)
    ensures IndexOf(s, '/') == |vendor|
    ensures s[..|vendor|] == vendor && s[|vendor| + 1..] == name
  {
    var i := IndexOf(s, '/');
    assert s[|vendor|] == '/';
  }

  /** The check around the first slash is exactly the regular expression. */
  lemma {:induction false} PatternMatchesIffSplit(s: string)
    ensures MatchesPackagePattern(s) <==> exists v, n :: SplitsAs(s, v, n)
  {
    if MatchesPackagePattern(s) {
      var i := IndexOf(s, '/');
      assert SplitsAs(s, s[..i], s[i + 1..]);
    }
    if exists v, n :: SplitsAs(s, v, n) {
      var v, n :| SplitsAs(s, v, n);
      SplitIsAtFirstSlash(s, v, n);
    }
  }

  /** `explode('/', $packageName)` of a well-formed name yields exactly vendor and name. */
  lemma ExplodeSplitName(vendor: string, name: string)
    requires IsSegment(vendor) && IsSegment(name)
    ensures Explode("/", vendor + "/" + name) == [vendor, name]
  {
    ExplodeCharConcat('/', vendor, name);
    ExplodeCharAbsent('/', vendor);
    ExplodeCharAbsent('/', name);
  }

  /**
   * `extractVendorAndPluginNameFromPackageName`: `explode('/', ...)`. Gluing
   * the parts back gives the input, and a well-formed name gives exactly
   * its two sides.
   */
  function ExtractVendorAndPluginName(packageName: string): (parts: seq<string>)
    ensures |parts| >= 1
    ensures Implode("/", parts) == packageName
    ensures forall v, n :: SplitsAs(packageName, v, n) ==> parts == [v, n]
  {
    ImplodeExplode("/", packageName);
    forall v, n | SplitsAs(packageName, v, n) ensures Explode("/", packageName) == [v, n] {
      ExplodeSplitName(v, n);
    }
    Explode("/", packageName)
  }

  /** The three exceptions `validatePluginName` throws, in the order it checks them. */
  datatype NameError =
    | InvalidPackageName(packageName: string)
    | MissingPrefix(pluginName: string)
    | MissingSuffix(pluginName: string)

  /** The text of each `InvalidArgumentException`. */
  function Message(e: NameError): string {
    match e
    case InvalidPackageName(p) =>
      "The package name " + p + " is invalid, it should be lowercase and have a vendor name, "
      + "a forward slash, and a package name, matching: [a-z0-9_.-]+/[a-z0-9_.-]+"
    case MissingPrefix(n) => "The plugin name " + n + " is invalid, it should be start with \"sylius\""
    case MissingSuffix(n) => "The plugin name " + n + " is invalid, it should be end with \"plugin\""
  }

  const PluginPrefix := "sylius"
  const PluginSuffix := "plugin"

  /** A package name that `validatePluginName` accepts. */
  ghost predicate IsValidPluginName(s: string) {
    exists v, n :: SplitsAs(s, v, n) && StartsWith(n, PluginPrefix) && EndsWith(n, PluginSuffix)
  }

  /**
   * `validatePluginName`: the shape check first, then the `sylius` prefix of
   * the plugin name, then its `plugin` suffix; each failure is its own error.
   */
  function ValidatePluginName(packageName: string): (r: Result<(), NameError>)
    ensures r.Ok? <==> IsValidPluginName(packageName)
    ensures (forall v, n :: !SplitsAs(packageName, v, n)) ==> r == Err(InvalidPackageName(packageName))
    ensures forall v, n :: SplitsAs(packageName, v, n) ==>
      r == if !StartsWith(n, PluginPrefix) then Err(MissingPrefix(n))
           else if !EndsWith(n, PluginSuffix) then Err(MissingSuffix(n))
           else Ok(())
  {
    PatternMatchesIffSplit(packageName);
    if !MatchesPackagePattern(packageName) then
      Err(InvalidPackageName(packageName))
    else
      var i := IndexOf(packageName, '/');
      assert SplitsAs(packageName, packageName[..i], packageName[i + 1..]);
      var parts := ExtractVendorAndPluginName(packageName);
      var name := parts[1];
      if !StartsWith(name, PluginPrefix) then Err(MissingPrefix(name))
      else if !EndsWith(name, PluginSuffix) then Err(MissingSuffix(name))
      else Ok(())
  }

  /** `makeProjectFolderName`: PascalCase(vendor) followed by PascalCase(name). */
  function FolderName(vendor: string, name: string): string {
    ToPascalCase(vendor) + ToPascalCase(name)
  }

  /** `getNamespace`: PascalCase(vendor), a backslash, PascalCase(name). */
  function Namespace(vendor: string, name: string): string {
    ToPascalCase(vendor) + "\\" + ToPascalCase(name)
  }

  /** `getSrcFolder`, with `/` as the directory separator. */
  function SrcFolder(directory: string): string {
    directory + "/src/"
  }

  /** Pascal-casing a segment yields neither a slash nor a backslash. */
  lemma PascalSegmentHasNoSeparator(t: string)
    requires IsSegment(t)
    ensures '/' !in ToPascalCase(t) && '\\' !in ToPascalCase(t)
  {
    var r := ToPascalCase(t);
    StudlyChars(t, true);
    forall c | c in r ensures c != '/' && c != '\\' {
      if c in t {
        var k :| 0 <= k < |t| && t[k] == c;
        assert IsPackageChar(t[k]);
      }
    }
  }

  /**
   * The folder name is the namespace with its one backslash deleted, and
   * it holds no path or namespace separator.
   */
  lemma FolderNameIsNamespaceWithoutSeparator(vendor: string, name: string)
    requires IsSegment(vendor) && IsSegment(name)
    ensures Remove(Namespace(vendor, name), "\\") == FolderName(vendor, name)
    ensures '/' !in FolderName(vendor, name) && '\\' !in FolderName(vendor, name)
  {
    var pv, pn := ToPascalCase(vendor), ToPascalCase(name);
    PascalSegmentHasNoSeparator(vendor);
    PascalSegmentHasNoSeparator(name);
    ReplaceCharConcat(pv + "\\", pn, '\\', "");
    ReplaceCharConcat(pv, "\\", '\\', "");
    CharAbsentNotContained(pv, '\\');
    CharAbsentNotContained(pn, '\\');
    ReplaceAllAbsent(pv, "\\", "");
    ReplaceAllAbsent(pn, "\\", "");
    assert ReplaceAll("\\", "\\", "") == "";
  }

  /**
   * Validation and split of the unit tests' package name; stated for a
   * variable equal to the literal so that the solver does not unfold the
   * definitions on the literal eagerly.
   */
  lemma IronManPackageNameSteps(s: string, v: string, n: string)
    requires v == "iron-man" && n == "sylius-product-on-demand-plugin" && s == v + "/" + n
    ensures ValidatePluginName(s) == Ok(())
    ensures ExtractVendorAndPluginName(s) == [v, n]
  {
    assert IsSegment(v);
    assert IsSegment(n);
    assert SplitsAs(s, v, n);
    assert StartsWith(n, PluginPrefix);
    assert EndsWith(n, PluginSuffix);
  }

  /** The unit tests' package name is valid and splits into the expected vendor and name. */
  lemma IronManPackageName()
    ensures ValidatePluginName("iron-man" + "/" + "sylius-product-on-demand-plugin") == Ok(())
    ensures ExtractVendorAndPluginName("iron-man" + "/" + "sylius-product-on-demand-plugin")
            == ["iron-man", "sylius-product-on-demand-plugin"]
  {
    IronManPackageNameSteps("iron-man" + "/" + "sylius-product-on-demand-plugin", "iron-man", "sylius-product-on-demand-plugin");
  }

  /** Pascal-casing a dash-joined name capitalises its first word and continues with the rest. */
  lemma PascalLeadingWord(w: string, rest: string)
    requires |w| > 0 && NoWordBreak(w)
    ensures ToPascalCase(w + "-" + rest) == [UpperAscii(w[0])] + w[1..] + ToPascalCase(rest)
  {
    assert w + "-" + rest == w + ['-'] + rest;
    StudlyAtBreak(w, '-', rest, true);
    StudlyWord(w);
  }

  // The unit tests' example, one word at a time. Every string is named
  // through a parameter: on literal arguments the solver unfolds the
  // recursive definitions eagerly and runs out of resources.

  /** One step of the example: a capitalised word in front of an already Pascal-cased tail. */
  lemma PascalStep(s: string, w: string, cap: string, t: string, pt: string, r: string)
    requires s == w + "-" + t
    requires |w| > 0 && NoWordBreak(w) && ToPascalCase(t) == pt
    requires cap == [UpperAscii(w[0])] + w[1..] && r == cap + pt
    ensures ToPascalCase(s) == r
  {
    PascalLeadingWord(w, t);
  }

  /** `sylius-product-on-demand-plugin` Pascal-cases to `SyliusProductOnDemandPlugin`. */
  lemma PascalExampleName(n: string, a: string, b: string, c: string, d: string,
                          pn: string, pa: string, pb: string, pc: string, pd: string)
    requires d == "plugin" && c == "demand" + "-" + d && b == "on" + "-" + c && a == "product" + "-" + b
    requires n == "sylius" + "-" + a
    requires pd == "Plugin" && pc == "Demand" + pd && pb == "On" + pc && pa == "Product" + pb && pn == "Sylius" + pa
    ensures ToPascalCase(n) == pn
  {
    StudlyWord(d);
    assert [UpperAscii(d[0])] + d[1..] == pd;
    PascalStep(c, "demand", "Demand", d, pd, pc);
    PascalStep(b, "on", "On", c, pc, pb);
    PascalStep(a, "product", "Product", b, pb, pa);
    PascalStep(n, "sylius", "Sylius", a, pa, pn);
  }

  /**
   * The folder the unit tests expect for `iron-man/sylius-product-on-demand-plugin`:
   * `IronManSyliusProductOnDemandPlugin`, with its sources under `.../src/`.
   */
  lemma IronManFolderName(v: string, n: string, a: string, b: string, c: string, d: string,
                          folder: string, pn: string, pa: string, pb: string, pc: string, pd: string)
    requires v == "iron" + "-" + "man"
    requires d == "plugin" && c == "demand" + "-" + d && b == "on" + "-" + c && a == "product" + "-" + b
    requires n == "sylius" + "-" + a
    requires pd == "Plugin" && pc == "Demand" + pd && pb == "On" + pc && pa == "Product" + pb && pn == "Sylius" + pa
    requires folder == "Iron" + "Man" + pn
    ensures FolderName(v, n) == folder
    ensures SrcFolder(FolderName(v, n)) == folder + "/src/"
  {
    PascalExampleName(n, a, b, c, d, pn, pa, pb, pc, pd);
    StudlyWord("man");
    PascalStep(v, "iron", "Iron", "man", "Man", "Iron" + "Man");
  }
}
