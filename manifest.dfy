/**
 * `customizeComposerFile`: the update of the decoded `composer.json`
 * document. The document is a JSON value; objects are maps from key to
 * value, so key order is not part of the model.
 */
module Manifest {
  import opened Wrappers
  import opened Environment
  import opened Authors

  datatype Json =
    | JNull
    | JBool(b: bool)
    | JNumber(n: int)
    | JString(s: string)
    | JArray(items: seq<Json>)
    | JObject(fields: map<string, Json>)

  /**
   * How `composer.json` is read and written: the decoding of its text
   * (`None` when it is not valid JSON) and the encoding of a document.
   */
  datatype JsonCodec = JsonCodec(decode: string -> Option<Json>, encode: Json -> string)

  /** The namespace of the template plugin and its two PSR-4 prefixes. */
  const AcmeNamespace := "Acme\\SyliusExamplePlugin"
  const AcmePrefix := AcmeNamespace + "\\"
  const AcmeTestsPrefix := "Tests\\" + AcmeNamespace + "\\"

  /** The PSR-4 prefixes registered for a plugin namespace. */
  function SourcePrefix(ns: string): string {
    ns + "\\"
  }

  function TestsPrefix(ns: string): string {
    "Tests\\" + ns + "\\"
  }

  /** Why the manifest could not be rewritten. */
  datatype ManifestError =
    | Unreadable
    | NotAnObject(key: string)
    | AuthorFailed(failure: AuthorFailure)

  /**
   * The object stored under `key`, as PHP's nested assignment sees it: a
   * missing key or null becomes a fresh empty object, an object is used as
   * it is, and any other value is an error.
   */
  function ObjectAt(m: map<string, Json>, key: string): (r: Option<map<string, Json>>)
    ensures key !in m ==> r == Some(map[])
    ensures key in m && m[key].JObject? ==> r == Some(m[key].fields)
    ensures r.None? <==> key in m && !m[key].JObject? && m[key] != JNull
  {
    if key !in m || m[key] == JNull then Some(map[])
    else if m[key].JObject? then Some(m[key].fields)
    else None
  }

  /** A PHP option value that may be null. */
  function StringOrNull(o: Option<string>): Json {
    match o
    case None => JNull
    case Some(s) => JString(s)
  }

  function AuthorJson(a: Author): Json {
    JObject(map["name" := JString(a.name), "email" := JString(a.email)])
  }

  /** The `authors` list as JSON: one object per author, in order. */
  function AuthorsJson(authors: seq<Author>): (r: Json)
    ensures r.JArray? && |r.items| == |authors|
    ensures forall i :: 0 <= i < |authors| ==> r.items[i] == AuthorJson(authors[i])
  {
    JArray(seq(|authors|, i requires 0 <= i < |authors| => AuthorJson(authors[i])))
  }

  /** The values `customizeComposerFile` writes, as the options hold them. */
  datatype ManifestFields = ManifestFields(
    packageName: Option<string>,
    author: Option<string>,
    description: Option<string>,
    license: Option<string>)

  /** The authors list written to the manifest: none when the author was skipped or does not parse. */
  function AuthorsGiven(edition: Edition, platform: Platform, author: Option<string>): Option<seq<Author>> {
    if author.Some? && FormatAuthors(edition, platform, author).Ok? then Some(FormatAuthors(edition, platform, author).value)
    else None
  }

  /** The PSR-4 map after the two insertions and then the two removals. */
  ghost predicate Psr4Rewritten(before: map<string, Json>, after: map<string, Json>, ns: string) {
    && (forall k :: k in after <==>
          (k in before || k == SourcePrefix(ns) || k == TestsPrefix(ns))
          && k != AcmePrefix && k != AcmeTestsPrefix)
    && (forall k :: k in after ==>
          after[k] == if k == TestsPrefix(ns) then JString("tests/")
                      else if k == SourcePrefix(ns) then JString("src/")
                      else before[k])
  }

  /** Every key other than the ones written keeps its value. */
  ghost predicate OthersKept(before: map<string, Json>, after: map<string, Json>, written: set<string>) {
    && after.Keys == before.Keys + written
    && forall k :: k in before && k !in written ==> after[k] == before[k]
  }

  /**
   * The document after a successful rewrite: the four fields set, the
   * authors list set when an author was given, and the PSR-4 map of
   * `autoload` rewritten; nothing else changes.
   */
  ghost predicate ManifestRewritten(m: map<string, Json>, out: map<string, Json>, fields: ManifestFields,
                                    authors: Option<seq<Author>>, ns: string)
  {
    && OthersKept(m, out, {"name", "description", "license", "autoload"} + (if authors.Some? then {"authors"} else {}))
    && out["name"] == StringOrNull(fields.packageName)
    && out["description"] == StringOrNull(fields.description)
    && out["license"] == StringOrNull(fields.license)
    && (authors.Some? ==> out["authors"] == AuthorsJson(authors.value))
    && ObjectAt(m, "autoload").Some?
    && var autoload := ObjectAt(m, "autoload").value;
       && ObjectAt(autoload, "psr-4").Some?
       && out["autoload"].JObject?
       && OthersKept(autoload, out["autoload"].fields, {"psr-4"})
       && out["autoload"].fields["psr-4"].JObject?
       && Psr4Rewritten(ObjectAt(autoload, "psr-4").value, out["autoload"].fields["psr-4"].fields, ns)
  }

  /**
   * Why the rewrite of `m` fails, if it does, checked in source order: a
   * given author that `formatAuthors` rejects, then an `autoload` entry,
   * then a `psr-4` entry that cannot hold an object. `None` when the
   * rewrite goes through.
   */
  ghost function RewriteFailure(edition: Edition, platform: Platform, m: map<string, Json>, fields: ManifestFields)
    : Option<ManifestError>
  {
    if fields.author.Some? && !AuthorAccepted(edition, platform, fields.author.value) then
      Some(AuthorFailed(InvalidAuthor(InvalidAuthorMessage)))
    else if ObjectAt(m, "autoload").None? then Some(NotAnObject("autoload"))
    else if ObjectAt(ObjectAt(m, "autoload").value, "psr-4").None? then Some(NotAnObject("psr-4"))
    else None
  }

  /**
   * `customizeComposerFile` on the decoded document `m`, for the plugin
   * namespace `ns`. A given author goes through `formatAuthors`; a skipped
   * one leaves `authors` as it was (the code as written fails there, see
   * `FormatAuthors`).
   */
  method CustomizeManifest(edition: Edition, platform: Platform, m: map<string, Json>,
                           fields: ManifestFields, ns: string)
    returns (r: Result<map<string, Json>, ManifestError>)
    ensures fields.author.Some? && FormatAuthors(edition, platform, fields.author).Err? ==>
              r == Err(AuthorFailed(FormatAuthors(edition, platform, fields.author).error))
    ensures (fields.author.None? || FormatAuthors(edition, platform, fields.author).Ok?) ==>
              (r.Err? <==> ObjectAt(m, "autoload").None? || ObjectAt(ObjectAt(m, "autoload").value, "psr-4").None?)
    ensures r.Err? ==> r.error != Unreadable
    ensures r.Err? <==> RewriteFailure(edition, platform, m, fields).Some?
    ensures r.Err? ==> r.error == RewriteFailure(edition, platform, m, fields).value
    ensures r.Ok? ==>
              ManifestRewritten(m, r.value, fields, AuthorsGiven(edition, platform, fields.author), ns)
  {
    var authors: Option<seq<Author>> := None;
    if fields.author.Some? {
      ParsesExactlyAccepted(edition, platform, fields.author.value);
      var formatted := FormatAuthors(edition, platform, fields.author);
      if formatted.Err? {
        return Err(AuthorFailed(formatted.error));
      }
      authors := Some(formatted.value);
    }
    assert authors == AuthorsGiven(edition, platform, fields.author);
    var autoload := ObjectAt(m, "autoload");
    if autoload.None? {
      return Err(NotAnObject("autoload"));
    }
    var psr4 := ObjectAt(autoload.value, "psr-4");
    if psr4.None? {
      return Err(NotAnObject("psr-4"));
    }

    var file := m["name" := StringOrNull(fields.packageName)];
    ghost var named := file;
    if authors.Some? {
      file := file["authors" := AuthorsJson(authors.value)];
    }
    ghost var withAuthors := file;
    file := file["description" := StringOrNull(fields.description)];
    ghost var described := file;
    file := file["license" := StringOrNull(fields.license)];
    TopLevelWrites(m, named, withAuthors, described, file, fields, authors);

    var prefixes := psr4.value;
    prefixes := prefixes[SourcePrefix(ns) := JString("src/")];
    prefixes := prefixes[TestsPrefix(ns) := JString("tests/")];
    prefixes := prefixes - {AcmePrefix};
    prefixes := prefixes - {AcmeTestsPrefix};
    Psr4Steps(psr4.value, ns);

    ghost var fieldsWritten := file;
    file := file["autoload" := JObject(autoload.value["psr-4" := JObject(prefixes)])];
    AutoloadWritten(m, fieldsWritten, file, fields, authors, ns, autoload.value, psr4.value, prefixes);
    r := Ok(file);
  }

  /** The keys `customizeComposerFile` sets at the top level, `autoload` aside. */
  function FieldKeys(authors: Option<seq<Author>>): set<string> {
    {"name", "description", "license"} + (if authors.Some? then {"authors"} else {})
  }

  /** The four top-level writes, in source order, set their keys and keep the rest. */
  lemma TopLevelWrites(m: map<string, Json>, named: map<string, Json>, withAuthors: map<string, Json>,
                       described: map<string, Json>, licensed: map<string, Json>,
                       fields: ManifestFields, authors: Option<seq<Author>>)
    requires named == m["name" := StringOrNull(fields.packageName)]
    requires withAuthors == if authors.Some? then named["authors" := AuthorsJson(authors.value)] else named
    requires described == withAuthors["description" := StringOrNull(fields.description)]
    requires licensed == described["license" := StringOrNull(fields.license)]
    ensures OthersKept(m, licensed, FieldKeys(authors))
    ensures licensed["name"] == StringOrNull(fields.packageName)
    ensures licensed["description"] == StringOrNull(fields.description)
    ensures licensed["license"] == StringOrNull(fields.license)
    ensures authors.Some? ==> licensed["authors"] == AuthorsJson(authors.value)
  {
    assert "name" != "authors" && "name" != "description" && "name" != "license";
    assert "authors" != "description" && "authors" != "license" && "description" != "license";
  }

  /** Writing the rewritten PSR-4 map back under `autoload` completes the rewrite. */
  lemma AutoloadWritten(m: map<string, Json>, licensed: map<string, Json>, out: map<string, Json>,
                        fields: ManifestFields, authors: Option<seq<Author>>, ns: string,
                        autoload: map<string, Json>, psr4: map<string, Json>, prefixes: map<string, Json>)
    requires OthersKept(m, licensed, FieldKeys(authors))
    requires licensed["name"] == StringOrNull(fields.packageName)
    requires licensed["description"] == StringOrNull(fields.description)
    requires licensed["license"] == StringOrNull(fields.license)
    requires authors.Some? ==> licensed["authors"] == AuthorsJson(authors.value)
    requires ObjectAt(m, "autoload") == Some(autoload) && ObjectAt(autoload, "psr-4") == Some(psr4)
    requires Psr4Rewritten(psr4, prefixes, ns)
    requires out == licensed["autoload" := JObject(autoload["psr-4" := JObject(prefixes)])]
    ensures ManifestRewritten(m, out, fields, authors, ns)
  {
    assert "autoload" !in FieldKeys(authors);
  }

  /**
   * Removal follows insertion: for the template's own namespace the two
   * new prefixes are removed again, and for any other namespace of the
   * `Vendor\Name` form they stay and the template's prefixes are gone.
   */
  lemma Psr4PrefixesSurviveUnlessAcme(before: map<string, Json>, after: map<string, Json>,
                                      ns: string, vendor: string, name: string)
    requires Psr4Rewritten(before, after, ns)
    requires ns == vendor + "\\" + name && '\\' !in vendor && '\\' !in name
    ensures ns == AcmeNamespace ==> SourcePrefix(ns) !in after && TestsPrefix(ns) !in after
    ensures ns != AcmeNamespace ==>
              SourcePrefix(ns) in after && after[SourcePrefix(ns)] == JString("src/")
              && TestsPrefix(ns) in after && after[TestsPrefix(ns)] == JString("tests/")
    ensures AcmePrefix !in after && AcmeTestsPrefix !in after
  {
    if ns != AcmeNamespace {
      OwnPrefixesDiffer(ns);
      PrefixesNotCrossed(ns, vendor, name);
    }
  }

  /** A namespace other than the template's has PSR-4 prefixes other than the template's. */
  lemma OwnPrefixesDiffer(ns: string)
    requires ns != AcmeNamespace
    ensures SourcePrefix(ns) != AcmePrefix && TestsPrefix(ns) != AcmeTestsPrefix
  {
    if SourcePrefix(ns) == AcmePrefix {
      CancelSuffix(ns, AcmeNamespace, "\\");
    }
    if TestsPrefix(ns) == AcmeTestsPrefix {
      CancelAround("Tests\\", ns, AcmeNamespace, "\\");
    }
  }

  /** A `Vendor\Name` namespace's source prefix is not the template's tests prefix, nor the reverse. */
  lemma PrefixesNotCrossed(ns: string, vendor: string, name: string)
    requires ns == vendor + "\\" + name && '\\' !in vendor && '\\' !in name
    ensures SourcePrefix(ns) != AcmeTestsPrefix && TestsPrefix(ns) != AcmePrefix
  {
    if SourcePrefix(ns) == AcmeTestsPrefix {
      assert ns == AcmeTestsPrefix[..|AcmeTestsPrefix| - 1];
      OneBackslash(ns, vendor, name, 5, 10);
    }
    assert TestsPrefix(ns)[0] == 'T' && AcmePrefix[0] == 'A';
  }

  /** `Vendor\Name` with no backslash in either part has just one backslash. */
  lemma OneBackslash(ns: string, vendor: string, name: string, i: nat, j: nat)
    requires ns == vendor + "\\" + name && '\\' !in vendor && '\\' !in name
    requires i < j < |ns| && ns[i] == '\\'
    ensures ns[j] != '\\'
  {
    assert i == |vendor|;
    assert ns[j] == name[j - |vendor| - 1];
  }

  lemma CancelAround(a: string, x: string, y: string, b: string)
    requires a + x + b == a + y + b
    ensures x == y
  {
    assert |x| == |y|;
    assert x == (a + x + b)[|a|..|a| + |x|];
    assert y == (a + y + b)[|a|..|a| + |y|];
  }

  /** The four updates of the PSR-4 map, in source order, meet `Psr4Rewritten`. */
  lemma Psr4Steps(before: map<string, Json>, ns: string)
    ensures Psr4Rewritten(before, before[SourcePrefix(ns) := JString("src/")][TestsPrefix(ns) := JString("tests/")]
                                  - {AcmePrefix} - {AcmeTestsPrefix}, ns)
  {
  }

  lemma CancelSuffix(x: string, y: string, b: string)
    requires x + b == y + b
    ensures x == y
  {
    assert |x| == |y|;
    assert x == (x + b)[..|x|];
    assert y == (y + b)[..|y|];
  }
}
