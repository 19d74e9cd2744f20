/**
 * The author of the plugin: `parseAuthorString`, the two versions of
 * `isValidEmail`, the answer validator of the author prompt and
 * `formatAuthors`.
 */
module Authors {
  import opened Wrappers
  import opened PhpStrings
  import opened Environment

  /** The pair that `parseAuthorString` returns (keys `name` and `email`). */
  datatype Author = Author(name: string, email: string)

  /** `isValidEmail` of either copy; the older one also trusts runtimes before PHP 5.3.3. */
  function IsValidEmail(edition: Edition, platform: Platform, email: string): (valid: bool)
    ensures platform.filterVar.None? ==> valid
    ensures edition == Legacy && platform.versionId < 50303 ==> valid
    ensures !valid ==> platform.filterVar.Some? && !platform.filterVar.value(email)
    ensures platform.filterVar.Some? && !(edition == Legacy && platform.versionId < 50303) ==>
              (valid <==> platform.filterVar.value(email))
  {
    if platform.filterVar.None? then true
    else if edition == Legacy && platform.versionId < 50303 then true
    else platform.filterVar.value(email)
  }

  /** The older copy accepts every address the newer one accepts. */
  lemma LegacyEmailCheckIsWeaker(platform: Platform, email: string)
    ensures IsValidEmail(Current, platform, email) ==> IsValidEmail(Legacy, platform, email)
  {
  }

  /** On PHP 5.3.3 and later the two copies agree. */
  lemma EmailChecksAgreeFromPhp533(platform: Platform, email: string)
    requires platform.versionId >= 50303
    ensures IsValidEmail(Current, platform, email) == IsValidEmail(Legacy, platform, email)
  {
  }

  /**
   * The name class `[- .,\p{L}\p{N}\p{Mn}'’"()]`. No letter, digit or mark
   * is `<`; that is stated here rather than left to the platform.
   */
  predicate IsNameChar(platform: Platform, c: char) {
    c != '<' && (c in "- .,'\U{2019}\"()" || platform.isLetter(c))
  }

  predicate AllNameChars(platform: Platform, raw: string) {
    forall k :: 0 <= k < |raw| ==> IsNameChar(platform, raw[k])
  }

  /**
   * `s` matches `^(?P<name>...+) <(?P<email>.+?)>$` with the groups `raw`
   * and `email`: a non-empty run of name characters, a space, `<`, a
   * non-empty address without a line feed, and `>` at the very end.
   */
  ghost predicate AuthorShape(platform: Platform, s: string, raw: string, email: string) {
    s == raw + " <" + email + ">"
    && |raw| > 0 && AllNameChars(platform, raw)
    && |email| > 0 && '\n' !in email
  }

  const InvalidAuthorMessage := "Invalid author string.  Must be in the format: John Smith <john@example.com>"

  /** The name group ends just before the first `<`, so the match is unique. */
  lemma AuthorShapeAtFirstBracket(platform: Platform, s: string, raw: string, email: string)
    requires AuthorShape(platform, s, raw, email)
    ensures IndexOf(s, '<') == |raw| + 1
    ensures raw == s[..|raw|] && email == s[|raw| + 2..|s| - 1]
  {
    assert s[|raw| + 1] == '<';
    forall k | 0 <= k < |raw| + 1 ensures s[k] != '<' {
      if k < |raw| {
        assert s[k] == raw[k];
        assert IsNameChar(platform, raw[k]);
      }
    }
    assert s[..|raw|] == raw;
    assert s[|raw| + 2..|s| - 1] == email;
  }

  /**
   * `parseAuthorString`: the trimmed name and the address of an author
   * string whose address `isValidEmail` accepts; the one error message
   * otherwise.
   */
  function ParseAuthorString(edition: Edition, platform: Platform, s: string): (r: Result<Author, string>)
    ensures forall raw, email {:trigger AuthorShape(platform, s, raw, email)} :: AuthorShape(platform, s, raw, email) ==>
              r == if IsValidEmail(edition, platform, email) then Ok(Author(Trim(raw), email))
                   else Err(InvalidAuthorMessage)
    ensures (forall raw, email {:trigger AuthorShape(platform, s, raw, email)} :: !AuthorShape(platform, s, raw, email)) ==>
              r == Err(InvalidAuthorMessage)
    ensures r.Err? ==> r.error == InvalidAuthorMessage
  {
    var i := IndexOf(s, '<');
    if 2 <= i && i + 3 <= |s| && s[i - 1] == ' ' && s[|s| - 1] == '>'
       && AllNameChars(platform, s[..i - 1]) && '\n' !in s[i + 1..|s| - 1]
    then
      var raw, email := s[..i - 1], s[i + 1..|s| - 1];
      assert s == raw + " <" + email + ">";
      assert AuthorShape(platform, s, raw, email);
      assert forall raw', email' :: AuthorShape(platform, s, raw', email') ==> raw' == raw && email' == email by {
        forall raw', email' | AuthorShape(platform, s, raw', email') ensures raw' == raw && email' == email {
          AuthorShapeAtFirstBracket(platform, s, raw', email');
        }
      }
      if IsValidEmail(edition, platform, email) then Ok(Author(Trim(raw), email))
      else Err(InvalidAuthorMessage)
    else
      assert forall raw, email :: !AuthorShape(platform, s, raw, email) by {
        forall raw, email | AuthorShape(platform, s, raw, email) ensures false {
          AuthorShapeAtFirstBracket(platform, s, raw, email);
        }
      }
      Err(InvalidAuthorMessage)
  }

  /** `sprintf('%s <%s>', $author['name'], $author['email'])`. */
  function AuthorString(a: Author): string {
    a.name + " <" + a.email + ">"
  }

  /**
   * The validator of the author prompt: `n` and `no` skip the author (the
   * answer becomes null); any other answer is parsed and rebuilt, and a
   * parse failure is the prompt's error.
   */
  function AuthorAnswer(edition: Edition, platform: Platform, answer: string): (r: Result<Option<string>, string>)
    ensures answer == "n" || answer == "no" ==> r == Ok(None)
    ensures answer != "n" && answer != "no" ==>
              (r.Ok? <==> ParseAuthorString(edition, platform, answer).Ok?)
              && (r.Ok? ==> r.value == Some(AuthorString(ParseAuthorString(edition, platform, answer).value)))
    ensures r.Err? ==> r.error == InvalidAuthorMessage
  {
    if answer == "n" || answer == "no" then Ok(None)
    else
      match ParseAuthorString(edition, platform, answer)
      case Ok(a) => Ok(Some(AuthorString(a)))
      case Err(m) => Err(m)
  }

  /** Trimming keeps a run of name characters a run of name characters. */
  lemma TrimKeepsNameChars(platform: Platform, raw: string)
    requires AllNameChars(platform, raw)
    ensures AllNameChars(platform, Trim(raw))
  {
    var t := Trim(raw);
    var i, j :| 0 <= i <= j <= |raw| && t == raw[i..j];
    forall k | 0 <= k < |t| ensures IsNameChar(platform, t[k]) {
      assert t[k] == raw[i + k];
    }
  }

  /** A parsed author whose name is not blank is the author of its own rebuilt string. */
  lemma AuthorStringParses(edition: Edition, platform: Platform, a: Author)
    requires a.name != [] && AllNameChars(platform, a.name) && Trim(a.name) == a.name
    requires |a.email| > 0 && '\n' !in a.email && IsValidEmail(edition, platform, a.email)
    ensures ParseAuthorString(edition, platform, AuthorString(a)) == Ok(a)
  {
    assert AuthorShape(platform, AuthorString(a), a.name, a.email);
  }

  /** A string that parses has the shape whose groups make the parsed author. */
  lemma ParsedShape(edition: Edition, platform: Platform, s: string) returns (raw: string, email: string)
    requires ParseAuthorString(edition, platform, s).Ok?
    ensures AuthorShape(platform, s, raw, email) && IsValidEmail(edition, platform, email)
    ensures ParseAuthorString(edition, platform, s) == Ok(Author(Trim(raw), email))
  {
    raw, email :| AuthorShape(platform, s, raw, email);
  }

  /**
   * The author strings the pattern accepts and whose address passes the
   * address check, read straight off the pattern.
   */
  ghost predicate AuthorAccepted(edition: Edition, platform: Platform, s: string) {
    exists raw, email :: AuthorShape(platform, s, raw, email) && IsValidEmail(edition, platform, email)
  }

  /** `parseAuthorString` succeeds exactly on the accepted strings. */
  lemma ParsesExactlyAccepted(edition: Edition, platform: Platform, s: string)
    ensures ParseAuthorString(edition, platform, s).Ok? <==> AuthorAccepted(edition, platform, s)
  {
    if ParseAuthorString(edition, platform, s).Ok? {
      var raw, email := ParsedShape(edition, platform, s);
    }
  }

  /**
   * The string the author prompt stores parses again to the same author,
   * as long as the trimmed name is not empty.
   */
  lemma AuthorAnswerReparses(edition: Edition, platform: Platform, answer: string)
    requires ParseAuthorString(edition, platform, answer).Ok?
    requires ParseAuthorString(edition, platform, answer).value.name != []
    ensures ParseAuthorString(edition, platform, AuthorString(ParseAuthorString(edition, platform, answer).value))
            == ParseAuthorString(edition, platform, answer)
  {
    var raw, email := ParsedShape(edition, platform, answer);
    var a := Author(Trim(raw), email);
    TrimKeepsNameChars(platform, raw);
    TrimOfTrimmed(a.name);
    AuthorStringParses(edition, platform, a);
  }

  /** An author whose name trims to nothing is stored as a string that no longer parses. */
  lemma BlankAuthorNameDoesNotReparse(edition: Edition, platform: Platform, a: Author)
    requires a.name == []
    ensures ParseAuthorString(edition, platform, AuthorString(a)).Err?
  {
    var s := AuthorString(a);
    assert s[0] == ' ' && s[1] == '<';
    assert IndexOf(s, '<') == 1;
    forall raw, email | AuthorShape(platform, s, raw, email) ensures false {
      AuthorShapeAtFirstBracket(platform, s, raw, email);
    }
  }

  /** Why `formatAuthors` fails: a null argument or an author string that does not parse. */
  datatype AuthorFailure = NullAuthor | InvalidAuthor(message: string)

  /**
   * `formatAuthors(string $author)`: the one-element list of the parsed
   * author. A null argument (`None`) is a `TypeError` in PHP 7, since the
   * parameter is a non-nullable `string`.
   */
  function FormatAuthors(edition: Edition, platform: Platform, author: Option<string>): (r: Result<seq<Author>, AuthorFailure>)
    ensures author.None? ==> r == Err(NullAuthor)
    ensures author.Some? ==> (r.Ok? <==> ParseAuthorString(edition, platform, author.value).Ok?)
    ensures r.Ok? ==> |r.value| == 1 && Ok(r.value[0]) == ParseAuthorString(edition, platform, author.value)
    ensures r.Err? && author.Some? ==> r.error == InvalidAuthor(InvalidAuthorMessage)
  {
    match author
    case None => Err(NullAuthor)
    case Some(s) =>
      match ParseAuthorString(edition, platform, s)
      case Ok(a) => Ok([a])
      case Err(m) => Err(InvalidAuthor(m))
  }

  /**
   * Skipping the author at the prompt stores null, and `formatAuthors`,
   * which `customizeComposerFile` calls whatever the option holds, then
   * fails: the skip that the prompt offers cannot succeed as written.
   */
  lemma SkippedAuthorFailsAsWritten(edition: Edition, platform: Platform, answer: string)
    requires answer == "n" || answer == "no"
    ensures AuthorAnswer(edition, platform, answer) == Ok(None)
    ensures FormatAuthors(edition, platform, AuthorAnswer(edition, platform, answer).value) == Err(NullAuthor)
  {
  }
}
