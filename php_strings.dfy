/**
 * The PHP string built-ins the installer relies on: `str_replace` with one
 * search/replace pair and with arrays of pairs, `explode`, `implode`,
 * `trim`, `ltrim` with a single character, and prefix/suffix tests.
 * Strings are sequences of characters; no multibyte or locale behaviour.
 */
module PhpStrings {

  /** `needle` occurs in `s` at index `i`. */
  predicate OccursAt(s: string, needle: string, i: nat) {
    i + |needle| <= |s| && s[i..i + |needle|] == needle
  }

  /** PHP's `str_contains`, stated with an index. */
  predicate Contains(s: string, needle: string) {
    exists i: nat | i <= |s| :: OccursAt(s, needle, i)
  }

  predicate StartsWith(s: string, prefix: string) {
    |prefix| <= |s| && s[..|prefix|] == prefix
  }

  predicate EndsWith(s: string, suffix: string) {
    |suffix| <= |s| && s[|s| - |suffix|..] == suffix
  }

  /** `strpos($s, $c)` for one character, with `|s|` standing for "not found". */
  function IndexOf(s: string, c: char): (i: nat)
    ensures i <= |s|
    ensures i < |s| ==> s[i] == c
    ensures forall j :: 0 <= j < i ==> s[j] != c
    decreases |s|
  {
    if s == [] then 0
    else if s[0] == c then 0
    else 1 + IndexOf(s[1..], c)
  }

  /**
   * `str_replace($search, $replace, $s)` with two strings: every occurrence
   * of `search`, found left to right without overlapping, becomes `replace`;
   * an empty `search` leaves `s` as it is.
   */
  function ReplaceAll(s: string, search: string, replace: string): string
    decreases |s|
  {
    if |search| == 0 || |s| < |search| then s
    else if s[..|search|] == search then replace + ReplaceAll(s[|search|..], search, replace)
    else [s[0]] + ReplaceAll(s[1..], search, replace)
  }

  /**
   * `str_replace($searches, $replaces, $s)` with two arrays: the pairs are
   * applied one after another, each over the result of the ones before it.
   */
  function ReplacePairs(s: string, pairs: seq<(string, string)>): string
    decreases |pairs|
  {
    if pairs == [] then s
    else ReplacePairs(ReplaceAll(s, pairs[0].0, pairs[0].1), pairs[1..])
  }

  /** `explode($delimiter, $s)`; PHP refuses an empty delimiter. */
  function Explode(delimiter: string, s: string): (parts: seq<string>)
    requires |delimiter| > 0
    ensures |parts| >= 1
    decreases |s|
  {
    if |s| < |delimiter| then [s]
    else if s[..|delimiter|] == delimiter then [""] + Explode(delimiter, s[|delimiter|..])
    else
      var rest := Explode(delimiter, s[1..]);
      [[s[0]] + rest[0]] + rest[1..]
  }

  /** `implode($glue, $parts)`. */
  function Implode(glue: string, parts: seq<string>): string
    decreases |parts|
  {
    if parts == [] then ""
    else if |parts| == 1 then parts[0]
    else parts[0] + glue + Implode(glue, parts[1..])
  }

  /** The characters PHP's `trim` strips by default. */
  predicate IsTrimmable(c: char) {
    c == ' ' || c == '\t' || c == '\n' || c == '\r' || c == '\0' || c == '\U{0B}'
  }

  function TrimLeft(s: string): (r: string)
    ensures |r| <= |s| && r == s[|s| - |r|..]
    ensures r == [] || !IsTrimmable(r[0])
    decreases |s|
  {
    if |s| > 0 && IsTrimmable(s[0]) then TrimLeft(s[1..]) else s
  }

  function TrimRight(s: string): (r: string)
    ensures |r| <= |s| && r == s[..|r|]
    ensures r == [] || !IsTrimmable(r[|r| - 1])
    decreases |s|
  {
    if |s| > 0 && IsTrimmable(s[|s| - 1]) then TrimRight(s[..|s| - 1]) else s
  }

  /** PHP's `trim($s)`: a middle slice of `s` with no strippable end. */
  function Trim(s: string): (r: string)
    ensures exists i, j :: 0 <= i <= j <= |s| && r == s[i..j]
    ensures r == [] || (!IsTrimmable(r[0]) && !IsTrimmable(r[|r| - 1]))
  {
    var left := TrimLeft(s);
    var r := TrimRight(left);
    assert r == s[|s| - |left|..][..|r|] == s[|s| - |left|..|s| - |left| + |r|];
    r
  }

  /** A string with no strippable end is its own `trim`. */
  lemma TrimOfTrimmed(r: string)
    requires r == [] || (!IsTrimmable(r[0]) && !IsTrimmable(r[|r| - 1]))
    ensures Trim(r) == r
  {
  }

  /** `ltrim($s, $c)` with a one-character list. */
  function LtrimChar(s: string, c: char): (r: string)
    ensures |r| <= |s| && r == s[|s| - |r|..]
    ensures r == [] || r[0] != c
    decreases |s|
  {
    if |s| > 0 && s[0] == c then LtrimChar(s[1..], c) else s
  }

  // ----- str_replace against explode/implode -----

  lemma {:induction false} ImplodeConsHead(glue: string, c: string, p: string, tail: seq<string>)
    ensures Implode(glue, [c + p] + tail) == c + Implode(glue, [p] + tail)
  {
    if tail != [] {
      assert ([c + p] + tail)[1..] == tail;
      assert ([p] + tail)[1..] == tail;
    }
  }

  /** `str_replace` with one pair is `implode($replace, explode($search, $s))`. */
  lemma {:induction false} ReplaceAllIsImplodeExplode(s: string, search: string, replace: string)
    requires |search| > 0
    ensures ReplaceAll(s, search, replace) == Implode(replace, Explode(search, s))
    decreases |s|
  {
    if |s| < |search| {
    } else if s[..|search|] == search {
      var rest := Explode(search, s[|search|..]);
      ReplaceAllIsImplodeExplode(s[|search|..], search, replace);
      assert ([""] + rest)[1..] == rest;
    } else {
      var rest := Explode(search, s[1..]);
      ReplaceAllIsImplodeExplode(s[1..], search, replace);
      ImplodeConsHead(replace, [s[0]], rest[0], rest[1..]);
      assert [rest[0]] + rest[1..] == rest;
    }
  }

  /** Splitting and gluing back with the same delimiter is the identity. */
  lemma {:induction false} ImplodeExplode(delimiter: string, s: string)
    requires |delimiter| > 0
    ensures Implode(delimiter, Explode(delimiter, s)) == s
    decreases |s|
  {
    if |s| < |delimiter| {
    } else if s[..|delimiter|] == delimiter {
      var rest := Explode(delimiter, s[|delimiter|..]);
      calc {
        Implode(delimiter, Explode(delimiter, s));
        Implode(delimiter, [""] + rest);
        { assert ([""] + rest)[1..] == rest; }
        "" + delimiter + Implode(delimiter, rest);
        { ImplodeExplode(delimiter, s[|delimiter|..]); }
        s[..|delimiter|] + s[|delimiter|..];
        s;
      }
    } else {
      var rest := Explode(delimiter, s[1..]);
      calc {
        Implode(delimiter, Explode(delimiter, s));
        Implode(delimiter, [[s[0]] + rest[0]] + rest[1..]);
        { ImplodeConsHead(delimiter, [s[0]], rest[0], rest[1..]); }
        [s[0]] + Implode(delimiter, [rest[0]] + rest[1..]);
        { assert [rest[0]] + rest[1..] == rest;
          ImplodeExplode(delimiter, s[1..]); }
        [s[0]] + s[1..];
        s;
      }
    }
  }

  /** Replacing a string by itself changes nothing. */
  lemma ReplaceAllBySelf(s: string, search: string)
    ensures ReplaceAll(s, search, search) == s
  {
    if |search| > 0 {
      ReplaceAllIsImplodeExplode(s, search, search);
      ImplodeExplode(search, s);
    }
  }

  /** A string in which the search text does not occur is returned unchanged. */
  lemma {:induction false} ReplaceAllAbsent(s: string, search: string, replace: string)
    requires !Contains(s, search)
    ensures ReplaceAll(s, search, replace) == s
    decreases |s|
  {
    if |search| > 0 && |search| <= |s| {
      assert !OccursAt(s, search, 0);
      forall i: nat | OccursAt(s[1..], search, i) ensures OccursAt(s, search, i + 1) {
        assert s[i + 1..i + 1 + |search|] == s[1..][i..i + |search|];
      }
      ReplaceAllAbsent(s[1..], search, replace);
    }
  }

  /** The array form leaves a string alone when none of the search texts occurs in it. */
  lemma {:induction false} ReplacePairsAbsent(s: string, pairs: seq<(string, string)>)
    requires forall k :: 0 <= k < |pairs| ==> !Contains(s, pairs[k].0)
    ensures ReplacePairs(s, pairs) == s
    decreases |pairs|
  {
    if pairs != [] {
      ReplaceAllAbsent(s, pairs[0].0, pairs[0].1);
      ReplacePairsAbsent(s, pairs[1..]);
    }
  }

  // ----- one-character search texts and delimiters -----

  /** With a one-character search text, replacement distributes over concatenation. */
  lemma {:induction false} ReplaceCharConcat(x: string, y: string, c: char, replace: string)
    ensures ReplaceAll(x + y, [c], replace) == ReplaceAll(x, [c], replace) + ReplaceAll(y, [c], replace)
    decreases |x|
  {
    if x != [] {
      assert (x + y)[1..] == x[1..] + y;
      assert (x + y)[..|[c]|] == x[..|[c]|] == [x[0]];
      ReplaceCharConcat(x[1..], y, c, replace);
    } else {
      assert x + y == y;
    }
  }

  /** A one-character delimiter splits a concatenation at the delimiter between its parts. */
  lemma {:induction false} ExplodeCharConcat(c: char, x: string, y: string)
    ensures Explode([c], x + [c] + y) == Explode([c], x) + Explode([c], y)
    decreases |x|
  {
    if x == [] {
      assert x + [c] + y == [c] + y;
      assert ([c] + y)[1..] == y;
    } else {
      var s := x + [c] + y;
      assert s[1..] == x[1..] + [c] + y;
      ExplodeCharConcat(c, x[1..], y);
    }
  }

  /** A string without the delimiter explodes into itself. */
  lemma {:induction false} ExplodeCharAbsent(c: char, x: string)
    requires c !in x
    ensures Explode([c], x) == [x]
    decreases |x|
  {
    if x != [] {
      ExplodeCharAbsent(c, x[1..]);
      assert [x[0]] + x[1..] == x;
    }
  }

  /** A character that does not occur is not a one-character substring. */
  lemma CharAbsentNotContained(s: string, c: char)
    requires c !in s
    ensures !Contains(s, [c])
  {
    forall i: nat ensures !OccursAt(s, [c], i) {
      if i + 1 <= |s| {
        assert s[i..i + 1] == [s[i]];
      }
    }
  }

  /** The last part of `explode` is a suffix of the string. */
  lemma ExplodeLastIsSuffix(delimiter: string, s: string)
    requires |delimiter| > 0
    ensures EndsWith(s, Last(Explode(delimiter, s)))
  {
    ImplodeExplode(delimiter, s);
    ImplodeEndsWithLast(delimiter, Explode(delimiter, s));
  }

  /** `implode` ends with its last part. */
  lemma {:induction false} ImplodeEndsWithLast(glue: string, parts: seq<string>)
    requires |parts| > 0
    ensures EndsWith(Implode(glue, parts), Last(parts))
    decreases |parts|
  {
    var whole := Implode(glue, parts);
    if |parts| == 1 {
      assert whole[|whole| - |whole|..] == whole;
    } else {
      var tail := Implode(glue, parts[1..]);
      ImplodeEndsWithLast(glue, parts[1..]);
      assert Last(parts[1..]) == Last(parts);
      SuffixOfSuffix(whole, |parts[0] + glue|, Last(parts));
    }
  }

  function Last(parts: seq<string>): string
    requires |parts| > 0
  {
    parts[|parts| - 1]
  }

  /** A suffix of a suffix of `s` is a suffix of `s`. */
  lemma EndsWithTransitive(s: string, middle: string, suffix: string)
    requires EndsWith(s, middle) && EndsWith(middle, suffix)
    ensures EndsWith(s, suffix)
  {
    SuffixOfSuffix(s, |s| - |middle|, suffix);
  }

  /** A suffix of a suffix of `s` is a suffix of `s`. */
  lemma SuffixOfSuffix(s: string, cut: nat, last: string)
    requires cut <= |s| && |last| <= |s| - cut && s[cut..][|s| - cut - |last|..] == last
    ensures EndsWith(s, last)
  {
    assert s[|s| - |last|..] == s[cut..][|s| - cut - |last|..];
  }

  /**
   * No occurrence of `search` runs across the start of `y` when `y`'s first
   * character does not occur in `search`, so the two sides are replaced
   * separately.
   */
  lemma {:induction false} ReplaceAllSplit(x: string, y: string, search: string, replace: string)
    requires |y| > 0 && y[0] !in search
    ensures ReplaceAll(x + y, search, replace) == ReplaceAll(x, search, replace) + ReplaceAll(y, search, replace)
    decreases |x|, 1
  {
    var s := x + y;
    if |search| == 0 {
    } else if x == [] {
      assert s == y;
    } else if |s| < |search| {
      assert ReplaceAll(s, search, replace) == x + ReplaceAll(y, search, replace);
    } else if |x| < |search| || s[..|search|] != search {
      ReplaceAllSplitSkip(x, y, search, replace);
    } else {
      ReplaceAllSplitMatch(x, y, search, replace);
    }
  }

  /** `ReplaceAllSplit` when no occurrence starts at the front of `x + y`. */
  lemma {:induction false} ReplaceAllSplitSkip(x: string, y: string, search: string, replace: string)
    requires |y| > 0 && y[0] !in search
    requires |x| > 0 && 0 < |search| <= |x + y| && (|x| < |search| || (x + y)[..|search|] != search)
    ensures ReplaceAll(x + y, search, replace) == ReplaceAll(x, search, replace) + ReplaceAll(y, search, replace)
    decreases |x|, 0
  {
    var s := x + y;
    var ry := ReplaceAll(y, search, replace);
    assert s[..|search|] != search by {
      if |x| < |search| {
        assert s[..|search|][|x|] == y[0];
      }
    }
    var tail := ReplaceAll(x[1..], search, replace);
    assert ReplaceAll(s, search, replace) == [x[0]] + (tail + ry) by {
      assert s[1..] == x[1..] + y;
      ReplaceAllSplit(x[1..], y, search, replace);
    }
    assert ReplaceAll(x, search, replace) == [x[0]] + tail by {
      if |x| < |search| {
        assert [x[0]] + x[1..] == x;
      } else {
        assert x[..|search|] == s[..|search|];
      }
    }
  }

  /** `ReplaceAllSplit` when an occurrence starts at the front of `x + y`. */
  lemma {:induction false} ReplaceAllSplitMatch(x: string, y: string, search: string, replace: string)
    requires |y| > 0 && y[0] !in search
    requires 0 < |search| <= |x| && (x + y)[..|search|] == search
    ensures ReplaceAll(x + y, search, replace) == ReplaceAll(x, search, replace) + ReplaceAll(y, search, replace)
    decreases |x|, 0
  {
    var s := x + y;
    assert x[..|search|] == search;
    assert s[|search|..] == x[|search|..] + y;
    ReplaceAllSplit(x[|search|..], y, search, replace);
  }
}
