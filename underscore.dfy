/**
 * The case helpers of the Underscore library's `Strings` class, as the
 * installer uses them. Their source is not part of this model; the
 * definitions below are the stated assumptions:
 * - `toPascalCase`: '-', '_' and ' ' break words, the first letter of each
 *   word is upper-cased (ASCII), the breaks disappear;
 * - `toSnakeCase`: every ASCII capital becomes '_' and its small letter,
 *   so a capitalised input gains a leading '_';
 * - `lower`: ASCII lower-casing;
 * - `remove`: deletes every occurrence.
 */
module Underscore {
  import opened PhpStrings

  predicate IsWordBreak(c: char) {
    c == '-' || c == '_' || c == ' '
  }

  predicate IsAsciiUpper(c: char) {
    'A' <= c <= 'Z'
  }

  predicate IsAsciiLower(c: char) {
    'a' <= c <= 'z'
  }

  function UpperAscii(c: char): char {
    if IsAsciiLower(c) then (c as int - 32) as char else c
  }

  function LowerAscii(c: char): char {
    if IsAsciiUpper(c) then (c as int + 32) as char else c
  }

  /**
   * Pascal-casing of `s`, where `atWordStart` says whether the first
   * character begins a word.
   */
  function Studly(s: string, atWordStart: bool): string
    decreases |s|
  {
    if s == [] then []
    else if IsWordBreak(s[0]) then Studly(s[1..], true)
    else [if atWordStart then UpperAscii(s[0]) else s[0]] + Studly(s[1..], false)
  }

  /**
   * Every character of a Pascal-cased string is a character of the input or
   * the capital of one, and no word break survives.
   */
  lemma {:induction false} StudlyChars(s: string, atWordStart: bool)
    ensures forall c :: c in Studly(s, atWordStart) ==> !IsWordBreak(c)
    ensures forall c :: c in Studly(s, atWordStart) ==> c in s || (IsAsciiUpper(c) && LowerAscii(c) in s)
    decreases |s|
  {
    if s != [] {
      StudlyChars(s[1..], true);
      StudlyChars(s[1..], false);
    }
  }

  function ToPascalCase(s: string): string {
    Studly(s, true)
  }

  function ToSnakeCase(s: string): string
    decreases |s|
  {
    if s == [] then []
    else (if IsAsciiUpper(s[0]) then ['_', LowerAscii(s[0])] else [s[0]]) + ToSnakeCase(s[1..])
  }

  function Lower(s: string): string {
    seq(|s|, i requires 0 <= i < |s| => LowerAscii(s[i]))
  }

  function Remove(s: string, x: string): string {
    ReplaceAll(s, x, "")
  }

  // ----- evaluating the helpers on words -----

  predicate NoWordBreak(w: string) {
    forall i :: 0 <= i < |w| ==> !IsWordBreak(w[i])
  }

  lemma NoWordBreakConcat(a: string, b: string)
    requires NoWordBreak(a) && NoWordBreak(b)
    ensures NoWordBreak(a + b)
  {
    forall i | 0 <= i < |a + b| ensures !IsWordBreak((a + b)[i]) {
      if i >= |a| {
        assert (a + b)[i] == b[i - |a|];
      }
    }
  }

  lemma LowerConcat(a: string, b: string)
    ensures Lower(a + b) == Lower(a) + Lower(b)
  {
  }

  /** A word keeps its letters; only its first one is capitalised at a word start. */
  lemma {:induction false} StudlyWord(w: string)
    requires NoWordBreak(w)
    ensures Studly(w, false) == w
    ensures |w| > 0 ==> Studly(w, true) == [UpperAscii(w[0])] + w[1..]
    decreases |w|
  {
    if |w| > 0 {
      StudlyWord(w[1..]);
    }
  }

  /** A word break restarts capitalisation and is dropped. */
  lemma {:induction false} StudlyAtBreak(a: string, c: char, b: string, atWordStart: bool)
    requires IsWordBreak(c)
    ensures Studly(a + [c] + b, atWordStart) == Studly(a, atWordStart) + Studly(b, true)
    decreases |a|
  {
    if a == [] {
      assert a + [c] + b == [c] + b;
    } else {
      assert (a + [c] + b)[1..] == a[1..] + [c] + b;
      StudlyAtBreak(a[1..], c, b, IsWordBreak(a[0]));
      StudlyAtBreak(a[1..], c, b, false);
    }
  }

  lemma {:induction false} SnakeConcat(a: string, b: string)
    ensures ToSnakeCase(a + b) == ToSnakeCase(a) + ToSnakeCase(b)
    decreases |a|
  {
    if a == [] {
      assert a + b == b;
    } else {
      assert (a + b)[1..] == a[1..] + b;
      SnakeConcat(a[1..], b);
    }
  }

  lemma {:induction false} SnakeNoCapitals(w: string)
    requires forall i :: 0 <= i < |w| ==> !IsAsciiUpper(w[i])
    ensures ToSnakeCase(w) == w
    decreases |w|
  {
    if w != [] {
      SnakeNoCapitals(w[1..]);
    }
  }

  /** A capitalised word of small letters snake-cases to '_' and the word in small letters. */
  lemma SnakeCapitalisedWord(w: string)
    requires |w| > 0 && IsAsciiUpper(w[0])
    requires forall i :: 1 <= i < |w| ==> !IsAsciiUpper(w[i])
    ensures ToSnakeCase(w) == ['_', LowerAscii(w[0])] + w[1..]
  {
    SnakeNoCapitals(w[1..]);
  }
}
