/**
 * The string operations the backend and the front end rely on: substring tests
 * (Python `in`, JavaScript `includes`, `startswith`), ASCII case mapping
 * (`lower`, `upper`, `title`), Python's whitespace and `str.split()` word count.
 */
module Text {

  predicate StartsWith(s: string, prefix: string) {
    |prefix| <= |s| && s[..|prefix|] == prefix
  }

  /** `sub in s` in Python, `s.includes(sub)` in JavaScript. */
  predicate Contains(s: string, sub: string)
    decreases |s|
  {
    StartsWith(s, sub) || (|s| > 0 && Contains(s[1..], sub))
  }

  ghost predicate OccursAt(s: string, sub: string, i: int) {
    0 <= i && i + |sub| <= |s| && s[i..i + |sub|] == sub
  }

  /** `Contains` holds exactly when `sub` occurs at some position of `s`. */
  lemma {:induction false} ContainsIff(s: string, sub: string)
    ensures Contains(s, sub) <==> exists i :: OccursAt(s, sub, i)
    decreases |s|
  {
    if StartsWith(s, sub) {
      assert OccursAt(s, sub, 0);
    } else if |s| == 0 {
    } else {
      ContainsIff(s[1..], sub);
      if Contains(s[1..], sub) {
        var i :| OccursAt(s[1..], sub, i);
        assert s[i + 1..i + 1 + |sub|] == s[1..][i..i + |sub|];
        assert OccursAt(s, sub, i + 1);
      } else {
        forall i | OccursAt(s, sub, i) && i > 0 ensures OccursAt(s[1..], sub, i - 1) {
          assert s[1..][i - 1..i - 1 + |sub|] == s[i..i + |sub|];
        }
      }
    }
  }

  lemma ContainsAt(s: string, sub: string, i: int)
    requires OccursAt(s, sub, i)
    ensures Contains(s, sub)
  {
    ContainsIff(s, sub);
  }

  lemma PrefixContained(s: string, prefix: string)
    requires StartsWith(s, prefix)
    ensures Contains(s, prefix)
  {
  }

  lemma {:induction false} LongerNotContained(s: string, sub: string)
    requires |s| < |sub|
    ensures !Contains(s, sub)
    decreases |s|
  {
    if |s| > 0 {
      LongerNotContained(s[1..], sub);
    }
  }

  predicate IsAsciiUpper(c: char) { 'A' <= c <= 'Z' }
  predicate IsAsciiLower(c: char) { 'a' <= c <= 'z' }
  predicate IsAsciiLetter(c: char) { IsAsciiUpper(c) || IsAsciiLower(c) }
  predicate IsAsciiDigit(c: char) { '0' <= c <= '9' }

  function LowerChar(c: char): (r: char)
    ensures !IsAsciiUpper(r)
    ensures IsAsciiLetter(c) <==> IsAsciiLetter(r)
  {
    if IsAsciiUpper(c) then (c as int + 32) as char else c
  }

  function UpperChar(c: char): (r: char)
    ensures !IsAsciiLower(r)
    ensures IsAsciiLetter(c) <==> IsAsciiLetter(r)
  {
    if IsAsciiLower(c) then (c as int - 32) as char else c
  }

  /** `str.lower()` / `toLowerCase()` on ASCII letters. */
  function Lower(s: string): (r: string)
    ensures |r| == |s|
    decreases |s|
  {
    if s == [] then [] else [LowerChar(s[0])] + Lower(s[1..])
  }

  /** `str.upper()` on ASCII letters. */
  function Upper(s: string): (r: string)
    ensures |r| == |s|
    decreases |s|
  {
    if s == [] then [] else [UpperChar(s[0])] + Upper(s[1..])
  }

  predicate HasNoUpper(s: string) {
    forall i :: 0 <= i < |s| ==> !IsAsciiUpper(s[i])
  }

  lemma {:induction false} LowerOfLowerCase(s: string)
    requires HasNoUpper(s)
    ensures Lower(s) == s
    decreases |s|
  {
    if s != [] {
      LowerOfLowerCase(s[1..]);
    }
  }

  /**
   * `str.title()`: a letter that follows a letter is lower-cased, any other
   * letter is upper-cased; everything else is kept.
   */
  function TitleFrom(s: string, afterLetter: bool): (r: string)
    ensures |r| == |s|
    decreases |s|
  {
    if s == [] then []
    else
      var c := if afterLetter then LowerChar(s[0]) else UpperChar(s[0]);
      [c] + TitleFrom(s[1..], IsAsciiLetter(s[0]))
  }

  function Title(s: string): (r: string)
    ensures |r| == |s|
  {
    TitleFrom(s, false)
  }

  /** Lower-casing undoes title-casing: `s.title().lower() == s.lower()`. */
  lemma {:induction false} LowerOfTitleFrom(s: string, afterLetter: bool)
    ensures Lower(TitleFrom(s, afterLetter)) == Lower(s)
    decreases |s|
  {
    if s != [] {
      LowerOfTitleFrom(s[1..], IsAsciiLetter(s[0]));
      var t := TitleFrom(s, afterLetter);
      assert t[1..] == TitleFrom(s[1..], IsAsciiLetter(s[0]));
    }
  }

  lemma LowerOfTitle(s: string)
    ensures Lower(Title(s)) == Lower(s)
  {
    LowerOfTitleFrom(s, false);
  }

  /** The characters Python's `str.isspace()` accepts. */
  predicate IsSpace(c: char) {
    || c == ' '
    || '\t' <= c <= '\r'
    || '\U{1C}' <= c <= '\U{1F}'
    || c == '\U{85}' || c == '\U{A0}' || c == '\U{1680}'
    || '\U{2000}' <= c <= '\U{200A}'
    || c == '\U{2028}' || c == '\U{2029}' || c == '\U{202F}' || c == '\U{205F}' || c == '\U{3000}'
  }

  /** Number of words `str.split()` (no separator) finds after a space or at the start. */
  function WordsFrom(s: string, afterSpace: bool): nat
    decreases |s|
  {
    if s == [] then 0
    else (if afterSpace && !IsSpace(s[0]) then 1 else 0) + WordsFrom(s[1..], IsSpace(s[0]))
  }

  /** `len(s.split())`. */
  function WordCount(s: string): nat {
    WordsFrom(s, true)
  }
}
