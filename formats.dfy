/**
 * The certificate-number formats of the verified-institutions table
 * (`certificate_format` in main.py) and Python's `re.match` on them.
 *
 * Each format is a chain of literal characters, runs of upper-case letters
 * (`[A-Z]{m,n}`) and runs of digits (`\d{n}`). `re.match` anchors only at the
 * start of the string, so a format matches when SOME PREFIX of the number
 * fits it; the characters after that prefix are never looked at.
 */
module Formats {
  import opened Text

  datatype Piece =
    | Literal(c: char)
    | UpperRun(min: nat, max: nat)   // [A-Z]{min,max}
    | DigitRun(count: nat)           // \d{count}

  type Pattern = seq<Piece>

  /** Every character of `s[from..to]` is an ASCII capital (`[A-Z]`). */
  predicate UpperBetween(s: string, from: nat, to: nat)
    requires from <= to <= |s|
  {
    forall j :: from <= j < to ==> IsAsciiUpper(s[j])
  }

  /**
   * Every character of `s[from..to]` is an ASCII digit. Python's `\d` on a
   * `str` pattern also matches the other Unicode decimal digits; this model
   * takes the ASCII ones only.
   */
  predicate DigitsBetween(s: string, from: nat, to: nat)
    requires from <= to <= |s|
  {
    forall j :: from <= j < to ==> IsAsciiDigit(s[j])
  }

  /**
   * Pieces `p[i..]` of the pattern match some prefix of `s[j..]`, trying every
   * run length a backtracking regular-expression engine would try.
   */
  predicate MatchesAt(p: Pattern, i: nat, s: string, j: nat)
    requires i <= |p| && j <= |s|
    decreases |p| - i
  {
    if i == |p| then true
    else match p[i]
      case Literal(c) => j < |s| && s[j] == c && MatchesAt(p, i + 1, s, j + 1)
      case DigitRun(n) => j + n <= |s| && DigitsBetween(s, j, j + n) && MatchesAt(p, i + 1, s, j + n)
      case UpperRun(lo, hi) =>
        exists e | j + lo <= e <= j + hi && e <= |s| :: UpperBetween(s, j, e) && MatchesAt(p, i + 1, s, e)
  }

  /** `re.match(p, s) is not None`. */
  predicate MatchesPrefix(p: Pattern, s: string) {
    MatchesAt(p, 0, s, 0)
  }

  /** r"RU/[A-Z]{3}/\d{4}/\d{3}" */
  const RanchiFormat: Pattern :=
    [Literal('R'), Literal('U'), Literal('/'), UpperRun(3, 3), Literal('/'), DigitRun(4), Literal('/'), DigitRun(3)]

  /** r"NIT/[A-Z]{2,4}/\d{4}/\d{4}" */
  const NitFormat: Pattern :=
    [Literal('N'), Literal('I'), Literal('T'), Literal('/'), UpperRun(2, 4), Literal('/'), DigitRun(4), Literal('/'), DigitRun(4)]

  /** r"JU/[A-Z]{2,3}/\d{4}/\d{3}" */
  const JharkhandFormat: Pattern :=
    [Literal('J'), Literal('U'), Literal('/'), UpperRun(2, 3), Literal('/'), DigitRun(4), Literal('/'), DigitRun(3)]

  lemma {:induction false} MatchAtIgnoresSuffix(p: Pattern, i: nat, s: string, j: nat, t: string)
    requires i <= |p| && j <= |s|
    requires MatchesAt(p, i, s, j)
    ensures MatchesAt(p, i, s + t, j)
    decreases |p| - i
  {
    if i < |p| {
      match p[i]
      case Literal(c) =>
        MatchAtIgnoresSuffix(p, i + 1, s, j + 1, t);
      case DigitRun(n) =>
        MatchAtIgnoresSuffix(p, i + 1, s, j + n, t);
      case UpperRun(lo, hi) =>
        var e :| j + lo <= e <= j + hi && e <= |s| && UpperBetween(s, j, e) && MatchesAt(p, i + 1, s, e);
        MatchAtIgnoresSuffix(p, i + 1, s, e, t);
        assert UpperBetween(s + t, j, e);
    }
  }

  /**
   * Because the match is anchored only at the start, whatever follows a
   * matching prefix is ignored: a valid number with extra characters appended
   * still passes.
   */
  lemma MatchIgnoresSuffix(p: Pattern, s: string, t: string)
    requires MatchesPrefix(p, s)
    ensures MatchesPrefix(p, s + t)
  {
    MatchAtIgnoresSuffix(p, 0, s, 0, t);
  }

  lemma LiteralStep(p: Pattern, i: nat, s: string, j: nat)
    requires i < |p| && j < |s| && p[i] == Literal(s[j])
    requires MatchesAt(p, i + 1, s, j + 1)
    ensures MatchesAt(p, i, s, j)
  {
  }

  lemma DigitStep(p: Pattern, i: nat, s: string, j: nat)
    requires i < |p| && p[i].DigitRun? && j + p[i].count <= |s|
    requires DigitsBetween(s, j, j + p[i].count) && MatchesAt(p, i + 1, s, j + p[i].count)
    ensures MatchesAt(p, i, s, j)
  {
  }

  lemma UpperStep(p: Pattern, i: nat, s: string, j: nat, e: nat)
    requires i < |p| && p[i].UpperRun? && j + p[i].min <= e <= j + p[i].max && e <= |s|
    requires UpperBetween(s, j, e) && MatchesAt(p, i + 1, s, e)
    ensures MatchesAt(p, i, s, j)
  {
  }

  lemma RanchiTail(p: Pattern, s: string)
    requires p == RanchiFormat && s == "RU/CSE/2024/001"
    ensures MatchesAt(p, 4, s, 6)
  {
    DigitStep(p, 7, s, 12);
    LiteralStep(p, 6, s, 11);
    DigitStep(p, 5, s, 7);
    LiteralStep(p, 4, s, 6);
  }

  lemma RanchiCode(p: Pattern, s: string)
    requires p == RanchiFormat && s == "RU/CSE/2024/001"
    ensures MatchesAt(p, 3, s, 3)
  {
    RanchiTail(p, s);
    UpperStep(p, 3, s, 3, 6);
  }

  lemma RanchiMatches(p: Pattern, s: string)
    requires p == RanchiFormat && s == "RU/CSE/2024/001"
    ensures MatchesAt(p, 0, s, 0)
  {
    RanchiCode(p, s);
    LiteralStep(p, 2, s, 2);
    LiteralStep(p, 1, s, 1);
    LiteralStep(p, 0, s, 0);
  }

  /** The Ranchi University number recorded in the verified-certificates table fits its institution's format. */
  lemma RanchiRecordMatches()
    ensures MatchesPrefix(RanchiFormat, "RU/CSE/2024/001")
  {
    RanchiMatches(RanchiFormat, "RU/CSE/2024/001");
  }

  lemma NitTail(p: Pattern, s: string)
    requires p == NitFormat && s == "NIT/CS/2024/0156"
    ensures MatchesAt(p, 5, s, 6)
  {
    DigitStep(p, 8, s, 12);
    LiteralStep(p, 7, s, 11);
    DigitStep(p, 6, s, 7);
    LiteralStep(p, 5, s, 6);
  }

  lemma NitCode(p: Pattern, s: string)
    requires p == NitFormat && s == "NIT/CS/2024/0156"
    ensures MatchesAt(p, 4, s, 4)
  {
    NitTail(p, s);
    UpperStep(p, 4, s, 4, 6);
  }

  lemma NitMatches(p: Pattern, s: string)
    requires p == NitFormat && s == "NIT/CS/2024/0156"
    ensures MatchesAt(p, 0, s, 0)
  {
    NitCode(p, s);
    LiteralStep(p, 3, s, 3);
    LiteralStep(p, 2, s, 2);
    LiteralStep(p, 1, s, 1);
    LiteralStep(p, 0, s, 0);
  }

  /** The NIT Jamshedpur number recorded in the verified-certificates table fits its institution's format. */
  lemma NitRecordMatches()
    ensures MatchesPrefix(NitFormat, "NIT/CS/2024/0156")
  {
    NitMatches(NitFormat, "NIT/CS/2024/0156");
  }
}
