/**
 * The institution-line scan of `extract_certificate_data` (python_backend/main.py):
 * the OCR text is lower-cased and stripped, split at '\n', each line stripped
 * and the empty ones dropped; the first line that names a keyword and has at
 * most six words, title-cased, becomes the certificate's institution.
 */
module Extraction {
  import opened Wrappers
  import opened Text

  /** `text.split('\n')`: the pieces between newlines, at least one. */
  function SplitLines(s: string): (r: seq<string>)
    ensures |r| >= 1
    decreases |s|
  {
    if s == [] then [""]
    else
      var rest := SplitLines(s[1..]);
      if s[0] == '\n' then [""] + rest else [[s[0]] + rest[0]] + rest[1..]
  }

  /** `'\n'.join(pieces)`. */
  function JoinLines(pieces: seq<string>): string
    decreases |pieces|
  {
    if |pieces| <= 1 then (if pieces == [] then "" else pieces[0])
    else pieces[0] + "\n" + JoinLines(pieces[1..])
  }

  /** Splitting loses nothing: joining the pieces with '\n' gives the text back, and no piece holds a '\n'. */
  lemma {:induction false} SplitJoin(s: string)
    ensures JoinLines(SplitLines(s)) == s
    ensures forall i | 0 <= i < |SplitLines(s)| :: '\n' !in SplitLines(s)[i]
    decreases |s|
  {
    if s != [] {
      SplitJoin(s[1..]);
      var rest := SplitLines(s[1..]);
      if s[0] == '\n' {
        assert SplitLines(s) == [""] + rest;
        assert JoinLines(SplitLines(s)) == "" + "\n" + JoinLines(rest);
      } else {
        var r := SplitLines(s);
        assert r == [[s[0]] + rest[0]] + rest[1..];
        if |rest| == 1 {
          assert JoinLines(r) == [s[0]] + rest[0];
        } else {
          assert rest == [rest[0]] + rest[1..];
          assert JoinLines(rest) == rest[0] + "\n" + JoinLines(rest[1..]);
          assert JoinLines(r) == [s[0]] + rest[0] + "\n" + JoinLines(r[1..]);
          assert r[1..] == rest[1..];
        }
      }
    }
  }

  /** `s.lstrip()`: leading Python whitespace removed. */
  function StripLeft(s: string): (r: string)
    ensures |r| <= |s| && r == s[|s| - |r|..]
    ensures r == [] || !IsSpace(r[0])
    decreases |s|
  {
    if s != [] && IsSpace(s[0]) then StripLeft(s[1..]) else s
  }

  /** `s.rstrip()`: trailing Python whitespace removed. */
  function StripRight(s: string): (r: string)
    ensures |r| <= |s| && r == s[..|r|]
    ensures r == [] || !IsSpace(r[|r| - 1])
    decreases |s|
  {
    if s != [] && IsSpace(s[|s| - 1]) then StripRight(s[..|s| - 1]) else s
  }

  /** `s.strip()`. */
  function Strip(s: string): string {
    StripRight(StripLeft(s))
  }

  /** Where the stripped text starts in the original. */
  function StripStart(s: string): nat {
    |s| - |StripLeft(s)|
  }

  /** Strip leaves no whitespace at either end, and it keeps a contiguous part of the input. */
  lemma StripTrims(s: string)
    ensures var r, i := Strip(s), StripStart(s);
      && (r == [] || (!IsSpace(r[0]) && !IsSpace(r[|r| - 1])))
      && i + |r| <= |s| && r == s[i..i + |r|]
  {
    var l := StripLeft(s);
    var r := StripRight(l);
    var i := |s| - |l|;
    assert r == l[..|r|];
  }

  /** The stripped, non-empty pieces in order. */
  function NonEmptyStripped(pieces: seq<string>): (r: seq<string>)
    ensures forall i | 0 <= i < |r| :: r[i] != ""
    decreases |pieces|
  {
    if pieces == [] then []
    else
      var line := Strip(pieces[0]);
      (if line != "" then [line] else []) + NonEmptyStripped(pieces[1..])
  }

  /** `[line.strip() for line in text.lower().strip().split('\n') if line.strip()]`. */
  function Lines(text: string): seq<string> {
    NonEmptyStripped(SplitLines(Strip(Lower(text))))
  }

  lemma {:induction false} StripKeepsNoUpper(s: string)
    requires HasNoUpper(s)
    ensures HasNoUpper(Strip(s))
  {
    StripTrims(s);
    var r, i := Strip(s), StripStart(s);
    assert forall j | 0 <= j < |r| :: r[j] == s[i + j];
  }

  lemma {:induction false} SplitKeepsNoUpper(s: string)
    requires HasNoUpper(s)
    ensures forall i | 0 <= i < |SplitLines(s)| :: HasNoUpper(SplitLines(s)[i])
    decreases |s|
  {
    if s != [] {
      SplitKeepsNoUpper(s[1..]);
    }
  }

  lemma {:induction false} LowerHasNoUpper(s: string)
    ensures HasNoUpper(Lower(s))
    decreases |s|
  {
    if s != [] {
      LowerHasNoUpper(s[1..]);
    }
  }

  lemma {:induction false} NonEmptyStrippedKeepsNoUpper(pieces: seq<string>)
    requires forall i | 0 <= i < |pieces| :: HasNoUpper(pieces[i])
    ensures forall i | 0 <= i < |NonEmptyStripped(pieces)| :: HasNoUpper(NonEmptyStripped(pieces)[i])
    decreases |pieces|
  {
    if pieces != [] {
      StripKeepsNoUpper(pieces[0]);
      NonEmptyStrippedKeepsNoUpper(pieces[1..]);
    }
  }

  /** Every line the scan sees is non-empty and already lower-case. */
  lemma LinesAreLowerCase(text: string)
    ensures forall i | 0 <= i < |Lines(text)| :: Lines(text)[i] != "" && HasNoUpper(Lines(text)[i])
  {
    var lowered := Strip(Lower(text));
    LowerHasNoUpper(text);
    StripKeepsNoUpper(Lower(text));
    SplitKeepsNoUpper(lowered);
    NonEmptyStrippedKeepsNoUpper(SplitLines(lowered));
  }

  const InstitutionKeywords: seq<string> := ["university", "college", "institute", "nit", "iit"]

  /** A line that names an institution: it holds a keyword and has at most six words. */
  predicate NamesInstitution(line: string) {
    (exists k | 0 <= k < |InstitutionKeywords| :: Contains(line, InstitutionKeywords[k])) && WordCount(line) <= 6
  }

  /** The index of the first line that names an institution. */
  function FirstInstitutionLine(lines: seq<string>, from: nat): (r: Option<nat>)
    requires from <= |lines|
    ensures r.Some? ==> from <= r.value < |lines| && NamesInstitution(lines[r.value])
    ensures r.Some? ==> forall j | from <= j < r.value :: !NamesInstitution(lines[j])
    ensures r.None? <==> forall j | from <= j < |lines| :: !NamesInstitution(lines[j])
    decreases |lines| - from
  {
    if from == |lines| then None
    else if NamesInstitution(lines[from]) then Some(from)
    else FirstInstitutionLine(lines, from + 1)
  }

  /** When `i` is the first line from `from` on that names an institution, the search finds `i`. */
  lemma {:induction false} FirstInstitutionLineIs(lines: seq<string>, from: nat, i: nat)
    requires from <= i < |lines| && NamesInstitution(lines[i])
    requires forall j | from <= j < i :: !NamesInstitution(lines[j])
    ensures FirstInstitutionLine(lines, from) == Some(i)
    decreases i - from
  {
    if from < i {
      FirstInstitutionLineIs(lines, from + 1, i);
    }
  }

  /** The institution the scan reports: the first naming line, title-cased. */
  function InstitutionOf(lines: seq<string>): Option<string> {
    match FirstInstitutionLine(lines, 0)
    case None => None
    case Some(i) => Some(Title(lines[i]))
  }

  lemma ContainsOnlyShorter(s: string, sub: string)
    requires Contains(s, sub)
    ensures |sub| <= |s|
  {
    if |s| < |sub| {
      LongerNotContained(s, sub);
    }
  }

  /**
   * The nested loop over lines and keywords: the first keyword found in a
   * short enough line sets the institution and ends both loops.
   */
  method ExtractInstitution(lines: seq<string>) returns (institution: Option<string>)
    ensures institution == InstitutionOf(lines)
  {
    institution := None;
    var i := 0;
    while i < |lines|
      invariant 0 <= i <= |lines|
      invariant institution == None
      invariant forall j | 0 <= j < i :: !NamesInstitution(lines[j])
    {
      var line := lines[i];
      var k := 0;
      while k < |InstitutionKeywords|
        invariant 0 <= k <= |InstitutionKeywords|
        invariant institution == None ==>
          forall m | 0 <= m < k :: !(Contains(line, InstitutionKeywords[m]) && WordCount(line) <= 6)
        invariant institution != None ==> NamesInstitution(line) && institution == Some(Title(line)) && line != ""
      {
        if Contains(line, InstitutionKeywords[k]) && WordCount(line) <= 6 {
          ContainsOnlyShorter(line, InstitutionKeywords[k]);
          institution := Some(Title(line));
          break;
        }
        k := k + 1;
      }
      if institution.Some? && institution.value != "" {
        FirstInstitutionLineIs(lines, 0, i);
        return;
      }
      i := i + 1;
    }
  }

  /**
   * The reported institution, lower-cased again as the verification does, is
   * the line itself: title-casing a lower-case line loses nothing the
   * institution comparison looks at.
   */
  lemma InstitutionRoundTrip(text: string)
    ensures var found := InstitutionOf(Lines(text));
      found.Some? ==>
        exists i | 0 <= i < |Lines(text)| :: Lower(found.value) == Lines(text)[i] && NamesInstitution(Lines(text)[i])
  {
    var lines := Lines(text);
    LinesAreLowerCase(text);
    var first := FirstInstitutionLine(lines, 0);
    if first.Some? {
      var i := first.value;
      LowerOfTitle(lines[i]);
      LowerOfLowerCase(lines[i]);
    }
  }
}
