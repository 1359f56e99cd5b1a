/**
 * Glossary lookup by short label (`GlossaryRepository`). Labels are compared
 * after normalisation: full-width parentheses become ASCII ones, then leading
 * and trailing whitespace and newlines are trimmed.
 */
module Glossary {
  import opened Wrappers
  import opened Sequences
  import opened Boards
  import opened GlossaryTerms

  const FullWidthOpen: char := '\U{FF08}'
  const FullWidthClose: char := '\U{FF09}'

  /**
   * Membership in the whitespace-and-newlines character set: the Unicode
   * space separators, line and paragraph separators, tab, and U+000A–U+000D
   * and U+0085.
   */
  predicate IsWhitespaceOrNewline(c: char) {
    ('\U{0009}' <= c <= '\U{000D}') || c == ' ' || c == '\U{0085}' || c == '\U{00A0}' ||
    c == '\U{1680}' || ('\U{2000}' <= c <= '\U{200A}') || c == '\U{2028}' || c == '\U{2029}' ||
    c == '\U{202F}' || c == '\U{205F}' || c == '\U{3000}'
  }

  /** Neither the first nor the last character is whitespace. */
  predicate NoEdgeWhitespace(s: string) {
    s != [] ==> !IsWhitespaceOrNewline(s[0]) && !IsWhitespaceOrNewline(s[|s| - 1])
  }

  /**
   * `r` is `s[a..b]`, and everything outside `a..b` is whitespace: `r` is the
   * unbroken middle of `s` left after cutting whitespace off both edges.
   */
  predicate TrimsTo(s: string, r: string, a: int, b: int) {
    0 <= a <= b <= |s| && r == s[a..b] &&
    (forall i :: 0 <= i < a ==> IsWhitespaceOrNewline(s[i])) &&
    (forall i :: b <= i < |s| ==> IsWhitespaceOrNewline(s[i]))
  }

  /** A full-width parenthesis as its ASCII counterpart; every other character as it is. */
  function AsciiParen(c: char): char {
    if c == FullWidthOpen then '(' else if c == FullWidthClose then ')' else c
  }

  /**
   * `r` is the middle `a..b` of `s` with each full-width parenthesis made ASCII,
   * and everything outside `a..b` is whitespace.
   */
  predicate NormalizesTo(s: string, r: string, a: int, b: int) {
    0 <= a <= b <= |s| && |r| == b - a &&
    (forall i :: 0 <= i < |r| ==> r[i] == AsciiParen(s[a + i])) &&
    (forall i :: 0 <= i < a ==> IsWhitespaceOrNewline(s[i])) &&
    (forall i :: b <= i < |s| ==> IsWhitespaceOrNewline(s[i]))
  }

  /** A normal label: no full-width parenthesis anywhere, no whitespace at either edge. */
  predicate IsNormal(s: string) {
    FullWidthOpen !in s && FullWidthClose !in s && NoEdgeWhitespace(s)
  }

  /** `replacingOccurrences(of:with:)` for a one-character pattern. */
  function ReplaceChar(s: string, from: char, to: char): (r: string)
    ensures |r| == |s|
    ensures forall i :: 0 <= i < |s| ==> r[i] == (if s[i] == from then to else s[i])
    ensures from != to ==> from !in r
  {
    if s == [] then []
    else [if s[0] == from then to else s[0]] + ReplaceChar(s[1..], from, to)
  }

  /** Drops the leading whitespace. */
  function TrimLeading(s: string): (r: string)
    ensures |r| <= |s| && r == s[|s| - |r|..]
    ensures forall i :: 0 <= i < |s| - |r| ==> IsWhitespaceOrNewline(s[i])
    ensures r != [] ==> !IsWhitespaceOrNewline(r[0])
  {
    if s != [] && IsWhitespaceOrNewline(s[0]) then TrimLeading(s[1..]) else s
  }

  /** Drops the trailing whitespace. */
  function TrimTrailing(s: string): (r: string)
    ensures |r| <= |s| && r == s[..|r|]
    ensures forall i :: |r| <= i < |s| ==> IsWhitespaceOrNewline(s[i])
    ensures r != [] ==> !IsWhitespaceOrNewline(r[|r| - 1])
  {
    if s != [] && IsWhitespaceOrNewline(s[|s| - 1]) then TrimTrailing(s[..|s| - 1]) else s
  }

  /**
   * The middle left when a whitespace-only prefix is cut off `s` up to the first
   * non-whitespace character, and a whitespace-only suffix is cut off what is
   * left back to the last one.
   */
  predicate CutEdges(s: string, lead: string, r: string) {
    |lead| <= |s| && lead == s[|s| - |lead|..] &&
    (forall i :: 0 <= i < |s| - |lead| ==> IsWhitespaceOrNewline(s[i])) &&
    (lead != [] ==> !IsWhitespaceOrNewline(lead[0])) &&
    |r| <= |lead| && r == lead[..|r|] &&
    (forall i :: |r| <= i < |lead| ==> IsWhitespaceOrNewline(lead[i])) &&
    (r != [] ==> !IsWhitespaceOrNewline(r[|r| - 1]))
  }

  /** Cutting both edges keeps an unbroken middle of `s`, with only whitespace outside it. */
  lemma {:induction false} CutEdgesKeepsMiddle(s: string, lead: string, r: string)
    requires CutEdges(s, lead, r)
    ensures TrimsTo(s, r, |s| - |lead|, |s| - |lead| + |r|)
  {
    var lo := |s| - |lead|;
    assert r == s[lo..lo + |r|];
    forall i | lo + |r| <= i < |s| ensures IsWhitespaceOrNewline(s[i]) {
      assert s[i] == lead[i - lo];
    }
  }

  /** Cutting both edges leaves no whitespace at either edge, and empties only an all-whitespace input. */
  lemma {:induction false} CutEdgesNoEdge(s: string, lead: string, r: string)
    requires CutEdges(s, lead, r)
    ensures NoEdgeWhitespace(r)
    ensures r == [] <==> forall i :: 0 <= i < |s| ==> IsWhitespaceOrNewline(s[i])
  {
    var lo := |s| - |lead|;
    CutEdgesKeepsMiddle(s, lead, r);
    if r != [] {
      assert r[0] == lead[0] == s[lo];
    }
  }

  /** An input without edge whitespace is kept whole. */
  lemma {:induction false} CutEdgesKeepsNormal(s: string, lead: string, r: string)
    requires CutEdges(s, lead, r)
    ensures NoEdgeWhitespace(s) ==> r == s
  {
    if s != [] && NoEdgeWhitespace(s) {
      assert lead == s;
    }
  }

  /** The two trimming passes cut the edges as `CutEdges` describes. */
  lemma TrimCutsEdges(s: string)
    ensures CutEdges(s, TrimLeading(s), TrimTrailing(TrimLeading(s)))
  {
  }

  /**
   * `trimmingCharacters(in: .whitespacesAndNewlines)`: the unbroken middle of
   * `s` left after the whitespace at both edges is cut off, empty exactly when
   * `s` is all whitespace.
   */
  function Trim(s: string): (r: string)
    ensures |r| <= |s|
    ensures exists a, b :: TrimsTo(s, r, a, b)
    ensures NoEdgeWhitespace(r)
    ensures r == [] <==> forall i :: 0 <= i < |s| ==> IsWhitespaceOrNewline(s[i])
    ensures NoEdgeWhitespace(s) ==> r == s
  {
    var lead := TrimLeading(s);
    var r := TrimTrailing(lead);
    TrimCutsEdges(s);
    CutEdgesKeepsMiddle(s, lead, r);
    CutEdgesNoEdge(s, lead, r);
    CutEdgesKeepsNormal(s, lead, r);
    r
  }

  /** Replacing one character does not bring back a character that was absent. */
  lemma {:induction false} ReplaceKeepsAbsent(s: string, from: char, to: char, c: char)
    requires c !in s && c != to
    ensures c !in ReplaceChar(s, from, to)
  {
    var r := ReplaceChar(s, from, to);
    forall i | 0 <= i < |r| ensures r[i] != c {
      assert s[i] in s;
    }
  }

  /** Replacing both full-width parentheses maps each character through `AsciiParen`. */
  lemma ReplaceBoth(s: string)
    ensures var t := ReplaceChar(ReplaceChar(s, FullWidthOpen, '('), FullWidthClose, ')');
            |t| == |s| && forall i :: 0 <= i < |s| ==> t[i] == AsciiParen(s[i])
  {
  }

  /** Only whitespace maps to whitespace under `AsciiParen`. */
  lemma AsciiParenWhitespace(c: char)
    ensures IsWhitespaceOrNewline(AsciiParen(c)) ==> IsWhitespaceOrNewline(c)
  {
  }

  /** A trimmed middle of a character-wise image of `s` is that middle of `s`, mapped. */
  lemma {:induction false} MiddleOfAsciiParen(s: string, t: string, r: string, a: int, b: int)
    requires |t| == |s| && forall i :: 0 <= i < |s| ==> t[i] == AsciiParen(s[i])
    requires TrimsTo(t, r, a, b)
    ensures NormalizesTo(s, r, a, b)
  {
    forall i | 0 <= i < |s| && IsWhitespaceOrNewline(t[i]) ensures IsWhitespaceOrNewline(s[i]) {
      AsciiParenWhitespace(s[i]);
    }
  }

  /** Trimming a character-wise image of `s` keeps a middle of `s`, mapped. */
  lemma {:induction false} TrimOfAsciiParen(s: string, t: string)
    requires |t| == |s| && forall i :: 0 <= i < |s| ==> t[i] == AsciiParen(s[i])
    ensures exists a, b :: NormalizesTo(s, Trim(t), a, b)
  {
    var r := Trim(t);
    var a, b :| TrimsTo(t, r, a, b);
    MiddleOfAsciiParen(s, t, r, a, b);
  }

  /**
   * `normalize(_:)`: the input with each full-width parenthesis made ASCII and
   * the whitespace at both edges cut off.
   */
  function Normalize(s: string): (r: string)
    ensures exists a, b :: NormalizesTo(s, r, a, b)
    ensures IsNormal(r)
  {
    var withOpen := ReplaceChar(s, FullWidthOpen, '(');
    ReplaceKeepsAbsent(withOpen, FullWidthClose, ')', FullWidthOpen);
    ReplaceBoth(s);
    TrimOfAsciiParen(s, ReplaceChar(withOpen, FullWidthClose, ')'));
    Trim(ReplaceChar(withOpen, FullWidthClose, ')'))
  }

  /** With no whitespace left at its edges, a normalised middle of `s` is unique. */
  lemma {:induction false} NormalFormUnique(s: string, r1: string, a1: int, b1: int,
                                            r2: string, a2: int, b2: int)
    requires NormalizesTo(s, r1, a1, b1) && NoEdgeWhitespace(r1)
    requires NormalizesTo(s, r2, a2, b2) && NoEdgeWhitespace(r2)
    ensures r1 == r2
  {
    if r1 != [] {
      assert r1[0] == AsciiParen(s[a1]) && r1[|r1| - 1] == AsciiParen(s[b1 - 1]);
      AsciiParenWhitespace(s[a1]);
      AsciiParenWhitespace(s[b1 - 1]);
    }
    if r2 != [] {
      assert r2[0] == AsciiParen(s[a2]) && r2[|r2| - 1] == AsciiParen(s[b2 - 1]);
      AsciiParenWhitespace(s[a2]);
      AsciiParenWhitespace(s[b2 - 1]);
    }
    if r1 != [] || r2 != [] {
      assert a1 == a2 && b1 == b2;
      forall i | 0 <= i < |r1| ensures r1[i] == r2[i] {
      }
    }
  }

  /** `normalize` is the only normal label that is a normalised middle of its input. */
  lemma {:induction false} NormalizeUnique(s: string, r: string, a: int, b: int)
    requires NormalizesTo(s, r, a, b) && NoEdgeWhitespace(r)
    ensures r == Normalize(s)
  {
    var n := Normalize(s);
    var a', b' :| NormalizesTo(s, n, a', b');
    NormalFormUnique(s, r, a, b, n, a', b');
  }

  /** Replacing a character that does not occur changes nothing. */
  lemma {:induction false} ReplaceAbsent(s: string, from: char, to: char)
    requires from !in s
    ensures ReplaceChar(s, from, to) == s
  {
    if s != [] {
      assert from !in s[1..];
      ReplaceAbsent(s[1..], from, to);
    }
  }

  /** A label with no full-width parentheses and no edge whitespace is already normal. */
  lemma {:induction false} NormalizeFixed(s: string)
    requires IsNormal(s)
    ensures Normalize(s) == s
  {
    ReplaceAbsent(s, FullWidthOpen, '(');
    ReplaceAbsent(s, FullWidthClose, ')');
  }

  /** Normalising twice is normalising once. */
  lemma {:induction false} NormalizeIdempotent(s: string)
    ensures Normalize(Normalize(s)) == Normalize(s)
  {
    NormalizeFixed(Normalize(s));
  }

  /** Every marker's short label is already normal, so the legend's lookups compare it verbatim. */
  lemma MarkerShortLabelsNormal(m: Marker)
    ensures Normalize(m.ShortLabel()) == m.ShortLabel()
  {
    NormalizeFixed(m.ShortLabel());
  }

  /** "(五)" is already normal. */
  lemma NormalizeAsciiExample()
    ensures Normalize("(五)") == "(五)"
  {
    NormalizeFixed("(五)");
  }

  /** A label with a non-whitespace character at each edge is left alone by trimming. */
  lemma {:induction false} TrimUnchanged(s: string)
    requires s != [] && NoEdgeWhitespace(s)
    ensures Trim(s) == s
  {
  }

  /** "（五）" normalises to "(五)". */
  lemma NormalizeFullWidthExample()
    ensures Normalize("（五）") == "(五)"
  {
    var s := "（五）";
    var withOpen := ReplaceChar(s, FullWidthOpen, '(');
    var closed := ReplaceChar(withOpen, FullWidthClose, ')');
    assert closed == "(五)";
    TrimUnchanged(closed);
  }

  /** Trimming " (五) " with a trailing newline leaves "(五)". */
  lemma {:induction false} TrimPaddedExample()
    ensures Trim(" (五) \n") == "(五)"
  {
    var s := " (五) \n";
    assert |s| == 6 && IsWhitespaceOrNewline(s[0]);
    var t := s[1..];
    assert !IsWhitespaceOrNewline(t[0]);
    assert TrimLeading(s) == TrimLeading(t) == t;
    assert IsWhitespaceOrNewline(t[4]) && IsWhitespaceOrNewline(t[..4][3]);
    assert !IsWhitespaceOrNewline(t[..3][2]);
    assert TrimTrailing(t) == TrimTrailing(t[..4]) == TrimTrailing(t[..3]) == t[..3];
    assert t[..3] == "(五)";
  }

  /** " (五) " with a trailing newline normalises to "(五)". */
  lemma NormalizePaddedExample()
    ensures Normalize(" (五) \n") == "(五)"
  {
    var s := " (五) \n";
    var r := "(五)";
    assert |s| == 6 && s[1..4] == r;
    assert NormalizesTo(s, r, 1, 4);
    NormalizeUnique(s, r, 1, 4);
  }

  /** The glossary; `allTerms` is what the bundled glossary file decoded to. */
  class GlossaryRepository {
    var allTerms: seq<GlossaryTerm>

    /** `init()`, with the terms read from the bundle passed in. */
    constructor (loaded: seq<GlossaryTerm>)
      ensures allTerms == loaded
    {
      allTerms := loaded;
    }

    /** `term(for:)`: the first term whose normalised short label matches the normalised query. */
    function TermFor(shortLabel: string): (r: Option<GlossaryTerm>)
      reads this
      ensures r.Some? ==> r.value in allTerms && Normalize(r.value.shortLabel) == Normalize(shortLabel)
      ensures r.Some? ==> exists i :: 0 <= i < |allTerms| && allTerms[i] == r.value &&
                            forall j :: 0 <= j < i ==> Normalize(allTerms[j].shortLabel) != Normalize(shortLabel)
      ensures r.None? <==> forall t :: t in allTerms ==> Normalize(t.shortLabel) != Normalize(shortLabel)
    {
      var normalized := Normalize(shortLabel);
      FirstWhere(allTerms, (t: GlossaryTerm) => Normalize(t.shortLabel) == normalized)
    }
  }

  /** Queries with the same normal form find the same term. */
  lemma {:induction false} TermForNormalizes(repo: GlossaryRepository, a: string, b: string)
    requires Normalize(a) == Normalize(b)
    ensures repo.TermFor(a) == repo.TermFor(b)
  {
  }

  /** Full-width and ASCII parentheses, with or without surrounding whitespace, find the same term. */
  lemma TermForExample(repo: GlossaryRepository)
    ensures repo.TermFor("（五）") == repo.TermFor(" (五) \n") == repo.TermFor("(五)")
  {
    NormalizeAsciiExample();
    NormalizeFullWidthExample();
    NormalizePaddedExample();
    TermForNormalizes(repo, "（五）", "(五)");
    TermForNormalizes(repo, " (五) \n", "(五)");
  }
}
