/**
 * Character classes and string helpers shared by the Python handlers and the
 * browser script. Python's `str.strip()` and JavaScript's `String.prototype.trim`
 * remove different sets of characters, so each set is written out by code point.
 */
module Text {

  /** A character Python's `str.isspace()` accepts, i.e. one that `str.strip()` removes. */
  predicate IsPySpace(c: char) {
    || ('\t' <= c <= '\r')
    || ('\U{1C}' <= c <= '\U{1F}')
    || c == ' ' || c == '\U{85}' || c == '\U{A0}' || c == '\U{1680}'
    || ('\U{2000}' <= c <= '\U{200A}')
    || c == '\U{2028}' || c == '\U{2029}' || c == '\U{202F}' || c == '\U{205F}' || c == '\U{3000}'
  }

  /** A character JavaScript treats as white space or a line terminator (`trim`, and `\s` in a pattern). */
  predicate IsJsSpace(c: char) {
    || ('\t' <= c <= '\r')
    || c == ' ' || c == '\U{A0}' || c == '\U{1680}'
    || ('\U{2000}' <= c <= '\U{200A}')
    || c == '\U{2028}' || c == '\U{2029}' || c == '\U{202F}' || c == '\U{205F}' || c == '\U{3000}'
    || c == '\U{FEFF}'
  }

  /**
   * Where the two sets differ: the information separators U+001C to U+001F and
   * NEXT LINE are white space only to Python, the byte order mark only to
   * JavaScript.
   */
  lemma WhiteSpaceSetsDiffer(c: char)
    ensures IsPySpace(c) && !IsJsSpace(c) <==> '\U{1C}' <= c <= '\U{1F}' || c == '\U{85}'
    ensures IsJsSpace(c) && !IsPySpace(c) <==> c == '\U{FEFF}'
  {
  }

  predicate IsAsciiUpper(c: char) { 'A' <= c <= 'Z' }
  predicate IsAsciiLower(c: char) { 'a' <= c <= 'z' }
  predicate IsAsciiDigit(c: char) { '0' <= c <= '9' }
  predicate IsAsciiLetter(c: char) { IsAsciiUpper(c) || IsAsciiLower(c) }

  /** `r` is what is left of `s` after its leading run of `ws` characters. */
  predicate LeadingRunDropped(s: string, ws: char -> bool, r: string) {
    && |r| <= |s| && r == s[|s| - |r|..]
    && (forall i :: 0 <= i < |s| - |r| ==> ws(s[i]))
    && (r == [] || !ws(r[0]))
  }

  /** `r` is what is left of `s` after its trailing run of `ws` characters. */
  predicate TrailingRunDropped(s: string, ws: char -> bool, r: string) {
    && |r| <= |s| && r == s[..|r|]
    && (forall i :: |r| <= i < |s| ==> ws(s[i]))
    && (r == [] || !ws(r[|r| - 1]))
  }

  /** Drops the leading characters that satisfy `ws`. */
  function TrimStart(s: string, ws: char -> bool): (r: string)
    ensures LeadingRunDropped(s, ws, r)
    decreases |s|
  {
    if |s| > 0 && ws(s[0]) then
      var r := TrimStart(s[1..], ws);
      LeadingRunGrows(s, ws, r);
      r
    else s
  }

  /** A leading run of the tail, preceded by one more `ws` character, is a leading run of the whole. */
  lemma LeadingRunGrows(s: string, ws: char -> bool, r: string)
    requires |s| > 0 && ws(s[0]) && LeadingRunDropped(s[1..], ws, r)
    ensures LeadingRunDropped(s, ws, r)
  {
    forall i | 0 <= i < |s| - |r|
      ensures ws(s[i])
    {
      if i > 0 {
        assert s[i] == s[1..][i - 1];
      }
    }
  }

  /** Drops the trailing characters that satisfy `ws`. */
  function TrimEnd(s: string, ws: char -> bool): (r: string)
    ensures TrailingRunDropped(s, ws, r)
    decreases |s|
  {
    if |s| > 0 && ws(s[|s| - 1]) then
      var r := TrimEnd(s[..|s| - 1], ws);
      TrailingRunGrows(s, ws, r);
      r
    else s
  }

  /** A trailing run of the front, followed by one more `ws` character, is a trailing run of the whole. */
  lemma TrailingRunGrows(s: string, ws: char -> bool, r: string)
    requires |s| > 0 && ws(s[|s| - 1]) && TrailingRunDropped(s[..|s| - 1], ws, r)
    ensures TrailingRunDropped(s, ws, r)
  {
    forall i | |r| <= i < |s|
      ensures ws(s[i])
    {
      if i < |s| - 1 {
        assert s[i] == s[..|s| - 1][i];
      }
    }
  }

  /**
   * `r` is `s` with the `ws` characters stripped from both ends, found at offset
   * `lo`: everything before and after that slice is white space, and the slice
   * neither starts nor ends with white space.
   */
  predicate StrippedAt(s: string, ws: char -> bool, lo: nat, r: string) {
    && lo + |r| <= |s|
    && r == s[lo..lo + |r|]
    && (forall i :: 0 <= i < lo ==> ws(s[i]))
    && (forall i :: lo + |r| <= i < |s| ==> ws(s[i]))
    && (r == [] || (!ws(r[0]) && !ws(r[|r| - 1])))
  }

  /** Strips `ws` characters from both ends; the result sits where the leading run ends. */
  function Trim(s: string, ws: char -> bool): (r: string)
    ensures StrippedAt(s, ws, |s| - |TrimStart(s, ws)|, r)
  {
    TrimBothEnds(s, ws, TrimStart(s, ws), TrimEnd(TrimStart(s, ws), ws));
    TrimEnd(TrimStart(s, ws), ws)
  }

  /** What `TrimStart` and then `TrimEnd` promise, combined: `r` is `s` stripped at the end of the leading run. */
  lemma TrimBothEnds(s: string, ws: char -> bool, t: string, r: string)
    requires LeadingRunDropped(s, ws, t) && TrailingRunDropped(t, ws, r)
    ensures StrippedAt(s, ws, |s| - |t|, r)
  {
    var lo := |s| - |t|;
    assert r == s[lo..lo + |r|] by {
      SliceOfSuffix(s, lo, |r|);
    }
    assert forall i :: lo + |r| <= i < |s| ==> ws(s[i]) by {
      forall i | lo + |r| <= i < |s|
        ensures ws(s[i])
      {
        assert s[i] == t[i - lo];
      }
    }
    assert r == [] || !ws(r[0]) by {
      if r != [] {
        assert r[0] == t[0];
      }
    }
  }

  /** Taking `n` elements of the suffix at `lo` is the slice from `lo` to `lo + n`. */
  lemma SliceOfSuffix<T>(s: seq<T>, lo: nat, n: nat)
    requires lo + n <= |s|
    ensures s[lo..][..n] == s[lo..lo + n]
  {
  }

  /** Trimming leaves nothing exactly when every character is white space. */
  lemma TrimEmptyIffAllSpace(s: string, ws: char -> bool)
    ensures Trim(s, ws) == [] <==> forall i :: 0 <= i < |s| ==> ws(s[i])
  {
    var r := Trim(s, ws);
    var lo := |s| - |TrimStart(s, ws)|;
    if r != [] {
      assert s[lo] == r[0];
    }
  }

  /** Python's `s.strip()` with no argument. */
  function PyStrip(s: string): string {
    Trim(s, IsPySpace)
  }

  /** Python's `not s.strip()`: the guard every chat handler applies to the message. */
  predicate PyBlank(s: string) {
    PyStrip(s) == []
  }

  /** JavaScript's `s.trim()`. */
  function JsTrim(s: string): string {
    Trim(s, IsJsSpace)
  }

  /** A blank message is exactly one made of Python white space only, the empty string included. */
  lemma PyBlankIffAllSpace(s: string)
    ensures PyBlank(s) <==> forall i :: 0 <= i < |s| ==> IsPySpace(s[i])
  {
    TrimEmptyIffAllSpace(s, IsPySpace);
  }

  /**
   * JavaScript's `s.length`: the number of UTF-16 code units, so a character
   * outside the Basic Multilingual Plane counts twice.
   */
  function Utf16Length(s: string): (n: nat)
    ensures |s| <= n <= 2 * |s|
    ensures n == |s| <==> forall i :: 0 <= i < |s| ==> s[i] < '\U{10000}'
  {
    if s == [] then 0
    else
      var rest := Utf16Length(s[1..]);
      assert forall i :: 1 <= i < |s| ==> s[i] == s[1..][i - 1];
      (if s[0] < '\U{10000}' then 1 else 2) + rest
  }
}
