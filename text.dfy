/** The string operations of JavaScript that the session relies on:
    `String.prototype.trim` and the blank test `s.trim().length === 0`. */
module Text {

  /** The characters ECMAScript calls WhiteSpace or LineTerminator, which
      `trim` removes: TAB, LF, VT, FF, CR, SPACE, NBSP, the other Unicode
      space separators (Zs), LINE and PARAGRAPH SEPARATOR and the BOM. */
  const Whitespace: set<char> := {
    '\t', '\n', '\U{000B}', '\U{000C}', '\r', ' ', '\U{00A0}', '\U{1680}',
    '\U{2000}', '\U{2001}', '\U{2002}', '\U{2003}', '\U{2004}', '\U{2005}',
    '\U{2006}', '\U{2007}', '\U{2008}', '\U{2009}', '\U{200A}',
    '\U{2028}', '\U{2029}', '\U{202F}', '\U{205F}', '\U{3000}', '\U{FEFF}'
  }

  predicate IsWhitespace(c: char)
  {
    c in Whitespace
  }

  /** A blank note: every character is whitespace (the empty note
      included). This is what the page's test `s.trim().length === 0` means
      (`TrimEmptyIffBlank`). */
  predicate IsBlank(s: string)
  {
    forall i :: 0 <= i < |s| ==> IsWhitespace(s[i])
  }

  /** Drops the leading whitespace: the result is a suffix of `s`, what was
      dropped is all whitespace, and the result does not start with any. */
  function TrimStart(s: string): (r: string)
    ensures |r| <= |s| && r == s[|s| - |r|..]
    ensures forall i :: 0 <= i < |s| - |r| ==> IsWhitespace(s[i])
    ensures r == [] || !IsWhitespace(r[0])
  {
    if |s| > 0 && IsWhitespace(s[0]) then
      var r := TrimStart(s[1..]);
      assert forall i :: 1 <= i < |s| - |r| ==> s[i] == s[1..][i - 1];
      r
    else
      s
  }

  /** Drops the trailing whitespace: the result is a prefix of `s`, what was
      dropped is all whitespace, and the result does not end with any. */
  function TrimEnd(s: string): (r: string)
    ensures |r| <= |s| && r == s[..|r|]
    ensures forall i :: |r| <= i < |s| ==> IsWhitespace(s[i])
    ensures r == [] || !IsWhitespace(r[|r| - 1])
  {
    if |s| > 0 && IsWhitespace(s[|s| - 1]) then
      var r := TrimEnd(s[..|s| - 1]);
      assert forall i :: |r| <= i < |s| - 1 ==> s[i] == s[..|s| - 1][i];
      r
    else
      s
  }

  /** `s.trim()`: the leading and the trailing whitespace removed, so that
      what is left neither starts nor ends with whitespace. */
  function Trim(s: string): (r: string)
    ensures |r| <= |s|
    ensures r == [] || (!IsWhitespace(r[0]) && !IsWhitespace(r[|r| - 1]))
  {
    var t := TrimStart(s);
    var r := TrimEnd(t);
    assert r != [] ==> r[0] == t[0];
    r
  }

  /** `r` is the slice of `s` that starts at `i`, with only whitespace
      before it and only whitespace after it. */
  predicate TrimmedAt(s: string, r: string, i: int)
  {
    0 <= i <= |s| - |r| && r == s[i..i + |r|]
    && (forall k :: 0 <= k < i ==> IsWhitespace(s[k]))
    && (forall k :: i + |r| <= k < |s| ==> IsWhitespace(s[k]))
  }

  /** `s.trim()` is a contiguous slice of `s` and what it drops on either
      side is whitespace. */
  lemma TrimIsSlice(s: string)
    ensures exists i :: TrimmedAt(s, Trim(s), i)
  {
    var t := TrimStart(s);
    var i := |s| - |t|;
    TrimEndIsSlice(s, t, i);
    assert Trim(s) == TrimEnd(t);
  }

  /** The slice step of `TrimIsSlice`: trimming the end of the suffix `t`
      of `s` that starts at `i` leaves a slice of `s` at `i`. */
  lemma TrimEndIsSlice(s: string, t: string, i: int)
    requires 0 <= i <= |s| && t == s[i..]
    requires forall k :: 0 <= k < i ==> IsWhitespace(s[k])
    ensures TrimmedAt(s, TrimEnd(t), i)
  {
    var r := TrimEnd(t);
    forall k | i + |r| <= k < |s|
      ensures IsWhitespace(s[k])
    {
      assert s[k] == t[k - i];
    }
    assert r == s[i..i + |r|];
  }

  /** `s.trim().length === 0` holds exactly when every character of `s` is
      whitespace. */
  lemma TrimEmptyIffBlank(s: string)
    ensures |Trim(s)| == 0 <==> IsBlank(s)
  {
    var t := TrimStart(s);
    var r := TrimEnd(t);
    assert Trim(s) == r;
    assert forall k :: 0 <= k < |t| ==> t[k] == s[|s| - |t| + k];
    if !IsBlank(s) {
      var k :| 0 <= k < |s| && !IsWhitespace(s[k]);
      assert t[k - (|s| - |t|)] == s[k];
    }
  }

  /** Appending whitespace, as a prompt click does with its trailing space,
      cannot make a non-blank string blank, and cannot make a blank one
      non-blank. */
  lemma AppendWhitespaceKeepsBlankness(s: string, w: string)
    requires IsBlank(w)
    ensures IsBlank(s + w) <==> IsBlank(s)
  {
    assert forall i :: 0 <= i < |s| ==> (s + w)[i] == s[i];
    assert forall i :: |s| <= i < |s + w| ==> (s + w)[i] == w[i - |s|];
  }
}
