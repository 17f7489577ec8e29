/** The part of JavaScript's string semantics the client relies on: `trim` and `startsWith`. */
module JsString {

  /** The characters `String.prototype.trim` removes: the WhiteSpace and LineTerminator
      code points of the ECMAScript standard (section 12.2 and 12.3 of ECMA-262), the
      space separators of Unicode category Zs included. */
  predicate IsJsWhitespace(c: char) {
    || c == '\t' || c == '\n' || c == '\U{B}' || c == '\U{C}' || c == '\r' || c == ' '
    || c == '\U{A0}' || c == '\U{1680}' || ('\U{2000}' <= c <= '\U{200A}')
    || c == '\U{2028}' || c == '\U{2029}' || c == '\U{202F}' || c == '\U{205F}'
    || c == '\U{3000}' || c == '\U{FEFF}'
  }

  /** Every character is whitespace (the empty string included). */
  predicate Blank(s: string) {
    forall i :: 0 <= i < |s| ==> IsJsWhitespace(s[i])
  }

  /** `s.trimStart()`: the longest suffix of `s` that does not start with whitespace. */
  function TrimStart(s: string): (r: string)
    ensures |r| <= |s| && r == s[|s| - |r|..]
    ensures Blank(s[..|s| - |r|])
    ensures r == [] || !IsJsWhitespace(r[0])
  {
    if s == [] then []
    else if IsJsWhitespace(s[0]) then
      var r := TrimStart(s[1..]);
      assert s[..|s| - |r|] == [s[0]] + s[1..][..|s| - 1 - |r|];
      r
    else s
  }

  /** `s.trimEnd()`: the longest prefix of `s` that does not end with whitespace. */
  function TrimEnd(s: string): (r: string)
    ensures |r| <= |s| && r == s[..|r|]
    ensures Blank(s[|r|..])
    ensures r == [] || !IsJsWhitespace(r[|r| - 1])
  {
    if s == [] then []
    else if IsJsWhitespace(s[|s| - 1]) then
      var r := TrimEnd(s[..|s| - 1]);
      assert s[|r|..] == s[..|s| - 1][|r|..] + [s[|s| - 1]];
      r
    else s
  }

  /** Neither end of `s` is whitespace. */
  predicate Unpadded(s: string) {
    s == [] || (!IsJsWhitespace(s[0]) && !IsJsWhitespace(s[|s| - 1]))
  }

  /** `r` is the part of `s` that starts at `lo`, and everything of `s` before and after
      it is whitespace. */
  predicate Window(s: string, lo: nat, r: string) {
    && lo + |r| <= |s|
    && r == s[lo..lo + |r|]
    && Blank(s[..lo])
    && Blank(s[lo + |r|..])
  }

  /** `s.trim()`: `s` without its leading and trailing whitespace. */
  function Trim(s: string): (r: string)
    ensures Unpadded(r)
    ensures r == [] <==> Blank(s)
    ensures Window(s, |s| - |TrimStart(s)|, r)
  {
    TrimEnds(s);
    TrimEmptyWhenBlank(s);
    TrimWindow(s);
    TrimEnd(TrimStart(s))
  }

  /** Neither end of the trimmed string is whitespace. */
  lemma TrimEnds(s: string)
    ensures Unpadded(TrimEnd(TrimStart(s)))
  {
    var t := TrimStart(s);
    var r := TrimEnd(t);
    if r != [] {
      assert r[0] == t[0];
    }
  }

  /** The trimmed string is empty exactly when every character is whitespace. */
  lemma TrimEmptyWhenBlank(s: string)
    ensures TrimEnd(TrimStart(s)) == [] <==> Blank(s)
  {
    var t := TrimStart(s);
    var lo := |s| - |t|;
    if t == [] {
      assert s == s[..lo];
    } else {
      assert t[0] == s[lo];
      assert t[..0] + t[0..] == t;
    }
  }

  /** The trimmed string is the window of `s` between its leading and trailing whitespace. */
  lemma TrimWindow(s: string)
    ensures Window(s, |s| - |TrimStart(s)|, TrimEnd(TrimStart(s)))
  {
    WindowOfSuffixPrefix(s, TrimStart(s), TrimEnd(TrimStart(s)));
  }

  /** A prefix `r` of a suffix `t` of `s`, with only whitespace around it, is a window of `s`. */
  lemma WindowOfSuffixPrefix(s: string, t: string, r: string)
    requires |t| <= |s| && t == s[|s| - |t|..] && Blank(s[..|s| - |t|])
    requires |r| <= |t| && r == t[..|r|] && Blank(t[|r|..])
    ensures Window(s, |s| - |t|, r)
  {
    var lo := |s| - |t|;
    assert s[lo..][..|r|] == s[lo..lo + |r|];
    assert s[lo..][|r|..] == s[lo + |r|..];
  }

  /** A string with no whitespace at either end is its own trim. */
  lemma TrimKeepsUnpadded(s: string)
    requires Unpadded(s)
    ensures Trim(s) == s
  {
  }

  /** Trimming twice is trimming once. */
  lemma TrimIdempotent(s: string)
    ensures Trim(Trim(s)) == Trim(s)
  {
    TrimKeepsUnpadded(Trim(s));
  }

  /** `s.startsWith(prefix)`. */
  predicate StartsWith(s: string, prefix: string) {
    |prefix| <= |s| && s[..|prefix|] == prefix
  }
}
