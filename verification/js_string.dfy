/**
 The JavaScript string methods the engine relies on, over `string`
 (`seq<char>`): `startsWith`, `endsWith`, `trim` and `toLowerCase`.
 */
module JsString {

  /** `s.startsWith(prefix)`. */
  predicate StartsWith(s: string, prefix: string) {
    |prefix| <= |s| && s[..|prefix|] == prefix
  }

  /** `s.endsWith(suffix)`. */
  predicate EndsWith(s: string, suffix: string) {
    |suffix| <= |s| && s[|s| - |suffix|..] == suffix
  }

  lemma ConcatEndsWith(x: string, y: string)
    ensures EndsWith(x + y, y)
  {
    assert (x + y)[|x + y| - |y|..] == y;
  }

  lemma EndsWithTransitive(a: string, b: string, c: string)
    requires EndsWith(a, b) && EndsWith(b, c)
    ensures EndsWith(a, c)
  {
    assert a[|a| - |c|..] == a[|a| - |b|..][|b| - |c|..];
  }

  /** A string ending in `x + y` also ends in `y`. */
  lemma EndsWithConcat(a: string, x: string, y: string)
    requires EndsWith(a, x + y)
    ensures EndsWith(a, y)
  {
    ConcatEndsWith(x, y);
    EndsWithTransitive(a, x + y, y);
  }

  /** The characters `String.prototype.trim` removes: the WhiteSpace and
      LineTerminator code points of the ECMAScript language specification
      (section 12.2 and 12.3 of ECMA-262). */
  predicate IsWhiteSpace(c: char) {
    || c == '\t' || c == '\n' || c == '\U{000B}' || c == '\U{000C}' || c == '\r' || c == ' '
    || c == '\U{00A0}' || c == '\U{1680}' || ('\U{2000}' <= c <= '\U{200A}')
    || c == '\U{2028}' || c == '\U{2029}' || c == '\U{202F}' || c == '\U{205F}'
    || c == '\U{3000}' || c == '\U{FEFF}'
  }

  predicate AllWhiteSpace(s: string) {
    forall k :: 0 <= k < |s| ==> IsWhiteSpace(s[k])
  }

  /** Neither end of `s` is white space. */
  predicate IsTrimmed(s: string) {
    |s| == 0 || (!IsWhiteSpace(s[0]) && !IsWhiteSpace(s[|s| - 1]))
  }

  /** Length of the longest all-white-space prefix of `s`. */
  function LeadingWhiteSpace(s: string): (n: nat)
    ensures n <= |s| && AllWhiteSpace(s[..n])
    ensures n < |s| ==> !IsWhiteSpace(s[n])
  {
    if |s| == 0 || !IsWhiteSpace(s[0]) then 0 else 1 + LeadingWhiteSpace(s[1..])
  }

  /** Length of the longest all-white-space suffix of `s`. */
  function TrailingWhiteSpace(s: string): (n: nat)
    ensures n <= |s| && AllWhiteSpace(s[|s| - n..])
    ensures n < |s| ==> !IsWhiteSpace(s[|s| - 1 - n])
  {
    if |s| == 0 || !IsWhiteSpace(s[|s| - 1]) then 0
    else
      var t := s[..|s| - 1];
      var m := TrailingWhiteSpace(t);
      assert forall k :: |s| - 1 - m <= k < |s| - 1 ==> s[k] == t[k];
      1 + m
  }

  /** `s.trim()`: `s` without its white-space prefix and suffix. */
  function Trim(s: string): (r: string)
    ensures IsTrimmed(r)
    ensures var i := LeadingWhiteSpace(s);
            && i + |r| <= |s| && s[i..i + |r|] == r
            && AllWhiteSpace(s[..i]) && AllWhiteSpace(s[i + |r|..])
  {
    var i := LeadingWhiteSpace(s);
    var t := s[i..];
    var n := TrailingWhiteSpace(t);
    var r := t[..|t| - n];
    assert |r| > 0 ==> r[0] == s[i] && r[|r| - 1] == t[|t| - 1 - n];
    assert s[i..i + |r|] == r;
    assert s[i + |r|..] == t[|t| - n..];
    r
  }

  /** A white-space prefix in front of a string that does not start with
      white space is exactly what `LeadingWhiteSpace` measures. */
  lemma {:induction false} LeadingWhiteSpaceOfPadded(pad: string, s: string)
    requires AllWhiteSpace(pad)
    requires |s| == 0 || !IsWhiteSpace(s[0])
    ensures LeadingWhiteSpace(pad + s) == |pad|
  {
    if |pad| > 0 {
      assert (pad + s)[1..] == pad[1..] + s;
      LeadingWhiteSpaceOfPadded(pad[1..], s);
    }
  }

  lemma {:induction false} TrailingWhiteSpaceOfPadded(s: string, pad: string)
    requires AllWhiteSpace(pad)
    requires |s| == 0 || !IsWhiteSpace(s[|s| - 1])
    ensures TrailingWhiteSpace(s + pad) == |pad|
  {
    if |pad| > 0 {
      assert (s + pad)[..|s + pad| - 1] == s + pad[..|pad| - 1];
      TrailingWhiteSpaceOfPadded(s, pad[..|pad| - 1]);
    }
  }

  /** Trimming recovers a trimmed string from any white-space padding around
      it, and so trimming twice is trimming once. */
  lemma TrimStripsPadding(left: string, s: string, right: string)
    requires AllWhiteSpace(left) && AllWhiteSpace(right) && IsTrimmed(s) && |s| > 0
    ensures Trim(left + s + right) == s
  {
    var whole := left + s + right;
    assert whole == left + (s + right);
    LeadingWhiteSpaceOfPadded(left, s + right);
    assert whole[|left|..] == s + right;
    TrailingWhiteSpaceOfPadded(s, right);
  }

  lemma TrimIdempotent(s: string)
    ensures Trim(Trim(s)) == Trim(s)
  {
    var r := Trim(s);
    if |r| > 0 {
      assert r == [] + r + [];
      TrimStripsPadding([], r, []);
    }
  }

  predicate IsAsciiUpper(c: char) {
    'A' <= c <= 'Z'
  }

  function ToLowerChar(c: char): char {
    if IsAsciiUpper(c) then (c as int + 32) as char else c
  }

  /** `s.toLowerCase()`, restricted to the ASCII letters. */
  function ToLower(s: string): (r: string)
    ensures |r| == |s|
    ensures forall i :: 0 <= i < |r| ==> !IsAsciiUpper(r[i])
    ensures forall i :: 0 <= i < |s| && !IsAsciiUpper(s[i]) ==> r[i] == s[i]
    ensures forall i :: 0 <= i < |s| && IsAsciiUpper(s[i]) ==> r[i] as int == s[i] as int + 32
  {
    seq(|s|, i requires 0 <= i < |s| => ToLowerChar(s[i]))
  }

  /** A string without upper-case letters is its own lower case. */
  lemma ToLowerOfLower(s: string)
    requires forall i :: 0 <= i < |s| ==> !IsAsciiUpper(s[i])
    ensures ToLower(s) == s
  {
  }

  /** Lower-casing neither makes nor removes white space at the ends. */
  lemma ToLowerKeepsTrimmed(s: string)
    requires IsTrimmed(s)
    ensures IsTrimmed(ToLower(s))
  {
    var r := ToLower(s);
    if |r| > 0 {
      assert r[0] == ToLowerChar(s[0]) && r[|r| - 1] == ToLowerChar(s[|s| - 1]);
    }
  }
}
