/**
 * JavaScript's `String.prototype.trim`, which every form check applies
 * before testing a field for emptiness. It strips, from both ends, the code
 * points that ECMAScript classifies as WhiteSpace or LineTerminator.
 */
module Text {

  /** ECMAScript WhiteSpace (tab, vertical tab, form feed, space, no-break space, byte order mark and the Unicode Zs category) and LineTerminator (line feed, carriage return, line and paragraph separators). */
  predicate IsTrimmable(c: char) {
    || c == '\t' || c == '\n' || c == '\U{B}' || c == '\U{C}' || c == '\r'
    || c == ' ' || c == '\U{A0}' || c == '\U{1680}'
    || ('\U{2000}' <= c <= '\U{200A}')
    || c == '\U{2028}' || c == '\U{2029}' || c == '\U{202F}' || c == '\U{205F}'
    || c == '\U{3000}' || c == '\U{FEFF}'
  }

  /** The length of the longest trimmable prefix of `s`. */
  function LeadingSpace(s: string): (k: nat)
    ensures k <= |s|
    ensures forall i :: 0 <= i < k ==> IsTrimmable(s[i])
    ensures k < |s| ==> !IsTrimmable(s[k])
  {
    if s != [] && IsTrimmable(s[0]) then 1 + LeadingSpace(s[1..]) else 0
  }

  /** The length of the longest trimmable suffix of `s`. */
  function TrailingSpace(s: string): (k: nat)
    ensures k <= |s|
    ensures forall i :: |s| - k <= i < |s| ==> IsTrimmable(s[i])
    ensures k < |s| ==> !IsTrimmable(s[|s| - 1 - k])
  {
    if s != [] && IsTrimmable(s[|s| - 1]) then 1 + TrailingSpace(s[..|s| - 1]) else 0
  }

  /**
   * `s.trim()`: the middle of `s` after its trimmable prefix and suffix are
   * cut off. It is empty exactly when `s` is made of trimmable characters
   * only, and otherwise starts and ends with a character that is kept.
   */
  function Trim(s: string): (r: string)
    ensures |r| <= |s|
    ensures r == [] <==> forall i :: 0 <= i < |s| ==> IsTrimmable(s[i])
    ensures r != [] ==> !IsTrimmable(r[0]) && !IsTrimmable(r[|r| - 1])
    ensures var a := LeadingSpace(s);
              a + |r| <= |s| && r == s[a..a + |r|]
              && forall i :: a + |r| <= i < |s| ==> IsTrimmable(s[i])
  {
    var a := LeadingSpace(s);
    var t := s[a..];
    var r := t[..|t| - TrailingSpace(t)];
    assert r == s[a..a + |r|];
    r
  }

  /** `s.trim().length === 0`, the emptiness test of every form check. */
  predicate IsBlank(s: string) {
    |Trim(s)| == 0
  }
}
