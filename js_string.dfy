/** The two string operations of JavaScript that the onboarding form relies
    on: `String.prototype.trim` and truthiness of a string. */
module JsString {

  /** The characters `trim` removes: ECMAScript's WhiteSpace (tab, vertical
      tab, form feed, space, no-break space, byte-order mark and the Unicode
      space separators) and LineTerminator (line feed, carriage return, line
      and paragraph separators). */
  predicate IsWhitespace(c: char) {
    || c == '\t' || c == '\n' || c == '\U{000B}' || c == '\U{000C}' || c == '\r'
    || c == ' ' || c == '\U{00A0}' || c == '\U{1680}'
    || ('\U{2000}' <= c <= '\U{200A}')
    || c == '\U{2028}' || c == '\U{2029}' || c == '\U{202F}' || c == '\U{205F}'
    || c == '\U{3000}' || c == '\U{FEFF}'
  }

  predicate AllWhitespace(s: string) {
    forall i :: 0 <= i < |s| ==> IsWhitespace(s[i])
  }

  /** A string is truthy in JavaScript iff it is not empty. */
  predicate Truthy(s: string) {
    s != ""
  }

  /** The length of the whitespace prefix of `s`. */
  function LeadingEnd(s: string): (k: nat)
    ensures k <= |s|
    ensures AllWhitespace(s[..k])
    ensures k < |s| ==> !IsWhitespace(s[k])
  {
    if s != [] && IsWhitespace(s[0]) then
      1 + LeadingEnd(s[1..])
    else 0
  }

  /** The index where the whitespace suffix of `s` starts. */
  function TrailingStart(s: string): (k: nat)
    ensures k <= |s|
    ensures AllWhitespace(s[k..])
    ensures k > 0 ==> !IsWhitespace(s[k - 1])
  {
    if s != [] && IsWhitespace(s[|s| - 1]) then
      var k := TrailingStart(s[..|s| - 1]);
      assert forall i :: 0 <= i < |s| - 1 - k ==> s[k..][i] == s[..|s| - 1][k..][i];
      k
    else |s|
  }

  /** `s.trim()`: `s` without its leading and trailing whitespace. The result
      is a contiguous piece of `s` that neither starts nor ends with
      whitespace, and everything cut off on either side is whitespace. */
  function Trim(s: string): (r: string)
    ensures r == [] || (!IsWhitespace(r[0]) && !IsWhitespace(r[|r| - 1]))
    ensures exists a, b :: 0 <= a <= b <= |s| && r == s[a..b] && AllWhitespace(s[..a]) && AllWhitespace(s[b..])
  {
    var a := LeadingEnd(s);
    var t := s[a..];
    var b := TrailingStart(t);
    assert t[..b] == s[a..a + b];
    assert t[b..] == s[a + b..];
    assert b > 0 ==> t[..b][0] == s[a];
    s[a..a + b]
  }

  /** Trimming yields the empty string exactly when `s` consists of
      whitespace only, so `"  ".trim()` is empty while `"  "` is truthy. */
  lemma TrimEmptyIff(s: string)
    ensures Trim(s) == "" <==> AllWhitespace(s)
  {
    var a, b :| 0 <= a <= b <= |s| && Trim(s) == s[a..b] && AllWhitespace(s[..a]) && AllWhitespace(s[b..]);
    if Trim(s) == "" {
      assert a == b;
      forall i | 0 <= i < |s| ensures IsWhitespace(s[i]) {
        if i < a { assert s[..a][i] == s[i]; } else { assert s[b..][i - b] == s[i]; }
      }
    }
  }

  /** Every non-whitespace character of `s` survives trimming. */
  lemma TrimKeeps(s: string, i: nat)
    requires i < |s| && !IsWhitespace(s[i])
    ensures s[i] in Trim(s)
  {
    var a, b :| 0 <= a <= b <= |s| && Trim(s) == s[a..b] && AllWhitespace(s[..a]) && AllWhitespace(s[b..]);
    if i < a {
      assert s[..a][i] == s[i];
    } else if i >= b {
      assert s[b..][i - b] == s[i];
    } else {
      assert s[a..b][i - a] == s[i];
    }
  }

}
