/**
 The string operations the chat screens rely on: JavaScript's
 `String.prototype.trim`, which removes white space and line terminators
 from both ends of a string, and the truthiness test `if (s.trim())`,
 which holds exactly when the trimmed string is non-empty.
 */
module Text {

  /** White space and line terminators in the sense of the ECMAScript
      language specification (sections 12.2 and 12.3 of ECMA-262):
      TAB, VT, FF, ZWNBSP, every space separator (category Zs), and
      LF, CR, LINE SEPARATOR, PARAGRAPH SEPARATOR. */
  predicate IsWhitespace(c: char) {
    var n := c as int;
    || n == 0x09 || n == 0x0B || n == 0x0C || n == 0xFEFF   // TAB VT FF ZWNBSP
    || n == 0x20 || n == 0xA0 || n == 0x1680                 // Zs
    || (0x2000 <= n <= 0x200A) || n == 0x202F || n == 0x205F || n == 0x3000
    || n == 0x0A || n == 0x0D || n == 0x2028 || n == 0x2029  // line terminators
  }

  predicate AllWhitespace(s: string) {
    forall i :: 0 <= i < |s| ==> IsWhitespace(s[i])
  }

  /** Number of white-space characters at the front of `s`. */
  function LeadingWhitespace(s: string): (n: nat)
    ensures n <= |s|
    ensures AllWhitespace(s[..n])
    ensures n < |s| ==> !IsWhitespace(s[n])
  {
    if |s| == 0 || !IsWhitespace(s[0]) then 0
    else
      var k := LeadingWhitespace(s[1..]);
      assert s[1..][..k] == s[1..k + 1];
      1 + k
  }

  /** Number of white-space characters at the back of `s`. */
  function TrailingWhitespace(s: string): (n: nat)
    ensures n <= |s|
    ensures AllWhitespace(s[|s| - n..])
    ensures n < |s| ==> !IsWhitespace(s[|s| - n - 1])
  {
    if |s| == 0 || !IsWhitespace(s[|s| - 1]) then 0
    else
      var k := TrailingWhitespace(s[..|s| - 1]);
      assert s[..|s| - 1][|s| - 1 - k..] == s[|s| - 1 - k..|s| - 1];
      1 + k
  }

  /** `s.trim()`: the longest infix of `s` that neither starts nor ends
      with white space, obtained by dropping white space at both ends. */
  function Trim(s: string): (r: string)
    ensures |r| <= |s|
    ensures r == [] || (!IsWhitespace(r[0]) && !IsWhitespace(r[|r| - 1]))
    ensures r == [] <==> AllWhitespace(s)
  {
    var front := LeadingWhitespace(s);
    var rest := s[front..];
    var back := TrailingWhitespace(rest);
    if back == |rest| then
      assert AllWhitespace(s) by {
        assert s == s[..front] + rest;
        assert rest == rest[|rest| - back..];
      }
      []
    else
      var r := rest[..|rest| - back];
      assert r[0] == s[front];
      r
  }

  /** `s.trim()` read as a JavaScript condition: the empty string is the
      only falsy string. */
  predicate HasContent(s: string) {
    Trim(s) != []
  }

  /** Trimming is an infix cut: `s` is its trimmed form surrounded by
      white space only. */
  lemma TrimIsInfix(s: string)
    ensures exists i, j :: 0 <= i <= j <= |s| && Trim(s) == s[i..j]
                           && AllWhitespace(s[..i]) && AllWhitespace(s[j..])
  {
    var front := LeadingWhitespace(s);
    var rest := s[front..];
    var back := TrailingWhitespace(rest);
    if back == |rest| {
      assert Trim(s) == s[0..0];
      assert AllWhitespace(s[..0]);
      assert s[0..] == s;
    } else {
      var j := |s| - back;
      assert Trim(s) == s[front..j];
      assert s[j..] == rest[|rest| - back..];
    }
  }

  /** Trimming twice is trimming once. */
  lemma TrimIdempotent(s: string)
    ensures Trim(Trim(s)) == Trim(s)
  {
    var t := Trim(s);
    if t != [] {
      assert LeadingWhitespace(t) == 0;
      assert t[0..] == t;
      assert TrailingWhitespace(t) == 0;
      assert t[..|t| - 0] == t;
    }
  }
}
