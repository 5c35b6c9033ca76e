/**
 * The string operations of the JavaScript runtime that the chat widget relies on:
 * `String.prototype.trim`, `String.prototype.toLowerCase` (ASCII letters only) and
 * `String.prototype.includes`.
 */
module Text {

  /** The characters `trim` strips: ECMAScript WhiteSpace and LineTerminator code points. */
  predicate IsWhitespace(c: char)
  {
    c == '\t' || c == '\n' || c == '\U{000B}' || c == '\U{000C}' || c == '\r' || c == ' '
    || c == '\U{00A0}' || c == '\U{1680}' || ('\U{2000}' <= c <= '\U{200A}')
    || c == '\U{2028}' || c == '\U{2029}' || c == '\U{202F}' || c == '\U{205F}'
    || c == '\U{3000}' || c == '\U{FEFF}'
  }

  predicate AllWhitespace(s: string)
  {
    forall i | 0 <= i < |s| :: IsWhitespace(s[i])
  }

  /** The number of whitespace characters `s` starts with. */
  function LeadingWhitespace(s: string): (n: nat)
    ensures n <= |s| && AllWhitespace(s[..n])
    ensures n < |s| ==> !IsWhitespace(s[n])
  {
    if s == [] || !IsWhitespace(s[0]) then 0
    else
      var n := 1 + LeadingWhitespace(s[1..]);
      assert forall i | 1 <= i < n :: s[..n][i] == s[1..][..n - 1][i - 1];
      n
  }

  /** The number of whitespace characters `s` ends with. */
  function TrailingWhitespace(s: string): (n: nat)
    ensures n <= |s| && AllWhitespace(s[|s| - n..])
    ensures n < |s| ==> !IsWhitespace(s[|s| - n - 1])
  {
    if s == [] || !IsWhitespace(s[|s| - 1]) then 0
    else
      var s' := s[..|s| - 1];
      var n := 1 + TrailingWhitespace(s');
      assert s[|s| - n..] == s'[|s'| - (n - 1)..] + [s[|s| - 1]];
      n
  }

  /** A non-blank character at index `j` bounds the trailing whitespace. */
  lemma TrailingBound(s: string, j: nat)
    requires j < |s| && !IsWhitespace(s[j])
    ensures j < |s| - TrailingWhitespace(s)
  {
  }

  /**
   * `s.trim()`: the slice of `s` between its leading and its trailing whitespace
   * (empty when `s` is all whitespace).
   */
  function Trim(s: string): (r: string)
    ensures |r| <= |s|
    ensures r == [] || (!IsWhitespace(r[0]) && !IsWhitespace(r[|r| - 1]))
    ensures r == [] <==> AllWhitespace(s)
  {
    var a := LeadingWhitespace(s);
    if a == |s| then
      []
    else
      TrailingBound(s, a);
      s[a..|s| - TrailingWhitespace(s)]
  }

  /** What `trim` removes is whitespace on both sides, and what it keeps is a slice of `s`. */
  lemma TrimIsSlice(s: string)
    ensures var r, k := Trim(s), LeadingWhitespace(s);
      k + |r| <= |s| && s[k..k + |r|] == r
      && AllWhitespace(s[..k]) && AllWhitespace(s[k + |r|..])
  {
    var k := LeadingWhitespace(s);
    if k < |s| {
      TrailingBound(s, k);
    }
  }

  /** A string that starts and ends with non-blank characters survives `trim` as a prefix. */
  lemma TrimKeepsPrefix(p: string, q: string)
    requires p != [] && !IsWhitespace(p[0]) && !IsWhitespace(p[|p| - 1])
    ensures |p| <= |Trim(p + q)| && Trim(p + q)[..|p|] == p
  {
    var s := p + q;
    assert LeadingWhitespace(s) == 0;
    TrailingBound(s, |p| - 1);
  }

  /** A single trailing space after a string without outer whitespace is all `trim` removes. */
  lemma TrimDropsTrailingSpace(p: string)
    requires p != [] && !IsWhitespace(p[0]) && !IsWhitespace(p[|p| - 1])
    ensures Trim(p + " ") == p
  {
    var s := p + " ";
    assert LeadingWhitespace(s) == 0;
    assert TrailingWhitespace(s[..|s| - 1]) == 0 by {
      assert s[..|s| - 1] == p;
    }
    assert s[..|s| - 1] == p;
  }

  /** `trim` is idempotent. */
  lemma TrimIdempotent(s: string)
    ensures Trim(Trim(s)) == Trim(s)
  {
    var r := Trim(s);
    if r != [] {
      assert LeadingWhitespace(r) == 0;
      assert TrailingWhitespace(r) == 0;
    }
  }

  /** The ASCII part of `toLowerCase`. */
  function LowerChar(c: char): (d: char)
    ensures 'A' <= c <= 'Z' ==> 'a' <= d <= 'z' && d as int - c as int == 32
    ensures !('A' <= c <= 'Z') ==> d == c
  {
    if 'A' <= c <= 'Z' then (c as int + 32) as char else c
  }

  function ToLowerAscii(s: string): (r: string)
    ensures |r| == |s|
    ensures forall i | 0 <= i < |s| :: r[i] == LowerChar(s[i])
  {
    if s == [] then [] else [LowerChar(s[0])] + ToLowerAscii(s[1..])
  }

  /** Lower-casing leaves no ASCII capital behind and so is idempotent. */
  lemma ToLowerAsciiIdempotent(s: string)
    ensures forall i | 0 <= i < |s| :: !('A' <= ToLowerAscii(s)[i] <= 'Z')
    ensures ToLowerAscii(ToLowerAscii(s)) == ToLowerAscii(s)
  {
  }

  /** `s.includes(key)`: `key` occurs in `s` as a contiguous slice. */
  predicate Contains(s: string, key: string)
  {
    exists i | 0 <= i <= |s| - |key| :: OccursAt(s, key, i)
  }

  /** `key` occurs in `s` starting at index `i`. */
  predicate OccursAt(s: string, key: string, i: int)
    requires 0 <= i <= |s| - |key|
  {
    s[i..i + |key|] == key
  }
}
