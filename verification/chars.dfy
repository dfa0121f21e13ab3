/**
 * Character classes of JavaScript regular expressions (without the `u` flag)
 * and the ASCII part of `String.prototype.toLowerCase`, as the resume
 * analyser uses them.
 */
module Chars {

  /** `\d`: an ASCII decimal digit. */
  predicate IsDigit(c: char) {
    '0' <= c <= '9'
  }

  predicate IsAsciiUpper(c: char) {
    'A' <= c <= 'Z'
  }

  predicate IsAsciiLower(c: char) {
    'a' <= c <= 'z'
  }

  /** `\w`: ASCII letters, digits and underscore (no Unicode letters without the `u` flag). */
  predicate IsWordChar(c: char) {
    IsAsciiLower(c) || IsAsciiUpper(c) || IsDigit(c) || c == '_'
  }

  /**
   * `\s`: the ECMAScript WhiteSpace and LineTerminator code points —
   * TAB, LF, VT, FF, CR, SPACE, NBSP, the Zs space separators, LS, PS
   * and the BOM.
   */
  predicate IsSpace(c: char) {
    || c == '\t' || c == '\n' || c == '\U{B}' || c == '\U{C}' || c == '\r'
    || c == ' ' || c == '\U{A0}' || c == '\U{1680}'
    || ('\U{2000}' <= c <= '\U{200A}')
    || c == '\U{2028}' || c == '\U{2029}' || c == '\U{202F}' || c == '\U{205F}'
    || c == '\U{3000}' || c == '\U{FEFF}'
  }

  /** `toLowerCase` on one character, restricted to the ASCII letters. */
  function Lower(c: char): (l: char)
    ensures IsAsciiUpper(c) ==> IsAsciiLower(l) && l as int == c as int + 32
    ensures !IsAsciiUpper(c) ==> l == c
    ensures !IsAsciiUpper(l)
  {
    if IsAsciiUpper(c) then (c as int + 32) as char else c
  }

  /** `text.toLowerCase()` in the ASCII restriction: lower-cases each character in place. */
  function LowerText(s: string): (r: string)
    ensures |r| == |s|
    ensures forall i :: 0 <= i < |s| ==> r[i] == Lower(s[i])
  {
    seq(|s|, i requires 0 <= i < |s| => Lower(s[i]))
  }

  /** Lower-casing a text twice changes nothing more than lower-casing it once. */
  lemma LowerTextIdempotent(s: string)
    ensures LowerText(LowerText(s)) == LowerText(s)
  {
  }

  /** Lower-casing distributes over concatenation. */
  lemma LowerTextAppend(a: string, b: string)
    ensures LowerText(a + b) == LowerText(a) + LowerText(b)
  {
  }

  /** Number of UTF-16 code units JavaScript's `length` reports for one character. */
  function CodeUnits(c: char): (n: nat)
    ensures n == 1 || n == 2
  {
    if c as int > 0xFFFF then 2 else 1
  }

  /** Positions, among the first `n`, of characters outside the Basic Multilingual Plane. */
  ghost function AstralPositions(s: string, n: nat): set<int>
    requires n <= |s|
  {
    set i | 0 <= i < n && s[i] as int > 0xFFFF
  }

  /** UTF-16 code units taken by the first `n` characters: one each, plus one per surrogate pair. */
  function Utf16LengthBefore(s: string, n: nat): (units: nat)
    requires n <= |s|
    ensures units == n + |AstralPositions(s, n)|
    ensures units <= 2 * n
  {
    if n == 0 then
      assert AstralPositions(s, n) == {};
      0
    else
      var hit := if s[n - 1] as int > 0xFFFF then {n - 1} else {};
      assert AstralPositions(s, n) == AstralPositions(s, n - 1) + hit;
      assert AstralPositions(s, n - 1) * hit == {};
      Utf16LengthBefore(s, n - 1) + CodeUnits(s[n - 1])
  }

  /**
   * `text.length`: one code unit per character plus one more for each character
   * outside the Basic Multilingual Plane, which JavaScript stores as a surrogate pair.
   */
  function Utf16Length(s: string): (n: nat)
    ensures n == |s| + |set i | 0 <= i < |s| && s[i] as int > 0xFFFF|
    ensures |s| <= n <= 2 * |s|
    ensures (forall i :: 0 <= i < |s| ==> s[i] as int <= 0xFFFF) ==> n == |s|
  {
    assert (forall i :: 0 <= i < |s| ==> s[i] as int <= 0xFFFF) ==> AstralPositions(s, |s|) == {};
    Utf16LengthBefore(s, |s|)
  }
}
