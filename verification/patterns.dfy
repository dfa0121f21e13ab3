/**
 * The three regular expressions of the analyser, each given twice: as the
 * set of texts the expression finds a match in (a declarative predicate),
 * and as a left-to-right scanner, with the scanner proved to agree.
 *
 *   email      /[\w.-]+@[\w.-]+\.\w+/
 *   phone      /(\d{3}[-.\s]?){2}\d{4}/
 *   hyperlink  /https?:\/\//
 */
module Patterns {
  import opened Chars
  import opened TextSearch

  /** `[\w.-]` */
  predicate IsEmailChar(c: char) {
    IsWordChar(c) || c == '.' || c == '-'
  }

  /** `[-.\s]` */
  predicate IsPhoneSeparator(c: char) {
    c == '-' || c == '.' || IsSpace(c)
  }

  // ----- Email -----

  /**
   * `t[start..end]` is matched by `[\w.-]+@[\w.-]+\.\w+`, with the `@` at `at`
   * and the literal `.` at `dot`.
   */
  ghost predicate EmailSpan(t: string, start: int, at: int, dot: int, end: int) {
    && 0 <= start < at && at + 1 < dot && dot + 1 < end <= |t|
    && (forall k :: start <= k < at ==> IsEmailChar(t[k]))
    && t[at] == '@'
    && (forall k :: at < k < dot ==> IsEmailChar(t[k]))
    && t[dot] == '.'
    && (forall k :: dot < k < end ==> IsWordChar(t[k]))
  }

  /** The email expression finds a match somewhere in `t`. */
  ghost predicate EmailMatch(t: string) {
    exists start, at, dot, end :: EmailSpan(t, start, at, dot, end)
  }

  /** The shortest match around a given `@` and `.`: one character either side. */
  ghost predicate EmailAt(t: string, at: int, dot: int) {
    && 0 < at && at + 1 < dot && dot + 1 < |t|
    && IsEmailChar(t[at - 1]) && t[at] == '@'
    && (forall k :: at < k < dot ==> IsEmailChar(t[k]))
    && t[dot] == '.' && IsWordChar(t[dot + 1])
  }

  /** A match exists exactly when a shortest match exists. */
  lemma EmailMatchShortest(t: string)
    ensures EmailMatch(t) <==> exists at, dot :: EmailAt(t, at, dot)
  {
    if EmailMatch(t) {
      var start, at, dot, end :| EmailSpan(t, start, at, dot, end);
      assert EmailAt(t, at, dot);
    }
    if exists at, dot :: EmailAt(t, at, dot) {
      var at, dot :| EmailAt(t, at, dot);
      assert EmailSpan(t, at - 1, at, dot, dot + 2);
    }
  }

  /**
   * After the `@` at `at`, with `t[at + 1..k]` all in `[\w.-]`, is there a `.`
   * at or beyond `k` that completes the match? Walks the domain run the way a
   * backtracking matcher does.
   */
  function DomainFrom(t: string, at: nat, k: nat): (r: bool)
    requires 0 < at < k <= |t| && t[at] == '@' && IsEmailChar(t[at - 1])
    requires forall j :: at < j < k ==> IsEmailChar(t[j])
    ensures r <==> exists dot :: k <= dot && EmailAt(t, at, dot)
    decreases |t| - k
  {
    if k + 1 >= |t| then
      false
    else if at + 1 < k && t[k] == '.' && IsWordChar(t[k + 1]) then
      assert EmailAt(t, at, k);
      true
    else if IsEmailChar(t[k]) then
      DomainFrom(t, at, k + 1)
    else
      assert forall dot :: k <= dot && EmailAt(t, at, dot) ==> IsEmailChar(t[k]);
      false
  }

  /** Is there a shortest email match whose `@` is at or beyond `at`? */
  function EmailFrom(t: string, at: nat): (r: bool)
    ensures r <==> exists a, dot :: at <= a && EmailAt(t, a, dot)
    decreases |t| - at
  {
    if at >= |t| then
      false
    else if 0 < at && t[at] == '@' && IsEmailChar(t[at - 1]) && DomainFrom(t, at, at + 1) then
      true
    else
      var r := EmailFrom(t, at + 1);
      assert r <==> exists a, dot :: at <= a && EmailAt(t, a, dot) by {
        if exists a, dot :: at <= a && EmailAt(t, a, dot) {
          var a, dot :| at <= a && EmailAt(t, a, dot);
          if a == at {
            assert at + 1 <= dot;
          }
        }
      }
      r
  }

  /** `/[\w.-]+@[\w.-]+\.\w+/.test(t)` */
  function EmailPresent(t: string): (r: bool)
    ensures r <==> EmailMatch(t)
  {
    EmailMatchShortest(t);
    EmailFrom(t, 0)
  }

  // ----- Phone -----

  ghost predicate DigitsAt(t: string, i: int, n: nat) {
    0 <= i && i + n <= |t| && forall k :: i <= k < i + n ==> IsDigit(t[k])
  }

  /**
   * `(\d{3}[-.\s]?){2}\d{4}` matches at `i`; `sep1` and `sep2` say whether each
   * optional separator is taken.
   */
  ghost predicate PhoneAt(t: string, i: int, sep1: bool, sep2: bool) {
    var j := i + 3 + (if sep1 then 1 else 0);
    var k := j + 3 + (if sep2 then 1 else 0);
    && DigitsAt(t, i, 3) && DigitsAt(t, j, 3) && DigitsAt(t, k, 4)
    && (sep1 ==> IsPhoneSeparator(t[i + 3]))
    && (sep2 ==> IsPhoneSeparator(t[j + 3]))
  }

  /** The phone expression finds a match somewhere in `t`. */
  ghost predicate PhoneMatch(t: string) {
    exists i, sep1, sep2 :: PhoneAt(t, i, sep1, sep2)
  }

  /** `n` digits start at `i`, checked one character at a time. */
  function DigitRun(t: string, i: nat, n: nat): (r: bool)
    ensures r <==> DigitsAt(t, i, n)
    decreases n
  {
    if n == 0 then i <= |t|
    else i < |t| && IsDigit(t[i]) && DigitRun(t, i + 1, n - 1)
  }

  /** Three digits and, when `sep`, a separator after them: the group `\d{3}[-.\s]?`. */
  function GroupEnd(t: string, i: nat, sep: bool): (r: int)
    ensures r >= 0 ==> r == i + 3 + (if sep then 1 else 0)
    ensures r >= 0 <==> DigitsAt(t, i, 3) && (sep ==> i + 3 < |t| && IsPhoneSeparator(t[i + 3]))
  {
    if !DigitRun(t, i, 3) then -1
    else if !sep then i + 3
    else if i + 3 < |t| && IsPhoneSeparator(t[i + 3]) then i + 4
    else -1
  }

  /** The match at `i` with the given choice of separators, checked group by group. */
  function PhoneWith(t: string, i: nat, sep1: bool, sep2: bool): (r: bool)
    ensures r <==> PhoneAt(t, i, sep1, sep2)
  {
    var j := GroupEnd(t, i, sep1);
    j >= 0 && var k := GroupEnd(t, j, sep2); k >= 0 && DigitRun(t, k, 4)
  }

  /** Tries the four ways of taking or skipping the two separators at `i`. */
  function PhoneStartsAt(t: string, i: nat): (r: bool)
    ensures r <==> exists sep1, sep2 :: PhoneAt(t, i, sep1, sep2)
  {
    PhoneWith(t, i, false, false) || PhoneWith(t, i, false, true)
    || PhoneWith(t, i, true, false) || PhoneWith(t, i, true, true)
  }

  function PhoneFrom(t: string, i: nat): (r: bool)
    ensures r <==> exists j, sep1, sep2 :: i <= j && PhoneAt(t, j, sep1, sep2)
    decreases |t| - i
  {
    if i >= |t| then
      assert forall j, sep1, sep2 :: i <= j ==> !PhoneAt(t, j, sep1, sep2);
      false
    else
      PhoneStartsAt(t, i) || PhoneFrom(t, i + 1)
  }

  /** `/(\d{3}[-.\s]?){2}\d{4}/.test(t)` */
  function PhonePresent(t: string): (r: bool)
    ensures r <==> PhoneMatch(t)
  {
    PhoneFrom(t, 0)
  }

  // ----- Hyperlink -----

  /** `/https?:\/\//.test(t)`: the expression matches either literal. */
  function LinkPresent(t: string): (r: bool)
    ensures r <==> (exists i :: OccursAt(t, "http://", i)) || (exists i :: OccursAt(t, "https://", i))
  {
    Contains(t, "http://") || Contains(t, "https://")
  }

  // ----- Worked examples -----

  /** Dashes, dots, spaces or no separators at all: each spelling of a ten-digit number matches. */
  lemma PhoneSpellingsMatch()
    ensures PhoneMatch("555-123-4567")
    ensures PhoneMatch("555.123.4567")
    ensures PhoneMatch("555 123 4567")
    ensures PhoneMatch("5551234567")
  {
    assert PhoneAt("555-123-4567", 0, true, true);
    assert PhoneAt("555.123.4567", 0, true, true);
    assert PhoneAt("555 123 4567", 0, true, true);
    assert PhoneAt("5551234567", 0, false, false);
  }

  /**
   * An area code in parentheses is not part of the pattern: the four-digit group
   * can only be "4567", the middle group then only "123", and no three digits end
   * right before it.
   */
  lemma ParenthesisedAreaCodeMissed()
    ensures !PhoneMatch("(555) 123-4567")
  {
    var t := "(555) 123-4567";
    forall i, sep1: bool, sep2: bool ensures !PhoneAt(t, i, sep1, sep2) {
      var j := i + 3 + (if sep1 then 1 else 0);
      var k := j + 3 + (if sep2 then 1 else 0);
      if 0 <= k < 10 {
        var m := if k == 0 then 0 else if k <= 4 then 4 else if k == 5 then 5 else 9;
        assert !IsDigit(t[m]);
      } else if k == 10 && j == 7 {
        assert !IsDigit(t[9]);
      } else if k == 10 && 0 <= i {
        assert !IsDigit(t[4]);
      }
    }
  }

  /** A name, an `@` and a dotted domain make an email address. */
  lemma DottedDomainMatches()
    ensures EmailMatch("jane.doe@example.com")
  {
    var t := "jane.doe@example.com";
    assert EmailAt(t, 8, 16);
    EmailMatchShortest(t);
  }

  /** A bare host name has no `.` after the `@`, so it is not an email address. */
  lemma BareHostDoesNotMatch()
    ensures !EmailMatch("jane@localhost")
  {
    var t := "jane@localhost";
    assert forall k :: 0 <= k < |t| ==> t[k] != '.';
  }
}
