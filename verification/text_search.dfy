/**
 * Substring search and joining: JavaScript's `String.prototype.includes`, used
 * by the section, layout and hyperlink checks, and `Array.prototype.join`.
 */
module TextSearch {

  /** The pattern `p` occurs in `s` starting at index `i`. */
  predicate OccursAt(s: string, p: string, i: int) {
    0 <= i && i + |p| <= |s| && s[i..i + |p|] == p
  }

  /** An occurrence in the tail of `s` is an occurrence in `s`, one index further on. */
  lemma OccursAtTail(s: string, p: string, i: int)
    requires |s| > 0 && i >= 0
    ensures OccursAt(s[1..], p, i) <==> OccursAt(s, p, i + 1)
  {
    if 0 <= i && i + |p| <= |s| - 1 {
      assert s[1..][i..i + |p|] == s[i + 1..i + 1 + |p|];
    }
  }

  /** `s.includes(p)`: scans `s` from the left for the first place `p` occurs. */
  function Contains(s: string, p: string): (r: bool)
    ensures r <==> exists i :: OccursAt(s, p, i)
    decreases |s|
  {
    if |p| <= |s| && s[..|p|] == p then
      assert OccursAt(s, p, 0);
      true
    else if |s| == 0 then
      false
    else
      var r := Contains(s[1..], p);
      assert r <==> exists i :: OccursAt(s, p, i) by {
        forall i | OccursAt(s[1..], p, i) ensures OccursAt(s, p, i + 1) {
          OccursAtTail(s, p, i);
        }
        forall i | OccursAt(s, p, i) ensures OccursAt(s[1..], p, i - 1) {
          OccursAtTail(s, p, i - 1);
        }
      }
      r
  }

  /** Text added around a text keeps every occurrence it had. */
  lemma {:induction false} ContainsExtended(u: string, s: string, v: string, p: string)
    requires Contains(s, p)
    ensures Contains(u + s + v, p)
  {
    var i :| OccursAt(s, p, i);
    assert (u + s + v)[|u| + i..|u| + i + |p|] == s[i..i + |p|];
    assert OccursAt(u + s + v, p, |u| + i);
  }

  /** `xs.join(sep)` */
  function JoinWith(xs: seq<string>, sep: string): (r: string)
    ensures |xs| == 1 ==> r == xs[0]
    ensures |xs| == 0 ==> r == []
    decreases |xs|
  {
    if |xs| == 0 then []
    else if |xs| == 1 then xs[0]
    else xs[0] + sep + JoinWith(xs[1..], sep)
  }

  /** Every element of the list occurs in the joined text. */
  lemma {:induction false} JoinWithMentions(xs: seq<string>, sep: string, k: int)
    requires 0 <= k < |xs|
    ensures Contains(JoinWith(xs, sep), xs[k])
    decreases |xs|
  {
    if |xs| == 1 {
      assert OccursAt(JoinWith(xs, sep), xs[k], 0);
    } else if k == 0 {
      assert OccursAt(JoinWith(xs, sep), xs[0], 0);
    } else {
      JoinWithMentions(xs[1..], sep, k - 1);
      ContainsExtended(xs[0] + sep, JoinWith(xs[1..], sep), [], xs[k]);
      assert xs[0] + sep + JoinWith(xs[1..], sep) + [] == JoinWith(xs, sep);
    }
  }
}
