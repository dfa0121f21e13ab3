/**
 * Category scores, the weighted overall score and the issue count.
 * `Math.round` and the weights 0.30 / 0.30 / 0.40 are computed on exact
 * rationals.
 */
module Scoring {
  import opened Report

  /**
   * `Math.round(num / den)`: the integer nearest to `num / den`, halves rounded
   * up, i.e. the `r` with `r - 1/2 <= num / den < r + 1/2`.
   */
  function RoundDiv(num: int, den: int): (r: int)
    requires den > 0
    ensures den * (2 * r - 1) <= 2 * num < den * (2 * r + 1)
  {
    (2 * num + den) / (2 * den)
  }

  /** Only one integer lies within a half of `num / den`. */
  lemma RoundDivUnique(num: int, den: int, r: int)
    requires den > 0
    requires den * (2 * r - 1) <= 2 * num < den * (2 * r + 1)
    ensures r == RoundDiv(num, den)
  {
    var q := RoundDiv(num, den);
    if r < q {
      MulMonotone(den, 2 * r + 1, 2 * q - 1);
    } else if r > q {
      MulMonotone(den, 2 * q + 1, 2 * r - 1);
    }
  }

  lemma MulMonotone(k: int, a: int, b: int)
    requires k > 0 && a <= b
    ensures k * a <= k * b
  {
    assert k * b - k * a == k * (b - a);
  }

  /** A larger numerator never rounds to a smaller integer. */
  lemma RoundDivMonotone(num1: int, num2: int, den: int)
    requires den > 0 && num1 <= num2
    ensures RoundDiv(num1, den) <= RoundDiv(num2, den)
  {
    var r1, r2 := RoundDiv(num1, den), RoundDiv(num2, den);
    if r1 > r2 {
      MulMonotone(den, 2 * r2 + 1, 2 * r1 - 1);
    }
  }

  ghost function PassingPositions(checks: seq<Check>): set<int> {
    set i | 0 <= i < |checks| && checks[i].pass
  }

  ghost function FailingPositions(checks: seq<Check>): set<int> {
    set i | 0 <= i < |checks| && !checks[i].pass
  }

  /** `checks.filter(c => c.pass).length` */
  function PassedCount(checks: seq<Check>): (n: nat)
    ensures n == |PassingPositions(checks)|
    ensures n <= |checks|
    decreases |checks|
  {
    if |checks| == 0 then
      assert PassingPositions(checks) == {};
      0
    else
      var last := |checks| - 1;
      var prefix := checks[..last];
      var hit := if checks[last].pass then {last} else {};
      assert PassingPositions(checks) == PassingPositions(prefix) + hit;
      assert PassingPositions(prefix) * hit == {};
      PassedCount(prefix) + (if checks[last].pass then 1 else 0)
  }

  /** `checks.filter(c => !c.pass).length` */
  function FailedCount(checks: seq<Check>): (n: nat)
    ensures n == |FailingPositions(checks)|
    ensures n + PassedCount(checks) == |checks|
    decreases |checks|
  {
    if |checks| == 0 then
      assert FailingPositions(checks) == {};
      0
    else
      var last := |checks| - 1;
      var prefix := checks[..last];
      var miss := if checks[last].pass then {} else {last};
      assert FailingPositions(checks) == FailingPositions(prefix) + miss;
      assert FailingPositions(prefix) * miss == {};
      FailedCount(prefix) + (if checks[last].pass then 0 else 1)
  }

  /** Counting the passing checks of two lists one after the other adds up. */
  lemma {:induction false} PassedOfAppend(a: seq<Check>, b: seq<Check>)
    ensures PassedCount(a + b) == PassedCount(a) + PassedCount(b)
    decreases |b|
  {
    var ab := a + b;
    if |b| == 0 {
      assert ab == a;
    } else {
      var last := |b| - 1;
      var prefix := b[..last];
      assert ab[..|ab| - 1] == a + prefix;
      PassedOfAppend(a, prefix);
      var hit := if b[last].pass then 1 else 0;
      assert PassedCount(ab) == PassedCount(a + prefix) + hit;
      assert PassedCount(b) == PassedCount(prefix) + hit;
    }
  }

  /** `calculateCategoryScore`: 100 for no checks, else `Math.round(passed / n * 100)`. */
  function CategoryScore(checks: seq<Check>): (score: int)
    ensures 0 <= score <= 100
    ensures |checks| == 0 ==> score == 100
    ensures |checks| > 0 ==>
      |checks| * (2 * score - 1) <= 200 * PassedCount(checks) < |checks| * (2 * score + 1)
    ensures PassedCount(checks) == |checks| ==> score == 100
    ensures |checks| > 0 && PassedCount(checks) == 0 ==> score == 0
  {
    if |checks| == 0 then
      100
    else
      var n, p := |checks|, PassedCount(checks);
      var score := RoundDiv(100 * p, n);
      RoundDivMonotone(0, 100 * p, n);
      RoundDivMonotone(100 * p, 100 * n, n);
      RoundDivUnique(0, n, 0);
      RoundDivUnique(100 * n, n, 100);
      score
  }

  /** With five checks each passing check is worth exactly 20 points. */
  lemma CategoryOfFive(checks: seq<Check>)
    requires |checks| == 5
    ensures CategoryScore(checks) == 20 * PassedCount(checks)
  {
    RoundDivUnique(100 * PassedCount(checks), 5, 20 * PassedCount(checks));
  }

  /** With two checks each passing check is worth exactly 50 points. */
  lemma CategoryOfTwo(checks: seq<Check>)
    requires |checks| == 2
    ensures CategoryScore(checks) == 50 * PassedCount(checks)
  {
    RoundDivUnique(100 * PassedCount(checks), 2, 50 * PassedCount(checks));
  }

  /** `Math.round(content * 0.30 + sections * 0.30 + atsEssentials * 0.40)` */
  function OverallScore(content: int, sections: int, essentials: int): (score: int)
    requires 0 <= content <= 100 && 0 <= sections <= 100 && 0 <= essentials <= 100
    ensures 0 <= score <= 100
    ensures 100 * (2 * score - 1) <= 2 * (30 * content + 30 * sections + 40 * essentials)
      < 100 * (2 * score + 1)
    ensures (30 * content + 30 * sections + 40 * essentials) % 100 == 0 ==>
      100 * score == 30 * content + 30 * sections + 40 * essentials
  {
    RoundDiv(30 * content + 30 * sections + 40 * essentials, 100)
  }

  /** Raising any category score never lowers the overall score. */
  lemma OverallMonotone(c1: int, s1: int, e1: int, c2: int, s2: int, e2: int)
    requires 0 <= c1 <= c2 <= 100 && 0 <= s1 <= s2 <= 100 && 0 <= e1 <= e2 <= 100
    ensures OverallScore(c1, s1, e1) <= OverallScore(c2, s2, e2)
  {
    RoundDivMonotone(30 * c1 + 30 * s1 + 40 * e1, 30 * c2 + 30 * s2 + 40 * e2, 100);
  }

  /**
   * The promises the result keeps: category scores move in exact steps of 20, 50
   * and 20 points per passing check, the weighted sum needs no rounding (6, 15
   * and 8 points per passing check), and the issue count is the number of the
   * twelve checks that fail.
   */
  ghost predicate ScoredAsPromised(result: AnalysisResult) {
    var pc := PassedCount(result.content.checks);
    var ps := PassedCount(result.sections.checks);
    var pa := PassedCount(result.atsEssentials.checks);
    && |result.content.checks| == 5
    && |result.sections.checks| == 2
    && |result.atsEssentials.checks| == 5
    && result.content.score == 20 * pc
    && result.sections.score == 50 * ps
    && result.atsEssentials.score == 20 * pa
    && result.score == 6 * pc + 15 * ps + 8 * pa
    && 100 * result.score
      == 30 * result.content.score + 30 * result.sections.score + 40 * result.atsEssentials.score
    && 0 <= result.score <= 100
    && result.issueCount == 12 - pc - ps - pa
    && 0 <= result.issueCount <= 12
    && (result.score == 100 <==> result.issueCount == 0)
    && (result.score == 0 <==> result.issueCount == 12)
  }

  /**
   * Scores the three check lists and counts the failing checks: the part of
   * `analyzeResume` after the checks have run.
   */
  function Summarize(content: seq<Check>, sections: seq<Check>, essentials: seq<Check>): (result: AnalysisResult)
    requires |content| == 5 && |sections| == 2 && |essentials| == 5
    ensures result.content.checks == content
    ensures result.sections.checks == sections
    ensures result.atsEssentials.checks == essentials
    ensures ScoredAsPromised(result)
  {
    var contentScore := CategoryScore(content);
    var sectionsScore := CategoryScore(sections);
    var essentialsScore := CategoryScore(essentials);
    CategoryOfFive(content);
    CategoryOfTwo(sections);
    CategoryOfFive(essentials);
    var score := OverallScore(contentScore, sectionsScore, essentialsScore);
    var all := content + sections + essentials;
    PassedOfAppend(content, sections);
    PassedOfAppend(content + sections, essentials);
    AnalysisResult(
      score,
      FailedCount(all),
      Category(contentScore, content),
      Category(sectionsScore, sections),
      Category(essentialsScore, essentials))
  }
}
