/**
 * The four token-based content checks: quantified impact, action verbs,
 * word repetition and spelling.
 */
module ContentChecks {
  import opened Chars
  import opened Tokenizer

  /** `[%$0-9]` */
  predicate IsImpactChar(c: char) {
    c == '%' || c == '$' || IsDigit(c)
  }

  predicate HasImpactChar(w: string) {
    exists j :: 0 <= j < |w| && IsImpactChar(w[j])
  }

  /** Some character of some token is a digit, `%` or `$`. */
  ghost predicate SomeImpactChar(tokens: seq<string>) {
    exists i, j :: 0 <= i < |tokens| && 0 <= j < |tokens[i]| && IsImpactChar(tokens[i][j])
  }

  /** Some character of one of the first `n` tokens is a digit, `%` or `$`. */
  function ImpactBefore(tokens: seq<string>, n: nat): (found: bool)
    requires n <= |tokens|
    ensures found <==> exists i, j :: 0 <= i < n && 0 <= j < |tokens[i]| && IsImpactChar(tokens[i][j])
  {
    if n == 0 then false
    else ImpactBefore(tokens, n - 1) || HasImpactChar(tokens[n - 1])
  }

  /** `tokens.some(token => /[%$0-9]/.test(token))` */
  function CheckQuantifiedImpact(tokens: seq<string>): (pass: bool)
    ensures pass <==> SomeImpactChar(tokens)
  {
    ImpactBefore(tokens, |tokens|)
  }

  /**
   * On the tokenizer's output `%` and `$` can never occur, so the check passes
   * exactly when the raw resume text contains an ASCII digit.
   */
  lemma QuantifiedImpactIsDigit(text: string)
    ensures CheckQuantifiedImpact(Tokenize(text)) <==> HasDigit(text)
  {
    var tokens := Tokenize(text);
    TokensKeepDigits(text);
    forall i, j | 0 <= i < |tokens| && 0 <= j < |tokens[i]|
      ensures IsImpactChar(tokens[i][j]) <==> IsDigit(tokens[i][j])
    {
      assert IsTokenChar(tokens[i][j]);
    }
    if CheckQuantifiedImpact(tokens) {
      var i, j :| 0 <= i < |tokens| && 0 <= j < |tokens[i]| && IsImpactChar(tokens[i][j]);
      assert HasDigit(tokens[i]);
    }
    if HasDigit(text) {
      var i :| 0 <= i < |tokens| && HasDigit(tokens[i]);
      var j :| 0 <= j < |tokens[i]| && IsDigit(tokens[i][j]);
      assert IsImpactChar(tokens[i][j]);
    }
  }

  /** The positions of `tokens` holding a word of `lexicon`. */
  ghost function PositionsIn(tokens: seq<string>, lexicon: set<string>): set<int> {
    set i | 0 <= i < |tokens| && tokens[i] in lexicon
  }

  /** The positions before `n` holding a word of `lexicon`. */
  ghost function PositionsBefore(tokens: seq<string>, lexicon: set<string>, n: nat): set<int>
    requires n <= |tokens|
  {
    set i | 0 <= i < n && tokens[i] in lexicon
  }

  /** How many of the first `n` tokens are words of `lexicon`. */
  function CountBefore(tokens: seq<string>, lexicon: set<string>, n: nat): (c: nat)
    requires n <= |tokens|
    ensures c == |PositionsBefore(tokens, lexicon, n)|
    ensures c <= n
  {
    if n == 0 then
      assert PositionsBefore(tokens, lexicon, n) == {};
      0
    else
      var hit := if tokens[n - 1] in lexicon then {n - 1} else {};
      assert PositionsBefore(tokens, lexicon, n) == PositionsBefore(tokens, lexicon, n - 1) + hit;
      assert PositionsBefore(tokens, lexicon, n - 1) * hit == {};
      CountBefore(tokens, lexicon, n - 1) + (if tokens[n - 1] in lexicon then 1 else 0)
  }

  /** `tokens.filter(token => lexicon.has(token)).length`: occurrences counted with multiplicity. */
  function CountIn(tokens: seq<string>, lexicon: set<string>): (n: nat)
    ensures n == |PositionsIn(tokens, lexicon)|
    ensures n <= |tokens|
  {
    assert PositionsIn(tokens, lexicon) == PositionsBefore(tokens, lexicon, |tokens|);
    CountBefore(tokens, lexicon, |tokens|)
  }

  const ActionVerbThreshold: nat := 5

  /** More than five tokens, counted with repeats, are action verbs. */
  ghost predicate ManyActionVerbs(tokens: seq<string>, actionVerbs: set<string>) {
    |PositionsIn(tokens, actionVerbs)| > ActionVerbThreshold
  }

  /** `checkActionVerbs`: more than five tokens (with repeats) are action verbs. */
  function CheckActionVerbs(tokens: seq<string>, actionVerbs: set<string>): (pass: bool)
    ensures pass <==> ManyActionVerbs(tokens, actionVerbs)
  {
    CountIn(tokens, actionVerbs) > ActionVerbThreshold
  }

  // ----- Word repetition -----

  /** How many of the first `n` positions of `tokens` hold `t`. */
  function OccurrencesBefore(tokens: seq<string>, t: string, n: nat): nat
    requires n <= |tokens|
  {
    if n == 0 then 0
    else OccurrencesBefore(tokens, t, n - 1) + (if tokens[n - 1] == t then 1 else 0)
  }

  /** How many positions of `tokens` hold `t`. */
  function Occurrences(tokens: seq<string>, t: string): nat {
    OccurrencesBefore(tokens, t, |tokens|)
  }

  /** Counting positions gives the multiplicity of `t` in the multiset of tokens. */
  lemma {:induction false} OccurrencesBeforeIsMultiplicity(tokens: seq<string>, t: string, n: nat)
    requires n <= |tokens|
    ensures OccurrencesBefore(tokens, t, n) == multiset(tokens[..n])[t]
  {
    if n > 0 {
      OccurrencesBeforeIsMultiplicity(tokens, t, n - 1);
      assert tokens[..n] == tokens[..n - 1] + [tokens[n - 1]];
    }
  }

  lemma OccurrencesIsMultiplicity(tokens: seq<string>, t: string)
    ensures Occurrences(tokens, t) == multiset(tokens)[t]
  {
    OccurrencesBeforeIsMultiplicity(tokens, t, |tokens|);
    assert tokens[..|tokens|] == tokens;
  }

  /**
   * The table `tokens.forEach(t => freq[t] = (freq[t] || 0) + 1)` holds after its
   * first `n` rounds: the keys are the tokens seen so far, each with the number
   * of times it was seen.
   */
  function Frequencies(tokens: seq<string>, n: nat): (freq: map<string, nat>)
    requires n <= |tokens|
    ensures forall i :: 0 <= i < n ==> tokens[i] in freq
    ensures forall t :: t in freq ==> 0 < freq[t] == OccurrencesBefore(tokens, t, n)
  {
    if n == 0 then
      map[]
    else
      var t := tokens[n - 1];
      var freq := Frequencies(tokens, n - 1);
      assert t !in freq ==> OccurrencesBefore(tokens, t, n - 1) == 0 by {
        if OccurrencesBefore(tokens, t, n - 1) > 0 {
          SeenBefore(tokens, t, n - 1);
        }
      }
      freq[t := (if t in freq then freq[t] else 0) + 1]
  }

  /** A token counted among the first `n` positions is at one of them. */
  lemma {:induction false} SeenBefore(tokens: seq<string>, t: string, n: nat)
    requires n <= |tokens| && OccurrencesBefore(tokens, t, n) > 0
    ensures exists i :: 0 <= i < n && tokens[i] == t
  {
    if tokens[n - 1] != t {
      SeenBefore(tokens, t, n - 1);
    }
  }

  /**
   * The largest `freq[keys[i]]` for `i < n`: the first element of
   * `Object.values(freq).sort((a, b) => b - a)`.
   */
  function MaxCount(freq: map<string, nat>, keys: seq<string>, n: nat): (m: nat)
    requires 0 < n <= |keys|
    requires forall i :: 0 <= i < |keys| ==> keys[i] in freq
    ensures exists i :: 0 <= i < n && m == freq[keys[i]]
    ensures forall i :: 0 <= i < n ==> freq[keys[i]] <= m
  {
    if n == 1 then
      freq[keys[0]]
    else
      var rest := MaxCount(freq, keys, n - 1);
      if freq[keys[n - 1]] >= rest then freq[keys[n - 1]] else rest
  }

  /** The number of times the most frequent token occurs. */
  function HighestFrequency(tokens: seq<string>): (m: nat)
    requires |tokens| > 0
    ensures exists i :: 0 <= i < |tokens| && m == Occurrences(tokens, tokens[i])
    ensures forall i :: 0 <= i < |tokens| ==> Occurrences(tokens, tokens[i]) <= m
  {
    var freq := Frequencies(tokens, |tokens|);
    MaxCount(freq, tokens, |tokens|)
  }

  const RepetitionMinTokens: nat := 50

  /** No token makes up more than 3% of all tokens. */
  ghost predicate NoOverusedToken(tokens: seq<string>) {
    forall i :: 0 <= i < |tokens| ==> 100 * Occurrences(tokens, tokens[i]) <= 3 * |tokens|
  }

  /**
   * `checkRepetition`: texts under 50 tokens pass; otherwise no token may make up
   * more than 3% of all tokens (`mostFrequent / tokens.length <= 0.03`).
   */
  function CheckRepetition(tokens: seq<string>): (pass: bool)
    ensures pass <==> |tokens| < RepetitionMinTokens || NoOverusedToken(tokens)
  {
    if |tokens| < RepetitionMinTokens then true
    else 100 * HighestFrequency(tokens) <= 3 * |tokens|
  }

  /** Short texts always pass, whatever their words. */
  lemma ShortTextsPassRepetition(tokens: seq<string>)
    requires |tokens| < RepetitionMinTokens
    ensures CheckRepetition(tokens)
  {
  }

  /** Reordering the tokens does not change the verdict: only the counts matter. */
  lemma RepetitionIgnoresOrder(tokens: seq<string>, other: seq<string>)
    requires multiset(tokens) == multiset(other)
    ensures CheckRepetition(tokens) == CheckRepetition(other)
  {
    assert |tokens| == |multiset(tokens)| == |other|;
    forall t ensures Occurrences(tokens, t) == Occurrences(other, t) {
      OccurrencesIsMultiplicity(tokens, t);
      OccurrencesIsMultiplicity(other, t);
    }
    forall i | 0 <= i < |tokens| ensures tokens[i] in other {
      assert tokens[i] in multiset(tokens);
    }
    forall i | 0 <= i < |other| ensures other[i] in tokens {
      assert other[i] in multiset(other);
    }
    if CheckRepetition(tokens) && |tokens| >= RepetitionMinTokens {
      forall i | 0 <= i < |other| ensures 100 * Occurrences(other, other[i]) <= 3 * |other| {
        var j :| 0 <= j < |tokens| && tokens[j] == other[i];
      }
    }
    if CheckRepetition(other) && |other| >= RepetitionMinTokens {
      forall i | 0 <= i < |tokens| ensures 100 * Occurrences(tokens, tokens[i]) <= 3 * |tokens| {
        var j :| 0 <= j < |other| && other[j] == tokens[i];
      }
    }
  }

  // ----- Spelling -----

  const MisspellingThreshold: nat := 3

  /** Fewer than three tokens, counted with repeats, are words of `misspellings`. */
  ghost predicate FewMisspellings(tokens: seq<string>, misspellings: set<string>) {
    |PositionsIn(tokens, misspellings)| < MisspellingThreshold
  }

  /**
   * The two inherited properties of a plain JavaScript object whose names are
   * all lower case (and so can be tokens): `constructor` and `__proto__`.
   * Looking either up in an object literal gives a truthy value.
   */
  const InheritedObjectKeys: set<string> := {"constructor", "__proto__"}

  /**
   * `checkSpelling` as written: `COMMON_MISSPELLINGS[token]` is a plain-object
   * lookup, so inherited properties count as misspellings too.
   */
  function CheckSpellingAsWritten(tokens: seq<string>, misspellings: set<string>): (pass: bool)
    ensures pass <==> FewMisspellings(tokens, misspellings + InheritedObjectKeys)
  {
    CountIn(tokens, misspellings + InheritedObjectKeys) < MisspellingThreshold
  }

  /** `checkSpelling` as intended: fewer than three tokens are keys of the misspelling table. */
  function CheckSpelling(tokens: seq<string>, misspellings: set<string>): (pass: bool)
    ensures pass <==> FewMisspellings(tokens, misspellings)
  {
    CountIn(tokens, misspellings) < MisspellingThreshold
  }

  /**
   * A resume that uses the word "constructor" three times fails the spelling check
   * as written even when the misspelling table has no such key.
   */
  lemma SpellingAsWrittenCountsConstructor()
    ensures !CheckSpellingAsWritten(["constructor", "constructor", "constructor"], {})
    ensures CheckSpelling(["constructor", "constructor", "constructor"], {})
  {
    var tokens := ["constructor", "constructor", "constructor"];
    assert PositionsIn(tokens, {} + InheritedObjectKeys) == {0, 1, 2};
    assert PositionsIn(tokens, {}) == {};
  }

  lemma {:induction false} CountInIgnoresAbsentWords(tokens: seq<string>, lexicon: set<string>, extra: set<string>)
    requires forall i :: 0 <= i < |tokens| ==> tokens[i] !in extra
    ensures CountIn(tokens, lexicon + extra) == CountIn(tokens, lexicon)
  {
    assert PositionsIn(tokens, lexicon + extra) == PositionsIn(tokens, lexicon);
  }

  /** The two readings agree on every resume that never uses an inherited key as a word. */
  lemma SpellingAgreesWithoutInheritedKeys(tokens: seq<string>, misspellings: set<string>)
    requires forall i :: 0 <= i < |tokens| ==> tokens[i] !in InheritedObjectKeys
    ensures CheckSpellingAsWritten(tokens, misspellings) == CheckSpelling(tokens, misspellings)
  {
    CountInIgnoresAbsentWords(tokens, misspellings, InheritedObjectKeys);
  }

  /** More misspelled words never turn a failing spelling check into a passing one. */
  lemma SpellingMonotone(tokens: seq<string>, more: seq<string>, misspellings: set<string>)
    ensures CheckSpelling(tokens + more, misspellings) ==> CheckSpelling(tokens, misspellings)
  {
    var all := tokens + more;
    assert PositionsIn(tokens, misspellings) <= PositionsIn(all, misspellings) by {
      forall i | i in PositionsIn(tokens, misspellings) ensures i in PositionsIn(all, misspellings) {
        assert all[i] == tokens[i];
      }
    }
    var small, large := PositionsIn(tokens, misspellings), PositionsIn(all, misspellings);
    assert large == small + (large - small);
    assert |large| == |small| + |large - small|;
  }
}
