/**
 * The shared tokenizer of the resume analyser:
 * `text.toLowerCase().replace(/[^\w\s-]/g, ' ').split(/\s+/).filter(Boolean)`.
 */
module Tokenizer {
  import opened Chars
  import opened TextSearch

  /** What a token may consist of: lower-case ASCII letters, digits, `_` and `-`. */
  predicate IsTokenChar(c: char) {
    IsAsciiLower(c) || IsDigit(c) || c == '_' || c == '-'
  }

  /** A piece the split can produce once empty pieces are filtered out: non-empty, no `\s`. */
  predicate IsWord(w: string) {
    |w| > 0 && forall j :: 0 <= j < |w| ==> !IsSpace(w[j])
  }

  predicate AllTokenChars(w: string) {
    forall j :: 0 <= j < |w| ==> IsTokenChar(w[j])
  }

  predicate HasDigit(s: string) {
    exists k :: 0 <= k < |s| && IsDigit(s[k])
  }

  /** One character of `toLowerCase().replace(/[^\w\s-]/g, ' ')`. */
  function NormalizeChar(c: char): (n: char)
    ensures IsTokenChar(n) || IsSpace(n)
    ensures IsTokenChar(c) || IsSpace(c) ==> n == c
    ensures IsAsciiUpper(c) ==> n == Lower(c)
    ensures !IsWordChar(c) && !IsSpace(c) && c != '-' ==> n == ' '
    ensures IsDigit(n) <==> IsDigit(c)
  {
    var l := Lower(c);
    if IsWordChar(l) || IsSpace(l) || l == '-' then l else ' '
  }

  function Normalize(s: string): (r: string)
    ensures |r| == |s|
    ensures forall i :: 0 <= i < |s| ==> r[i] == NormalizeChar(s[i])
  {
    seq(|s|, i requires 0 <= i < |s| => NormalizeChar(s[i]))
  }

  /** Length of the run of non-`\s` characters at the front of `s`. */
  function LeadingWordLength(s: string): (n: nat)
    ensures n <= |s|
    ensures forall i :: 0 <= i < n ==> !IsSpace(s[i])
    ensures n < |s| ==> IsSpace(s[n])
    decreases |s|
  {
    if |s| == 0 || IsSpace(s[0]) then 0 else 1 + LeadingWordLength(s[1..])
  }

  /** Every character of `s` is a token character or `\s`: what the normalizing replace leaves. */
  predicate TokenOrSpaceText(s: string) {
    forall k :: 0 <= k < |s| ==> IsTokenChar(s[k]) || IsSpace(s[k])
  }

  /**
   * `split(/\s+/).filter(Boolean)`: the maximal runs of non-`\s` characters, in
   * order; runs cut from a normalized text hold token characters only.
   */
  function Split(s: string): (tokens: seq<string>)
    ensures forall i :: 0 <= i < |tokens| ==> IsWord(tokens[i])
    ensures TokenOrSpaceText(s) ==> forall i :: 0 <= i < |tokens| ==> AllTokenChars(tokens[i])
    decreases |s|
  {
    if |s| == 0 then []
    else if IsSpace(s[0]) then
      Split(s[1..])
    else
      var n := LeadingWordLength(s);
      [s[..n]] + Split(s[n..])
  }

  /** The tokenizer: every downstream check that looks at words uses this one function. */
  function Tokenize(text: string): (tokens: seq<string>)
    ensures text == [] ==> tokens == []
    ensures forall i :: 0 <= i < |tokens| ==> IsWord(tokens[i]) && AllTokenChars(tokens[i])
  {
    Split(Normalize(text))
  }

  // ----- Reference definitions the split is measured against -----

  /** All tokens glued together. */
  function Concat(ws: seq<string>): string {
    if |ws| == 0 then [] else ws[0] + Concat(ws[1..])
  }

  /** The text with every `\s` character deleted. */
  function RemoveSpaces(s: string): string {
    if |s| == 0 then [] else (if IsSpace(s[0]) then [] else [s[0]]) + RemoveSpaces(s[1..])
  }

  /** Tokens written back out, separated by single spaces. */
  function Join(ws: seq<string>): string {
    JoinWith(ws, " ")
  }

  lemma {:induction false} RemoveSpacesAppend(a: string, b: string)
    ensures RemoveSpaces(a + b) == RemoveSpaces(a) + RemoveSpaces(b)
    decreases |a|
  {
    if |a| > 0 {
      assert (a + b)[1..] == a[1..] + b;
      RemoveSpacesAppend(a[1..], b);
    } else {
      assert a + b == b;
    }
  }

  lemma {:induction false} RemoveSpacesOfWord(w: string)
    requires forall j :: 0 <= j < |w| ==> !IsSpace(w[j])
    ensures RemoveSpaces(w) == w
    decreases |w|
  {
    if |w| > 0 {
      RemoveSpacesOfWord(w[1..]);
    }
  }

  /** Splitting loses nothing but the separators: the tokens spell out the non-space characters. */
  lemma {:induction false} SplitConcat(s: string)
    ensures Concat(Split(s)) == RemoveSpaces(s)
    decreases |s|
  {
    if |s| == 0 {
    } else if IsSpace(s[0]) {
      SplitConcat(s[1..]);
    } else {
      var n := LeadingWordLength(s);
      var rest := Split(s[n..]);
      assert Split(s) == [s[..n]] + rest;
      assert ([s[..n]] + rest)[1..] == rest;
      SplitConcat(s[n..]);
      assert s == s[..n] + s[n..];
      RemoveSpacesAppend(s[..n], s[n..]);
      RemoveSpacesOfWord(s[..n]);
    }
  }

  /** The leading run of a space-free prefix extends into whatever follows it. */
  lemma {:induction false} LeadingWordOfAppend(w: string, rest: string)
    requires forall j :: 0 <= j < |w| ==> !IsSpace(w[j])
    ensures LeadingWordLength(w + rest) == |w| + LeadingWordLength(rest)
    decreases |w|
  {
    if |w| == 0 {
      assert w + rest == rest;
    } else {
      assert (w + rest)[1..] == w[1..] + rest;
      LeadingWordOfAppend(w[1..], rest);
    }
  }

  /** The leading run ends at the first space, so any prefix free of spaces and followed by one is it. */
  lemma LeadingWordStops(s: string, n: nat)
    requires n <= |s|
    requires forall j :: 0 <= j < n ==> !IsSpace(s[j])
    requires n < |s| ==> IsSpace(s[n])
    ensures LeadingWordLength(s) == n
  {
  }

  /**
   * A space separates: splitting text around a space splits the two sides on
   * their own and puts the results one after the other.
   */
  lemma {:induction false} SplitAtSpace(a: string, c: char, b: string)
    requires IsSpace(c)
    ensures Split(a + [c] + b) == Split(a) + Split(b)
    decreases |a|
  {
    var s := a + [c] + b;
    if |a| == 0 {
      assert s[1..] == b;
    } else if IsSpace(a[0]) {
      assert s[1..] == a[1..] + [c] + b;
      SplitAtSpace(a[1..], c, b);
    } else {
      var m := LeadingWordLength(a);
      assert s[m] == if m < |a| then a[m] else c;
      LeadingWordStops(s, m);
      assert s[..m] == a[..m];
      assert s[m..] == a[m..] + [c] + b;
      SplitAtSpace(a[m..], c, b);
      assert Split(s) == [a[..m]] + Split(s[m..]);
    }
  }

  /** Splitting undoes joining with spaces: a round trip for any list of words. */
  lemma {:induction false} SplitJoin(ws: seq<string>)
    requires forall i :: 0 <= i < |ws| ==> IsWord(ws[i])
    ensures Split(Join(ws)) == ws
    decreases |ws|
  {
    if |ws| == 0 {
    } else if |ws| == 1 {
      var w := ws[0];
      LeadingWordOfAppend(w, []);
      assert w + [] == w;
      assert w[|w|..] == [];
      assert Split(w) == [w[..|w|]] + Split([]);
    } else {
      var w := ws[0];
      var tail := Join(ws[1..]);
      var s := w + " " + tail;
      assert Join(ws) == s;
      assert s == w + (" " + tail);
      LeadingWordOfAppend(w, " " + tail);
      assert s[..|w|] == w;
      assert s[|w|..] == " " + tail;
      assert (" " + tail)[1..] == tail;
      SplitJoin(ws[1..]);
      assert Split(s) == [w] + ws[1..];
    }
  }

  /** Joined tokens contain only token characters and the separating spaces. */
  lemma {:induction false} JoinChars(ws: seq<string>)
    requires forall i :: 0 <= i < |ws| ==> AllTokenChars(ws[i])
    ensures forall k :: 0 <= k < |Join(ws)| ==> IsTokenChar(Join(ws)[k]) || Join(ws)[k] == ' '
    decreases |ws|
  {
    if |ws| >= 2 {
      JoinChars(ws[1..]);
      var w := ws[0];
      var tail := Join(ws[1..]);
      assert Join(ws) == w + " " + tail;
      forall k | 0 <= k < |Join(ws)| ensures IsTokenChar(Join(ws)[k]) || Join(ws)[k] == ' ' {
        if k < |w| {
          assert Join(ws)[k] == w[k];
        } else if k > |w| {
          assert Join(ws)[k] == tail[k - |w| - 1];
        }
      }
    }
  }

  /**
   * Tokenizing tokens written out with single spaces gives the same tokens back:
   * the tokenizer is a left inverse of `Join` on its own outputs.
   */
  lemma TokenizeJoin(ws: seq<string>)
    requires forall i :: 0 <= i < |ws| ==> IsWord(ws[i]) && AllTokenChars(ws[i])
    ensures Tokenize(Join(ws)) == ws
  {
    var s := Join(ws);
    JoinChars(ws);
    assert Normalize(s) == s;
    SplitJoin(ws);
  }

  /** Tokenizing is idempotent: re-tokenizing the written-out tokens changes nothing. */
  lemma TokenizeIdempotent(text: string)
    ensures Tokenize(Join(Tokenize(text))) == Tokenize(text)
  {
    TokenizeJoin(Tokenize(text));
  }

  lemma {:induction false} ConcatOfWordsEmpty(ws: seq<string>)
    requires forall i :: 0 <= i < |ws| ==> IsWord(ws[i])
    requires Concat(ws) == []
    ensures ws == []
  {
  }

  lemma {:induction false} RemoveSpacesOfBlank(s: string)
    requires forall k :: 0 <= k < |s| ==> IsSpace(s[k])
    ensures RemoveSpaces(s) == []
    decreases |s|
  {
    if |s| > 0 {
      RemoveSpacesOfBlank(s[1..]);
    }
  }

  /**
   * A text with no ASCII letter, digit, `_` or `-` (only punctuation, symbols,
   * whitespace and non-ASCII characters) yields no token at all.
   */
  lemma TokenizeWithoutWordChars(text: string)
    requires forall k :: 0 <= k < |text| ==> !IsWordChar(text[k]) && text[k] != '-'
    ensures Tokenize(text) == []
  {
    var norm := Normalize(text);
    RemoveSpacesOfBlank(norm);
    SplitConcat(norm);
    ConcatOfWordsEmpty(Split(norm));
  }

  // ----- Digits survive tokenization -----

  lemma HasDigitAppend(a: string, b: string)
    ensures HasDigit(a + b) <==> HasDigit(a) || HasDigit(b)
  {
    if HasDigit(a + b) {
      var k :| 0 <= k < |a + b| && IsDigit((a + b)[k]);
      if k >= |a| {
        assert b[k - |a|] == (a + b)[k];
      }
    }
    if HasDigit(a) {
      var k :| 0 <= k < |a| && IsDigit(a[k]);
      assert (a + b)[k] == a[k];
    }
    if HasDigit(b) {
      var k :| 0 <= k < |b| && IsDigit(b[k]);
      assert (a + b)[|a| + k] == b[k];
    }
  }

  lemma {:induction false} HasDigitRemoveSpaces(s: string)
    ensures HasDigit(RemoveSpaces(s)) <==> HasDigit(s)
    decreases |s|
  {
    if |s| > 0 {
      HasDigitRemoveSpaces(s[1..]);
      assert s == [s[0]] + s[1..];
      HasDigitAppend([s[0]], s[1..]);
      HasDigitAppend(if IsSpace(s[0]) then [] else [s[0]], RemoveSpaces(s[1..]));
    }
  }

  lemma {:induction false} HasDigitConcat(ws: seq<string>)
    ensures HasDigit(Concat(ws)) <==> exists i :: 0 <= i < |ws| && HasDigit(ws[i])
    decreases |ws|
  {
    if |ws| > 0 {
      HasDigitConcat(ws[1..]);
      HasDigitAppend(ws[0], Concat(ws[1..]));
      if exists i :: 0 <= i < |ws| && HasDigit(ws[i]) {
        var i :| 0 <= i < |ws| && HasDigit(ws[i]);
        if i > 0 {
          assert ws[1..][i - 1] == ws[i];
        }
      }
    }
  }

  /** Some token holds a digit exactly when the raw text holds one. */
  lemma TokensKeepDigits(text: string)
    ensures (exists i :: 0 <= i < |Tokenize(text)| && HasDigit(Tokenize(text)[i])) <==> HasDigit(text)
  {
    var norm := Normalize(text);
    var tokens := Split(norm);
    assert Tokenize(text) == tokens;
    SplitConcat(norm);
    HasDigitConcat(tokens);
    HasDigitRemoveSpaces(norm);
    assert HasDigit(norm) <==> HasDigit(text) by {
      if HasDigit(text) {
        var k :| 0 <= k < |text| && IsDigit(text[k]);
        assert IsDigit(norm[k]);
      }
      if HasDigit(norm) {
        var k :| 0 <= k < |norm| && IsDigit(norm[k]);
        assert IsDigit(text[k]);
      }
    }
  }
}
