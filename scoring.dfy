/**
 * Scoring of a free-text answer (the scoring block of `submit_text_answer`):
 * the score depends only on the length of the answer once Python's
 * `str.strip()` has removed leading and trailing whitespace.
 */
module Scoring {

  /** The code points `str.isspace` accepts, one by one. */
  const Whitespace: set<char> := {
    '\t', '\n', '\U{B}', '\U{C}', '\r', '\U{1C}', '\U{1D}', '\U{1E}', '\U{1F}', ' ',
    '\U{85}', '\U{A0}', '\U{1680}',
    '\U{2000}', '\U{2001}', '\U{2002}', '\U{2003}', '\U{2004}', '\U{2005}',
    '\U{2006}', '\U{2007}', '\U{2008}', '\U{2009}', '\U{200A}',
    '\U{2028}', '\U{2029}', '\U{202F}', '\U{205F}', '\U{3000}'
  }

  /** Characters Python's `str.strip()` removes, written as code-point ranges. */
  predicate IsSpace(c: char)
    ensures IsSpace(c) <==> c in Whitespace
  {
    ('\t' <= c <= '\r') || ('\U{1C}' <= c <= ' ') || c == '\U{85}' || c == '\U{A0}' ||
    c == '\U{1680}' || ('\U{2000}' <= c <= '\U{200A}') || c == '\U{2028}' || c == '\U{2029}' ||
    c == '\U{202F}' || c == '\U{205F}' || c == '\U{3000}'
  }

  predicate AllSpace(s: string) {
    forall i :: 0 <= i < |s| ==> IsSpace(s[i])
  }

  /** Neither end of `s` is whitespace. */
  predicate Trimmed(s: string) {
    s == [] || (!IsSpace(s[0]) && !IsSpace(s[|s| - 1]))
  }

  /** The first index at or after `i` that is not whitespace, or `|s|` if there is none. */
  function SkipLeading(s: string, i: nat): (k: nat)
    requires i <= |s|
    ensures i <= k <= |s|
    ensures forall j :: i <= j < k ==> IsSpace(s[j])
    ensures k < |s| ==> !IsSpace(s[k])
    decreases |s| - i
  {
    if i < |s| && IsSpace(s[i]) then SkipLeading(s, i + 1) else i
  }

  /** The end, no lower than `lo`, of `s[..hi]` once its trailing whitespace is dropped. */
  function SkipTrailing(s: string, lo: nat, hi: nat): (k: nat)
    requires lo <= hi <= |s|
    ensures lo <= k <= hi
    ensures forall j :: k <= j < hi ==> IsSpace(s[j])
    ensures k > lo ==> !IsSpace(s[k - 1])
    decreases hi - lo
  {
    if hi > lo && IsSpace(s[hi - 1]) then SkipTrailing(s, lo, hi - 1) else hi
  }

  /** `s.strip()`: the part of `s` between its leading and its trailing whitespace. */
  function Strip(s: string): (r: string)
    ensures Trimmed(r)
    ensures |r| <= |s|
  {
    var lo := SkipLeading(s, 0);
    s[lo..SkipTrailing(s, lo, |s|)]
  }

  /** The feedback record returned for a text answer. */
  datatype Feedback = Feedback(
    correct: bool,
    grammarFixes: string,
    contentScore: int,
    correctAnswer: string,
    nextAvailable: bool)

  const GrammarAdvice: string := "Capitalize proper nouns. Keep sentences concise."
  const SampleAnswer: string := "Sample ideal answer with structured points and examples."

  /** Python's `max` and `min` on two integers. */
  function Max(a: int, b: int): int { if a >= b then a else b }
  function Min(a: int, b: int): int { if a <= b then a else b }

  /**
   * `max(30, min(100, len // 5 + 40))` for a trimmed length `len`
   * (on a non-negative length Python's `//` and Dafny's `/` agree).
   */
  function ContentScore(len: nat): (score: int)
    ensures 40 <= score <= 100
    ensures score > 60 <==> len >= 105
    ensures len >= 300 ==> score == 100
    ensures len < 5 ==> score == 40
  {
    Max(30, Min(100, len / 5 + 40))
  }

  /** The scoring block of `submit_text_answer`. */
  function ScoreAnswer(answer: string): (f: Feedback)
    ensures 40 <= f.contentScore <= 100
    ensures f.correct <==> f.contentScore > 60
    ensures f.correct <==> |Strip(answer)| >= 105
    ensures f.nextAvailable
    ensures f.grammarFixes == GrammarAdvice && f.correctAnswer == SampleAnswer
    ensures f.contentScore == ContentScore(|Strip(answer)|)
  {
    var score := ContentScore(|Strip(answer)|);
    Feedback(score > 60, GrammarAdvice, score, SampleAnswer, true)
  }

  /** A longer trimmed answer never scores less. */
  lemma ContentScoreMonotone(a: nat, b: nat)
    requires a <= b
    ensures ContentScore(a) <= ContentScore(b)
  {
    assert a / 5 <= b / 5;
  }

  /** Below the cap the score is exactly 40 plus a point per five characters; the floor of 30 never applies. */
  lemma ContentScoreBelowCap(len: nat)
    requires len < 300
    ensures ContentScore(len) == len / 5 + 40
  {
  }

  /** Lengths 101 to 104 score exactly 60, which is not enough to be correct. */
  lemma JustOverHundredIsNotCorrect(len: nat)
    requires 100 < len < 105
    ensures ContentScore(len) == 60 && !(ContentScore(len) > 60)
  {
  }

  lemma SplitAt(x: string, i: nat, j: nat)
    requires i <= j <= |x|
    ensures x == x[..i] + x[i..j] + x[j..]
  {
  }

  lemma AllSpaceConcat(a: string, b: string)
    requires AllSpace(a) && AllSpace(b)
    ensures AllSpace(a + b)
  {
  }

  /** Strip finds the core of any whitespace-padded string whose ends are not whitespace. */
  lemma StripPadded(pre: string, m: string, post: string)
    requires AllSpace(pre) && AllSpace(post) && Trimmed(m)
    ensures Strip(pre + m + post) == m
  {
    var s := pre + m + post;
    var lo := SkipLeading(s, 0);
    var hi := SkipTrailing(s, lo, |s|);
    forall j | 0 <= j < |pre| ensures IsSpace(s[j]) { assert s[j] == pre[j]; }
    forall j | |pre| + |m| <= j < |s| ensures IsSpace(s[j]) { assert s[j] == post[j - |pre| - |m|]; }
    if m == [] {
      assert lo == |s|;
      assert s[lo..hi] == [];
    } else {
      assert s[|pre|] == m[0];
      assert s[|pre| + |m| - 1] == m[|m| - 1];
      assert lo == |pre|;
      assert hi == |pre| + |m|;
      assert s[lo..hi] == m;
    }
  }

  /** Every string is its stripped form padded by whitespace on both sides. */
  lemma StripSplits(s: string) returns (a: string, b: string)
    ensures AllSpace(a) && AllSpace(b) && s == a + Strip(s) + b
  {
    var lo := SkipLeading(s, 0);
    var hi := SkipTrailing(s, lo, |s|);
    a, b := s[..lo], s[hi..];
    assert Strip(s) == s[lo..hi];
    SplitAt(s, lo, hi);
    forall j | 0 <= j < |a| ensures IsSpace(a[j]) { assert a[j] == s[j]; }
    forall j | 0 <= j < |b| ensures IsSpace(b[j]) { assert b[j] == s[hi + j]; }
  }

  /** Stripping twice is stripping once. */
  lemma StripIdempotent(s: string)
    ensures Strip(Strip(s)) == Strip(s)
  {
    var r := Strip(s);
    assert r == [] + r + [];
    StripPadded([], r, []);
  }

  /** Adding whitespace at either end does not change the stripped answer. */
  lemma StripIgnoresPadding(pre: string, s: string, post: string)
    requires AllSpace(pre) && AllSpace(post)
    ensures Strip(pre + s + post) == Strip(s)
  {
    var a, b := StripSplits(s);
    var r := Strip(s);
    assert pre + s + post == (pre + a) + r + (b + post);
    AllSpaceConcat(pre, a);
    AllSpaceConcat(b, post);
    StripPadded(pre + a, r, b + post);
  }

  /** The feedback of an answer does not change when whitespace is added or removed at its ends. */
  lemma ScoreIgnoresPadding(pre: string, answer: string, post: string)
    requires AllSpace(pre) && AllSpace(post)
    ensures ScoreAnswer(pre + answer + post) == ScoreAnswer(answer)
  {
    StripIgnoresPadding(pre, answer, post);
  }

  /** Two answers with trimmed forms of equal length get the same feedback. */
  lemma ScoreDependsOnTrimmedLength(a: string, b: string)
    requires |Strip(a)| == |Strip(b)|
    ensures ScoreAnswer(a) == ScoreAnswer(b)
  {
  }

  /** An empty or whitespace-only answer scores 40 and is not correct. */
  lemma BlankAnswer(answer: string)
    requires AllSpace(answer)
    ensures Strip(answer) == []
    ensures ScoreAnswer(answer).contentScore == 40 && !ScoreAnswer(answer).correct
  {
    assert answer == answer + [] + [];
    StripPadded(answer, [], []);
  }

  /** A feedback's score never drops when the trimmed answer gets longer. */
  lemma ScoreAnswerMonotone(a: string, b: string)
    requires |Strip(a)| <= |Strip(b)|
    ensures ScoreAnswer(a).contentScore <= ScoreAnswer(b).contentScore
  {
    ContentScoreMonotone(|Strip(a)|, |Strip(b)|);
  }

  /** An example answer of a backend-engineer candidate. */
  const ExampleAnswer: string :=
    "I" + " have built REST APIs using HTTP and HTTPS for secure communication across multiple services with proper error handling and monitoring in place for reliability" + "."

  /** That answer is 161 characters once trimmed, which scores 72 and is correct. */
  lemma ExampleAnswerScore()
    ensures |Strip(ExampleAnswer)| == 161
    ensures ScoreAnswer(ExampleAnswer).contentScore == 72
    ensures ScoreAnswer(ExampleAnswer).correct
  {
    var a := ExampleAnswer;
    assert a[0] == 'I' && a[|a| - 1] == '.';
    assert a == [] + a + [];
    StripPadded([], a, []);
  }
}
