/** The closed set of emotion labels and the "first maximal label" rule that
    Python's `max(scores, key=scores.get)` applies to a dict keyed in that order. */
module Labels {
  import opened Text

  /** The seven supported emotions, in the order every score dict is keyed. */
  const EMOTIONS: seq<string> := ["happy", "sad", "angry", "neutral", "fearful", "disgusted", "surprised"]

  const NEUTRAL: string := "neutral"

  /** Every label of EMOTIONS occurs once. */
  lemma EmotionsDistinct()
    ensures |EMOTIONS| == 7
    ensures forall i, j :: 0 <= i < j < |EMOTIONS| ==> EMOTIONS[i] != EMOTIONS[j]
  {
  }

  /** A score map keyed by (at least) every label of `labels`. */
  ghost predicate Covers(labels: seq<string>, score: map<string, real>) {
    forall i :: 0 <= i < |labels| ==> labels[i] in score
  }

  /** Index of the first label whose score is maximal: Python's `max` keeps the
      first element among equal maxima. */
  function FirstMaxIndex(labels: seq<string>, score: map<string, real>): (k: nat)
    requires |labels| > 0 && Covers(labels, score)
    ensures k < |labels|
    ensures forall j :: 0 <= j < |labels| ==> score[labels[j]] <= score[labels[k]]
    ensures forall j :: 0 <= j < k ==> score[labels[j]] < score[labels[k]]
  {
    if |labels| == 1 then 0
    else
      var k := FirstMaxIndex(labels[..|labels| - 1], score);
      if score[labels[|labels| - 1]] > score[labels[k]] then |labels| - 1 else k
  }

  /** `max(scores, key=scores.get)` over a dict keyed by EMOTIONS in order. */
  function Dominant(score: map<string, real>): (e: string)
    requires Covers(EMOTIONS, score)
    ensures e in EMOTIONS && e in score
    ensures forall j :: 0 <= j < |EMOTIONS| ==> score[EMOTIONS[j]] <= score[e]
  {
    EMOTIONS[FirstMaxIndex(EMOTIONS, score)]
  }

  /** Among the labels that reach the maximum, Dominant picks the earliest in EMOTIONS. */
  lemma DominantIsFirstMaximal(score: map<string, real>, j: nat)
    requires Covers(EMOTIONS, score)
    requires j < |EMOTIONS| && score[EMOTIONS[j]] == score[Dominant(score)]
    ensures exists k :: 0 <= k <= j && EMOTIONS[k] == Dominant(score)
  {
    var k := FirstMaxIndex(EMOTIONS, score);
    assert k <= j;
  }

  /** With every score equal, the first label, "happy", is dominant. */
  lemma DominantOfUniform(score: map<string, real>, v: real)
    requires Covers(EMOTIONS, score)
    requires forall j :: 0 <= j < |EMOTIONS| ==> score[EMOTIONS[j]] == v
    ensures Dominant(score) == "happy"
  {
    var k := FirstMaxIndex(EMOTIONS, score);
    assert score[EMOTIONS[0]] == score[EMOTIONS[k]];
  }

  /** `emotion.lower()` followed by the fallback to "neutral" for any label
      outside EMOTIONS. */
  function NormalizeLabel(emotion: string): (e: string)
    ensures e in EMOTIONS
    ensures Lower(emotion) in EMOTIONS ==> e == Lower(emotion)
    ensures Lower(emotion) !in EMOTIONS ==> e == NEUTRAL
  {
    var l := Lower(emotion);
    if l in EMOTIONS then l else NEUTRAL
  }

  /** Labels of EMOTIONS are already lower case, so normalising keeps them. */
  lemma NormalizeKeepsEmotions(e: string)
    requires e in EMOTIONS
    ensures NormalizeLabel(e) == e
  {
    assert forall k :: 0 <= k < |e| ==> !('A' <= e[k] <= 'Z');
    assert Lower(e) == e;
  }

  /** Normalising is idempotent. */
  lemma NormalizeIdempotent(emotion: string)
    ensures NormalizeLabel(NormalizeLabel(emotion)) == NormalizeLabel(emotion)
  {
    NormalizeKeepsEmotions(NormalizeLabel(emotion));
  }

  /** `d.get(k, 0.0)`. */
  function Get(m: map<string, real>, k: string): real {
    if k in m then m[k] else 0.0
  }

  /** `{emotion: 0.0 for emotion in EMOTIONS}`. */
  function ZeroScores(): (m: map<string, real>)
    ensures m.Keys == set e | e in EMOTIONS
    ensures forall e :: e in m ==> m[e] == 0.0
  {
    map e | e in EMOTIONS :: 0.0
  }

  /** Two maps keyed by exactly EMOTIONS that agree on every label are equal. */
  lemma SameOnEmotions(m: map<string, real>, n: map<string, real>)
    requires m.Keys == n.Keys == set e | e in EMOTIONS
    requires forall j :: 0 <= j < |EMOTIONS| ==> m[EMOTIONS[j]] == n[EMOTIONS[j]]
    ensures m == n
  {
    forall e | e in m
      ensures m[e] == n[e]
    {
      var j :| 0 <= j < |EMOTIONS| && EMOTIONS[j] == e;
    }
  }

  // ---------------------------------------------------------------------------
  // Sums over the labels

  /** Sum of `m` over `labels`. */
  function SumOver(labels: seq<string>, m: map<string, real>): real
    requires Covers(labels, m)
  {
    if labels == [] then 0.0 else m[labels[0]] + SumOver(labels[1..], m)
  }

  ghost predicate Distinct(labels: seq<string>) {
    forall i, j :: 0 <= i < j < |labels| ==> labels[i] != labels[j]
  }

  /** Adding `w` at key `x` only raises the sum over distinct labels by `w`, and
      only when `x` is one of them. */
  lemma {:induction false} SumOverBump(labels: seq<string>, m0: map<string, real>, m1: map<string, real>, x: string, w: real)
    requires Covers(labels, m0) && Covers(labels, m1) && Distinct(labels)
    requires forall i :: 0 <= i < |labels| ==> m1[labels[i]] == m0[labels[i]] + (if labels[i] == x then w else 0.0)
    ensures SumOver(labels, m1) == SumOver(labels, m0) + (if x in labels then w else 0.0)
  {
    if labels != [] {
      SumOverBump(labels[1..], m0, m1, x, w);
      assert x in labels <==> x == labels[0] || x in labels[1..];
      assert labels[0] == x ==> x !in labels[1..];
    }
  }

  /** Dividing every term by `d` divides the sum by `d`. */
  lemma {:induction false} SumOverScaled(labels: seq<string>, m0: map<string, real>, m1: map<string, real>, d: real)
    requires Covers(labels, m0) && Covers(labels, m1) && d != 0.0
    requires forall i :: 0 <= i < |labels| ==> m1[labels[i]] == m0[labels[i]] / d
    ensures SumOver(labels, m1) == SumOver(labels, m0) / d
  {
    if labels != [] {
      SumOverScaled(labels[1..], m0, m1, d);
    }
  }

  /** Sum of `m.get(l, 0.0)` over `labels`. */
  function SumGet(labels: seq<string>, m: map<string, real>): real {
    if labels == [] then 0.0 else Get(m, labels[0]) + SumGet(labels[1..], m)
  }

  lemma {:induction false} SumGetIsSumOver(labels: seq<string>, m: map<string, real>)
    requires Covers(labels, m)
    ensures SumGet(labels, m) == SumOver(labels, m)
  {
    if labels != [] {
      SumGetIsSumOver(labels[1..], m);
    }
  }

  lemma {:induction false} SumGetEmpty(labels: seq<string>)
    ensures SumGet(labels, map[]) == 0.0
  {
    if labels != [] {
      SumGetEmpty(labels[1..]);
    }
  }

  lemma {:induction false} ZeroSum(labels: seq<string>, m: map<string, real>)
    requires Covers(labels, m)
    requires forall i :: 0 <= i < |labels| ==> m[labels[i]] == 0.0
    ensures SumOver(labels, m) == 0.0
  {
    if labels != [] {
      ZeroSum(labels[1..], m);
    }
  }

  lemma DivSelf(t: real)
    requires t != 0.0
    ensures t / t == 1.0
  {
  }
}
