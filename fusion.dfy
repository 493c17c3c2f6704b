/** The emotion fusion engine: two bounded windows of readings (audio and video),
    each aggregated into a time-decayed score distribution, combined with fixed
    modality weights, plus the cross-modal incongruence flag. */
module Fusion {
  import opened Text
  import opened Labels

  const AUDIO_WEIGHT: real := 0.6
  const VIDEO_WEIGHT: real := 0.4
  /** After this many seconds a reading carries half its weight. */
  const DECAY_HALF_LIFE: real := 10.0
  /** Both modality confidences must exceed this for incongruence. */
  const INCONGRUENCE_THRESHOLD: real := 0.3
  /** The window size `EmotionFusion` uses when none is given. */
  const DEFAULT_WINDOW_SIZE: nat := 10

  // ---------------------------------------------------------------------------
  // Decay factor

  /** What the model relies on about the decay factor `0.5 ** (age / DECAY_HALF_LIFE)`:
      1 at age 0, always positive, at most 1 for a non-negative age, and halved by
      every further half-life. The factor itself is a parameter of the operations
      that need it. */
  ghost predicate DecayLaw(decay: real -> real) {
    && decay(0.0) == 1.0
    && (forall age :: decay(age) > 0.0)
    && (forall age :: age >= 0.0 ==> decay(age) <= 1.0)
    && (forall a, b {:trigger decay(a), decay(b)} :: b == a + DECAY_HALF_LIFE ==> decay(b) == decay(a) / 2.0)
  }

  /** 2 to the power -k. */
  function HalfPow(k: int): (p: real)
    ensures p > 0.0
    ensures k >= 0 ==> p <= 1.0
    decreases if k < 0 then -k else k
  {
    if k == 0 then 1.0 else if k > 0 then HalfPow(k - 1) / 2.0 else 2.0 * HalfPow(k + 1)
  }

  lemma {:induction false} HalfPowStep(k: int)
    ensures HalfPow(k + 1) == HalfPow(k) / 2.0
    decreases if k < 0 then -k else k
  {
    if k < -1 {
      HalfPowStep(k + 1);
    }
  }

  /** A function that obeys DecayLaw: it agrees with 0.5 ** (age / 10) at every
      multiple of the half-life and interpolates linearly in between. */
  function HalvingInterpolation(age: real): real {
    var k := (age / DECAY_HALF_LIFE).Floor;
    HalfPow(k) * (1.0 - (age - DECAY_HALF_LIFE * k as real) / (2.0 * DECAY_HALF_LIFE))
  }

  /** HalvingInterpolation is positive, and at most 1 at a non-negative age. */
  lemma HalvingInterpolationBounds(age: real)
    ensures HalvingInterpolation(age) > 0.0
    ensures age >= 0.0 ==> HalvingInterpolation(age) <= 1.0
  {
    var k := (age / DECAY_HALF_LIFE).Floor;
    var x := age - DECAY_HALF_LIFE * k as real;
    assert 0.0 <= x < DECAY_HALF_LIFE;
    var f := 1.0 - x / (2.0 * DECAY_HALF_LIFE);
    assert 0.5 < f <= 1.0;
    var p := HalfPow(k);
    assert HalvingInterpolation(age) == p * f;
    MulPositive(p, f);
    if age >= 0.0 {
      assert k >= 0;
      MulAtMostOne(p, f);
    }
  }

  /** HalvingInterpolation halves over every half-life. */
  lemma HalvingInterpolationHalves(a: real)
    ensures HalvingInterpolation(a + DECAY_HALF_LIFE) == HalvingInterpolation(a) / 2.0
  {
    var b := a + DECAY_HALF_LIFE;
    var k := (a / DECAY_HALF_LIFE).Floor;
    assert b / DECAY_HALF_LIFE == a / DECAY_HALF_LIFE + 1.0;
    assert (b / DECAY_HALF_LIFE).Floor == k + 1;
    var f := 1.0 - (a - DECAY_HALF_LIFE * k as real) / (2.0 * DECAY_HALF_LIFE);
    assert b - DECAY_HALF_LIFE * (k + 1) as real == a - DECAY_HALF_LIFE * k as real;
    assert HalvingInterpolation(b) == HalfPow(k + 1) * f;
    HalfPowStep(k);
    assert HalvingInterpolation(a) == HalfPow(k) * f;
    assert (HalfPow(k) / 2.0) * f == (HalfPow(k) * f) / 2.0;
  }

  /** DecayLaw can be met, so operations that assume it can be called. */
  lemma HalvingInterpolationObeysDecayLaw()
    ensures DecayLaw(HalvingInterpolation)
  {
    forall age
      ensures HalvingInterpolation(age) > 0.0
      ensures age >= 0.0 ==> HalvingInterpolation(age) <= 1.0
    {
      HalvingInterpolationBounds(age);
    }
    forall a, b | b == a + DECAY_HALF_LIFE
      ensures HalvingInterpolation(b) == HalvingInterpolation(a) / 2.0
    {
      HalvingInterpolationHalves(a);
    }
  }

  lemma MulPositive(x: real, y: real)
    requires 0.0 < x && 0.0 < y
    ensures 0.0 < x * y
  {
  }

  lemma MulAtMostOne(x: real, y: real)
    requires 0.0 <= x <= 1.0 && 0.0 <= y <= 1.0
    ensures x * y <= 1.0
  {
    assert (1.0 - x) * y >= 0.0;
    assert x * y == y - (1.0 - x) * y;
  }

  // ---------------------------------------------------------------------------
  // Readings

  datatype Source = Audio | Video

  /** One emotion observation; `timestamp` is the clock reading when it was made. */
  datatype Reading = Reading(emotion: string, confidence: real, source: Source, timestamp: real)

  /** `min(max(x, 0.0), 1.0)`. */
  function Clamp01(x: real): (c: real)
    ensures 0.0 <= c <= 1.0
    ensures 0.0 <= x <= 1.0 ==> c == x
    ensures x < 0.0 ==> c == 0.0
    ensures x > 1.0 ==> c == 1.0
  {
    if x < 0.0 then 0.0 else if x > 1.0 then 1.0 else x
  }

  /** The `EmotionReading` constructor, with the clock reading `now` made a parameter. */
  function NewReading(emotion: string, confidence: real, source: Source, now: real): (r: Reading)
    ensures 0.0 <= r.confidence <= 1.0
    ensures r.emotion == emotion && r.source == source && r.timestamp == now
    ensures 0.0 <= confidence <= 1.0 ==> r.confidence == confidence
  {
    Reading(emotion, Clamp01(confidence), source, now)
  }

  /** `now or time.time()`: a missing or zero `now` falls back to the clock. */
  function ResolveNow(now: Option<real>, clock: real): real {
    match now
    case None => clock
    case Some(t) => if t == 0.0 then clock else t
  }

  /** `EmotionReading.decayed_confidence`. */
  function DecayedConfidence(r: Reading, now: Option<real>, clock: real, decay: real -> real): real {
    r.confidence * decay(ResolveNow(now, clock) - r.timestamp)
  }

  /** At age 0 a reading's decayed confidence is its confidence, and at any
      later time it lies within [0, confidence]. */
  lemma DecayedConfidenceBounds(r: Reading, now: Option<real>, clock: real, decay: real -> real)
    requires DecayLaw(decay) && 0.0 <= r.confidence <= 1.0
    ensures ResolveNow(now, clock) == r.timestamp ==> DecayedConfidence(r, now, clock, decay) == r.confidence
    ensures ResolveNow(now, clock) >= r.timestamp ==>
      0.0 <= DecayedConfidence(r, now, clock, decay) <= r.confidence
  {
    var age := ResolveNow(now, clock) - r.timestamp;
    var d := decay(age);
    assert d > 0.0;
    assert DecayedConfidence(r, now, clock, decay) == r.confidence * d;
    if age == 0.0 {
      assert d == decay(0.0) == 1.0;
      assert r.confidence * d == r.confidence;
    }
    if age >= 0.0 {
      assert d <= 1.0;
      MulBetween(r.confidence, d);
    }
  }

  /** `r.confidence * d` lies in [0, r.confidence] for a factor `d` in [0, 1]. */
  lemma MulBetween(c: real, d: real)
    requires 0.0 <= c && 0.0 <= d <= 1.0
    ensures 0.0 <= c * d <= c
  {
    assert c * d <= c * 1.0;
  }

  /** Every further half-life halves a reading's decayed confidence (for clock
      readings other than 0, which `now or time.time()` would replace). */
  lemma DecayedConfidenceHalves(r: Reading, t: real, clock: real, decay: real -> real)
    requires DecayLaw(decay) && t != 0.0 && t + DECAY_HALF_LIFE != 0.0
    ensures DecayedConfidence(r, Some(t + DECAY_HALF_LIFE), clock, decay) == DecayedConfidence(r, Some(t), clock, decay) / 2.0
  {
    var a := t - r.timestamp;
    var b := t + DECAY_HALF_LIFE - r.timestamp;
    assert b == a + DECAY_HALF_LIFE;
    assert decay(b) == decay(a) / 2.0;
    assert r.confidence * decay(b) == r.confidence * (decay(a) / 2.0);
  }

  /** The weight of a reading at clock reading `now`, as `_aggregate_modality` computes it. */
  function Weight(r: Reading, now: real, decay: real -> real): real {
    DecayedConfidence(r, Some(now), now, decay)
  }

  predicate WellFormed(r: Reading) {
    r.emotion in EMOTIONS && 0.0 <= r.confidence <= 1.0
  }

  predicate AllWellFormed(rs: seq<Reading>) {
    forall r :: r in rs ==> WellFormed(r)
  }

  lemma PrefixWellFormed(rs: seq<Reading>)
    requires AllWellFormed(rs) && rs != []
    ensures AllWellFormed(rs[..|rs| - 1]) && WellFormed(rs[|rs| - 1])
  {
    forall r | r in rs[..|rs| - 1] ensures r in rs {
      var i :| 0 <= i < |rs| - 1 && rs[..|rs| - 1][i] == r;
      assert rs[i] == r;
    }
  }

  lemma WeightNonNegative(r: Reading, now: real, decay: real -> real)
    requires DecayLaw(decay) && WellFormed(r)
    ensures Weight(r, now, decay) >= 0.0
  {
    assert decay(ResolveNow(Some(now), now) - r.timestamp) > 0.0;
  }

  // ---------------------------------------------------------------------------
  // Bounded windows (a `deque` with `maxlen`)

  /** `deque.append` on a deque bounded by `maxlen`: the result is the last
      `maxlen` elements of `q + [x]`. */
  function Push<T>(q: seq<T>, x: T, maxlen: nat): (r: seq<T>)
    ensures |r| <= maxlen
    ensures |r| == if |q| + 1 <= maxlen then |q| + 1 else maxlen
    ensures r == (q + [x])[|q| + 1 - |r|..]
    ensures |q| < maxlen ==> r == q + [x]
    ensures 0 < maxlen == |q| ==> r == q[1..] + [x]
    ensures forall y :: y in r ==> y in q || y == x
  {
    var full := q + [x];
    if |full| <= maxlen then full else full[|full| - maxlen..]
  }

  /** The window after appending every element of `xs` in turn. */
  function PushAll<T>(q: seq<T>, xs: seq<T>, maxlen: nat): seq<T>
    decreases |xs|
  {
    if xs == [] then q else PushAll(Push(q, xs[0], maxlen), xs[1..], maxlen)
  }

  /** The last `n` elements of `s` (all of `s` when it is shorter). */
  function LastN<T>(s: seq<T>, n: nat): (r: seq<T>)
    ensures |r| == if |s| <= n then |s| else n
  {
    if |s| <= n then s else s[|s| - n..]
  }

  lemma PushIsLastN<T>(q: seq<T>, x: T, maxlen: nat)
    ensures Push(q, x, maxlen) == LastN(q + [x], maxlen)
  {
  }

  /** Trimming to the last `n` before appending more and trimming again is the
      same as trimming once at the end. */
  lemma LastNAppend<T>(s: seq<T>, t: seq<T>, n: nat)
    ensures LastN(LastN(s, n) + t, n) == LastN(s + t, n)
  {
    if |s| > n {
      var u := LastN(s, n) + t;
      assert u == (s + t)[|s| - n..];
      if |u| > n {
        assert u[|u| - n..] == (s + t)[|s + t| - n..];
      }
    }
  }

  /** One step of `PushAll`: trimming after the first append and trimming at
      the end agree. */
  lemma PushThenLastN<T>(q: seq<T>, x: T, rest: seq<T>, maxlen: nat)
    ensures LastN(Push(q, x, maxlen) + rest, maxlen) == LastN(q + ([x] + rest), maxlen)
  {
    PushIsLastN(q, x, maxlen);
    LastNAppend(q + [x], rest, maxlen);
    assert (q + [x]) + rest == q + ([x] + rest);
  }

  /** However many readings arrive, a window starting within its bound holds
      exactly the `maxlen` most recent of them, oldest first. */
  lemma {:induction false} PushAllKeepsMostRecent<T>(q: seq<T>, xs: seq<T>, maxlen: nat)
    requires |q| <= maxlen
    ensures PushAll(q, xs, maxlen) == LastN(q + xs, maxlen)
    decreases |xs|
  {
    if xs == [] {
      assert q + xs == q;
    } else {
      var q' := Push(q, xs[0], maxlen);
      PushAllKeepsMostRecent(q', xs[1..], maxlen);
      PushThenLastN(q, xs[0], xs[1..], maxlen);
      assert [xs[0]] + xs[1..] == xs;
    }
  }

  // ---------------------------------------------------------------------------
  // Aggregating one modality

  /** The `{"emotion", "confidence", "scores"}` dict of one modality. */
  datatype ModalityEmotion = ModalityEmotion(emotion: string, confidence: real, scores: map<string, real>)

  /** Summed weight of the readings labelled `e`. */
  function LabelWeight(rs: seq<Reading>, e: string, now: real, decay: real -> real): real {
    if rs == [] then 0.0
    else
      var last := rs[|rs| - 1];
      LabelWeight(rs[..|rs| - 1], e, now, decay) + (if last.emotion == e then Weight(last, now, decay) else 0.0)
  }

  /** Summed weight of all readings. */
  function TotalWeight(rs: seq<Reading>, now: real, decay: real -> real): real {
    if rs == [] then 0.0 else TotalWeight(rs[..|rs| - 1], now, decay) + Weight(rs[|rs| - 1], now, decay)
  }

  /** The un-normalised score dict: one key per label of EMOTIONS. */
  function RawScores(rs: seq<Reading>, now: real, decay: real -> real): (m: map<string, real>)
    ensures Covers(EMOTIONS, m) && m.Keys == set e | e in EMOTIONS
  {
    map e | e in EMOTIONS :: LabelWeight(rs, e, now, decay)
  }

  /** Extending a window by one reading adds its weight at its own label only. */
  lemma RawScoresStep(rs: seq<Reading>, r: Reading, now: real, decay: real -> real)
    requires r.emotion in EMOTIONS
    ensures RawScores(rs + [r], now, decay) ==
      RawScores(rs, now, decay)[r.emotion := RawScores(rs, now, decay)[r.emotion] + Weight(r, now, decay)]
  {
    assert (rs + [r])[..|rs|] == rs;
  }

  lemma RawScoresOfEmpty(now: real, decay: real -> real)
    ensures RawScores([], now, decay) == map e | e in EMOTIONS :: 0.0
  {
  }

  /** What `_aggregate_modality` returns for a window at clock reading `now`. */
  function AggregateSpec(rs: seq<Reading>, now: real, decay: real -> real): ModalityEmotion {
    if rs == [] then ModalityEmotion(NEUTRAL, 0.0, map[])
    else
      var scores := Scores(rs, now, decay);
      var d := Dominant(scores);
      ModalityEmotion(d, scores[d], scores)
  }

  /** The score dict of a non-empty window: divided by the total weight when that
      is positive, left as it is otherwise. */
  function Scores(rs: seq<Reading>, now: real, decay: real -> real): (m: map<string, real>)
    ensures Covers(EMOTIONS, m) && m.Keys == set e | e in EMOTIONS
  {
    var total := TotalWeight(rs, now, decay);
    var raw := RawScores(rs, now, decay);
    if total > 0.0 then map e | e in raw :: raw[e] / total else raw
  }

  lemma ScoreAt(rs: seq<Reading>, now: real, decay: real -> real, e: string)
    requires e in EMOTIONS
    ensures e in Scores(rs, now, decay)
    ensures var total := TotalWeight(rs, now, decay);
      Scores(rs, now, decay)[e] ==
        if total > 0.0 then LabelWeight(rs, e, now, decay) / total else LabelWeight(rs, e, now, decay)
  {
  }

  /** The loop of `_aggregate_modality`: per-label and total decayed weight of
      the readings. */
  method SumWeights(readings: seq<Reading>, now: real, decay: real -> real)
    returns (scores: map<string, real>, totalWeight: real)
    requires AllWellFormed(readings)
    ensures scores == RawScores(readings, now, decay)
    ensures totalWeight == TotalWeight(readings, now, decay)
  {
    scores := map e | e in EMOTIONS :: 0.0;
    totalWeight := 0.0;
    var i := 0;
    RawScoresOfEmpty(now, decay);
    while i < |readings|
      invariant 0 <= i <= |readings|
      invariant scores == RawScores(readings[..i], now, decay)
      invariant totalWeight == TotalWeight(readings[..i], now, decay)
    {
      var reading := readings[i];
      var w := DecayedConfidence(reading, Some(now), now, decay);
      assert readings[..i + 1] == readings[..i] + [reading];
      assert reading in readings;
      RawScoresStep(readings[..i], reading, now, decay);
      scores := scores[reading.emotion := Get(scores, reading.emotion) + w];
      totalWeight := totalWeight + w;
      i := i + 1;
    }
    assert readings[..i] == readings;
  }

  /** `EmotionFusion._aggregate_modality`, with the clock reading made a parameter. */
  method AggregateModality(readings: seq<Reading>, now: real, decay: real -> real) returns (agg: ModalityEmotion)
    requires AllWellFormed(readings)
    ensures agg == AggregateSpec(readings, now, decay)
  {
    if readings == [] {
      return ModalityEmotion(NEUTRAL, 0.0, map[]);
    }
    var scores, totalWeight := SumWeights(readings, now, decay);
    if totalWeight > 0.0 {
      scores := map k | k in scores :: scores[k] / totalWeight;
    }
    var dominant := Dominant(scores);
    agg := ModalityEmotion(dominant, scores[dominant], scores);
  }

  // ---------------------------------------------------------------------------
  // Sums over the labels

  /** The sum of a weighted combination is the weighted combination of the sums. */
  lemma {:induction false} SumOverCombined(labels: seq<string>, a: map<string, real>, v: map<string, real>,
                                           f: map<string, real>, wa: real, wv: real)
    requires Covers(labels, f)
    requires forall i :: 0 <= i < |labels| ==> f[labels[i]] == Mix(Get(a, labels[i]), Get(v, labels[i]), wa, wv)
    ensures SumOver(labels, f) == Mix(SumGet(labels, a), SumGet(labels, v), wa, wv)
  {
    if labels != [] {
      SumOverCombined(labels[1..], a, v, f, wa, wv);
      var x, y := Get(a, labels[0]), Get(v, labels[0]);
      var xs, ys := SumGet(labels[1..], a), SumGet(labels[1..], v);
      assert SumGet(labels, a) == x + xs && SumGet(labels, v) == y + ys;
      Distribute(x, xs, wa);
      Distribute(y, ys, wv);
    }
  }

  lemma Distribute(x: real, y: real, w: real)
    ensures (x + y) * w == x * w + y * w
  {
  }

  /** The per-label weights of a well-formed window add up to its total weight. */
  lemma {:induction false} RawScoresSumToTotal(rs: seq<Reading>, now: real, decay: real -> real)
    requires AllWellFormed(rs)
    ensures SumOver(EMOTIONS, RawScores(rs, now, decay)) == TotalWeight(rs, now, decay)
  {
    EmotionsDistinct();
    if rs == [] {
      ZeroSum(EMOTIONS, RawScores(rs, now, decay));
    } else {
      var init := rs[..|rs| - 1];
      var last := rs[|rs| - 1];
      PrefixWellFormed(rs);
      RawScoresSumToTotal(init, now, decay);
      assert WellFormed(last);
      SumOverBump(EMOTIONS, RawScores(init, now, decay), RawScores(rs, now, decay), last.emotion, Weight(last, now, decay));
    }
  }

  /** Each label's weight lies between 0 and the total weight. */
  lemma {:induction false} LabelWeightBounds(rs: seq<Reading>, e: string, now: real, decay: real -> real)
    requires DecayLaw(decay) && AllWellFormed(rs)
    ensures 0.0 <= LabelWeight(rs, e, now, decay) <= TotalWeight(rs, now, decay)
  {
    if rs != [] {
      var init := rs[..|rs| - 1];
      PrefixWellFormed(rs);
      LabelWeightBounds(init, e, now, decay);
      WeightNonNegative(rs[|rs| - 1], now, decay);
    }
  }

  // ---------------------------------------------------------------------------
  // Properties of one modality's aggregate

  /** An empty window aggregates to `("neutral", 0.0, {})`. */
  lemma AggregateOfEmpty(now: real, decay: real -> real)
    ensures AggregateSpec([], now, decay) == ModalityEmotion("neutral", 0.0, map[])
  {
  }

  /** With positive total weight the scores form a distribution over EMOTIONS:
      non-negative, summing to 1, the reported emotion is the first maximal label
      in EMOTIONS order and the confidence is its score. */
  lemma AggregateIsDistribution(rs: seq<Reading>, now: real, decay: real -> real)
    requires DecayLaw(decay) && AllWellFormed(rs) && rs != []
    requires TotalWeight(rs, now, decay) > 0.0
    ensures var agg := AggregateSpec(rs, now, decay);
      && agg.scores.Keys == set e | e in EMOTIONS
      && (forall j :: 0 <= j < |EMOTIONS| ==> 0.0 <= agg.scores[EMOTIONS[j]] <= 1.0)
      && SumOver(EMOTIONS, agg.scores) == 1.0
      && agg.emotion in EMOTIONS && agg.confidence == agg.scores[agg.emotion]
      && (forall j :: 0 <= j < |EMOTIONS| ==> agg.scores[EMOTIONS[j]] <= agg.confidence)
  {
    var scores := Scores(rs, now, decay);
    var total := TotalWeight(rs, now, decay);
    var raw := RawScores(rs, now, decay);
    forall j | 0 <= j < |EMOTIONS|
      ensures 0.0 <= scores[EMOTIONS[j]] <= 1.0
      ensures scores[EMOTIONS[j]] == raw[EMOTIONS[j]] / total
    {
      ScoreInUnit(rs, now, decay, EMOTIONS[j]);
      ScoreAt(rs, now, decay, EMOTIONS[j]);
    }
    RawScoresSumToTotal(rs, now, decay);
    SumOverScaled(EMOTIONS, raw, scores, total);
    DivSelf(total);
  }

  /** Every label's score lies in [0, 1]. */
  lemma ScoreInUnit(rs: seq<Reading>, now: real, decay: real -> real, e: string)
    requires DecayLaw(decay) && AllWellFormed(rs) && e in EMOTIONS
    ensures 0.0 <= Scores(rs, now, decay)[e] <= 1.0
  {
    ScoreAt(rs, now, decay, e);
    LabelWeightBounds(rs, e, now, decay);
    var total := TotalWeight(rs, now, decay);
    if total > 0.0 {
      DivInUnit(LabelWeight(rs, e, now, decay), total);
    }
  }

  lemma DivInUnit(a: real, t: real)
    requires 0.0 <= a <= t && t > 0.0
    ensures 0.0 <= a / t <= 1.0
  {
  }

  /** When every reading has zero weight (all confidences 0), every score stays 0,
      so the first label, "happy", is reported with confidence 0. */
  lemma AggregateOfWeightless(rs: seq<Reading>, now: real, decay: real -> real)
    requires DecayLaw(decay) && AllWellFormed(rs) && rs != []
    requires TotalWeight(rs, now, decay) == 0.0
    ensures var agg := AggregateSpec(rs, now, decay);
      && (forall e :: e in EMOTIONS ==> e in agg.scores && agg.scores[e] == 0.0)
      && agg.emotion == "happy" && agg.confidence == 0.0
  {
    var scores := Scores(rs, now, decay);
    forall e | e in EMOTIONS
      ensures scores[e] == 0.0
    {
      ScoreAt(rs, now, decay, e);
      LabelWeightBounds(rs, e, now, decay);
    }
    DominantOfUniform(scores, 0.0);
  }

  /** Whatever the window, every label's score read with `.get(label, 0.0)` lies in [0, 1]. */
  lemma AggregateScoresInUnit(rs: seq<Reading>, now: real, decay: real -> real, e: string)
    requires DecayLaw(decay) && AllWellFormed(rs)
    ensures 0.0 <= Get(AggregateSpec(rs, now, decay).scores, e) <= 1.0
  {
    if rs != [] && e in EMOTIONS {
      ScoreInUnit(rs, now, decay, e);
    }
  }

  /** The score sum of an aggregate is 1 for a window with positive total weight
      and 0 otherwise. */
  lemma AggregateScoreSum(rs: seq<Reading>, now: real, decay: real -> real)
    requires DecayLaw(decay) && AllWellFormed(rs)
    ensures SumGet(EMOTIONS, AggregateSpec(rs, now, decay).scores) ==
      if rs != [] && TotalWeight(rs, now, decay) > 0.0 then 1.0 else 0.0
  {
    if rs == [] {
      SumGetEmpty(EMOTIONS);
    } else {
      var scores := Scores(rs, now, decay);
      if TotalWeight(rs, now, decay) > 0.0 {
        AggregateIsDistribution(rs, now, decay);
      } else {
        forall i | 0 <= i < |EMOTIONS|
          ensures scores[EMOTIONS[i]] == 0.0
        {
          ScoreAt(rs, now, decay, EMOTIONS[i]);
          LabelWeightBounds(rs, EMOTIONS[i], now, decay);
        }
        ZeroSum(EMOTIONS, scores);
      }
      SumGetIsSumOver(EMOTIONS, scores);
    }
  }

  // ---------------------------------------------------------------------------
  // Fusing the two modalities

  /** The dict `get_fused_emotion` returns. */
  datatype FusedEmotion = FusedEmotion(
    dominant: string,
    confidence: real,
    audio: ModalityEmotion,
    video: ModalityEmotion,
    fusedScores: map<string, real>,
    incongruence: bool)

  /** Modality weights: fixed 0.6/0.4 when both windows hold readings; a window
      without readings gives all the weight to the other one. */
  function ModalityWeights(audioEmpty: bool, videoEmpty: bool): (w: (real, real))
    ensures w.0 + w.1 == 1.0 && 0.0 <= w.0 && 0.0 <= w.1
  {
    if audioEmpty then (0.0, 1.0)
    else if videoEmpty then (1.0, 0.0)
    else (AUDIO_WEIGHT, VIDEO_WEIGHT)
  }

  /** Voice and face confidently disagree about a non-neutral emotion. */
  predicate Incongruent(a: ModalityEmotion, v: ModalityEmotion) {
    && a.emotion != NEUTRAL
    && v.emotion != NEUTRAL
    && a.emotion != v.emotion
    && a.confidence > INCONGRUENCE_THRESHOLD
    && v.confidence > INCONGRUENCE_THRESHOLD
  }

  /** What `get_fused_emotion` returns for the two windows at clock reading `now`. */
  function FusedSpec(audio: seq<Reading>, video: seq<Reading>, now: real, decay: real -> real): FusedEmotion {
    var a := AggregateSpec(audio, now, decay);
    var v := AggregateSpec(video, now, decay);
    if audio == [] && video == [] then FusedEmotion(NEUTRAL, 0.0, a, v, ZeroScores(), false)
    else
      var w := ModalityWeights(audio == [], video == []);
      var fused := Combine(a.scores, v.scores, w.0, w.1);
      var d := Dominant(fused);
      FusedEmotion(d, fused[d], a, v, fused, Incongruent(a, v))
  }

  /** `x * wx + y * wy`: one modality value weighed against the other. */
  function Mix(x: real, y: real, wx: real, wy: real): real {
    x * wx + y * wy
  }

  /** The fused score dict: per label, the audio score times `wa` plus the video
      score times `wv`, a missing score counting as 0. */
  function Combine(a: map<string, real>, v: map<string, real>, wa: real, wv: real): (m: map<string, real>)
    ensures Covers(EMOTIONS, m) && m.Keys == set e | e in EMOTIONS
  {
    map e | e in EMOTIONS :: Mix(Get(a, e), Get(v, e), wa, wv)
  }

  /** With both windows empty the fused state is neutral, confidence 0, all-zero
      scores and no incongruence. */
  lemma FusedOfNothing(now: real, decay: real -> real)
    ensures var f := FusedSpec([], [], now, decay);
      && f.dominant == "neutral" && f.confidence == 0.0 && !f.incongruence
      && f.fusedScores.Keys == set e | e in EMOTIONS
      && (forall e :: e in f.fusedScores ==> f.fusedScores[e] == 0.0)
      && f.audio == f.video == ModalityEmotion("neutral", 0.0, map[])
  {
  }

  /** With at least one window filled, the fused scores are the per-label
      weighted sum of the two modality scores (0.6/0.4 with both windows filled,
      all weight on the filled window otherwise), and the dominant is the first
      label of maximal fused score, with that score as the confidence. */
  lemma FusedIsWeightedSum(audio: seq<Reading>, video: seq<Reading>, now: real, decay: real -> real)
    requires audio != [] || video != []
    ensures var f := FusedSpec(audio, video, now, decay);
      && f.audio == AggregateSpec(audio, now, decay)
      && f.video == AggregateSpec(video, now, decay)
      && (audio != [] && video != [] ==> f.fusedScores == Combine(f.audio.scores, f.video.scores, 0.6, 0.4))
      && (audio == [] ==> f.fusedScores == Combine(f.audio.scores, f.video.scores, 0.0, 1.0))
      && (video == [] ==> f.fusedScores == Combine(f.audio.scores, f.video.scores, 1.0, 0.0))
    ensures var f := FusedSpec(audio, video, now, decay);
      && f.dominant in EMOTIONS && f.confidence == f.fusedScores[f.dominant]
      && (forall j :: 0 <= j < |EMOTIONS| ==> f.fusedScores[EMOTIONS[j]] <= f.confidence)
      && (forall j :: 0 <= j < |EMOTIONS| && EMOTIONS[j] == f.dominant ==>
            forall k :: 0 <= k < j ==> f.fusedScores[EMOTIONS[k]] < f.confidence)
  {
    var f := FusedSpec(audio, video, now, decay);
    var k := FirstMaxIndex(EMOTIONS, f.fusedScores);
    EmotionsDistinct();
    assert f.dominant == EMOTIONS[k];
  }

  /** Mixing two score maps whose scores lie in [0, 1] and sum to at most 1 with
      weights summing to 1 gives scores in [0, 1] summing to at most 1. */
  lemma CombineInUnit(a: map<string, real>, v: map<string, real>, wa: real, wv: real)
    requires 0.0 <= wa && 0.0 <= wv && wa + wv == 1.0
    requires forall e :: 0.0 <= Get(a, e) <= 1.0 && 0.0 <= Get(v, e) <= 1.0
    requires 0.0 <= SumGet(EMOTIONS, a) <= 1.0 && 0.0 <= SumGet(EMOTIONS, v) <= 1.0
    ensures var m := Combine(a, v, wa, wv);
      && (forall j :: 0 <= j < |EMOTIONS| ==> 0.0 <= m[EMOTIONS[j]] <= 1.0)
      && SumOver(EMOTIONS, m) <= 1.0
  {
    var m := Combine(a, v, wa, wv);
    forall j | 0 <= j < |EMOTIONS|
      ensures m[EMOTIONS[j]] == Mix(Get(a, EMOTIONS[j]), Get(v, EMOTIONS[j]), wa, wv)
      ensures 0.0 <= m[EMOTIONS[j]] <= 1.0
    {
      var e := EMOTIONS[j];
      CombineAt(a, v, wa, wv, e);
      ConvexInUnit(Get(a, e), Get(v, e), wa, wv);
    }
    SumOverCombined(EMOTIONS, a, v, m, wa, wv);
    assert SumOver(EMOTIONS, m) == Mix(SumGet(EMOTIONS, a), SumGet(EMOTIONS, v), wa, wv);
    ConvexInUnit(SumGet(EMOTIONS, a), SumGet(EMOTIONS, v), wa, wv);
  }

  /** Every fused score lies in [0, 1] and the fused scores sum to at most 1. */
  lemma FusedScoresInUnit(audio: seq<Reading>, video: seq<Reading>, now: real, decay: real -> real)
    requires DecayLaw(decay) && AllWellFormed(audio) && AllWellFormed(video)
    ensures var f := FusedSpec(audio, video, now, decay);
      && (forall j :: 0 <= j < |EMOTIONS| ==> 0.0 <= f.fusedScores[EMOTIONS[j]] <= 1.0)
      && SumOver(EMOTIONS, f.fusedScores) <= 1.0
      && 0.0 <= f.confidence <= 1.0
  {
    var f := FusedSpec(audio, video, now, decay);
    if audio == [] && video == [] {
      ZeroSum(EMOTIONS, f.fusedScores);
    } else {
      var a := AggregateSpec(audio, now, decay);
      var v := AggregateSpec(video, now, decay);
      var w := ModalityWeights(audio == [], video == []);
      forall e
        ensures 0.0 <= Get(a.scores, e) <= 1.0 && 0.0 <= Get(v.scores, e) <= 1.0
      {
        AggregateScoresInUnit(audio, now, decay, e);
        AggregateScoresInUnit(video, now, decay, e);
      }
      AggregateScoreSum(audio, now, decay);
      AggregateScoreSum(video, now, decay);
      CombineInUnit(a.scores, v.scores, w.0, w.1);
      assert f.fusedScores == Combine(a.scores, v.scores, w.0, w.1);
    }
  }

  lemma ConvexInUnit(x: real, y: real, wx: real, wy: real)
    requires 0.0 <= x <= 1.0 && 0.0 <= y <= 1.0 && 0.0 <= wx && 0.0 <= wy && wx + wy == 1.0
    ensures 0.0 <= Mix(x, y, wx, wy) <= 1.0
  {
    MulBetween(wx, x);
    MulBetween(wy, y);
    assert x * wx == wx * x && y * wy == wy * y;
    var p, q := x * wx, y * wy;
    assert p <= wx && q <= wy;
    assert p + q <= wx + wy;
  }

  /** The incongruence flag is set exactly when both modality emotions are
      non-neutral and different and both modality confidences exceed 0.3; it is
      never set unless both windows hold readings. */
  lemma IncongruenceCharacterised(audio: seq<Reading>, video: seq<Reading>, now: real, decay: real -> real)
    ensures var f := FusedSpec(audio, video, now, decay);
      f.incongruence <==>
        && f.audio.emotion != "neutral" && f.video.emotion != "neutral"
        && f.audio.emotion != f.video.emotion
        && f.audio.confidence > 0.3 && f.video.confidence > 0.3
    ensures FusedSpec(audio, video, now, decay).incongruence ==> audio != [] && video != []
  {
  }

  /** The fused score of one label. */
  lemma CombineAt(a: map<string, real>, v: map<string, real>, wa: real, wv: real, e: string)
    requires e in EMOTIONS
    ensures Combine(a, v, wa, wv)[e] == Mix(Get(a, e), Get(v, e), wa, wv)
  {
  }

  /** The loop of `get_fused_emotion` that fills the fused score dict label by label. */
  method WeighScores(a: map<string, real>, v: map<string, real>, wa: real, wv: real) returns (m: map<string, real>)
    ensures m == Combine(a, v, wa, wv)
  {
    EmotionsDistinct();
    m := ZeroScores();
    var i := 0;
    while i < |EMOTIONS|
      invariant 0 <= i <= |EMOTIONS|
      invariant m.Keys == set e | e in EMOTIONS
      invariant forall j :: 0 <= j < i ==> m[EMOTIONS[j]] == Mix(Get(a, EMOTIONS[j]), Get(v, EMOTIONS[j]), wa, wv)
    {
      var emotion := EMOTIONS[i];
      m := m[emotion := Mix(Get(a, emotion), Get(v, emotion), wa, wv)];
      i := i + 1;
    }
    forall j | 0 <= j < |EMOTIONS|
      ensures m[EMOTIONS[j]] == Combine(a, v, wa, wv)[EMOTIONS[j]]
    {
      CombineAt(a, v, wa, wv, EMOTIONS[j]);
    }
    SameOnEmotions(m, Combine(a, v, wa, wv));
  }

  // ---------------------------------------------------------------------------
  // The engine

  /** `EmotionFusion`: the two windows, each bounded by `windowSize`. */
  class EmotionFusion {
    const windowSize: nat
    var audioReadings: seq<Reading>
    var videoReadings: seq<Reading>

    /** Both windows respect the bound, hold only normalised labels and clamped
        confidences, and each holds only its own modality. */
    ghost predicate Valid()
      reads this
    {
      && |audioReadings| <= windowSize && |videoReadings| <= windowSize
      && AllWellFormed(audioReadings) && AllWellFormed(videoReadings)
      && (forall r :: r in audioReadings ==> r.source == Audio)
      && (forall r :: r in videoReadings ==> r.source == Video)
    }

    /** `EmotionFusion(window_size)`; callers relying on the default pass
        `DEFAULT_WINDOW_SIZE`. */
    constructor (windowSize: nat)
      ensures Valid() && this.windowSize == windowSize
      ensures audioReadings == [] && videoReadings == []
    {
      this.windowSize := windowSize;
      audioReadings := [];
      videoReadings := [];
    }

    /** `update_audio`: appends a reading with the normalised label to the audio
        window only. */
    method UpdateAudio(emotion: string, confidence: real, now: real)
      requires Valid()
      modifies this
      ensures Valid()
      ensures audioReadings == Push(old(audioReadings), NewReading(NormalizeLabel(emotion), confidence, Audio, now), windowSize)
      ensures videoReadings == old(videoReadings)
    {
      var normalized := Lower(emotion);
      if normalized !in EMOTIONS {
        normalized := NEUTRAL;
      }
      audioReadings := Push(audioReadings, NewReading(normalized, confidence, Audio, now), windowSize);
    }

    /** `update_video`: appends a reading with the normalised label to the video
        window only. */
    method UpdateVideo(emotion: string, confidence: real, now: real)
      requires Valid()
      modifies this
      ensures Valid()
      ensures videoReadings == Push(old(videoReadings), NewReading(NormalizeLabel(emotion), confidence, Video, now), windowSize)
      ensures audioReadings == old(audioReadings)
    {
      var normalized := Lower(emotion);
      if normalized !in EMOTIONS {
        normalized := NEUTRAL;
      }
      videoReadings := Push(videoReadings, NewReading(normalized, confidence, Video, now), windowSize);
    }

    /** `reset`: empties both windows. */
    method Reset()
      requires Valid()
      modifies this
      ensures Valid() && audioReadings == [] && videoReadings == []
    {
      audioReadings := [];
      videoReadings := [];
    }

    /** `get_fused_emotion`, with the clock reading `now` made a parameter. */
    method GetFusedEmotion(now: real, decay: real -> real) returns (f: FusedEmotion)
      requires Valid()
      ensures f == FusedSpec(audioReadings, videoReadings, now, decay)
    {
      var audioAgg := AggregateModality(audioReadings, now, decay);
      var videoAgg := AggregateModality(videoReadings, now, decay);
      var audioWeight := AUDIO_WEIGHT;
      var videoWeight := VIDEO_WEIGHT;
      if audioReadings == [] && videoReadings == [] {
        return FusedEmotion(NEUTRAL, 0.0, audioAgg, videoAgg, ZeroScores(), false);
      }
      if audioReadings == [] {
        audioWeight, videoWeight := 0.0, 1.0;
      } else if videoReadings == [] {
        audioWeight, videoWeight := 1.0, 0.0;
      }
      var fusedScores := WeighScores(audioAgg.scores, videoAgg.scores, audioWeight, videoWeight);
      EmotionsDistinct();
      var dominant := Dominant(fusedScores);
      var confidence := fusedScores[dominant];
      var incongruence :=
        && audioAgg.emotion != NEUTRAL
        && videoAgg.emotion != NEUTRAL
        && audioAgg.emotion != videoAgg.emotion
        && audioAgg.confidence > INCONGRUENCE_THRESHOLD
        && videoAgg.confidence > INCONGRUENCE_THRESHOLD;
      f := FusedEmotion(dominant, confidence, audioAgg, videoAgg, fusedScores, incongruence);
    }
  }
}
