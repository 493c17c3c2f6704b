/** Word-level emotion alignment: frames are assigned to a word by the half-open
    interval [start, end) of its timing, aggregated into one label per word, and
    runs of words with the same label are rendered as `<e>…</e>` segments. */
module Aligner {
  import opened Text
  import opened Labels

  // ---------------------------------------------------------------------------
  // Inputs, as `_get_attr` sees them

  /** A frame's timestamp: absent or None, present but rejected by `float`, or a number. */
  datatype Stamp = NoStamp | NotNumeric | At(t: real)

  /** One emotion frame. `emotion` is None when the attribute is absent or None;
      `confidence` is None when it is absent or None; `scores` is None when it is
      absent or not a dict. */
  datatype Frame = Frame(
    emotion: Option<string>,
    confidence: Option<real>,
    scores: Option<map<string, real>>,
    timestamp: Stamp)

  /** A numeric attribute of a word segment: absent, present but rejected by
      `float` (None included), or a number. */
  datatype Field = Absent | NotNumber | Number(x: real)

  /** One word segment from the recogniser. */
  datatype Segment = Segment(word: Option<string>, start: Field, end: Field)

  /** `WordEmotion`. */
  datatype WordEmotion = WordEmotion(
    word: string,
    start: real,
    end: real,
    emotion: string,
    confidence: real,
    scores: map<string, real>)

  /** The `(emotion, confidence, scores)` triple `_aggregate_frames` returns. */
  datatype Aggregate = Aggregate(emotion: string, confidence: real, scores: map<string, real>)

  // ---------------------------------------------------------------------------
  // Labels

  /** `_normalize_emotion`: a missing or empty label is neutral; otherwise the
      lower-cased label when it is one of EMOTIONS, and neutral when it is not. */
  function NormalizeEmotion(emotion: Option<string>): (e: string)
    ensures e in EMOTIONS
    ensures emotion.Some? && Lower(emotion.value) in EMOTIONS ==> e == Lower(emotion.value)
    ensures emotion.None? || Lower(emotion.value) !in EMOTIONS ==> e == NEUTRAL
  {
    match emotion
    case None => NEUTRAL
    case Some(s) =>
      if s == "" then NEUTRAL
      else
        var normalized := Lower(s);
        if normalized in EMOTIONS then normalized else NEUTRAL
  }

  /** The aligner and the fusion engine normalise a present label the same way. */
  lemma NormalizeEmotionAgrees(s: string)
    ensures NormalizeEmotion(Some(s)) == NormalizeLabel(s)
    ensures NormalizeEmotion(Some(NormalizeEmotion(Some(s)))) == NormalizeEmotion(Some(s))
  {
    NormalizeIdempotent(s);
  }

  // ---------------------------------------------------------------------------
  // Aggregating frames

  /** A frame's weight: its confidence, 1.0 when that is absent or None. */
  function FrameWeight(f: Frame): real {
    match f.confidence
    case None => 1.0
    case Some(c) => c
  }

  /** The frame carries a non-empty score dict, which then replaces its label. */
  predicate UsesScores(f: Frame) {
    f.scores.Some? && f.scores.value != map[]
  }

  function Scaled(x: real, w: real): real {
    x * w
  }

  /** What one frame adds to the raw score of label `e`. */
  function Share(f: Frame, e: string): real {
    if UsesScores(f) then Scaled(Get(f.scores.value, e), FrameWeight(f))
    else if NormalizeEmotion(f.emotion) == e then FrameWeight(f)
    else 0.0
  }

  /** Raw score of label `e` over `frames`. */
  function LabelTotal(frames: seq<Frame>, e: string): real {
    if frames == [] then 0.0 else LabelTotal(frames[..|frames| - 1], e) + Share(frames[|frames| - 1], e)
  }

  /** `total_weight` over `frames`. */
  function WeightTotal(frames: seq<Frame>): real {
    if frames == [] then 0.0 else WeightTotal(frames[..|frames| - 1]) + FrameWeight(frames[|frames| - 1])
  }

  /** The raw score dict: one key per label of EMOTIONS. */
  function RawFrameScores(frames: seq<Frame>): (m: map<string, real>)
    ensures Covers(EMOTIONS, m) && m.Keys == set e | e in EMOTIONS
  {
    map e | e in EMOTIONS :: LabelTotal(frames, e)
  }

  /** The score dict after one more frame: each label's share added to it. */
  function Accumulate(m: map<string, real>, f: Frame): (r: map<string, real>)
    ensures Covers(EMOTIONS, r) && r.Keys == set e | e in EMOTIONS
  {
    map e | e in EMOTIONS :: Get(m, e) + Share(f, e)
  }

  lemma AccumulateAt(m: map<string, real>, f: Frame, e: string)
    requires e in EMOTIONS
    ensures Accumulate(m, f)[e] == Get(m, e) + Share(f, e)
  {
  }

  lemma RawFrameScoresAt(frames: seq<Frame>, e: string)
    requires e in EMOTIONS
    ensures RawFrameScores(frames)[e] == LabelTotal(frames, e)
  {
  }

  lemma RawFrameScoresOfEmpty()
    ensures RawFrameScores([]) == ZeroScores()
  {
    forall j | 0 <= j < |EMOTIONS|
      ensures RawFrameScores([])[EMOTIONS[j]] == ZeroScores()[EMOTIONS[j]]
    {
      RawFrameScoresAt([], EMOTIONS[j]);
    }
    SameOnEmotions(RawFrameScores([]), ZeroScores());
  }

  /** One more frame adds its share at every label. */
  lemma RawFrameScoresStep(frames: seq<Frame>, f: Frame)
    ensures RawFrameScores(frames + [f]) == Accumulate(RawFrameScores(frames), f)
  {
    assert (frames + [f])[..|frames|] == frames;
    forall j | 0 <= j < |EMOTIONS|
      ensures RawFrameScores(frames + [f])[EMOTIONS[j]] == Accumulate(RawFrameScores(frames), f)[EMOTIONS[j]]
    {
      var e := EMOTIONS[j];
      RawFrameScoresAt(frames + [f], e);
      RawFrameScoresAt(frames, e);
      AccumulateAt(RawFrameScores(frames), f, e);
    }
    SameOnEmotions(RawFrameScores(frames + [f]), Accumulate(RawFrameScores(frames), f));
  }

  function Ratio(x: real, total: real): real
    requires total != 0.0
  {
    x / total
  }

  /** The score dict divided by a positive total weight. */
  function Normalised(raw: map<string, real>, total: real): (m: map<string, real>)
    requires total > 0.0
    ensures m.Keys == raw.Keys
  {
    map e | e in raw :: Ratio(raw[e], total)
  }

  /** What `_aggregate_frames` returns. */
  function AggregateFramesSpec(frames: seq<Frame>): (r: Aggregate)
    ensures r.emotion in EMOTIONS
    ensures frames == [] || WeightTotal(frames) <= 0.0 ==> r == Aggregate(NEUTRAL, 0.0, map[])
  {
    var total := WeightTotal(frames);
    if frames == [] || total <= 0.0 then Aggregate(NEUTRAL, 0.0, map[])
    else
      var scores := Normalised(RawFrameScores(frames), total);
      var d := Dominant(scores);
      if scores[d] <= 0.0 then Aggregate(NEUTRAL, 0.0, scores)
      else Aggregate(d, scores[d], scores)
  }

  /** With positive total weight the scores are keyed by EMOTIONS and each is the
      label's raw score divided by the total weight. */
  lemma AggregateFramesScores(frames: seq<Frame>, e: string)
    requires frames != [] && WeightTotal(frames) > 0.0 && e in EMOTIONS
    ensures AggregateFramesSpec(frames).scores.Keys == set l | l in EMOTIONS
    ensures AggregateFramesSpec(frames).scores[e] == Ratio(LabelTotal(frames, e), WeightTotal(frames))
  {
    RawFrameScoresAt(frames, e);
  }

  /** With positive total weight: when some score is positive the result is the
      first label of maximal score with that score as confidence; when none is,
      it is neutral with confidence 0 and the scores kept. */
  lemma AggregateFramesDominant(frames: seq<Frame>)
    requires frames != [] && WeightTotal(frames) > 0.0
    ensures var r := AggregateFramesSpec(frames);
      (exists j :: 0 <= j < |EMOTIONS| && r.scores[EMOTIONS[j]] > 0.0) ==>
        && r.confidence == r.scores[r.emotion] > 0.0
        && (forall j :: 0 <= j < |EMOTIONS| ==> r.scores[EMOTIONS[j]] <= r.confidence)
        && (forall j :: 0 <= j < |EMOTIONS| && EMOTIONS[j] == r.emotion ==>
              forall k :: 0 <= k < j ==> r.scores[EMOTIONS[k]] < r.confidence)
    ensures var r := AggregateFramesSpec(frames);
      (forall j :: 0 <= j < |EMOTIONS| ==> r.scores[EMOTIONS[j]] <= 0.0) ==>
        r.emotion == NEUTRAL && r.confidence == 0.0
  {
    var r := AggregateFramesSpec(frames);
    var k := FirstMaxIndex(EMOTIONS, r.scores);
    EmotionsDistinct();
    if r.scores[EMOTIONS[k]] > 0.0 {
      assert r.emotion == EMOTIONS[k];
    }
  }

  /** When every frame is labelled (or its score dict sums to 1 over EMOTIONS)
      and the total weight is positive, the scores sum to 1. */
  lemma AggregateFramesIsDistribution(frames: seq<Frame>)
    requires frames != [] && WeightTotal(frames) > 0.0
    requires forall f :: f in frames ==> Whole(f)
    ensures SumGet(EMOTIONS, AggregateFramesSpec(frames).scores) == 1.0
  {
    var total := WeightTotal(frames);
    var raw := RawFrameScores(frames);
    var scores := Normalised(raw, total);
    AggregateFramesNormalised(frames);
    SumGetIsSumOver(EMOTIONS, scores);
    RawScoresSumToWeight(frames);
    forall i | 0 <= i < |EMOTIONS|
      ensures scores[EMOTIONS[i]] == raw[EMOTIONS[i]] / total
    {
      NormalisedAt(raw, total, EMOTIONS[i]);
    }
    SumOverScaled(EMOTIONS, raw, scores, total);
    DivSelf(total);
  }

  lemma AggregateFramesNormalised(frames: seq<Frame>)
    requires frames != [] && WeightTotal(frames) > 0.0
    ensures AggregateFramesSpec(frames).scores == Normalised(RawFrameScores(frames), WeightTotal(frames))
  {
  }

  lemma NormalisedAt(raw: map<string, real>, total: real, e: string)
    requires total > 0.0 && e in raw
    ensures Normalised(raw, total)[e] == raw[e] / total
  {
  }

  /** The frame adds weight 1 in all: it is labelled, or its score dict sums to
      1 over EMOTIONS. */
  predicate Whole(f: Frame) {
    UsesScores(f) ==> SumGet(EMOTIONS, f.scores.value) == 1.0
  }

  /** Under the same condition, the raw scores add up to the total weight. */
  lemma {:induction false} RawScoresSumToWeight(frames: seq<Frame>)
    requires forall f :: f in frames ==> Whole(f)
    ensures SumOver(EMOTIONS, RawFrameScores(frames)) == WeightTotal(frames)
  {
    if frames == [] {
      RawFrameScoresOfEmpty();
      ZeroSum(EMOTIONS, ZeroScores());
    } else {
      var init := frames[..|frames| - 1];
      var f := frames[|frames| - 1];
      assert frames == init + [f];
      assert forall g :: g in init ==> g in frames;
      RawScoresSumToWeight(init);
      RawFrameScoresStep(init, f);
      AccumulateSum(RawFrameScores(init), f);
    }
  }

  /** Adding one frame raises the score sum by the frame's weight when its share
      is a whole label, or its score dict sums to 1. */
  lemma AccumulateSum(m: map<string, real>, f: Frame)
    requires Covers(EMOTIONS, m)
    requires Whole(f)
    ensures SumOver(EMOTIONS, Accumulate(m, f)) == SumOver(EMOTIONS, m) + FrameWeight(f)
  {
    var r := Accumulate(m, f);
    EmotionsDistinct();
    if UsesScores(f) {
      forall i | 0 <= i < |EMOTIONS|
        ensures r[EMOTIONS[i]] == m[EMOTIONS[i]] + Scaled(Get(f.scores.value, EMOTIONS[i]), FrameWeight(f))
      {
        AccumulateAt(m, f, EMOTIONS[i]);
      }
      SumOverAddScaled(EMOTIONS, m, f.scores.value, r, FrameWeight(f));
    } else {
      var e := NormalizeEmotion(f.emotion);
      forall i | 0 <= i < |EMOTIONS|
        ensures r[EMOTIONS[i]] == m[EMOTIONS[i]] + (if EMOTIONS[i] == e then FrameWeight(f) else 0.0)
      {
        AccumulateAt(m, f, EMOTIONS[i]);
      }
      SumOverBump(EMOTIONS, m, r, e, FrameWeight(f));
    }
  }

  /** Adding `d[l] * w` at every label adds `w` times the sum of `d`. */
  lemma {:induction false} SumOverAddScaled(labels: seq<string>, m: map<string, real>, d: map<string, real>,
                                            r: map<string, real>, w: real)
    requires Covers(labels, m) && Covers(labels, r)
    requires forall i :: 0 <= i < |labels| ==> r[labels[i]] == m[labels[i]] + Scaled(Get(d, labels[i]), w)
    ensures SumOver(labels, r) == SumOver(labels, m) + Scaled(SumGet(labels, d), w)
  {
    if labels != [] {
      SumOverAddScaled(labels[1..], m, d, r, w);
      var x, xs := Get(d, labels[0]), SumGet(labels[1..], d);
      assert SumGet(labels, d) == x + xs;
      assert Scaled(x + xs, w) == Scaled(x, w) + Scaled(xs, w);
    }
  }

  /** The inner loop of `_aggregate_frames` over a frame's score dict. */
  method AddFrameScores(scores: map<string, real>, frame: Frame) returns (r: map<string, real>)
    requires scores.Keys == set e | e in EMOTIONS
    requires UsesScores(frame)
    ensures r == Accumulate(scores, frame)
  {
    var frameScores := frame.scores.value;
    var weight := if frame.confidence.None? then 1.0 else frame.confidence.value;
    EmotionsDistinct();
    r := scores;
    var i := 0;
    while i < |EMOTIONS|
      invariant 0 <= i <= |EMOTIONS|
      invariant r.Keys == set e | e in EMOTIONS
      invariant forall j :: 0 <= j < i ==> r[EMOTIONS[j]] == Get(scores, EMOTIONS[j]) + Share(frame, EMOTIONS[j])
      invariant forall j :: i <= j < |EMOTIONS| ==> r[EMOTIONS[j]] == scores[EMOTIONS[j]]
    {
      var emotion := EMOTIONS[i];
      r := r[emotion := r[emotion] + Scaled(Get(frameScores, emotion), weight)];
      i := i + 1;
    }
    forall j | 0 <= j < |EMOTIONS|
      ensures r[EMOTIONS[j]] == Accumulate(scores, frame)[EMOTIONS[j]]
    {
      AccumulateAt(scores, frame, EMOTIONS[j]);
    }
    SameOnEmotions(r, Accumulate(scores, frame));
  }

  /** A labelled frame adds its weight at its normalised label only. */
  lemma AddLabelIsAccumulate(scores: map<string, real>, frame: Frame)
    requires scores.Keys == set e | e in EMOTIONS
    requires !UsesScores(frame)
    ensures var e := NormalizeEmotion(frame.emotion);
      scores[e := scores[e] + FrameWeight(frame)] == Accumulate(scores, frame)
  {
    var e := NormalizeEmotion(frame.emotion);
    var r := scores[e := scores[e] + FrameWeight(frame)];
    forall j | 0 <= j < |EMOTIONS|
      ensures r[EMOTIONS[j]] == Accumulate(scores, frame)[EMOTIONS[j]]
    {
      AccumulateAt(scores, frame, EMOTIONS[j]);
    }
    SameOnEmotions(r, Accumulate(scores, frame));
  }

  /** The loop of `_aggregate_frames`: the accumulated scores and total weight
      of the frames. */
  method SumFrames(frames: seq<Frame>) returns (scores: map<string, real>, totalWeight: real)
    ensures scores == RawFrameScores(frames)
    ensures totalWeight == WeightTotal(frames)
  {
    scores := ZeroScores();
    totalWeight := 0.0;
    RawFrameScoresOfEmpty();
    var i := 0;
    while i < |frames|
      invariant 0 <= i <= |frames|
      invariant scores == RawFrameScores(frames[..i])
      invariant totalWeight == WeightTotal(frames[..i])
    {
      var frame := frames[i];
      assert frames[..i + 1] == frames[..i] + [frame];
      assert (frames[..i] + [frame])[..i] == frames[..i];
      RawFrameScoresStep(frames[..i], frame);
      if frame.scores.Some? && frame.scores.value != map[] {
        var weight := if frame.confidence.None? then 1.0 else frame.confidence.value;
        scores := AddFrameScores(scores, frame);
        totalWeight := totalWeight + weight;
      } else {
        var emotion := NormalizeEmotion(frame.emotion);
        var weight := if frame.confidence.None? then 1.0 else frame.confidence.value;
        AddLabelIsAccumulate(scores, frame);
        scores := scores[emotion := scores[emotion] + weight];
        totalWeight := totalWeight + weight;
      }
      i := i + 1;
    }
    assert frames[..i] == frames;
  }

  /** `_aggregate_frames`. */
  method AggregateFrames(frames: seq<Frame>) returns (agg: Aggregate)
    ensures agg == AggregateFramesSpec(frames)
  {
    if frames == [] {
      return Aggregate(NEUTRAL, 0.0, map[]);
    }
    var scores, totalWeight := SumFrames(frames);
    if totalWeight <= 0.0 {
      return Aggregate(NEUTRAL, 0.0, map[]);
    }
    scores := map e | e in scores :: Ratio(scores[e], totalWeight);
    var dominant := Dominant(scores);
    var maxScore := scores[dominant];
    if maxScore <= 0.0 {
      return Aggregate(NEUTRAL, 0.0, scores);
    }
    agg := Aggregate(dominant, scores[dominant], scores);
  }

  // ---------------------------------------------------------------------------
  // Assigning frames to words

  /** `_frame_in_range`: the frame has a numeric timestamp inside [start, end). */
  predicate FrameInRange(f: Frame, start: real, end: real) {
    f.timestamp.At? && start <= f.timestamp.t < end
  }

  /** The frames of `frames` that lie in [start, end), in their original order. */
  function InRange(frames: seq<Frame>, start: real, end: real): (r: seq<Frame>)
    ensures |r| <= |frames|
    ensures forall f :: f in r ==> f in frames && FrameInRange(f, start, end)
    ensures forall f :: f in frames && FrameInRange(f, start, end) ==> f in r
  {
    if frames == [] then []
    else (if FrameInRange(frames[0], start, end) then [frames[0]] else []) + InRange(frames[1..], start, end)
  }

  /** Filtering distributes over concatenation. */
  lemma {:induction false} InRangeAppend(a: seq<Frame>, b: seq<Frame>, start: real, end: real)
    ensures InRange(a + b, start, end) == InRange(a, start, end) + InRange(b, start, end)
  {
    if a == [] {
      assert a + b == b;
    } else {
      assert (a + b)[0] == a[0] && (a + b)[1..] == a[1..] + b;
      InRangeAppend(a[1..], b, start, end);
      var head := if FrameInRange(a[0], start, end) then [a[0]] else [];
      assert InRange(a + b, start, end) == head + InRange(a[1..] + b, start, end);
      assert InRange(a, start, end) == head + InRange(a[1..], start, end);
    }
  }

  /** The numeric start of a segment: 0.0 when absent or not a number. */
  function StartValue(s: Segment): real {
    match s.start
    case Number(x) => x
    case _ => 0.0
  }

  /** The numeric end of a segment: 0.0 when absent, the start when present but
      not a number. */
  function EndValue(s: Segment): real {
    match s.end
    case Absent => 0.0
    case NotNumber => StartValue(s)
    case Number(x) => x
  }

  function WordText(s: Segment): string {
    match s.word
    case None => ""
    case Some(w) => w
  }

  /** The `WordEmotion` that `align_emotions` builds for one segment. */
  function AlignOne(s: Segment, frames: seq<Frame>): WordEmotion {
    var start := StartValue(s);
    var end := EndValue(s);
    var agg := AggregateFramesSpec(InRange(frames, start, end));
    WordEmotion(WordText(s), start, end, agg.emotion, agg.confidence, agg.scores)
  }

  /** A frame outside a word's interval does not change that word's emotion,
      wherever it occurs among the frames. */
  lemma AlignIgnoresOutOfRange(s: Segment, a: seq<Frame>, f: Frame, b: seq<Frame>)
    requires !FrameInRange(f, StartValue(s), EndValue(s))
    ensures AlignOne(s, a + [f] + b) == AlignOne(s, a + b)
  {
    var start, end := StartValue(s), EndValue(s);
    InRangeAppend(a + [f], b, start, end);
    InRangeAppend(a, [f], start, end);
    InRangeAppend(a, b, start, end);
    assert InRange([f], start, end) == [] by {
      assert [f][1..] == [];
    }
    assert InRange(a + [f] + b, start, end) == InRange(a + b, start, end);
  }

  /** No frame lies in an empty interval. */
  lemma {:induction false} InRangeOfEmptyInterval(frames: seq<Frame>, start: real, end: real)
    requires end <= start
    ensures InRange(frames, start, end) == []
  {
    if frames != [] {
      InRangeOfEmptyInterval(frames[1..], start, end);
    }
  }

  /** A word whose interval is empty (end <= start) matches no frame, so it is
      neutral with confidence 0 and no scores. */
  lemma EmptyIntervalIsNeutral(s: Segment, frames: seq<Frame>)
    requires EndValue(s) <= StartValue(s)
    ensures var w := AlignOne(s, frames);
      w.emotion == NEUTRAL && w.confidence == 0.0 && w.scores == map[]
  {
    InRangeOfEmptyInterval(frames, StartValue(s), EndValue(s));
    assert AggregateFramesSpec([]) == Aggregate(NEUTRAL, 0.0, map[]);
  }

  /** `align_emotions`: one result per segment, in the same order. */
  method AlignEmotions(segments: seq<Segment>, frames: seq<Frame>) returns (results: seq<WordEmotion>)
    ensures |results| == |segments|
    ensures forall i :: 0 <= i < |segments| ==>
      && results[i].word == WordText(segments[i])
      && results[i].start == StartValue(segments[i])
      && results[i].end == EndValue(segments[i])
    ensures forall i :: 0 <= i < |segments| ==> results[i] == AlignOne(segments[i], frames)
  {
    if segments == [] {
      return [];
    }
    results := [];
    var i := 0;
    while i < |segments|
      invariant 0 <= i <= |segments|
      invariant |results| == i
      invariant forall k :: 0 <= k < i ==> results[k] == AlignOne(segments[k], frames)
    {
      var segment := segments[i];
      var word := if segment.word.None? then "" else segment.word.value;
      var startValue := if segment.start.Number? then segment.start.x else 0.0;
      var endValue := match segment.end
        case Absent => 0.0
        case NotNumber => startValue
        case Number(x) => x;
      var matched := InRange(frames, startValue, endValue);
      var agg := AggregateFrames(matched);
      results := results + [WordEmotion(word, startValue, endValue, agg.emotion, agg.confidence, agg.scores)];
      i := i + 1;
    }
  }

  // ---------------------------------------------------------------------------
  // Tagged text

  /** A maximal run of consecutive words sharing one emotion. */
  datatype Run = Run(emotion: string, words: seq<string>)

  /** The runs of `ws`: each word joins the last run when its emotion equals that
      run's, and opens a new run otherwise. */
  function Runs(ws: seq<WordEmotion>): seq<Run> {
    if ws == [] then []
    else
      var rs := Runs(ws[..|ws| - 1]);
      var w := ws[|ws| - 1];
      if rs != [] && rs[|rs| - 1].emotion == w.emotion then rs[..|rs| - 1] + [Run(w.emotion, rs[|rs| - 1].words + [w.word])]
      else rs + [Run(w.emotion, [w.word])]
  }

  /** Every word of `rs`, paired with its run's emotion, in order. */
  function Expand(rs: seq<Run>): seq<(string, string)> {
    if rs == [] then [] else Expand(rs[..|rs| - 1]) + ExpandRun(rs[|rs| - 1])
  }

  function ExpandRun(r: Run): seq<(string, string)> {
    seq(|r.words|, i requires 0 <= i < |r.words| => (r.words[i], r.emotion))
  }

  /** Each word of `ws` paired with its emotion. */
  function Pairs(ws: seq<WordEmotion>): seq<(string, string)> {
    seq(|ws|, i requires 0 <= i < |ws| => (ws[i].word, ws[i].emotion))
  }

  /** Runs are non-empty, adjacent runs carry different emotions, there are runs
      exactly when there are words, and the last run has the last word's emotion. */
  lemma {:induction false} RunsWellFormed(ws: seq<WordEmotion>)
    ensures var rs := Runs(ws);
      && (rs == [] <==> ws == [])
      && (forall i :: 0 <= i < |rs| ==> rs[i].words != [])
      && (forall i :: 0 <= i < |rs| - 1 ==> rs[i].emotion != rs[i + 1].emotion)
      && (ws != [] ==> rs[|rs| - 1].emotion == ws[|ws| - 1].emotion)
  {
    if ws != [] {
      var init := ws[..|ws| - 1];
      var w := ws[|ws| - 1];
      var rs := Runs(init);
      RunsWellFormed(init);
      if rs != [] && rs[|rs| - 1].emotion == w.emotion {
        var r := rs[..|rs| - 1] + [Run(w.emotion, rs[|rs| - 1].words + [w.word])];
        assert Runs(ws) == r;
        assert forall i :: 0 <= i < |rs| - 1 ==> r[i] == rs[i];
        assert forall i :: 0 <= i < |r| - 1 ==> r[i].emotion == rs[i].emotion;
      } else {
        var r := rs + [Run(w.emotion, [w.word])];
        assert Runs(ws) == r;
        assert forall i :: 0 <= i < |rs| ==> r[i] == rs[i];
      }
    }
  }

  /** Reading the runs back word by word gives the words and their emotions in
      their original order. */
  lemma {:induction false} RunsExpand(ws: seq<WordEmotion>)
    ensures Expand(Runs(ws)) == Pairs(ws)
  {
    if ws != [] {
      var init := ws[..|ws| - 1];
      var w := ws[|ws| - 1];
      var rs := Runs(init);
      RunsExpand(init);
      assert Pairs(ws) == Pairs(init) + [(w.word, w.emotion)];
      if rs != [] && rs[|rs| - 1].emotion == w.emotion {
        var last := rs[|rs| - 1];
        var grown := Run(w.emotion, last.words + [w.word]);
        assert rs == rs[..|rs| - 1] + [last];
        assert Expand(rs) == Expand(rs[..|rs| - 1]) + ExpandRun(last);
        assert ExpandRun(grown) == ExpandRun(last) + [(w.word, w.emotion)];
        assert (rs[..|rs| - 1] + [grown])[..|rs| - 1] == rs[..|rs| - 1];
      } else {
        assert (rs + [Run(w.emotion, [w.word])])[..|rs|] == rs;
      }
    }
  }

  /** `<e>w1 w2 …</e>` for one run. */
  function Render(r: Run): string {
    "<" + r.emotion + ">" + Join(" ", r.words) + "</" + r.emotion + ">"
  }

  function RenderAll(rs: seq<Run>): (ss: seq<string>)
    ensures |ss| == |rs|
    ensures forall i :: 0 <= i < |rs| ==> ss[i] == Render(rs[i])
  {
    if rs == [] then [] else RenderAll(rs[..|rs| - 1]) + [Render(rs[|rs| - 1])]
  }

  /** What `format_tagged_text` returns: the rendered runs joined by single spaces. */
  function TaggedText(ws: seq<WordEmotion>): (t: string)
    ensures ws == [] ==> t == ""
  {
    Join(" ", RenderAll(Runs(ws)))
  }

  /** `format_tagged_text`. */
  method FormatTaggedText(wordEmotions: seq<WordEmotion>) returns (t: string)
    ensures t == TaggedText(wordEmotions)
  {
    if wordEmotions == [] {
      return "";
    }
    var segments: seq<string> := [];
    var currentEmotion := wordEmotions[0].emotion;
    var currentWords := [wordEmotions[0].word];
    ghost var closed: seq<Run> := [];
    assert wordEmotions[..1] == [wordEmotions[0]];
    assert Runs(wordEmotions[..1]) == [Run(currentEmotion, currentWords)] by {
      assert wordEmotions[..1][..0] == [];
    }
    var i := 1;
    while i < |wordEmotions|
      invariant 1 <= i <= |wordEmotions|
      invariant Runs(wordEmotions[..i]) == closed + [Run(currentEmotion, currentWords)]
      invariant segments == RenderAll(closed)
    {
      var wordEmotion := wordEmotions[i];
      assert wordEmotions[..i + 1][..i] == wordEmotions[..i];
      assert wordEmotions[..i + 1][i] == wordEmotion;
      ghost var rs := Runs(wordEmotions[..i]);
      assert rs[|rs| - 1] == Run(currentEmotion, currentWords);
      assert rs[..|rs| - 1] == closed;
      if wordEmotion.emotion == currentEmotion {
        currentWords := currentWords + [wordEmotion.word];
      } else {
        segments := segments + [Render(Run(currentEmotion, currentWords))];
        assert (closed + [Run(currentEmotion, currentWords)])[..|closed|] == closed;
        closed := closed + [Run(currentEmotion, currentWords)];
        currentEmotion := wordEmotion.emotion;
        currentWords := [wordEmotion.word];
      }
      i := i + 1;
    }
    assert wordEmotions[..i] == wordEmotions;
    assert (closed + [Run(currentEmotion, currentWords)])[..|closed|] == closed;
    segments := segments + [Render(Run(currentEmotion, currentWords))];
    t := Join(" ", segments);
  }
}
