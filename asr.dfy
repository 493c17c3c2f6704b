/** The speech-recognition front end: picks the transcript and language out of
    the analyzer's result and spreads the clip's duration evenly over its
    words. */
module Asr {
  import opened Text
  import SenseVoiceTags

  /** Bytes per second of the 16 kHz, 16-bit mono audio the duration assumes. */
  const BYTES_PER_SECOND: real := 32000.0

  /** A word and the interval of the clip, in seconds, given to it. */
  datatype WordSegment = WordSegment(word: string, start: real, end: real)

  datatype AsrResult = AsrResult(segments: seq<WordSegment>, fullText: string, language: string)

  /** The keys of the analyzer's result dict that are read; `None` is an
      absent key. The analyzer never stores Python's `None` under these keys,
      so an absent key is the only case of `None` that can arise. */
  datatype Analysis = Analysis(transcription: Option<string>, language: Option<string>, rawText: Option<string>)

  /** What the analyzer did with the clip: there is no analyzer, its analysis
      raised, or it returned a result. */
  datatype Outcome = NoAnalyzer | Raised | Analysed(analysis: Analysis)

  function OrElse(o: Option<string>, d: string): string {
    if o.Some? then o.value else d
  }

  /** The clean text and language: from the tags of the raw text when that is
      non-empty, otherwise from the result's own fields. */
  function TextAndLanguage(a: Analysis): (string, string) {
    var raw := OrElse(a.rawText, "");
    if raw != "" then
      var p := SenseVoiceTags.ParseSpec(raw);
      (p.cleanText, p.language)
    else (OrElse(a.transcription, ""), OrElse(a.language, "unknown"))
  }

  /** The segments of `words` over a clip of `duration` seconds: word `i` of
      `n` spans `[i * duration / n, (i + 1) * duration / n]`. */
  function Segments(words: seq<string>, duration: real): (segs: seq<WordSegment>)
    requires words != []
    ensures |segs| == |words|
    ensures forall i :: 0 <= i < |words| ==> segs[i].word == words[i]
  {
    var perWord := duration / (|words| as real);
    seq(|words|, i requires 0 <= i < |words| => WordSegment(words[i], (i as real) * perWord, ((i + 1) as real) * perWord))
  }

  /** `transcribe` over the analyzer's outcome for a clip of `byteCount` bytes. */
  function Transcribe(outcome: Outcome, byteCount: nat): (r: AsrResult)
    ensures outcome.NoAnalyzer? || outcome.Raised? ==> r == AsrResult([], "", "unknown")
    ensures outcome.Analysed? ==> (r.fullText, r.language) == TextAndLanguage(outcome.analysis)
    ensures outcome.Analysed? ==> |r.segments| == |Words(r.fullText)|
    ensures forall i :: 0 <= i < |r.segments| ==> r.segments[i].word == Words(r.fullText)[i]
  {
    match outcome
    case NoAnalyzer => AsrResult([], "", "unknown")
    case Raised => AsrResult([], "", "unknown")
    case Analysed(a) =>
      var (cleanText, language) := TextAndLanguage(a);
      var words := Words(cleanText);
      var duration := (byteCount as real) / BYTES_PER_SECOND;
      if words == [] then AsrResult([], cleanText, language)
      else AsrResult(Segments(words, duration), cleanText, language)
  }

  /** `n` equal shares of `d` add back up to `d`. */
  lemma SharesAddUp(n: nat, d: real)
    requires n > 0
    ensures (n as real) * (d / (n as real)) == d
  {
  }

  /** One more share is one share longer. */
  lemma NextShare(i: nat, p: real)
    ensures ((i + 1) as real) * p - (i as real) * p == p
  {
  }

  /** The segments of `words` tile `[0, duration]` in equal shares. */
  lemma {:induction false} SegmentsTileClip(words: seq<string>, duration: real)
    requires words != []
    ensures var segs := Segments(words, duration);
      var n := |segs|;
      && segs[0].start == 0.0 && segs[n - 1].end == duration
      && (forall i :: 0 <= i < n - 1 ==> segs[i].end == segs[i + 1].start)
      && (forall i :: 0 <= i < n ==> segs[i].end - segs[i].start == duration / (n as real))
  {
    var segs := Segments(words, duration);
    var n := |segs|;
    var p := duration / (n as real);
    assert segs[n - 1].end == (n as real) * p;
    SharesAddUp(n, duration);
    forall i | 0 <= i < n
      ensures segs[i].end - segs[i].start == p
    {
      NextShare(i, p);
    }
  }

  /** The segments of a transcription tile the clip: the first starts at 0,
      the last ends at the clip's duration, each ends where the next starts,
      and all have the same length. */
  lemma SegmentsTile(outcome: Outcome, byteCount: nat)
    requires outcome.Analysed?
    ensures var r := Transcribe(outcome, byteCount);
      var d := (byteCount as real) / BYTES_PER_SECOND;
      var n := |r.segments|;
      && (n > 0 ==> r.segments[0].start == 0.0 && r.segments[n - 1].end == d)
      && (forall i :: 0 <= i < n - 1 ==> r.segments[i].end == r.segments[i + 1].start)
      && (forall i :: 0 <= i < n ==> r.segments[i].end - r.segments[i].start == d / (n as real))
  {
    var r := Transcribe(outcome, byteCount);
    var d := (byteCount as real) / BYTES_PER_SECOND;
    var words := Words(r.fullText);
    if words != [] {
      assert r.segments == Segments(words, d);
      SegmentsTileClip(words, d);
    }
  }

  /** Clean text without words gives no segments but keeps the text. */
  lemma NoWordsNoSegments(a: Analysis, byteCount: nat)
    requires Words(TextAndLanguage(a).0) == []
    ensures Transcribe(Analysed(a), byteCount) == AsrResult([], TextAndLanguage(a).0, TextAndLanguage(a).1)
  {
  }

  /** With a raw tagged text, the transcript is that text with its markers
      removed and stripped, and the language comes from its language marker. */
  lemma RawTextWins(a: Analysis, byteCount: nat)
    requires a.rawText.Some? && a.rawText.value != ""
    ensures var r := Transcribe(Analysed(a), byteCount);
      && r.fullText == Strip(SenseVoiceTags.RemoveTags(a.rawText.value))
      && r.language == SenseVoiceTags.LanguageSpec(SenseVoiceTags.FindAll(a.rawText.value))
  {
  }

  // ---------------------------------------------------------------------------
  // `split()` and the ASCII separators

  /** Leading white space does not change `split()`. */
  lemma WordsSkipSpace(t: string)
    requires t != [] && IsSpace(t[0])
    ensures Words(t) == Words(t[1..])
  {
    assert StripLeft(t) == StripLeft(t[1..]);
  }

  /** A non-space first character followed by white space is a word of its own. */
  lemma WordsOneChar(t: string)
    requires t != [] && !IsSpace(t[0]) && (|t| == 1 || IsSpace(t[1]))
    ensures Words(t) == [t[..1]] + Words(t[1..])
  {
    assert StripLeft(t) == t;
    assert WordLength(t) == 1 by {
      assert WordLength(t[1..]) == 0;
    }
  }

  /** One white-space character, then a one-character word. */
  lemma SpaceThenWord(t: string)
    requires |t| == 2 && IsSpace(t[0]) && !IsSpace(t[1])
    ensures Words(t) == [t[1..]]
  {
    WordsSkipSpace(t);
    var u := t[1..];
    WordsOneChar(u);
    assert u[..1] == u && u[1..] == [];
    assert Words(u[1..]) == [];
  }

  /** The separators 0x1C-0x1F split words as `str.split()` does:
      `"a\x1cb".split()` is `["a", "b"]`. */
  lemma SeparatorSplitsWords(t: string)
    requires |t| == 3 && !IsSpace(t[0]) && !IsSpace(t[2])
    requires t[1] == '\U{001C}' || t[1] == '\U{001D}' || t[1] == '\U{001E}' || t[1] == '\U{001F}'
    ensures Words(t) == [t[..1], t[2..]]
  {
    assert IsSpace(t[1]);
    WordsOneChar(t);
    SpaceThenWord(t[1..]);
    assert t[1..][1..] == t[2..];
  }
}
