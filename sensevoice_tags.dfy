/** The SenseVoice tag parser: raw recogniser output carries inline markers
    `<|NAME|>` naming the language, the speech emotion, audio events and
    formatting flags, followed by the transcription. The parser classifies the
    markers and removes them. */
module SenseVoiceTags {
  import opened Text

  /** Emotion markers and the label each stands for. */
  const EMOTION_TAGS: map<string, string> := map[
    "<|HAPPY|>" := "happy",
    "<|SAD|>" := "sad",
    "<|ANGRY|>" := "angry",
    "<|NEUTRAL|>" := "neutral",
    "<|FEARFUL|>" := "fearful",
    "<|DISGUSTED|>" := "disgusted",
    "<|SURPRISED|>" := "surprised",
    "<|EMO_UNKNOWN|>" := "unknown"]

  /** Audio-event markers and the event each stands for. */
  const EVENT_TAGS: map<string, string> := map[
    "<|Speech|>" := "speech",
    "<|BGM|>" := "bgm",
    "<|Applause|>" := "applause",
    "<|Laughter|>" := "laughter",
    "<|Cry|>" := "cry",
    "<|Sneeze|>" := "sneeze",
    "<|Breath|>" := "breath",
    "<|Cough|>" := "cough",
    "<|Event_UNK|>" := "unknown_event"]

  /** Marker names taken as the language. */
  const LANGUAGES: seq<string> := ["en", "zh", "ja", "ko", "yue"]

  // ---------------------------------------------------------------------------
  // The pattern `<\|([^|]+)\|>`

  /** A scanned piece of the raw text: a character outside every marker, or the
      name inside one marker. */
  datatype Piece = Plain(c: char) | Tag(name: string)

  /** Length of the leading run of characters other than `|`. */
  function BarFree(t: string): (n: nat)
    ensures n <= |t|
    ensures forall k :: 0 <= k < n ==> t[k] != '|'
    ensures n == |t| || t[n] == '|'
  {
    if t == [] || t[0] == '|' then 0 else 1 + BarFree(t[1..])
  }

  /** The length of the name of the marker that starts `s`, if one does: `<|`,
      then one or more characters other than `|`, then `|>`. The run of
      characters other than `|` can only end at the first `|`, so there is at
      most one candidate. */
  function MatchAt(s: string): (r: Option<nat>)
    ensures r.Some? ==>
      && 1 <= r.value && 4 + r.value <= |s|
      && s[..2] == "<|" && s[2 + r.value..4 + r.value] == "|>"
      && forall k :: 2 <= k < 2 + r.value ==> s[k] != '|'
  {
    if |s| >= 2 && s[0] == '<' && s[1] == '|' then
      var n := BarFree(s[2..]);
      if n >= 1 && 3 + n < |s| && s[3 + n] == '>' then Some(n) else None
    else None
  }

  /** Left-to-right scan for non-overlapping markers, as `findall` and `sub`
      perform it: a marker is taken where one starts, and otherwise the scan
      moves on by one character. */
  function Scan(s: string): (ps: seq<Piece>)
    ensures forall i :: 0 <= i < |ps| && ps[i].Tag? ==> ps[i].name != [] && '|' !in ps[i].name
    decreases |s|
  {
    if s == [] then []
    else
      match MatchAt(s)
      case Some(n) => [Tag(s[2..2 + n])] + Scan(s[4 + n..])
      case None => [Plain(s[0])] + Scan(s[1..])
  }

  /** The text a scan was read from. */
  function Unscan(ps: seq<Piece>): string {
    if ps == [] then ""
    else
      match ps[0]
      case Plain(c) => [c] + Unscan(ps[1..])
      case Tag(name) => "<|" + name + "|>" + Unscan(ps[1..])
  }

  /** Scanning loses nothing: the pieces spell out the raw text again. */
  lemma {:induction false} ScanRoundTrip(s: string)
    ensures Unscan(Scan(s)) == s
    decreases |s|
  {
    if s != [] {
      match MatchAt(s)
      case Some(n) =>
        ScanRoundTrip(s[4 + n..]);
        MarkerSplit(s, n);
      case None =>
        UnscanCons(Plain(s[0]), Scan(s[1..]));
        ScanRoundTrip(s[1..]);
        assert s == [s[0]] + s[1..];
    }
  }

  /** A marker found at the front of `s`, put back in front of the text after
      it, gives `s` again. */
  lemma MarkerSplit(s: string, n: nat)
    requires MatchAt(s) == Some(n)
    requires Unscan(Scan(s[4 + n..])) == s[4 + n..]
    ensures Unscan(Scan(s)) == s
  {
    var name, rest := s[2..2 + n], s[4 + n..];
    assert Scan(s) == [Tag(name)] + Scan(rest);
    UnscanCons(Tag(name), Scan(rest));
    assert s == s[..2] + name + s[2 + n..4 + n] + rest;
  }

  /** Unscanning a piece in front of others puts its text in front. */
  lemma UnscanCons(p: Piece, ps: seq<Piece>)
    ensures Unscan([p] + ps) == (match p case Plain(c) => [c] case Tag(name) => "<|" + name + "|>") + Unscan(ps)
  {
    assert ([p] + ps)[0] == p && ([p] + ps)[1..] == ps;
  }

  /** `TAG_REGEX.findall(s)`: the marker names in order. */
  function Names(ps: seq<Piece>): seq<string> {
    if ps == [] then []
    else (if ps[0].Tag? then [ps[0].name] else []) + Names(ps[1..])
  }

  /** `TAG_REGEX.sub("", s)`: the characters outside the markers. */
  function Plains(ps: seq<Piece>): string {
    if ps == [] then ""
    else (if ps[0].Plain? then [ps[0].c] else "") + Plains(ps[1..])
  }

  function FindAll(s: string): seq<string> {
    Names(Scan(s))
  }

  function RemoveTags(s: string): string {
    Plains(Scan(s))
  }

  /** Text without `<|` has no markers and loses nothing. */
  lemma {:induction false} NoMarkersNoChange(s: string)
    requires forall k :: 0 <= k < |s| - 1 ==> !(s[k] == '<' && s[k + 1] == '|')
    ensures FindAll(s) == [] && RemoveTags(s) == s
    decreases |s|
  {
    if s != [] {
      assert MatchAt(s).None? by {
        if |s| >= 2 {
          assert !(s[0] == '<' && s[1] == '|');
        }
      }
      NoMarkersNoChange(s[1..]);
      assert s == [s[0]] + s[1..];
    }
  }

  /** A well-formed marker at the front of a text is found and removed whole. */
  lemma ScanMarkerPrefix(name: string, rest: string)
    requires name != [] && '|' !in name
    ensures FindAll("<|" + name + "|>" + rest) == [name] + FindAll(rest)
    ensures RemoveTags("<|" + name + "|>" + rest) == RemoveTags(rest)
  {
    var s := "<|" + name + "|>" + rest;
    var t := s[2..];
    assert t == name + "|>" + rest;
    var n := BarFree(t);
    assert forall k :: 0 <= k < |name| ==> t[k] == name[k] && name[k] in name;
    assert t[|name|] == '|';
    assert n == |name|;
    assert MatchAt(s) == Some(|name|);
    assert s[2..2 + |name|] == name && s[4 + |name|..] == rest;
    var ps := [Tag(name)] + Scan(rest);
    assert ps[0] == Tag(name) && ps[1..] == Scan(rest);
  }

  /** A text with no `<` holds no markers and is kept whole. */
  lemma PlainText(s: string)
    requires '<' !in s
    ensures FindAll(s) == [] && RemoveTags(s) == s
  {
    ScanWithoutMarkerStart(s);
  }

  /** A `<` that does not open a marker is kept, and the marker after it is
      removed. */
  lemma StrayThenMarker(x: string, rest: string)
    requires x != [] && '|' !in x && '<' !in rest
    ensures FindAll("<" + ("<|" + x + "|>") + rest) == [x]
    ensures RemoveTags("<" + ("<|" + x + "|>") + rest) == "<" + rest
  {
    var s := "<" + ("<|" + x + "|>") + rest;
    assert s[1..] == "<|" + x + "|>" + rest;
    assert MatchAt(s).None? by {
      assert s[1] == '<';
    }
    ScanPlainStep(s);
    ScanMarkerPrefix(x, rest);
    PlainText(rest);
  }

  /** Removal is a single pass: in `<<|x|>|y|>` only `<|x|>` is a marker, and
      removing it joins the rest into the marker `<|y|>`, which the clean text
      keeps. */
  lemma RemovalIsSinglePass(x: string, y: string)
    requires x != [] && '|' !in x
    requires y != [] && '|' !in y && '<' !in y
    ensures FindAll("<" + ("<|" + x + "|>") + ("|" + y + "|>")) == [x]
    ensures RemoveTags("<" + ("<|" + x + "|>") + ("|" + y + "|>")) == "<|" + y + "|>"
    ensures FindAll("<|" + y + "|>") == [y]
  {
    var rest := "|" + y + "|>";
    assert '<' !in rest by {
      assert forall k :: 0 <= k < |rest| ==> rest[k] == '|' || rest[k] == '>' || rest[k] in y;
    }
    StrayThenMarker(x, rest);
    assert "<" + rest == "<|" + y + "|>";
    ScanMarkerPrefix(y, "");
    assert "<|" + y + "|>" + "" == "<|" + y + "|>";
    PlainText("");
  }

  /** Where no marker starts, the first character is kept and the scan moves on. */
  lemma ScanPlainStep(s: string)
    requires s != [] && MatchAt(s).None?
    ensures FindAll(s) == FindAll(s[1..])
    ensures RemoveTags(s) == [s[0]] + RemoveTags(s[1..])
  {
    var ps := [Plain(s[0])] + Scan(s[1..]);
    assert Scan(s) == ps;
    assert ps[0] == Plain(s[0]) && ps[1..] == Scan(s[1..]);
  }

  /** A text with no `<` scans to its characters. */
  lemma {:induction false} ScanWithoutMarkerStart(s: string)
    requires '<' !in s
    ensures Names(Scan(s)) == [] && Plains(Scan(s)) == s
    decreases |s|
  {
    if s != [] {
      assert s[0] != '<';
      assert s[1..] == s[1..] && forall c :: c in s[1..] ==> c in s;
      ScanWithoutMarkerStart(s[1..]);
      assert s == [s[0]] + s[1..];
    }
  }

  // ---------------------------------------------------------------------------
  // Classifying marker names

  /** `f"<|{tag}|>"`. */
  function Full(tag: string): string {
    "<|" + tag + "|>"
  }

  predicate IsEmotionTag(tag: string) {
    Full(tag) in EMOTION_TAGS
  }

  predicate IsEventTag(tag: string) {
    !IsEmotionTag(tag) && Full(tag) in EVENT_TAGS
  }

  predicate IsLanguageTag(tag: string) {
    !IsEmotionTag(tag) && !IsEventTag(tag) && tag in LANGUAGES
  }

  /** The emotion after the markers `tags`: the label of the last emotion marker,
      "neutral" when there is none. */
  function EmotionSpec(tags: seq<string>): string {
    if tags == [] then "neutral"
    else
      var t := tags[|tags| - 1];
      if IsEmotionTag(t) then EMOTION_TAGS[Full(t)] else EmotionSpec(tags[..|tags| - 1])
  }

  /** The events of the markers `tags`, in order, repeats kept. */
  function EventsSpec(tags: seq<string>): seq<string> {
    if tags == [] then []
    else
      var t := tags[|tags| - 1];
      EventsSpec(tags[..|tags| - 1]) + (if IsEventTag(t) then [EVENT_TAGS[Full(t)]] else [])
  }

  /** The language after the markers `tags`: the last language marker,
      "unknown" when there is none. */
  function LanguageSpec(tags: seq<string>): string {
    if tags == [] then "unknown"
    else
      var t := tags[|tags| - 1];
      if IsLanguageTag(t) then t else LanguageSpec(tags[..|tags| - 1])
  }

  /** The dict `parse_sensevoice_tags` returns. */
  datatype Parsed = Parsed(emotion: string, events: seq<string>, language: string, cleanText: string, rawText: string)

  /** What `parse_sensevoice_tags` returns for `raw`. */
  function ParseSpec(raw: string): (p: Parsed)
    ensures p.rawText == raw
  {
    var tags := FindAll(raw);
    Parsed(EmotionSpec(tags), EventsSpec(tags), LanguageSpec(tags), Strip(RemoveTags(raw)), raw)
  }

  /** `parse_sensevoice_tags`. */
  method ParseSenseVoiceTags(rawText: string) returns (p: Parsed)
    ensures p == ParseSpec(rawText)
  {
    var emotion := "neutral";
    var events: seq<string> := [];
    var language := "unknown";
    var tags := FindAll(rawText);
    var i := 0;
    while i < |tags|
      invariant 0 <= i <= |tags|
      invariant emotion == EmotionSpec(tags[..i])
      invariant events == EventsSpec(tags[..i])
      invariant language == LanguageSpec(tags[..i])
    {
      var tag := tags[i];
      var fullTag := "<|" + tag + "|>";
      assert tags[..i + 1][..i] == tags[..i] && tags[..i + 1][i] == tag;
      if fullTag in EMOTION_TAGS {
        emotion := EMOTION_TAGS[fullTag];
      } else if fullTag in EVENT_TAGS {
        events := events + [EVENT_TAGS[fullTag]];
      } else if tag in ["en", "zh", "ja", "ko", "yue"] {
        language := tag;
      }
      i := i + 1;
    }
    assert tags[..i] == tags;
    var cleanText := Strip(RemoveTags(rawText));
    p := Parsed(emotion, events, language, cleanText, rawText);
  }

  // ---------------------------------------------------------------------------
  // Properties

  /** Without a recognised marker the result is neutral, no events, unknown language. */
  lemma {:induction false} NoRecognisedTags(tags: seq<string>)
    requires forall i :: 0 <= i < |tags| ==> !IsEmotionTag(tags[i]) && !IsEventTag(tags[i]) && !IsLanguageTag(tags[i])
    ensures EmotionSpec(tags) == "neutral" && EventsSpec(tags) == [] && LanguageSpec(tags) == "unknown"
  {
    if tags != [] {
      NoRecognisedTags(tags[..|tags| - 1]);
    }
  }

  /** The last emotion marker decides the emotion. */
  lemma {:induction false} EmotionLastWins(tags: seq<string>, i: nat)
    requires i < |tags| && IsEmotionTag(tags[i])
    requires forall j :: i < j < |tags| ==> !IsEmotionTag(tags[j])
    ensures EmotionSpec(tags) == EMOTION_TAGS[Full(tags[i])]
  {
    if i < |tags| - 1 {
      var init := tags[..|tags| - 1];
      assert init[i] == tags[i];
      EmotionLastWins(init, i);
    }
  }

  /** The emotion is always one of the eight labels of the emotion table, or the
      default "neutral". */
  lemma {:induction false} EmotionIsALabel(tags: seq<string>)
    ensures EmotionSpec(tags) in EMOTION_TAGS.Values
  {
    if tags != [] {
      EmotionIsALabel(tags[..|tags| - 1]);
    }
    assert EMOTION_TAGS["<|NEUTRAL|>"] == "neutral";
  }

  /** `<|EMO_UNKNOWN|>` as the last emotion marker gives "unknown". */
  lemma UnknownEmotionMarker(tags: seq<string>)
    ensures EmotionSpec(tags + ["EMO_UNKNOWN"]) == "unknown"
  {
    assert Full("EMO_UNKNOWN") == "<|EMO_UNKNOWN|>";
    assert (tags + ["EMO_UNKNOWN"])[..|tags|] == tags;
  }

  /** Events of consecutive marker lists concatenate: events keep their order of
      appearance and repeats. */
  lemma {:induction false} EventsAppend(a: seq<string>, b: seq<string>)
    ensures EventsSpec(a + b) == EventsSpec(a) + EventsSpec(b)
    decreases |b|
  {
    if b == [] {
      assert a + b == a;
    } else {
      var bi := b[..|b| - 1];
      assert (a + b)[..|a + b| - 1] == a + bi;
      assert (a + b)[|a + b| - 1] == b[|b| - 1];
      EventsAppend(a, bi);
    }
  }

  /** A repeated event marker is reported twice. */
  lemma RepeatedEventKept()
    ensures EventsSpec(["Laughter", "Laughter"]) == ["laughter", "laughter"]
  {
    assert Full("Laughter") == "<|Laughter|>";
    assert !IsEmotionTag("Laughter");
    assert ["Laughter", "Laughter"][..1] == ["Laughter"];
    assert ["Laughter"][..0] == [];
  }

  /** The language is "unknown" or one of the five language codes, and a marker
      outside the tables such as `woitn` leaves it unchanged. */
  lemma {:induction false} LanguageIsACode(tags: seq<string>)
    ensures LanguageSpec(tags) == "unknown" || LanguageSpec(tags) in LANGUAGES
  {
    if tags != [] {
      LanguageIsACode(tags[..|tags| - 1]);
    }
  }

  lemma FormattingFlagIgnored(tags: seq<string>)
    ensures LanguageSpec(tags + ["woitn"]) == LanguageSpec(tags)
    ensures EmotionSpec(tags + ["woitn"]) == EmotionSpec(tags)
    ensures EventsSpec(tags + ["woitn"]) == EventsSpec(tags)
  {
    assert Full("woitn") == "<|woitn|>";
    assert !IsEmotionTag("woitn") && !IsEventTag("woitn") && !IsLanguageTag("woitn");
    assert (tags + ["woitn"])[..|tags|] == tags;
  }

  /** The markers `<|n|>` for the names `names`, one after the other. */
  function Markers(names: seq<string>): string {
    if names == [] then "" else Full(names[0]) + Markers(names[1..])
  }

  /** Well-formed markers ahead of text without `<`: exactly those names are
      found, in order, and the text is what remains. */
  lemma {:induction false} MarkersThenText(names: seq<string>, words: string)
    requires forall i :: 0 <= i < |names| ==> names[i] != [] && '|' !in names[i]
    requires '<' !in words
    ensures FindAll(Markers(names) + words) == names
    ensures RemoveTags(Markers(names) + words) == words
  {
    if names == [] {
      assert Markers(names) + words == words;
      ScanWithoutMarkerStart(words);
    } else {
      var rest := Markers(names[1..]) + words;
      MarkersThenText(names[1..], words);
      assert Markers(names) + words == "<|" + names[0] + "|>" + rest;
      ScanMarkerPrefix(names[0], rest);
      assert names == [names[0]] + names[1..];
    }
  }

  /** The markers of the recogniser's typical output: language, emotion, event
      and a formatting flag. */
  lemma TypicalTags(tags: seq<string>)
    requires tags == ["en", "NEUTRAL", "Speech", "woitn"]
    ensures EmotionSpec(tags) == "neutral" && EventsSpec(tags) == ["speech"] && LanguageSpec(tags) == "en"
  {
    var t3, t2, t1 := tags[..3], tags[..2], tags[..1];
    assert tags[..3][..2] == t2 && t2[..1] == t1 && t1[..0] == [];
    assert Full("woitn") == "<|woitn|>" && Full("Speech") == "<|Speech|>";
    assert Full("NEUTRAL") == "<|NEUTRAL|>" && Full("en") == "<|en|>";
    assert EMOTION_TAGS[Full("NEUTRAL")] == "neutral" && EVENT_TAGS[Full("Speech")] == "speech";
    assert !IsEmotionTag("woitn") && !IsEventTag("woitn") && !IsLanguageTag("woitn");
    assert !IsEmotionTag("Speech") && IsEventTag("Speech");
    assert IsEmotionTag("NEUTRAL");
    assert !IsEmotionTag("en") && !IsEventTag("en") && IsLanguageTag("en");
    assert tags[3] == "woitn" && t3[2] == "Speech" && t2[1] == "NEUTRAL" && t1[0] == "en";
    assert EmotionSpec(t3) == EmotionSpec(t2);
    assert EmotionSpec(tags) == "neutral";
    assert EventsSpec(t2) == EventsSpec(t1) == EventsSpec([]);
    assert EventsSpec(t3) == EventsSpec(t2) + ["speech"];
    assert EventsSpec(tags) == EventsSpec(t3);
    assert LanguageSpec(tags) == LanguageSpec(t3) == LanguageSpec(t2) == LanguageSpec(t1) == "en";
  }

  /** The recogniser's typical output parses into its language, emotion and
      event, with the words as clean text. */
  lemma TypicalOutput(tags: seq<string>, words: string)
    requires tags == ["en", "NEUTRAL", "Speech", "woitn"]
    requires '<' !in words
    ensures ParseSpec(Markers(tags) + words) == Parsed("neutral", ["speech"], "en", Strip(words), Markers(tags) + words)
  {
    forall i | 0 <= i < |tags|
      ensures tags[i] != [] && '|' !in tags[i]
    {
    }
    MarkersThenText(tags, words);
    TypicalTags(tags);
  }

  /** The clean text is the raw text with its markers removed and the white
      space at both ends stripped; the raw text is returned as given. */
  lemma CleanTextOfPlainText(raw: string)
    requires forall k :: 0 <= k < |raw| - 1 ==> !(raw[k] == '<' && raw[k + 1] == '|')
    ensures ParseSpec(raw) == Parsed("neutral", [], "unknown", Strip(raw), raw)
  {
    NoMarkersNoChange(raw);
  }
}
