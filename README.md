# therapist-bot: emotion fusion, alignment and prompt rules in Dafny

This project models the emotion and text layer of the therapist-bot backend, a
voice-and-video companion that listens to a user, estimates their emotional
state and answers through a language model and a speech synthesiser. The
parts modelled are:

- **Emotion fusion** (`emotion_fusion.py`). A class keeps a bounded window
  of audio readings and one of video readings. It decays each reading by its
  age, aggregates each window into a score distribution over the seven
  emotions, and fuses the two windows with weights 0.6/0.4. It also flags
  incongruence between voice and face.
- **Word alignment** (`emotion_aligner.py`). This gives each recognised word
  the aggregate of the emotion frames inside its time interval. It then
  renders the words as `<emotion>…</emotion>` runs.
- **SenseVoice tag parsing** (`audio_analyzer.py`). This parses the
  recogniser's inline `<|…|>` markers into an emotion, an event list, a
  language and the clean text.
- **Speech recognition** (`asr_engine.py`). This picks the transcript and
  language and spreads the clip's duration evenly over the words.
- **Chat prompt** (`chat_engine.py`). This builds the emotion context
  appended to the system prompt and trims the history to the last 20
  messages.
- **Speech synthesis** (`tts_engine.py`). This covers the emotion prefix
  placed before the text, the list of voice presets, and how a requested
  voice is resolved to a preset file.
- **Session registry** (`main.py`). This finds a session or creates one.

Modules, one per file: `Text` (ASCII lower-casing, strip, split, join, a
lexicographic order), `Labels` (the emotion list and Python's first-maximum
rule), `Fusion`, `Aligner`, `SenseVoiceTags`, `Asr`, `ChatPrompt`,
`TtsRules` and `Sessions`. Code that changes state step by step is modelled
as methods, each proved equal to a specification function:

- `EmotionFusion` is a class with two window fields.
- `SessionStore` is a class holding the session map.
- The aggregation, alignment, tag-parsing, formatting, context-building and
  voice-collecting loops are methods with loop invariants.

The properties are proved as lemmas about those functions.

Outside inputs the code reads itself are parameters:

- the clock reading (`now`);
- the fresh session id a uuid would give (`freshId`);
- the rendering of a confidence as a percentage (`pct`);
- the decay curve `0.5 ** (age / 10)`. This is any function obeying
  `DecayLaw`: 1 at age 0, positive, at most 1 for non-negative ages, and
  halving every 10 seconds. `HalvingInterpolation` is a concrete function
  proved to obey it.
- the directory walk of the voices directory (`None` when it is not a
  directory, otherwise every file path in walk order).

## Model

| member | source | states |
|---|---|---|
| Labels.NormalizeLabel | backend/emotion_fusion.py:64-66 | the label is always one of the seven emotions; it is the lower-cased input when that is an emotion and "neutral" otherwise |
| Labels.NormalizeIdempotent | backend/emotion_fusion.py:64-66 | normalising a normalised label changes nothing |
| Labels.Dominant | backend/emotion_fusion.py:96 | `max(scores, key=scores.get)` returns an emotion whose score is at least every other score |
| Labels.FirstMaxIndex | backend/emotion_fusion.py:150 | the index chosen has a maximal score and every earlier label scores strictly less (ties go to the earliest label) |
| Labels.DominantOfUniform | backend/emotion_fusion.py:96 | when all seven scores are equal, "happy" (the first label) is dominant |
| Fusion.HalvingInterpolationObeysDecayLaw | backend/emotion_fusion.py:26 | a concrete decay curve exists that is 1 at age 0, positive, at most 1, and halves every 10-second half-life |
| Fusion.Clamp01 | backend/emotion_fusion.py:37 | the confidence is clamped into [0, 1] and left unchanged when it is already inside |
| Fusion.NewReading | backend/emotion_fusion.py:35-39 | a new reading keeps the emotion and source, clamps the confidence and is stamped with the current clock |
| Fusion.DecayedConfidenceBounds | backend/emotion_fusion.py:41-46 | at age 0 the decayed confidence is the confidence; at any later age it lies between 0 and the confidence |
| Fusion.DecayedConfidenceHalves | backend/emotion_fusion.py:45-46 | a reading 10 seconds older has half the decayed confidence |
| Fusion.PushIsLastN | backend/emotion_fusion.py:59-60 | appending to a window of maximum length n keeps exactly the last n readings |
| Fusion.PushAllKeepsMostRecent | backend/emotion_fusion.py:59-60 | after any sequence of appends the window holds the most recent min(n, count) readings, in arrival order |
| Fusion.AggregateModality | backend/emotion_fusion.py:76-101 | the loop over the readings computes the aggregate specification |
| Fusion.AggregateOfEmpty | backend/emotion_fusion.py:81-82 | an empty window aggregates to neutral, confidence 0, no scores |
| Fusion.AggregateIsDistribution | backend/emotion_fusion.py:85-101 | with positive total weight the scores are keyed by the seven emotions, lie in [0, 1] and sum to 1; the reported emotion is maximal and its score is the confidence |
| Fusion.AggregateOfWeightless | backend/emotion_fusion.py:93-96 | when every reading has zero weight the scores stay 0 and "happy" is reported with confidence 0 |
| Fusion.AggregateScoreSum | backend/emotion_fusion.py:81-101 | the aggregate's scores sum to 1 for a window with positive weight and to 0 otherwise |
| Fusion.AggregateScoresInUnit | backend/emotion_fusion.py:85-99 | every aggregate score and the aggregate confidence lie in [0, 1] |
| Fusion.ModalityWeights | backend/emotion_fusion.py:137-142 | the two modality weights are non-negative and sum to 1 |
| Fusion.FusedOfNothing | backend/emotion_fusion.py:127-135 | with both windows empty the result is neutral, confidence 0, all-zero fused scores, no incongruence |
| Fusion.FusedIsWeightedSum | backend/emotion_fusion.py:137-151 | each fused score is the weighted sum of the modality scores (0.6/0.4, or all weight to the only filled window); the dominant is the first label with maximal fused score and the confidence is that score |
| Fusion.FusedScoresInUnit | backend/emotion_fusion.py:144-151 | fused scores and confidence lie in [0, 1] and the fused scores sum to at most 1 |
| Fusion.IncongruenceCharacterised | backend/emotion_fusion.py:154-160 | incongruence holds iff both modality emotions are non-neutral and different and both confidences exceed 0.3; it implies both windows hold readings |
| Fusion.WeighScores | backend/emotion_fusion.py:144-148 | the loop over the emotions computes the per-label weighted sum |
| Fusion.EmotionFusion.constructor | backend/emotion_fusion.py:57-60 | both windows start empty and the window size is kept |
| Fusion.EmotionFusion.UpdateAudio | backend/emotion_fusion.py:62-67 | the audio window becomes the bounded append of a reading with the normalised label; the video window is unchanged and the window invariant is kept |
| Fusion.EmotionFusion.UpdateVideo | backend/emotion_fusion.py:69-74 | the video window becomes the bounded append of a reading with the normalised label; the audio window is unchanged |
| Fusion.EmotionFusion.Reset | backend/emotion_fusion.py:177-180 | both windows are cleared |
| Fusion.EmotionFusion.GetFusedEmotion | backend/emotion_fusion.py:103-175 | the result is the fused specification of the two current windows, and the state is unchanged |
| Aligner.NormalizeEmotion | backend/emotion_aligner.py:25-29 | a missing label is neutral; otherwise the lower-cased label if it is an emotion, else neutral |
| Aligner.NormalizeEmotionAgrees | backend/emotion_aligner.py:25-29 | the aligner's normalisation agrees with the fusion's and is idempotent |
| Aligner.AggregateFramesSpec | backend/emotion_aligner.py:32-71 | the emotion is always one of the seven; no frames or non-positive total weight gives neutral, 0, no scores |
| Aligner.AggregateFramesScores | backend/emotion_aligner.py:37-64 | with positive total weight each emotion's score is its accumulated weight divided by the total weight |
| Aligner.AggregateFramesDominant | backend/emotion_aligner.py:65-71 | when some score is positive the first maximal label is reported with its score; when none is, neutral with confidence 0 |
| Aligner.AggregateFramesIsDistribution | backend/emotion_aligner.py:40-64 | when every frame is labelled or carries score dicts summing to 1, the scores sum to 1 |
| Aligner.AddFrameScores | backend/emotion_aligner.py:48-49 | the inner loop adds a frame's weighted score dict to the running scores |
| Aligner.AggregateFrames | backend/emotion_aligner.py:32-71 | the loop over the frames computes the aggregate specification |
| Aligner.InRange | backend/emotion_aligner.py:74-82 | the frames kept are exactly those with a numeric timestamp in [start, end) |
| Aligner.AlignIgnoresOutOfRange | backend/emotion_aligner.py:114-117 | a frame outside a word's interval never changes that word's result |
| Aligner.EmptyIntervalIsNeutral | backend/emotion_aligner.py:74-82 | a word with end <= start matches no frame and is neutral, 0, no scores |
| Aligner.AlignEmotions | backend/emotion_aligner.py:85-129 | one result per segment in order, with the segment's word, start and end (0.0 and start as fallbacks) and the aggregate of its frames |
| Aligner.RunsWellFormed | backend/emotion_aligner.py:137-151 | runs are non-empty, adjacent runs differ in emotion, there are runs iff there are words, and the last run has the last word's emotion |
| Aligner.RunsExpand | backend/emotion_aligner.py:137-151 | reading the runs back gives every word with its emotion in the original order |
| Aligner.FormatTaggedText | backend/emotion_aligner.py:132-152 | the loop renders the maximal same-emotion runs joined by spaces; no words give "" |
| SenseVoiceTags.ScanRoundTrip | backend/audio_analyzer.py:45 | splitting the raw text into plain characters and `<|name|>` markers loses nothing |
| SenseVoiceTags.NoMarkersNoChange | backend/audio_analyzer.py:60-73 | text without `<|` has no markers and removal leaves it unchanged |
| SenseVoiceTags.RemovalIsSinglePass | backend/audio_analyzer.py:73 | marker removal is one left-to-right pass, so removing a marker can expose a new one that stays |
| SenseVoiceTags.ParseSenseVoiceTags | backend/audio_analyzer.py:48-81 | the loop over the markers computes the parse specification |
| SenseVoiceTags.NoRecognisedTags | backend/audio_analyzer.py:55-57 | without a recognised marker the result is neutral, no events, unknown language |
| SenseVoiceTags.EmotionLastWins | backend/audio_analyzer.py:62-65 | the last emotion marker decides the emotion |
| SenseVoiceTags.EmotionIsALabel | backend/audio_analyzer.py:22-31 | the emotion is always a value of the emotion table |
| SenseVoiceTags.UnknownEmotionMarker | backend/audio_analyzer.py:30 | a final `<|EMO_UNKNOWN|>` gives "unknown" |
| SenseVoiceTags.EventsAppend | backend/audio_analyzer.py:66-67 | events are reported in order of appearance, repeats kept |
| SenseVoiceTags.RepeatedEventKept | backend/audio_analyzer.py:66-67 | a repeated event marker is reported twice |
| SenseVoiceTags.LanguageIsACode | backend/audio_analyzer.py:68-69 | the language is "unknown" or one of en, zh, ja, ko, yue |
| SenseVoiceTags.FormattingFlagIgnored | backend/audio_analyzer.py:70 | a `woitn` flag changes neither emotion, events nor language |
| SenseVoiceTags.MarkersThenText | backend/audio_analyzer.py:60-73 | markers followed by text without `<` are found in order and removal leaves exactly the text |
| SenseVoiceTags.TypicalOutput | backend/audio_analyzer.py:49-51 | `<|en|><|NEUTRAL|><|Speech|><|woitn|>` + words parses to neutral, [speech], en and the stripped words |
| SenseVoiceTags.CleanTextOfPlainText | backend/audio_analyzer.py:73-81 | untagged text gives the defaults, the stripped text as clean text, and the raw text as given |
| Asr.Transcribe | backend/asr_engine.py:64-98 | no analyzer or a raised analysis gives no segments, "" and "unknown"; otherwise the text and language come from the tags or the result fields, with one segment per word |
| Asr.SegmentsTile | backend/asr_engine.py:79-92 | the segments tile the clip: the first starts at 0, the last ends at bytes / 32000, each ends where the next starts, all have equal length |
| Asr.RawTextWins | backend/asr_engine.py:70-74 | with a non-empty raw text the transcript is its tag-free stripped text and the language comes from its markers |
| Asr.NoWordsNoSegments | backend/asr_engine.py:81-82 | a transcript without words gives no segments but keeps the text and language |
| Asr.SeparatorSplitsWords | backend/asr_engine.py:79 | `split()` also breaks words at the ASCII separators 0x1C-0x1F, as Python counts them as white space |
| ChatPrompt.AdviceFor | backend/chat_engine.py:97-110 | guidance is given exactly for sad, fearful, angry, happy and surprised |
| ChatPrompt.BuildEmotionContext | backend/chat_engine.py:61-112 | the step-by-step assembly of the parts equals the context specification |
| ChatPrompt.ContextOpensWithHeader | backend/chat_engine.py:63-74 | a missing or empty state gives ""; otherwise the context opens with the header and the dominant line (defaults "neutral", 0.0) and has 2 to 6 lines |
| ChatPrompt.VoiceLineIff | backend/chat_engine.py:76-77 | a voice-tone line appears, once, iff the audio emotion is present, non-empty and not neutral |
| ChatPrompt.FacialLineIff | backend/chat_engine.py:79-80 | a facial-expression line appears, once, iff the video emotion is present, non-empty and not neutral |
| ChatPrompt.IncongruenceLineIff | backend/chat_engine.py:83-94 | an incongruence line appears, once, iff both emotions are shown and differ |
| ChatPrompt.AtMostOneGuidance | backend/chat_engine.py:97-110 | at most one guidance line, present iff the dominant is one of the five, and which advice each gets |
| ChatPrompt.BuildMessages | backend/chat_engine.py:123-137 | the system message (base prompt + context) comes first, then the last min(20, n) messages in order; short histories are kept whole |
| TtsRules.ConditionText | backend/tts_engine.py:127-137 | the result ends with the text; a known emotion's prefix precedes it, an unknown one adds nothing |
| TtsRules.NoEmotionNoPrefix | backend/tts_engine.py:132-136 | a missing or empty emotion counts as neutral, whose prefix is empty |
| TtsRules.SupportedEmotionsArePrefixed | backend/tts_engine.py:90-98 | every supported emotion, in any letter case, gets its entry of the prefix table before the text |
| TtsRules.VoiceNameDropsExtension | backend/tts_engine.py:86 | a voice file's name is its lower-cased base name without the `.pt` extension |
| TtsRules.CollectVoicePaths | backend/tts_engine.py:80-84 | the walk loop keeps exactly the `.pt` files (case-insensitive), in walk order |
| TtsRules.VoiceMapLastWins | backend/tts_engine.py:111-114 | when two files share a name, the name maps to the later one |
| TtsRules.SortedNames | backend/tts_engine.py:85-87 | sorting keeps exactly the names and orders them strictly increasing |
| TtsRules.GetAvailableVoices | backend/tts_engine.py:77-88 | the method computes the available voices; a missing directory gives none |
| TtsRules.AvailableVoicesAreTheNames | backend/tts_engine.py:77-88 | the voices are exactly the names of the voice files, strictly increasing and without repeats |
| TtsRules.RelatedNames | backend/tts_engine.py:118-122 | the partial matches are exactly the names containing or contained in the request |
| TtsRules.ResolveVoicePath | backend/tts_engine.py:100-125 | the method computes the resolution specification |
| TtsRules.ResolvesToAVoiceFile | backend/tts_engine.py:101-110 | there is a result iff the directory holds a voice file, and the result is always one of them |
| TtsRules.ExactMatchWins | backend/tts_engine.py:115-116 | a request equal to a voice name returns a file with that name |
| TtsRules.UniquePartialMatchWins | backend/tts_engine.py:117-124 | failing that, a single partial match is returned |
| TtsRules.FallbackIsSmallestName | backend/tts_engine.py:125 | otherwise the file whose name is smallest in sort order is returned |
| Sessions.GetOrCreateSpec | backend/main.py:53-62 | the id returned is in the registry; an existing named session is left as it is; otherwise a new empty session is stored under the named or fresh id and nothing else changes |
| Sessions.GetOrCreateIdempotent | backend/main.py:53-55 | asking again for the returned id finds it and changes nothing |
| Sessions.RegistryGrowsByAtMostOne | backend/main.py:53-62 | the registry never loses an entry and gains at most the returned one |
| Sessions.SessionStore.constructor | backend/main.py:50 | the registry starts empty |
| Sessions.SessionStore.GetOrCreate | backend/main.py:53-62 | the new registry and the id returned are those of the specification, so the id is always in the registry |

## Left out

- Floating point. Scores, weights and times are exact reals, so rounding in
  the divisions and sums is not modelled.
- `0.5 ** (age / 10)` is not computed. The decay is a parameter constrained
  by `DecayLaw`. A reading from the future (negative age) is allowed by the
  code, but the model states no bound for it.
- `time.time()`, `datetime.now().isoformat()` and `uuid.uuid4()` are
  parameters. `now or time.time()` is modelled: a zero `now` falls back to
  the clock. `get_fused_emotion` reads the clock once in each
  `_aggregate_modality` call, so the audio and video windows are decayed
  at two slightly different instants; the model decays both at one clock
  reading.
- `{confidence:.0%}` formatting is a parameter `pct: real -> string`.
- Lower-casing and white space are ASCII only. White space covers the ASCII
  characters Python counts (space, `\t`, `\n`, `\v`, `\f`, `\r` and
  0x1C-0x1F); the non-ASCII ones (`\x85`, `\xa0`, the Unicode spaces and
  separators) are not. Python's `str.lower` handles all of Unicode.
- `_get_attr` is not modelled as such. Frames and segments are records
  whose missing attributes are `None`/`Absent`, so object and dict frames
  are not told apart.
- `float()` on a non-number is modelled for segment times (the fallbacks
  0.0 and start) and frame timestamps (out of range). A frame confidence or
  a score value that `float()` rejects would raise; the model takes them
  as numbers. `str(word)` of a non-string word is not modelled.
- The SenseVoice model, temporary files and the fallback analyzer are left
  out. The analyzer's result dict is an input (`Outcome`), and an exception
  anywhere in the analysis is the `Raised` case.
- `os.walk` and `os.path.isdir` become the listing parameter (`None` or the
  walk's file paths). `os.path.join` is taken as already applied to the
  paths. Base names split at `/` only.
- String sorting is by code point (`LexLess`), as Python's `sorted` on
  `str` does.
- Only `get_or_create_session` is modelled from the server. The module
  global `sessions` is a `SessionStore` object. What the request handlers
  later put into `messages` and `emotion_history`, and concurrent requests,
  are left out.
- ChatPrompt.BuildMessages: the message dicts are values. The history list
  `messages` is sliced, not modified, as in the code. The async chat calls
  to the language model are left out.
- The emotion fusion's logging and the incongruence log line are left out.
- Four behaviours of the code are modelled as written:
  - Unknown labels are coerced to "neutral" before aggregation.
  - Incongruence needs both confidences above 0.3 and both emotions
    non-neutral.
  - A window without readings gives all the weight to the other modality.
  - Uniformly weightless readings report "happy", the first label.
- Sessions.SessionStore.GetOrCreate: a fresh uuid that already names a
  session replaces that session. The code does this as written, and the
  model states it rather than assuming uuids are unique.
