/** Prompt assembly for the chat model: the emotion-context addendum built from
    the fused emotional state, and the message list (system prompt first, then
    the most recent history). */
module ChatPrompt {
  import opened Text

  /** The fixed therapeutic persona the system message always starts with. */
  const BASE_SYSTEM_PROMPT: string := @"You are a compassionate, professional AI therapeutic companion. Your role is to provide empathetic, evidence-based emotional support through active listening and gentle guidance.

## Your Approach
- **Active Listening**: Reflect back what the user shares. Use phrases like ""It sounds like you're feeling..."" or ""I hear that...""
- **Socratic Questioning**: Help users explore their thoughts with open-ended questions rather than giving direct advice.
- **Cognitive Behavioral Techniques**: When appropriate, help identify thought patterns, cognitive distortions, and reframing opportunities.
- **Validation**: Always validate emotions before exploring solutions. ""It's completely understandable to feel that way.""
- **Non-judgmental**: Never criticize, moralize, or dismiss feelings.

## Emotional Intelligence
You have access to real-time emotion data from the user's voice and facial expressions. Use this information subtly:
- If you detect sadness in their voice/face but they say ""I'm fine"", gently acknowledge: ""I notice there might be more beneath the surface. Would you like to talk about it?""
- Match your energy to the user — don't be overly cheerful when they're distressed.
- If emotions shift during conversation, acknowledge the shift naturally.

## Boundaries (CRITICAL)
- You are an AI companion, NOT a licensed therapist. State this if asked directly.
- NEVER diagnose mental health conditions.
- If the user mentions self-harm, suicidal thoughts, or intent to harm others, IMMEDIATELY:
  1. Express care and concern
  2. Provide crisis resources:
     - International: 988 Suicide & Crisis Lifeline (call/text 988)
     - India: iCall (9152987821), Vandrevala Foundation (1860-2662-345)
     - Crisis Text Line: Text HOME to 741741
  3. Encourage them to reach out to a trusted person or professional
- Do NOT roleplay harmful scenarios or provide medical/psychiatric advice.

## Multilingual Support
Respond in the same language the user communicates in. You support Hindi, English, Japanese, Korean, Chinese, and many more languages naturally.

## Conversation Style
- Keep responses concise (2-4 paragraphs max) unless the user wants more depth.
- Use warm, natural language — not clinical jargon.
- Ask one follow-up question at the end of each response to keep dialogue flowing.
- Remember and reference earlier parts of the conversation to show you're truly listening."

  /** How many history messages at most follow the system message. */
  const HISTORY_LIMIT: nat := 20

  // ---------------------------------------------------------------------------
  // The fused state as the prompt builder sees it

  /** The fields of the fused-emotion dict that the addendum reads: the
      `emotion` of the audio and of the video sub-dict, `dominant` and
      `confidence`; `None` stands for an absent key. The fusion engine never
      stores Python's `None` under these keys, so an absent key is the only
      case of `None` that can arise. A missing or empty dict is the state
      `None` of `EmotionContext`. */
  datatype FusedView = FusedView(audio: Option<string>, video: Option<string>, dominant: Option<string>, confidence: Option<real>)

  /** A modality emotion the addendum mentions: present, non-empty and not neutral. */
  predicate Shown(e: Option<string>) {
    e.Some? && e.value != "" && e.value != "neutral"
  }

  /** Voice and face show two different emotions, neither of them neutral. */
  predicate Clash(audio: Option<string>, video: Option<string>) {
    Shown(audio) && Shown(video) && audio.value != video.value
  }

  // ---------------------------------------------------------------------------
  // The lines of the addendum

  /** The four pieces of guidance, keyed by dominant emotion. */
  datatype Advice = Gentle | Calm | Share | Process

  /** One line of the addendum; `percent` is the confidence rendered as a whole
      percentage. */
  datatype Line =
    | Header
    | DominantLine(dominant: string, percent: string)
    | VoiceTone(voice: string)
    | FacialExpression(face: string)
    | Incongruence(voice: string, face: string)
    | Guidance(advice: Advice)

  function AdviceText(a: Advice): string {
    match a
    case Gentle => "- Approach with extra gentleness and warmth. Prioritize validation."
    case Calm => "- Acknowledge the anger without escalating. Help explore what's underneath."
    case Share => "- Share in their positive energy. Explore what's going well."
    case Process => "- Help them process what surprised them. Check if it's positive or negative surprise."
  }

  /** The text of a line. */
  function Render(l: Line): string {
    match l
    case Header => "\n\n## Current Emotional State (Detected)"
    case DominantLine(d, p) => "- **Dominant emotion**: " + d + " (confidence: " + p + ")"
    case VoiceTone(e) => "- **Voice tone**: " + e
    case FacialExpression(e) => "- **Facial expression**: " + e
    case Incongruence(a, v) =>
      "- ⚠️ **Incongruence detected**: Voice suggests '" + a + "' but facial expression shows '" + v
      + "'. Gently explore this if appropriate."
    case Guidance(a) => AdviceText(a)
  }

  function RenderAll(ls: seq<Line>): (r: seq<string>)
    ensures |r| == |ls| && forall i :: 0 <= i < |ls| ==> r[i] == Render(ls[i])
  {
    if ls == [] then [] else [Render(ls[0])] + RenderAll(ls[1..])
  }

  /** The guidance for a dominant emotion, if it has one. */
  function AdviceFor(dominant: string): (a: Option<Advice>)
    ensures a.Some? <==> dominant in {"sad", "fearful", "angry", "happy", "surprised"}
  {
    if dominant == "sad" || dominant == "fearful" then Some(Gentle)
    else if dominant == "angry" then Some(Calm)
    else if dominant == "happy" then Some(Share)
    else if dominant == "surprised" then Some(Process)
    else None
  }

  function DominantOf(f: FusedView): string {
    if f.dominant.Some? then f.dominant.value else "neutral"
  }

  function ConfidenceOf(f: FusedView): real {
    if f.confidence.Some? then f.confidence.value else 0.0
  }

  /** The voice-tone line, when the audio emotion is shown. */
  function VoicePart(f: FusedView): seq<Line> {
    if Shown(f.audio) then [VoiceTone(f.audio.value)] else []
  }

  /** The facial-expression line, when the video emotion is shown. */
  function FacialPart(f: FusedView): seq<Line> {
    if Shown(f.video) then [FacialExpression(f.video.value)] else []
  }

  /** The incongruence line, when voice and face clash. */
  function ClashPart(f: FusedView): seq<Line> {
    if Clash(f.audio, f.video) then [Incongruence(f.audio.value, f.video.value)] else []
  }

  /** The guidance line, when the dominant emotion has one. */
  function GuidancePart(f: FusedView): seq<Line> {
    var a := AdviceFor(DominantOf(f));
    if a.Some? then [Guidance(a.value)] else []
  }

  /** The lines of the addendum for a non-empty state, in the order they are
      emitted; `pct` renders a confidence as a whole percentage. */
  function ContextLines(f: FusedView, pct: real -> string): seq<Line> {
    [Header, DominantLine(DominantOf(f), pct(ConfidenceOf(f)))] + VoicePart(f) + FacialPart(f) + ClashPart(f) + GuidancePart(f)
  }

  /** The addendum for `state`: nothing for a missing or empty state, otherwise
      its lines joined by newlines. */
  function EmotionContext(state: Option<FusedView>, pct: real -> string): string {
    if state.None? then "" else Join("\n", RenderAll(ContextLines(state.value, pct)))
  }

  /** `build_emotion_context`: appends the lines one condition at a time. */
  method BuildEmotionContext(state: Option<FusedView>, pct: real -> string) returns (ctx: string)
    ensures ctx == EmotionContext(state, pct)
  {
    if state.None? {
      return "";
    }
    var f := state.value;
    var audio, video := f.audio, f.video;
    var dominant := if f.dominant.Some? then f.dominant.value else "neutral";
    var confidence := if f.confidence.Some? then f.confidence.value else 0.0;
    var parts: seq<Line> := [];
    parts := parts + [Header];
    parts := parts + [DominantLine(dominant, pct(confidence))];
    ghost var opening := parts;
    if audio.Some? && audio.value != "" && audio.value != "neutral" {
      parts := parts + [VoiceTone(audio.value)];
    }
    assert parts == opening + VoicePart(f);
    if video.Some? && video.value != "" && video.value != "neutral" {
      parts := parts + [FacialExpression(video.value)];
    }
    assert parts == opening + VoicePart(f) + FacialPart(f);
    if audio.Some? && audio.value != "" && video.Some? && video.value != ""
      && audio.value != video.value && audio.value != "neutral" && video.value != "neutral"
    {
      parts := parts + [Incongruence(audio.value, video.value)];
    }
    assert parts == opening + VoicePart(f) + FacialPart(f) + ClashPart(f);
    ghost var beforeGuidance := parts;
    if dominant == "sad" || dominant == "fearful" {
      parts := parts + [Guidance(Gentle)];
    } else if dominant == "angry" {
      parts := parts + [Guidance(Calm)];
    } else if dominant == "happy" {
      parts := parts + [Guidance(Share)];
    } else if dominant == "surprised" {
      parts := parts + [Guidance(Process)];
    }
    assert parts == beforeGuidance + GuidancePart(f);
    assert opening == [Header, DominantLine(DominantOf(f), pct(ConfidenceOf(f)))];
    assert parts == ContextLines(f, pct);
    ctx := Join("\n", RenderAll(parts));
  }

  // ---------------------------------------------------------------------------
  // Properties of the addendum

  /** The lines of `ls` of the kind `kind`, in order. */
  function Having(kind: Line -> bool, ls: seq<Line>): (r: seq<Line>)
    ensures forall i :: 0 <= i < |r| ==> kind(r[i]) && r[i] in ls
  {
    if ls == [] then []
    else (if kind(ls[0]) then [ls[0]] else []) + Having(kind, ls[1..])
  }

  lemma {:induction false} HavingAppend(kind: Line -> bool, a: seq<Line>, b: seq<Line>)
    ensures Having(kind, a + b) == Having(kind, a) + Having(kind, b)
  {
    if a == [] {
      assert a + b == b;
    } else {
      assert (a + b)[1..] == a[1..] + b;
      HavingAppend(kind, a[1..], b);
    }
  }

  /** Picking out one kind of line picks it out of each part of the addendum. */
  lemma HavingParts(kind: Line -> bool, f: FusedView, pct: real -> string)
    ensures var dl := DominantLine(DominantOf(f), pct(ConfidenceOf(f)));
      Having(kind, ContextLines(f, pct))
      == Keep(kind, [Header]) + Keep(kind, [dl]) + Keep(kind, VoicePart(f)) + Keep(kind, FacialPart(f))
         + Keep(kind, ClashPart(f)) + Keep(kind, GuidancePart(f))
  {
    var a := [Header, DominantLine(DominantOf(f), pct(ConfidenceOf(f)))];
    var b := a + VoicePart(f);
    var c := b + FacialPart(f);
    var d := c + ClashPart(f);
    HavingAppend(kind, d, GuidancePart(f));
    HavingAppend(kind, c, ClashPart(f));
    HavingAppend(kind, b, FacialPart(f));
    HavingAppend(kind, a, VoicePart(f));
    assert a == [a[0]] + [a[1]];
    HavingAppend(kind, [a[0]], [a[1]]);
    HavingShort(kind, [a[0]]);
    HavingShort(kind, [a[1]]);
    HavingShort(kind, VoicePart(f));
    HavingShort(kind, FacialPart(f));
    HavingShort(kind, ClashPart(f));
    HavingShort(kind, GuidancePart(f));
  }

  /** A part of at most one line, kept when its line is of the kind `kind`. */
  function Keep(kind: Line -> bool, p: seq<Line>): seq<Line> {
    if p != [] && kind(p[0]) then p else []
  }

  lemma HavingShort(kind: Line -> bool, p: seq<Line>)
    requires |p| <= 1
    ensures Having(kind, p) == Keep(kind, p)
  {
    if p != [] {
      assert p[1..] == [];
    }
  }

  /** The addendum for a missing or empty state is empty, and for any other
      state it opens with the header and then the dominant-emotion line, the
      dominant defaulting to "neutral" and the confidence to 0. */
  lemma ContextOpensWithHeader(state: Option<FusedView>, pct: real -> string)
    ensures state.None? <==> EmotionContext(state, pct) == ""
    ensures state.Some? ==>
      var f := state.value;
      var ls := ContextLines(f, pct);
      && 2 <= |ls| <= 6
      && ls[0] == Header
      && ls[1] == DominantLine(if f.dominant.Some? then f.dominant.value else "neutral",
                               pct(if f.confidence.Some? then f.confidence.value else 0.0))
      && EmotionContext(state, pct) == Render(Header) + "\n" + Join("\n", RenderAll(ls[1..]))
  {
    if state.Some? {
      var ls := ContextLines(state.value, pct);
      var r := RenderAll(ls);
      assert RenderAll(ls[1..]) == r[1..];
      assert |Render(Header)| > 0;
    }
  }

  /** A voice-tone line appears exactly when the audio emotion is present,
      non-empty and not neutral, and then once, naming that emotion. */
  lemma VoiceLineIff(f: FusedView, pct: real -> string)
    ensures Having((l: Line) => l.VoiceTone?, ContextLines(f, pct))
            == if Shown(f.audio) then [VoiceTone(f.audio.value)] else []
  {
    HavingParts((l: Line) => l.VoiceTone?, f, pct);
  }

  /** Likewise a facial-expression line appears exactly when the video emotion
      is present, non-empty and not neutral. */
  lemma FacialLineIff(f: FusedView, pct: real -> string)
    ensures Having((l: Line) => l.FacialExpression?, ContextLines(f, pct))
            == if Shown(f.video) then [FacialExpression(f.video.value)] else []
  {
    HavingParts((l: Line) => l.FacialExpression?, f, pct);
  }

  /** The incongruence line appears exactly when both emotions are present,
      non-neutral and different; confidences play no part. */
  lemma IncongruenceLineIff(f: FusedView, pct: real -> string)
    ensures Having((l: Line) => l.Incongruence?, ContextLines(f, pct))
            == if Clash(f.audio, f.video) then [Incongruence(f.audio.value, f.video.value)] else []
  {
    HavingParts((l: Line) => l.Incongruence?, f, pct);
  }

  /** At most one guidance line, chosen by the dominant emotion; neutral,
      disgusted and any other dominant get none. */
  lemma AtMostOneGuidance(f: FusedView, pct: real -> string)
    ensures var g := Having((l: Line) => l.Guidance?, ContextLines(f, pct));
      && |g| <= 1
      && (g == [] <==> DominantOf(f) !in {"sad", "fearful", "angry", "happy", "surprised"})
      && (DominantOf(f) in {"sad", "fearful"} ==> g == [Guidance(Gentle)])
      && (DominantOf(f) == "angry" ==> g == [Guidance(Calm)])
      && (DominantOf(f) == "happy" ==> g == [Guidance(Share)])
      && (DominantOf(f) == "surprised" ==> g == [Guidance(Process)])
  {
    HavingParts((l: Line) => l.Guidance?, f, pct);
    var a := AdviceFor(DominantOf(f));
    assert GuidancePart(f) == if a.Some? then [Guidance(a.value)] else [];
  }

  // ---------------------------------------------------------------------------
  // The message list

  /** A chat message: its role ("system", "user" or "assistant") and text. */
  datatype Message = Message(role: string, content: string)

  /** `_build_messages`: one system message holding the persona and the
      emotion addendum, then the last `HISTORY_LIMIT` messages of the history
      (all of it when shorter), in their original order. */
  function BuildMessages(messages: seq<Message>, state: Option<FusedView>, pct: real -> string): (r: seq<Message>)
    ensures |r| == 1 + (if |messages| > HISTORY_LIMIT then HISTORY_LIMIT else |messages|)
    ensures |r| <= HISTORY_LIMIT + 1
    ensures r[0] == Message("system", BASE_SYSTEM_PROMPT + EmotionContext(state, pct))
    ensures r[1..] == messages[|messages| - (|r| - 1)..]
    ensures |messages| <= HISTORY_LIMIT ==> r[1..] == messages
  {
    var history := if |messages| > HISTORY_LIMIT then messages[|messages| - HISTORY_LIMIT..] else messages;
    [Message("system", BASE_SYSTEM_PROMPT + EmotionContext(state, pct))] + history
  }
}
