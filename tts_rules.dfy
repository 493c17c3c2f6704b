/** The text-to-speech engine's selection rules: the style prefix put before
    the text for an emotion, the voice names found among the voice files, and
    the choice of a voice file for a requested voice. The voices directory is
    given as the list of file paths its walk yields (`None` when it is not a
    directory). */
module TtsRules {
  import opened Text
  import opened Labels

  // ---------------------------------------------------------------------------
  // Emotion conditioning

  /** The style prefix spoken before the text, per emotion. */
  const EMOTION_PREFIXES: map<string, string> := map[
    "happy" := "[Speaking with warmth and cheerfulness] ",
    "sad" := "[Speaking with gentle empathy and softness] ",
    "angry" := "[Speaking with calm, measured firmness] ",
    "neutral" := "",
    "empathetic" := "[Speaking with deep warmth, understanding, and compassion] ",
    "fearful" := "[Speaking with reassuring calmness] "
  ]

  /** The emotions the engine advertises. */
  function SupportedEmotions(): (es: seq<string>)
    ensures forall i :: 0 <= i < |es| ==> es[i] in EMOTION_PREFIXES
  {
    ["happy", "sad", "angry", "neutral", "empathetic", "fearful"]
  }

  /** The key the prefix is looked up by: the lower-cased emotion, "neutral"
      when it is missing or empty. */
  function EmotionKey(emotion: Option<string>): string {
    Lower(if emotion.None? || emotion.value == "" then "neutral" else emotion.value)
  }

  /** `_condition_text`: the emotion's prefix, if it has one, then the text. */
  function ConditionText(text: string, emotion: Option<string>): (r: string)
    ensures |text| <= |r| && r[|r| - |text|..] == text
    ensures EmotionKey(emotion) in EMOTION_PREFIXES ==> r[..|r| - |text|] == EMOTION_PREFIXES[EmotionKey(emotion)]
    ensures EmotionKey(emotion) !in EMOTION_PREFIXES ==> r == text
  {
    var key := EmotionKey(emotion);
    var prefix := if key in EMOTION_PREFIXES then EMOTION_PREFIXES[key] else "";
    prefix + text
  }

  /** A missing or empty emotion leaves the text as it is, since "neutral"
      has the empty prefix. */
  lemma NoEmotionNoPrefix(text: string, emotion: Option<string>)
    requires emotion.None? || emotion.value == ""
    ensures ConditionText(text, emotion) == text
  {
    assert Lower("neutral") == "neutral" by {
      LowerOfLower("neutral");
    }
  }

  /** A lower-case ASCII word is its own lower-case form. */
  lemma {:induction false} LowerOfLower(s: string)
    requires forall i :: 0 <= i < |s| ==> 'a' <= s[i] <= 'z'
    ensures Lower(s) == s
  {
    if s != [] {
      LowerOfLower(s[1..]);
    }
  }

  /** Every advertised emotion, in any letter case, gets its own prefix; an
      advertised emotion as listed is its own key. */
  lemma SupportedEmotionsArePrefixed(text: string, e: string)
    requires Lower(e) in SupportedEmotions()
    ensures ConditionText(text, Some(e)) == EMOTION_PREFIXES[Lower(e)] + text
    ensures e in SupportedEmotions() ==> ConditionText(text, Some(e)) == EMOTION_PREFIXES[e] + text
  {
    assert |Lower(e)| == |e|;
    assert EmotionKey(Some(e)) == Lower(e);
    if e in SupportedEmotions() {
      AdvertisedIsLowerCase(e);
    }
  }

  /** The advertised emotions are already lower-case. */
  lemma AdvertisedIsLowerCase(e: string)
    requires e in SupportedEmotions()
    ensures Lower(e) == e
  {
    var es := SupportedEmotions();
    assert forall i :: 0 <= i < |es| ==> forall k :: 0 <= k < |es[i]| ==> 'a' <= es[i][k] <= 'z';
    LowerOfLower(e);
  }

  // ---------------------------------------------------------------------------
  // Voice files and names

  /** `os.path.basename`: what follows the last "/". */
  function BaseName(p: string): (b: string)
    ensures |b| <= |p| && b == p[|p| - |b|..]
    ensures '/' !in b
    ensures |b| < |p| ==> p[|p| - |b| - 1] == '/'
  {
    if p == [] || p[|p| - 1] == '/' then [] else BaseName(p[..|p| - 1]) + [p[|p| - 1]]
  }

  /** The index of the last "." of `b`, or -1. */
  function LastDot(b: string): (k: int)
    ensures -1 <= k < |b|
    ensures k >= 0 ==> b[k] == '.'
    ensures forall i :: k < i < |b| ==> b[i] != '.'
  {
    if b == [] then -1 else if b[|b| - 1] == '.' then |b| - 1 else LastDot(b[..|b| - 1])
  }

  /** `os.path.splitext(b)[0]` for a base name: everything before the last
      dot, unless only dots precede it (".pt" is all stem). */
  function Stem(b: string): string {
    var k := LastDot(b);
    if k >= 0 && !AllDots(b[..k]) then b[..k] else b
  }

  /** `s` holds nothing but dots. */
  predicate AllDots(s: string) {
    forall i :: 0 <= i < |s| ==> s[i] == '.'
  }

  /** A voice file: its base name ends in ".pt" in any letter case. */
  predicate IsVoiceFile(p: string) {
    var b := Lower(BaseName(p));
    |b| >= 3 && b[|b| - 3..] == ".pt"
  }

  /** The name a voice file is known by: its lower-cased stem. */
  function VoiceName(p: string): string {
    Lower(Stem(BaseName(p)))
  }

  /** Lower-casing keeps dots and makes no new ones. */
  lemma LowerKeepsDots(c: char)
    ensures LowerChar(c) == '.' <==> c == '.'
  {
  }

  /** The last dot of a base name ending in ".pt" is that of the extension. */
  lemma ExtensionDot(b: string)
    requires |b| >= 3 && Lower(b)[|b| - 3..] == ".pt"
    ensures LastDot(b) == |b| - 3
  {
    var l := Lower(b);
    var k := |b| - 3;
    assert l[k] == '.' && l[k + 1] == 'p' && l[k + 2] == 't' by {
      assert l[k..][0] == '.' && l[k..][1] == 'p' && l[k..][2] == 't';
    }
    LowerKeepsDots(b[k]);
    LowerKeepsDots(b[k + 1]);
    LowerKeepsDots(b[k + 2]);
  }

  /** The name of a voice file is its base name without the ".pt", lower-cased
      (the whole base name when only dots precede the extension). */
  lemma VoiceNameDropsExtension(p: string)
    requires IsVoiceFile(p)
    ensures var b := BaseName(p);
      var k := |b| - 3;
      && k >= 0
      && VoiceName(p) == Lower(Stem(b))
      && (!AllDots(b[..k]) ==> Stem(b) == b[..k])
      && (AllDots(b[..k]) ==> Stem(b) == b)
  {
    ExtensionDot(BaseName(p));
  }

  /** The voice files of the walk, in walk order. */
  function VoicePaths(walk: seq<string>): (ps: seq<string>)
    ensures forall p :: p in ps <==> p in walk && IsVoiceFile(p)
  {
    if walk == [] then []
    else VoicePaths(walk[..|walk| - 1]) + (if IsVoiceFile(walk[|walk| - 1]) then [walk[|walk| - 1]] else [])
  }

  /** The loop over the directory walk that collects the voice files. */
  method CollectVoicePaths(walk: seq<string>) returns (paths: seq<string>)
    ensures paths == VoicePaths(walk)
  {
    paths := [];
    for i := 0 to |walk|
      invariant paths == VoicePaths(walk[..i])
    {
      assert walk[..i + 1][..i] == walk[..i];
      if IsVoiceFile(walk[i]) {
        paths := paths + [walk[i]];
      }
    }
    assert walk[..|walk|] == walk;
  }

  /** The names of `paths`, in order. */
  function Names(paths: seq<string>): (ns: seq<string>)
    ensures |ns| == |paths| && forall i :: 0 <= i < |paths| ==> ns[i] == VoiceName(paths[i])
  {
    if paths == [] then [] else Names(paths[..|paths| - 1]) + [VoiceName(paths[|paths| - 1])]
  }

  /** The name-to-path dict: every name maps to the last path with that name. */
  function VoiceMap(paths: seq<string>): (m: map<string, string>)
    ensures forall n :: n in m <==> n in Names(paths)
    ensures forall n :: n in m ==> m[n] in paths && VoiceName(m[n]) == n
  {
    if paths == [] then map[]
    else
      var last := paths[|paths| - 1];
      assert Names(paths) == Names(paths[..|paths| - 1]) + [VoiceName(last)];
      VoiceMap(paths[..|paths| - 1])[VoiceName(last) := last]
  }

  /** A name maps to the last path with that name. */
  lemma {:induction false} VoiceMapLastWins(paths: seq<string>, j: nat)
    requires j < |paths|
    requires forall k :: j < k < |paths| ==> VoiceName(paths[k]) != VoiceName(paths[j])
    ensures VoiceMap(paths)[VoiceName(paths[j])] == paths[j]
  {
    var n := VoiceName(paths[j]);
    var init := paths[..|paths| - 1];
    if j < |paths| - 1 {
      assert init[j] == paths[j];
      VoiceMapLastWins(init, j);
      assert VoiceName(paths[|paths| - 1]) != n;
    }
  }

  /** The names in the order they first appear: the dict's key order. */
  function Dedup(ns: seq<string>): (r: seq<string>)
    ensures forall x :: x in r <==> x in ns
    ensures forall i, j :: 0 <= i < j < |r| ==> r[i] != r[j]
  {
    if ns == [] then []
    else
      var init := Dedup(ns[..|ns| - 1]);
      var last := ns[|ns| - 1];
      assert forall x :: x in ns <==> x in ns[..|ns| - 1] || x == last;
      if last in init then init else init + [last]
  }

  /** The smallest of the names (the first of `sorted`). */
  function MinName(ns: seq<string>): (m: string)
    requires ns != []
    ensures m in ns
    ensures forall x :: x in ns ==> m == x || LexLess(m, x)
  {
    if |ns| == 1 then ns[0]
    else
      var rest := MinName(ns[1..]);
      LexLessTotal(ns[0], rest);
      assert forall x :: x in ns ==> x == ns[0] || x in ns[1..];
      if LexLess(ns[0], rest) then
        assert forall x :: x in ns[1..] && LexLess(rest, x) ==> LexLess(ns[0], x) by {
          forall x | x in ns[1..] && LexLess(rest, x) ensures LexLess(ns[0], x) {
            LexLessTransitive(ns[0], rest, x);
          }
        }
        ns[0]
      else rest
  }

  /** `ns` without `x`. */
  function Without(ns: seq<string>, x: string): (r: seq<string>)
    ensures |r| <= |ns| && (x in ns ==> |r| < |ns|)
    ensures forall y :: y in r <==> y in ns && y != x
  {
    if ns == [] then []
    else
      assert forall y :: y in ns <==> y == ns[0] || y in ns[1..];
      (if ns[0] == x then [] else [ns[0]]) + Without(ns[1..], x)
  }

  /** `sorted(set(ns))`: the names in increasing order, each once. */
  function SortedNames(ns: seq<string>): (r: seq<string>)
    ensures forall x :: x in r <==> x in ns
    ensures forall i, j :: 0 <= i < j < |r| ==> LexLess(r[i], r[j])
    decreases |ns|
  {
    if ns == [] then []
    else
      var m := MinName(ns);
      var rest := SortedNames(Without(ns, m));
      assert forall j :: 0 <= j < |rest| ==> LexLess(m, rest[j]) by {
        forall j | 0 <= j < |rest| ensures LexLess(m, rest[j]) {
          assert rest[j] in Without(ns, m);
        }
      }
      var r := [m] + rest;
      assert forall x :: x in r <==> x == m || x in rest;
      assert forall i, j :: 0 <= i < j < |r| ==> LexLess(r[i], r[j]) by {
        forall i, j | 0 <= i < j < |r| ensures LexLess(r[i], r[j]) {
          assert r[j] == rest[j - 1];
          if i > 0 {
            assert r[i] == rest[i - 1];
          }
        }
      }
      r
  }

  // ---------------------------------------------------------------------------
  // Available voices

  /** What `get_available_voices` returns for the walk of the voices directory. */
  function AvailableVoices(listing: Option<seq<string>>): seq<string> {
    if listing.None? then [] else SortedNames(Names(VoicePaths(listing.value)))
  }

  /** `get_available_voices`. */
  method GetAvailableVoices(listing: Option<seq<string>>) returns (names: seq<string>)
    ensures names == AvailableVoices(listing)
  {
    if listing.None? {
      return [];
    }
    var paths := CollectVoicePaths(listing.value);
    names := SortedNames(Names(paths));
  }

  /** A name belongs to the walk's voice files exactly when some voice file has it. */
  lemma NamesOfVoiceFiles(walk: seq<string>, n: string)
    ensures n in Names(VoicePaths(walk)) <==> exists p :: p in walk && IsVoiceFile(p) && VoiceName(p) == n
  {
    var ps := VoicePaths(walk);
    var ns := Names(ps);
    if n in ns {
      var i :| 0 <= i < |ns| && ns[i] == n;
      NameOfVoicePath(walk, ps, i);
    } else {
      NoOtherNames(walk, n);
    }
  }

  lemma NoOtherNames(walk: seq<string>, n: string)
    requires n !in Names(VoicePaths(walk))
    ensures forall p :: p in walk && IsVoiceFile(p) ==> VoiceName(p) != n
  {
    var ps := VoicePaths(walk);
    var ns := Names(ps);
    forall p | p in walk && IsVoiceFile(p)
      ensures VoiceName(p) != n
    {
      assert p in ps;
      var i :| 0 <= i < |ps| && ps[i] == p;
      assert ns[i] == VoiceName(p);
    }
  }

  lemma NameOfVoicePath(walk: seq<string>, ps: seq<string>, i: nat)
    requires ps == VoicePaths(walk) && i < |ps|
    ensures ps[i] in walk && IsVoiceFile(ps[i]) && VoiceName(ps[i]) == Names(ps)[i]
  {
    assert ps[i] in ps;
  }

  /** The available voices are exactly the names of the voice files, in
      increasing order and without repeats. */
  lemma AvailableVoicesAreTheNames(listing: Option<seq<string>>, n: string)
    requires listing.Some?
    ensures var vs := AvailableVoices(listing);
      && (n in vs <==> exists p :: p in listing.value && IsVoiceFile(p) && VoiceName(p) == n)
      && (forall i, j :: 0 <= i < j < |vs| ==> LexLess(vs[i], vs[j]) && vs[i] != vs[j])
  {
    var vs := AvailableVoices(listing);
    NamesOfVoiceFiles(listing.value, n);
    forall i, j | 0 <= i < j < |vs|
      ensures vs[i] != vs[j]
    {
      LexLessIrreflexive(vs[i]);
    }
  }

  // ---------------------------------------------------------------------------
  // Resolving a requested voice

  /** Python's `v in name or name in v`. */
  predicate Related(v: string, name: string) {
    Contains(name, v) || Contains(v, name)
  }

  /** The names of `keys` related to `v`, in key order: the partial matches. */
  function RelatedNames(v: string, keys: seq<string>): (r: seq<string>)
    ensures forall x :: x in r <==> x in keys && Related(v, x)
    ensures Distinct(keys) ==> Distinct(r)
  {
    if keys == [] then []
    else
      var rest := RelatedNames(v, keys[1..]);
      assert forall x :: x in keys <==> x == keys[0] || x in keys[1..];
      assert Distinct(keys) ==> keys[0] !in keys[1..];
      var r := (if Related(v, keys[0]) then [keys[0]] else []) + rest;
      assert Distinct(keys) ==> Distinct(r) by {
        if Distinct(keys) && Related(v, keys[0]) {
          assert forall j :: 0 < j < |r| ==> r[j] == rest[j - 1];
        }
      }
      r
  }

  /** The requested voice, lower-cased. */
  function Requested(voice: Option<string>): string {
    Lower(if voice.Some? then voice.value else "")
  }

  /** The choice among the voice files `paths` for the lower-cased request
      `v`: the exact name, else the one partial match, else the smallest name. */
  function Choose(paths: seq<string>, v: string): Option<string> {
    if paths == [] then None
    else
      var m := VoiceMap(paths);
      if v in m then Some(m[v])
      else
        var partial := RelatedNames(v, Dedup(Names(paths)));
        if v != "" && |partial| == 1 then
          assert partial[0] in Dedup(Names(paths));
          Some(m[partial[0]])
        else
          Some(m[MinName(Names(paths))])
  }

  /** What `_resolve_voice_path` returns for the walk of the voices directory
      and the requested voice. */
  function ResolveSpec(listing: Option<seq<string>>, voice: Option<string>): Option<string> {
    if listing.None? then None else Choose(VoicePaths(listing.value), Requested(voice))
  }

  /** `_resolve_voice_path`. */
  method ResolveVoicePath(listing: Option<seq<string>>, voice: Option<string>) returns (r: Option<string>)
    ensures r == ResolveSpec(listing, voice)
  {
    if listing.None? {
      return None;
    }
    var v := Lower(if voice.Some? then voice.value else "");
    var paths := CollectVoicePaths(listing.value);
    if paths == [] {
      return None;
    }
    var m := VoiceMap(paths);
    if v in m {
      return Some(m[v]);
    }
    if v != "" {
      var partial := RelatedNames(v, Dedup(Names(paths)));
      if |partial| == 1 {
        return Some(m[partial[0]]);
      }
    }
    r := Some(m[MinName(Names(paths))]);
  }

  /** The names of `paths` related to `v`. */
  ghost function Candidates(paths: seq<string>, v: string): set<string> {
    set x | x in Names(paths) && Related(v, x)
  }

  /** A sequence without repeats has as many elements as its set. */
  lemma {:induction false} DistinctCount(s: seq<string>)
    requires Distinct(s)
    ensures |set x | x in s| == |s|
  {
    if s != [] {
      DistinctCount(s[1..]);
      assert (set x | x in s) == {s[0]} + (set x | x in s[1..]);
      assert s[0] !in s[1..];
    }
  }

  /** The partial matches are the candidates, each once. */
  lemma PartialMatchesAreCandidates(paths: seq<string>, v: string)
    ensures var r := RelatedNames(v, Dedup(Names(paths)));
      (set x | x in r) == Candidates(paths, v) && |r| == |Candidates(paths, v)|
  {
    var r := RelatedNames(v, Dedup(Names(paths)));
    DistinctCount(r);
  }

  /** Among the voice files `paths` there is a choice exactly when there is a
      file, and the choice is one of them. */
  lemma ChooseAmongPaths(paths: seq<string>, v: string)
    ensures Choose(paths, v).None? <==> paths == []
    ensures Choose(paths, v).Some? ==> Choose(paths, v).value in paths
  {
    if paths != [] {
      var m := VoiceMap(paths);
      if v !in m {
        var partial := RelatedNames(v, Dedup(Names(paths)));
        if v != "" && |partial| == 1 {
          assert partial[0] in Names(paths);
          assert Choose(paths, v) == Some(m[partial[0]]);
        } else {
          assert Choose(paths, v) == Some(m[MinName(Names(paths))]);
        }
      }
    }
  }

  /** There is a voice exactly when there are voice files, and it is always
      one of them. */
  lemma ResolvesToAVoiceFile(listing: Option<seq<string>>, voice: Option<string>)
    ensures ResolveSpec(listing, voice).None? <==> listing.None? || forall p :: p in listing.value ==> !IsVoiceFile(p)
    ensures ResolveSpec(listing, voice).Some? ==>
      ResolveSpec(listing, voice).value in listing.value && IsVoiceFile(ResolveSpec(listing, voice).value)
  {
    if listing.Some? {
      var ps := VoicePaths(listing.value);
      ChooseAmongPaths(ps, Requested(voice));
      if ps != [] {
        assert ps[0] in listing.value && IsVoiceFile(ps[0]);
      }
    }
  }

  /** A voice file whose name is the requested voice, ignoring case, is chosen. */
  lemma ExactMatchWins(paths: seq<string>, v: string)
    requires v in Names(paths)
    ensures Choose(paths, v).Some? && VoiceName(Choose(paths, v).value) == v
  {
  }

  /** Failing an exact match, a non-empty request related by a substring test
      to exactly one name gets that name's file. */
  lemma UniquePartialMatchWins(paths: seq<string>, v: string, n: string)
    requires v !in Names(paths) && v != "" && Candidates(paths, v) == {n}
    ensures Choose(paths, v).Some? && VoiceName(Choose(paths, v).value) == n
  {
    PartialMatchesAreCandidates(paths, v);
    var r := RelatedNames(v, Dedup(Names(paths)));
    assert r[0] in (set x | x in r);
    assert r[0] == n;
    var m := VoiceMap(paths);
    assert Choose(paths, v) == Some(m[n]);
  }

  /** Otherwise the file of the smallest name is chosen. */
  lemma FallbackIsSmallestName(paths: seq<string>, v: string)
    requires paths != [] && v !in Names(paths)
    requires v == "" || |Candidates(paths, v)| != 1
    ensures Choose(paths, v).Some?
    ensures forall x :: x in Names(paths) ==> VoiceName(Choose(paths, v).value) == x || LexLess(VoiceName(Choose(paths, v).value), x)
  {
    PartialMatchesAreCandidates(paths, v);
  }
}
