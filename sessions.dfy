/** The server's registry of conversation sessions, keyed by session id. */
module Sessions {
  import opened Text
  import ChatPrompt

  /** One entry of a session's emotion history: where the reading came from
      ("audio" or "video"), its label, confidence and time stamp. */
  datatype EmotionEntry = EmotionEntry(source: string, emotion: string, confidence: real, timestamp: string)

  /** A session: its chat history, creation time and emotion history. */
  datatype Session = Session(messages: seq<ChatPrompt.Message>, createdAt: string, emotionHistory: seq<EmotionEntry>)

  /** A session as created: no messages, no emotion history. */
  function NewSession(now: string): (s: Session)
    ensures s.messages == [] && s.emotionHistory == [] && s.createdAt == now
  {
    Session([], now, [])
  }

  /** The id a request names, if it names a non-empty one. */
  predicate Named(sessionId: Option<string>) {
    sessionId.Some? && sessionId.value != ""
  }

  /** What `get_or_create_session` returns and leaves in the registry, given
      the registry before, the requested id, the id a fresh uuid would give and
      the current time. */
  function GetOrCreateSpec(sessions: map<string, Session>, sessionId: Option<string>, freshId: string, now: string)
    : (r: (string, map<string, Session>))
    ensures r.0 in r.1
    ensures Named(sessionId) && sessionId.value in sessions ==> r == (sessionId.value, sessions)
    ensures !(Named(sessionId) && sessionId.value in sessions) ==>
      && r.0 == (if Named(sessionId) then sessionId.value else freshId)
      && r.1[r.0] == NewSession(now)
      && (forall k :: k in r.1 <==> k in sessions || k == r.0)
      && (forall k :: k in sessions && k != r.0 ==> r.1[k] == sessions[k])
  {
    if Named(sessionId) && sessionId.value in sessions then (sessionId.value, sessions)
    else
      var sid := if Named(sessionId) then sessionId.value else freshId;
      (sid, sessions[sid := NewSession(now)])
  }

  /** Asking again for the id just returned finds it and changes nothing. */
  lemma GetOrCreateIdempotent(sessions: map<string, Session>, sessionId: Option<string>, freshId: string, now: string,
                              freshId': string, now': string)
    requires Named(sessionId) || freshId != ""
    ensures var (sid, after) := GetOrCreateSpec(sessions, sessionId, freshId, now);
      GetOrCreateSpec(after, Some(sid), freshId', now') == (sid, after)
  {
  }

  /** The registry never loses an entry and gains at most one, and a session
      other than the returned one is never touched. */
  lemma RegistryGrowsByAtMostOne(sessions: map<string, Session>, sessionId: Option<string>, freshId: string, now: string)
    ensures var (sid, after) := GetOrCreateSpec(sessions, sessionId, freshId, now);
      && sessions.Keys <= after.Keys
      && after.Keys <= sessions.Keys + {sid}
      && (forall k :: k in sessions && k != sid ==> after[k] == sessions[k])
  {
  }

  /** The process-wide registry. */
  class SessionStore {
    var sessions: map<string, Session>

    constructor()
      ensures sessions == map[]
    {
      sessions := map[];
    }

    /** `get_or_create_session`: an existing named session is returned as it
        is; otherwise a new, empty session is stored under the named id, or
        under `freshId` (the fresh uuid) when no id is named. A fresh id that
        already names a session replaces it. */
    method GetOrCreate(sessionId: Option<string>, freshId: string, now: string) returns (sid: string)
      modifies this
      ensures (sid, sessions) == GetOrCreateSpec(old(sessions), sessionId, freshId, now)
      ensures sid in sessions
    {
      if sessionId.Some? && sessionId.value != "" && sessionId.value in sessions {
        return sessionId.value;
      }
      sid := if sessionId.Some? && sessionId.value != "" then sessionId.value else freshId;
      sessions := sessions[sid := Session([], now, [])];
    }
  }
}
