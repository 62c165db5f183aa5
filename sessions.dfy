/**
 * The in-memory session manager: a table from session id to the session's full
 * history, its last activity time and its conversation window size, with lazy
 * 24-hour expiry and a sweep that removes expired sessions.
 *
 * Time is a number of milliseconds handed in by the caller (`now`); a freshly
 * generated uuid is handed in as `freshId`.
 */
module Sessions {
  import opened Wrappers

  datatype Role = Human | Assistant

  /** The role as the string the rest of the system prints. */
  function RoleName(r: Role): string
  {
    match r
    case Human => "human"
    case Assistant => "assistant"
  }

  /** A stored message: it always carries a timestamp. */
  datatype Message = Message(role: Role, content: string, timestamp: int)

  /** A message handed to `AddMessage`, whose timestamp may be missing. */
  datatype Draft = Draft(role: Role, content: string, timestamp: Option<int>)

  datatype Session = Session(history: seq<Message>, lastUpdated: int, conversationWindowSize: int)

  /** 24 hours in milliseconds. */
  const MaxSessionAge: int := 1000 * 60 * 60 * 24

  /** The default window size of a new manager. */
  const InitialDefaultWindowSize: int := 10

  /** A stored session is expired once strictly more than 24 hours have passed since its last activity. */
  predicate Stale(s: Session, now: int)
  {
    now - s.lastUpdated > MaxSessionAge
  }

  /** A session touched exactly 24 hours ago is still live; one millisecond later it is expired. */
  lemma ExpiryBoundary(s: Session)
    ensures !Stale(s, s.lastUpdated + MaxSessionAge)
    ensures Stale(s, s.lastUpdated + MaxSessionAge + 1)
  {
  }

  /** The stored form of a draft: its own timestamp is kept, a missing one becomes `now`. */
  function Stamp(m: Draft, now: int): (r: Message)
    ensures r.role == m.role && r.content == m.content
    ensures m.timestamp.Some? ==> r.timestamp == m.timestamp.value
    ensures m.timestamp.None? ==> r.timestamp == now
  {
    Message(m.role, m.content, if m.timestamp.Some? then m.timestamp.value else now)
  }

  /** JavaScript's `s.slice(start)`: a negative start counts from the end, a start past either end is clamped. */
  function SliceFrom<T>(s: seq<T>, start: int): (r: seq<T>)
    ensures start < 0 ==> r == s[|s| - Min(-start, |s|)..]
    ensures start >= 0 ==> r == s[Min(start, |s|)..]
  {
    if start < 0 then
      (if -start >= |s| then s else s[|s| + start..])
    else
      (if start >= |s| then [] else s[start..])
  }

  /**
   * The view `history.slice(-w)` that getFormattedHistory hands out. For a positive
   * window it is the last min(w, |h|) messages in their original order; a negative
   * window (which setConversationWindowSize does not reject) drops |w| messages
   * from the front instead.
   */
  function WindowView(h: seq<Message>, w: int): (r: seq<Message>)
    ensures w > 0 ==> |r| == Min(w, |h|) && r == h[|h| - |r|..]
    ensures w < 0 ==> r == h[Min(-w, |h|)..]
    ensures w == 0 ==> r == h
  {
    SliceFrom(h, -w)
  }

  /** Twelve stored messages and a window of five give exactly the last five. */
  lemma WindowOfFiveOverTwelve(h: seq<Message>)
    requires |h| == 12
    ensures WindowView(h, 5) == h[7..]
  {
  }

  /**
   * The window size in force: `override || sessionSize || defaultSize`, where a
   * missing override and the number 0 are falsy.
   */
  function EffectiveWindow(override: Option<int>, sessionSize: int, defaultSize: int): (w: int)
    requires defaultSize > 0
    ensures w != 0
    ensures override.Some? && override.value != 0 ==> w == override.value
    ensures (override.None? || override.value == 0) && sessionSize != 0 ==> w == sessionSize
    ensures (override.None? || override.value == 0) && sessionSize == 0 ==> w == defaultSize
  {
    if override.Some? && override.value != 0 then override.value
    else if sessionSize != 0 then sessionSize
    else defaultSize
  }

  /** The table after the sweep: the live sessions, each unchanged. */
  function LiveSessions(m: map<string, Session>, now: int): (r: map<string, Session>)
    ensures forall id :: id in r <==> id in m && !Stale(m[id], now)
    ensures forall id :: id in r ==> r[id] == m[id]
  {
    map id | id in m && !Stale(m[id], now) :: m[id]
  }

  /**
   * What `getOrCreateSession(id)` does to the table, stated as a relation between
   * the table before and after: a missing or expired entry is replaced by a fresh
   * empty session stamped `now` with the default window size; a live entry keeps
   * its history and window size and only has its activity time refreshed; every
   * other entry is untouched.
   */
  ghost predicate Renewed(before: map<string, Session>, after: map<string, Session>,
                          id: string, now: int, defaultSize: int)
  {
    && id in after
    && (id !in before || Stale(before[id], now) ==> after[id] == Session([], now, defaultSize))
    && (id in before && !Stale(before[id], now) ==> after[id] == before[id].(lastUpdated := now))
    && after - {id} == before - {id}
  }

  /** The session found under `id` once `getOrCreateSession(id)` has run at `now` over the table `before`. */
  function Renew(before: map<string, Session>, id: string, now: int, defaultSize: int): (s: Session)
    ensures s.lastUpdated == now
    ensures id in before && !Stale(before[id], now) ==>
              s.history == before[id].history && s.conversationWindowSize == before[id].conversationWindowSize
    ensures id !in before || Stale(before[id], now) ==> s == Session([], now, defaultSize)
  {
    if id in before && !Stale(before[id], now) then before[id].(lastUpdated := now)
    else Session([], now, defaultSize)
  }

  /** The renewal relation is the single-entry update by `Renew`. */
  lemma RenewedIsUpdate(before: map<string, Session>, after: map<string, Session>, id: string, now: int, defaultSize: int)
    requires Renewed(before, after, id, now, defaultSize)
    ensures after == before[id := Renew(before, id, now, defaultSize)]
  {
    var expected := before[id := Renew(before, id, now, defaultSize)];
    forall k | k in after
      ensures k in expected && after[k] == expected[k]
    {
      if k != id {
        assert k in after - {id};
      }
    }
    forall k | k in expected
      ensures k in after
    {
      if k != id {
        assert k in before - {id};
      }
    }
  }

  class SessionManager {
    var sessions: map<string, Session>
    var defaultWindowSize: int

    /** The default window size stays positive, and no session is stored under the empty id. */
    ghost predicate Valid()
      reads this
    {
      defaultWindowSize > 0 && "" !in sessions
    }

    constructor ()
      ensures Valid()
      ensures sessions == map[] && defaultWindowSize == InitialDefaultWindowSize
    {
      sessions := map[];
      defaultWindowSize := InitialDefaultWindowSize;
    }

    /** A session that is not stored counts as expired. */
    predicate IsSessionExpired(id: string, now: int): (expired: bool)
      reads this
      ensures id !in sessions ==> expired
      ensures id in sessions ==> (expired <==> now > sessions[id].lastUpdated + MaxSessionAge)
    {
      id !in sessions || Stale(sessions[id], now)
    }

    /** The body shared by every operation that starts with `getOrCreateSession` on a known id. */
    method Touch(id: string, now: int)
      requires Valid() && id != ""
      modifies this
      ensures Valid() && defaultWindowSize == old(defaultWindowSize)
      ensures Renewed(old(sessions), sessions, id, now, defaultWindowSize)
    {
      if IsSessionExpired(id, now) {
        sessions := sessions[id := Session([], now, defaultWindowSize)];
      } else {
        sessions := sessions[id := sessions[id].(lastUpdated := now)];
      }
    }

    /**
     * `getOrCreateSession`: an empty `requested` id stands for a missing one and is
     * replaced by the freshly generated `freshId`; a supplied id is used unchanged.
     */
    method GetOrCreateSession(requested: string, now: int, freshId: string) returns (id: string, history: seq<Message>)
      requires Valid() && freshId != ""
      modifies this
      ensures Valid() && defaultWindowSize == old(defaultWindowSize)
      ensures id == if requested != "" then requested else freshId
      ensures Renewed(old(sessions), sessions, id, now, defaultWindowSize)
      ensures history == sessions[id].history
    {
      id := if requested != "" then requested else freshId;
      Touch(id, now);
      history := sessions[id].history;
    }

    /**
     * `addMessage`: renews the session as `getOrCreateSession` does, then appends
     * the stamped message at the end of its history and refreshes its activity time.
     */
    method AddMessage(sessionId: string, message: Draft, now: int)
      requires Valid() && sessionId != ""
      modifies this
      ensures Valid() && defaultWindowSize == old(defaultWindowSize)
      ensures sessionId in sessions
      ensures sessions - {sessionId} == old(sessions) - {sessionId}
      ensures old(IsSessionExpired(sessionId, now)) ==>
                sessions[sessionId] == Session([Stamp(message, now)], now, defaultWindowSize)
      ensures !old(IsSessionExpired(sessionId, now)) ==>
                sessions[sessionId] == old(sessions[sessionId]).(
                  history := old(sessions[sessionId].history) + [Stamp(message, now)],
                  lastUpdated := now)
    {
      Touch(sessionId, now);
      var s := sessions[sessionId];
      sessions := sessions[sessionId := s.(history := s.history + [Stamp(message, now)], lastUpdated := now)];
    }

    /** `cleanupExpiredSessions`: deletes every expired entry, one key at a time. */
    method CleanupExpiredSessions(now: int)
      requires Valid()
      modifies this
      ensures Valid() && defaultWindowSize == old(defaultWindowSize)
      ensures sessions == LiveSessions(old(sessions), now)
    {
      var pending := sessions.Keys;
      while pending != {}
        invariant Valid() && defaultWindowSize == old(defaultWindowSize)
        invariant pending <= old(sessions).Keys
        invariant sessions == map id | id in old(sessions) && (id in pending || !Stale(old(sessions)[id], now)) :: old(sessions)[id]
        decreases pending
      {
        var id :| id in pending;
        if IsSessionExpired(id, now) {
          sessions := sessions - {id};
        }
        pending := pending - {id};
      }
    }

    /**
     * `getFormattedHistory`: renews the session, then returns the window of its
     * history chosen by `EffectiveWindow`; the stored history is not changed.
     */
    method GetFormattedHistory(sessionId: string, overrideWindowSize: Option<int>, now: int) returns (view: seq<Message>)
      requires Valid() && sessionId != ""
      modifies this
      ensures Valid() && defaultWindowSize == old(defaultWindowSize)
      ensures Renewed(old(sessions), sessions, sessionId, now, defaultWindowSize)
      ensures view == WindowView(sessions[sessionId].history,
                                 EffectiveWindow(overrideWindowSize, sessions[sessionId].conversationWindowSize, defaultWindowSize))
    {
      Touch(sessionId, now);
      var windowSize := EffectiveWindow(overrideWindowSize, sessions[sessionId].conversationWindowSize, defaultWindowSize);
      view := WindowView(sessions[sessionId].history, windowSize);
    }

    /** `setConversationWindowSize`: changes the size of a stored session, whatever its age; an unknown id is ignored. */
    method SetConversationWindowSize(sessionId: string, windowSize: int)
      requires Valid()
      modifies this
      ensures Valid() && defaultWindowSize == old(defaultWindowSize)
      ensures sessionId in old(sessions) ==>
                sessions == old(sessions)[sessionId := old(sessions)[sessionId].(conversationWindowSize := windowSize)]
      ensures sessionId !in old(sessions) ==> sessions == old(sessions)
    {
      if sessionId in sessions {
        sessions := sessions[sessionId := sessions[sessionId].(conversationWindowSize := windowSize)];
      }
    }

    /** `getConversationWindowSize`: the stored session's size unless it is missing or 0, else the default. */
    function GetConversationWindowSize(sessionId: string): (w: int)
      requires Valid()
      reads this
      ensures w != 0
      ensures sessionId in sessions && sessions[sessionId].conversationWindowSize != 0 ==>
                w == sessions[sessionId].conversationWindowSize
      ensures sessionId !in sessions || sessions[sessionId].conversationWindowSize == 0 ==>
                w == defaultWindowSize
    {
      if sessionId in sessions && sessions[sessionId].conversationWindowSize != 0
      then sessions[sessionId].conversationWindowSize
      else defaultWindowSize
    }

    /** `setDefaultWindowSize`: a positive size replaces the default used for future sessions; others are ignored. */
    method SetDefaultWindowSize(size: int)
      requires Valid()
      modifies this
      ensures Valid()
      ensures defaultWindowSize == if size > 0 then size else old(defaultWindowSize)
      ensures sessions == old(sessions)
    {
      if size > 0 {
        defaultWindowSize := size;
      }
    }

    /** `getFullHistory`: renews the session and returns a copy of its whole history. */
    method GetFullHistory(requested: string, now: int, freshId: string) returns (history: seq<Message>)
      requires Valid() && freshId != ""
      modifies this
      ensures Valid() && defaultWindowSize == old(defaultWindowSize)
      ensures var id := if requested != "" then requested else freshId;
              Renewed(old(sessions), sessions, id, now, defaultWindowSize) && history == sessions[id].history
    {
      var id, h := GetOrCreateSession(requested, now, freshId);
      history := h;
    }
  }
}
