/** The session cell of App.jsx: `null` at first, then overwritten by the
    `getSession()` result and by every `onAuthStateChange` notification, in
    whatever order they arrive. */
module Session {
  import opened Wrappers

  /** An opaque provider session; only its identity matters here. */
  datatype AuthSession = AuthSession(userId: string)

  /** A write to the session cell. */
  datatype SessionEvent =
    | GetSessionResolved(session: Option<AuthSession>)                  // getSession().then(...)
    | AuthStateChanged(event: string, session: Option<AuthSession>)     // onAuthStateChange callback

  /** `useState(null)`. */
  const InitialSession: Option<AuthSession> := None

  /** `setSession(session)`: both callbacks replace the cell outright. */
  function Apply(current: Option<AuthSession>, e: SessionEvent): Option<AuthSession>
  {
    e.session
  }

  /** The cell after applying events, oldest first, to `current`:
      the last write wins, and with no writes the cell is unchanged. */
  function Replay(current: Option<AuthSession>, events: seq<SessionEvent>): (r: Option<AuthSession>)
    ensures events == [] ==> r == current
    ensures events != [] ==> r == events[|events| - 1].session
    decreases |events|
  {
    if events == [] then current else Replay(Apply(current, events[0]), events[1..])
  }

  /** The session seen by the app after the given writes. */
  function SessionAfter(events: seq<SessionEvent>): (r: Option<AuthSession>)
    ensures events == [] ==> r.None?
    ensures r.Some? ==> exists i :: 0 <= i < |events| && events[i].session == r
  {
    Replay(InitialSession, events)
  }

  /** The React state cell as a mutable variable written by each callback in
      arrival order. */
  method RunSession(events: seq<SessionEvent>) returns (session: Option<AuthSession>)
    ensures session == SessionAfter(events)
    ensures events != [] ==> session == events[|events| - 1].session
  {
    session := InitialSession;
    var i := 0;
    while i < |events|
      invariant 0 <= i <= |events|
      invariant session == Replay(InitialSession, events[..i])
    {
      session := Apply(session, events[i]);
      i := i + 1;
    }
    assert events[..i] == events;
  }

  /** Writes before a non-empty suffix of writes are forgotten. */
  lemma LastWriteWins(earlier: seq<SessionEvent>, later: seq<SessionEvent>)
    requires later != []
    ensures SessionAfter(earlier + later) == SessionAfter(later)
  {
  }

  /** A `getSession()` result that arrives after auth-state changes still
      overwrites them. */
  lemma LateGetSessionOverwrites(earlier: seq<SessionEvent>, s: Option<AuthSession>)
    ensures SessionAfter(earlier + [GetSessionResolved(s)]) == s
  {
  }

  /** A sign-out notification (a null session) empties the cell. */
  lemma SignOutClears(earlier: seq<SessionEvent>, event: string)
    ensures SessionAfter(earlier + [AuthStateChanged(event, None)]).None?
  {
  }
}
