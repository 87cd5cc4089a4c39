/**
 * The session history both games keep: newest summary first, at most
 * ten entries (`[newSession, ...pastSessions].slice(0, 10)`).
 */
module History {
  const MAX_SESSIONS: nat := 10

  /** Record one finished session in front of the history and cap it. */
  function Prepend<T>(entry: T, past: seq<T>): (r: seq<T>)
    ensures |r| == if |past| < MAX_SESSIONS then |past| + 1 else MAX_SESSIONS
    ensures 0 < |r| <= MAX_SESSIONS
    ensures r[0] == entry
    ensures r[1..] == past[..|r| - 1]
  {
    var all := [entry] + past;
    if |all| <= MAX_SESSIONS then all else all[..MAX_SESSIONS]
  }
}
