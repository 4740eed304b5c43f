/**
 * The server hooks: a process-wide map from session token to user, the per-request `handle`
 * (resolve the user from the `session` cookie, guard `/dashboard`), and `createSession` /
 * `deleteSession`.
 */
module Sessions {
  import opened Optional
  import opened Text

  /** The user record kept per session (no password). */
  datatype SessionUser = SessionUser(id: string, name: string, email: string)

  /**
   * What `handle` does with a request: answer 302 with a `Location` header itself, or pass the
   * request on to `resolve` with `locals.user` set.
   */
  datatype HandleResult =
    | Redirect(status: int, location: string)
    | Resolve(user: Option<SessionUser>)

  const ProtectedPrefix := "/dashboard"
  const LoginPath := "/login"

  /** Length of the tokens `crypto.randomUUID()` produces. */
  const TokenLength := 36

  /**
   * `token && sessions.has(token) ? sessions.get(token)! : null`: the user of a present, non-empty
   * token that is a key of the map, and no user otherwise.
   */
  function ResolveUser(sessions: map<string, SessionUser>, token: Option<string>): (r: Option<SessionUser>)
    ensures r.Some? <==> token.Some? && token.value != [] && token.value in sessions
    ensures r.Some? ==> r.value == sessions[token.value]
  {
    if token.Some? && token.value != [] && token.value in sessions then Some(sessions[token.value]) else None
  }

  /**
   * `handle`: a path starting with `/dashboard` and no resolved user answers 302 to `/login`
   * without calling `resolve`; every other request is resolved with the user found for its token.
   */
  function Handle(sessions: map<string, SessionUser>, token: Option<string>, path: string): (r: HandleResult)
    ensures r.Redirect? <==> StartsWith(path, ProtectedPrefix) && ResolveUser(sessions, token).None?
    ensures r.Redirect? ==> r == Redirect(302, LoginPath)
    ensures r.Resolve? ==> r.user == ResolveUser(sessions, token)
  {
    var user := ResolveUser(sessions, token);
    if StartsWith(path, ProtectedPrefix) && user.None? then Redirect(302, LoginPath) else Resolve(user)
  }

  /** `handle` looks only at the entry for the request's own token. */
  lemma HandleLocal(s1: map<string, SessionUser>, s2: map<string, SessionUser>, t: string, path: string)
    requires (t in s1 <==> t in s2) && (t in s1 ==> s1[t] == s2[t])
    ensures Handle(s1, Some(t), path) == Handle(s2, Some(t), path)
  {
  }

  /** After `deleteSession(t)`, a request carrying `t` has no user and is turned away from `/dashboard`. */
  lemma DeletedTokenIsAnonymous(sessions: map<string, SessionUser>, t: string, path: string)
    ensures ResolveUser(sessions - {t}, Some(t)) == None
    ensures StartsWith(path, ProtectedPrefix) ==> Handle(sessions - {t}, Some(t), path) == Redirect(302, LoginPath)
  {
  }

  /** After `createSession(user)` returned `t`, a request carrying `t` resolves to `user`. */
  lemma CreatedTokenResolves(sessions: map<string, SessionUser>, t: string, user: SessionUser, path: string)
    requires |t| == TokenLength
    ensures ResolveUser(sessions[t := user], Some(t)) == Some(user)
    ensures Handle(sessions[t := user], Some(t), path) == Resolve(Some(user))
  {
  }

  class SessionStore {
    var sessions: map<string, SessionUser>

    constructor ()
      ensures sessions == map[]
    {
      sessions := map[];
    }

    /**
     * `createSession`: stores the user under the token (the random UUID, passed in) and returns
     * it; every other entry is kept.
     */
    method CreateSession(user: SessionUser, token: string) returns (t: string)
      requires |token| == TokenLength
      modifies this
      ensures t == token && sessions == old(sessions)[token := user]
    {
      sessions := sessions[token := user];
      t := token;
    }

    /** `deleteSession`: removes that token only; an unknown token changes nothing. */
    method DeleteSession(token: string)
      modifies this
      ensures sessions == old(sessions) - {token}
      ensures token !in old(sessions) ==> sessions == old(sessions)
    {
      sessions := sessions - {token};
    }
  }
}
