/**
 * The login page: `load` sends a signed-in visitor to the dashboard; the default action looks the
 * credentials up in a constant user table and either fails with 401 or opens a session, sets the
 * `session` cookie and redirects to the dashboard.
 */
module Login {
  import opened Optional
  import opened Sessions

  datatype User = User(id: string, name: string, email: string, password: string)

  /** The one hard-coded account. */
  const Users: seq<User> := [User("1", "홍길동", "hong@test.com", "password123")]

  const AuthError := "인증 실패"
  const DashboardPath := "/dashboard"
  /** `maxAge` of the session cookie: 60 * 60 * 24 seconds. */
  const SessionMaxAge := 60 * 60 * 24

  /** The `session` cookie as set on success. */
  datatype Cookie = Cookie(name: string, value: string, path: string, httpOnly: bool, sameSite: string, maxAge: int)

  /** What the login action answers. */
  datatype LoginResult =
    | LoginFailed(status: int, email: Option<string>, error: string)
    | LoggedIn(status: int, location: string, cookie: Cookie)

  /** What the login page's `load` answers: a redirect, or the empty page data `{}`. */
  datatype LoadResult = LoadRedirect(status: int, location: string) | EmptyPage

  /** Both submitted fields are present and equal to the user's email and password. */
  predicate Matches(u: User, email: Option<string>, password: Option<string>) {
    email == Some(u.email) && password == Some(u.password)
  }

  /** `users[i]` matches and no earlier entry does. */
  predicate FirstMatchAt(users: seq<User>, email: Option<string>, password: Option<string>, i: int) {
    0 <= i < |users| && Matches(users[i], email, password) &&
    forall j :: 0 <= j < i ==> !Matches(users[j], email, password)
  }

  /** `USERS.find(u => u.email === email && u.password === password)`: the first matching entry. */
  function FindUser(users: seq<User>, email: Option<string>, password: Option<string>): (r: Option<User>)
    ensures r.None? <==> forall u :: u in users ==> !Matches(u, email, password)
    ensures r.Some? ==> exists i :: FirstMatchAt(users, email, password, i) && users[i] == r.value
  {
    if users == [] then None
    else if Matches(users[0], email, password) then Some(users[0])
    else
      var r := FindUser(users[1..], email, password);
      assert r.Some? ==> exists i :: FirstMatchAt(users, email, password, i) && users[i] == r.value by {
        if r.Some? {
          var k :| FirstMatchAt(users[1..], email, password, k) && users[1..][k] == r.value;
          assert FirstMatchAt(users, email, password, k + 1);
        }
      }
      r
  }

  /** With the built-in table, exactly the one email/password pair is accepted. */
  lemma OnlyKnownCredentials(email: Option<string>, password: Option<string>)
    ensures FindUser(Users, email, password).Some? <==>
      email == Some("hong@test.com") && password == Some("password123")
  {
  }

  /** The session record of a user: everything but the password. */
  function SessionOf(u: User): SessionUser {
    SessionUser(u.id, u.name, u.email)
  }

  /** `load`: a resolved user is redirected (302) to the dashboard; otherwise the page gets `{}`. */
  function Load(user: Option<SessionUser>): (r: LoadResult)
    ensures r.LoadRedirect? <==> user.Some?
    ensures r.LoadRedirect? ==> r == LoadRedirect(302, DashboardPath)
  {
    if user.Some? then LoadRedirect(302, DashboardPath) else EmptyPage
  }

  /**
   * `actions.default`: unknown credentials answer 401 with the email echoed and open no session;
   * known ones store the user (without the password) under the fresh token, set the `session`
   * cookie for one day and redirect (302) to the dashboard.
   */
  method Submit(store: SessionStore, email: Option<string>, password: Option<string>, token: string)
    returns (r: LoginResult)
    requires |token| == TokenLength
    modifies store
    ensures match FindUser(Users, email, password)
      case None =>
        r == LoginFailed(401, email, AuthError) && store.sessions == old(store.sessions)
      case Some(u) =>
        store.sessions == old(store.sessions)[token := SessionOf(u)] &&
        r == LoggedIn(302, DashboardPath, Cookie("session", token, "/", true, "strict", SessionMaxAge))
    ensures r.LoggedIn? ==>
      ResolveUser(store.sessions, Some(r.cookie.value)).Some? &&
      Handle(store.sessions, Some(r.cookie.value), DashboardPath).Resolve?
  {
    var user := FindUser(Users, email, password);
    if user.None? {
      return LoginFailed(401, email, AuthError);
    }
    var u := user.value;
    var t := store.CreateSession(SessionOf(u), token);
    r := LoggedIn(302, DashboardPath, Cookie("session", t, "/", true, "strict", SessionMaxAge));
  }
}
