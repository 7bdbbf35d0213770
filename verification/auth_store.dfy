/** The session store: who is logged in, the loading and error flags, and
    the session token kept under the `auth_token` key of local storage.

    Token signing and verification are not modelled: signed token strings
    arrive as parameters and the verifier's verdict as a `JwtCheck`. The
    clock is a parameter `now` (epoch milliseconds) and ISO timestamps a
    parameter `nowIso`. Each action runs to completion before the next. */
module AuthStore {
  import opened Common

  /** Lifetime of an access token: one hour in milliseconds. */
  const ONE_HOUR_MS: int := 60 * 60 * 1000

  const DEMO_USER_ID: string := "demo-user-1"
  const DEMO_USER_NAME: string := "Demo User"
  /** The e-mail of the user that `checkAuth` synthesises in demo mode. */
  const DEMO_RESTORED_EMAIL: string := "demo@example.com"
  const AUTH_FAILED: string := "Authentication failed"
  const LOGIN_FAILED: string := "Login failed"

  datatype User = User(id: string, email: string, name: string, createdAt: string, lastLogin: string)

  /** A session token; `expiresAt` is in epoch milliseconds. */
  datatype Token = Token(accessToken: string, refreshToken: string, expiresAt: int)

  /** What local storage holds under `auth_token` when the key is present:
      text that parses as a token, or text that `JSON.parse` rejects. */
  datatype TokenEntry = Entry(token: Token) | Garbled

  datatype Credentials = Credentials(email: string, password: string)

  /** The body of an ok reply from the authentication endpoint. */
  datatype LoginReply = LoginReply(user: User, token: Token)

  /** The verdict of the JWT library on an access token: it returns, or it throws. */
  datatype JwtCheck = Accepted | Rejected(reason: Thrown)

  /** The store's fields together with the `auth_token` entry. */
  datatype AuthState = AuthState(
    user: Option<User>,
    isAuthenticated: bool,
    isLoading: bool,
    error: Option<string>,
    storedToken: Option<TokenEntry>)

  /** The slice written to the `auth-storage` key. */
  datatype PersistedAuth = PersistedAuth(user: Option<User>, isAuthenticated: bool)

  // ---------------------------------------------------------------- tokens

  /** The token `createToken` returns for already signed strings, issued at `now`. */
  function CreateToken(accessToken: string, refreshToken: string, now: int): (t: Token)
    ensures t.accessToken == accessToken && t.refreshToken == refreshToken
    ensures t.expiresAt - now == ONE_HOUR_MS
  {
    Token(accessToken, refreshToken, now + ONE_HOUR_MS)
  }

  /** The expiry test of `checkAuth`: strictly after `expiresAt`, so a
      token is still current at the very millisecond it expires. */
  predicate Expired(t: Token, now: int): (expired: bool)
    ensures now <= t.expiresAt ==> !expired
    ensures now >= t.expiresAt + 1 ==> expired
  {
    now > t.expiresAt
  }

  /** A freshly issued token fails `checkAuth`'s expiry test exactly once
      more than an hour has passed. */
  lemma FreshTokenLifetime(accessToken: string, refreshToken: string, issuedAt: int, now: int)
    ensures Expired(CreateToken(accessToken, refreshToken, issuedAt), now) <==> now - issuedAt > ONE_HOUR_MS
    ensures !Expired(CreateToken(accessToken, refreshToken, issuedAt), issuedAt + ONE_HOUR_MS)
  {
  }

  /** `verifyToken`: the library's exception is caught, so the answer is a
      plain boolean, true only when the library accepted the token. */
  function VerifyToken(check: JwtCheck): (valid: bool)
    ensures valid <==> check.Accepted?
    ensures check.Rejected? ==> !valid
  {
    match check
    case Accepted => true
    case Rejected(_) => false
  }

  /** The user that demo mode synthesises; both timestamps are the current time. */
  function DemoUser(email: string, nowIso: string): (u: User)
    ensures u.id == DEMO_USER_ID && u.name == DEMO_USER_NAME && u.email == email
    ensures u.createdAt == nowIso && u.lastLogin == nowIso
  {
    User(DEMO_USER_ID, email, DEMO_USER_NAME, nowIso, nowIso)
  }

  // ------------------------------------------------- state-level functions

  /** The state `logout` leaves: token removed, user, flag and error cleared,
      `isLoading` as it was. */
  function LoggedOut(s: AuthState): (r: AuthState)
    ensures r.storedToken.None? && r.user.None? && !r.isAuthenticated && r.error.None?
    ensures r.isLoading == s.isLoading
  {
    AuthState(None, false, s.isLoading, None, None)
  }

  /** Logging out twice is logging out once. */
  lemma LogoutIdempotent(s: AuthState)
    ensures LoggedOut(LoggedOut(s)) == LoggedOut(s)
  {
  }

  /** Whatever came before, two states with the same `isLoading` log out
      to the same state. */
  lemma LogoutForgetsHistory(s: AuthState, s': AuthState)
    requires s.isLoading == s'.isLoading
    ensures LoggedOut(s) == LoggedOut(s')
  {
  }

  /** The state `refreshToken` leaves. In demo mode the stored token keeps
      its strings and gets a new expiry; otherwise the refresh endpoint's
      reply replaces it. A missing or unparseable entry, a non-ok reply or
      a rejection logs out. `isLoading` is never touched. */
  function Refreshed(s: AuthState, demoMode: bool, now: int, reply: HttpOutcome<Token>): (r: AuthState)
    ensures r.isLoading == s.isLoading
    ensures r == LoggedOut(s) || (r.user == s.user && r.isAuthenticated == s.isAuthenticated && r.error == s.error)
    ensures (s.storedToken.None? || s.storedToken == Some(Garbled)) ==> r == LoggedOut(s)
    ensures s.storedToken.Some? && s.storedToken.value.Entry? && demoMode ==>
      var t := s.storedToken.value.token;
      && r.storedToken == Some(Entry(Token(t.accessToken, t.refreshToken, now + ONE_HOUR_MS)))
      && r.user == s.user && r.isAuthenticated == s.isAuthenticated && r.error == s.error
    ensures s.storedToken.Some? && s.storedToken.value.Entry? && !demoMode ==>
      (reply.Ok? ==> r == s.(storedToken := Some(Entry(reply.body))))
      && (!reply.Ok? ==> r == LoggedOut(s))
  {
    match s.storedToken
    case None => LoggedOut(s)
    case Some(Garbled) => LoggedOut(s)
    case Some(Entry(t)) =>
      if demoMode then
        s.(storedToken := Some(Entry(t.(expiresAt := now + ONE_HOUR_MS))))
      else
        match reply
        case Ok(renewed) => s.(storedToken := Some(Entry(renewed)))
        case NotOk => LoggedOut(s)
        case Threw(_) => LoggedOut(s)
  }

  /** In demo mode an expired but readable session is renewed, not ended,
      and the renewed token passes `checkAuth`'s expiry test until exactly
      `now` plus one hour. */
  lemma DemoRefreshKeepsSession(s: AuthState, now: int, reply: HttpOutcome<Token>, later: int)
    requires s.storedToken.Some? && s.storedToken.value.Entry?
    ensures var r := Refreshed(s, true, now, reply);
      && r.user == s.user && r.isAuthenticated == s.isAuthenticated
      && r.storedToken.Some? && r.storedToken.value.Entry?
      && (Expired(r.storedToken.value.token, later) <==> later > now + ONE_HOUR_MS)
  {
  }

  /** `partialize`: only the user and the authenticated flag are persisted. */
  function Partialize(s: AuthState): (p: PersistedAuth)
    ensures p.user == s.user && p.isAuthenticated == s.isAuthenticated
  {
    PersistedAuth(s.user, s.isAuthenticated)
  }

  /** The state the store starts in: the initial values, overwritten by the
      persisted slice when one was saved, beside whatever `auth_token` holds. */
  function Rehydrate(saved: Option<PersistedAuth>, storedToken: Option<TokenEntry>): (s: AuthState)
    ensures !s.isLoading && s.error.None? && s.storedToken == storedToken
    ensures saved.None? ==> s.user.None? && !s.isAuthenticated
    ensures saved.Some? ==> Partialize(s) == saved.value
  {
    match saved
    case None => AuthState(None, false, false, None, storedToken)
    case Some(p) => AuthState(p.user, p.isAuthenticated, false, None, storedToken)
  }

  /** Persisting and reloading gives back exactly the states that are not
      loading and carry no error. */
  lemma PersistRoundTrip(s: AuthState)
    ensures Rehydrate(Some(Partialize(s)), s.storedToken) == s <==> (!s.isLoading && s.error.None?)
  {
  }

  /** The session invariant: a user is present exactly when authenticated. */
  predicate Coherent(s: AuthState) {
    s.isAuthenticated <==> s.user.Some?
  }

  // ------------------------------------------------------------ the store

  class Store {
    /** `config.DEMO_MODE`, fixed when the application starts. */
    const demoMode: bool

    var user: Option<User>
    var isAuthenticated: bool
    var isLoading: bool
    var error: Option<string>
    /** Local storage under `auth_token`. */
    var storedToken: Option<TokenEntry>

    function State(): AuthState
      reads this
    {
      AuthState(user, isAuthenticated, isLoading, error, storedToken)
    }

    constructor (demoMode: bool, saved: Option<PersistedAuth>, storedToken: Option<TokenEntry>)
      ensures this.demoMode == demoMode
      ensures State() == Rehydrate(saved, storedToken)
      ensures (saved.None? || (saved.value.isAuthenticated <==> saved.value.user.Some?)) ==> Coherent(State())
    {
      this.demoMode := demoMode;
      var s := Rehydrate(saved, storedToken);
      user := s.user;
      isAuthenticated := s.isAuthenticated;
      isLoading := false;
      error := None;
      this.storedToken := storedToken;
    }

    /** `login`. `accessToken`/`refreshToken` are the strings the signer
        would produce and `reply` the authentication endpoint's outcome;
        demo mode uses the former and ignores the latter. */
    method Login(credentials: Credentials, now: int, nowIso: string,
                 accessToken: string, refreshToken: string, reply: HttpOutcome<LoginReply>)
      modifies this
      ensures !isLoading
      ensures Coherent(old(State())) ==> Coherent(State())
      ensures demoMode ==>
        && user == Some(DemoUser(credentials.email, nowIso)) && isAuthenticated && error.None?
        && storedToken == Some(Entry(CreateToken(accessToken, refreshToken, now)))
      ensures !demoMode && reply.Ok? ==>
        && user == Some(reply.body.user) && isAuthenticated && error.None?
        && storedToken == Some(Entry(reply.body.token))
      ensures !demoMode && !reply.Ok? ==>
        && user == old(user) && isAuthenticated == old(isAuthenticated)
        && storedToken == old(storedToken)
        && error == Some(if reply.NotOk? then AUTH_FAILED else ErrorMessage(reply.thrown, LOGIN_FAILED))
    {
      isLoading, error := true, None;
      if demoMode {
        var mockUser := DemoUser(credentials.email, nowIso);
        var token := CreateToken(accessToken, refreshToken, now);
        storedToken := Some(Entry(token));
        user, isAuthenticated, isLoading := Some(mockUser), true, false;
        return;
      }
      var failure: Thrown;
      match reply {
        case Ok(body) =>
          storedToken := Some(Entry(body.token));
          user, isAuthenticated, isLoading := Some(body.user), true, false;
          return;
        case NotOk =>
          failure := ErrorValue(AUTH_FAILED);
        case Threw(e) =>
          failure := e;
      }
      error, isLoading := Some(ErrorMessage(failure, LOGIN_FAILED)), false;
    }

    /** `logout`, from any state. */
    method Logout()
      modifies this
      ensures State() == LoggedOut(old(State()))
      ensures Coherent(State())
    {
      storedToken := None;
      user, isAuthenticated, error := None, false, None;
    }

    /** `refreshToken`; `reply` is the refresh endpoint's outcome. */
    method RefreshToken(now: int, reply: HttpOutcome<Token>)
      modifies this
      ensures State() == Refreshed(old(State()), demoMode, now, reply)
      ensures Coherent(old(State())) ==> Coherent(State())
    {
      match storedToken {
        case None =>
          Logout();
        case Some(Garbled) =>
          Logout();
        case Some(Entry(t)) =>
          if demoMode {
            storedToken := Some(Entry(t.(expiresAt := now + ONE_HOUR_MS)));
            return;
          }
          match reply {
            case Ok(renewed) =>
              storedToken := Some(Entry(renewed));
            case NotOk =>
              Logout();
            case Threw(_) =>
              Logout();
          }
      }
    }

    /** `checkAuth`. `jwt` is the verifier's verdict on the stored access
        token and `refreshReply` the refresh endpoint's outcome should the
        token have expired. The `finally` clause leaves `isLoading` false. */
    method CheckAuth(now: int, nowIso: string, jwt: JwtCheck, refreshReply: HttpOutcome<Token>)
      modifies this
      ensures !isLoading
      ensures Coherent(old(State())) ==> Coherent(State())
      ensures old(storedToken).None? ==> State() == old(State()).(isLoading := false)
      ensures old(storedToken) == Some(Garbled) ==> State() == LoggedOut(old(State())).(isLoading := false)
      ensures old(storedToken).Some? && old(storedToken).value.Entry? ==>
        var t := old(storedToken).value.token;
        && (Expired(t, now) ==>
              State() == Refreshed(old(State()), demoMode, now, refreshReply).(isLoading := false))
        && (!Expired(t, now) && !VerifyToken(jwt) ==>
              State() == LoggedOut(old(State())).(isLoading := false))
        && (!Expired(t, now) && VerifyToken(jwt) && demoMode ==>
              State() == old(State()).(user := Some(DemoUser(DEMO_RESTORED_EMAIL, nowIso)),
                                       isAuthenticated := true, isLoading := false))
        && (!Expired(t, now) && VerifyToken(jwt) && !demoMode ==>
              State() == old(State()).(isLoading := false))
    {
      isLoading := true;
      match storedToken {
        case None =>
          isLoading := false;
        case Some(Garbled) =>
          Logout();
        case Some(Entry(t)) =>
          if now > t.expiresAt {
            RefreshToken(now, refreshReply);
          } else if !VerifyToken(jwt) {
            Logout();
          } else if demoMode {
            var mockUser := DemoUser(DEMO_RESTORED_EMAIL, nowIso);
            user, isAuthenticated, isLoading := Some(mockUser), true, false;
          }
      }
      isLoading := false;
    }
  }
}
