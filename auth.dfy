/**
 * The session held by the auth provider (src/context/AuthContext.tsx): three
 * state fields, the storage service it writes through, and the calls it makes
 * into the browser and the auth backend, recorded in order. Backend answers
 * and URL parameters are inputs.
 */
module Auth {
  import opened Wrappers
  import opened Types
  import opened Json
  import opened Storage

  /** Effects outside the provider's state: URL clean-up, redirects and the backend logout. */
  datatype ExternalCall = ClearOAuthParams | InitiateGoogleLogin | BackendLogout | NavigateHome

  /** The token verification request: it throws, or answers with a validity flag and maybe a user. */
  datatype VerifyOutcome = VerifyThrew | Verified(valid: bool, user: Option<User>)

  /** The user profile request: it throws, or answers with maybe a user. */
  datatype RefreshOutcome = RefreshThrew | Refreshed(user: Option<User>)

  /** The OAuth redirect's query parameters, already percent-decoded; an absent one is `None`. */
  datatype OAuthParams = OAuthParams(
    token: Option<string>,
    email: Option<string>,
    username: Option<string>,
    role: Option<string>,
    department: Option<string>,
    user: Option<string>,
    error: Option<string>)

  /** A query parameter that is present and not empty (truthy). */
  predicate Present(o: Option<string>) {
    o.Some? && o.value != ""
  }

  /** A user the provider accepts: `userData && userData.email && userData.username`. */
  predicate Acceptable(u: Option<User>) {
    u.Some? && u.value.email != "" && u.value.username != ""
  }

  const GenericAuthError := "Authentication error. Please try again."

  /** The message for an OAuth error code (src/context/AuthContext.tsx:142-148). */
  function OAuthErrorMessage(code: string): (msg: string)
    ensures code == "access_denied" ==> msg == "Access denied. Authentication failed."
    ensures code == "token_generation_failed" ==> msg == "Authentication failed. Please try again."
    ensures msg == GenericAuthError <==> code != "access_denied" && code != "token_generation_failed"
  {
    if code == "access_denied" then "Access denied. Authentication failed."
    else if code == "token_generation_failed" then "Authentication failed. Please try again."
    else GenericAuthError
  }

  /** The user built from an OAuth redirect before the `user` parameter is applied. */
  function OAuthDefaults(p: OAuthParams): (u: User)
    requires Present(p.email) && Present(p.username)
    ensures u.email == p.email.value && u.username == p.username.value && u.isGoogleAuth == Some(true)
    ensures u.role == Some(if Present(p.role) then p.role.value else "viewer")
    ensures u.department == Some(if Present(p.department) then p.department else None)
  {
    User(p.email.value, p.username.value,
         Some(if Present(p.role) then p.role.value else "viewer"),
         Some(if Present(p.department) then p.department else None),
         Some(true))
  }

  /**
   * The user an OAuth redirect installs (src/context/AuthContext.tsx:112-128):
   * the defaults, overridden member by member by a parseable `user` parameter.
   */
  function OAuthUser(p: OAuthParams): (u: User)
    requires Present(p.email) && Present(p.username)
  {
    var base := OAuthDefaults(p);
    if Present(p.user) then
      match ParseObject(p.user.value)
      case Some(ms) => Merge(base, ms)
      case None => base
    else base
  }

  /** Without a usable `user` parameter the defaults stand; with one, a field it does not name keeps its default. */
  lemma OAuthUserDefaults(p: OAuthParams)
    requires Present(p.email) && Present(p.username)
    ensures !Present(p.user) || ParseObject(p.user.value).None? ==> OAuthUser(p) == OAuthDefaults(p)
    ensures Present(p.user) && ParseObject(p.user.value).Some? ==>
              var ms := ParseObject(p.user.value).value;
              ((forall i :: 0 <= i < |ms| ==> ms[i].0 != "role") ==> OAuthUser(p).role == OAuthDefaults(p).role)
              && ((forall i :: 0 <= i < |ms| ==> ms[i].0 != "isGoogleAuth") ==> OAuthUser(p).isGoogleAuth == Some(true))
  {
    if Present(p.user) && ParseObject(p.user.value).Some? {
      MergeUntouched(OAuthDefaults(p), ParseObject(p.user.value).value);
    }
  }

  /** A member merge leaves alone every field whose key no member names. */
  lemma {:induction false} MergeUntouched(u: User, ms: seq<(string, Value)>)
    ensures (forall i :: 0 <= i < |ms| ==> ms[i].0 != "email") ==> Merge(u, ms).email == u.email
    ensures (forall i :: 0 <= i < |ms| ==> ms[i].0 != "role") ==> Merge(u, ms).role == u.role
    ensures (forall i :: 0 <= i < |ms| ==> ms[i].0 != "isGoogleAuth") ==> Merge(u, ms).isGoogleAuth == u.isGoogleAuth
    decreases |ms|
  {
    if ms != [] {
      MergeUntouched(Apply(u, ms[0]), ms[1..]);
      assert forall i :: 1 <= i < |ms| ==> ms[i] == ms[1..][i - 1];
    }
  }

  /** `Bearer <token>` (section 2.1 of RFC 6750), read back: the credentials after the scheme and one space. */
  function ParseBearer(header: string): Option<string> {
    if |header| >= 7 && header[..7] == "Bearer " then Some(header[7..]) else None
  }

  /**
   * The user `checkAuth` installs, given the stored token, the stored user and
   * the verification's outcome: the server's user after a valid answer, the
   * cached one after a failed request, and only when it has an email and a
   * username (src/context/AuthContext.tsx:78-103).
   */
  function CheckAuthInstalls(token: Option<string>, cached: Option<User>, outcome: VerifyOutcome): (u: Option<User>)
    ensures u.Some? ==> Acceptable(u) && Present(token) && cached.Some?
    ensures u.Some? && outcome.Verified? ==> outcome.valid && u == outcome.user
    ensures u.Some? && outcome.VerifyThrew? ==> u == cached
  {
    if Present(token) && cached.Some? then
      match outcome
      case Verified(valid, v) => if valid && Acceptable(v) then v else None
      case VerifyThrew => if Acceptable(cached) then cached else None
    else None
  }

  /** Whether `checkAuth` clears the stored session: an answer without a valid user, or a failed request with an incomplete cached user. */
  predicate CheckAuthClears(token: Option<string>, cached: Option<User>, outcome: VerifyOutcome) {
    Present(token) && cached.Some?
    && ((outcome.Verified? && !(outcome.valid && outcome.user.Some?)) || (outcome.VerifyThrew? && !Acceptable(cached)))
  }

  /** `checkAuth` never both installs a user and clears the session, and does neither without a stored token and user. */
  lemma CheckAuthExclusive(token: Option<string>, cached: Option<User>, outcome: VerifyOutcome)
    ensures !(CheckAuthInstalls(token, cached, outcome).Some? && CheckAuthClears(token, cached, outcome))
    ensures !(Present(token) && cached.Some?) ==>
              CheckAuthInstalls(token, cached, outcome).None? && !CheckAuthClears(token, cached, outcome)
  {
  }

  /** The local store `checkAuth` leaves on an available browser store. */
  function CheckedLocal(local: map<string, string>, token: Option<string>, cached: Option<User>, outcome: VerifyOutcome): map<string, string> {
    var installed := CheckAuthInstalls(token, cached, outcome);
    if installed.Some? then local[UserKey := EncodeUser(installed.value)]
    else if CheckAuthClears(token, cached, outcome) then local - {TokenKey, UserKey}
    else local
  }

  /** The session store `checkAuth` leaves on an available browser store. */
  function CheckedSession(session: map<string, string>, token: Option<string>, cached: Option<User>, outcome: VerifyOutcome): map<string, string> {
    if CheckAuthClears(token, cached, outcome) then session - {PreAuthKey} else session
  }

  /** A redirect that carries a token, an email and a username. */
  predicate RedirectSucceeds(p: OAuthParams) {
    Present(p.token) && Present(p.email) && Present(p.username)
  }

  /** The user a redirect installs: the OAuth user of a successful redirect, when it has an email and a username. */
  function RedirectInstalls(p: OAuthParams): (u: Option<User>)
    ensures u.Some? <==> RedirectSucceeds(p) && Acceptable(Some(OAuthUser(p)))
    ensures u.Some? ==> u.value == OAuthUser(p)
  {
    if RedirectSucceeds(p) && Acceptable(Some(OAuthUser(p))) then Some(OAuthUser(p)) else None
  }

  /** The local store `handleOAuthCallback` leaves on an available browser store. */
  function RedirectLocal(local: map<string, string>, p: OAuthParams): map<string, string> {
    if RedirectSucceeds(p) then
      var withToken := local[TokenKey := Quote(p.token.value)];
      if RedirectInstalls(p).Some? then withToken[UserKey := EncodeUser(OAuthUser(p))] else withToken
    else if Present(p.error) then local - {TokenKey, UserKey}
    else local
  }

  /** The session store `handleOAuthCallback` leaves on an available browser store. */
  function RedirectSession(session: map<string, string>, p: OAuthParams): map<string, string> {
    if !RedirectSucceeds(p) && Present(p.error) then session - {PreAuthKey} else session
  }

  /** Writing both the token and the user key erases whatever `checkAuth` did to them. */
  lemma CheckedLocalOverwritten(local: map<string, string>, token: Option<string>, cached: Option<User>, verify: VerifyOutcome,
                                t: string, u: string)
    ensures CheckedLocal(local, token, cached, verify)[TokenKey := t][UserKey := u] == local[TokenKey := t][UserKey := u]
  {
    var installed := CheckAuthInstalls(token, cached, verify);
    if installed.Some? {
      assert local[UserKey := EncodeUser(installed.value)][TokenKey := t][UserKey := u] == local[TokenKey := t][UserKey := u];
    } else if CheckAuthClears(token, cached, verify) {
      assert (local - {TokenKey, UserKey})[TokenKey := t][UserKey := u] == local[TokenKey := t][UserKey := u];
    }
  }

  /** After a redirect that installs a user, the stored token and user are the redirect's, whatever `checkAuth` did before. */
  lemma RedirectOverridesCheck(local: map<string, string>, token: Option<string>, cached: Option<User>, verify: VerifyOutcome,
                               p: OAuthParams)
    requires RedirectInstalls(p).Some?
    ensures RedirectLocal(CheckedLocal(local, token, cached, verify), p) == RedirectLocal(local, p)
    ensures TokenIn(RedirectLocal(local, p)) == Some(p.token.value)
    ensures UserIn(RedirectLocal(local, p)) == RedirectInstalls(p)
  {
    var t, u := Quote(p.token.value), EncodeUser(OAuthUser(p));
    var mid := CheckedLocal(local, token, cached, verify);
    assert RedirectLocal(mid, p) == mid[TokenKey := t][UserKey := u];
    assert RedirectLocal(local, p) == local[TokenKey := t][UserKey := u];
    CheckedLocalOverwritten(local, token, cached, verify, t, u);
    TokenRoundTrip(local, p.token.value);
    KeysIndependent(local[TokenKey := t], u);
    UserRoundTrip(local[TokenKey := t], OAuthUser(p));
  }

  /** After an error redirect, the token, the user and the saved location are gone, whatever `checkAuth` did before. */
  lemma ErrorRedirectClears(local: map<string, string>, session: map<string, string>,
                            token: Option<string>, cached: Option<User>, verify: VerifyOutcome, p: OAuthParams)
    requires !RedirectSucceeds(p) && Present(p.error)
    ensures RedirectLocal(CheckedLocal(local, token, cached, verify), p) == local - {TokenKey, UserKey}
    ensures RedirectSession(CheckedSession(session, token, cached, verify), p) == session - {PreAuthKey}
  {
  }

  class AuthProvider {
    var isAuthenticated: bool
    var isLoading: bool
    var user: Option<User>
    const store: StorageService
    /** Calls into the browser and the backend, oldest first. */
    var calls: seq<ExternalCall>

    /** The state as the provider first renders it: authenticated, loading, no user (src/context/AuthContext.tsx:45-47). */
    constructor(store: StorageService)
      ensures this.store == store && isAuthenticated && isLoading && user.None? && calls == []
      ensures UserComplete()
    {
      this.store := store;
      isAuthenticated, isLoading, user := true, true, None;
      calls := [];
    }

    /** The in-memory user, when there is one, has an email and a username. */
    predicate UserComplete()
      reads this
    {
      user.Some? ==> Acceptable(user)
    }

    /** `hasValidToken`: a truthy token and a stored user with an email (src/context/AuthContext.tsx:206-210). */
    function HasValidToken(): (ok: bool)
      reads this, store
      ensures ok <==> Present(store.Token()) && store.StoredUser().Some? && store.StoredUser().value.email != ""
    {
      var token := store.Token();
      var u := store.StoredUser();
      token.Some? && token.value != "" && u.Some? && u.value.email != ""
    }

    /** `getAuthHeader`: the Authorization value, present iff a truthy token is stored (src/context/AuthContext.tsx:213-216). */
    function AuthHeader(): (h: Option<string>)
      reads this, store
      ensures h.Some? <==> Present(store.Token())
      ensures h.Some? ==> ParseBearer(h.value) == store.Token()
    {
      var token := store.Token();
      if token.Some? && token.value != "" then
        var h := "Bearer " + token.value;
        assert h[..7] == "Bearer " && h[7..] == token.value;
        Some(h)
      else None
    }

    /** Installs a user that has an email and a username, and stores it; refuses any other (src/context/AuthContext.tsx:49-61). */
    method SetUserData(u: Option<User>) returns (accepted: bool)
      modifies this, store
      ensures accepted <==> Acceptable(u)
      ensures accepted ==> user == u && isAuthenticated
      ensures accepted ==> store.local == (if store.available then old(store.local)[UserKey := EncodeUser(u.value)] else old(store.local))
      ensures !accepted ==> user == old(user) && isAuthenticated == old(isAuthenticated) && store.local == old(store.local)
      ensures accepted && store.available ==> store.StoredUser() == u
      ensures store.Token() == old(store.Token())
      ensures store.session == old(store.session) && store.available == old(store.available)
      ensures isLoading == old(isLoading) && calls == old(calls)
      ensures old(UserComplete()) ==> UserComplete()
    {
      if Acceptable(u) {
        user := u;
        isAuthenticated := true;
        store.SetUser(u.value);
        return true;
      }
      return false;
    }

    /** `clearAuth`: only the stored auth data goes; the in-memory state stays (src/context/AuthContext.tsx:183-185). */
    method ClearAuth()
      modifies store
      ensures store.available ==> store.local == old(store.local) - {TokenKey, UserKey}
                                  && store.session == old(store.session) - {PreAuthKey}
      ensures !store.available ==> store.local == old(store.local) && store.session == old(store.session)
      ensures store.available == old(store.available)
      ensures isAuthenticated == old(isAuthenticated) && user == old(user) && isLoading == old(isLoading)
    {
      store.ClearAuthData();
    }

    /**
     * `checkAuth` once verification settles (src/context/AuthContext.tsx:78-103):
     * nothing without both a stored token and a stored user; a valid answer
     * installs the server's user, an invalid one clears storage; if verification
     * throws, the cached user is reinstated when it has an email and a username.
     */
    method CheckAuth(outcome: VerifyOutcome)
      modifies this, store
      ensures var installed := CheckAuthInstalls(old(store.Token()), old(store.StoredUser()), outcome);
              installed.Some? ==> user == installed && isAuthenticated
      ensures var installed := CheckAuthInstalls(old(store.Token()), old(store.StoredUser()), outcome);
              installed.None? ==> user == old(user) && isAuthenticated == old(isAuthenticated)
      ensures store.available ==>
                store.local == CheckedLocal(old(store.local), old(store.Token()), old(store.StoredUser()), outcome)
                && store.session == CheckedSession(old(store.session), old(store.Token()), old(store.StoredUser()), outcome)
      ensures !store.available ==> store.local == old(store.local) && store.session == old(store.session)
      ensures store.available == old(store.available) && isLoading == old(isLoading) && calls == old(calls)
      ensures old(UserComplete()) ==> UserComplete()
    {
      var token := store.GetToken();
      var cached := store.GetUser();
      if token.Some? && token.value != "" && cached.Some? {
        match outcome
        case Verified(valid, u) =>
          if valid && u.Some? {
            var _ := SetUserData(u);
          } else {
            ClearAuth();
          }
        case VerifyThrew =>
          if cached.value.email != "" && cached.value.username != "" {
            var _ := SetUserData(cached);
          } else {
            ClearAuth();
          }
      }
    }

    /**
     * `handleOAuthCallback` (src/context/AuthContext.tsx:105-155): with a token,
     * an email and a username, store the token, install the user and clean the
     * URL; otherwise, with an error code, clear storage and clean the URL.
     * The returned message stands for the one the source only passes to
     * `console.error`; nothing displays it.
     */
    method HandleOAuthCallback(p: OAuthParams) returns (errorMessage: Option<string>)
      modifies this, store
      ensures RedirectSucceeds(p) ==> errorMessage.None? && calls == old(calls) + [ClearOAuthParams]
      ensures !RedirectSucceeds(p) ==>
                errorMessage == (if Present(p.error) then Some(OAuthErrorMessage(p.error.value)) else None)
                && calls == old(calls) + (if Present(p.error) then [ClearOAuthParams] else [])
      ensures RedirectInstalls(p).Some? ==> user == RedirectInstalls(p) && isAuthenticated
      ensures RedirectInstalls(p).None? ==> user == old(user) && isAuthenticated == old(isAuthenticated)
      ensures store.available ==>
                store.local == RedirectLocal(old(store.local), p) && store.session == RedirectSession(old(store.session), p)
      ensures RedirectSucceeds(p) && store.available ==> store.Token() == Some(p.token.value)
      ensures RedirectInstalls(p).Some? && store.available ==> store.StoredUser() == RedirectInstalls(p)
      ensures !store.available ==> store.local == old(store.local) && store.session == old(store.session)
      ensures store.available == old(store.available) && isLoading == old(isLoading)
      ensures old(UserComplete()) ==> UserComplete()
    {
      if Present(p.token) && Present(p.email) && Present(p.username) {
        var u := OAuthUser(p);
        store.SetToken(p.token.value);
        var _ := SetUserData(Some(u));
        calls := calls + [ClearOAuthParams];
        errorMessage := None;
      } else if Present(p.error) {
        errorMessage := Some(OAuthErrorMessage(p.error.value));
        ClearAuth();
        calls := calls + [ClearOAuthParams];
      } else {
        errorMessage := None;
      }
    }
    /**
     * `logout` (src/context/AuthContext.tsx:167-181): tell the backend, clear
     * storage, forget the user, go home. A failed backend call is swallowed,
     * so it is recorded either way.
     */
    method Logout()
      modifies this, store
      ensures !isAuthenticated && user.None? && isLoading == old(isLoading)
      ensures calls == old(calls) + [BackendLogout, NavigateHome]
      ensures store.available ==> store.local == old(store.local) - {TokenKey, UserKey}
                                  && store.session == old(store.session) - {PreAuthKey}
      ensures !store.available ==> store.local == old(store.local) && store.session == old(store.session)
      ensures store.available == old(store.available)
      ensures UserComplete()
    {
      calls := calls + [BackendLogout];
      ClearAuth();
      isAuthenticated := false;
      user := None;
      calls := calls + [NavigateHome];
    }

    /**
     * `refreshUser` (src/context/AuthContext.tsx:187-200): an answer goes
     * through `setUserData` and is returned; a failure clears everything and
     * is passed on, here as `None`.
     */
    method RefreshUser(outcome: RefreshOutcome) returns (r: Option<Option<User>>)
      modifies this, store
      ensures outcome.Refreshed? ==> r == Some(outcome.user)
      ensures outcome.Refreshed? && Acceptable(outcome.user) ==>
                user == outcome.user && isAuthenticated
                && (store.available ==> store.local == old(store.local)[UserKey := EncodeUser(outcome.user.value)]
                                        && store.StoredUser() == outcome.user)
      ensures outcome.Refreshed? && !Acceptable(outcome.user) ==>
                user == old(user) && isAuthenticated == old(isAuthenticated) && store.local == old(store.local)
      ensures outcome.Refreshed? ==> store.session == old(store.session)
      ensures outcome.RefreshThrew? ==> r.None? && user.None? && !isAuthenticated
      ensures outcome.RefreshThrew? && store.available ==>
                store.local == old(store.local) - {TokenKey, UserKey} && store.session == old(store.session) - {PreAuthKey}
      ensures !store.available ==> store.local == old(store.local) && store.session == old(store.session)
      ensures store.available == old(store.available) && isLoading == old(isLoading) && calls == old(calls)
      ensures old(UserComplete()) ==> UserComplete()
    {
      match outcome
      case Refreshed(u) =>
        var _ := SetUserData(u);
        r := Some(u);
      case RefreshThrew =>
        ClearAuth();
        isAuthenticated := false;
        user := None;
        r := None;
    }

    /** `updateUser` is `setUserData` (src/context/AuthContext.tsx:202-204). */
    method UpdateUser(u: User) returns (accepted: bool)
      modifies this, store
      ensures accepted <==> Acceptable(Some(u))
      ensures accepted ==> user == Some(u) && isAuthenticated && (store.available ==> store.StoredUser() == Some(u))
      ensures !accepted ==> user == old(user) && isAuthenticated == old(isAuthenticated) && store.local == old(store.local)
      ensures isLoading == old(isLoading) && calls == old(calls)
      ensures old(UserComplete()) ==> UserComplete()
    {
      accepted := SetUserData(Some(u));
      if accepted && store.available {
        UserRoundTrip(old(store.local), u);
      }
    }

    /** `loginWithGoogle`: loading, remember where the user was, hand over to the OAuth flow (src/context/AuthContext.tsx:157-165). */
    method LoginWithGoogle(pathname: string)
      modifies this, store
      ensures isLoading && isAuthenticated == old(isAuthenticated) && user == old(user)
      ensures calls == old(calls) + [InitiateGoogleLogin]
      ensures store.available ==> store.session == old(store.session)[PreAuthKey := pathname]
      ensures !store.available ==> store.session == old(store.session)
      ensures store.local == old(store.local) && store.available == old(store.available)
      ensures old(UserComplete()) ==> UserComplete()
    {
      isLoading := true;
      store.SetSessionItem(PreAuthKey, pathname);
      calls := calls + [InitiateGoogleLogin];
    }

    /**
     * The mount effect (src/context/AuthContext.tsx:63-76): `checkAuth`, then
     * `handleOAuthCallback`, then loading ends. A redirect that installs a user
     * overwrites whatever the check left in the token and user keys
     * (`RedirectOverridesCheck`); an error redirect clears them
     * (`ErrorRedirectClears`); without either, the check's outcome stands.
     * The returned message is the logged one of `HandleOAuthCallback`.
     */
    method Initialize(verify: VerifyOutcome, p: OAuthParams) returns (errorMessage: Option<string>)
      modifies this, store
      ensures !isLoading
      ensures RedirectSucceeds(p) ==> errorMessage.None? && calls == old(calls) + [ClearOAuthParams]
      ensures !RedirectSucceeds(p) ==>
                errorMessage == (if Present(p.error) then Some(OAuthErrorMessage(p.error.value)) else None)
                && calls == old(calls) + (if Present(p.error) then [ClearOAuthParams] else [])
      ensures RedirectInstalls(p).Some? ==> user == RedirectInstalls(p) && isAuthenticated
      ensures var checked := CheckAuthInstalls(old(store.Token()), old(store.StoredUser()), verify);
              RedirectInstalls(p).None? && checked.Some? ==> user == checked && isAuthenticated
      ensures var checked := CheckAuthInstalls(old(store.Token()), old(store.StoredUser()), verify);
              RedirectInstalls(p).None? && checked.None? ==> user == old(user) && isAuthenticated == old(isAuthenticated)
      ensures var token, cached := old(store.Token()), old(store.StoredUser());
              store.available ==>
                store.local == RedirectLocal(CheckedLocal(old(store.local), token, cached, verify), p)
                && store.session == RedirectSession(CheckedSession(old(store.session), token, cached, verify), p)
      ensures RedirectSucceeds(p) && store.available ==> store.Token() == Some(p.token.value)
      ensures RedirectInstalls(p).Some? && store.available ==> store.StoredUser() == RedirectInstalls(p)
      ensures !store.available ==> store.local == old(store.local) && store.session == old(store.session)
      ensures store.available == old(store.available)
      ensures old(UserComplete()) ==> UserComplete()
    {
      CheckAuth(verify);
      errorMessage := HandleOAuthCallback(p);
      isLoading := false;
    }
  }

  /** The header carries the stored token back out (section 2.1 of RFC 6750). */
  lemma BearerRoundTrip(token: string)
    requires token != ""
    ensures ParseBearer("Bearer " + token) == Some(token)
  {
    var h := "Bearer " + token;
    assert h[..7] == "Bearer " && h[7..] == token;
  }
}
