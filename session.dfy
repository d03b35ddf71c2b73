/**
 * The cloud session lifecycle: the session the login handshake stores,
 * the lazy refresh decision of `refreshTokenIfNeeded` (a refresh-token
 * grant, section 6 of RFC 6749, answered as in section 5.1), and the
 * login window's poll-until-resolved state machine.
 */
module Session {
  import opened Wrappers
  import opened JsValues
  import opened Records
  import Store

  const WEB_APP_URL := "https://www.rustinsight.net"
  /** A token expiring within this many seconds is refreshed before use. */
  const REFRESH_MARGIN := 300
  /** Lifetime assumed, in seconds, when the backend does not say. */
  const DEFAULT_LIFETIME := 3600
  const LOGIN_CANCELLED := "Login cancelled"

  // ------------------------------------------------------------ login

  /** `window.__DESKTOP_AUTH_DATA__` as the callback page exposes it; absent strings are `""`, an absent expiry `0`. */
  datatype AuthData = AuthData(
    success: bool, accessToken: string, refreshToken: string, expiresAt: int,
    userId: string, email: string, name: string)

  datatype User = User(id: string, email: string, name: Option<string>)

  /** The session stored on a successful handshake. */
  function LoginSession(a: AuthData, nowMs: int): (s: CloudSession)
    ensures s.access_token == a.accessToken && s.refresh_token == a.refreshToken
    ensures s.web_app_url == WEB_APP_URL
    ensures a.expiresAt != 0 ==> s.expires_at == a.expiresAt
    ensures a.expiresAt == 0 ==> s.expires_at == EpochSeconds(nowMs) + DEFAULT_LIFETIME
  {
    CloudSession(a.accessToken, a.refreshToken, OrElseNum(a.expiresAt, EpochSeconds(nowMs) + DEFAULT_LIFETIME), WEB_APP_URL)
  }

  function LoginUser(a: AuthData): (u: User)
    ensures u.id == a.userId && u.email == a.email
    ensures u.name.Some? <==> a.name != ""
    ensures a.name != "" ==> u.name == Some(a.name)
  {
    User(a.userId, a.email, if a.name != "" then Some(a.name) else None)
  }

  // ---------------------------------------------------------- refresh

  /** The backend's answer to the refresh request: `expires_in` is `0` when absent. */
  datatype TokenBody = TokenBody(access_token: string, refresh_token: string, expires_in: int)

  /** A transport failure (`fetch` rejects), or a status with a body that did or did not parse. */
  datatype RefreshResponse = RefreshUnreachable | RefreshAnswer(status: int, body: Option<TokenBody>)

  datatype RefreshRequest = RefreshRequest(refresh_token: string)

  /**
   * What `refreshTokenIfNeeded` returns, the request it sends (if any),
   * and the session the store holds afterwards.
   */
  datatype RefreshResult = RefreshResult(token: Option<string>, request: Option<RefreshRequest>, session: Option<CloudSession>)

  /** The cached access token is still good: a known expiry more than the margin away. */
  predicate StillFresh(s: CloudSession, nowSec: int) {
    s.expires_at != 0 && s.expires_at > nowSec + REFRESH_MARGIN
  }

  /** The session after a successful refresh: the new tokens, `expires_in` (default 3600) seconds after the answer, the same URL. */
  function Refreshed(s: CloudSession, b: TokenBody, answeredAtMs: int): CloudSession {
    CloudSession(b.access_token, b.refresh_token, EpochSeconds(answeredAtMs) + OrElseNum(b.expires_in, DEFAULT_LIFETIME), s.web_app_url)
  }

  /**
   * `refreshTokenIfNeeded`, with the clock read at the decision
   * (`decidedAtMs`) and again when the answer arrives (`answeredAtMs`),
   * and the endpoint's behaviour given as `response`.
   */
  function RefreshTokenIfNeeded(session: Option<CloudSession>, decidedAtMs: int, response: RefreshResponse, answeredAtMs: int): (r: RefreshResult)
    // no session: null, nothing sent, nothing written
    ensures session.None? ==> r == RefreshResult(None, None, None)
    // a fresh session: its cached token, nothing sent, nothing written
    ensures session.Some? && StillFresh(session.value, EpochSeconds(decidedAtMs)) ==>
      r == RefreshResult(Some(session.value.access_token), None, session)
    // a stale session without a refresh token: null, nothing sent, nothing written
    ensures session.Some? && !StillFresh(session.value, EpochSeconds(decidedAtMs)) && session.value.refresh_token == "" ==>
      r == RefreshResult(None, None, session)
    // a request goes out exactly for a stale session that has a refresh token, and carries that token
    ensures r.request.Some? <==> session.Some? && !StillFresh(session.value, EpochSeconds(decidedAtMs)) && session.value.refresh_token != ""
    ensures r.request.Some? ==> r.request.value.refresh_token == session.value.refresh_token
    // the session only changes by a successful refresh
    ensures r.session != session ==> r.request.Some? && response.RefreshAnswer? && StatusOk(response.status) && response.body.Some?
    ensures r.token.None? ==> r.session == session
    // once sent, an ok answer with a parsed body is stored and its token returned; anything else gives null
    ensures r.request.Some? && response.RefreshAnswer? && StatusOk(response.status) && response.body.Some? ==>
      r.token.Some? && r.session == Some(Refreshed(session.value, response.body.value, answeredAtMs))
    ensures r.request.Some? && !(response.RefreshAnswer? && StatusOk(response.status) && response.body.Some?) ==>
      r.token.None? && r.session == session
    // a cached token is only handed out while fresh
    ensures r.request.None? && r.token.Some? ==> session.Some? && StillFresh(session.value, EpochSeconds(decidedAtMs))
    // what is returned is what is stored, and the web app URL survives
    ensures r.token.Some? ==> r.session.Some? && r.token.value == r.session.value.access_token
    ensures r.session.Some? ==> session.Some? && r.session.value.web_app_url == session.value.web_app_url
    // a refreshed session expires `expires_in` (default 3600) seconds after the answer
    ensures r.request.Some? && r.token.Some? ==>
      && response.RefreshAnswer? && StatusOk(response.status) && response.body.Some?
      && r.session.value.access_token == response.body.value.access_token
      && r.session.value.refresh_token == response.body.value.refresh_token
      && r.session.value.expires_at == EpochSeconds(answeredAtMs) + OrElseNum(response.body.value.expires_in, DEFAULT_LIFETIME)
  {
    match session
    case None => RefreshResult(None, None, None)
    case Some(s) =>
      if StillFresh(s, EpochSeconds(decidedAtMs)) then RefreshResult(Some(s.access_token), None, session)
      else if s.refresh_token == "" then RefreshResult(None, None, session)
      else
        var request := Some(RefreshRequest(s.refresh_token));
        match response
        case RefreshUnreachable => RefreshResult(None, request, session)
        case RefreshAnswer(status, body) =>
          if !StatusOk(status) || body.None? then RefreshResult(None, request, session)
          else
            var s' := Refreshed(s, body.value, answeredAtMs);
            RefreshResult(Some(s'.access_token), request, Some(s'))
  }

  /** `refreshTokenIfNeeded` against the store: reads the session and writes back the refreshed one. */
  method RefreshStoredToken(store: Store.PersistentStore, decidedAtMs: int, response: RefreshResponse, answeredAtMs: int)
    returns (token: Option<string>)
    modifies store
    ensures var r := RefreshTokenIfNeeded(old(store.cloudSession), decidedAtMs, response, answeredAtMs);
      token == r.token && store.cloudSession == r.session
    ensures store.servers == old(store.servers) && store.entities == old(store.entities)
  {
    var r := RefreshTokenIfNeeded(store.cloudSession, decidedAtMs, response, answeredAtMs);
    if r.request.Some? && r.token.Some? {
      store.SetSession(r.session);
    }
    token := r.token;
  }

  /**
   * A login that came without an expiry is served from cache, with no
   * request, for as long as the clock stays within 3300 seconds of the
   * login (the assumed hour minus the refresh margin), and is refreshed
   * from then on.
   */
  lemma LoginDefaultExpiryServesCache(a: AuthData, loginMs: int, laterMs: int, response: RefreshResponse, answeredAtMs: int)
    requires a.expiresAt == 0 && loginMs >= 0
    ensures var r := RefreshTokenIfNeeded(Some(LoginSession(a, loginMs)), laterMs, response, answeredAtMs);
      (r.request.None? && r.token == Some(a.accessToken)) <==>
      EpochSeconds(laterMs) < EpochSeconds(loginMs) + DEFAULT_LIFETIME - REFRESH_MARGIN
  {
  }

  /**
   * The worked example: a session expiring in 100 seconds with refresh
   * token `R` is refreshed to `A2`/`R2`, expiring an hour after the answer.
   */
  lemma RefreshScenario(url: string, nowSec: int)
    ensures var s := CloudSession("A", "R", nowSec + 100, url);
      RefreshTokenIfNeeded(Some(s), nowSec * 1000, RefreshAnswer(200, Some(TokenBody("A2", "R2", 3600))), nowSec * 1000)
      == RefreshResult(Some("A2"), Some(RefreshRequest("R")), Some(CloudSession("A2", "R2", nowSec + 3600, url)))
  {
  }

  // ------------------------------------------------ the login window

  datatype LoginResult = LoggedIn(user: User) | LoginFailed(error: string)

  /**
   * One `auth:login` invocation after the auth window is opened: the
   * 500 ms poll of `__DESKTOP_AUTH_DATA__` and the window's `closed`
   * event, settling the returned promise once.
   */
  class LoginWindow {
    const store: Store.PersistentStore
    var resolved: bool       // the handler's own flag
    var polling: bool        // the interval is still scheduled
    var windowAlive: bool    // `!authWindow.isDestroyed()`
    var settled: Option<LoginResult>  // the promise, once settled

    ghost predicate Valid()
      reads this
    {
      && (polling ==> windowAlive && !resolved)
      && (resolved <==> settled.Some? && settled.value.LoggedIn?)
      && (!windowAlive <==> settled.Some?)
    }

    constructor (store: Store.PersistentStore)
      ensures Valid() && this.store == store
      ensures polling && windowAlive && !resolved && settled == None
    {
      this.store := store;
      resolved, polling, windowAlive, settled := false, true, true, None;
    }

    /** The `closed` handler: stop polling; settle as cancelled unless already resolved. */
    method OnClosed()
      requires !windowAlive
      requires resolved ==> settled.Some?
      modifies this`polling, this`settled
      ensures !polling && windowAlive == old(windowAlive) && resolved == old(resolved)
      ensures settled == if old(settled).Some? then old(settled) else if resolved then None else Some(LoginFailed(LOGIN_CANCELLED))
    {
      polling := false;
      if !resolved && settled.None? {
        settled := Some(LoginFailed(LOGIN_CANCELLED));
      }
    }

    /**
     * A tick of the poll interval reading `data` (`None` when the value is
     * unset or the script failed). Successful data stores the session,
     * closes the window and settles with the user.
     */
    method Poll(data: Option<AuthData>, nowMs: int)
      requires Valid()
      modifies this`resolved, this`polling, this`windowAlive, this`settled, store
      ensures Valid()
      ensures old(settled).Some? ==> settled == old(settled)
      ensures var accept := old(polling) && data.Some? && data.value.success;
        && (accept ==> settled == Some(LoggedIn(LoginUser(data.value))) && !polling && !windowAlive
                       && store.cloudSession == Some(LoginSession(data.value, nowMs)))
        && (!accept ==> settled == old(settled) && polling == old(polling) && windowAlive == old(windowAlive)
                        && resolved == old(resolved) && store.cloudSession == old(store.cloudSession))
      ensures store.servers == old(store.servers) && store.entities == old(store.entities)
    {
      if !polling {
        return;
      }
      if data.Some? && data.value.success {
        resolved := true;
        polling := false;
        store.SetSession(Some(LoginSession(data.value, nowMs)));
        settled := Some(LoggedIn(LoginUser(data.value)));
        windowAlive := false;
        OnClosed();
      }
    }

    /** The user closes the auth window. */
    method UserClosed()
      requires Valid()
      modifies this`windowAlive, this`polling, this`settled
      ensures Valid() && !polling && !windowAlive
      ensures old(settled).Some? ==> settled == old(settled)
      ensures old(settled).None? ==> settled == Some(LoginFailed(LOGIN_CANCELLED))
    {
      if windowAlive {
        windowAlive := false;
        OnClosed();
      }
    }
  }
}
