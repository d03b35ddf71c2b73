/**
 * `sync:toCloud`: the local checks on the stored session, the request it
 * sends, and the mapping of the backend's answer to `{success, error}`.
 */
module Sync {
  import opened Wrappers
  import opened JsValues
  import opened Records
  import Session
  import Store

  const NOT_LOGGED_IN := "Not logged in to cloud"
  const SESSION_EXPIRED := "Session expired. Please log out and log back in."
  /** The V8 message of the `TypeError` raised by reading `.error` of a `null` body. */
  const NULL_BODY_ERROR := "Cannot read properties of null (reading 'error')"
  const SYNC_PATH := "/api/sync/credentials"

  /** The error body after `response.json().catch(() => ({}))`; an absent `error` is `""`. */
  datatype ErrorBody = ErrorObject(error: string) | ErrorNull

  datatype SyncResponse = Unreachable(message: string) | Answer(status: int, statusText: string, body: ErrorBody)

  /** The bearer-authenticated POST with the full snapshot of both collections. */
  datatype SyncRequest = SyncRequest(url: string, bearer: string,
    servers: map<string, PairedServer>, entities: map<string, PairedEntity>)

  datatype SyncResult = SyncResult(outcome: Outcome<string>, request: Option<SyncRequest>)

  predicate LoggedIn(session: Option<CloudSession>) {
    session.Some? && session.value.web_app_url != "" && session.value.access_token != ""
  }

  /** A known expiry that has already passed. */
  predicate Expired(s: CloudSession, nowSec: int) {
    s.expires_at != 0 && s.expires_at < nowSec
  }

  function AnswerOutcome(status: int, statusText: string, body: ErrorBody): (o: Outcome<string>)
    ensures o.Pass? <==> StatusOk(status)
    ensures status == 401 ==> o == Fail(SESSION_EXPIRED)
    ensures !StatusOk(status) && status != 401 && body.ErrorObject? && body.error != "" ==> o == Fail(body.error)
    ensures !StatusOk(status) && status != 401 && body.ErrorObject? && body.error == "" ==> o == Fail("Sync failed: " + statusText)
    ensures !StatusOk(status) && status != 401 && body.ErrorNull? ==> o == Fail(NULL_BODY_ERROR)
  {
    if StatusOk(status) then Pass
    else if status == 401 then Fail(SESSION_EXPIRED)
    else match body
      case ErrorNull => Fail(NULL_BODY_ERROR)
      case ErrorObject(error) => Fail(OrElse(error, "Sync failed: " + statusText))
  }

  /** The handler, with the clock and the backend's behaviour as inputs. */
  function SyncToCloud(session: Option<CloudSession>, servers: map<string, PairedServer>,
                       entities: map<string, PairedEntity>, nowMs: int, response: SyncResponse): (r: SyncResult)
    // both local checks run before, and instead of, any request
    ensures !LoggedIn(session) ==> r == SyncResult(Fail(NOT_LOGGED_IN), None)
    ensures LoggedIn(session) && Expired(session.value, EpochSeconds(nowMs)) ==> r == SyncResult(Fail(SESSION_EXPIRED), None)
    ensures r.request.Some? <==> LoggedIn(session) && !Expired(session.value, EpochSeconds(nowMs))
    ensures r.request.Some? ==>
      r.request.value == SyncRequest(session.value.web_app_url + SYNC_PATH, session.value.access_token, servers, entities)
    // once sent, success is exactly an ok status
    ensures r.outcome.Pass? <==> r.request.Some? && response.Answer? && StatusOk(response.status)
    ensures r.request.Some? && response.Unreachable? ==> r.outcome == Fail(response.message)
    ensures r.request.Some? && response.Answer? ==> r.outcome == AnswerOutcome(response.status, response.statusText, response.body)
  {
    if !LoggedIn(session) then SyncResult(Fail(NOT_LOGGED_IN), None)
    else
      var s := session.value;
      if Expired(s, EpochSeconds(nowMs)) then SyncResult(Fail(SESSION_EXPIRED), None)
      else
        var request := Some(SyncRequest(s.web_app_url + SYNC_PATH, s.access_token, servers, entities));
        match response
        case Unreachable(message) => SyncResult(Fail(message), request)
        case Answer(status, statusText, body) => SyncResult(AnswerOutcome(status, statusText, body), request)
  }

  /** The handler against the store, which it only reads. */
  method SyncStore(store: Store.PersistentStore, nowMs: int, response: SyncResponse) returns (outcome: Outcome<string>, request: Option<SyncRequest>)
    ensures SyncResult(outcome, request) == SyncToCloud(store.cloudSession, store.servers, store.entities, nowMs, response)
    // without a stored session nothing is sent
    ensures store.cloudSession.None? ==> outcome == Fail(NOT_LOGGED_IN) && request.None?
    // what is sent is the stored collections, under the stored session's bearer token and web app URL
    ensures request.Some? ==>
      && store.cloudSession.Some?
      && request.value.servers == store.servers && request.value.entities == store.entities
      && request.value.bearer == store.cloudSession.value.access_token
      && request.value.url == store.cloudSession.value.web_app_url + SYNC_PATH
    // a stored session that is locally expired is rejected before any request
    ensures LoggedIn(store.cloudSession) && Expired(store.cloudSession.value, EpochSeconds(nowMs)) ==>
      outcome == Fail(SESSION_EXPIRED) && request.None?
    // success is exactly an ok answer to a request that went out
    ensures outcome.Pass? <==> request.Some? && response.Answer? && StatusOk(response.status)
  {
    var r := SyncToCloud(store.cloudSession, store.servers, store.entities, nowMs, response);
    outcome, request := r.outcome, r.request;
  }

  /** A session whose cached token the refresh logic would hand out is never rejected as expired here. */
  lemma FreshSessionPassesExpiryCheck(s: CloudSession, nowMs: int)
    requires Session.StillFresh(s, EpochSeconds(nowMs))
    ensures !Expired(s, EpochSeconds(nowMs))
  {
  }

  /**
   * Sync does not refresh: a session one second past expiry with a
   * working refresh token fails locally, although the refresh logic would
   * have obtained a new token for it.
   */
  lemma ExpiredButRefreshable(url: string, nowSec: int, servers: map<string, PairedServer>,
                              entities: map<string, PairedEntity>, response: SyncResponse)
    requires url != ""
    requires nowSec != 1
    ensures var s := CloudSession("A", "R", nowSec - 1, url);
      && SyncToCloud(Some(s), servers, entities, nowSec * 1000, response).outcome == Fail(SESSION_EXPIRED)
      && Session.RefreshTokenIfNeeded(Some(s), nowSec * 1000,
           Session.RefreshAnswer(200, Some(Session.TokenBody("A2", "R2", 0))), nowSec * 1000).token == Some("A2")
  {
  }

  /** The worked example: no stored session means no request and "not logged in". */
  lemma NoSessionScenario(servers: map<string, PairedServer>, entities: map<string, PairedEntity>, nowMs: int, response: SyncResponse)
    ensures SyncToCloud(None, servers, entities, nowMs, response) == SyncResult(Fail(NOT_LOGGED_IN), None)
  {
  }
}
