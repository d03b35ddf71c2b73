# Rust Insight Pairing Tool: main-process core in Dafny

This project models the main process of a desktop companion app. The app
gets a bearer token from the Rust+ companion login page, keeps a cloud
session, supervises one pairing-engine instance, and records the servers
and devices ("entities") that instance pairs. Everything lives in
`src/main/index.ts`. The model has five parts:

- **Paired-record store** (`records.dfy`, `store.dfy`). Servers are keyed by `"ip:port"` and entities by `String(entityId)`. The `server:paired` and `entity:paired` handlers upsert into these maps, with defaults. The delete handlers return a "not found" outcome for an absent key.
- **Token recognition** (`token_recognition.dfy`). This is the body of the injected `ReactNativeWebView.postMessage` shim. A parsed JSON object yields the first truthy value among `token`, `Token`, `authToken` and `AuthToken`. A message that does not parse is scanned for the leftmost substring of the form `eyJ<segment>.<segment>.<segment>`: three segments over the base64url alphabet of section 5 of RFC 4648, as in the compact serialisation of section 7.1 of RFC 7515.
- **Session lifecycle** (`session.dfy`). It covers the session a login stores, with the `now + 3600` fallback, and the decision logic of `refreshTokenIfNeeded`: cached token, `null`, or a refresh-token grant whose answer (section 5.1 of RFC 6749) is stored. It also has the login window's poll/close state machine.
- **Sync** (`sync.dfy`). `sync:toCloud` checks two things locally: that the user is logged in and that the session has not expired. Then it maps the HTTP answer to `{success, error}`.
- **Capture and pairing slot** (`capture.dfy`, `pairing.dfy`). `getSteamAuthToken` is a state machine over page, poll, grace-timer, close and timeout events, and its promise settles once. `pairing:start`, `pairing:stop` and `before-quit` act on the single `pairingClient` slot. A ghost record of every call made on an engine instance lets the model state "at most one live engine", "destroy before create" and "subscribe before use".

Inputs the program reads from the outside are parameters of the model:

- the clock (`nowMs`, in ms, floored to seconds where the source does so);
- the result of `JSON.parse`;
- every HTTP answer (or a transport failure);
- the outcomes of `registerWithToken` and `startListening`;
- whether `executeJavaScript` succeeded.

Absent string fields are written `""` and absent numbers `0`. Both are falsy in JavaScript, so the source's `||` defaults treat them exactly like `undefined`.

Three behaviours of the code that a caller might not expect, all modelled as written:

- A timeout and a user-closed capture window both resolve with `null`. `pairing:start` reports both as "Steam login was cancelled", so the caller cannot tell them apart.
- `sync:toCloud` never calls `refreshTokenIfNeeded`. It fails on an expired session even when a refresh would succeed (`Sync.ExpiredButRefreshable`). Nothing in `src/main/index.ts` calls `refreshTokenIfNeeded` at all.
- Four kinds of engine event are subscribed (status, server, entity, error), and each is forwarded to the main window.

## Model

| member | source | states |
|---|---|---|
| `Decimal.Show` | src/main/index.ts:217 | `String(n)` for a natural: a non-empty string of digits with no leading zero |
| `Decimal.ParseShow` | src/main/index.ts:217 | parsing the decimal rendering `String(n)` gives `n` back |
| `Decimal.ShowInjective` | src/main/index.ts:217-218 | two ids render to the same key exactly when they are equal |
| `Records.SplitEndpointRoundTrip` | src/main/index.ts:203 | an `ip:port` key splits at its last colon back into the address and port it came from, IPv6 addresses included |
| `Records.ServerKeyIdentity` | src/main/index.ts:203-204 | two server events share a key exactly when they share address and port |
| `Records.EntityKeyIdentity` | src/main/index.ts:217-218 | two entities share a key exactly when their ids are equal |
| `Records.StampEntity` | src/main/index.ts:218-225 | stored entity: same id and capture time, `serverId` is `ip:port`; type, name and server name are the given values when non-empty, else `"switch"`, `"Device #<id>"`, `"Unknown Server"`; none of them is empty |
| `Records.EntityPointsAtServerKey` | src/main/index.ts:222 | an entity's `serverId` is exactly the key its server is stored under |
| `Records.ReplayLastWriteWins` | src/main/index.ts:202-208 | after any sequence of upserts, a key is present iff it was present or written; it holds its last write's value, or its old value if never written |
| `Records.ServerReplayKeepsLastEvent` | src/main/index.ts:199-208 | after a run of `server:paired` events, an endpoint holds the last event's payload plus that event's capture time, the record `Records.StampServer` builds from `...serverData` and `pairedAt` |
| `Records.DeleteRecord` | src/main/index.ts:371-397 | delete succeeds iff the key is present; the result has exactly that key removed and all other records unchanged; on failure the error is the not-found message and the map is unchanged |
| `Records.DeleteUndoesInsert` | src/main/index.ts:371-383 | deleting the key an upsert just added succeeds and gives back the map as it was before the upsert |
| `Records.DeleteRecordAsWritten` | src/main/index.ts:374-379 | the handler as written: the resulting map is the old one minus the id, whatever the reported outcome |
| `Records.DeleteAsWrittenReportsPhantomSuccess` | src/main/index.ts:374-379 | as written, deleting `"constructor"` from a store without it reports success; the corrected delete reports not-found |
| `Records.ServerKeysAreNotInheritedNames` | src/main/index.ts:203 | no server key is the name of an inherited object property, so the two delete versions agree on every stored key |
| `Store.PersistentStore.constructor` | src/main/index.ts:32-39 | the store starts with empty `servers` and `entities` and no session |
| `Store.PersistentStore.UpsertServer` | src/main/index.ts:202-208 | `servers` gains or overwrites exactly the `ip:port` key with the stamped payload; entities and session unchanged |
| `Store.PersistentStore.UpsertEntity` | src/main/index.ts:216-226 | `entities` gains or overwrites exactly `String(entityId)` with the defaulted record; servers and session unchanged |
| `Store.PersistentStore.DeleteServer` | src/main/index.ts:371-383 | result and new `servers` are those of `DeleteRecord` with "Server not found"; entities and session unchanged |
| `Store.PersistentStore.DeleteEntity` | src/main/index.ts:385-397 | result and new `entities` are those of `DeleteRecord` with "Entity not found"; servers and session unchanged |
| `Store.PersistentStore.SetSession` | src/main/index.ts:140-145 | `store.set('cloudSession', …)`: the session becomes the given one; servers and entities unchanged |
| `Store.PersistentStore.Logout` | src/main/index.ts:175-178 | logout always succeeds and leaves no session; the collections are untouched |
| `TokenRecognition.FirstTruthy` | src/main/index.ts:280-283 | nothing exactly when every alias is falsy; otherwise a truthy alias value, with every earlier alias falsy |
| `TokenRecognition.RunEnd` | src/main/index.ts:287 | the end of the maximal run of `[A-Za-z0-9_-]` from a position |
| `TokenRecognition.RunEndUnique` | src/main/index.ts:287 | a maximal run has only one possible end |
| `TokenRecognition.MatchAt` | src/main/index.ts:287 | at a position, the pattern matches exactly where reported: two dots, non-empty segments, a greedy last segment; any match there equals the reported one |
| `TokenRecognition.FirstMatch` | src/main/index.ts:287 | the reported match is a match, and no position before it (from the search start) has one; no result means no match anywhere |
| `TokenRecognition.Recognize` | src/main/index.ts:276-292 | the shim body: a non-string message or a parsed scalar stores nothing, and whatever is stored is truthy; its two branches are stated by the next two rows |
| `TokenRecognition.RecognizeParsedObject` | src/main/index.ts:278-283 | a parsed object yields the first truthy alias in the order token, Token, authToken, AuthToken, or nothing; the regex fallback is not tried |
| `TokenRecognition.RecognizeUnparsable` | src/main/index.ts:284-291 | a message that fails to parse yields exactly the leftmost JWT-shaped substring, or nothing when it has none |
| `TokenRecognition.IncludesGuardIsImplied` | src/main/index.ts:286-287 | any text the pattern matches passes the `includes('eyJ')` guard |
| `JsValues.EpochSeconds` | src/main/index.ts:406 | `Math.floor(now / 1000)`: the second that contains the given millisecond |
| `Session.LoginSession` | src/main/index.ts:140-145 | the stored session carries the handshake's tokens and the web app URL; its expiry is the given one, or the login second plus 3600 when none is given |
| `Session.LoginUser` | src/main/index.ts:149-156 | the user's id and email come from the handshake; the name is present iff non-empty, and then it is the handshake's name (`authData.name || undefined`) |
| `Session.RefreshTokenIfNeeded` | src/main/index.ts:402-448 | no session gives null, no request and no write. A fresh session gives its cached token, no request and no write. A stale session without a refresh token gives null and no write. A request is sent iff the session is stale and has a refresh token, and it carries that token. An ok answer with a parsed body is stored as `Session.Refreshed` (new tokens, same URL) and its access token returned; a transport failure, a non-ok status or an unparsed body gives null and leaves the session. The session changes only on an ok, parsed answer. A null result leaves the session unchanged. A cached token is returned only while fresh. A returned token is the stored one. `web_app_url` is kept. A refreshed expiry is the answer time plus `expires_in` (or 3600) |
| `Session.RefreshStoredToken` | src/main/index.ts:402-448 | against the store: returns that result's token and leaves its session in the store; collections untouched |
| `Session.LoginDefaultExpiryServesCache` | src/main/index.ts:143 | a login without an expiry is served from cache, with no request, exactly while the clock is less than 3300 s past the login |
| `Session.RefreshScenario` | src/main/index.ts:434-444 | session expiring in 100 s with refresh token R and answer A2/R2/3600 becomes A2/R2/now+3600 with the same URL |
| `Session.LoginWindow.constructor` | src/main/index.ts:124-127 | a fresh login wait polls, has its window open and is unsettled |
| `Session.LoginWindow.OnClosed` | src/main/index.ts:163-168 | closing stops polling and settles with "Login cancelled" unless already resolved or settled |
| `Session.LoginWindow.Poll` | src/main/index.ts:127-161 | successful data while polling stores the login session and settles with the user; anything else changes neither the store, the result, the window nor polling; a settled result never changes |
| `Session.LoginWindow.UserClosed` | src/main/index.ts:163-168 | a close stops polling; an unsettled login settles as cancelled; a settled one keeps its result |
| `Sync.AnswerOutcome` | src/main/index.ts:478-487 | success iff status 200-299; 401 gives the session-expired message; other failures give the body's `error`, else `Sync failed: <statusText>`, or the TypeError text for a `null` body |
| `Sync.SyncToCloud` | src/main/index.ts:450-491 | no URL or token: "Not logged in to cloud", no request. Known expiry in the past: the session-expired message, no request. Otherwise one bearer request carrying both collections. Success iff the answer is ok. A transport failure gives its message |
| `Sync.SyncStore` | src/main/index.ts:450-491 | against the store: with no stored session, "Not logged in to cloud" and no request; a locally expired stored session, the session-expired message and no request; a request carries exactly the stored servers and entities under the stored access token, to the stored URL plus `/api/sync/credentials`; success iff an ok answer to a request that went out |
| `Sync.FreshSessionPassesExpiryCheck` | src/main/index.ts:458-463 | a session fresh for the refresh logic is never locally expired for sync |
| `Sync.ExpiredButRefreshable` | src/main/index.ts:458-463 | a session one second past expiry fails sync locally though a refresh would return a new token |
| `Sync.NoSessionScenario` | src/main/index.ts:454-456 | with no session: "Not logged in to cloud" and no request |
| `Capture.SteamCapture.constructor` | src/main/index.ts:252-265 | a new capture has its window open, polling and the timeout armed, no shim, nothing captured, unsettled |
| `Capture.SteamCapture.Resolve` | src/main/index.ts:253 | only the first resolve settles the promise |
| `Capture.SteamCapture.OnClosed` | src/main/index.ts:334-339 | close stops polling and settles with null iff nothing was captured and nothing settled yet |
| `Capture.SteamCapture.Navigated` | src/main/index.ts:268-299 | a new document has no shim and no stored token |
| `Capture.SteamCapture.PageLoaded` | src/main/index.ts:268-299 | after a load, the shim is present iff the window is alive and injection succeeded |
| `Capture.SteamCapture.PagePosted` | src/main/index.ts:276-292 | a posted message sets the page token to the recognised value iff the shim is present and something was recognised |
| `Capture.SteamCapture.Poll` | src/main/index.ts:302-331 | a scheduled tick that reads a token captures exactly that token, stops polling and arms the grace timer; any other tick changes nothing, polling included; it touches no window, page, timeout or promise state |
| `Capture.SteamCapture.GraceElapsed` | src/main/index.ts:321-326 | the grace timer closes the window and settles with the captured token, which it leaves in place; a timer that is not pending changes nothing |
| `Capture.SteamCapture.UserClosed` | src/main/index.ts:334-339 | a user close stops polling; with nothing captured an unsettled capture settles with null; after a capture the result is left to the grace timer, and the captured token and timers are untouched |
| `Capture.SteamCapture.TimeoutElapsed` | src/main/index.ts:344-351 | the timeout settles with null and closes the window iff nothing was captured and the window is alive; otherwise only the timer is cleared; the capture state is never touched |
| `Pairing.SubscriptionsPrecedeUse` | src/main/index.ts:195-243 | every token capture, registration or listen on an instance is preceded by each of its four subscriptions |
| `Pairing.LiveNeverDestroyed` | src/main/index.ts:188-193 | a live instance has never been destroyed |
| `Pairing.DestroyedAtMostOnce` | src/main/index.ts:188-191 | no instance is destroyed twice |
| `Pairing.TeardownEmptiesSlot` | src/main/index.ts:188-191 | tearing down the slot's instance leaves no live instance |
| `Pairing.ConstructAndSubscribe` | src/main/index.ts:193-231 | a new instance, once subscribed, is the only live one and has all four handlers |
| `Pairing.UseKeepsWellFormed` | src/main/index.ts:233-243 | capture, registration and listening keep the record well formed and the live set unchanged |
| `Pairing.StartKeepsOneLive` | src/main/index.ts:186-249 | after any start the record is well formed and exactly the new instance is live |
| `Pairing.StartOutcome` | src/main/index.ts:235-248 | start succeeds iff a truthy token came back and registration and listening succeeded; otherwise it fails with "Steam login was cancelled" or with the failing call's error |
| `Pairing.Orchestrator.constructor` | src/main/index.ts:41-42 | the slot starts empty with no engine calls and nothing sent |
| `Pairing.Orchestrator.Start` | src/main/index.ts:186-249 | appends: destroy of the old instance (if any), construct, four subscriptions, capture, then register and listen as far as they get. The new instance fills the slot, exactly one is live, one status note is sent if the window is open |
| `Pairing.Orchestrator.Notify` | src/main/index.ts:195-197 | `mainWindow?.webContents.send`: the note is appended to what the window received iff the window is open |
| `Pairing.Orchestrator.Stop` | src/main/index.ts:355-361 | destroys the slot's instance if any, empties the slot, always succeeds |
| `Pairing.Orchestrator.BeforeQuit` | src/main/index.ts:511-515 | destroys the slot's instance if any, so none stays live; the slot variable itself is not cleared; only the engine-call record changes |
| `Pairing.Orchestrator.MainWindowClosed` | src/main/index.ts:72-74 | after the main window closes, nothing more is forwarded |
| `Pairing.Orchestrator.Deliver` | src/main/index.ts:195-231 | an event is forwarded when the window is open; a server or entity event upserts exactly its record; the session is untouched |
| `Pairing.StopTwice` | src/main/index.ts:355-361 | two stops both succeed; the second adds no engine call |

## Findings

| source | as written | input that shows it | evidently intended | confidence | as-written member | corrected member |
|---|---|---|---|---|---|---|
| src/main/index.ts:374 | `if (servers[serverId])` (and `entities[entityId]` at line 388) tests a property lookup, which is truthy for names inherited from `Object.prototype` | `pairing:deleteServer("constructor")` with no such server reports `{success: true}` and removes nothing | report "Server not found" / "Entity not found" for every id that is not a stored key | not executed; medium | `Records.DeleteAsWrittenReportsPhantomSuccess` | `Records.DeleteRecord` |

The store's delete methods use the corrected `Records.DeleteRecord`. Stored keys are never inherited names (`Records.ServerKeysAreNotInheritedNames`; entity keys are digit strings). So the two versions differ only for ids that name no stored record.

## Left out

- Window creation, window controls, `shell.openExternal`, `ipcMain.handle` registration, the preload bridge and the renderer: UI and IPC plumbing with no logic of their own.
- `auth:getSession`, `pairing:getServers` and `pairing:getEntities`: each reads one store field, which is a public field of `Store.PersistentStore`.
- `session.clearStorageData` and the login handler's outer `catch` for its failures: foreign browser calls.
- The text of the injected scripts, the alert suppression and the "Steam Linked!" overlay. Injection is modelled only as succeeding or failing (`Capture.SteamCapture.PageLoaded`).
- `JSON.parse` itself: its outcome is an input (`TokenRecognition.Posted`, `Sync.ErrorBody`, `Session.RefreshAnswer`), not derived from the raw text.
- `fetch`, the Supabase headers and environment variables: the network. Answers are inputs. The modelled requests carry only the refresh token, or the URL, bearer token and snapshot.
- `electron-store` persistence and the `|| {}` fallbacks: the store always holds its defaults, so in-memory maps stand for it.
- The engine internals (`@rust-insight/core`): only the calls made on an instance are recorded. Events reach the handlers unconditionally, and whether a destroyed engine still emits is not known.
- Exceptions thrown by `new RustPlusPairing()` or `destroy()`: the library is not visible.
- `setInterval`, `setTimeout` and `Date.now`: they are discrete events and clock parameters. Overlapping asynchronous poll ticks are concurrency and are not modelled.
- `Capture.SteamCapture.Poll`: only ticks of a scheduled interval are modelled. So the source's defensive `tokenCaptured || isDestroyed()` exit never fires, and the invariant shows it cannot.
- `TokenRecognition.Recognize`: a non-string message that `JSON.parse` coerces into parseable text is treated as capturing nothing.
- `JsValues.JsValue`: numbers are integers, so `NaN`, fractions and number-valued string fields are not modelled.
- `Pairing.Orchestrator.Start`: runs as one atomic step, but the source awaits `getSteamAuthToken()` (lines 235-243) and then reads `pairingClient` again. A `pairing:stop` during the capture would make line 242 call a method on `null`, and the model cannot show that interleaving.
- `Session.LoginWindow.Poll`: runs as one atomic step. In the source a close can arrive during the tick's `await` at line 134; the tick then still stores the session, while the promise has already settled with "Login cancelled". The model cannot show that interleaving.
- `console.log` output.
