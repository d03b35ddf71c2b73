/**
 * `getSteamAuthToken`: the capture window's life from creation to the
 * settling of its promise. Timers and page events become discrete
 * events: a navigation, a finished load (with or without the shim
 * injected), a message the page posts, a 500 ms poll tick, the 1.5 s
 * grace timer, the user closing the window, and the 300 000 ms timeout.
 */
module Capture {
  import opened Wrappers
  import opened JsValues
  import TokenRecognition

  const POLL_INTERVAL_MS := 500
  const GRACE_MS := 1500
  const TIMEOUT_MS := 300000

  class SteamCapture {
    // the window and the page inside it
    var windowAlive: bool                 // `!steamWindow.isDestroyed()`
    var shimInstalled: bool               // the current document carries the postMessage shim
    var pageToken: Option<JsValue>        // `window.__STEAM_TOKEN__` of the current document
    // the host side
    var tokenCaptured: bool
    var captured: Option<JsValue>         // the token the grace timer will resolve with
    var polling: bool                     // the poll interval is scheduled
    var gracePending: bool                // the 1.5 s timer is scheduled
    var timeoutPending: bool              // the 5 minute timer is scheduled
    var settled: Option<Option<JsValue>>  // the promise: unsettled, or settled with a token or null

    ghost predicate Valid()
      reads this
    {
      // polling stops once a token is captured or the window is gone
      && (polling ==> windowAlive && !tokenCaptured)
      // the page only ever holds a value the shim accepted
      && (pageToken.Some? ==> Truthy(pageToken.value))
      && (captured.Some? <==> tokenCaptured)
      && (tokenCaptured ==> Truthy(captured.value))
      // a settled promise carries the captured token, or null when none was captured
      && (settled.Some? && settled.value.Some? ==> tokenCaptured && settled.value == captured)
      && (settled == Some(None) ==> !tokenCaptured && !windowAlive && !polling)
      // an unsettled capture always has a timer that will settle it
      && (settled.None? && tokenCaptured ==> gracePending)
      && (settled.None? && !tokenCaptured ==> windowAlive && timeoutPending)
      && (gracePending ==> tokenCaptured && settled.None?)
    }

    /** The window is created and pointed at the login page; both timers are armed. */
    constructor ()
      ensures Valid()
      ensures windowAlive && polling && timeoutPending && !gracePending
      ensures !shimInstalled && pageToken == None && !tokenCaptured && settled == None
    {
      windowAlive, shimInstalled, pageToken := true, false, None;
      tokenCaptured, captured, polling := false, None, true;
      gracePending, timeoutPending, settled := false, true, None;
    }

    /** `resolve(v)`: only the first call settles the promise. */
    method Resolve(v: Option<JsValue>)
      modifies this`settled
      ensures settled == if old(settled).None? then Some(v) else old(settled)
    {
      if settled.None? {
        settled := Some(v);
      }
    }

    /** The window's `closed` handler: stop polling, and settle with null unless a token was captured. */
    method OnClosed()
      requires !windowAlive
      modifies this`polling, this`settled
      ensures !polling
      ensures settled == if old(settled).None? && !tokenCaptured then Some(None) else old(settled)
    {
      polling := false;
      if !tokenCaptured {
        Resolve(None);
      }
    }

    /** A new document replaces the old one: its shim and its `__STEAM_TOKEN__` are gone. */
    method Navigated()
      requires Valid()
      modifies this`shimInstalled, this`pageToken
      ensures Valid() && !shimInstalled && pageToken == None
    {
      shimInstalled, pageToken := false, None;
    }

    /** `did-finish-load`: the shim is injected, unless `executeJavaScript` failed. */
    method PageLoaded(injected: bool)
      requires Valid()
      modifies this`shimInstalled
      ensures Valid() && shimInstalled == (windowAlive && injected)
    {
      shimInstalled := windowAlive && injected;
    }

    /** The page calls `ReactNativeWebView.postMessage(data)`. */
    method PagePosted(data: TokenRecognition.Posted)
      requires Valid()
      modifies this`pageToken
      ensures Valid()
      ensures var t := TokenRecognition.Recognize(data);
        pageToken == if windowAlive && shimInstalled && t.Some? then t else old(pageToken)
    {
      var t := TokenRecognition.Recognize(data);
      if windowAlive && shimInstalled && t.Some? {
        pageToken := t;
      }
    }

    /**
     * A poll tick; `readable` is false when `executeJavaScript` threw
     * (the page is navigating). A truthy value is captured: polling
     * stops and the grace timer starts.
     */
    method Poll(readable: bool)
      requires Valid()
      modifies this`tokenCaptured, this`captured, this`polling, this`gracePending
      ensures Valid()
      ensures var take := old(polling) && readable && old(pageToken).Some?;
        && (take ==> tokenCaptured && captured == old(pageToken) && gracePending && !polling)
        && (!take ==> tokenCaptured == old(tokenCaptured) && captured == old(captured)
                      && gracePending == old(gracePending) && polling == old(polling))
    {
      if !polling {
        return;
      }
      if readable && pageToken.Some? {
        tokenCaptured := true;
        captured := pageToken;
        polling := false;
        gracePending := true;
      }
    }

    /** The grace timer fires: close the window if it is still open, then resolve with the token. */
    method GraceElapsed()
      requires Valid()
      modifies this`gracePending, this`windowAlive, this`polling, this`settled
      ensures Valid()
      ensures old(gracePending) ==> settled == Some(captured) && !windowAlive && !gracePending && !polling
      ensures !old(gracePending) ==>
        settled == old(settled) && windowAlive == old(windowAlive) && polling == old(polling) && !gracePending
    {
      if !gracePending {
        return;
      }
      gracePending := false;
      if windowAlive {
        windowAlive := false;
        OnClosed();
      }
      Resolve(captured);
    }

    /** The user closes the window. */
    method UserClosed()
      requires Valid()
      modifies this`windowAlive, this`polling, this`settled
      ensures Valid() && !windowAlive && !polling
      ensures old(settled).Some? ==> settled == old(settled)
      ensures old(settled).None? && !old(tokenCaptured) ==> settled == Some(None)
      ensures old(tokenCaptured) ==> settled == old(settled) && tokenCaptured
    {
      if windowAlive {
        windowAlive := false;
        OnClosed();
      }
    }

    /** The five-minute timer fires: give up with null if nothing was captured and the window is still open. */
    method TimeoutElapsed()
      requires Valid()
      modifies this`timeoutPending, this`polling, this`windowAlive, this`settled
      ensures Valid() && !timeoutPending
      ensures var fire := old(timeoutPending) && !tokenCaptured && old(windowAlive);
        && (fire ==> settled == Some(None) && !windowAlive && !polling)
        && (!fire ==> settled == old(settled) && windowAlive == old(windowAlive) && polling == old(polling))
    {
      var fire := timeoutPending && !tokenCaptured && windowAlive;
      timeoutPending := false;
      if fire {
        polling := false;
        windowAlive := false;
        OnClosed();
        Resolve(None);
      }
    }
  }
}
