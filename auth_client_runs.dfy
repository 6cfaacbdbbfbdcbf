/**
 * Whole runs of the authenticated client: a burst of requests that all meet an
 * expired access token, a refresh that fails, a missing refresh token, and the
 * two runs that show where the interceptor as written departs from its design.
 * Each run drives one `Coordinator` through the await points in one order the
 * JavaScript event loop allows.
 */
module RefreshRuns {
  import opened JsText
  import opened AuthService
  import opened AuthClient

  /** A 401 answer for `config` with no response body. */
  function Expired(config: RequestConfig): RequestError {
    RequestError(config, Some(HttpResponse(401, None)))
  }

  /**
   * `n` requests meet an expired access token one after the other while the first
   * one's refresh is still reading the refresh token. The client starts one refresh
   * and makes one refresh POST, ends idle with nothing parked, and all `n` requests
   * are sent again as replays with the same new bearer header, which the request
   * interceptor, reading the saved token, leaves as it is.
   */
  method SimultaneousExpiry(n: nat, refreshToken: string, newToken: string)
    returns (c: Coordinator, nexts: seq<Next>, headers: seq<Option<string>>)
    requires n >= 1 && refreshToken != "" && newToken != ""
    ensures c.refreshCycles == 1 && c.endpointCalls == 1
    ensures !c.isRefreshing && c.queue == []
    ensures |nexts| == n && forall i :: 0 <= i < n ==> nexts[i].Replay?
    ensures |headers| == n
    ensures forall i :: 0 <= i < n ==> headers[i] == Some(Bearer(newToken))
  {
    var store := new CredentialStore(Slots(Some("stale"), Some(refreshToken), None));
    c := new Coordinator(store);
    var first := new RequestConfig(Some(Bearer("stale")));
    var next := c.OnResponseError(Expired(first));
    var i := 1;
    while i < n
      invariant 1 <= i <= n
      invariant c.Valid() && c.phase == ReadingRefreshToken(first)
      invariant c.refreshCycles == 1 && c.endpointCalls == 0
      invariant c.store == store && store.refresh == Some(refreshToken)
      invariant |c.queue| == i - 1
      invariant forall k :: 0 <= k < |c.queue| ==> fresh(c.queue[k])
      invariant fresh(first)
    {
      var late := new RequestConfig(Some(Bearer("stale")));
      next := c.OnResponseError(Expired(late));
      assert next == Parked;
      i := i + 1;
    }
    var settled;
    next, settled := c.OnRefreshTokenRead(false);
    next, settled := c.OnEndpointReply(Answered(Some(newToken), None));
    next, settled := c.OnTokensSaved(0);
    assert next == Replay(first);
    AttachToken(first, store, false);
    nexts := [next];
    headers := [first.authorization];
    var j := 0;
    while j < |settled|
      invariant 0 <= j <= |settled| == n - 1
      invariant |nexts| == j + 1 && forall k :: 0 <= k < |nexts| ==> nexts[k].Replay?
      invariant |headers| == j + 1
      invariant forall k :: 0 <= k < |headers| ==> headers[k] == Some(Bearer(newToken))
      invariant forall k :: 0 <= k < |settled| ==> settled[k].outcome == Refreshed(newToken) && fresh(settled[k].waiter)
      invariant store.access == Some(newToken)
      invariant c.refreshCycles == 1 && c.endpointCalls == 1
      invariant !c.isRefreshing && c.queue == []
    {
      var resumed := ResumeWaiter(settled[j]);
      AttachToken(resumed.config, store, false);
      nexts := nexts + [resumed];
      headers := headers + [resumed.config.authorization];
      j := j + 1;
    }
  }

  /**
   * The endpoint returns a new refresh token along with the access token: once the
   * tokens are saved, the store holds both new tokens, and the old refresh token is gone.
   */
  method RotatedRefreshToken(oldRefresh: string, newAccess: string, newRefresh: string)
    returns (access: Option<string>, refresh: Option<string>)
    requires oldRefresh != "" && newAccess != "" && newRefresh != ""
    ensures access == Some(newAccess) && refresh == Some(newRefresh)
  {
    var store := new CredentialStore(Slots(Some("stale"), Some(oldRefresh), None));
    var c := new Coordinator(store);
    var request := new RequestConfig(None);
    var next := c.OnResponseError(Expired(request));
    var settled;
    next, settled := c.OnRefreshTokenRead(false);
    next, settled := c.OnEndpointReply(Answered(Some(newAccess), Some(newRefresh)));
    next, settled := c.OnTokensSaved(0);
    access := store.GetAccessToken(false);
    refresh := store.GetRefreshToken(false);
  }

  /**
   * `n` requests meet an expired access token and the refresh POST fails with
   * `reply`: the client makes one refresh POST, every request is rejected with the
   * one same refresh error, nothing stays parked, and the access token is gone from
   * the store afterwards.
   */
  method FailedRefresh(n: nat, refreshToken: string, reply: EndpointReply)
    returns (c: Coordinator, reasons: seq<Rejection>, accessAfter: Option<string>)
    requires n >= 1 && refreshToken != ""
    requires reply.Failed? || !Truthy(reply.accessToken)
    ensures c.refreshCycles == 1 && c.endpointCalls == 1
    ensures !c.isRefreshing && c.queue == []
    ensures |reasons| == n
    ensures forall i :: 0 <= i < n ==> reasons[i] == reasons[0]
    ensures reasons[0] == RefreshRejected(Judge(reply, refreshToken).error)
    ensures accessAfter == None
  {
    var store := new CredentialStore(Slots(Some("stale"), Some(refreshToken), None));
    c := new Coordinator(store);
    var first := new RequestConfig(Some(Bearer("stale")));
    var next := c.OnResponseError(Expired(first));
    var i := 1;
    while i < n
      invariant 1 <= i <= n
      invariant c.Valid() && c.phase == ReadingRefreshToken(first)
      invariant c.refreshCycles == 1 && c.endpointCalls == 0
      invariant c.store == store && store.refresh == Some(refreshToken)
      invariant |c.queue| == i - 1
      invariant forall k :: 0 <= k < |c.queue| ==> fresh(c.queue[k])
    {
      var late := new RequestConfig(Some(Bearer("stale")));
      next := c.OnResponseError(Expired(late));
      i := i + 1;
    }
    var settled;
    next, settled := c.OnRefreshTokenRead(false);
    next, settled := c.OnEndpointReply(reply);
    var error := Judge(reply, refreshToken).error;
    next := c.OnTokensCleared(0);
    reasons := [next.reason];
    var j := 0;
    while j < |settled|
      invariant 0 <= j <= |settled| == n - 1
      invariant |reasons| == j + 1
      invariant forall k :: 0 <= k < |reasons| ==> reasons[k] == RefreshRejected(error)
      invariant forall k :: 0 <= k < |settled| ==> settled[k].outcome == RefreshFailed(error) && fresh(settled[k].waiter)
      invariant store.access == None
      invariant c.refreshCycles == 1 && c.endpointCalls == 1
      invariant !c.isRefreshing && c.queue == []
    {
      var resumed := ResumeWaiter(settled[j]);
      reasons := reasons + [resumed.reason];
      j := j + 1;
    }
    accessAfter := store.GetAccessToken(false);
  }

  /**
   * No refresh token is stored: the refresh fails without any POST, the request is
   * rejected with `NoRefreshToken` and the store is cleared.
   */
  method MissingRefreshToken(access: Option<string>) returns (afterRead: Next, reason: Rejection, accessAfter: Option<string>)
    ensures afterRead == AwaitClear
    ensures reason == RefreshRejected(NoRefreshToken)
    ensures accessAfter == None
  {
    var store := new CredentialStore(Slots(access, None, None));
    var c := new Coordinator(store);
    var request := new RequestConfig(None);
    var next := c.OnResponseError(Expired(request));
    var settled;
    afterRead, settled := c.OnRefreshTokenRead(false);
    next := c.OnTokensCleared(0);
    reason := next.reason;
    accessAfter := store.GetAccessToken(false);
  }

  /**
   * As written: a request that meets a 401 while the tokens are being cleared after
   * a failed refresh is parked, and is still parked once the flag is down. Nothing
   * will settle it until some later refresh.
   */
  method StrandedWaiter() returns (refreshing: bool, stranded: nat)
    ensures !refreshing && stranded == 1
  {
    var store := new CredentialStore(Slots(Some("stale"), None, None));
    var c := new Coordinator(store);
    var first := new RequestConfig(None);
    var second := new RequestConfig(None);
    var next := c.OnResponseError(Expired(first));
    var settled;
    next, settled := c.OnRefreshTokenRead(false);
    next := c.OnResponseError(Expired(second));
    assert next == Parked;
    next := c.OnTokensCleared(0);
    refreshing, stranded := c.isRefreshing, |c.queue|;
  }

  /**
   * The same run with the clear that drains: the late request receives the same
   * refresh error as the one that started the refresh, and nothing stays parked.
   */
  method LateWaiterRejected() returns (refreshing: bool, stranded: nat, firstReason: Rejection, lateReason: Rejection)
    ensures !refreshing && stranded == 0
    ensures firstReason == lateReason == RefreshRejected(NoRefreshToken)
  {
    var store := new CredentialStore(Slots(Some("stale"), None, None));
    var c := new Coordinator(store);
    var first := new RequestConfig(None);
    var second := new RequestConfig(None);
    var next := c.OnResponseError(Expired(first));
    var settled;
    next, settled := c.OnRefreshTokenRead(false);
    next := c.OnResponseError(Expired(second));
    next, settled := c.OnTokensClearedDraining(0);
    firstReason := next.reason;
    next := ResumeWaiterOneShot(settled[0]);
    lateReason := next.reason;
    refreshing, stranded := c.isRefreshing, |c.queue|;
  }

  /** A successful refresh started by `first`, with `second` parked during it; returns
      the coordinator idle again and `second`'s settlement. */
  method RefreshWithOneWaiter(first: RequestConfig, second: RequestConfig, newToken: string)
    returns (c: Coordinator, settled: seq<Settlement>)
    requires first != second && !first.retry && !second.retry && newToken != ""
    modifies first, second
    ensures fresh(c) && fresh(c.store) && c.Valid() && c.phase == Idle && !c.isRefreshing
    ensures first.retry && !second.retry
    ensures settled == [Settlement(second, Refreshed(newToken))]
  {
    var store := new CredentialStore(Slots(Some("stale"), Some("refresh"), None));
    c := new Coordinator(store);
    var next := c.OnResponseError(Expired(first));
    next := c.OnResponseError(Expired(second));
    next, settled := c.OnRefreshTokenRead(false);
    next, settled := c.OnEndpointReply(Answered(Some(newToken), None));
    next, settled := c.OnTokensSaved(0);
  }

  /**
   * As written: both requests of a refresh are replayed with the new token and both
   * meet a 401 again. The one that started the refresh is rejected, but the parked
   * one, not marked `_retry`, starts a second refresh.
   */
  method ReplayRefreshesAgain(newToken: string) returns (firstAgain: Next, secondAgain: Next)
    requires newToken != ""
    ensures firstAgain.Reject?
    ensures secondAgain == AwaitRefreshToken
  {
    var first := new RequestConfig(None);
    var second := new RequestConfig(None);
    var c, settled := RefreshWithOneWaiter(first, second, newToken);
    var resumed := ResumeWaiter(settled[0]);
    firstAgain := c.OnResponseError(Expired(first));
    secondAgain := c.OnResponseError(Expired(second));
  }

  /** The same run with one-shot replays: neither second 401 starts another refresh. */
  method ReplayRejectedOnce(newToken: string) returns (firstAgain: Next, secondAgain: Next)
    requires newToken != ""
    ensures firstAgain.Reject? && secondAgain.Reject?
  {
    var first := new RequestConfig(None);
    var second := new RequestConfig(None);
    var c, settled := RefreshWithOneWaiter(first, second, newToken);
    var resumed := ResumeWaiterOneShot(settled[0]);
    firstAgain := c.OnResponseError(Expired(first));
    secondAgain := c.OnResponseError(Expired(second));
  }
}
