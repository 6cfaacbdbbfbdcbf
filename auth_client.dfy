/**
 * The authenticated HTTP client of `src/services/axios.js`: a request interceptor
 * that attaches the stored access token, and a response interceptor that answers
 * a 401 by refreshing the token once and replaying every request that failed
 * while the refresh ran.
 *
 * JavaScript runs one task at a time, so the shared state (`isRefreshing`,
 * `failedQueue`) only changes in the stretches of code between two `await`s.
 * Each such stretch is one method of `Coordinator`; the single refresh in flight
 * is suspended at one of the awaits, which `phase` records. What the awaited
 * keychain and network calls answer comes in as parameters, and what the
 * interceptor asks of the network next comes back as a `Next` value.
 */
module AuthClient {
  import opened JsText
  import opened AuthService

  /** The Authorization header value for `token`. */
  function Bearer(token: string): (h: string)
    ensures |h| == 7 + |token| && h[..7] == "Bearer " && h[7..] == token
  {
    "Bearer " + token
  }

  /** The part of an axios request config the interceptors touch: the `_retry`
      flag and `headers.Authorization`. Method, URL and body are opaque here. */
  class RequestConfig {
    var retry: bool
    var authorization: Option<string>

    constructor (authorization: Option<string>)
      ensures !retry && this.authorization == authorization
    {
      retry := false;
      this.authorization := authorization;
    }
  }

  datatype HttpResponse = HttpResponse(status: int, data: Option<string>)

  /** An axios error: `error.config`, and `error.response`, absent when the request never got an answer. */
  datatype RequestError = RequestError(config: RequestConfig, response: Option<HttpResponse>)

  /** Why `refreshAccessToken` threw. */
  datatype RefreshError =
    | NoRefreshToken                                 // 'No refresh token available'
    | NoAccessTokenInResponse                        // 'No access token in response'
    | EndpointFailed(response: Option<HttpResponse>) // the refresh POST itself was rejected

  /** What the refresh endpoint POST settled with: a body carrying `data.accessToken`
      and `data.refreshToken` (either possibly missing), or an axios error. */
  datatype EndpointReply =
    | Answered(accessToken: Option<string>, refreshToken: Option<string>)
    | Failed(response: Option<HttpResponse>)

  /** How a refresh ended: a new access token, or the error every caller receives. */
  datatype Outcome = Refreshed(token: string) | RefreshFailed(error: RefreshError)

  /** One `prom.resolve(token)` or `prom.reject(error)` made by `processQueue`. */
  datatype Settlement = Settlement(waiter: RequestConfig, outcome: Outcome)

  /** The value a request's promise is rejected with. */
  datatype Rejection =
    | ResponseBody(body: string)         // `error.response.data`
    | AsThrown(thrown: RequestError)     // the axios error itself
    | RefreshRejected(error: RefreshError)

  /** What an interceptor segment leaves the request waiting on. */
  datatype Next =
    | Parked                             // in `failedQueue`
    | AwaitRefreshToken                  // `getRefreshToken()` of the refresh it started
    | PostRefresh(refreshToken: string)  // the bare `axios.post` to the refresh endpoint
    | AwaitSave                          // `saveTokens(...)` of the new tokens
    | AwaitClear                         // `clearTokens()` after a failed refresh
    | Replay(config: RequestConfig)      // `axiosInstance(originalRequest)`
    | Reject(reason: Rejection)

  /** Where the one running refresh is suspended, with the request that started it. */
  datatype Phase =
    | Idle
    | ReadingRefreshToken(trigger: RequestConfig)
    | Posting(trigger: RequestConfig, refreshToken: string)
    | Saving(trigger: RequestConfig, accessToken: string, refreshToken: string)
    | Clearing(trigger: RequestConfig, error: RefreshError)

  /** `error.response?.data || error`: the rejection of an error the interceptor lets through. */
  function PassThrough(e: RequestError): Rejection {
    if e.response.Some? && Truthy(e.response.value.data) then ResponseBody(e.response.value.data.value)
    else AsThrown(e)
  }

  /** The error carries a response with status 401. */
  predicate Unauthorized(e: RequestError) {
    e.response.Some? && e.response.value.status == 401
  }

  /** What `refreshAccessToken` makes of the endpoint's reply, given the refresh token it sent. */
  datatype Verdict = NewTokens(accessToken: string, refreshToken: string) | Throws(error: RefreshError)

  function Judge(reply: EndpointReply, sent: string): (v: Verdict)
    ensures v.NewTokens? <==> reply.Answered? && Truthy(reply.accessToken)
    ensures v.NewTokens? ==> Some(v.accessToken) == reply.accessToken
    ensures v.NewTokens? && sent != "" ==> v.refreshToken != ""
    ensures v.NewTokens? && Truthy(reply.refreshToken) ==> v.refreshToken == reply.refreshToken.value
    ensures v.NewTokens? && !Truthy(reply.refreshToken) ==> v.refreshToken == sent
    ensures v.Throws? && reply.Answered? ==> v.error == NoAccessTokenInResponse
    ensures reply.Failed? ==> v == Throws(EndpointFailed(reply.response))
  {
    match reply
    case Failed(response) => Throws(EndpointFailed(response))
    case Answered(accessToken, refreshToken) =>
      if Truthy(accessToken) then
        NewTokens(accessToken.value, if Truthy(refreshToken) then refreshToken.value else sent)
      else Throws(NoAccessTokenInResponse)
  }

  /** `settled` resolves or rejects the `waiters`, in order, all with the one `outcome`. */
  ghost predicate SettlesAll(settled: seq<Settlement>, waiters: seq<RequestConfig>, outcome: Outcome) {
    |settled| == |waiters| && forall i :: 0 <= i < |settled| ==> settled[i] == Settlement(waiters[i], outcome)
  }

  class Coordinator {
    /** `isRefreshing` */
    var isRefreshing: bool
    /** `failedQueue`: the requests parked until the running refresh settles */
    var queue: seq<RequestConfig>
    /** the await at which the running refresh is suspended */
    var phase: Phase
    /** refreshes started and refresh-endpoint calls made so far */
    ghost var refreshCycles: nat
    ghost var endpointCalls: nat
    const store: CredentialStore

    /**
     * The flag is up exactly while a refresh is suspended somewhere, and every
     * refresh calls the endpoint at most once: a refresh still reading its refresh
     * token has not called it yet.
     */
    ghost predicate Valid()
      reads this
    {
      && (isRefreshing <==> !phase.Idle?)
      && endpointCalls + (if phase.ReadingRefreshToken? then 1 else 0) <= refreshCycles
      && (phase.Posting? ==> phase.refreshToken != "")
      && (phase.Saving? ==> phase.accessToken != "" && phase.refreshToken != "")
    }

    /** No request is left parked once the flag is down. */
    ghost predicate Drained()
      reads this
    {
      !isRefreshing ==> queue == []
    }

    constructor (store: CredentialStore)
      ensures Valid() && Drained()
      ensures this.store == store && !isRefreshing && queue == [] && phase == Idle
      ensures refreshCycles == 0 && endpointCalls == 0
    {
      this.store := store;
      isRefreshing := false;
      queue := [];
      phase := Idle;
      refreshCycles := 0;
      endpointCalls := 0;
    }

    /** `processQueue(error, token)`: settles every parked request with the same outcome, then empties the queue. */
    method ProcessQueue(outcome: Outcome) returns (settled: seq<Settlement>)
      modifies this`queue
      ensures queue == []
      ensures SettlesAll(settled, old(queue), outcome)
    {
      settled := [];
      var i := 0;
      while i < |queue|
        invariant 0 <= i <= |queue|
        invariant SettlesAll(settled, queue[..i], outcome)
      {
        settled := settled + [Settlement(queue[i], outcome)];
        i := i + 1;
      }
      assert queue[..i] == queue;
      queue := [];
    }

    /**
     * The response interceptor's error handler, up to its first await. Anything but
     * a 401 on a request not yet retried passes through untouched. Such a 401 is
     * parked when a refresh is running; otherwise it marks its request `_retry`,
     * raises the flag and starts the one refresh.
     */
    method OnResponseError(err: RequestError) returns (next: Next)
      requires Valid()
      modifies this, err.config
      ensures Valid()
      ensures !Unauthorized(err) || old(err.config.retry) ==>
        && next == Reject(PassThrough(err))
        && unchanged(this) && unchanged(err.config)
      ensures Unauthorized(err) && !old(err.config.retry) && old(isRefreshing) ==>
        && next == Parked
        && queue == old(queue) + [err.config]
        && isRefreshing && phase == old(phase)
        && refreshCycles == old(refreshCycles) && endpointCalls == old(endpointCalls)
        && unchanged(err.config)
      ensures Unauthorized(err) && !old(err.config.retry) && !old(isRefreshing) ==>
        && next == AwaitRefreshToken
        && err.config.retry && err.config.authorization == old(err.config.authorization)
        && isRefreshing && phase == ReadingRefreshToken(err.config) && queue == old(queue)
        && refreshCycles == old(refreshCycles) + 1 && endpointCalls == old(endpointCalls)
      ensures old(Drained()) ==> Drained()
    {
      if Unauthorized(err) && !err.config.retry {
        if isRefreshing {
          queue := queue + [err.config];
          return Parked;
        }
        err.config.retry := true;
        isRefreshing := true;
        phase := ReadingRefreshToken(err.config);
        refreshCycles := refreshCycles + 1;
        return AwaitRefreshToken;
      }
      return Reject(PassThrough(err));
    }

    /**
     * The refresh resumes with the stored refresh token. Without one it throws before
     * any endpoint call: every parked request is rejected and the tokens are cleared.
     * With one, the single endpoint POST is made.
     */
    method OnRefreshTokenRead(readFails: bool) returns (next: Next, settled: seq<Settlement>)
      requires Valid() && phase.ReadingRefreshToken?
      modifies this
      ensures Valid() && Drained() && isRefreshing && refreshCycles == old(refreshCycles)
      ensures var stored := if readFails then None else store.refresh;
        && (Truthy(stored) ==>
              && next == PostRefresh(stored.value) && settled == []
              && phase == Posting(old(phase).trigger, stored.value) && queue == old(queue)
              && endpointCalls == old(endpointCalls) + 1)
        && (!Truthy(stored) ==>
              && next == AwaitClear && queue == []
              && SettlesAll(settled, old(queue), RefreshFailed(NoRefreshToken))
              && phase == Clearing(old(phase).trigger, NoRefreshToken)
              && endpointCalls == old(endpointCalls))
    {
      var trigger := phase.trigger;
      var refreshToken := store.GetRefreshToken(readFails);
      if !Truthy(refreshToken) {
        settled := ProcessQueue(RefreshFailed(NoRefreshToken));
        phase := Clearing(trigger, NoRefreshToken);
        next := AwaitClear;
      } else {
        endpointCalls := endpointCalls + 1;
        phase := Posting(trigger, refreshToken.value);
        settled := [];
        next := PostRefresh(refreshToken.value);
      }
    }

    /**
     * The refresh resumes with the endpoint's reply. A reply carrying an access token
     * goes on to save the tokens (keeping the old refresh token when none came back);
     * anything else is a failure that rejects every parked request.
     */
    method OnEndpointReply(reply: EndpointReply) returns (next: Next, settled: seq<Settlement>)
      requires Valid() && phase.Posting?
      modifies this
      ensures Valid() && Drained() && isRefreshing
      ensures refreshCycles == old(refreshCycles) && endpointCalls == old(endpointCalls)
      ensures var v := Judge(reply, old(phase).refreshToken);
        && (v.NewTokens? ==>
              && next == AwaitSave && settled == [] && queue == old(queue)
              && phase == Saving(old(phase).trigger, v.accessToken, v.refreshToken))
        && (v.Throws? ==>
              && next == AwaitClear && queue == []
              && SettlesAll(settled, old(queue), RefreshFailed(v.error))
              && phase == Clearing(old(phase).trigger, v.error))
    {
      var trigger := phase.trigger;
      match Judge(reply, phase.refreshToken)
      case NewTokens(accessToken, refreshToken) =>
        phase := Saving(trigger, accessToken, refreshToken);
        settled := [];
        next := AwaitSave;
      case Throws(error) =>
        settled := ProcessQueue(RefreshFailed(error));
        phase := Clearing(trigger, error);
        next := AwaitClear;
    }

    /**
     * `saveTokens` has settled (its boolean result is ignored). The starting request
     * gets the new bearer header and is replayed, every parked request is resolved
     * with the same token, and the flag goes down.
     */
    method OnTokensSaved(failAt: nat) returns (next: Next, settled: seq<Settlement>)
      requires Valid() && phase.Saving?
      modifies this, store, phase.trigger
      ensures Valid() && Drained() && !isRefreshing && phase == Idle && queue == []
      ensures refreshCycles == old(refreshCycles) && endpointCalls == old(endpointCalls)
      ensures store.Contents()
        == Save(old(store.Contents()), old(phase).accessToken, Some(old(phase).refreshToken), None, failAt).0
      ensures next == Replay(old(phase).trigger)
      ensures old(phase).trigger.authorization == Some(Bearer(old(phase).accessToken))
      ensures old(phase).trigger.retry == old(phase.trigger.retry)
      ensures SettlesAll(settled, old(queue), Refreshed(old(phase).accessToken))
    {
      var trigger, accessToken, refreshToken := phase.trigger, phase.accessToken, phase.refreshToken;
      var saved := store.SaveTokens(accessToken, Some(refreshToken), None, failAt);
      trigger.authorization := Some(Bearer(accessToken));
      settled := ProcessQueue(Refreshed(accessToken));
      next := Replay(trigger);
      isRefreshing := false;
      phase := Idle;
    }

    /**
     * `clearTokens` has settled after a failed refresh; the starting request is
     * rejected with the refresh error and the flag goes down. Requests that were
     * parked while the tokens were being cleared stay in the queue.
     */
    method OnTokensCleared(failAt: nat) returns (next: Next)
      requires Valid() && phase.Clearing?
      modifies this, store
      ensures Valid() && !isRefreshing && phase == Idle && queue == old(queue)
      ensures refreshCycles == old(refreshCycles) && endpointCalls == old(endpointCalls)
      ensures store.Contents() == Clear(old(store.Contents()), failAt).0
      ensures next == Reject(RefreshRejected(old(phase).error))
    {
      var error := phase.error;
      var cleared := store.ClearTokens(failAt);
      next := Reject(RefreshRejected(error));
      isRefreshing := false;
      phase := Idle;
    }

    /**
     * `OnTokensCleared` as evidently intended: the requests parked while the tokens
     * were being cleared get the same refresh error before the flag goes down.
     */
    method OnTokensClearedDraining(failAt: nat) returns (next: Next, late: seq<Settlement>)
      requires Valid() && phase.Clearing?
      modifies this, store
      ensures Valid() && Drained() && !isRefreshing && phase == Idle && queue == []
      ensures refreshCycles == old(refreshCycles) && endpointCalls == old(endpointCalls)
      ensures store.Contents() == Clear(old(store.Contents()), failAt).0
      ensures SettlesAll(late, old(queue), RefreshFailed(old(phase).error))
      ensures next == Reject(RefreshRejected(old(phase).error))
    {
      var error := phase.error;
      var cleared := store.ClearTokens(failAt);
      late := ProcessQueue(RefreshFailed(error));
      next := Reject(RefreshRejected(error));
      isRefreshing := false;
      phase := Idle;
    }
  }

  /**
   * A parked request's `.then`/`.catch` continuation: on a new token it takes the
   * bearer header and is replayed; on a refresh error it is rejected with that error.
   * The replay is not marked `_retry`.
   */
  method ResumeWaiter(s: Settlement) returns (next: Next)
    modifies s.waiter
    ensures s.outcome.Refreshed? ==>
      && next == Replay(s.waiter)
      && s.waiter.authorization == Some(Bearer(s.outcome.token))
      && s.waiter.retry == old(s.waiter.retry)
    ensures s.outcome.RefreshFailed? ==>
      next == Reject(RefreshRejected(s.outcome.error)) && unchanged(s.waiter)
  {
    match s.outcome
    case Refreshed(token) =>
      s.waiter.authorization := Some(Bearer(token));
      next := Replay(s.waiter);
    case RefreshFailed(error) =>
      next := Reject(RefreshRejected(error));
  }

  /** `ResumeWaiter` as evidently intended: the replay is marked `_retry`, so a second
      401 on it is rejected instead of starting another refresh. */
  method ResumeWaiterOneShot(s: Settlement) returns (next: Next)
    modifies s.waiter
    ensures s.outcome.Refreshed? ==>
      && next == Replay(s.waiter)
      && s.waiter.authorization == Some(Bearer(s.outcome.token))
      && s.waiter.retry
    ensures s.outcome.RefreshFailed? ==>
      next == Reject(RefreshRejected(s.outcome.error)) && unchanged(s.waiter)
  {
    match s.outcome
    case Refreshed(token) =>
      s.waiter.authorization := Some(Bearer(token));
      s.waiter.retry := true;
      next := Replay(s.waiter);
    case RefreshFailed(error) =>
      next := Reject(RefreshRejected(error));
  }

  /** The request interceptor: the header becomes `Bearer <token>` when a truthy
      access token is stored, and is left alone otherwise. */
  method AttachToken(config: RequestConfig, store: CredentialStore, readFails: bool)
    modifies config
    ensures var token := if readFails then None else store.access;
      && (Truthy(token) ==> config.authorization == Some(Bearer(token.value)))
      && (!Truthy(token) ==> config.authorization == old(config.authorization))
    ensures config.retry == old(config.retry)
  {
    var token := store.GetAccessToken(readFails);
    if Truthy(token) {
      config.authorization := Some(Bearer(token.value));
    }
  }
}
