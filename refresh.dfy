/**
 * The 401 handling of `apiFetch`: a module-level flag that lets one token
 * refresh run at a time, and a queue of waiters that the finished refresh
 * resolves or rejects in insertion order.
 *
 * Two events drive the state: the first response of a request arrives
 * (`Receive`), the refresh settles (`RefreshSettled`). The retry and the
 * replay of a waiter are modelled by the outcome functions `RetryOutcome`
 * and `ReplayOutcome` of the response they get back.
 * `OnResponse` and `OnRefreshSettled` give the new state of each event as a
 * function of the old one; the class `Interceptor` holds the mutable state
 * and is proved against them.
 */
module Refresh {
  import opened Http
  import opened Request
  import opened Exclusion
  import opened Outcome

  /** A queued request: the URL and the options its replay re-issues unchanged. */
  datatype Waiter = Waiter(fetchUrl: string, options: RequestOptions)

  /** What `processQueue` calls on a waiter: `resolve(token)` or `reject(error)`. */
  datatype Signal = Resolve(token: Option<string>) | Reject(error: RefreshError)

  datatype Delivery = Delivery(waiter: Waiter, signal: Signal)

  /** `if (error) reject(error) else resolve(token)` */
  function SignalFor(error: Option<RefreshError>, token: Option<string>): Signal {
    if error.Some? then Reject(error.value) else Resolve(token)
  }

  /** The calls `processQueue(error, token)` makes, front of the queue first. */
  function Deliveries(queue: seq<Waiter>, error: Option<RefreshError>, token: Option<string>): seq<Delivery> {
    if queue == [] then []
    else [Delivery(queue[0], SignalFor(error, token))] + Deliveries(queue[1..], error, token)
  }

  /** Every waiter receives the same signal, once, in insertion order. */
  lemma {:induction false} DeliveriesFanOut(queue: seq<Waiter>, error: Option<RefreshError>, token: Option<string>)
    ensures |Deliveries(queue, error, token)| == |queue|
    ensures forall i :: 0 <= i < |queue| ==>
              Deliveries(queue, error, token)[i] == Delivery(queue[i], SignalFor(error, token))
  {
    if queue != [] {
      DeliveriesFanOut(queue[1..], error, token);
    }
  }

  /** The refresh flag and the waiting queue. */
  datatype Coordination = Coordination(refreshing: bool, queue: seq<Waiter>)

  /** The state at module load, and after every settled refresh. */
  const Idle: Coordination := Coordination(false, [])

  /** What the first response of a request leads to. */
  datatype Step =
    | StartsRefresh             // this request runs the refresh
    | Enqueued                  // a refresh is in flight: this request waits in the queue
    | Settles(outcome: Settled) // not the refresh path: the call settles now

  /** `originalRequest`: the request's URL and its options as first sent. */
  function WaiterOf(req: PreparedRequest): Waiter {
    Waiter(req.fetchUrl, req.config)
  }

  /** The first response of `req` arrives. */
  function OnResponse(c: Coordination, req: PreparedRequest, r: Response): (Coordination, Step) {
    if Eligible401(req.url, r) then
      if !c.refreshing then (c.(refreshing := true), StartsRefresh)
      else (c.(queue := c.queue + [WaiterOf(req)]), Enqueued)
    else
      (c, Settles(SettleResponse(r)))
  }

  /** The two ways `requestAccessToken` can end. */
  datatype RefreshResult = RefreshSucceeded | RefreshFailed(error: RefreshError)

  /** The error `processQueue` receives: null after a successful refresh. */
  function FailureOf(result: RefreshResult): Option<RefreshError> {
    if result.RefreshFailed? then Some(result.error) else None
  }

  /**
   * The token handed to `processQueue` and put into the retry after a good
   * refresh: TypeScript reads the store again, JavaScript reuses the token
   * it read before the first request.
   */
  function RefreshedToken(variant: Variant, req: PreparedRequest, storeAfter: TokenStore): Option<string> {
    match variant
    case TypeScript => GetItem(storeAfter, AccessTokenKey)
    case JavaScript => req.accessToken
  }

  /** The original options with the bearer header set again, for the retry. */
  function RetryOptions(variant: Variant, req: PreparedRequest, storeAfter: TokenStore): RequestOptions {
    req.config.(headers := req.config.headers[AuthorizationHeaderKey := BearerValue(RefreshedToken(variant, req, storeAfter))])
  }

  /** What the refreshing caller does next: one retry, or rethrow the refresh error. */
  datatype Continuation = Retry(fetchUrl: string, options: RequestOptions) | Rethrow(error: RefreshError)

  /** The refresh started by `req` settles; `storeAfter` is the token store at that moment. */
  function OnRefreshSettled(c: Coordination, variant: Variant, req: PreparedRequest, result: RefreshResult,
                            storeAfter: TokenStore): (Coordination, seq<Delivery>, Continuation) {
    match result
    case RefreshSucceeded =>
      (Idle, Deliveries(c.queue, None, RefreshedToken(variant, req, storeAfter)),
       Retry(req.fetchUrl, RetryOptions(variant, req, storeAfter)))
    case RefreshFailed(e) =>
      (Idle, Deliveries(c.queue, Some(e), None), Rethrow(e))
  }

  class Interceptor {
    const variant: Variant
    var isTokenRefreshing: bool
    var failedRequestsQueue: seq<Waiter>

    function State(): Coordination
      reads this
    {
      Coordination(isTokenRefreshing, failedRequestsQueue)
    }

    constructor (variant: Variant)
      ensures this.variant == variant && State() == Idle
    {
      this.variant := variant;
      isTokenRefreshing := false;
      failedRequestsQueue := [];
    }

    /** `processQueue(error, token)`: signal every waiter in order, then empty the queue. */
    method ProcessQueue(error: Option<RefreshError>, token: Option<string>) returns (delivered: seq<Delivery>)
      modifies this
      ensures delivered == Deliveries(old(failedRequestsQueue), error, token)
      ensures failedRequestsQueue == [] && isTokenRefreshing == old(isTokenRefreshing)
    {
      var pending := failedRequestsQueue;
      delivered := [];
      var i := 0;
      while i < |pending|
        invariant 0 <= i <= |pending|
        invariant pending == old(failedRequestsQueue) && isTokenRefreshing == old(isTokenRefreshing)
        invariant |delivered| == i
        invariant forall k :: 0 <= k < i ==> delivered[k] == Delivery(pending[k], SignalFor(error, token))
      {
        var signal := if error.Some? then Reject(error.value) else Resolve(token);
        delivered := delivered + [Delivery(pending[i], signal)];
        i := i + 1;
      }
      DeliveriesFanOut(pending, error, token);
      failedRequestsQueue := [];
    }

    /** The first response of `req` arrives: start a refresh, join the queue, or settle. */
    method Receive(req: PreparedRequest, r: Response) returns (step: Step)
      modifies this
      ensures (State(), step) == OnResponse(old(State()), req, r)
    {
      if Eligible401(req.url, r) {
        if !isTokenRefreshing {
          isTokenRefreshing := true;
          step := StartsRefresh;
        } else {
          failedRequestsQueue := failedRequestsQueue + [WaiterOf(req)];
          step := Enqueued;
        }
      } else {
        step := Settles(SettleResponse(r));
      }
    }

    /**
     * The refresh started by `req` settles: clear the flag, then drain the
     * queue, then retry once or rethrow.
     */
    method RefreshSettled(req: PreparedRequest, result: RefreshResult, storeAfter: TokenStore)
      returns (delivered: seq<Delivery>, next: Continuation)
      modifies this
      ensures (State(), delivered, next) == OnRefreshSettled(old(State()), variant, req, result, storeAfter)
    {
      match result
      case RefreshSucceeded =>
        isTokenRefreshing := false;
        var newToken := RefreshedToken(variant, req, storeAfter);
        delivered := ProcessQueue(None, newToken);
        next := Retry(req.fetchUrl, RetryOptions(variant, req, storeAfter));
      case RefreshFailed(e) =>
        isTokenRefreshing := false;
        delivered := ProcessQueue(Some(e), None);
        next := Rethrow(e);
    }
  }

  /**
   * A settled refresh leaves the state idle and signals every waiter that was
   * queued, in order: all rejected with the refresh error, which the
   * refreshing caller rethrows, or all resolved, and the caller retries once.
   */
  lemma RefreshSettledDrainsQueue(c: Coordination, variant: Variant, req: PreparedRequest,
                                  result: RefreshResult, storeAfter: TokenStore)
    ensures var settled := OnRefreshSettled(c, variant, req, result, storeAfter);
            var delivered, next := settled.1, settled.2;
            && settled.0 == Idle
            && |delivered| == |c.queue|
            && (forall i :: 0 <= i < |c.queue| ==> delivered[i].waiter == c.queue[i])
            && (result.RefreshFailed? ==>
                  next == Rethrow(result.error)
                  && forall i :: 0 <= i < |c.queue| ==> delivered[i].signal == Reject(result.error))
            && (result.RefreshSucceeded? ==>
                  next == Retry(req.fetchUrl, RetryOptions(variant, req, storeAfter))
                  && forall i :: 0 <= i < |c.queue| ==>
                       delivered[i].signal == Resolve(RefreshedToken(variant, req, storeAfter)))
  {
    match result
    case RefreshSucceeded =>
      DeliveriesFanOut(c.queue, None, RefreshedToken(variant, req, storeAfter));
    case RefreshFailed(e) =>
      DeliveriesFanOut(c.queue, Some(e), None);
  }

  /**
   * How the refreshing caller's own call settles: the retry's outcome on
   * its response, or the rethrown refresh error.
   */
  function CallerOutcome(next: Continuation, retryResponse: Response): Settled
  {
    match next
    case Retry(_, _) => RetryOutcome(retryResponse)
    case Rethrow(e) => Rejected(Refresh(e))
  }

  /**
   * How a waiter's call settles on its signal: `reject(error)` rejects it
   * with the refresh error, `resolve` runs the replay (None: never settles).
   */
  function WaiterOutcome(signal: Signal, replayResponse: Response): Option<Settled>
  {
    match signal
    case Resolve(_) => ReplayOutcome(replayResponse)
    case Reject(e) => Some(Rejected(Refresh(e)))
  }

  /**
   * A failed refresh rejects every call that took part in it with the
   * refresh error: the refreshing caller through the rethrow, each queued
   * waiter through `reject`; no request is sent again.
   */
  lemma FailedRefreshRejectsEveryone(c: Coordination, variant: Variant, req: PreparedRequest, e: RefreshError,
                                     storeAfter: TokenStore, r: Response)
    ensures var settled := OnRefreshSettled(c, variant, req, RefreshFailed(e), storeAfter);
            && CallerOutcome(settled.2, r) == Rejected(Refresh(e))
            && |settled.1| == |c.queue|
            && forall i :: 0 <= i < |c.queue| ==> WaiterOutcome(settled.1[i].signal, r) == Some(Rejected(Refresh(e)))
  {
    DeliveriesFanOut(c.queue, Some(e), None);
  }

  /**
   * A successful refresh settles the refreshing caller as its retry does and
   * every queued waiter as its replay does.
   */
  lemma SucceededRefreshReplaysEveryone(c: Coordination, variant: Variant, req: PreparedRequest,
                                        storeAfter: TokenStore, r: Response)
    ensures var settled := OnRefreshSettled(c, variant, req, RefreshSucceeded, storeAfter);
            && CallerOutcome(settled.2, r) == RetryOutcome(r)
            && |settled.1| == |c.queue|
            && forall i :: 0 <= i < |c.queue| ==> WaiterOutcome(settled.1[i].signal, r) == ReplayOutcome(r)
  {
    DeliveriesFanOut(c.queue, None, RefreshedToken(variant, req, storeAfter));
  }

  /** A response outside the refresh path leaves flag and queue as they were. */
  lemma IneligibleResponseKeepsState(c: Coordination, req: PreparedRequest, r: Response)
    requires !Eligible401(req.url, r)
    ensures OnResponse(c, req, r) == (c, Settles(SettleResponse(r)))
  {
  }

  /** A 401 on an eligible path never leaves the call settled at once. */
  lemma Eligible401NeverSettlesAtOnce(c: Coordination, req: PreparedRequest, r: Response)
    requires Eligible401(req.url, r)
    ensures var c', step := OnResponse(c, req, r).0, OnResponse(c, req, r).1;
            c'.refreshing
            && (step == StartsRefresh <==> !c.refreshing)
            && (step == StartsRefresh ==> c'.queue == c.queue)
            && (step == Enqueued <==> c.refreshing)
            && (step == Enqueued ==> c'.queue == c.queue + [WaiterOf(req)])
  {
  }

  /** Waiters are added only while a refresh is in flight, and drained when it settles. */
  predicate QueueOnlyWhileRefreshing(c: Coordination) {
    !c.refreshing ==> c.queue == []
  }

  /** Both events keep the queue empty whenever no refresh is in flight. */
  lemma QueueOnlyWhileRefreshingKept(c: Coordination, variant: Variant, req: PreparedRequest, r: Response,
                                     result: RefreshResult, storeAfter: TokenStore)
    requires QueueOnlyWhileRefreshing(c)
    ensures QueueOnlyWhileRefreshing(OnResponse(c, req, r).0)
    ensures QueueOnlyWhileRefreshing(OnRefreshSettled(c, variant, req, result, storeAfter).0)
  {
  }

  /** A request together with its first response. */
  datatype Arrival = Arrival(request: PreparedRequest, response: Response)

  predicate AllEligible401(arrivals: seq<Arrival>) {
    forall k :: 0 <= k < |arrivals| ==> Eligible401(arrivals[k].request.url, arrivals[k].response)
  }

  /** The first responses of several concurrent requests arrive in this order. */
  function Feed(c: Coordination, arrivals: seq<Arrival>): (Coordination, seq<Step>)
    decreases |arrivals|
  {
    if arrivals == [] then (c, [])
    else
      var (c1, step) := OnResponse(c, arrivals[0].request, arrivals[0].response);
      var (c2, steps) := Feed(c1, arrivals[1..]);
      (c2, [step] + steps)
  }

  function Waiters(arrivals: seq<Arrival>): (ws: seq<Waiter>)
    ensures |ws| == |arrivals|
    ensures forall k :: 0 <= k < |arrivals| ==> ws[k] == WaiterOf(arrivals[k].request)
  {
    if arrivals == [] then [] else [WaiterOf(arrivals[0].request)] + Waiters(arrivals[1..])
  }

  /** While a refresh is in flight, every eligible 401 joins the queue and none starts a refresh. */
  lemma {:induction false} WhileRefreshingAllAreQueued(c: Coordination, arrivals: seq<Arrival>)
    requires c.refreshing && AllEligible401(arrivals)
    ensures Feed(c, arrivals).0 == Coordination(true, c.queue + Waiters(arrivals))
    ensures |Feed(c, arrivals).1| == |arrivals|
    ensures forall k :: 0 <= k < |arrivals| ==> Feed(c, arrivals).1[k] == Enqueued
    decreases |arrivals|
  {
    if arrivals != [] {
      var c1 := c.(queue := c.queue + [WaiterOf(arrivals[0].request)]);
      assert OnResponse(c, arrivals[0].request, arrivals[0].response) == (c1, Enqueued);
      WhileRefreshingAllAreQueued(c1, arrivals[1..]);
      assert Waiters(arrivals) == [WaiterOf(arrivals[0].request)] + Waiters(arrivals[1..]);
      assert c1.queue + Waiters(arrivals[1..]) == c.queue + Waiters(arrivals);
    }
  }

  /**
   * N concurrent eligible 401s with no refresh in flight: the first starts
   * the one refresh, the other N - 1 are queued in arrival order.
   */
  lemma {:induction false} ExactlyOneRefreshStarts(c: Coordination, arrivals: seq<Arrival>)
    requires !c.refreshing && AllEligible401(arrivals) && |arrivals| > 0
    ensures var c', steps := Feed(c, arrivals).0, Feed(c, arrivals).1;
            && c' == Coordination(true, c.queue + Waiters(arrivals[1..]))
            && |steps| == |arrivals|
            && steps[0] == StartsRefresh
            && forall k :: 1 <= k < |arrivals| ==> steps[k] == Enqueued
  {
    var c1 := c.(refreshing := true);
    assert OnResponse(c, arrivals[0].request, arrivals[0].response) == (c1, StartsRefresh);
    WhileRefreshingAllAreQueued(c1, arrivals[1..]);
  }

  /**
   * From the idle state, N concurrent eligible 401s and the settling of the
   * one refresh: every other request is signalled exactly once, in arrival
   * order, with the refresh's outcome, and the state is idle again.
   */
  lemma {:induction false} OneRefreshServesEveryWaiter(arrivals: seq<Arrival>, variant: Variant, result: RefreshResult,
                                                      storeAfter: TokenStore)
    requires AllEligible401(arrivals) && |arrivals| > 0
    ensures var c := Feed(Idle, arrivals).0;
            var settled := OnRefreshSettled(c, variant, arrivals[0].request, result, storeAfter);
            var token := RefreshedToken(variant, arrivals[0].request, storeAfter);
            && settled.0 == Idle
            && |settled.1| == |arrivals| - 1
            && forall k :: 1 <= k < |arrivals| ==>
                 settled.1[k - 1] == Delivery(WaiterOf(arrivals[k].request), SignalFor(FailureOf(result), token))
  {
    ExactlyOneRefreshStarts(Idle, arrivals);
    var c := Feed(Idle, arrivals).0;
    assert c.queue == Waiters(arrivals[1..]);
    var token := RefreshedToken(variant, arrivals[0].request, storeAfter);
    DeliveriesFanOut(c.queue, FailureOf(result), if result.RefreshFailed? then None else token);
  }

  /**
   * The TypeScript retry carries the token read after the refresh; with no
   * token stored the header is the literal `Bearer null`. Nothing else in the
   * options changes.
   */
  lemma TypeScriptRetryRereadsToken(req: PreparedRequest, storeAfter: TokenStore)
    ensures var h := RetryOptions(TypeScript, req, storeAfter).headers;
            h[AuthorizationHeaderKey]
              == if AccessTokenKey in storeAfter then "Bearer " + storeAfter[AccessTokenKey] else "Bearer null"
    ensures RetryOptions(TypeScript, req, storeAfter).headers - {AuthorizationHeaderKey}
              == req.config.headers - {AuthorizationHeaderKey}
    ensures var o := RetryOptions(TypeScript, req, storeAfter);
            o.httpMethod == req.config.httpMethod && o.body == req.config.body && o.rest == req.config.rest
  {
  }

  /**
   * The JavaScript retry reuses the token read before the first request,
   * whatever the refresh stored: with a token that header is the one first
   * sent, so the retry re-sends the original options unchanged; the waiters
   * are resolved with that same token.
   */
  lemma JavaScriptRetryReusesPreRequestToken(baseURL: string, url: string, options: RequestOptions,
                                             storeBefore: TokenStore, storeAfter: TokenStore)
    ensures var req := Prepare(JavaScript, baseURL, url, options, storeBefore);
            RetryOptions(JavaScript, req, storeAfter).headers[AuthorizationHeaderKey]
              == if AccessTokenKey in storeBefore then "Bearer " + storeBefore[AccessTokenKey] else "Bearer null"
    ensures var req := Prepare(JavaScript, baseURL, url, options, storeBefore);
            HasToken(req.accessToken) ==> RetryOptions(JavaScript, req, storeAfter) == req.config
    ensures var req := Prepare(JavaScript, baseURL, url, options, storeBefore);
            RefreshedToken(JavaScript, req, storeAfter) == GetItem(storeBefore, AccessTokenKey)
  {
    var req := Prepare(JavaScript, baseURL, url, options, storeBefore);
    if HasToken(req.accessToken) {
      assert req.config.headers[AuthorizationHeaderKey] == BearerValue(req.accessToken);
      assert req.config.headers[AuthorizationHeaderKey := BearerValue(req.accessToken)] == req.config.headers;
    }
  }

  /**
   * In both twins a queued request is replayed with the options it was first
   * sent with: its Authorization header is the pre-refresh one, whatever the
   * refresh stored.
   */
  lemma ReplayReusesOriginalHeaders(variant: Variant, baseURL: string, url: string, options: RequestOptions,
                                    storeBefore: TokenStore)
    requires AccessTokenKey in storeBefore && storeBefore[AccessTokenKey] != ""
    ensures var w := WaiterOf(Prepare(variant, baseURL, url, options, storeBefore));
            w.fetchUrl == baseURL + url
            && w.options.headers[AuthorizationHeaderKey] == "Bearer " + storeBefore[AccessTokenKey]
  {
  }
}
