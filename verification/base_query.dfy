/** lib/store/api/baseQuery.ts: the wrapper every API call goes through.

    The module-level `failedRequestsQueue` and `isRefreshingToken` become the
    fields of a `Gateway`, which also holds the refresh service and the
    browser it shares with the rest of the client. The asynchronous flow is
    driven by three events: the response to a request's first attempt
    (`OnResponse`), the settling of the refresh request (`OnRefreshSettled`)
    and a tick of the keep-alive interval (`OnTimerTick`). What the server
    answers to a replayed request is the function `server` of the request
    and the headers it is sent with. */
module BaseQuery {
  import opened Js
  import opened BrowserEnv
  import TokenManager
  import opened RefreshService

  /** RTK Query's `FetchBaseQueryError.status`: an HTTP status or one of the
      library's own failure kinds. */
  datatype ErrorStatus = Http(code: int) | FetchError | ParsingError | TimeoutError | CustomError

  /** What `baseQuery` resolves with: data, or an error with an optional
      `data.message`. */
  datatype QueryResult = Data(body: string) | Error(status: ErrorStatus, message: Option<string>)

  /** One call of `baseQueryWithReauth`: the promise it returns is identified
      by `callId`; `url` is the string argument or `args.url`, which may be
      missing. */
  datatype Request = Request(callId: nat, url: Option<string>)

  /** A queued caller's promise resolved with a result. */
  datatype Delivery = Delivery(callId: nat, result: QueryResult)

  type Headers = map<string, string>

  const ContentType := "Content-Type"
  const Authorization := "Authorization"
  const JsonMediaType := "application/json"
  const RefreshFailedMessage := "Token refresh failed"

  /** The synthetic result every queued caller gets when the refresh fails. */
  const RefreshFailed := Error(Http(401), Some(RefreshFailedMessage))

  /** `prepareHeaders`: always `Content-Type: application/json`, and
      `Authorization: Bearer <token>` exactly when the token manager holds a
      non-empty access token. */
  function PrepareHeaders(b: Browser): (h: Headers)
    reads b
    ensures ContentType in h && h[ContentType] == JsonMediaType
    ensures Authorization in h <==> Truthy(TokenManager.GetAccessToken(b))
    ensures Authorization in h ==> h[Authorization] == "Bearer " + TokenManager.GetAccessToken(b).value
    ensures h.Keys <= {ContentType, Authorization}
  {
    var token := TokenManager.GetAccessToken(b);
    var h := map[ContentType := JsonMediaType];
    if Truthy(token) then h[Authorization := "Bearer " + token.value] else h
  }

  /** The header `prepareHeaders` sets is the one `tokenManager.getAuthHeader()`
      builds. */
  lemma AuthorizationIsAuthHeader(b: Browser)
    ensures Authorization in PrepareHeaders(b) <==> TokenManager.GetAuthHeader(b).Some?
    ensures Authorization in PrepareHeaders(b) ==> PrepareHeaders(b)[Authorization] == TokenManager.GetAuthHeader(b).value
  {
  }

  predicate IsUnauthorized(r: QueryResult) {
    r.Error? && r.status == Http(401)
  }

  const AuthArea := "/auth/"

  /** The paths whose 401 is returned as-is, in the order the code tests
      them. */
  const AuthPaths := ["/auth/login", "/auth/register", "/auth/verify-otp", "/auth/resend-otp", "/auth/refresh-token"]

  /** The `||` chain of `includes` tests over `paths`. */
  function IncludesAny(u: string, paths: seq<string>): (r: bool)
    requires forall k | 0 <= k < |paths| :: StartsWith(paths[k], AuthArea)
    ensures r <==> exists k | 0 <= k < |paths| :: Includes(u, paths[k])
    ensures r ==> Includes(u, AuthArea)
  {
    if paths == [] then false
    else if Includes(u, paths[0]) then IncludesPrefix(u, paths[0], AuthArea); true
    else
      var rest := IncludesAny(u, paths[1..]);
      assert rest <==> exists k | 1 <= k < |paths| :: Includes(u, paths[k]) by {
        if rest {
          var k :| 0 <= k < |paths[1..]| && Includes(u, paths[1..][k]);
          assert Includes(u, paths[k + 1]);
        }
      }
      rest
  }

  /** The URLs whose 401 is returned as-is: one of the five auth paths
      occurs in them. All five lie under `/auth/`, so a URL outside it is
      never exempt and its 401 always waits for a refresh. */
  function ExemptFromRefresh(url: Option<string>): (r: bool)
    ensures r <==> url.Some? && exists k | 0 <= k < |AuthPaths| :: Includes(url.value, AuthPaths[k])
    ensures r ==> Includes(url.value, AuthArea)
  {
    assert forall k | 0 <= k < |AuthPaths| :: AuthPaths[k][..|AuthArea|] == AuthArea;
    url.Some? && IncludesAny(url.value, AuthPaths)
  }

  /** `/auth/` has an `a` in it, so a URL without an `a` lies outside it. */
  lemma OutsideAuthWithoutA(url: string)
    requires 'a' !in url
    ensures !Includes(url, AuthArea)
  {
    if Includes(url, AuthArea) {
      assert AuthArea[1] == 'a';
      IncludedCharOccurs(url, AuthArea, 'a');
    }
  }

  /** A 401 the gateway parks: every other result goes straight back. */
  predicate Parks(req: Request, result: QueryResult) {
    IsUnauthorized(result) && !ExemptFromRefresh(req.url)
  }

  function CallIds(s: seq<Request>): (ids: seq<nat>)
    ensures |ids| == |s|
    ensures forall k | 0 <= k < |s| :: ids[k] == s[k].callId
  {
    if s == [] then [] else [s[0].callId] + CallIds(s[1..])
  }

  function DeliveredIds(d: seq<Delivery>): (ids: seq<nat>)
    ensures |ids| == |d|
    ensures forall k | 0 <= k < |d| :: ids[k] == d[k].callId
  {
    seq(|d|, k requires 0 <= k < |d| => d[k].callId)
  }

  /** The deliveries of a successful refresh: each queued request in turn,
      answered by the server under headers `h`. */
  function Retried(queue: seq<Request>, h: Headers, server: (Request, Headers) -> QueryResult): seq<Delivery> {
    seq(|queue|, k requires 0 <= k < |queue| => Delivery(queue[k].callId, server(queue[k], h)))
  }

  /** The deliveries of a failed refresh. */
  function FailedAll(queue: seq<Request>): seq<Delivery> {
    seq(|queue|, k requires 0 <= k < |queue| => Delivery(queue[k].callId, RefreshFailed))
  }

  /** The `for` loop of the success path: each snapshotted request is sent
      again once, in arrival order, with the headers read afresh, and its
      caller resolved with the result; a 401 on retry is delivered, not
      queued again. */
  method RetryQueued(queueToProcess: seq<Request>, b: Browser, server: (Request, Headers) -> QueryResult)
    returns (deliveries: seq<Delivery>)
    ensures deliveries == Retried(queueToProcess, PrepareHeaders(b), server)
    ensures DeliveredIds(deliveries) == CallIds(queueToProcess)
  {
    deliveries := [];
    for i := 0 to |queueToProcess|
      invariant |deliveries| == i
      invariant forall k | 0 <= k < i ::
        deliveries[k] == Delivery(queueToProcess[k].callId, server(queueToProcess[k], PrepareHeaders(b)))
    {
      var headers := PrepareHeaders(b);
      var retryResult := server(queueToProcess[i], headers);
      deliveries := deliveries + [Delivery(queueToProcess[i].callId, retryResult)];
    }
  }

  /** The `forEach` of the failure path: every snapshotted caller is resolved,
      in order, with `{status: 401, data: {message: 'Token refresh failed'}}`. */
  method FailQueued(queueToProcess: seq<Request>) returns (deliveries: seq<Delivery>)
    ensures deliveries == FailedAll(queueToProcess)
    ensures DeliveredIds(deliveries) == CallIds(queueToProcess)
    ensures forall k | 0 <= k < |deliveries| :: IsUnauthorized(deliveries[k].result)
  {
    deliveries := [];
    for i := 0 to |queueToProcess|
      invariant |deliveries| == i
      invariant forall k | 0 <= k < i :: deliveries[k] == Delivery(queueToProcess[k].callId, RefreshFailed)
    {
      deliveries := deliveries + [Delivery(queueToProcess[i].callId, RefreshFailed)];
    }
  }

  class Gateway {
    var failedRequestsQueue: seq<Request>
    var isRefreshingToken: bool
    const service: RefreshTokenService
    const browser: Browser

    /** The gateway only waits on a refresh the service has in flight, and
        callers are parked exactly while it waits. */
    ghost predicate Valid()
      reads this, service
    {
      && service.Valid()
      && (isRefreshingToken ==> service.isRefreshing)
      && (failedRequestsQueue != [] <==> isRefreshingToken)
    }

    constructor (service: RefreshTokenService, browser: Browser)
      requires service.Valid()
      ensures Valid() && failedRequestsQueue == [] && !isRefreshingToken
      ensures this.service == service && this.browser == browser
    {
      this.service := service;
      this.browser := browser;
      failedRequestsQueue := [];
      isRefreshingToken := false;
    }

    /** The `.then` of the refresh call: lower the flag, snapshot and empty
        the queue, then replay every snapshotted request or fail them all and
        send the client to the login page. */
    method Drain(success: bool, server: (Request, Headers) -> QueryResult) returns (deliveries: seq<Delivery>)
      requires service.Valid() && isRefreshingToken
      modifies this, browser
      ensures Valid()
      ensures !isRefreshingToken && failedRequestsQueue == []
      ensures success ==> deliveries == Retried(old(failedRequestsQueue), PrepareHeaders(browser), server)
      ensures success ==> browser.localStorage == old(browser.localStorage) && browser.href == old(browser.href)
      ensures !success ==> deliveries == FailedAll(old(failedRequestsQueue))
      ensures !success ==> browser.href == (if browser.hasWindow then LoginPage else old(browser.href))
      ensures DeliveredIds(deliveries) == CallIds(old(failedRequestsQueue))
      ensures browser.localStorage == old(browser.localStorage) && browser.cookies == old(browser.cookies)
    {
      isRefreshingToken := false;
      var queueToProcess := failedRequestsQueue;
      failedRequestsQueue := [];
      if success {
        deliveries := RetryQueued(queueToProcess, browser, server);
      } else {
        deliveries := FailQueued(queueToProcess);
        if browser.hasWindow {
          browser.href := LoginPage;
        }
      }
    }

    /** The response to a request's first attempt. A result that is not a
        401, or a 401 from an auth URL, is returned unchanged. Any other 401
        parks the caller at the tail of the queue; the first one also starts
        the refresh. When the service already has a keep-alive refresh in
        flight, the refresh call answers false at once and the queue fails
        immediately. */
    method OnResponse(req: Request, result: QueryResult) returns (returned: Option<QueryResult>, deliveries: seq<Delivery>)
      requires Valid()
      modifies this, service, browser
      ensures Valid()
      ensures browser.localStorage == old(browser.localStorage) && browser.cookies == old(browser.cookies)
      ensures service.intervalId == old(service.intervalId)
      ensures service.requestsSent <= old(service.requestsSent) + 1
      ensures !Parks(req, result) ==>
        && returned == Some(result) && deliveries == []
        && failedRequestsQueue == old(failedRequestsQueue) && isRefreshingToken == old(isRefreshingToken)
        && service.isRefreshing == old(service.isRefreshing) && service.requestsSent == old(service.requestsSent)
        && browser.href == old(browser.href)
      ensures Parks(req, result) && old(isRefreshingToken) ==>
        && returned == None && deliveries == []
        && failedRequestsQueue == old(failedRequestsQueue) + [req] && isRefreshingToken
        && service.requestsSent == old(service.requestsSent) && browser.href == old(browser.href)
      ensures Parks(req, result) && !old(isRefreshingToken) && !old(service.isRefreshing) ==>
        && returned == None && deliveries == []
        && failedRequestsQueue == [req] && isRefreshingToken
        && service.requestsSent == old(service.requestsSent) + 1 && browser.href == old(browser.href)
      ensures Parks(req, result) && !old(isRefreshingToken) && old(service.isRefreshing) ==>
        && returned == None && deliveries == [Delivery(req.callId, RefreshFailed)]
        && failedRequestsQueue == [] && !isRefreshingToken
        && service.requestsSent == old(service.requestsSent)
        && browser.href == (if browser.hasWindow then LoginPage else old(browser.href))
    {
      deliveries := [];
      if !Parks(req, result) {
        return Some(result), [];
      }
      returned := None;
      failedRequestsQueue := failedRequestsQueue + [req];
      if !isRefreshingToken {
        isRefreshingToken := true;
        var sent := service.BeginRefresh();
        if !sent {
          deliveries := Drain(false, (r, h) => RefreshFailed);
        }
      }
    }

    /** The refresh request settles. If the gateway started it, the service
        settles first (its `finally` runs before the gateway's `.then`), then
        the queue drains. A keep-alive refresh settles in the service alone.
        The refresh writes no token the gateway reads, so replays carry the
        same `Authorization` header as the attempts that got the 401. */
    method OnRefreshSettled(outcome: FetchOutcome, server: (Request, Headers) -> QueryResult)
      returns (deliveries: seq<Delivery>)
      requires Valid()
      modifies this, service, browser
      ensures Valid()
      ensures !isRefreshingToken && !service.isRefreshing
      ensures browser.localStorage == old(browser.localStorage) && browser.cookies == old(browser.cookies)
      ensures PrepareHeaders(browser) == old(PrepareHeaders(browser))
      ensures service.requestsSent == old(service.requestsSent)
      ensures old(service.isRefreshing) && Succeeded(outcome) ==>
        service.intervalId == Some(Interval(old(service.nextHandle), RefreshIntervalMs))
        && service.nextHandle == old(service.nextHandle) + 1
      ensures !(old(service.isRefreshing) && Succeeded(outcome)) ==>
        service.intervalId == old(service.intervalId) && service.nextHandle == old(service.nextHandle)
      ensures !old(isRefreshingToken) ==>
        deliveries == [] && failedRequestsQueue == [] && browser.href == old(browser.href)
      ensures old(isRefreshingToken) && Succeeded(outcome) ==>
        && deliveries == Retried(old(failedRequestsQueue), old(PrepareHeaders(browser)), server)
        && browser.href == old(browser.href)
      ensures old(isRefreshingToken) && !Succeeded(outcome) ==>
        && deliveries == FailedAll(old(failedRequestsQueue))
        && browser.href == (if browser.hasWindow then LoginPage else old(browser.href))
      ensures DeliveredIds(deliveries) == CallIds(old(failedRequestsQueue))
    {
      deliveries := [];
      if !service.isRefreshing {
        return;
      }
      var success := service.SettleRefresh(outcome);
      if isRefreshingToken {
        deliveries := Drain(success, server);
      }
    }

    /** A tick of the keep-alive interval: the service may start a refresh of
        its own; the gateway's queue and flag are untouched. */
    method OnTimerTick()
      requires Valid()
      modifies service
      ensures Valid()
      ensures service.isRefreshing == (old(service.isRefreshing) || service.intervalId.Some?)
      ensures service.requestsSent <= old(service.requestsSent) + 1
      ensures service.intervalId == old(service.intervalId)
    {
      service.OnIntervalFired();
    }
  }

  lemma ScenarioRequestsPark(r1: Request, r2: Request, r3: Request, result: QueryResult)
    requires r1.url == Some("/posts") && r2.url == Some("/users") && r3.url == Some("/posts/7")
    requires result == Error(Http(401), None)
    ensures Parks(r1, result) && Parks(r2, result) && Parks(r3, result)
  {
    OutsideAuthWithoutA(r1.url.value);
    OutsideAuthWithoutA(r2.url.value);
    OutsideAuthWithoutA(r3.url.value);
  }

  /** Three 401s in a row on an idle gateway: the first starts the one
      refresh, and all three callers wait in the order their 401s came. */
  method ParkThree(gateway: Gateway, r1: Request, r2: Request, r3: Request, result: QueryResult)
    requires gateway.Valid() && !gateway.isRefreshingToken && !gateway.service.isRefreshing
    requires Parks(r1, result) && Parks(r2, result) && Parks(r3, result)
    modifies gateway, gateway.service, gateway.browser
    ensures gateway.Valid() && gateway.isRefreshingToken
    ensures gateway.failedRequestsQueue == [r1, r2, r3]
    ensures gateway.service.requestsSent == old(gateway.service.requestsSent) + 1
  {
    var returned, d := gateway.OnResponse(r1, result);
    assert gateway.failedRequestsQueue == [r1];
    returned, d := gateway.OnResponse(r2, result);
    assert gateway.failedRequestsQueue == [r1, r2];
    returned, d := gateway.OnResponse(r3, result);
  }

  /** Three calls get a 401 while no refresh is in flight, then the refresh
      succeeds: the callers get their replayed results in the order their
      401s arrived. */
  method ConcurrentUnauthorizedScenario(server: (Request, Headers) -> QueryResult)
    returns (deliveries: seq<Delivery>)
    ensures DeliveredIds(deliveries) == [1, 2, 3]
  {
    var service := new RefreshTokenService();
    var browser := new Browser(true, map[TokenManager.AccessTokenKey := "A1"], map[], "/posts");
    var gateway := new Gateway(service, browser);
    var unauthorized := Error(Http(401), None);
    var r1, r2, r3 := Request(1, Some("/posts")), Request(2, Some("/users")), Request(3, Some("/posts/7"));
    ScenarioRequestsPark(r1, r2, r3, unauthorized);
    ParkThree(gateway, r1, r2, r3, unauthorized);
    assert CallIds(gateway.failedRequestsQueue) == [1, 2, 3];
    deliveries := gateway.OnRefreshSettled(Responded(true, 200), server);
  }

  /** A keep-alive refresh is in flight when a 401 arrives: the gateway's
      refresh call answers false at once, the caller gets the synthetic 401
      and the client is sent to the login page. */
  method TimerRefreshInFlightScenario() returns (deliveries: seq<Delivery>, href: string)
    ensures deliveries == [Delivery(1, RefreshFailed)]
    ensures href == LoginPage
  {
    var service := new RefreshTokenService();
    service.StartTimer();
    var browser := new Browser(true, map[], map[], "/posts");
    var gateway := new Gateway(service, browser);
    gateway.OnTimerTick();
    var returned;
    OutsideAuthWithoutA("/posts");
    returned, deliveries := gateway.OnResponse(Request(1, Some("/posts")), Error(Http(401), None));
    href := browser.href;
  }
}
