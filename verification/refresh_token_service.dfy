/** lib/services/refreshTokenService.ts: the refresh call through the
    cookie-based `/api/refresh-token` route, with its own reentrancy flag,
    and the single 10-minute keep-alive interval.

    `callRefreshTokenAPI` is split at its one `await`: `BeginRefresh` is
    the synchronous part up to sending the request, `SettleRefresh` the part
    that runs when the request settles. The request never writes tokens
    anywhere the client reads them: the route sets cookies. Interval handles
    come from a counter standing for the host's `setInterval`. */
module RefreshService {
  import opened Js

  const RefreshIntervalMs := 10 * 60 * 1000

  /** How the `fetch` of the refresh route settled: a response with its
      `ok` flag and status, or a thrown error. */
  datatype FetchOutcome = Responded(ok: bool, status: int) | Threw

  /** A `setInterval` registration: its handle and its period. */
  datatype Interval = Interval(handle: nat, periodMs: nat)

  predicate Succeeded(outcome: FetchOutcome) {
    outcome.Responded? && outcome.ok
  }

  class RefreshTokenService {
    var isRefreshing: bool
    var intervalId: Option<Interval>
    /** The handle the next `setInterval` returns; browsers hand out positive ids. */
    var nextHandle: nat
    /** Intervals created and not yet cleared. */
    ghost var liveIntervals: set<nat>
    /** Refresh requests sent so far. */
    ghost var requestsSent: nat

    ghost predicate Valid()
      reads this
    {
      && nextHandle > 0
      && liveIntervals == (if intervalId.Some? then {intervalId.value.handle} else {})
      && (intervalId.Some? ==> 0 < intervalId.value.handle < nextHandle && intervalId.value.periodMs == RefreshIntervalMs)
    }

    constructor ()
      ensures Valid() && !isRefreshing && intervalId == None && requestsSent == 0
    {
      isRefreshing := false;
      intervalId := None;
      nextHandle := 1;
      liveIntervals := {};
      requestsSent := 0;
    }

    /** At most one interval is ever live. */
    lemma AtMostOneInterval()
      requires Valid()
      ensures |liveIntervals| <= 1
    {
    }

    /** The synchronous part of `callRefreshTokenAPI()`. While a refresh is in
        flight the call returns false at once and changes nothing; otherwise
        the flag is raised and one request is sent. */
    method BeginRefresh() returns (sent: bool)
      requires Valid()
      modifies this
      ensures Valid()
      ensures sent == !old(isRefreshing)
      ensures isRefreshing
      ensures intervalId == old(intervalId) && nextHandle == old(nextHandle)
      ensures requestsSent == old(requestsSent) + (if sent then 1 else 0)
    {
      if isRefreshing {
        return false;
      }
      isRefreshing := true;
      requestsSent := requestsSent + 1;
      sent := true;
    }

    /** The rest of `callRefreshTokenAPI()` once the request settles: an ok
        response yields true and restarts the timer; a non-ok response or a
        thrown error yields false and leaves the timer alone. The `finally`
        lowers the flag on every path. */
    method SettleRefresh(outcome: FetchOutcome) returns (success: bool)
      requires Valid() && isRefreshing
      modifies this
      ensures Valid()
      ensures success == Succeeded(outcome)
      ensures !isRefreshing
      ensures requestsSent == old(requestsSent)
      ensures success ==> intervalId == Some(Interval(old(nextHandle), RefreshIntervalMs)) && nextHandle == old(nextHandle) + 1
      ensures !success ==> intervalId == old(intervalId) && nextHandle == old(nextHandle)
    {
      if Succeeded(outcome) {
        ResetTimer();
        success := true;
      } else {
        success := false;
      }
      isRefreshing := false;
    }

    /** `startTimer()`: clears any live interval first, then creates one
        firing every 600000 ms, so exactly one is live afterwards. */
    method StartTimer()
      requires Valid()
      modifies this
      ensures Valid()
      ensures intervalId == Some(Interval(old(nextHandle), RefreshIntervalMs)) && nextHandle == old(nextHandle) + 1
      ensures liveIntervals == {old(nextHandle)}
      ensures isRefreshing == old(isRefreshing) && requestsSent == old(requestsSent)
    {
      StopTimer();
      intervalId := Some(Interval(nextHandle, RefreshIntervalMs));
      liveIntervals := liveIntervals + {nextHandle};
      nextHandle := nextHandle + 1;
    }

    /** `stopTimer()`: clears and forgets the live interval; with none set it
        does nothing, so calling it twice is calling it once. */
    method StopTimer()
      requires Valid()
      modifies this
      ensures Valid()
      ensures intervalId == None && liveIntervals == {}
      ensures nextHandle == old(nextHandle)
      ensures isRefreshing == old(isRefreshing) && requestsSent == old(requestsSent)
    {
      if intervalId.Some? {
        liveIntervals := liveIntervals - {intervalId.value.handle};
        intervalId := None;
      }
    }

    /** `resetTimer()`: exactly `startTimer()`. */
    method ResetTimer()
      requires Valid()
      modifies this
      ensures Valid()
      ensures intervalId == Some(Interval(old(nextHandle), RefreshIntervalMs)) && nextHandle == old(nextHandle) + 1
      ensures liveIntervals == {old(nextHandle)}
      ensures isRefreshing == old(isRefreshing) && requestsSent == old(requestsSent)
    {
      StartTimer();
    }

    /** The live interval fires: its callback calls `callRefreshTokenAPI()`
        and ignores the result. With no live interval nothing fires. */
    method OnIntervalFired()
      requires Valid()
      modifies this
      ensures Valid()
      ensures intervalId == old(intervalId) && nextHandle == old(nextHandle)
      ensures isRefreshing == (old(isRefreshing) || intervalId.Some?)
      ensures requestsSent == old(requestsSent) + (if !old(isRefreshing) && intervalId.Some? then 1 else 0)
    {
      if intervalId.Some? {
        var _ := BeginRefresh();
      }
    }
  }
}
