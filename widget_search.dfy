/** The public storefront search of server/routes/api/widget/search.js: a per-IP fixed-window
    rate limiter (30 requests per 60-second window) kept in a process-wide table, the periodic
    sweep that drops windows that have ended, and the handler behind it, which searches the
    global catalog only and caps the page size at 20.

    The clock is the `now` parameter (milliseconds). The catalog search is modelled in the
    Catalog module; here its outcome is an input. */
module WidgetSearch {
  import opened Wrappers
  import opened JsValues
  import Catalog
  import SearchRoute

  const WindowMs := 60 * 1000
  const MaxRequests := 30
  const MaxWidgetLimit := 20
  const DefaultLimit := 10

  /** The table entry of one IP: requests admitted in its window, and when the window ends. */
  datatype Window = Window(count: int, resetTime: int)

  /** A window has ended once the clock is strictly past its reset time. */
  predicate Expired(w: Window, now: int) {
    now > w.resetTime
  }

  /** Every window holds between 1 and 30 admitted requests. */
  predicate Bounded(m: map<string, Window>) {
    forall ip :: ip in m ==> 1 <= m[ip].count <= MaxRequests
  }

  datatype Admission = Admission(allowed: bool, table: map<string, Window>)

  /** `rateLimit`: an unseen IP or an ended window starts a new window with one request; a
      window that already holds 30 requests rejects and stays as it is; otherwise the request
      is admitted and counted. Only the requesting IP's entry is touched. */
  function Admit(m: map<string, Window>, ip: string, now: int): (a: Admission)
    ensures ip !in m ==> a == Admission(true, m[ip := Window(1, now + WindowMs)])
    ensures ip in m && Expired(m[ip], now) ==> a == Admission(true, m[ip := Window(1, now + WindowMs)])
    ensures ip in m && !Expired(m[ip], now) ==>
      (!a.allowed <==> m[ip].count >= MaxRequests)
      && (a.allowed ==> a.table == m[ip := Window(m[ip].count + 1, m[ip].resetTime)])
      && (!a.allowed ==> a.table == m)
    ensures ip in a.table && a.table.Keys == m.Keys + {ip}
    ensures forall k :: k in m && k != ip ==> a.table[k] == m[k]
    ensures Bounded(m) ==> Bounded(a.table)
  {
    if ip !in m then Admission(true, m[ip := Window(1, now + WindowMs)])
    else
      var w := m[ip];
      if now > w.resetTime then Admission(true, m[ip := Window(1, now + WindowMs)])
      else if w.count >= MaxRequests then Admission(false, m)
      else Admission(true, m[ip := Window(w.count + 1, w.resetTime)])
  }

  /** The outcomes of successive requests from one IP at the given times. */
  function Outcomes(m: map<string, Window>, ip: string, times: seq<int>): (r: seq<bool>)
    ensures |r| == |times|
    decreases |times|
  {
    if times == [] then []
    else
      var a := Admit(m, ip, times[0]);
      [a.allowed] + Outcomes(a.table, ip, times[1..])
  }

  /** Within a window that already holds `c` requests, the `i`-th further request is admitted
      exactly when `c + i < 30`. */
  lemma {:induction false} OutcomesWithinWindow(m: map<string, Window>, ip: string, c: int, reset: int, times: seq<int>)
    requires ip in m && m[ip] == Window(c, reset) && 1 <= c <= MaxRequests
    requires forall i :: 0 <= i < |times| ==> times[i] <= reset
    ensures Outcomes(m, ip, times) == seq(|times|, i => c + i < MaxRequests)
    decreases |times|
  {
    if times != [] {
      var a := Admit(m, ip, times[0]);
      var c' := if c < MaxRequests then c + 1 else c;
      assert a.table[ip] == Window(c', reset);
      OutcomesWithinWindow(a.table, ip, c', reset, times[1..]);
      var rest := seq(|times| - 1, i => c' + i < MaxRequests);
      assert forall i :: 0 <= i < |rest| ==> rest[i] == (c + (i + 1) < MaxRequests);
    }
  }

  /** A first request from an IP opens a window; of it and the requests that follow before the
      window ends, exactly the first 30 are admitted and every later one is rejected. */
  lemma ThirtyPerWindow(m: map<string, Window>, ip: string, t0: int, times: seq<int>)
    requires ip !in m
    requires forall i :: 0 <= i < |times| ==> times[i] <= t0 + WindowMs
    ensures Outcomes(m, ip, [t0] + times) == seq(1 + |times|, i => i < MaxRequests)
  {
    var a := Admit(m, ip, t0);
    assert ([t0] + times)[1..] == times;
    OutcomesWithinWindow(a.table, ip, 1, t0 + WindowMs, times);
  }

  /** The table after a sweep at `now`: the windows that have not ended. */
  function Swept(m: map<string, Window>, now: int): (r: map<string, Window>)
    ensures forall ip :: ip in r <==> ip in m && !Expired(m[ip], now)
    ensures forall ip :: ip in r ==> r[ip] == m[ip]
  {
    map ip | ip in m && !Expired(m[ip], now) :: m[ip]
  }

  /** The process-wide `requestCounts` table. */
  class RateLimiter {
    var requestCounts: map<string, Window>

    predicate Valid()
      reads this
    {
      Bounded(requestCounts)
    }

    constructor ()
      ensures requestCounts == map[] && Valid()
    {
      requestCounts := map[];
    }

    /** The middleware: `allowed` is whether the request reaches the handler. */
    method RateLimit(ip: string, now: int) returns (allowed: bool)
      requires Valid()
      modifies this
      ensures Valid()
      ensures Admission(allowed, requestCounts) == Admit(old(requestCounts), ip, now)
    {
      if ip !in requestCounts {
        requestCounts := requestCounts[ip := Window(1, now + WindowMs)];
        return true;
      }
      var limit := requestCounts[ip];
      if now > limit.resetTime {
        requestCounts := requestCounts[ip := limit.(count := 1, resetTime := now + WindowMs)];
        return true;
      }
      if limit.count >= MaxRequests {
        return false;
      }
      requestCounts := requestCounts[ip := limit.(count := limit.count + 1)];
      allowed := true;
    }

    /** The periodic sweep: visits every entry and deletes those whose window has ended. */
    method Cleanup(now: int)
      requires Valid()
      modifies this
      ensures Valid()
      ensures requestCounts == Swept(old(requestCounts), now)
    {
      ghost var before := requestCounts;
      var pending := requestCounts.Keys;
      while pending != {}
        invariant pending <= before.Keys
        invariant forall ip :: ip in requestCounts <==> ip in before && (ip in pending || !Expired(before[ip], now))
        invariant forall ip :: ip in requestCounts ==> requestCounts[ip] == before[ip]
        decreases pending
      {
        var ip :| ip in pending;
        if now > requestCounts[ip].resetTime {
          requestCounts := requestCounts - {ip};
        }
        pending := pending - {ip};
      }
      assert requestCounts == Swept(before, now);
    }
  }

  // ---------------------------------------------------------------------------------------
  // The handler

  datatype WidgetBody = WidgetBody(
    query: Option<JsValue>, context: Option<JsValue>, limit: Option<int>, minPrice: Option<int>,
    maxPrice: Option<int>, shipsTo: Option<JsValue>, includeSecondhand: Option<JsValue>)

  /** 429, 400, 500 with the error thrown, or 200 with the offers and instructions. */
  datatype WidgetResponse =
    | TooManyRequests
    | BadRequest
    | Failed(error: Error)
    | Results(query: string, count: JsValue, products: JsValue, instructions: JsValue)

  /** `Math.min(limit, 20)` with `limit` defaulting to 10. */
  function WidgetLimit(limit: Option<int>): (r: int)
    ensures r <= MaxWidgetLimit
    ensures limit.None? ==> r == DefaultLimit
    ensures limit.Some? ==> r == limit.value || (r == MaxWidgetLimit && limit.value > MaxWidgetLimit)
  {
    var l := limit.GetOr(DefaultLimit);
    if l < MaxWidgetLimit then l else MaxWidgetLimit
  }

  function WidgetOptions(body: WidgetBody, query: string): Catalog.GlobalSearchOptions {
    Catalog.GlobalSearchOptions(query, body.context, Some(WidgetLimit(body.limit)), body.minPrice,
                                body.maxPrice, body.shipsTo, body.includeSecondhand)
  }

  /** `results.offers?.length || 0` */
  function OfferCount(offers: JsValue): (r: JsValue)
    ensures offers.Arr? ==> r == Num(|offers.elems|)
    ensures offers.Str? ==> r == Num(|offers.s|)
    ensures Truthy(r) || r == Num(0)
  {
    if offers == Null then Num(0) else OrElse(Member(Some(offers), "length").value, Num(0))
  }

  datatype WidgetExchange = WidgetExchange(call: Option<Catalog.GlobalSearchOptions>, response: WidgetResponse)

  /** The handler proper, once the limiter has let the request through. */
  function HandleWidgetSearch(body: WidgetBody, outcome: Result<Catalog.GlobalSearchResult, Error>)
    : (x: WidgetExchange)
    ensures !SearchRoute.ValidQuery(body.query) <==> x.response == BadRequest
    ensures !SearchRoute.ValidQuery(body.query) ==> x.call.None?
    ensures SearchRoute.ValidQuery(body.query) ==>
      && x.call == Some(WidgetOptions(body, body.query.value.s))
      && x.call.value.limit.value <= MaxWidgetLimit
      && (outcome.Err? ==> x.response == Failed(outcome.error))
      && (outcome.Ok? ==> x.response == Results(body.query.value.s, OfferCount(outcome.value.offers),
                                                 OrElse(Some(outcome.value.offers), Arr([])),
                                                 OrElse(Some(outcome.value.instructions), Str(""))))
  {
    if !SearchRoute.ValidQuery(body.query) then WidgetExchange(None, BadRequest)
    else
      var query := body.query.value.s;
      var call := WidgetOptions(body, query);
      match outcome
      case Err(e) => WidgetExchange(Some(call), Failed(e))
      case Ok(results) =>
        WidgetExchange(Some(call), Results(query, OfferCount(results.offers),
                                           OrElse(Some(results.offers), Arr([])),
                                           OrElse(Some(results.instructions), Str(""))))
  }

  /** `POST /api/widget/search`: the limiter runs first and counts every request, valid or
      not; a rejected request reaches neither the validation nor the catalog. */
  method WidgetSearchRoute(limiter: RateLimiter, ip: string, now: int, body: WidgetBody,
                           outcome: Result<Catalog.GlobalSearchResult, Error>)
    returns (x: WidgetExchange)
    requires limiter.Valid()
    modifies limiter
    ensures limiter.Valid()
    ensures var a := Admit(old(limiter.requestCounts), ip, now);
      && limiter.requestCounts == a.table
      && (!a.allowed ==> x == WidgetExchange(None, TooManyRequests))
      && (a.allowed ==> x == HandleWidgetSearch(body, outcome))
  {
    var allowed := limiter.RateLimit(ip, now);
    if !allowed {
      return WidgetExchange(None, TooManyRequests);
    }
    x := HandleWidgetSearch(body, outcome);
  }
}
