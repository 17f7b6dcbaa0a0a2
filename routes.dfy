/** The two cache-aside GET handlers (src/app/api/historical/route.ts and
    src/app/api/indices/route.ts).  Both share one response cache and one
    market-data client; a handler serves a fresh cache entry as is, and on
    a miss asks the client, caches a success under its key and reports the
    limiter's state beside the data. */
module Routes {
  import opened Types
  import opened Text
  import opened Markets
  import opened RateLimiting
  import opened Http
  import opened CoinApi
  import opened Cache

  /** What the shared cache holds: a history series or an index list. */
  datatype Payload = History(candles: seq<Candle>) | Indices(quotes: seq<CryptoIndex>)

  /** A handler's JSON reply: `{success: true, data, cached, rateLimitInfo}`
      with status 200, or `{success: false, error}` with status 500. */
  datatype RouteResponse =
    | Served(data: Payload, cached: bool, rateLimitInfo: RateLimitInfo)
    | Failed(error: string, status: int)

  const DEFAULT_SYMBOL: string := "BTC"
  const DEFAULT_DAYS: int := 30
  const INDICES_KEY: string := "crypto-indices"

  /** `searchParams.get('symbol') || 'BTC'`: an absent or empty parameter
      selects Bitcoin. */
  function SymbolOrDefault(param: Option<string>): (symbol: string)
    ensures param.None? || param.value == "" ==> symbol == DEFAULT_SYMBOL
    ensures param.Some? && param.value != "" ==> symbol == param.value
  {
    if param.None? || param.value == "" then DEFAULT_SYMBOL else param.value
  }

  /** `parseInt(searchParams.get('days') || '30')`, where `Some(n)` is the
      parsed value of a non-empty parameter. */
  function DaysOrDefault(param: Option<int>): (days: int)
    ensures param.None? ==> days == DEFAULT_DAYS
    ensures param.Some? ==> days == param.value
  {
    if param.None? then DEFAULT_DAYS else param.value
  }

  /** `historical-${symbol}-${days}`: a fixed prefix, the symbol, a hyphen
      and the decimal day count. */
  function HistoricalKey(symbol: string, days: int): (key: string)
    ensures |key| == 12 + |symbol| + |IntToString(days)|
    ensures key[..11] == "historical-" && key[11..11 + |symbol|] == symbol
    ensures key[11 + |symbol|] == '-' && key[12 + |symbol|..] == IntToString(days)
  {
    "historical-" + symbol + "-" + IntToString(days)
  }

  /** Distinct (symbol, days) pairs get distinct cache entries, whenever
      neither symbol has a hyphen or neither day count is negative. */
  lemma HistoricalKeyInjective(s1: string, d1: int, s2: string, d2: int)
    requires ('-' !in s1 && '-' !in s2) || (d1 >= 0 && d2 >= 0)
    requires HistoricalKey(s1, d1) == HistoricalKey(s2, d2)
    ensures s1 == s2 && d1 == d2
  {
    var k1, k2 := HistoricalKey(s1, d1), HistoricalKey(s2, d2);
    if '-' !in s1 && '-' !in s2 {
      assert k1[11..] == s1 + ['-'] + IntToString(d1);
      assert k2[11..] == s2 + ['-'] + IntToString(d2);
      SplitAtFirst(s1, IntToString(d1), s2, IntToString(d2), '-');
    } else {
      var x1, x2 := "historical-" + s1, "historical-" + s2;
      assert '-' !in IntToString(d1) by {
        assert forall k :: 0 <= k < |IntToString(d1)| ==> IsDigit(IntToString(d1)[k]);
      }
      assert '-' !in IntToString(d2) by {
        assert forall k :: 0 <= k < |IntToString(d2)| ==> IsDigit(IntToString(d2)[k]);
      }
      assert k1 == x1 + ['-'] + IntToString(d1);
      assert k2 == x2 + ['-'] + IntToString(d2);
      SplitAtLast(x1, IntToString(d1), x2, IntToString(d2), '-');
      assert s1 == x1[|"historical-"|..] == x2[|"historical-"|..] == s2;
    }
    IntToStringInjective(d1, d2);
  }

  /** No history entry ever occupies the index list's entry. */
  lemma HistoricalKeyIsNotIndicesKey(symbol: string, days: int)
    ensures HistoricalKey(symbol, days) != INDICES_KEY
  {
    assert HistoricalKey(symbol, days)[0] == 'h' != INDICES_KEY[0];
  }

  /** The entry the historical route reads and writes for its parameters;
      an empty symbol parameter reads the same entry as an absent one. */
  function HistoricalCacheKey(symbolParam: Option<string>, daysParam: Option<int>): (key: string)
    ensures symbolParam.None? && daysParam.None? ==> key == "historical-BTC-30"
    ensures symbolParam == Some("") ==> key == HistoricalKey(DEFAULT_SYMBOL, DaysOrDefault(daysParam))
  {
    HistoricalKey(SymbolOrDefault(symbolParam), DaysOrDefault(daysParam))
  }

  /** `GET /api/historical?symbol=..&days=..` at `now`.  On a fresh entry the
      cached series is served without an upstream call; on a miss the
      client's `getHistoricalData` for the requested symbol and day count
      decides: a failure is a 500 that caches nothing, a success is served
      and cached for the default lifetime.  `fetched` is the client's
      answer, `None` on a hit; `events` and `issued` are what the client
      asked of the limiter and sent upstream, empty on a hit. */
  method HistoricalGet(symbolParam: Option<string>, daysParam: Option<int>, now: int,
                       api: CoinApiClient, cache: CacheManager<Payload>)
    returns (resp: RouteResponse, ghost fetched: Option<ApiResponse<seq<Candle>>>,
             ghost events: seq<Event>, ghost issued: seq<Request>)
    requires api.Valid()
    modifies cache, api.rateLimiter, api.http
    ensures api.Valid()
    ensures api.rateLimiter.history == old(api.rateLimiter.history) + events
    ensures api.http.sent == old(api.http.sent) + issued
    ensures RecordsFollowAdmission(old(api.rateLimiter.history)) ==> RecordsFollowAdmission(api.rateLimiter.history)
    ensures var key := HistoricalCacheKey(symbolParam, daysParam);
            var hit := Lookup(old(cache.store), key, now);
            (hit.Some? ==>
               && fetched.None? && events == [] && issued == []
               && api.rateLimiter.State() == old(api.rateLimiter.State())
               && resp == Served(hit.value, true, Info(api.rateLimiter.State(), api.rateLimiter.Caps(), now))
               && cache.store == old(cache.store)) &&
            (hit.None? ==>
               && fetched.Some?
               && api.HistoricalDataOutcome(SymbolOrDefault(symbolParam), DaysOrDefault(daysParam), now,
                                            old(api.rateLimiter.State()), api.rateLimiter.State(),
                                            events, issued, fetched.value)
               && (fetched.value.Failure? ==>
                     && resp == Failed(fetched.value.error, 500)
                     && cache.store == AfterGet(old(cache.store), key, now))
               && (fetched.value.Success? ==>
                     && SortedByTime(fetched.value.data)
                     && resp == Served(History(fetched.value.data), false,
                                       Info(api.rateLimiter.State(), api.rateLimiter.Caps(), now))
                     && cache.store == Store(AfterGet(old(cache.store), key, now), key,
                                             History(fetched.value.data), None, cache.defaultTTL, now)))
    ensures resp.Failed? ==> resp.status == 500
    ensures resp.Served? && RecordsFollowAdmission(api.rateLimiter.history)
            && api.rateLimiter.Caps().perMinute >= 0 && api.rateLimiter.Caps().perMonth >= 0 ==>
              resp.rateLimitInfo.requestsRemaining >= 0
  {
    var symbol := SymbolOrDefault(symbolParam);
    var days := DaysOrDefault(daysParam);
    var cacheKey := HistoricalKey(symbol, days);
    var cachedData := cache.Get(cacheKey, now);
    events, issued := [], [];
    if cachedData.Some? {
      var info := api.GetRateLimitInfo(now);
      fetched := None;
      resp := Served(cachedData.value, true, info);
      return;
    }
    var result;
    result, events, issued := api.GetHistoricalData(symbol, days, now);
    api.HistoricalDataSorted(symbol, days, now, old(api.rateLimiter.State()), api.rateLimiter.State(),
                             events, issued, result);
    fetched := Some(result);
    if result.Failure? {
      resp := Failed(result.error, 500);
      return;
    }
    cache.Set(cacheKey, History(result.data), None, now);
    var info := api.GetRateLimitInfo(now);
    resp := Served(History(result.data), false, info);
  }

  /** `GET /api/indices` at `now`: the same cache-aside pattern over the
      client's `getExchangeRates`, under one fixed key. */
  method IndicesGet(now: int, api: CoinApiClient, cache: CacheManager<Payload>)
    returns (resp: RouteResponse, ghost fetched: Option<ApiResponse<seq<CryptoIndex>>>,
             ghost events: seq<Event>, ghost issued: seq<Request>)
    requires api.Valid()
    modifies cache, api.rateLimiter, api.http
    ensures api.Valid()
    ensures api.rateLimiter.history == old(api.rateLimiter.history) + events
    ensures api.http.sent == old(api.http.sent) + issued
    ensures RecordsFollowAdmission(old(api.rateLimiter.history)) ==> RecordsFollowAdmission(api.rateLimiter.history)
    ensures var hit := Lookup(old(cache.store), INDICES_KEY, now);
            (hit.Some? ==>
               && fetched.None? && events == [] && issued == []
               && api.rateLimiter.State() == old(api.rateLimiter.State())
               && resp == Served(hit.value, true, Info(api.rateLimiter.State(), api.rateLimiter.Caps(), now))
               && cache.store == old(cache.store)) &&
            (hit.None? ==>
               && fetched.Some?
               && api.ExchangeRatesOutcome(now, old(api.rateLimiter.State()), api.rateLimiter.State(),
                                           events, issued, fetched.value)
               && (fetched.value.Failure? ==>
                     && resp == Failed(fetched.value.error, 500)
                     && cache.store == AfterGet(old(cache.store), INDICES_KEY, now))
               && (fetched.value.Success? ==>
                     && resp == Served(Indices(fetched.value.data), false,
                                       Info(api.rateLimiter.State(), api.rateLimiter.Caps(), now))
                     && cache.store == Store(AfterGet(old(cache.store), INDICES_KEY, now), INDICES_KEY,
                                             Indices(fetched.value.data), None, cache.defaultTTL, now)))
    ensures resp.Failed? ==> resp.status == 500
    ensures resp.Served? && RecordsFollowAdmission(api.rateLimiter.history)
            && api.rateLimiter.Caps().perMinute >= 0 && api.rateLimiter.Caps().perMonth >= 0 ==>
              resp.rateLimitInfo.requestsRemaining >= 0
  {
    var cacheKey := "crypto-indices";
    var cachedData := cache.Get(cacheKey, now);
    events, issued := [], [];
    if cachedData.Some? {
      var info := api.GetRateLimitInfo(now);
      fetched := None;
      resp := Served(cachedData.value, true, info);
      return;
    }
    var result;
    result, events, issued := api.GetExchangeRates(now);
    fetched := Some(result);
    if result.Failure? {
      resp := Failed(result.error, 500);
      return;
    }
    cache.Set(cacheKey, Indices(result.data), None, now);
    var info := api.GetRateLimitInfo(now);
    resp := Served(Indices(result.data), false, info);
  }

  /** Two requests for the same series: when the first one fetched and
      cached, the second, within the default lifetime, is served the very
      same data from the cache without an upstream call; and as long as the
      limiter's history kept its discipline before, neither reply reports a
      negative budget. */
  method HistoricalGetTwice(symbolParam: Option<string>, daysParam: Option<int>, now1: int, now2: int,
                            api: CoinApiClient, cache: CacheManager<Payload>)
    returns (first: RouteResponse, second: RouteResponse, ghost sentBetween: seq<Request>)
    requires api.Valid()
    requires now1 <= now2 <= now1 + cache.defaultTTL * 1000
    modifies cache, api.rateLimiter, api.http
    ensures api.Valid()
    ensures first.Served? && !first.cached ==>
              && second.Served? && second.cached && second.data == first.data
              && api.http.sent == sentBetween
    ensures RecordsFollowAdmission(old(api.rateLimiter.history))
            && api.rateLimiter.Caps().perMinute >= 0 && api.rateLimiter.Caps().perMonth >= 0 ==>
              (first.Served? ==> first.rateLimitInfo.requestsRemaining >= 0) &&
              (second.Served? ==> second.rateLimitInfo.requestsRemaining >= 0)
  {
    ghost var f1, f2, e1, e2, i1, i2;
    first, f1, e1, i1 := HistoricalGet(symbolParam, daysParam, now1, api, cache);
    sentBetween := api.http.sent;
    second, f2, e2, i2 := HistoricalGet(symbolParam, daysParam, now2, api, cache);
    if first.Served? && !first.cached {
      SetThenGet(AfterGet(old(cache.store), HistoricalCacheKey(symbolParam, daysParam), now1),
                 HistoricalCacheKey(symbolParam, daysParam), first.data, None, cache.defaultTTL, now1, now2);
    }
  }
}
