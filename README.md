# Crypto indices back end: a verified model

This project models the data-acquisition core of a small crypto-market dashboard.

- **Quota tracker.** The market-data client's rate limiter keeps a trailing one-minute window of request instants and a monthly counter that rolls over after thirty days.
- **Client.** The upstream client fetches quotes for six tracked symbols and historical daily candles. Every upstream call is preceded by a check of the quota tracker and a record of the request. For a quote the primary exchange is tried first. If that lookup throws, the client tries three alternate exchanges in order. If it answers with no periods, the client asks for a plain exchange rate instead; the alternates are not tried then.
- **Response cache.** Entries carry an absolute expiry and are evicted lazily by the read that finds them expired.
- **GET handlers.** The two handlers (`/api/historical` and `/api/indices`) serve a fresh cache entry as is. On a miss they ask the client, cache a success and report the quota beside the data.

The model in Dafny:

- **The clock is explicit.** Every operation takes the current instant `now` in milliseconds. One orchestration of the client runs at a single instant. The code awaits every upstream call and pauses 150 ms after each quote it builds from the primary exchange's periods, so its clock moves within an orchestration; the model does not follow that (see "Left out").
- **The upstream is a class, `Http.Upstream`.** It holds fixed reply functions for the three endpoints and a log `sent` of every request sent.
  - A reply is an `Outcome`: a body, a missing body, or a thrown error with an optional HTTP status.
- **The rate limiter, `RateLimiting.RateLimiter`, is a class.** Its fields hold the window, the counter and the month start.
  - A ghost `history` of `Checked(answer)` and `Recorded` events records what it was asked.
  - The value-level functions `Purge`, `Admits`, `Record` and `Info` are what its methods are proved against.
- **Each orchestration is stated with `Orderly`.** Every client method returns the events it caused and the requests it sent, and states that they are orderly:
  - the orchestration begins with a check;
  - every check reports what the limiter answers in the state the earlier events left;
  - every record follows an admitting check, and there is one upstream call per record;
  - the final state is the replay of the events.
- **Each orchestration has a reference value.** It is what the client returns when the limiter denies nothing:
  - `Expected` and `ExpectedUpTo` for the quote batch;
  - `FirstFallback` and `FirstHistory` for the alternate-exchange searches.

  Each method is proved equal to its reference value when no check in it denies. It is proved sound (`Explained`) when one does.
- **The client's outcome is a named predicate.** `HistoricalDataOutcome` and `ExchangeRatesOutcome` collect everything the two public client methods promise. The handlers restate them for the parameters the request carries.
- **The upstream's answers are fixed for the client's lifetime.** The reply functions of `Http.Upstream` are constants, so the same request always gets the same answer, also across handler calls.
- **The cache is a class, `Cache.CacheManager`.** Its store is a `map` from keys to entries, and it is proved against the value functions `Store`, `Lookup` and `AfterGet`.
- **Both handlers share one cache of `Payload` values.** The handlers are methods over the client and that cache.

A denial in the middle of the quote batch does not surface as "Rate limit exceeded": it ends the batch, and the quotes of the turns before it are served. The batch is stated turn by turn: each turn's events, requests and quote are logged, the served list is the logged quotes in order, and the log pins the turn of the first denial. In the history fallback a denial ends the search with "Failed to fetch historical data from all exchanges".

## Model

| member | source | states |
|---|---|---|
| RateLimiting.Recent | src/lib/api/coinapi.ts:22 | the filtered window is never longer than the original |
| RateLimiting.RecentMembers | src/lib/api/coinapi.ts:22 | an instant survives the one-minute filter exactly when it was present and is strictly later than the cutoff |
| RateLimiting.RecentAppend | src/lib/api/coinapi.ts:22 | the filter keeps order: filtering a concatenation concatenates the filtered parts |
| RateLimiting.RecentKeepsFresh | src/lib/api/coinapi.ts:22 | when every instant is later than the cutoff the filter drops nothing |
| RateLimiting.RecentDropsStale | src/lib/api/coinapi.ts:42 | when no instant is later than the cutoff the filter drops everything |
| RateLimiting.RecentIdempotent | src/lib/api/coinapi.ts:22 | filtering twice with one cutoff is filtering once |
| RateLimiting.MaxOf | src/lib/api/coinapi.ts:49 | `Math.max` of a non-empty list is an element of it and bounds every element |
| RateLimiting.PurgeSettles | src/lib/api/coinapi.ts:16-28 | after the housekeeping the window holds exactly the earlier instants later than now - 60000, and the month began at most thirty days ago |
| RateLimiting.SettledIsFixpoint | src/lib/api/coinapi.ts:21-28 | a settled state is left alone by the housekeeping |
| RateLimiting.PurgeIdempotent | src/lib/api/coinapi.ts:16-28 | polling twice at one instant changes nothing the first poll did not |
| RateLimiting.RolloverOncePerPeriod | src/lib/api/coinapi.ts:25-28 | a rollover zeroes the counter and restarts the month at now; no poll in the next thirty days resets it again |
| RateLimiting.RolloverIffMonthElapsed | src/lib/api/coinapi.ts:25-28 | the month restarts exactly when more than thirty days have elapsed since it began |
| RateLimiting.ChargeShape | src/lib/api/coinapi.ts:34-37 | n records at one instant append n copies of it to the window and add n to the monthly counter |
| RateLimiting.ChargeSettled | src/lib/api/coinapi.ts:34-37 | records at now keep a state settled at now |
| RateLimiting.FullWindowDenies | src/lib/api/coinapi.ts:30-31 | a window already holding the per-minute cap of recent instants denies the next request |
| RateLimiting.RecentDropsAged | src/lib/api/coinapi.ts:21-22 | an instant at or before the cutoff is dropped, so the filtered window is strictly shorter |
| RateLimiting.AgedOutAdmits | src/lib/api/coinapi.ts:16-31 | once an instant of a window holding at most the per-minute cap is a minute old, the housekeeping leaves the window under that cap and, with room in the month, the check admits again |
| RateLimiting.ResetTimeClearsWindow | src/lib/api/coinapi.ts:49 | at or after the reported reset time the housekeeping empties the window |
| RateLimiting.InfoNonNegative | src/lib/api/coinapi.ts:44-48 | within both caps the reported remaining budget is never negative |
| RateLimiting.DenialAppend | src/lib/api/coinapi.ts:87-90 | extending a log whose denials are final by denials only keeps its denials final |
| RateLimiting.ReplayAppend | src/lib/api/coinapi.ts:16-37 | replaying two event runs one after the other is replaying their concatenation |
| RateLimiting.LegalAppend | src/lib/api/coinapi.ts:16-37 | legal events from the state legal events left extend them legally |
| RateLimiting.OrderlyCheck | src/lib/api/coinapi.ts:16-32 | a single check is an orderly orchestration with no upstream call |
| RateLimiting.OrderlyThenRecord | src/lib/api/coinapi.ts:34-37 | a record after an admitting check, plus the call it pays for, keeps an orchestration orderly |
| RateLimiting.OrderlyCompose | src/lib/api/coinapi.ts:108 | two orderly orchestrations at one instant in sequence are one orderly orchestration, and a denial lies in their union exactly when it lies in one of them |
| RateLimiting.OrderlyCharges | src/lib/api/coinapi.ts:16-37 | an orderly orchestration charges exactly one request at now per upstream call on top of its first check's housekeeping, and leaves the limiter settled |
| RateLimiting.OrderlyKeepsDiscipline | src/lib/api/coinapi.ts:87-96 | appending an orderly orchestration to a history in which every record follows an admitting check keeps that so |
| RateLimiting.OrderlyDenialIsFinal | src/lib/api/coinapi.ts:87-90 | in an orderly orchestration every record follows an admitting check; after a denial every event is a denial and the limiter still denies; a first check that denies means no upstream call |
| RateLimiting.OrderlyDenialPersists | src/lib/api/coinapi.ts:87-90 | after an orderly orchestration that contained a denial, every event of the next orderly orchestration at the same instant is a denial |
| RateLimiting.RateLimiter.constructor | src/lib/api/coinapi.ts:11-14 | an empty window, a zero counter, the month starting at construction, the given caps |
| RateLimiting.RateLimiter.CanMakeRequest | src/lib/api/coinapi.ts:16-32 | the new state is the purge of the old, and the answer is true exactly when both budgets have room in it |
| RateLimiting.RateLimiter.RecordRequest | src/lib/api/coinapi.ts:34-37 | now is appended to the window and the monthly counter grows by one; after an admitting check both caps still hold |
| RateLimiting.RateLimiter.GetRateLimitInfo | src/lib/api/coinapi.ts:39-51 | the remaining budget is the smaller of the two budgets' remainders, never negative under the check-then-record discipline; the reset time is one minute after the latest recorded request, absent for an empty window |
| Text.SplitAtFirst | src/app/api/historical/route.ts:11 | two strings that begin with a separator-free head and the separator split at the same place |
| Text.ToLowerAscii | src/lib/api/coinapi.ts:147 | `toLowerCase` lower-cases each ASCII letter and keeps every other character, at the same position |
| Text.IntToStringSign | src/app/api/historical/route.ts:11 | the decimal rendering of an integer starts with a minus sign exactly for negative numbers |
| Text.IntToStringInjective | src/app/api/historical/route.ts:11 | distinct integers render to distinct decimal strings |
| Text.ParseNatToString | src/app/api/historical/route.ts:11 | reading a number's decimal rendering back gives the number |
| Markets.SymbolIdParts | src/lib/api/coinapi.ts:95 | a symbol id starts with the exchange and `_SPOT_`, carries the symbol next, and ends with `_` and the quote currency |
| Markets.QuoteCurrency | src/lib/api/coinapi.ts:237 | the quote currency is USDT exactly on Binance and USD everywhere else |
| Markets.PrimaryQuoteRequest | src/lib/api/coinapi.ts:94-103 | the primary quote lookup is an OHLCV request for two daily periods |
| Markets.PrimaryQuoteMarket | src/lib/api/coinapi.ts:95 | the primary quote lookup's id begins with `BITSTAMP_SPOT_` and ends with `_USD` |
| Markets.FallbackQuoteRequest | src/lib/api/coinapi.ts:237-245 | an alternate quote lookup is an OHLCV request for two daily periods |
| Markets.FallbackQuoteMarket | src/lib/api/coinapi.ts:237 | an alternate quote lookup's id begins with the exchange and `_SPOT_` and ends with `_` and the exchange's quote currency |
| Markets.HistoryRequest | src/lib/api/coinapi.ts:329-337 | a history lookup is an OHLCV request for days + 1 daily periods |
| Markets.HistoryMarket | src/lib/api/coinapi.ts:384-392 | a history lookup's id begins with the exchange and `_SPOT_` and ends with `_USD` on every exchange, Binance included |
| Markets.FallbacksAskOtherMarkets | src/lib/api/coinapi.ts:228-245 | no alternate quote or history lookup asks the primary exchange's market, whatever the symbols and day counts |
| Markets.HasCandles | src/lib/api/coinapi.ts:105 | a reply that lists periods is never a 404 or 550 failure; a reply with a body and no periods has an empty body |
| Markets.IsFallbackStatus | src/lib/api/coinapi.ts:362 | the history lookup falls back after exactly two replies: a failure with status 404 and one with status 550 |
| Markets.SymbolIdInjective | src/lib/api/coinapi.ts:237 | a symbol id `EXCHANGE_SPOT_SYMBOL_QUOTE` determines its exchange, symbol and quote currency when none holds an underscore |
| Markets.SymbolIndex | src/lib/api/coinapi.ts:82 | a tracked symbol's batch position is its index in the list; other symbols come after all of them |
| Markets.TrackedSymbolIndex | src/lib/api/coinapi.ts:82 | the i-th tracked symbol has batch position i |
| Markets.CryptoNameCoversTracked | src/lib/api/coinapi.ts:277-287 | every tracked symbol has a name of its own in the table; any other symbol the client passes is shown as itself |
| Markets.CryptoName | src/lib/api/coinapi.ts:277-287 | a symbol the client passes is shown as itself exactly when it is not tracked; a tracked symbol gets a non-empty name |
| Markets.Supply | src/lib/api/coinapi.ts:289-300 | the tabled supply is at least a million units, exactly a million for any other symbol the client passes |
| Markets.EstimateMarketCap | src/lib/api/coinapi.ts:289-300 | the estimate is at least a million times a non-negative price, exactly that for any other symbol the client passes |
| Markets.VolumeMultiplier | src/lib/api/coinapi.ts:302-314 | the volume fraction lies in (0, 0.5], 0.1 for any other symbol the client passes |
| Markets.EstimateVolume | src/lib/api/coinapi.ts:302-314 | for a non-negative price the estimated volume is at least zero and at most half the estimated market cap, positive for a positive price |
| Markets.AssetMarketCap | src/lib/api/coinapi.ts:126-144 | the asset's total supply times the price when the body has a non-zero 24-hour volume and a non-zero supply; the estimate in every other case |
| Markets.PercentChange | src/lib/api/coinapi.ts:122 | not finite exactly when the previous price is zero; otherwise the value times the previous price is a hundred times the difference, and zero for an unchanged price |
| Markets.QuoteFromRows | src/lib/api/coinapi.ts:116-123 | the quote's symbol is the requested one, its price the newest close and its volume the newest period's |
| Markets.SinglePeriodHasNoChange | src/lib/api/coinapi.ts:117-122 | with one period the previous is the current: the change is zero and the percentage zero, or not finite for a zero price |
| Markets.TwoPeriodChange | src/lib/api/coinapi.ts:116-121 | with two or more periods the change is the newest close minus the one before |
| Markets.RateQuote | src/lib/api/coinapi.ts:203-220 | the exchange-rate quote has the rate as price and a flat 2% estimated change |
| Markets.Candles | src/lib/api/coinapi.ts:340-347 | the candles map the rows one to one, in order, field by field |
| CoinApi.SortByTimestamp | src/lib/api/coinapi.ts:349-352 | the array ends sorted ascending by period start and is a permutation of what it held |
| CoinApi.SortedCandles | src/lib/api/coinapi.ts:340-352 | the served series is sorted by period start and is a permutation of the mapped rows |
| CoinApi.CoinApiClient.constructor | src/lib/api/coinapi.ts:58-70 | the client talks to the given upstream through a fresh rate limiter with an empty window, a zero counter, the month starting now and the given caps |
| CoinApi.CoinApiClient.Admit | src/lib/api/coinapi.ts:231-236 | a check, then a record exactly when it admitted; the two events are orderly |
| CoinApi.CoinApiClient.FallbackRequests | src/lib/api/coinapi.ts:228-245 | the alternate lookups go to Coinbase, Kraken and Binance in that order, Binance quoted in USDT |
| CoinApi.CoinApiClient.FirstFallbackFound | src/lib/api/coinapi.ts:230-274 | the alternate search yields a quote exactly when some exchange from the given one on lists a period, and the quote is that exchange's |
| CoinApi.CoinApiClient.ExpectedIsExplained | src/lib/api/coinapi.ts:86-173 | the quote the batch yields when nothing is denied is for the requested symbol and comes from one of the sources the code draws on; conversely, an explained quote is the reference quote of its symbol up to the market cap, which depends on the asset call's admission |
| CoinApi.CoinApiClient.GetSymbolFallbackData | src/lib/api/coinapi.ts:196-224 | a denial sends nothing and yields nothing; otherwise one exchange-rate request, and a quote exactly when it answers with a rate |
| CoinApi.CoinApiClient.GetSymbolWithFallback | src/lib/api/coinapi.ts:227-275 | the requests are a prefix of the three alternate lookups in order; every exchange asked before the last one listed no period; a quote is returned exactly when the last exchange asked lists one, and it is that exchange's quote with no denial; no quote means all three were asked or a check denied; with no denial the result is exactly the reference search's |
| CoinApi.CoinApiClient.QuoteSearchTurn | src/lib/api/coinapi.ts:230-272 | one turn of the alternate search: a denial or a listed period ends it as the search outcome describes, an empty answer moves to the next exchange with the requests still a prefix, and an empty answer from the last exchange ends it with no quote |
| CoinApi.CoinApiClient.TryExchange | src/lib/api/coinapi.ts:231-271 | one check; if admitted, one record and the k-th alternate lookup, whose quote is returned when it lists a period |
| CoinApi.CoinApiClient.QuoteFromPrimary | src/lib/api/coinapi.ts:125-156 | the quote from the primary periods, with the asset endpoint's market cap when that call is admitted and the estimate otherwise |
| CoinApi.CoinApiClient.FetchAfterAdmission | src/lib/api/coinapi.ts:93-172 | after the loop-head check admits, the primary lookup goes first; periods always give a quote built from them, with the asset lookup's market cap when its check admits and the estimate otherwise, and the asset lookup is the only further request; an empty answer leads only to the exchange rate, quoted exactly when that check admits and the rate is answered; a throw hands over to the alternate search; any quote is for the symbol and explained, and with no denial it is the reference quote |
| CoinApi.CoinApiClient.FetchSymbol | src/lib/api/coinapi.ts:86-173 | a loop-head denial stops the batch with nothing sent and no quote; otherwise a check and a record precede the turn `FetchAfterAdmission` describes, so a primary lookup that lists periods always yields a quote; the stop is exactly the loop-head denial; with no denial the quote is the reference quote |
| CoinApi.CoinApiClient.CollectSymbol | src/lib/api/coinapi.ts:86-173 | the list is the old one followed by the turn's quote if any, the turn being as `FetchSymbol` describes; a stop leaves the list as it was; a turn past the loop head whose primary lookup lists periods adds exactly one quote; the list stays explained and in batch order, and with no denial it extends the reference list by the symbol's reference quote |
| CoinApi.CoinApiClient.BatchStep | src/lib/api/coinapi.ts:86-113 | one turn keeps the batch invariant: with no denial so far the list is the reference list of the symbols done and every primary lookup was sent; after a denial the list is the reference list up to the symbol of the first denial plus at most one quote; the first denial fixes that symbol |
| CoinApi.CoinApiClient.LogStep | src/lib/api/coinapi.ts:86-186 | one turn extends the batch log: its events, requests and quote are appended, the served list stays the log's quotes in order, the turn of the first denial stays pinned, and a turn that stops the batch or the sixth turn completes the run |
| CoinApi.CoinApiClient.DenialPinAppend | src/lib/api/coinapi.ts:87-90 | after one more turn the pinned turn still holds the first denial and no earlier turn holds one |
| CoinApi.CoinApiClient.TurnLogged | src/lib/api/coinapi.ts:86-173 | every logged turn fetched its own tracked symbol as the turn description states |
| CoinApi.CoinApiClient.TurnStep | src/lib/api/coinapi.ts:86-173 | one turn of the batch: a loop-head denial ends the run, and any other turn extends the progress by its symbol |
| CoinApi.CoinApiClient.CollectTurn | src/lib/api/coinapi.ts:86-173 | one loop turn, orderly after the turns before it; a stop only on a denial, and then the run is complete; otherwise the log and the invariant cover one more symbol |
| CoinApi.CoinApiClient.CollectAll | src/lib/api/coinapi.ts:86-186 | the run is logged turn by turn: the k-th turn fetched the k-th tracked symbol as `FetchSymbol` describes, the events and requests are the turns' in order, and the collected list is the turns' quotes in order; every turn but the last passed its loop-head check, and a run of fewer than six turns ends with a turn that is a single denial; the first denial, if any, lies in the pinned turn d and in no turn before it; the list is explained, in batch order, begins with the reference list of the symbols before d and is at most one quote longer; with no denial it is exactly the reference list and every primary lookup was sent |
| CoinApi.CoinApiClient.BatchServesPrimaryQuotes | src/lib/api/coinapi.ts:93-159 | a turn of the run that passed its loop head and whose primary lookup lists periods contributed its quote to the collected list, with the asset's market cap when that check admitted and the estimate otherwise |
| CoinApi.CoinApiClient.GetExchangeRates | src/lib/api/coinapi.ts:72-192 | "Rate limit exceeded" exactly when the first check denies, with nothing sent; an empty batch is "Failed to fetch any exchange rates"; a success is non-empty, explained and in batch order; when the first check admits, the served list (the data of a success, empty otherwise) is the quote log of a run as `CollectAll` states it, so a later denial serves the quotes of the turns before it; with no denial the result is the reference list or that failure when it is empty; a history that kept the check-then-record discipline keeps it |
| CoinApi.CoinApiClient.HistoryFallbackRequests | src/lib/api/coinapi.ts:375-391 | the alternate history lookups go to Coinbase, Kraken and Binance in order, all quoted in USD, for days + 1 periods |
| CoinApi.CoinApiClient.FirstHistoryFound | src/lib/api/coinapi.ts:377-415 | the alternate history search yields rows exactly when some exchange from the given one on answers with a body, and the rows are that exchange's |
| CoinApi.CoinApiClient.TryHistory | src/lib/api/coinapi.ts:378-414 | one check; if admitted, one record and the k-th alternate lookup, whose body yields a sorted permutation of its candles |
| CoinApi.CoinApiClient.GetHistoricalDataFallback | src/lib/api/coinapi.ts:373-421 | the requests are a prefix of the three alternate lookups in order; every exchange asked before the last one answered without a body; a success comes exactly when the last exchange asked answered with one, and is its sorted series with no denial; a failure is "Failed to fetch historical data from all exchanges" after all three were asked or a check denied; with no denial it succeeds exactly when some exchange answers, with the first such exchange's series |
| CoinApi.CoinApiClient.HistorySearchTurn | src/lib/api/coinapi.ts:377-415 | one turn of the alternate history search: a denial or a body ends it as the search outcome describes, a reply without a body moves to the next exchange with the requests still a prefix, and one from the last exchange ends it with the failure |
| CoinApi.CoinApiClient.HistoryAfterAdmission | src/lib/api/coinapi.ts:325-370 | after an admitted check: the primary lookup goes first; a body is its sorted series and a reply without one that is not a 404 or 550 is "Failed to fetch historical data", both with no other request and no limiter event; after a 404 or 550 the requests after the primary and the result are the alternate search's |
| CoinApi.CoinApiClient.GetHistoricalData | src/lib/api/coinapi.ts:316-371 | "Rate limit exceeded" exactly when the first check denies, with nothing sent; otherwise the primary lookup of days + 1 periods goes first: a body gives its sorted series with no other request; a 404 or 550 is followed by the alternate lookups in order, stopping at the first exchange that answers, and yields that search's result; anything else is "Failed to fetch historical data" with no other request; a history that kept the check-then-record discipline keeps it |
| CoinApi.CoinApiClient.HistoricalDataSorted | src/lib/api/coinapi.ts:340-352 | every series the client's history outcome can succeed with is sorted by period start |
| CoinApi.CoinApiClient.GetRateLimitInfo | src/lib/api/coinapi.ts:423-425 | the limiter's report of the current state, never negative under the check-then-record discipline |
| Cache.Expiration | src/lib/cache/index.ts:14 | an absent or zero ttl falls back to the default; any other ttl is used as given |
| Cache.SetThenGet | src/lib/cache/index.ts:13-33 | a read at any instant from the write up to its expiry returns exactly the written data and leaves the store as it is |
| Cache.ExpiredGetEvicts | src/lib/cache/index.ts:27-30 | a read after the expiry misses and removes the key, and no other key |
| Cache.AbsentGetUnchanged | src/lib/cache/index.ts:24-25 | a read of an absent key misses and leaves the store unchanged |
| Cache.GetHitOrGone | src/lib/cache/index.ts:23-33 | a read hits exactly when the key is still stored after it; a hit leaves the store unchanged and returns the stored data |
| Cache.LastWriterWins | src/lib/cache/index.ts:13-21 | of two writes to one key the later one decides the stored entry |
| Cache.OtherKeysUnchanged | src/lib/cache/index.ts:39-41 | writes, reads and deletions of one key leave every other key's presence and entry unchanged |
| Cache.CacheManager.constructor | src/lib/cache/index.ts:8-11 | an empty store with the given default lifetime |
| Cache.CacheManager.Set | src/lib/cache/index.ts:13-21 | the key now holds the data, stamped now, expiring ttl seconds (or the default) later; nothing else changes |
| Cache.CacheManager.Get | src/lib/cache/index.ts:23-33 | the data exactly when the entry is stored and not expired; an expired entry is removed |
| Cache.CacheManager.Has | src/lib/cache/index.ts:35-37 | presence in the store, expired or not; nothing changes |
| Cache.CacheManager.Del | src/lib/cache/index.ts:39-41 | the store loses the key and nothing else |
| Cache.CacheManager.Clear | src/lib/cache/index.ts:43-45 | the store is empty |
| Routes.SymbolOrDefault | src/app/api/historical/route.ts:8 | an absent or empty symbol parameter selects BTC; any other is used as given |
| Routes.DaysOrDefault | src/app/api/historical/route.ts:9 | an absent days parameter selects 30 |
| Routes.HistoricalKey | src/app/api/historical/route.ts:11 | the key is `historical-`, then the symbol, a hyphen and the decimal day count, each at its offset |
| Routes.HistoricalKeyInjective | src/app/api/historical/route.ts:11 | distinct symbols or day counts get distinct cache keys whenever neither symbol has a hyphen or neither count is negative |
| Routes.HistoricalKeyIsNotIndicesKey | src/app/api/indices/route.ts:7 | no history key is the index list's key |
| Routes.HistoricalCacheKey | src/app/api/historical/route.ts:8-11 | with no parameters the key is `historical-BTC-30`; an empty symbol parameter reads BTC's entry |
| Routes.HistoricalGet | src/app/api/historical/route.ts:6-54 | a fresh entry is served cached with no event, no upstream call and no change; on a miss the client's answer for the defaulted symbol and day count satisfies its whole history outcome (the primary lookup first, and after a 404 or 550 the alternate lookups in order up to the first that answers), a failure is a 500 with only the expired entry evicted, and a success is served uncached, cached under the key for the default lifetime, and sorted by period start; the check-then-record discipline is kept, and under it a served reply's remaining budget is never negative |
| Routes.IndicesGet | src/app/api/indices/route.ts:6-50 | the same cache-aside protocol under the constant key, with the client's whole batch outcome on a miss, the turn-by-turn log of the batch included, so a denial in mid-batch serves the quotes of the turns before it |
| Routes.HistoricalGetTwice | src/app/api/historical/route.ts:15-38 | after a fetched and cached success, a second request within the default lifetime is served the same data from the cache with no upstream call; starting from a disciplined history, neither reply reports a negative budget |

## Left out

- Floating point: prices, changes and market caps are exact reals. NaN and Infinity from a zero previous price are one value, `NotFinite`.
- Time formatting and parsing: `lastUpdated` is the instant `now` rather than an ISO string. The sort compares the integer period start where the code compares `new Date(...)` of an ISO string.
- Parameter parsing: `parseInt` of the days parameter is its integer value. A non-numeric parameter (NaN) is not modelled.
- The 150 ms pause after each quote from the primary exchange's periods, concurrency between requests, and the passage of time within one orchestration: each orchestration runs at one instant.
- `RateLimiting.OrderlyDenialIsFinal`: that a denial ends the batch follows from the single instant. In the code the window can drain during the awaits and the pause, so a later check could admit again.
- The outer `catch` blocks ("Failed to fetch exchange rates", "Internal server error"): in the model nothing raises outside the upstream calls, so they cannot be reached.
- The upstream's JSON shapes beyond the fields used. A body that is present while the field read from it is absent (`rate` undefined) is not modelled.
- node-cache internals: its own TTL timer and `getStats` are not modelled.
- `Cache.CacheManager.Has`: node-cache's `has` also checks expiry and deletes an expired key; the model's `Has` reports presence in the store only.
- `Text.ToLowerAscii`: only ASCII letters are lower-cased; Unicode case mapping is not modelled.
- `RateLimiting.RateLimiter.GetRateLimitInfo`: `Math.max` of an empty window is `-Infinity` in the source; the model reports an absent reset time.
- `CoinApi.SortByTimestamp`: the stability of `Array.prototype.sort` is not stated; only sortedness and permutation are.
- `Routes.HistoricalKeyInjective`: holds whenever neither symbol has a hyphen or neither day count is negative. With a hyphen in a symbol and a negative count, two parameter pairs share a key, e.g. ("A-", 5) and ("A", -5).
- `Markets.CryptoName`, `Markets.Supply`, `Markets.VolumeMultiplier`: the tables are plain maps. In the source a symbol that names a member of `Object.prototype` (such as `constructor`) reads that member; the client only passes tracked symbols.
- The status route, the UI components and the environment lookups of the caps, the TTL and the credential are not part of this model. The caps and the TTL are constructor arguments here.
