/** The fetch and fallback orchestration of the market-data client
    (class CoinAPIClient in src/lib/api/coinapi.ts).  Every upstream call is
    preceded by a check of the rate limiter and a record of the request; a
    whole orchestration runs at one instant `now`. */
module CoinApi {
  import opened Types
  import opened Text
  import opened Markets
  import opened RateLimiting
  import opened Http

  // ---------------------------------------------------------------------
  // `historicalData.sort(...)`: an in-place sort by period start

  ghost predicate SortedPrefix(a: array<Candle>, n: int)
    reads a
    requires 0 <= n <= a.Length
  {
    forall k, l :: 0 <= k < l < n ==> a[k].timestamp <= a[l].timestamp
  }

  method Swap(a: array<Candle>, i: int, j: int)
    requires 0 <= i < a.Length && 0 <= j < a.Length
    modifies a
    ensures a[..] == old(a[..])[i := old(a[j])][j := old(a[i])]
    ensures multiset(a[..]) == multiset(old(a[..]))
  {
    a[i], a[j] := a[j], a[i];
  }

  /** Moves a[i] left past every later-starting candle of the sorted prefix a[..i]. */
  method InsertLast(a: array<Candle>, i: int)
    requires 0 <= i < a.Length
    requires SortedPrefix(a, i)
    modifies a
    ensures SortedPrefix(a, i + 1)
    ensures multiset(a[..]) == multiset(old(a[..]))
  {
    var j := i;
    while j > 0 && a[j - 1].timestamp > a[j].timestamp
      invariant 0 <= j <= i
      invariant forall k, l :: 0 <= k < l <= i && k != j && l != j ==> a[k].timestamp <= a[l].timestamp
      invariant forall l :: j < l <= i ==> a[j].timestamp <= a[l].timestamp
      invariant multiset(a[..]) == multiset(old(a[..]))
    {
      Swap(a, j - 1, j);
      j := j - 1;
    }
  }

  /** Sorts the candles ascending by period start; the result is a
      permutation of the input. */
  method SortByTimestamp(a: array<Candle>)
    modifies a
    ensures SortedByTime(a[..])
    ensures multiset(a[..]) == multiset(old(a[..]))
  {
    var i := 0;
    while i < a.Length
      invariant 0 <= i <= a.Length
      invariant SortedPrefix(a, i)
      invariant multiset(a[..]) == multiset(old(a[..]))
    {
      InsertLast(a, i);
      i := i + 1;
    }
  }

  /** Maps the rows to candles in a fresh array and sorts it. */
  method SortedCandles(rows: seq<OhlcvRow>) returns (data: seq<Candle>)
    ensures SortedByTime(data)
    ensures multiset(data) == multiset(Candles(rows))
  {
    var a := new Candle[|rows|](k requires 0 <= k < |rows| => ToCandle(rows[k]));
    assert a[..] == Candles(rows);
    SortByTimestamp(a);
    data := a[..];
  }

  lemma AppendAssoc<T>(a: seq<T>, b: seq<T>, c: seq<T>)
    ensures a + b + c == a + (b + c)
  {
  }

  /** The runs of a log, one after the other. */
  function Concat<T>(runs: seq<seq<T>>): seq<T>
  {
    if runs == [] then [] else Concat(runs[..|runs| - 1]) + runs[|runs| - 1]
  }

  lemma ConcatAppend<T>(runs: seq<seq<T>>, run: seq<T>)
    ensures Concat(runs + [run]) == Concat(runs) + run
  {
    assert (runs + [run])[..|runs|] == runs;
  }

  /** The quotes a sequence of turns yielded, in order. */
  function Quotes(entries: seq<Option<CryptoIndex>>): seq<CryptoIndex>
  {
    if entries == [] then []
    else
      var e := entries[|entries| - 1];
      Quotes(entries[..|entries| - 1]) + (if e.Some? then [e.value] else [])
  }

  lemma QuotesAppend(entries: seq<Option<CryptoIndex>>, e: Option<CryptoIndex>)
    ensures Quotes(entries + [e]) == Quotes(entries) + (if e.Some? then [e.value] else [])
  {
    assert (entries + [e])[..|entries|] == entries;
  }

  /** Every quote an entry holds is among the collected quotes. */
  lemma {:induction false} QuotesHas(entries: seq<Option<CryptoIndex>>, k: int)
    requires 0 <= k < |entries| && entries[k].Some?
    ensures entries[k].value in Quotes(entries)
    decreases |entries|
  {
    var n := |entries| - 1;
    if k < n {
      assert entries[..n][k] == entries[k];
      QuotesHas(entries[..n], k);
    }
  }

  /** The quotes are in batch order, each for a tracked symbol before the
      `bound`-th. */
  predicate InBatchOrder(indices: seq<CryptoIndex>, bound: int)
  {
    (forall j :: 0 <= j < |indices| ==> SymbolIndex(indices[j].symbol) < bound) &&
    (forall j, l :: 0 <= j < l < |indices| ==> SymbolIndex(indices[j].symbol) < SymbolIndex(indices[l].symbol))
  }

  lemma InBatchOrderAppend(indices: seq<CryptoIndex>, q: CryptoIndex, i: int)
    requires InBatchOrder(indices, i) && SymbolIndex(q.symbol) == i
    ensures InBatchOrder(indices + [q], i + 1)
  {
  }

  lemma InBatchOrderWeaken(indices: seq<CryptoIndex>, i: int)
    requires InBatchOrder(indices, i)
    ensures InBatchOrder(indices, i + 1)
  {
  }

  lemma InBatchOrderFinal(indices: seq<CryptoIndex>, i: int)
    requires InBatchOrder(indices, i) && i <= |TRACKED_SYMBOLS|
    ensures InBatchOrder(indices, |TRACKED_SYMBOLS|)
  {
  }

  /** The primary lookups of the first n tracked symbols were all sent. */
  predicate PrimariesSent(issued: seq<Request>, n: int)
    requires n <= |TRACKED_SYMBOLS|
  {
    forall j :: 0 <= j < n ==> PrimaryQuoteRequest(TRACKED_SYMBOLS[j]) in issued
  }

  lemma PrimariesSentAppend(issued: seq<Request>, calls: seq<Request>, i: int)
    requires 0 <= i < |TRACKED_SYMBOLS|
    requires PrimariesSent(issued, i)
    requires |calls| > 0 && calls[0] == PrimaryQuoteRequest(TRACKED_SYMBOLS[i])
    ensures PrimariesSent(issued + calls, i + 1)
  {
    assert (issued + calls)[|issued|] == calls[0];
    forall j | 0 <= j < i ensures PrimaryQuoteRequest(TRACKED_SYMBOLS[j]) in issued + calls {
      var k :| 0 <= k < |issued| && issued[k] == PrimaryQuoteRequest(TRACKED_SYMBOLS[j]);
      assert (issued + calls)[k] == issued[k];
    }
  }

  // ---------------------------------------------------------------------
  // The client

  class CoinApiClient {
    const http: Upstream
    const rateLimiter: RateLimiter

    ghost predicate Valid()
      reads rateLimiter
    {
      rateLimiter.Valid()
    }

    constructor (http: Upstream, maxPerMinute: int, maxPerMonth: int, now: int)
      ensures Valid() && this.http == http && fresh(rateLimiter)
      ensures rateLimiter.State() == Quota([], 0, now)
      ensures rateLimiter.Caps() == Limits(maxPerMinute, maxPerMonth)
      ensures rateLimiter.history == []
    {
      this.http := http;
      rateLimiter := new RateLimiter(maxPerMinute, maxPerMonth, now);
    }

    /** `if (!this.rateLimiter.canMakeRequest()) ...; this.rateLimiter.recordRequest();`:
        the guard every upstream call passes first. */
    method Admit(now: int) returns (ok: bool, ghost ev: seq<Event>)
      requires Valid()
      modifies rateLimiter
      ensures Valid()
      ensures ev == if ok then [Checked(true), Recorded] else [Checked(false)]
      ensures rateLimiter.history == old(rateLimiter.history) + ev
      ensures Orderly(old(rateLimiter.State()), rateLimiter.Caps(), now, rateLimiter.State(), ev, if ok then 1 else 0)
    {
      ghost var q0 := rateLimiter.State();
      ok := rateLimiter.CanMakeRequest(now);
      OrderlyCheck(q0, rateLimiter.Caps(), now);
      ev := [Checked(ok)];
      if ok {
        ghost var q1 := rateLimiter.State();
        rateLimiter.RecordRequest(now);
        OrderlyThenRecord(q0, rateLimiter.Caps(), now, q1, ev, 0);
        ev := ev + [Recorded];
      }
    }

    /** What the upstream answers to an OHLCV request. */
    function OhlcvReply(r: Request): Outcome<seq<OhlcvRow>>
      requires r.OhlcvLatest?
    {
      http.ohlcvLatest(r.symbolId, r.periodId, r.limit)
    }

    /** The reply of the k-th alternate exchange to a quote lookup. */
    function FallbackReply(symbol: string, k: int): Outcome<seq<OhlcvRow>>
      requires 0 <= k < |FALLBACK_EXCHANGES|
    {
      OhlcvReply(FallbackQuoteRequest(FALLBACK_EXCHANGES[k], symbol))
    }

    /** The quote lookups on the alternate exchanges, in the order they are tried. */
    function FallbackRequests(symbol: string): (rs: seq<Request>)
      ensures |rs| == |FALLBACK_EXCHANGES|
      ensures forall k :: 0 <= k < |rs| ==> rs[k] == FallbackQuoteRequest(FALLBACK_EXCHANGES[k], symbol)
    {
      seq(|FALLBACK_EXCHANGES|, k requires 0 <= k < |FALLBACK_EXCHANGES| => FallbackQuoteRequest(FALLBACK_EXCHANGES[k], symbol))
    }

    /** The quote the k-th alternate exchange yields, when it lists a period. */
    function FallbackQuote(symbol: string, k: int, now: int): CryptoIndex
      requires 0 <= k < |FALLBACK_EXCHANGES| && HasCandles(FallbackReply(symbol, k))
    {
      var rows := FallbackReply(symbol, k).body;
      QuoteFromRows(symbol, rows, EstimateMarketCap(symbol, rows[0].priceClose), now)
    }

    /** The quote of the first alternate exchange, from the k-th on, that
        lists a period. */
    function FirstFallback(symbol: string, k: nat, now: int): Option<CryptoIndex>
      decreases |FALLBACK_EXCHANGES| - k
    {
      if k >= |FALLBACK_EXCHANGES| then None
      else if HasCandles(FallbackReply(symbol, k)) then Some(FallbackQuote(symbol, k, now))
      else FirstFallback(symbol, k + 1, now)
    }

    /** The alternate exchanges yield a quote exactly when one of them, from
        the k-th on, lists a period, and the quote is that exchange's. */
    lemma {:induction false} FirstFallbackFound(symbol: string, k: nat, now: int)
      ensures FirstFallback(symbol, k, now).Some? <==>
                exists j :: k <= j < |FALLBACK_EXCHANGES| && HasCandles(FallbackReply(symbol, j))
      ensures FirstFallback(symbol, k, now).Some? ==>
                exists j :: k <= j < |FALLBACK_EXCHANGES| && HasCandles(FallbackReply(symbol, j)) &&
                            FirstFallback(symbol, k, now).value == FallbackQuote(symbol, j, now)
      decreases |FALLBACK_EXCHANGES| - k
    {
      if k < |FALLBACK_EXCHANGES| && !HasCandles(FallbackReply(symbol, k)) {
        FirstFallbackFound(symbol, k + 1, now);
      }
    }

    /** The reply of the primary exchange to a quote lookup. */
    function PrimaryReply(symbol: string): Outcome<seq<OhlcvRow>>
    {
      OhlcvReply(PrimaryQuoteRequest(symbol))
    }

    /** The quote the batch yields for one symbol when the limiter admits
        every request: the primary exchange's periods with the asset
        endpoint's market cap; after a thrown lookup the alternate
        exchanges; after an empty or missing body the exchange rate. */
    function Expected(symbol: string, now: int): Option<CryptoIndex>
    {
      var primary := PrimaryReply(symbol);
      if HasCandles(primary) then
        Some(QuoteFromRows(symbol, primary.body,
                           AssetMarketCap(symbol, primary.body[0].priceClose, http.asset(symbol)), now))
      else if primary.Thrown? then FirstFallback(symbol, 0, now)
      else if http.exchangeRate(symbol, "USD").Data? then
        Some(RateQuote(symbol, http.exchangeRate(symbol, "USD").body, now))
      else None
    }

    /** A quote the batch may hold for `q.symbol` when the limiter denied a
        request on the way: it is the quote `Expected` names, except that
        the market cap may be the estimate instead of the asset endpoint's. */
    ghost predicate Explained(q: CryptoIndex, now: int)
    {
      var primary := PrimaryReply(q.symbol);
      if HasCandles(primary) then
        var price := primary.body[0].priceClose;
        q == QuoteFromRows(q.symbol, primary.body, AssetMarketCap(q.symbol, price, http.asset(q.symbol)), now) ||
        q == QuoteFromRows(q.symbol, primary.body, EstimateMarketCap(q.symbol, price), now)
      else Expected(q.symbol, now) == Some(q)
    }

    /** What the limiter would let through is one of the explained quotes,
        and an explained quote differs from it at most in the market cap. */
    lemma {:induction false} ExpectedIsExplained(q: CryptoIndex, symbol: string, now: int)
      ensures Expected(symbol, now).Some? ==>
                Expected(symbol, now).value.symbol == symbol && Explained(Expected(symbol, now).value, now)
      ensures Explained(q, now) ==>
                Expected(q.symbol, now).Some? && Expected(q.symbol, now).value.(marketCap := q.marketCap) == q
    {
      if Expected(symbol, now).Some? && PrimaryReply(symbol).Thrown? {
        FirstFallbackFound(symbol, 0, now);
        var j :| 0 <= j < |FALLBACK_EXCHANGES| && HasCandles(FallbackReply(symbol, j)) &&
                 FirstFallback(symbol, 0, now).value == FallbackQuote(symbol, j, now);
        assert FallbackQuote(symbol, j, now).symbol == symbol;
      }
    }

    /** The batch's list for the first n tracked symbols when the limiter
        admits every request. */
    function ExpectedUpTo(n: nat, now: int): seq<CryptoIndex>
      requires n <= |TRACKED_SYMBOLS|
    {
      if n == 0 then []
      else
        var e := Expected(TRACKED_SYMBOLS[n - 1], now);
        ExpectedUpTo(n - 1, now) + (if e.Some? then [e.value] else [])
    }

    /** `getSymbolFallbackData`: one admitted `/exchangerate/{symbol}/USD`
        call, or nothing when the limiter denies. */
    method GetSymbolFallbackData(symbol: string, now: int)
      returns (r: Option<CryptoIndex>, ghost events: seq<Event>, ghost issued: seq<Request>)
      requires Valid()
      modifies rateLimiter, http
      ensures Valid()
      ensures rateLimiter.history == old(rateLimiter.history) + events
      ensures http.sent == old(http.sent) + issued
      ensures |events| > 0
      ensures Orderly(old(rateLimiter.State()), rateLimiter.Caps(), now, rateLimiter.State(), events, |issued|)
      ensures issued == if events[0] == Checked(true) then [ExchangeRate(symbol, "USD")] else []
      ensures r == if events[0] == Checked(true) && http.exchangeRate(symbol, "USD").Data?
                   then Some(RateQuote(symbol, http.exchangeRate(symbol, "USD").body, now))
                   else None
    {
      var ok;
      ok, events := Admit(now);
      issued := [];
      if !ok {
        r := None;
        return;
      }
      var reply := http.GetExchangeRate(symbol, "USD");
      issued := [ExchangeRate(symbol, "USD")];
      match reply
      case Data(rate) =>
        r := Some(RateQuote(symbol, rate, now));
      case _ =>
        r := None;
    }

    /** What the alternate-exchange search for a quote did when it sent
        `issued` and caused `events`: the lookups are a prefix of the three
        in order; every exchange asked before the last lists nothing; the
        result is the last one's quote exactly when it lists a period, and
        then no check denied; with no quote all three were asked or a check
        denied; with no denial the result is the reference search's. */
    ghost predicate QuoteSearch(symbol: string, now: int, events: seq<Event>, issued: seq<Request>,
                                r: Option<CryptoIndex>)
    {
      && |issued| <= |FALLBACK_EXCHANGES| && issued == FallbackRequests(symbol)[..|issued|]
      && (forall j :: 0 <= j < |issued| - 1 ==> !HasCandles(FallbackReply(symbol, j)))
      && (r.Some? <==> |issued| > 0 && HasCandles(FallbackReply(symbol, |issued| - 1)))
      && (r.Some? ==> r.value == FallbackQuote(symbol, |issued| - 1, now) && Checked(false) !in events)
      && (r.None? ==> |issued| == |FALLBACK_EXCHANGES| || Checked(false) in events)
      && (r.Some? || Checked(false) !in events ==> r == FirstFallback(symbol, 0, now))
    }

    /** One turn of the alternate-exchange search, from a search that has
        asked the first `i` exchanges with no denial and no period: a denial
        or a period found ends the search as `QuoteSearch` describes, an
        empty answer moves to the next exchange, and an empty answer from
        the last one ends the search with no quote. */
    lemma QuoteSearchTurn(symbol: string, now: int, i: nat, events: seq<Event>, issued: seq<Request>,
                          stop: bool, found: Option<CryptoIndex>, more: seq<Event>, calls: seq<Request>)
      requires i < |FALLBACK_EXCHANGES|
      requires Checked(false) !in events && issued == FallbackRequests(symbol)[..i]
      requires forall j :: 0 <= j < i ==> !HasCandles(FallbackReply(symbol, j))
      requires FirstFallback(symbol, 0, now) == FirstFallback(symbol, i, now)
      requires more == if stop then [Checked(false)] else [Checked(true), Recorded]
      requires calls == if stop then [] else [FallbackQuoteRequest(FALLBACK_EXCHANGES[i], symbol)]
      requires found == if !stop && HasCandles(FallbackReply(symbol, i)) then Some(FallbackQuote(symbol, i, now)) else None
      ensures stop || found.Some? || i + 1 == |FALLBACK_EXCHANGES| ==>
                QuoteSearch(symbol, now, events + more, issued + calls, found)
      ensures !stop && found.None? ==>
                && Checked(false) !in events + more
                && issued + calls == FallbackRequests(symbol)[..i + 1]
                && (forall j :: 0 <= j < i + 1 ==> !HasCandles(FallbackReply(symbol, j)))
                && FirstFallback(symbol, 0, now) == FirstFallback(symbol, i + 1, now)
    {
      assert Checked(false) in more <==> stop;
      if !stop {
        assert issued + calls == FallbackRequests(symbol)[..i + 1];
      }
    }

    /** `getSymbolWithFallback`: Coinbase, Kraken and Binance in that order,
        the first that lists a period wins; a throw or an empty list moves on
        to the next exchange, a denial of the limiter stops the search. */
    method GetSymbolWithFallback(symbol: string, now: int)
      returns (r: Option<CryptoIndex>, ghost events: seq<Event>, ghost issued: seq<Request>)
      requires Valid()
      modifies rateLimiter, http
      ensures Valid()
      ensures rateLimiter.history == old(rateLimiter.history) + events
      ensures http.sent == old(http.sent) + issued
      ensures |events| > 0
      ensures Orderly(old(rateLimiter.State()), rateLimiter.Caps(), now, rateLimiter.State(), events, |issued|)
      ensures QuoteSearch(symbol, now, events, issued, r)
    {
      ghost var q0 := rateLimiter.State();
      events, issued := [], [];
      r := None;
      var i := 0;
      while i < |FALLBACK_EXCHANGES|
        invariant 0 <= i <= |FALLBACK_EXCHANGES|
        invariant Valid()
        invariant rateLimiter.history == old(rateLimiter.history) + events
        invariant http.sent == old(http.sent) + issued
        invariant |issued| == i && (i == 0 <==> events == [])
        invariant Orderly(q0, rateLimiter.Caps(), now, rateLimiter.State(), events, |issued|)
        invariant Checked(false) !in events
        invariant issued == FallbackRequests(symbol)[..i]
        invariant forall j :: 0 <= j < i ==> !HasCandles(FallbackReply(symbol, j))
        invariant FirstFallback(symbol, 0, now) == FirstFallback(symbol, i, now)
        invariant r == None && (i == |FALLBACK_EXCHANGES| ==> QuoteSearch(symbol, now, events, issued, r))
      {
        ghost var qa := rateLimiter.State();
        var stop, found, more, calls := TryExchange(symbol, i, now);
        OrderlyCompose(q0, rateLimiter.Caps(), now, qa, events, |issued|, rateLimiter.State(), more, |calls|);
        AppendAssoc(old(rateLimiter.history), events, more);
        AppendAssoc(old(http.sent), issued, calls);
        QuoteSearchTurn(symbol, now, i, events, issued, stop, found, more, calls);
        events, issued := events + more, issued + calls;
        if stop {
          break;
        }
        if found.Some? {
          r := found;
          return;
        }
        i := i + 1;
      }
    }

    /** One turn of `getSymbolWithFallback`'s loop: the k-th alternate
        exchange, `stop` when the limiter denies it. */
    method TryExchange(symbol: string, k: int, now: int)
      returns (stop: bool, r: Option<CryptoIndex>, ghost events: seq<Event>, ghost issued: seq<Request>)
      requires 0 <= k < |FALLBACK_EXCHANGES|
      requires Valid()
      modifies rateLimiter, http
      ensures Valid()
      ensures rateLimiter.history == old(rateLimiter.history) + events
      ensures http.sent == old(http.sent) + issued
      ensures events == if stop then [Checked(false)] else [Checked(true), Recorded]
      ensures Orderly(old(rateLimiter.State()), rateLimiter.Caps(), now, rateLimiter.State(), events, |issued|)
      ensures issued == if stop then [] else [FallbackQuoteRequest(FALLBACK_EXCHANGES[k], symbol)]
      ensures r == if !stop && HasCandles(FallbackReply(symbol, k)) then Some(FallbackQuote(symbol, k, now)) else None
    {
      var ok;
      ok, events := Admit(now);
      stop, r, issued := !ok, None, [];
      if !ok {
        return;
      }
      var exchange := FALLBACK_EXCHANGES[k];
      var symbolId := SymbolId(exchange, symbol, QuoteCurrency(exchange));
      var reply := http.GetOhlcvLatest(symbolId, PERIOD_ID, QUOTE_PERIODS);
      issued := [FallbackQuoteRequest(exchange, symbol)];
      assert reply == FallbackReply(symbol, k);
      if reply.Data? && |reply.body| > 0 {
        var rows := reply.body;
        r := Some(QuoteFromRows(symbol, rows, EstimateMarketCap(symbol, rows[0].priceClose), now));
      }
    }

    /** The quote from the primary exchange's periods: one more admitted
        call to the asset endpoint for the market cap, the estimate when the
        limiter denies it. */
    method QuoteFromPrimary(symbol: string, rows: seq<OhlcvRow>, now: int)
      returns (q: CryptoIndex, ghost events: seq<Event>, ghost issued: seq<Request>)
      requires Valid() && |rows| > 0
      modifies rateLimiter, http
      ensures Valid()
      ensures rateLimiter.history == old(rateLimiter.history) + events
      ensures http.sent == old(http.sent) + issued
      ensures |events| > 0
      ensures Orderly(old(rateLimiter.State()), rateLimiter.Caps(), now, rateLimiter.State(), events, |issued|)
      ensures issued == if events[0] == Checked(true) then [AssetInfo(symbol)] else []
      ensures q == QuoteFromRows(symbol, rows,
                                 if events[0] == Checked(true) then AssetMarketCap(symbol, rows[0].priceClose, http.asset(symbol))
                                 else EstimateMarketCap(symbol, rows[0].priceClose), now)
    {
      var price := rows[0].priceClose;
      var marketCap := EstimateMarketCap(symbol, price);
      var ok;
      ok, events := Admit(now);
      issued := [];
      if ok {
        var asset := http.GetAsset(symbol);
        issued := [AssetInfo(symbol)];
        marketCap := AssetMarketCap(symbol, price, asset);
      }
      q := QuoteFromRows(symbol, rows, marketCap, now);
    }

    /** What one turn of `getExchangeRates`'s loop did for `symbol` after
        its loop-head check admitted and recorded, `events` being what the
        limiter was asked afterwards: the primary lookup goes first, and then
        - periods always yield their quote, with the asset endpoint's market
          cap when its check admits (the asset lookup is then the only
          further request) and the estimate when it denies;
        - an empty or missing list is followed only by the exchange rate when
          its check admits, which yields a quote exactly when it answers;
        - a throw is followed by the alternate search.
        Any quote is for the symbol and explained, and with no denial it is
        the reference quote. */
    ghost predicate AdmittedTurn(symbol: string, now: int, events: seq<Event>, issued: seq<Request>,
                                 entry: Option<CryptoIndex>)
    {
      var primary := PrimaryReply(symbol);
      && |events| > 0
      && |issued| > 0 && issued[0] == PrimaryQuoteRequest(symbol)
      && (HasCandles(primary) ==>
            && issued[1..] == (if events[0] == Checked(true) then [AssetInfo(symbol)] else [])
            && entry == Some(QuoteFromRows(symbol, primary.body,
                                           if events[0] == Checked(true)
                                           then AssetMarketCap(symbol, primary.body[0].priceClose, http.asset(symbol))
                                           else EstimateMarketCap(symbol, primary.body[0].priceClose), now)))
      && (!HasCandles(primary) && !primary.Thrown? ==>
            && issued[1..] == (if events[0] == Checked(true) then [ExchangeRate(symbol, "USD")] else [])
            && entry == (if events[0] == Checked(true) && http.exchangeRate(symbol, "USD").Data?
                         then Some(RateQuote(symbol, http.exchangeRate(symbol, "USD").body, now))
                         else None))
      && (primary.Thrown? ==> QuoteSearch(symbol, now, events, issued[1..], entry))
      && (entry.Some? ==> entry.value.symbol == symbol && Explained(entry.value, now))
      && (Checked(false) !in events ==> entry == Expected(symbol, now))
    }

    /** One whole turn of `getExchangeRates`'s loop for `symbol`: a
        loop-head denial sends nothing and yields nothing; otherwise a check
        and a record, then what `AdmittedTurn` describes. */
    ghost predicate SymbolTurn(symbol: string, now: int, events: seq<Event>, issued: seq<Request>,
                               entry: Option<CryptoIndex>)
    {
      && |events| > 0
      && (events[0] == Checked(false) ==> events == [Checked(false)] && issued == [] && entry.None?)
      && (events[0] != Checked(false) ==>
            && |events| > 2 && events[..2] == [Checked(true), Recorded]
            && AdmittedTurn(symbol, now, events[2..], issued, entry))
    }

    /** The body of `getExchangeRates`'s loop once its check admitted and
        recorded: the primary lookup and what follows from its reply. */
    method FetchAfterAdmission(symbol: string, now: int)
      returns (entry: Option<CryptoIndex>, ghost events: seq<Event>, ghost issued: seq<Request>)
      requires Valid()
      modifies rateLimiter, http
      ensures Valid()
      ensures rateLimiter.history == old(rateLimiter.history) + events
      ensures http.sent == old(http.sent) + issued
      ensures |issued| > 0 && Orderly(old(rateLimiter.State()), rateLimiter.Caps(), now, rateLimiter.State(), events, |issued| - 1)
      ensures AdmittedTurn(symbol, now, events, issued, entry)
    {
      var reply := http.GetOhlcvLatest(SymbolId(PRIMARY_EXCHANGE, symbol, "USD"), PERIOD_ID, QUOTE_PERIODS);
      issued := [PrimaryQuoteRequest(symbol)];
      assert reply == PrimaryReply(symbol);
      ghost var calls: seq<Request>;
      if reply.Thrown? {
        entry, events, calls := GetSymbolWithFallback(symbol, now);
        FirstFallbackFound(symbol, 0, now);
      } else if !HasCandles(reply) {
        entry, events, calls := GetSymbolFallbackData(symbol, now);
      } else {
        var q;
        q, events, calls := QuoteFromPrimary(symbol, reply.body, now);
        entry := Some(q);
      }
      AppendAssoc(old(http.sent), issued, calls);
      assert (issued + calls)[1..] == calls;
      issued := issued + calls;
    }

    /** One symbol of `getExchangeRates` (the body of its loop): `stop`
        when the loop-head check denies, otherwise the primary lookup, then
        the asset endpoint, the exchange rate or the alternate exchanges. */
    method FetchSymbol(symbol: string, now: int)
      returns (stop: bool, entry: Option<CryptoIndex>, ghost events: seq<Event>, ghost issued: seq<Request>)
      requires Valid()
      modifies rateLimiter, http
      ensures Valid()
      ensures rateLimiter.history == old(rateLimiter.history) + events
      ensures http.sent == old(http.sent) + issued
      ensures |events| > 0
      ensures Orderly(old(rateLimiter.State()), rateLimiter.Caps(), now, rateLimiter.State(), events, |issued|)
      ensures stop <==> events[0] == Checked(false)
      ensures SymbolTurn(symbol, now, events, issued, entry)
      ensures Checked(false) !in events ==> entry == Expected(symbol, now)
    {
      ghost var q0 := rateLimiter.State();
      var ok;
      ok, events := Admit(now);
      issued := [];
      if !ok {
        stop, entry := true, None;
        return;
      }
      stop := false;
      ghost var qa := rateLimiter.State();
      ghost var more;
      entry, more, issued := FetchAfterAdmission(symbol, now);
      OrderlyCompose(q0, rateLimiter.Caps(), now, qa, events, 1, rateLimiter.State(), more, |issued| - 1);
      AppendAssoc(old(rateLimiter.history), events, more);
      assert (events + more)[2..] == more;
      assert Checked(false) !in events + more ==> Checked(false) !in more;
      events := events + more;
    }

    /** Every quote of the list is explained. */
    ghost predicate AllExplained(indices: seq<CryptoIndex>, now: int)
    {
      forall j :: 0 <= j < |indices| ==> Explained(indices[j], now)
    }

    /** One turn of `getExchangeRates`'s loop: the i-th tracked symbol, its
        quote appended when there is one. */
    method CollectSymbol(i: int, indices: seq<CryptoIndex>, now: int)
      returns (stop: bool, result: seq<CryptoIndex>, entry: Option<CryptoIndex>,
               ghost events: seq<Event>, ghost issued: seq<Request>)
      requires 0 <= i < |TRACKED_SYMBOLS|
      requires Valid() && AllExplained(indices, now) && InBatchOrder(indices, i)
      modifies rateLimiter, http
      ensures Valid()
      ensures rateLimiter.history == old(rateLimiter.history) + events
      ensures http.sent == old(http.sent) + issued
      ensures |events| > 0
      ensures Orderly(old(rateLimiter.State()), rateLimiter.Caps(), now, rateLimiter.State(), events, |issued|)
      ensures stop <==> events[0] == Checked(false)
      ensures SymbolTurn(TRACKED_SYMBOLS[i], now, events, issued, entry)
      ensures result == indices + (if entry.Some? then [entry.value] else [])
      ensures stop ==> result == indices
      ensures !stop && HasCandles(PrimaryReply(TRACKED_SYMBOLS[i])) ==> |result| == |indices| + 1
      ensures !stop ==> AllExplained(result, now) && InBatchOrder(result, i + 1)
      ensures !stop ==> |issued| > 0 && issued[0] == PrimaryQuoteRequest(TRACKED_SYMBOLS[i])
      ensures Checked(false) !in events && indices == ExpectedUpTo(i, now) ==> result == ExpectedUpTo(i + 1, now)
    {
      var symbol := TRACKED_SYMBOLS[i];
      stop, entry, events, issued := FetchSymbol(symbol, now);
      result := indices;
      if stop {
        return;
      }
      if entry.Some? {
        TrackedSymbolIndex(i);
        InBatchOrderAppend(indices, entry.value, i);
        result := indices + [entry.value];
      } else {
        InBatchOrderWeaken(indices, i);
      }
    }

    /** The list the batch holds when the first denial fell while the d-th
        tracked symbol was fetched: the reference quotes of the symbols
        before it, in order, and at most one more. */
    predicate CollectedThrough(d: nat, now: int, indices: seq<CryptoIndex>)
      requires d <= |TRACKED_SYMBOLS|
    {
      ExpectedUpTo(d, now) <= indices && |indices| <= |ExpectedUpTo(d, now)| + 1
    }

    /** The batch after its first i symbols, `d` as in `CollectAll`: with no
        denial so far the list is the reference list and every primary
        lookup was sent; after one, it is collected through the symbol
        during which the first denial fell. */
    ghost predicate BatchSoFar(i: nat, d: nat, now: int, events: seq<Event>, issued: seq<Request>,
                               indices: seq<CryptoIndex>)
      requires i <= |TRACKED_SYMBOLS|
    {
      && d <= |TRACKED_SYMBOLS|
      && (Checked(false) !in events ==>
            d == |TRACKED_SYMBOLS| && indices == ExpectedUpTo(i, now) && PrimariesSent(issued, i))
      && (Checked(false) in events ==> d <= i && CollectedThrough(d, now, indices))
    }

    /** One turn keeps the batch's bookkeeping: a turn that begins with a
        denial leaves the list alone, and the first denial fixes `d`. */
    lemma BatchStep(i: nat, d: nat, now: int, events: seq<Event>, issued: seq<Request>, indices: seq<CryptoIndex>,
                    more: seq<Event>, calls: seq<Request>, result: seq<CryptoIndex>)
      returns (d': nat)
      requires i < |TRACKED_SYMBOLS| && BatchSoFar(i, d, now, events, issued, indices)
      requires more != [] && (Checked(false) in events ==> more[0] == Checked(false))
      requires more[0] == Checked(false) ==> result == indices
      requires indices <= result && |result| <= |indices| + 1
      requires more[0] != Checked(false) ==> |calls| > 0 && calls[0] == PrimaryQuoteRequest(TRACKED_SYMBOLS[i])
      requires Checked(false) !in more && indices == ExpectedUpTo(i, now) ==> result == ExpectedUpTo(i + 1, now)
      ensures more[0] == Checked(false) ==> BatchSoFar(i, d', now, events + more, issued + calls, indices)
      ensures more[0] != Checked(false) ==> BatchSoFar(i + 1, d', now, events + more, issued + calls, result)
      ensures d' == if Checked(false) in events then d else if Checked(false) in more then i else |TRACKED_SYMBOLS|
    {
      assert more[0] in more;
      assert Checked(false) in events + more <==> Checked(false) in events || Checked(false) in more;
      if Checked(false) in events {
        d' := d;
      } else if Checked(false) in more {
        d' := i;
      } else {
        d' := |TRACKED_SYMBOLS|;
        PrimariesSentAppend(issued, calls, i);
      }
    }

    /** The turns of the batch: the k-th fetched the k-th tracked symbol as
        `SymbolTurn` describes, `turns[k]` being its events, `sends[k]` its
        requests and `entries[k]` its quote if any (`TurnLogged` reads one
        back).  Stated turn by turn from the last. */
    ghost predicate TurnsLogged(now: int, turns: seq<seq<Event>>, sends: seq<seq<Request>>,
                                entries: seq<Option<CryptoIndex>>)
      decreases |turns|
    {
      && |turns| == |sends| == |entries| <= |TRACKED_SYMBOLS|
      && (turns != [] ==>
            var n := |turns| - 1;
            && TurnsLogged(now, turns[..n], sends[..n], entries[..n])
            && SymbolTurn(TRACKED_SYMBOLS[n], now, turns[n], sends[n], entries[n]))
    }

    /** Every logged turn is as `SymbolTurn` describes. */
    lemma {:induction false} TurnLogged(now: int, turns: seq<seq<Event>>, sends: seq<seq<Request>>,
                                        entries: seq<Option<CryptoIndex>>, k: int)
      requires TurnsLogged(now, turns, sends, entries) && 0 <= k < |turns|
      ensures SymbolTurn(TRACKED_SYMBOLS[k], now, turns[k], sends[k], entries[k])
      decreases |turns|
    {
      var n := |turns| - 1;
      if k < n {
        TurnLogged(now, turns[..n], sends[..n], entries[..n], k);
        assert turns[..n][k] == turns[k] && sends[..n][k] == sends[k] && entries[..n][k] == entries[k];
      }
    }

    /** The first n turns all passed their loop-head check. */
    ghost predicate AllPassed(turns: seq<seq<Event>>, n: int)
      requires n <= |turns|
    {
      forall k | 0 <= k < n :: |turns[k]| > 0 && turns[k][0] != Checked(false)
    }

    /** The batch's events, requests and list are those of its turns, one
        after the other; after a denial, `d` is the turn of the first one. */
    ghost predicate BatchLog(now: int, events: seq<Event>, issued: seq<Request>, indices: seq<CryptoIndex>,
                             turns: seq<seq<Event>>, sends: seq<seq<Request>>, entries: seq<Option<CryptoIndex>>, d: nat)
    {
      && TurnsLogged(now, turns, sends, entries)
      && events == Concat(turns) && issued == Concat(sends) && indices == Quotes(entries)
      && (Checked(false) in events ==>
            d < |turns| && Checked(false) !in Concat(turns[..d]) && Checked(false) in turns[d])
    }

    /** A whole run of `getExchangeRates`'s loop: it logged one turn per
        tracked symbol in order, each but the last passed its loop-head
        check, and it ended early only at a loop-head denial.  The list is
        the quotes of all turns; it holds the reference quotes of the
        symbols before the turn `d` of the first denial, and at most one
        more. */
    ghost predicate BatchRun(now: int, events: seq<Event>, issued: seq<Request>, indices: seq<CryptoIndex>,
                             turns: seq<seq<Event>>, sends: seq<seq<Request>>, entries: seq<Option<CryptoIndex>>, d: nat)
    {
      && 0 < |turns| && BatchLog(now, events, issued, indices, turns, sends, entries, d)
      && AllPassed(turns, |turns| - 1)
      && (|turns| < |TRACKED_SYMBOLS| ==> turns[|turns| - 1] == [Checked(false)])
      && d <= |TRACKED_SYMBOLS| && CollectedThrough(d, now, indices)
      && (Checked(false) !in events ==>
            && d == |TRACKED_SYMBOLS| && indices == ExpectedUpTo(|TRACKED_SYMBOLS|, now)
            && PrimariesSent(issued, |TRACKED_SYMBOLS|))
    }

    /** A turn of the run that passed its loop head and got periods from the
        primary exchange served a quote for its symbol, with the market cap
        the asset lookup or the estimate gave. */
    lemma BatchServesPrimaryQuotes(now: int, events: seq<Event>, issued: seq<Request>, indices: seq<CryptoIndex>,
                                   turns: seq<seq<Event>>, sends: seq<seq<Request>>, entries: seq<Option<CryptoIndex>>,
                                   d: nat, k: int)
      requires BatchRun(now, events, issued, indices, turns, sends, entries, d)
      requires 0 <= k < |turns| && turns[k][0] != Checked(false)
      requires HasCandles(PrimaryReply(TRACKED_SYMBOLS[k]))
      ensures entries[k].Some? && entries[k].value in indices
      ensures |turns[k]| > 2 && turns[k][..2] == [Checked(true), Recorded]
      ensures var primary := PrimaryReply(TRACKED_SYMBOLS[k]);
              entries[k].value == QuoteFromRows(TRACKED_SYMBOLS[k], primary.body,
                if turns[k][2] == Checked(true)
                then AssetMarketCap(TRACKED_SYMBOLS[k], primary.body[0].priceClose, http.asset(TRACKED_SYMBOLS[k]))
                else EstimateMarketCap(TRACKED_SYMBOLS[k], primary.body[0].priceClose), now)
    {
      TurnLogged(now, turns, sends, entries, k);
      QuotesHas(entries, k);
    }

    /** The loop's state after its first i turns, none of which stopped it. */
    ghost predicate Progress(i: nat, d: nat, now: int, events: seq<Event>, issued: seq<Request>, indices: seq<CryptoIndex>,
                             turns: seq<seq<Event>>, sends: seq<seq<Request>>, entries: seq<Option<CryptoIndex>>)
      requires i <= |TRACKED_SYMBOLS|
    {
      && BatchSoFar(i, d, now, events, issued, indices)
      && |turns| == i && AllPassed(turns, i) && BatchLog(now, events, issued, indices, turns, sends, entries, d)
      && (i == |TRACKED_SYMBOLS| ==> BatchRun(now, events, issued, indices, turns, sends, entries, d))
    }

    /** One turn extends the log; a turn that stops the batch, or the last
        symbol's, completes the run. */
    lemma LogStep(i: nat, d: nat, d': nat, now: int, events: seq<Event>, issued: seq<Request>, indices: seq<CryptoIndex>,
                  turns: seq<seq<Event>>, sends: seq<seq<Request>>, entries: seq<Option<CryptoIndex>>,
                  more: seq<Event>, calls: seq<Request>, entry: Option<CryptoIndex>, result: seq<CryptoIndex>)
      requires i < |TRACKED_SYMBOLS| && |turns| == i && AllPassed(turns, i)
      requires BatchLog(now, events, issued, indices, turns, sends, entries, d)
      requires SymbolTurn(TRACKED_SYMBOLS[i], now, more, calls, entry)
      requires result == indices + (if entry.Some? then [entry.value] else [])
      requires d' == if Checked(false) in events then d else if Checked(false) in more then i else |TRACKED_SYMBOLS|
      requires BatchSoFar(if more[0] == Checked(false) then i else i + 1, d', now, events + more, issued + calls, result)
      ensures BatchLog(now, events + more, issued + calls, result, turns + [more], sends + [calls], entries + [entry], d')
      ensures more[0] != Checked(false) ==> AllPassed(turns + [more], i + 1)
      ensures more[0] == Checked(false) || i + 1 == |TRACKED_SYMBOLS| ==>
                BatchRun(now, events + more, issued + calls, result, turns + [more], sends + [calls], entries + [entry], d')
    {
      ConcatAppend(turns, more);
      ConcatAppend(sends, calls);
      QuotesAppend(entries, entry);
      TurnsLoggedAppend(now, turns, sends, entries, more, calls, entry);
      AllPassedAppend(turns, more);
      DenialPinAppend(events, turns, more, d, d');
    }

    /** One turn of the loop keeps its bookkeeping: a turn that begins with a
        denial ends the run, any other extends the progress by a symbol. */
    lemma TurnStep(i: nat, d: nat, now: int, events: seq<Event>, issued: seq<Request>, indices: seq<CryptoIndex>,
                   turns: seq<seq<Event>>, sends: seq<seq<Request>>, entries: seq<Option<CryptoIndex>>,
                   stop: bool, more: seq<Event>, calls: seq<Request>, entry: Option<CryptoIndex>, result: seq<CryptoIndex>)
      returns (d': nat)
      requires i < |TRACKED_SYMBOLS| && Progress(i, d, now, events, issued, indices, turns, sends, entries)
      requires more != [] && (Checked(false) in events ==> more[0] == Checked(false))
      requires stop <==> more[0] == Checked(false)
      requires SymbolTurn(TRACKED_SYMBOLS[i], now, more, calls, entry)
      requires result == indices + (if entry.Some? then [entry.value] else [])
      requires more[0] != Checked(false) ==> |calls| > 0 && calls[0] == PrimaryQuoteRequest(TRACKED_SYMBOLS[i])
      requires Checked(false) !in more && indices == ExpectedUpTo(i, now) ==> result == ExpectedUpTo(i + 1, now)
      ensures stop ==> Checked(false) in more
      ensures stop ==> BatchRun(now, events + more, issued + calls, result, turns + [more], sends + [calls], entries + [entry], d')
      ensures !stop ==> Progress(i + 1, d', now, events + more, issued + calls, result, turns + [more], sends + [calls], entries + [entry])
    {
      assert more[0] in more;
      d' := BatchStep(i, d, now, events, issued, indices, more, calls, result);
      LogStep(i, d, d', now, events, issued, indices, turns, sends, entries, more, calls, entry, result);
    }

    lemma TurnsLoggedAppend(now: int, turns: seq<seq<Event>>, sends: seq<seq<Request>>, entries: seq<Option<CryptoIndex>>,
                            more: seq<Event>, calls: seq<Request>, entry: Option<CryptoIndex>)
      requires TurnsLogged(now, turns, sends, entries) && |turns| < |TRACKED_SYMBOLS|
      requires SymbolTurn(TRACKED_SYMBOLS[|turns|], now, more, calls, entry)
      ensures TurnsLogged(now, turns + [more], sends + [calls], entries + [entry])
    {
      var n := |turns|;
      assert (turns + [more])[..n] == turns && (sends + [calls])[..n] == sends && (entries + [entry])[..n] == entries;
    }

    lemma AllPassedAppend(turns: seq<seq<Event>>, more: seq<Event>)
      requires AllPassed(turns, |turns|) && |more| > 0
      ensures AllPassed(turns + [more], |turns|)
      ensures more[0] != Checked(false) ==> AllPassed(turns + [more], |turns| + 1)
    {
      var turns' := turns + [more];
      forall k | 0 <= k < |turns| ensures turns'[k] == turns[k] {
      }
    }

    /** After one more turn, `d` still names the turn of the first denial. */
    lemma DenialPinAppend(events: seq<Event>, turns: seq<seq<Event>>, more: seq<Event>, d: nat, d': nat)
      requires events == Concat(turns)
      requires Checked(false) in events ==> d < |turns| && Checked(false) !in Concat(turns[..d]) && Checked(false) in turns[d]
      requires d' == if Checked(false) in events then d else if Checked(false) in more then |turns| else |TRACKED_SYMBOLS|
      ensures Checked(false) in events + more ==>
                var turns' := turns + [more];
                d' < |turns'| && Checked(false) !in Concat(turns'[..d']) && Checked(false) in turns'[d']
    {
      var turns' := turns + [more];
      assert turns'[..|turns|] == turns;
      assert Checked(false) in events + more <==> Checked(false) in events || Checked(false) in more;
      if Checked(false) in events {
        assert turns'[..d] == turns[..d] && turns'[d] == turns[d];
      }
    }

    /** A turn of `getExchangeRates`'s loop together with its bookkeeping:
        the batch so far, `events` and `issued` from `q0` on, logged in
        `turns`, `sends` and `entries`, is extended by the turn's `more`,
        `calls` and `entry`. */
    method CollectTurn(i: int, indices: seq<CryptoIndex>, now: int, ghost q0: Quota,
                       ghost events: seq<Event>, ghost issued: seq<Request>, ghost d: nat,
                       ghost turns: seq<seq<Event>>, ghost sends: seq<seq<Request>>, ghost entries: seq<Option<CryptoIndex>>)
      returns (stop: bool, next: seq<CryptoIndex>, ghost more: seq<Event>, ghost calls: seq<Request>,
               ghost entry: Option<CryptoIndex>, ghost d': nat)
      requires 0 <= i < |TRACKED_SYMBOLS| && Valid()
      requires Orderly(q0, rateLimiter.Caps(), now, rateLimiter.State(), events, |issued|)
      requires AllExplained(indices, now) && InBatchOrder(indices, i)
      requires Progress(i, d, now, events, issued, indices, turns, sends, entries)
      modifies rateLimiter, http
      ensures Valid()
      ensures rateLimiter.history == old(rateLimiter.history) + more
      ensures http.sent == old(http.sent) + calls
      ensures more != [] && (stop ==> Checked(false) in more)
      ensures Orderly(q0, rateLimiter.Caps(), now, rateLimiter.State(), events + more, |issued + calls|)
      ensures stop ==> next == indices
      ensures stop ==> BatchRun(now, events + more, issued + calls, next, turns + [more], sends + [calls], entries + [entry], d')
      ensures !stop ==> AllExplained(next, now) && InBatchOrder(next, i + 1)
      ensures !stop ==> Progress(i + 1, d', now, events + more, issued + calls, next, turns + [more], sends + [calls], entries + [entry])
    {
      ghost var qa := rateLimiter.State();
      stop, next, entry, more, calls := CollectSymbol(i, indices, now);
      OrderlyCompose(q0, rateLimiter.Caps(), now, qa, events, |issued|, rateLimiter.State(), more, |calls|);
      OrderlyDenialPersists(q0, rateLimiter.Caps(), now, qa, events, |issued|, rateLimiter.State(), more, |calls|);
      d' := TurnStep(i, d, now, events, issued, indices, turns, sends, entries, stop, more, calls, entry, next);
    }

    /** `getExchangeRates`'s loop: the tracked symbols in order until a
        check denies.  `d` is the symbol during which the first denial
        fell, or the number of symbols when none did; a denial keeps what
        was collected before it. */
    method CollectAll(now: int)
      returns (indices: seq<CryptoIndex>, ghost events: seq<Event>, ghost issued: seq<Request>, ghost d: nat,
               ghost turns: seq<seq<Event>>, ghost sends: seq<seq<Request>>, ghost entries: seq<Option<CryptoIndex>>)
      requires Valid()
      modifies rateLimiter, http
      ensures Valid()
      ensures rateLimiter.history == old(rateLimiter.history) + events
      ensures http.sent == old(http.sent) + issued
      ensures |events| > 0
      ensures Orderly(old(rateLimiter.State()), rateLimiter.Caps(), now, rateLimiter.State(), events, |issued|)
      ensures AllExplained(indices, now) && InBatchOrder(indices, |TRACKED_SYMBOLS|)
      ensures BatchRun(now, events, issued, indices, turns, sends, entries, d)
    {
      ghost var q0 := rateLimiter.State();
      indices, events, issued, d := [], [], [], |TRACKED_SYMBOLS|;
      turns, sends, entries := [], [], [];
      var i := 0;
      while i < |TRACKED_SYMBOLS|
        invariant 0 <= i <= |TRACKED_SYMBOLS|
        invariant Valid()
        invariant rateLimiter.history == old(rateLimiter.history) + events
        invariant http.sent == old(http.sent) + issued
        invariant i > 0 ==> |events| > 0
        invariant Orderly(q0, rateLimiter.Caps(), now, rateLimiter.State(), events, |issued|)
        invariant AllExplained(indices, now) && InBatchOrder(indices, i)
        invariant Progress(i, d, now, events, issued, indices, turns, sends, entries)
      {
        var stop, next, more, calls, entry, d' := CollectTurn(i, indices, now, q0, events, issued, d, turns, sends, entries);
        AppendAssoc(old(rateLimiter.history), events, more);
        AppendAssoc(old(http.sent), issued, calls);
        events, issued, d := events + more, issued + calls, d';
        turns, sends, entries := turns + [more], sends + [calls], entries + [entry];
        if stop {
          InBatchOrderFinal(indices, i);
          break;
        }
        indices := next;
        i := i + 1;
      }
    }

    /** What one `getExchangeRates` at `now` promises, for a limiter taken
        from q0 to q1 through `events` while `issued` was sent. */
    ghost predicate ExchangeRatesOutcome(now: int, q0: Quota, q1: Quota, events: seq<Event>, issued: seq<Request>,
                                         r: ApiResponse<seq<CryptoIndex>>)
    {
      && |events| > 0
      && Orderly(q0, rateLimiter.Caps(), now, q1, events, |issued|)
      && (r == Failure("Rate limit exceeded") <==> events[0] == Checked(false))
      && (events[0] == Checked(false) ==> issued == [])
      && (events[0] == Checked(true) && r.Failure? ==> r.error == "Failed to fetch any exchange rates")
      && (r.Success? ==> |r.data| > 0 && AllExplained(r.data, now) && InBatchOrder(r.data, |TRACKED_SYMBOLS|))
      && (events[0] == Checked(true) ==>
            var served := if r.Success? then r.data else [];
            exists turns: seq<seq<Event>>, sends: seq<seq<Request>>, entries: seq<Option<CryptoIndex>>, d: nat ::
              BatchRun(now, events[1..], issued, served, turns, sends, entries, d))
      && (Checked(false) !in events ==>
            && r == (if ExpectedUpTo(|TRACKED_SYMBOLS|, now) == [] then Failure("Failed to fetch any exchange rates")
                     else Success(ExpectedUpTo(|TRACKED_SYMBOLS|, now)))
            && PrimariesSent(issued, |TRACKED_SYMBOLS|))
    }

    /** `getExchangeRates`: a check that does not record, then the tracked
        symbols in order until a check denies; a failure when the first check
        denies or no symbol yields a quote.  A denial later on ends the batch
        and the quotes collected before it are served.  When the limiter
        denies nothing the list holds the quote of every symbol that has one. */
    method GetExchangeRates(now: int)
      returns (r: ApiResponse<seq<CryptoIndex>>, ghost events: seq<Event>, ghost issued: seq<Request>)
      requires Valid()
      modifies rateLimiter, http
      ensures Valid()
      ensures rateLimiter.history == old(rateLimiter.history) + events
      ensures http.sent == old(http.sent) + issued
      ensures ExchangeRatesOutcome(now, old(rateLimiter.State()), rateLimiter.State(), events, issued, r)
      ensures RecordsFollowAdmission(old(rateLimiter.history)) ==> RecordsFollowAdmission(rateLimiter.history)
    {
      ghost var q0 := rateLimiter.State();
      var ok := rateLimiter.CanMakeRequest(now);
      OrderlyCheck(q0, rateLimiter.Caps(), now);
      events, issued := [Checked(ok)], [];
      if !ok {
        r := Failure("Rate limit exceeded");
        OrderlyKeepsDiscipline(old(rateLimiter.history), q0, rateLimiter.Caps(), now, rateLimiter.State(), events, 0);
        return;
      }
      ghost var qa := rateLimiter.State();
      var indices, more, calls, d, turns, sends, entries := CollectAll(now);
      AppendAssoc(old(rateLimiter.history), events, more);
      OrderlyCompose(q0, rateLimiter.Caps(), now, qa, events, 0, rateLimiter.State(), more, |calls|);
      events, issued := events + more, calls;
      OrderlyKeepsDiscipline(old(rateLimiter.history), q0, rateLimiter.Caps(), now, rateLimiter.State(), events, |issued|);
      if |indices| == 0 {
        r := Failure("Failed to fetch any exchange rates");
      } else {
        r := Success(indices);
      }
      assert events[1..] == more;
      assert BatchRun(now, events[1..], issued, if r.Success? then r.data else [], turns, sends, entries, d);
    }

    // -------------------------------------------------------------------
    // History

    /** What an exchange answers to a history lookup. */
    function HistoryReply(exchange: string, symbol: string, days: int): Outcome<seq<OhlcvRow>>
    {
      OhlcvReply(HistoryRequest(exchange, symbol, days))
    }

    /** The history lookups on the alternate exchanges, in the order they are tried. */
    function HistoryFallbackRequests(symbol: string, days: int): (rs: seq<Request>)
      ensures |rs| == |FALLBACK_EXCHANGES|
      ensures forall k :: 0 <= k < |rs| ==> rs[k] == HistoryRequest(FALLBACK_EXCHANGES[k], symbol, days)
    {
      seq(|FALLBACK_EXCHANGES|, k requires 0 <= k < |FALLBACK_EXCHANGES| => HistoryRequest(FALLBACK_EXCHANGES[k], symbol, days))
    }

    /** The rows of the first alternate exchange, from the k-th on, that
        answers with a body at all (an empty list included). */
    function FirstHistory(symbol: string, days: int, k: nat): Option<seq<OhlcvRow>>
      decreases |FALLBACK_EXCHANGES| - k
    {
      if k >= |FALLBACK_EXCHANGES| then None
      else if HistoryReply(FALLBACK_EXCHANGES[k], symbol, days).Data? then
        Some(HistoryReply(FALLBACK_EXCHANGES[k], symbol, days).body)
      else FirstHistory(symbol, days, k + 1)
    }

    /** The alternate exchanges yield a history exactly when one of them, from
        the k-th on, answers with a body, and the history is that exchange's. */
    lemma {:induction false} FirstHistoryFound(symbol: string, days: int, k: nat)
      ensures FirstHistory(symbol, days, k).Some? <==>
                exists j :: k <= j < |FALLBACK_EXCHANGES| && HistoryReply(FALLBACK_EXCHANGES[j], symbol, days).Data?
      ensures FirstHistory(symbol, days, k).Some? ==>
                exists j :: k <= j < |FALLBACK_EXCHANGES| &&
                            HistoryReply(FALLBACK_EXCHANGES[j], symbol, days) == Data(FirstHistory(symbol, days, k).value)
      decreases |FALLBACK_EXCHANGES| - k
    {
      if k < |FALLBACK_EXCHANGES| && !HistoryReply(FALLBACK_EXCHANGES[k], symbol, days).Data? {
        FirstHistoryFound(symbol, days, k + 1);
      }
    }

    /** The series served for upstream rows: sorted by period start and a
        permutation of the mapped rows. */
    ghost predicate SeriesOf(data: seq<Candle>, rows: seq<OhlcvRow>)
    {
      SortedByTime(data) && multiset(data) == multiset(Candles(rows))
    }

    /** One turn of `getHistoricalDataFallback`'s loop: the k-th alternate
        exchange, `stop` when the limiter denies it. */
    method TryHistory(symbol: string, days: int, k: int, now: int)
      returns (stop: bool, found: Option<seq<Candle>>, ghost events: seq<Event>, ghost issued: seq<Request>)
      requires 0 <= k < |FALLBACK_EXCHANGES|
      requires Valid()
      modifies rateLimiter, http
      ensures Valid()
      ensures rateLimiter.history == old(rateLimiter.history) + events
      ensures http.sent == old(http.sent) + issued
      ensures events == if stop then [Checked(false)] else [Checked(true), Recorded]
      ensures Orderly(old(rateLimiter.State()), rateLimiter.Caps(), now, rateLimiter.State(), events, |issued|)
      ensures issued == if stop then [] else [HistoryRequest(FALLBACK_EXCHANGES[k], symbol, days)]
      ensures found.Some? <==> !stop && HistoryReply(FALLBACK_EXCHANGES[k], symbol, days).Data?
      ensures found.Some? ==> SeriesOf(found.value, HistoryReply(FALLBACK_EXCHANGES[k], symbol, days).body)
    {
      var ok;
      ok, events := Admit(now);
      stop, found, issued := !ok, None, [];
      if !ok {
        return;
      }
      var exchange := FALLBACK_EXCHANGES[k];
      var reply := http.GetOhlcvLatest(SymbolId(exchange, symbol, "USD"), PERIOD_ID, days + 1);
      issued := [HistoryRequest(exchange, symbol, days)];
      if reply.Data? {
        var data := SortedCandles(reply.body);
        found := Some(data);
      }
    }

    /** What the alternate-exchange search for a history did when it sent
        `issued` and caused `events`: the lookups are a prefix of the three
        in order; every exchange asked before the last answered without a
        body; the result is a success exactly when the last one answered with
        one, and then it is that body's sorted series and no check denied;
        a failure means all three were asked or a check denied; with no
        denial the result succeeds exactly when the reference search finds. */
    ghost predicate HistorySearch(symbol: string, days: int, events: seq<Event>, issued: seq<Request>,
                                  r: ApiResponse<seq<Candle>>)
    {
      && |issued| <= |FALLBACK_EXCHANGES| && issued == HistoryFallbackRequests(symbol, days)[..|issued|]
      && (forall j :: 0 <= j < |issued| - 1 ==> !HistoryReply(FALLBACK_EXCHANGES[j], symbol, days).Data?)
      && (r.Success? <==> |issued| > 0 && HistoryReply(FALLBACK_EXCHANGES[|issued| - 1], symbol, days).Data?)
      && (r.Success? ==>
            && SeriesOf(r.data, HistoryReply(FALLBACK_EXCHANGES[|issued| - 1], symbol, days).body)
            && Checked(false) !in events
            && FirstHistory(symbol, days, 0).Some? && SeriesOf(r.data, FirstHistory(symbol, days, 0).value))
      && (r.Failure? ==>
            && r.error == "Failed to fetch historical data from all exchanges"
            && (|issued| == |FALLBACK_EXCHANGES| || Checked(false) in events))
      && (Checked(false) !in events ==> (r.Success? <==> FirstHistory(symbol, days, 0).Some?))
    }

    /** One turn of the alternate-exchange search for a history, from a
        search that has asked the first `i` exchanges with no denial and no
        body: a denial or a body ends the search as `HistorySearch`
        describes, a reply without a body moves to the next exchange, and
        one from the last exchange ends the search with a failure. */
    lemma HistorySearchTurn(symbol: string, days: int, i: nat, events: seq<Event>, issued: seq<Request>,
                            stop: bool, found: Option<seq<Candle>>, more: seq<Event>, calls: seq<Request>)
      requires i < |FALLBACK_EXCHANGES|
      requires Checked(false) !in events && issued == HistoryFallbackRequests(symbol, days)[..i]
      requires forall j :: 0 <= j < i ==> !HistoryReply(FALLBACK_EXCHANGES[j], symbol, days).Data?
      requires FirstHistory(symbol, days, 0) == FirstHistory(symbol, days, i)
      requires more == if stop then [Checked(false)] else [Checked(true), Recorded]
      requires calls == if stop then [] else [HistoryRequest(FALLBACK_EXCHANGES[i], symbol, days)]
      requires found.Some? <==> !stop && HistoryReply(FALLBACK_EXCHANGES[i], symbol, days).Data?
      requires found.Some? ==> SeriesOf(found.value, HistoryReply(FALLBACK_EXCHANGES[i], symbol, days).body)
      ensures stop || found.Some? || i + 1 == |FALLBACK_EXCHANGES| ==>
                HistorySearch(symbol, days, events + more, issued + calls,
                              if found.Some? then Success(found.value)
                              else Failure("Failed to fetch historical data from all exchanges"))
      ensures !stop && found.None? ==>
                && Checked(false) !in events + more
                && issued + calls == HistoryFallbackRequests(symbol, days)[..i + 1]
                && (forall j :: 0 <= j < i + 1 ==> !HistoryReply(FALLBACK_EXCHANGES[j], symbol, days).Data?)
                && FirstHistory(symbol, days, 0) == FirstHistory(symbol, days, i + 1)
    {
      assert Checked(false) in more <==> stop;
      if !stop {
        assert issued + calls == HistoryFallbackRequests(symbol, days)[..i + 1];
      }
    }

    /** `getHistoricalDataFallback`: the alternate exchanges in order, quoted
        in USD; the first that answers with a body wins, a throw or a missing
        body moves on, a denial of the limiter stops the search. */
    method GetHistoricalDataFallback(symbol: string, days: int, now: int)
      returns (r: ApiResponse<seq<Candle>>, ghost events: seq<Event>, ghost issued: seq<Request>)
      requires Valid()
      modifies rateLimiter, http
      ensures Valid()
      ensures rateLimiter.history == old(rateLimiter.history) + events
      ensures http.sent == old(http.sent) + issued
      ensures |events| > 0
      ensures Orderly(old(rateLimiter.State()), rateLimiter.Caps(), now, rateLimiter.State(), events, |issued|)
      ensures HistorySearch(symbol, days, events, issued, r)
    {
      ghost var q0 := rateLimiter.State();
      events, issued := [], [];
      var i := 0;
      while i < |FALLBACK_EXCHANGES|
        invariant 0 <= i <= |FALLBACK_EXCHANGES|
        invariant Valid()
        invariant rateLimiter.history == old(rateLimiter.history) + events
        invariant http.sent == old(http.sent) + issued
        invariant |issued| == i && (i == 0 <==> events == [])
        invariant Orderly(q0, rateLimiter.Caps(), now, rateLimiter.State(), events, |issued|)
        invariant Checked(false) !in events
        invariant issued == HistoryFallbackRequests(symbol, days)[..i]
        invariant forall j :: 0 <= j < i ==> !HistoryReply(FALLBACK_EXCHANGES[j], symbol, days).Data?
        invariant FirstHistory(symbol, days, 0) == FirstHistory(symbol, days, i)
        invariant i == |FALLBACK_EXCHANGES| ==>
                    HistorySearch(symbol, days, events, issued, Failure("Failed to fetch historical data from all exchanges"))
      {
        ghost var qa := rateLimiter.State();
        var stop, found, more, calls := TryHistory(symbol, days, i, now);
        OrderlyCompose(q0, rateLimiter.Caps(), now, qa, events, |issued|, rateLimiter.State(), more, |calls|);
        AppendAssoc(old(rateLimiter.history), events, more);
        AppendAssoc(old(http.sent), issued, calls);
        HistorySearchTurn(symbol, days, i, events, issued, stop, found, more, calls);
        events, issued := events + more, issued + calls;
        if stop {
          break;
        }
        if found.Some? {
          r := Success(found.value);
          return;
        }
        i := i + 1;
      }
      r := Failure("Failed to fetch historical data from all exchanges");
    }

    /** What `getHistoricalData(symbol, days)` does once its check admitted
        and recorded, `events` being what the limiter was asked afterwards:
        the primary lookup goes first; a body is served as its sorted series
        and a reply without one that is not a 404 or 550 fails, both with no
        further request; after a 404 or 550 the alternate search decides. */
    ghost predicate AdmittedHistory(symbol: string, days: int, events: seq<Event>, issued: seq<Request>,
                                    r: ApiResponse<seq<Candle>>)
    {
      var primary := HistoryReply(PRIMARY_EXCHANGE, symbol, days);
      && |issued| > 0 && issued[0] == HistoryRequest(PRIMARY_EXCHANGE, symbol, days)
      && r != Failure("Rate limit exceeded")
      && (primary.Data? ==> events == [] && |issued| == 1 && r.Success? && SeriesOf(r.data, primary.body))
      && (!primary.Data? && !IsFallbackStatus(primary) ==>
            events == [] && |issued| == 1 && r == Failure("Failed to fetch historical data"))
      && (IsFallbackStatus(primary) ==> HistorySearch(symbol, days, events, issued[1..], r))
    }

    /** What one `getHistoricalData(symbol, days)` at `now` promises, for a
        limiter taken from q0 to q1 through `events` while `issued` was sent:
        "Rate limit exceeded" with nothing sent exactly when the first check
        denies, the admitted behaviour otherwise. */
    ghost predicate HistoricalDataOutcome(symbol: string, days: int, now: int, q0: Quota, q1: Quota,
                                          events: seq<Event>, issued: seq<Request>, r: ApiResponse<seq<Candle>>)
    {
      && |events| > 0
      && Orderly(q0, rateLimiter.Caps(), now, q1, events, |issued|)
      && (r == Failure("Rate limit exceeded") <==> events[0] == Checked(false))
      && (events[0] == Checked(false) ==> issued == [])
      && (events[0] == Checked(true) ==> |events| >= 2 && AdmittedHistory(symbol, days, events[2..], issued, r))
    }

    /** A served history is sorted by period start, whichever exchange it came from. */
    lemma HistoricalDataSorted(symbol: string, days: int, now: int, q0: Quota, q1: Quota,
                               events: seq<Event>, issued: seq<Request>, r: ApiResponse<seq<Candle>>)
      requires HistoricalDataOutcome(symbol, days, now, q0, q1, events, issued, r)
      ensures r.Success? ==> SortedByTime(r.data)
    {
    }

    /** `getHistoricalData` after its check admitted and recorded: the
        primary lookup and what follows from its reply. */
    method HistoryAfterAdmission(symbol: string, days: int, now: int)
      returns (r: ApiResponse<seq<Candle>>, ghost events: seq<Event>, ghost issued: seq<Request>)
      requires Valid()
      modifies rateLimiter, http
      ensures Valid()
      ensures rateLimiter.history == old(rateLimiter.history) + events
      ensures http.sent == old(http.sent) + issued
      ensures |issued| > 0 && Orderly(old(rateLimiter.State()), rateLimiter.Caps(), now, rateLimiter.State(), events, |issued| - 1)
      ensures AdmittedHistory(symbol, days, events, issued, r)
    {
      var reply := http.GetOhlcvLatest(SymbolId(PRIMARY_EXCHANGE, symbol, "USD"), PERIOD_ID, days + 1);
      events, issued := [], [HistoryRequest(PRIMARY_EXCHANGE, symbol, days)];
      match reply {
        case Data(rows) =>
          var data := SortedCandles(rows);
          r := Success(data);
        case NullData =>
          r := Failure("Failed to fetch historical data");
        case Thrown(status) =>
          if status == Some(404) || status == Some(550) {
            ghost var calls;
            r, events, calls := GetHistoricalDataFallback(symbol, days, now);
            AppendAssoc(old(http.sent), issued, calls);
            assert (issued + calls)[1..] == calls;
            issued := issued + calls;
          } else {
            r := Failure("Failed to fetch historical data");
          }
      }
    }

    /** `getHistoricalData`: one admitted lookup of `days + 1` daily periods on
        the primary exchange, served sorted by period start; after a 404 or
        550 the alternate exchanges; any other failure, a missing body
        included, is reported as such. */
    method GetHistoricalData(symbol: string, days: int, now: int)
      returns (r: ApiResponse<seq<Candle>>, ghost events: seq<Event>, ghost issued: seq<Request>)
      requires Valid()
      modifies rateLimiter, http
      ensures Valid()
      ensures rateLimiter.history == old(rateLimiter.history) + events
      ensures http.sent == old(http.sent) + issued
      ensures HistoricalDataOutcome(symbol, days, now, old(rateLimiter.State()), rateLimiter.State(), events, issued, r)
      ensures RecordsFollowAdmission(old(rateLimiter.history)) ==> RecordsFollowAdmission(rateLimiter.history)
    {
      ghost var q0 := rateLimiter.State();
      var ok;
      ok, events := Admit(now);
      issued := [];
      if ok {
        ghost var qa := rateLimiter.State();
        ghost var more;
        r, more, issued := HistoryAfterAdmission(symbol, days, now);
        OrderlyCompose(q0, rateLimiter.Caps(), now, qa, events, 1, rateLimiter.State(), more, |issued| - 1);
        AppendAssoc(old(rateLimiter.history), events, more);
        assert (events + more)[2..] == more;
        events := events + more;
      } else {
        r := Failure("Rate limit exceeded");
      }
      OrderlyKeepsDiscipline(old(rateLimiter.history), q0, rateLimiter.Caps(), now, rateLimiter.State(), events, |issued|);
    }

    /** `getRateLimitInfo`: the limiter's report. */
    method GetRateLimitInfo(now: int) returns (info: RateLimitInfo)
      requires Valid()
      ensures info == Info(rateLimiter.State(), rateLimiter.Caps(), now)
      ensures RecordsFollowAdmission(rateLimiter.history) && rateLimiter.Caps().perMinute >= 0 && rateLimiter.Caps().perMonth >= 0 ==>
                info.requestsRemaining >= 0
    {
      info := rateLimiter.GetRateLimitInfo(now);
    }
  }
}
