/** The pure part of the market-data client (src/lib/api/coinapi.ts): the
    tracked symbols and exchanges, the composition of symbol ids, the name,
    supply and volume tables, and the construction of a quote from upstream
    data.  Prices are exact reals; floating-point rounding is not modelled. */
module Markets {
  import opened Types
  import opened Text

  /** The symbols the batch tracks, in the order it fetches them. */
  const TRACKED_SYMBOLS: seq<string> := ["BTC", "ETH", "BNB", "SOL", "ADA", "XRP"]
  /** The exchange tried first for every symbol. */
  const PRIMARY_EXCHANGE: string := "BITSTAMP"
  /** The alternate exchanges, in the order they are tried. */
  const FALLBACK_EXCHANGES: seq<string> := ["COINBASE", "KRAKEN", "BINANCE"]
  /** The OHLCV period every request asks for. */
  const PERIOD_ID: string := "1DAY"
  /** The OHLCV limit of the quote lookups: today and yesterday. */
  const QUOTE_PERIODS: int := 2

  // ---------------------------------------------------------------------
  // Symbol ids

  /** `${exchange}_SPOT_${symbol}_${quote}`. */
  function SymbolId(exchange: string, symbol: string, quote: string): string
  {
    exchange + "_SPOT_" + symbol + "_" + quote
  }

  /** The exchange leads an id, the quote currency closes it, and the symbol
      sits between `_SPOT_` and the last `_`. */
  lemma SymbolIdParts(exchange: string, symbol: string, quote: string)
    ensures var id := SymbolId(exchange, symbol, quote);
            && |id| == |exchange| + |symbol| + |quote| + 7
            && id[..|exchange|] == exchange && id[|exchange|..|exchange| + 6] == "_SPOT_"
            && id[|exchange| + 6..|exchange| + 6 + |symbol|] == symbol
            && id[|id| - |quote| - 1] == '_' && id[|id| - |quote|..] == quote
  {
  }

  /** The quote currency of the quote lookups: USDT on Binance, USD elsewhere. */
  function QuoteCurrency(exchange: string): (quote: string)
    ensures quote == "USDT" <==> exchange == "BINANCE"
    ensures quote == "USD" || quote == "USDT"
  {
    if exchange == "BINANCE" then "USDT" else "USD"
  }

  /** An id names one market: exchange, symbol and quote currency can be read
      back from it when none of them contains an underscore. */
  lemma SymbolIdInjective(e1: string, s1: string, q1: string, e2: string, s2: string, q2: string)
    requires '_' !in e1 && '_' !in s1 && '_' !in q1
    requires '_' !in e2 && '_' !in s2 && '_' !in q2
    requires SymbolId(e1, s1, q1) == SymbolId(e2, s2, q2)
    ensures e1 == e2 && s1 == s2 && q1 == q2
  {
    assert SymbolId(e1, s1, q1) == (e1 + "_SPOT" + "_" + s1) + ['_'] + q1;
    assert SymbolId(e2, s2, q2) == (e2 + "_SPOT" + "_" + s2) + ['_'] + q2;
    SplitAtLast(e1 + "_SPOT" + "_" + s1, q1, e2 + "_SPOT" + "_" + s2, q2, '_');
    assert e1 + "_SPOT" + "_" + s1 == (e1 + "_SPOT") + ['_'] + s1;
    assert e2 + "_SPOT" + "_" + s2 == (e2 + "_SPOT") + ['_'] + s2;
    SplitAtLast(e1 + "_SPOT", s1, e2 + "_SPOT", s2, '_');
    assert e1 == (e1 + "_SPOT")[..|e1|];
    assert e2 == (e2 + "_SPOT")[..|e2|];
  }

  /** The index of a tracked symbol in the batch order. */
  function SymbolIndex(symbol: string): (k: int)
    ensures symbol in TRACKED_SYMBOLS ==> 0 <= k < |TRACKED_SYMBOLS| && TRACKED_SYMBOLS[k] == symbol
    ensures symbol !in TRACKED_SYMBOLS ==> k == |TRACKED_SYMBOLS|
  {
    if symbol == "BTC" then 0
    else if symbol == "ETH" then 1
    else if symbol == "BNB" then 2
    else if symbol == "SOL" then 3
    else if symbol == "ADA" then 4
    else if symbol == "XRP" then 5
    else 6
  }

  /** Each tracked symbol sits at its own index of the batch order. */
  lemma TrackedSymbolIndex(i: int)
    requires 0 <= i < |TRACKED_SYMBOLS|
    ensures SymbolIndex(TRACKED_SYMBOLS[i]) == i
  {
  }

  // ---------------------------------------------------------------------
  // Requests

  /** The OHLCV lookup of a quote on the primary exchange: two daily periods
      of the Bitstamp USD market. */
  function PrimaryQuoteRequest(symbol: string): (r: Request)
    ensures r.OhlcvLatest? && r.periodId == PERIOD_ID && r.limit == QUOTE_PERIODS
  {
    OhlcvLatest(SymbolId(PRIMARY_EXCHANGE, symbol, "USD"), PERIOD_ID, QUOTE_PERIODS)
  }

  /** The OHLCV lookup of a quote on an alternate exchange: two daily periods
      of its market in the exchange's quote currency. */
  function FallbackQuoteRequest(exchange: string, symbol: string): (r: Request)
    ensures r.OhlcvLatest? && r.periodId == PERIOD_ID && r.limit == QUOTE_PERIODS
  {
    OhlcvLatest(SymbolId(exchange, symbol, QuoteCurrency(exchange)), PERIOD_ID, QUOTE_PERIODS)
  }

  /** The OHLCV lookup of `days + 1` periods of history; the quote currency
      is USD on every exchange, Binance included. */
  function HistoryRequest(exchange: string, symbol: string, days: int): (r: Request)
    ensures r.OhlcvLatest? && r.periodId == PERIOD_ID && r.limit == days + 1
  {
    OhlcvLatest(SymbolId(exchange, symbol, "USD"), PERIOD_ID, days + 1)
  }

  /** The primary quote lookup names the Bitstamp USD market. */
  lemma PrimaryQuoteMarket(symbol: string)
    ensures var id := PrimaryQuoteRequest(symbol).symbolId;
            id[..|PRIMARY_EXCHANGE| + 6] == PRIMARY_EXCHANGE + "_SPOT_" && id[|id| - 4..] == "_USD"
  {
    SymbolIdParts(PRIMARY_EXCHANGE, symbol, "USD");
  }

  /** An alternate quote lookup names the exchange's market in its quote currency. */
  lemma FallbackQuoteMarket(exchange: string, symbol: string)
    ensures var id, quote := FallbackQuoteRequest(exchange, symbol).symbolId, QuoteCurrency(exchange);
            id[..|exchange| + 6] == exchange + "_SPOT_" && id[|id| - |quote| - 1..] == "_" + quote
  {
    SymbolIdParts(exchange, symbol, QuoteCurrency(exchange));
  }

  /** A history lookup names the exchange's USD market. */
  lemma HistoryMarket(exchange: string, symbol: string, days: int)
    ensures var id := HistoryRequest(exchange, symbol, days).symbolId;
            id[..|exchange| + 6] == exchange + "_SPOT_" && id[|id| - 4..] == "_USD"
  {
    SymbolIdParts(exchange, symbol, "USD");
  }

  /** The alternate exchanges never ask the primary market again, for a
      quote or for history, whatever the symbols. */
  lemma FallbacksAskOtherMarkets(j: int, symbol: string, other: string, days: int, otherDays: int)
    requires 0 <= j < |FALLBACK_EXCHANGES|
    ensures FallbackQuoteRequest(FALLBACK_EXCHANGES[j], symbol) != PrimaryQuoteRequest(other)
    ensures HistoryRequest(FALLBACK_EXCHANGES[j], symbol, days) != HistoryRequest(PRIMARY_EXCHANGE, other, otherDays)
  {
    var exchange := FALLBACK_EXCHANGES[j];
    PrimaryQuoteMarket(other);
    FallbackQuoteMarket(exchange, symbol);
    HistoryMarket(exchange, symbol, days);
    HistoryMarket(PRIMARY_EXCHANGE, other, otherDays);
    var primary := PrimaryQuoteRequest(other).symbolId;
    var quote := FallbackQuoteRequest(exchange, symbol).symbolId;
    var history := HistoryRequest(exchange, symbol, days).symbolId;
    var primaryHistory := HistoryRequest(PRIMARY_EXCHANGE, other, otherDays).symbolId;
    assert exchange == "COINBASE" || exchange == "KRAKEN" || exchange == "BINANCE";
    assert primary[2] == primaryHistory[2] == 'T';
    assert quote[2] == history[2] == exchange[2] != 'T';
  }

  /** A reply that lists at least one period. */
  predicate HasCandles(reply: Outcome<seq<OhlcvRow>>)
    ensures HasCandles(reply) ==> !IsFallbackStatus(reply)
    ensures reply.Data? && !HasCandles(reply) ==> reply.body == []
  {
    reply.Data? && |reply.body| > 0
  }

  /** The error statuses after which the history lookup tries the alternate exchanges. */
  predicate IsFallbackStatus(reply: Outcome<seq<OhlcvRow>>)
    ensures IsFallbackStatus(reply) <==> reply == Thrown(Some(404)) || reply == Thrown(Some(550))
  {
    reply.Thrown? && (reply.status == Some(404) || reply.status == Some(550))
  }

  // ---------------------------------------------------------------------
  // Tables

  /** `getCryptoName`'s table. */
  const NAMES: map<string, string> := map[
    "BTC" := "Bitcoin", "ETH" := "Ethereum", "BNB" := "Binance Coin",
    "SOL" := "Solana", "ADA" := "Cardano", "XRP" := "Ripple"]

  /** `names[symbol] || symbol`: every name in the table is non-empty, hence
      truthy, and differs from its symbol. */
  function CryptoName(symbol: string): (name: string)
    ensures name == symbol <==> symbol !in TRACKED_SYMBOLS
    ensures symbol in TRACKED_SYMBOLS ==> |name| > 0
  {
    if symbol in NAMES then NAMES[symbol] else symbol
  }

  /** Every tracked symbol has a display name of its own; any other symbol
      is displayed as itself. */
  lemma CryptoNameCoversTracked(symbol: string)
    ensures symbol in TRACKED_SYMBOLS ==> CryptoName(symbol) == NAMES[symbol] && CryptoName(symbol) != symbol
    ensures symbol !in TRACKED_SYMBOLS ==> CryptoName(symbol) == symbol
  {
  }

  /** `estimateMarketCap`'s supply table, `|| 1_000_000` for other symbols. */
  function Supply(symbol: string): (supply: real)
    ensures supply >= 1_000_000.0
    ensures symbol !in TRACKED_SYMBOLS ==> supply == 1_000_000.0
  {
    if symbol == "BTC" then 19_500_000.0
    else if symbol == "ETH" then 120_000_000.0
    else if symbol == "BNB" then 150_000_000.0
    else if symbol == "SOL" then 400_000_000.0
    else if symbol == "ADA" then 35_000_000_000.0
    else if symbol == "XRP" then 52_000_000_000.0
    else 1_000_000.0
  }

  /** `estimateVolume`'s multiplier table, `|| 0.1` for other symbols. */
  function VolumeMultiplier(symbol: string): (m: real)
    ensures 0.0 < m <= 0.5
    ensures symbol !in TRACKED_SYMBOLS ==> m == 0.1
  {
    if symbol == "BTC" then 0.5
    else if symbol == "ETH" then 0.3
    else if symbol == "BNB" then 0.2
    else if symbol == "SOL" then 0.15
    else if symbol == "ADA" then 0.1
    else if symbol == "XRP" then 0.25
    else 0.1
  }

  /** The market cap when the upstream supply is unknown: the tabled supply
      at the given price, so at least a million units' worth. */
  function EstimateMarketCap(symbol: string, price: real): (cap: real)
    ensures price >= 0.0 ==> cap >= price * 1_000_000.0
    ensures price < 0.0 ==> cap <= price * 1_000_000.0
    ensures symbol !in TRACKED_SYMBOLS ==> cap == price * 1_000_000.0
  {
    Supply(symbol) * price
  }

  /** The 24-hour volume when no period was traded: a tabled fraction of the
      estimated market cap, never more than half of it. */
  function EstimateVolume(symbol: string, price: real): (volume: real)
    ensures price >= 0.0 ==> 0.0 <= volume <= EstimateMarketCap(symbol, price) / 2.0
    ensures price > 0.0 ==> volume > 0.0
  {
    EstimateMarketCap(symbol, price) * VolumeMultiplier(symbol)
  }

  /** The market cap after an admitted `/assets/{symbol}` call: the supply
      times the price when the body has a truthy `volume_1day_usd` and a
      truthy `supply_total`, the estimate otherwise. */
  function AssetMarketCap(symbol: string, price: real, reply: Outcome<AssetData>): (cap: real)
    ensures reply.Data? && reply.body.volume1dayUsd != 0.0 && reply.body.supplyTotal != 0.0 ==>
              cap == reply.body.supplyTotal * price
    ensures !(reply.Data? && reply.body.volume1dayUsd != 0.0 && reply.body.supplyTotal != 0.0) ==>
              cap == EstimateMarketCap(symbol, price)
  {
    match reply
    case Data(a) =>
      if a.volume1dayUsd != 0.0 && a.supplyTotal != 0.0 then a.supplyTotal * price
      else EstimateMarketCap(symbol, price)
    case _ => EstimateMarketCap(symbol, price)
  }

  // ---------------------------------------------------------------------
  // Quotes

  /** `((current - previous) / previous) * 100`; NaN or Infinity when the
      previous price is zero. */
  function PercentChange(current: real, previous: real): (p: Percent)
    ensures p.NotFinite? <==> previous == 0.0
    ensures p.Finite? ==> p.value * previous == (current - previous) * 100.0
    ensures previous != 0.0 && current == previous ==> p == Finite(0.0)
  {
    if previous == 0.0 then NotFinite else Finite((current - previous) / previous * 100.0)
  }

  /** The quote built from an OHLCV response: the newest period is current,
      the next one previous, or the newest again when only one exists. */
  function QuoteFromRows(symbol: string, rows: seq<OhlcvRow>, marketCap: real, now: int): (q: CryptoIndex)
    requires |rows| > 0
    ensures q.symbol == symbol && q.price == rows[0].priceClose && q.volume24h == rows[0].volumeTraded
  {
    var current := rows[0];
    var previous := if |rows| > 1 then rows[1] else current;
    CryptoIndex(
      ToLowerAscii(symbol), CryptoName(symbol), symbol,
      current.priceClose,
      current.priceClose - previous.priceClose,
      PercentChange(current.priceClose, previous.priceClose),
      marketCap,
      current.volumeTraded,
      now)
  }

  /** With a single period the previous price is the current one, so the
      change is zero (and the percentage zero unless the price is zero). */
  lemma SinglePeriodHasNoChange(symbol: string, rows: seq<OhlcvRow>, marketCap: real, now: int)
    requires |rows| == 1
    ensures QuoteFromRows(symbol, rows, marketCap, now).change24h == 0.0
    ensures rows[0].priceClose != 0.0 ==> QuoteFromRows(symbol, rows, marketCap, now).changePercent24h == Finite(0.0)
    ensures rows[0].priceClose == 0.0 ==> QuoteFromRows(symbol, rows, marketCap, now).changePercent24h == NotFinite
  {
  }

  /** With two periods the change is newest close minus the one before. */
  lemma TwoPeriodChange(symbol: string, rows: seq<OhlcvRow>, marketCap: real, now: int)
    requires |rows| > 1
    ensures QuoteFromRows(symbol, rows, marketCap, now).change24h == rows[0].priceClose - rows[1].priceClose
  {
  }

  /** The quote built from `/exchangerate/{symbol}/USD`: a flat 2% change and
      estimated market cap and volume. */
  function RateQuote(symbol: string, rate: real, now: int): (q: CryptoIndex)
    ensures q.symbol == symbol && q.price == rate
    ensures q.changePercent24h == Finite(2.0) && q.change24h == rate * 0.02
  {
    CryptoIndex(
      ToLowerAscii(symbol), CryptoName(symbol), symbol,
      rate, rate * 0.02, Finite(2.0),
      EstimateMarketCap(symbol, rate),
      EstimateVolume(symbol, rate),
      now)
  }

  // ---------------------------------------------------------------------
  // History series

  /** The field-by-field mapping of an OHLCV row to a candle. */
  function ToCandle(row: OhlcvRow): Candle
  {
    Candle(row.timePeriodStart, row.priceOpen, row.priceHigh, row.priceLow, row.priceClose, row.volumeTraded)
  }

  /** `response.data.map(...)` */
  function Candles(rows: seq<OhlcvRow>): (cs: seq<Candle>)
    ensures |cs| == |rows|
    ensures forall k :: 0 <= k < |rows| ==> cs[k] == ToCandle(rows[k])
  {
    seq(|rows|, k requires 0 <= k < |rows| => ToCandle(rows[k]))
  }

  /** Ascending by period start. */
  predicate SortedByTime(cs: seq<Candle>)
  {
    forall i, j :: 0 <= i < j < |cs| ==> cs[i].timestamp <= cs[j].timestamp
  }
}
