/** Record shapes shared by the market-data client, the cache and the routes
    (src/types/index.ts), plus the wrappers used for results and upstream replies. */
module Types {

  datatype Option<+T> = None | Some(value: T)

  /** ApiResponse<T> of the client: `success: true` with `data`, or
      `success: false` with `error`.  Never both. */
  datatype ApiResponse<+T> = Success(data: T) | Failure(error: string)

  /** One OHLCV period as the upstream provider reports it.  The period start
      is an instant in milliseconds (the provider sends an ISO string). */
  datatype OhlcvRow = OhlcvRow(
    timePeriodStart: int,
    priceOpen: real,
    priceHigh: real,
    priceLow: real,
    priceClose: real,
    volumeTraded: real)

  /** HistoricalData: one candle of a history series. */
  datatype Candle = Candle(
    timestamp: int,
    open: real,
    high: real,
    low: real,
    close: real,
    volume: real)

  /** A percentage that JavaScript may compute as NaN or +-Infinity
      (a division by a zero previous price). */
  datatype Percent = Finite(value: real) | NotFinite

  /** CryptoIndex: the quote of one tracked symbol.  `lastUpdated` is the
      instant of the request (the source formats it as an ISO string). */
  datatype CryptoIndex = CryptoIndex(
    id: string,
    name: string,
    symbol: string,
    price: real,
    change24h: real,
    changePercent24h: Percent,
    marketCap: real,
    volume24h: real,
    lastUpdated: int)

  /** RateLimitInfo.  `resetTime` is None where the source computes
      `Math.max()` of an empty list plus 60000, which is -Infinity. */
  datatype RateLimitInfo = RateLimitInfo(requestsRemaining: int, resetTime: Option<int>)

  /** What one upstream HTTP call yields: a body, a body that is null, or a
      rejected promise, with the HTTP status when a response arrived. */
  datatype Outcome<+T> = Data(body: T) | NullData | Thrown(status: Option<int>)

  /** The body of `/assets/{symbol}`; a missing or falsy field is 0.0. */
  datatype AssetData = AssetData(volume1dayUsd: real, supplyTotal: real)

  /** The requests the client sends upstream. */
  datatype Request =
    | OhlcvLatest(symbolId: string, periodId: string, limit: int)
    | ExchangeRate(base: string, quote: string)
    | AssetInfo(assetId: string)
}
