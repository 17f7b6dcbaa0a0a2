/** The upstream market-data provider as the client sees it through its
    HTTP instance: three endpoints whose replies are fixed functions of the
    request, and the log of requests sent.  Within one orchestration the
    client never sends the same request twice, so a fixed reply per request
    loses nothing against a scripted sequence of replies. */
module Http {
  import opened Types

  class Upstream {
    /** `GET /ohlcv/latest?symbol_id=..&period_id=..&limit=..` */
    const ohlcvLatest: (string, string, int) -> Outcome<seq<OhlcvRow>>
    /** `GET /exchangerate/{base}/{quote}`, the body's `rate` field */
    const exchangeRate: (string, string) -> Outcome<real>
    /** `GET /assets/{asset}` */
    const asset: string -> Outcome<AssetData>
    /** Every request sent, in order. */
    var sent: seq<Request>

    constructor (ohlcvLatest: (string, string, int) -> Outcome<seq<OhlcvRow>>,
                 exchangeRate: (string, string) -> Outcome<real>,
                 asset: string -> Outcome<AssetData>)
      ensures this.ohlcvLatest == ohlcvLatest
      ensures this.exchangeRate == exchangeRate
      ensures this.asset == asset
      ensures sent == []
    {
      this.ohlcvLatest := ohlcvLatest;
      this.exchangeRate := exchangeRate;
      this.asset := asset;
      sent := [];
    }

    method GetOhlcvLatest(symbolId: string, periodId: string, limit: int) returns (reply: Outcome<seq<OhlcvRow>>)
      modifies this
      ensures sent == old(sent) + [OhlcvLatest(symbolId, periodId, limit)]
      ensures reply == ohlcvLatest(symbolId, periodId, limit)
    {
      sent := sent + [OhlcvLatest(symbolId, periodId, limit)];
      reply := ohlcvLatest(symbolId, periodId, limit);
    }

    method GetExchangeRate(base: string, quote: string) returns (reply: Outcome<real>)
      modifies this
      ensures sent == old(sent) + [ExchangeRate(base, quote)]
      ensures reply == exchangeRate(base, quote)
    {
      sent := sent + [ExchangeRate(base, quote)];
      reply := exchangeRate(base, quote);
    }

    method GetAsset(assetId: string) returns (reply: Outcome<AssetData>)
      modifies this
      ensures sent == old(sent) + [AssetInfo(assetId)]
      ensures reply == asset(assetId)
    {
      sent := sent + [AssetInfo(assetId)];
      reply := asset(assetId);
    }
  }
}
