/** The price move behind one news item: the market client fetches the
    one-minute candles from the news minute on and reads the open of the
    first two. Fetching and date conversion are not modelled; the candle
    list is an input whose fields are already numbers. */
module Market {
  import opened Wrappers
  import opened Labels
  import TradeLog

  /** The result dictionary: entry price, exit price and percent change. */
  datatype PriceMove = PriceMove(entryPrice: real, exitPrice: real, pnl: real)

  /** Field 1 of a candle is its open price. */
  const OpenField: nat := 1

  /** `get_price_movement` on the fetched candles: enter at the open of the
      news minute's candle, exit at the open of the next one. None when
      there are fewer than two candles, when a candle is too short to hold
      an open price, or when the entry price is zero (the division raises
      and the error is caught). */
  function PriceMovement(klines: seq<seq<real>>): (r: Option<PriceMove>)
    ensures r.Some? <==> |klines| >= 2 && |klines[0]| > OpenField && |klines[1]| > OpenField
                         && klines[0][OpenField] != 0.0
    ensures r.Some? ==> r.value.entryPrice == klines[0][OpenField] && r.value.exitPrice == klines[1][OpenField]
    ensures r.Some? ==> r.value.exitPrice == r.value.entryPrice * (1.0 + r.value.pnl / 100.0)
  {
    if |klines| < 2 then None
    else if |klines[0]| <= OpenField || |klines[1]| <= OpenField then None
    else
      var entry, exit := klines[0][OpenField], klines[1][OpenField];
      if entry == 0.0 then None
      else
        var pnl := ((exit - entry) / entry) * 100.0;
        assert entry * (1.0 + pnl / 100.0) == exit by {
          assert pnl / 100.0 == (exit - entry) / entry;
          assert entry * ((exit - entry) / entry) == exit - entry;
        }
        Some(PriceMove(entry, exit, pnl))
  }

  /** For a positive entry price the sign of the percent change is the
      direction of the move. */
  lemma PnlSign(klines: seq<seq<real>>)
    requires PriceMovement(klines).Some?
    requires PriceMovement(klines).value.entryPrice > 0.0
    ensures var m := PriceMovement(klines).value;
            && (m.pnl > 0.0 <==> m.exitPrice > m.entryPrice)
            && (m.pnl == 0.0 <==> m.exitPrice == m.entryPrice)
            && (m.pnl < 0.0 <==> m.exitPrice < m.entryPrice)
  {
    var m := PriceMovement(klines).value;
    var d := (m.exitPrice - m.entryPrice) / m.entryPrice;
    assert m.pnl == d * 100.0;
    assert d * m.entryPrice == m.exitPrice - m.entryPrice;
    if d > 0.0 {
      assert d * m.entryPrice > 0.0;
    } else if d < 0.0 {
      assert (-d) * m.entryPrice > 0.0;
    }
  }

  /** Only the first two candles matter. */
  lemma LaterCandlesIgnored(klines: seq<seq<real>>)
    requires |klines| >= 2
    ensures PriceMovement(klines) == PriceMovement(klines[..2])
  {
  }

  /** The record the pipeline stores for a news item with label
      `sentiment` and fetched candles `klines`. NEUTRAL calls are skipped
      before any price is fetched, and nothing is stored when the price move
      cannot be computed. */
  function Record(timestamp: string, symbol: string, newsText: string, sentiment: string,
                  klines: seq<seq<real>>): (r: Option<TradeLog.TradeRecord>)
    ensures r.Some? <==> sentiment != Neutral && PriceMovement(klines).Some?
    ensures r.Some? ==> && r.value.timestamp == timestamp && r.value.symbol == symbol
                        && r.value.newsText == newsText && r.value.sentiment == sentiment
    ensures r.Some? ==> && r.value.entryPrice == klines[0][OpenField] && r.value.exitPrice == klines[1][OpenField]
                        && r.value.exitPrice == r.value.entryPrice * (1.0 + r.value.pnl / 100.0)
  {
    if sentiment == Neutral then None
    else
      match PriceMovement(klines)
      case None => None
      case Some(m) => Some(TradeLog.TradeRecord(timestamp, symbol, newsText, sentiment, m.entryPrice, m.exitPrice, m.pnl))
  }

  /** A stored call is a success exactly when the price went the way the
      label said: up after POSITIVE, down after NEGATIVE. */
  lemma StoredSuccessFollowsPrice(timestamp: string, symbol: string, newsText: string, sentiment: string,
                                  klines: seq<seq<real>>)
    requires Record(timestamp, symbol, newsText, sentiment, klines).Some?
    requires klines[0][OpenField] > 0.0
    ensures var rec := Record(timestamp, symbol, newsText, sentiment, klines).value;
            TradeLog.SaveTrade(rec).success == 1 <==>
              (sentiment == Positive && rec.exitPrice > rec.entryPrice) || (sentiment == Negative && rec.exitPrice < rec.entryPrice)
  {
    PnlSign(klines);
  }
}
