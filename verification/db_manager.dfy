/** The row `DBManager.save_trade` inserts into the trades table, with its
    success label. The SQLite connection, table creation and queries are not
    part of this model. */
module TradeLog {
  import opened Labels

  /** The dictionary the pipeline hands to `save_trade`. */
  datatype TradeRecord = TradeRecord(
    timestamp: string,
    symbol: string,
    newsText: string,
    sentiment: string,
    entryPrice: real,
    exitPrice: real,
    pnl: real)

  /** The inserted row, without the auto-incremented id. */
  datatype Row = Row(
    timestamp: string,
    symbol: string,
    newsText: string,
    sentiment: string,
    entryPrice: real,
    exitPrice: real,
    pnlPercent: real,
    success: int)

  /** The labelling rule: a call is a success when the price moved the way
      the sentiment said (up for POSITIVE, down for NEGATIVE). */
  function Success(sentiment: string, pnl: real): (s: int)
    ensures s == 0 || s == 1
    ensures s == 1 <==> (sentiment == Positive && pnl > 0.0) || (sentiment == Negative && pnl < 0.0)
  {
    if (sentiment == Positive && pnl > 0.0) || (sentiment == Negative && pnl < 0.0) then 1 else 0
  }

  /** Any label other than POSITIVE and NEGATIVE, NEUTRAL included, is never a success. */
  lemma OtherLabelsFail(sentiment: string, pnl: real)
    requires sentiment != Positive && sentiment != Negative
    ensures Success(sentiment, pnl) == 0
  {
  }

  /** A flat price is never a success, whatever the label. */
  lemma FlatPriceFails(sentiment: string)
    ensures Success(sentiment, 0.0) == 0
  {
  }

  /** Swapping POSITIVE and NEGATIVE while negating the P&L keeps the label. */
  lemma MirrorSymmetric(pnl: real)
    ensures Success(Positive, pnl) == Success(Negative, -pnl)
    ensures Success(Negative, pnl) == Success(Positive, -pnl)
  {
  }

  /** The row `save_trade` writes: every field copied verbatim, only the
      success label computed. */
  function SaveTrade(rec: TradeRecord): (row: Row)
    ensures row.timestamp == rec.timestamp && row.symbol == rec.symbol && row.newsText == rec.newsText
    ensures row.sentiment == rec.sentiment
    ensures row.entryPrice == rec.entryPrice && row.exitPrice == rec.exitPrice && row.pnlPercent == rec.pnl
    ensures row.success == 1 <==> (rec.sentiment == Positive && rec.pnl > 0.0) || (rec.sentiment == Negative && rec.pnl < 0.0)
    ensures row.success == 0 || row.success == 1
  {
    Row(rec.timestamp, rec.symbol, rec.newsText, rec.sentiment,
        rec.entryPrice, rec.exitPrice, rec.pnl,
        Success(rec.sentiment, rec.pnl))
  }
}
