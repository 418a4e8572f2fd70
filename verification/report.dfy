/** The report script: it splits the best 50-gene vector into one 10-gene
    slice per coin and decodes each slice into readable strategy knobs.
    Reading the result file and printing the table are not modelled. */
module Report {
  import opened Wrappers
  import opened Numeric

  /** The coins of the portfolio, in slice order. */
  const Coins: seq<string> := ["BTCUSDT", "ETHUSDT", "BNBUSDT", "SOLUSDT", "XRPUSDT"]

  /** Genes per coin. */
  const Width: nat := 10

  /** The ten decoded knobs of one coin's strategy. The three percentages
      are exact reals; the script rounds them to two decimals. */
  datatype Knobs = Knobs(
    rsiPeriod: int, rsiBuy: int, rsiSell: int,
    macdFast: int, macdSlow: int, macdSignal: int,
    stopLossPct: real, takeProfitPct: real,
    smaTrend: int, budgetPct: real)

  /** `int(g * span) + base`: an integer level between `base` and
      `base + span` for a gene in `[0, 1]`. */
  function Level(g: real, span: nat, base: int): int {
    Trunc(g * span as real) + base
  }

  /** `(g * scale + floor) * 100`: a percentage. */
  function Percent(g: real, scale: real, floor: real): real {
    (g * scale + floor) * 100.0
  }

  lemma LevelRange(g: real, span: nat, base: int)
    requires 0.0 <= g <= 1.0
    ensures base <= Level(g, span, base) <= base + span
  {
    MulNonneg(g, span as real);
    MulNonneg(1.0 - g, span as real);
  }

  lemma LevelMonotone(g: real, h: real, span: nat, base: int)
    requires g <= h
    ensures Level(g, span, base) <= Level(h, span, base)
  {
    assert g * span as real <= h * span as real by {
      MulMonotone(g, h, span as real);
    }
    TruncMonotone(g * span as real, h * span as real);
  }

  lemma PercentRange(g: real, scale: real, floor: real)
    requires 0.0 <= g <= 1.0 && 0.0 <= scale
    ensures floor * 100.0 <= Percent(g, scale, floor) <= (scale + floor) * 100.0
  {
    MulNonneg(g, scale);
    MulNonneg(1.0 - g, scale);
  }

  lemma PercentMonotone(g: real, h: real, scale: real, floor: real)
    requires g <= h && 0.0 <= scale
    ensures Percent(g, scale, floor) <= Percent(h, scale, floor)
  {
    MulMonotone(g, h, scale);
  }

  /** Every gene lies in `[0, 1]`. */
  predicate InUnit(g: seq<real>) {
    forall k :: 0 <= k < |g| ==> 0.0 <= g[k] <= 1.0
  }

  /** The decoded knobs lie in the ranges the strategy is built for. */
  predicate Sane(d: Knobs) {
    && 4 <= d.rsiPeriod <= 20 && 20 <= d.rsiBuy <= 50 && 60 <= d.rsiSell <= 90
    && 8 <= d.macdFast <= 18 && 19 <= d.macdSlow <= 34 && 5 <= d.macdSignal <= 13
    && 1.0 <= d.stopLossPct <= 16.0 && 2.0 <= d.takeProfitPct <= 32.0
    && 20 <= d.smaTrend <= 170 && 10.0 <= d.budgetPct <= 100.0
  }

  /** `decode_params(params)`: None where the script fails on a list too
      short to read gene 9. For genes in `[0, 1]` every knob is in its
      range, the fast MACD period stays below the slow one and the RSI buy
      level below the sell level. */
  function Decode(params: seq<real>): (r: Option<Knobs>)
    ensures r.Some? <==> |params| >= Width
    ensures r.Some? && InUnit(params[..Width]) ==> Sane(r.value)
    ensures r.Some? && InUnit(params[..Width]) ==>
              r.value.macdFast < r.value.macdSlow && r.value.rsiBuy < r.value.rsiSell
  {
    if |params| < Width then None
    else
      var d := Knobs(
        Level(params[0], 16, 4), Level(params[1], 30, 20), Level(params[2], 30, 60),
        Level(params[3], 10, 8), Level(params[4], 15, 19), Level(params[5], 8, 5),
        Percent(params[6], 0.15, 0.01), Percent(params[7], 0.30, 0.02),
        Level(params[8], 150, 20), Percent(params[9], 0.9, 0.1));
      assert InUnit(params[..Width]) ==> Sane(d) by {
        if InUnit(params[..Width]) {
          assert forall k :: 0 <= k < Width ==> params[..Width][k] == params[k];
          LevelRange(params[0], 16, 4);
          LevelRange(params[1], 30, 20);
          LevelRange(params[2], 30, 60);
          LevelRange(params[3], 10, 8);
          LevelRange(params[4], 15, 19);
          LevelRange(params[5], 8, 5);
          PercentRange(params[6], 0.15, 0.01);
          PercentRange(params[7], 0.30, 0.02);
          LevelRange(params[8], 150, 20);
          PercentRange(params[9], 0.9, 0.1);
        }
      }
      Some(d)
  }

  /** Raising any gene never lowers the knob it feeds. */
  lemma DecodeMonotone(g: seq<real>, h: seq<real>)
    requires |g| >= Width && |h| >= Width
    requires forall k :: 0 <= k < Width ==> g[k] <= h[k]
    ensures var a, b := Decode(g).value, Decode(h).value;
            && a.rsiPeriod <= b.rsiPeriod && a.rsiBuy <= b.rsiBuy && a.rsiSell <= b.rsiSell
            && a.macdFast <= b.macdFast && a.macdSlow <= b.macdSlow && a.macdSignal <= b.macdSignal
            && a.stopLossPct <= b.stopLossPct && a.takeProfitPct <= b.takeProfitPct
            && a.smaTrend <= b.smaTrend && a.budgetPct <= b.budgetPct
  {
    LevelMonotone(g[0], h[0], 16, 4);
    LevelMonotone(g[1], h[1], 30, 20);
    LevelMonotone(g[2], h[2], 30, 60);
    LevelMonotone(g[3], h[3], 10, 8);
    LevelMonotone(g[4], h[4], 15, 19);
    LevelMonotone(g[5], h[5], 8, 5);
    PercentMonotone(g[6], h[6], 0.15, 0.01);
    PercentMonotone(g[7], h[7], 0.30, 0.02);
    LevelMonotone(g[8], h[8], 150, 20);
    PercentMonotone(g[9], h[9], 0.9, 0.1);
  }

  /** Each knob reads its own gene only: knob `k` agrees on two vectors
      that agree on gene `k`, whatever the other genes hold. */
  lemma DecodeLocal(g: seq<real>, h: seq<real>)
    requires |g| >= Width && |h| >= Width
    ensures var a, b := Decode(g).value, Decode(h).value;
            && (g[0] == h[0] ==> a.rsiPeriod == b.rsiPeriod)
            && (g[1] == h[1] ==> a.rsiBuy == b.rsiBuy)
            && (g[2] == h[2] ==> a.rsiSell == b.rsiSell)
            && (g[3] == h[3] ==> a.macdFast == b.macdFast)
            && (g[4] == h[4] ==> a.macdSlow == b.macdSlow)
            && (g[5] == h[5] ==> a.macdSignal == b.macdSignal)
            && (g[6] == h[6] ==> a.stopLossPct == b.stopLossPct)
            && (g[7] == h[7] ==> a.takeProfitPct == b.takeProfitPct)
            && (g[8] == h[8] ==> a.smaTrend == b.smaTrend)
            && (g[9] == h[9] ==> a.budgetPct == b.budgetPct)
  {
  }

  /** Python's `s[lo:hi]` for `0 <= lo <= hi`: the bounds are cut down to
      the length of `s`. */
  function PySlice(s: seq<real>, lo: nat, hi: nat): (r: seq<real>)
    requires lo <= hi
    ensures hi <= |s| ==> r == s[lo..hi]
    ensures |r| <= hi - lo
  {
    if |s| <= lo then [] else if |s| <= hi then s[lo..] else s[lo..hi]
  }

  /** The genes of coin `i`: `best[10i : 10i + 10]`. */
  function CoinGenes(best: seq<real>, i: nat): (g: seq<real>)
    ensures |g| >= Width <==> i * Width + Width <= |best|
    ensures i * Width + Width <= |best| ==> g == best[i * Width .. i * Width + Width]
  {
    PySlice(best, i * Width, i * Width + Width)
  }

  datatype CoinReport = CoinReport(symbol: string, knobs: Knobs)

  /** The reports of coins `i ..` of the portfolio, or None as soon as a
      coin's slice is too short to decode. */
  function ReportFrom(best: seq<real>, i: nat): (r: Option<seq<CoinReport>>)
    requires i <= |Coins|
    ensures r.Some? <==> |best| >= |Coins| * Width || i == |Coins|
    ensures r.Some? ==> |r.value| == |Coins| - i
    ensures r.Some? ==> forall k :: 0 <= k < |r.value| ==>
              && r.value[k].symbol == Coins[i + k]
              && Decode(CoinGenes(best, i + k)) == Some(r.value[k].knobs)
    decreases |Coins| - i
  {
    if i == |Coins| then Some([])
    else
      match Decode(CoinGenes(best, i))
      case None => None
      case Some(d) =>
        match ReportFrom(best, i + 1)
        case None => None
        case Some(rest) =>
          var all := [CoinReport(Coins[i], d)] + rest;
          assert forall k :: 0 < k < |all| ==> all[k] == rest[k - 1];
          Some(all)
  }

  /** `generate_report()` on the stored best vector: one decoded strategy
      per coin in order, or None where the script fails because the vector
      holds fewer than 50 genes. */
  function GenerateReport(best: seq<real>): (r: Option<seq<CoinReport>>)
    ensures r.Some? <==> |best| >= |Coins| * Width
    ensures r.Some? ==> |r.value| == |Coins| && forall i :: 0 <= i < |Coins| ==>
              && r.value[i].symbol == Coins[i]
              && Decode(best[i * Width .. i * Width + Width]) == Some(r.value[i].knobs)
  {
    var r := ReportFrom(best, 0);
    assert r.Some? ==> forall i :: 0 <= i < |Coins| ==> CoinGenes(best, i) == best[i * Width .. i * Width + Width] by {
      if r.Some? {
        forall i | 0 <= i < |Coins|
          ensures CoinGenes(best, i) == best[i * Width .. i * Width + Width]
        {
          assert i * Width + Width <= |Coins| * Width;
        }
      }
    }
    r
  }

  /** The slices of coins `0 .. n-1`, laid end to end. */
  function Joined(best: seq<real>, n: nat): seq<real> {
    if n == 0 then [] else Joined(best, n - 1) + CoinGenes(best, n - 1)
  }

  /** The coin slices are contiguous and disjoint, and together they are
      exactly the first `10n` genes; the five coins use the first 50. */
  lemma {:induction false} SlicesPartition(best: seq<real>, n: nat)
    requires n * Width <= |best|
    ensures Joined(best, n) == best[..n * Width]
  {
    if n > 0 {
      var m := (n - 1) * Width;
      assert n * Width == m + Width;
      SlicesPartition(best, n - 1);
      assert CoinGenes(best, n - 1) == best[m .. m + Width];
      assert best[..m + Width] == best[..m] + best[m .. m + Width];
    }
  }
}
