/** The trade-replay fitness and the Grey Wolf Optimizer run of the
    profit optimizer. The trade list, read from the database when the script
    is imported, is an explicit input here. */
module TradeGwo {
  import opened Wrappers
  import opened Numeric
  import opened ExtReal
  import opened Labels
  import TradeLog
  import WolfPack

  /** Ten genes: buy and sell thresholds, stop loss %, take profit %,
      trailing stop %, risk per trade %, holding time, volume filter, RSI
      lower and upper limits. Only stop loss, take profit and risk are used
      by the fitness. */
  const Dim: nat := 10
  const SearchAgents: nat := 60
  const MaxIter: nat := 1000
  const LB: seq<real> := [0.5, 0.1, 0.5, 1.0, 0.1, 0.5, 1.0, 1.0, 20.0, 60.0]
  const UB: seq<real> := [0.9, 0.5, 5.0, 15.0, 3.0, 5.0, 120.0, 3.0, 40.0, 80.0]

  const InitialCapital: real := 10000.0

  /** What the fitness reports when there are no trades at all. */
  const NoDataFitness: real := -1000.0

  /** The bounds are well ordered in every dimension. */
  lemma BoundsOrdered()
    ensures |LB| == |UB| == Dim
    ensures forall j :: 0 <= j < Dim ==> LB[j] <= UB[j]
  {
  }

  /** One stored trade as the optimizer reads it: sentiment, entry price,
      market P&L in percent (None when it does not read as a number) and
      the news text. */
  datatype Trade = Trade(sentiment: string, entryPrice: real, marketPnl: Option<real>, newsText: string)

  /** The stop-loss / take-profit cap on a percentage P&L, tested in the
      script's order: take profit first, then stop loss. */
  function Cap(pnl: real, sl: real, tp: real): (r: real)
    ensures pnl > tp ==> r == tp
    ensures pnl <= tp && pnl < -sl ==> r == -sl
    ensures -sl <= pnl <= tp ==> r == pnl
    ensures -sl <= tp ==> -sl <= r <= tp
  {
    if pnl > tp then tp
    else if pnl < -sl then -sl
    else pnl
  }

  /** With ordered bounds the cap is NumPy's clip into `[-sl, tp]`. */
  lemma CapIsClip(pnl: real, sl: real, tp: real)
    requires -sl <= tp
    ensures Cap(pnl, sl, tp) == Clip(pnl, -sl, tp)
  {
  }

  /** The P&L the strategy realises on a trade: the capped market P&L for a
      long (POSITIVE) call, the capped negated market P&L for a short
      (NEGATIVE) call; None when the trade is skipped. */
  function Realised(t: Trade, sl: real, tp: real): (r: Option<real>)
    ensures r.Some? <==> t.marketPnl.Some? && (t.sentiment == Positive || t.sentiment == Negative)
    ensures r.Some? && t.sentiment == Positive ==> r.value == Cap(t.marketPnl.value, sl, tp)
    ensures r.Some? && t.sentiment == Negative ==> r.value == Cap(-t.marketPnl.value, sl, tp)
    ensures r.Some? && -sl <= tp ==> -sl <= r.value <= tp
  {
    match t.marketPnl
    case None => None
    case Some(m) =>
      if t.sentiment == Positive then Some(Cap(m, sl, tp))
      else if t.sentiment == Negative then Some(Cap(-m, sl, tp))
      else None
  }

  /** The factor one trade multiplies capital by: `risk%` of the capital
      earns the realised `pnl%`. */
  function Factor(t: Trade, sl: real, tp: real, risk: real): real {
    match Realised(t, sl, tp)
    case None => 1.0
    case Some(p) => 1.0 + (risk / 100.0) * (p / 100.0)
  }

  /** Every trade's factor, in trade order. */
  function Factors(trades: seq<Trade>, sl: real, tp: real, risk: real): (fs: seq<real>)
    ensures |fs| == |trades|
    ensures forall k :: 0 <= k < |trades| ==> fs[k] == Factor(trades[k], sl, tp, risk)
  {
    seq(|trades|, k requires 0 <= k < |trades| => Factor(trades[k], sl, tp, risk))
  }

  /** The factors of two trade lists laid end to end are the factors of
      the first followed by those of the second. */
  lemma FactorsConcat(a: seq<Trade>, b: seq<Trade>, sl: real, tp: real, risk: real)
    ensures Factors(a + b, sl, tp, risk) == Factors(a, sl, tp, risk) + Factors(b, sl, tp, risk)
  {
  }

  /** The fitness of a position: the profit of compounding 10000 through
      the trades, or -1000 when there are no trades. Genes 2, 3 and 5 are
      the stop loss, take profit and risk percentages. */
  function Fitness(trades: seq<Trade>, position: seq<real>): (r: real)
    requires |trades| == 0 || |position| > 5
    ensures |trades| == 0 ==> r == NoDataFitness
  {
    if |trades| == 0 then NoDataFitness
    else InitialCapital * Product(Factors(trades, position[2], position[3], position[5])) - InitialCapital
  }

  /** The script's replay loop, trade by trade; a trade it `continue`s past
      leaves the capital alone. The capital it ends with is the reference
      compounding product. */
  method ReplayTrades(trades: seq<Trade>, position: seq<real>) returns (profit: real)
    requires |trades| == 0 || |position| > 5
    ensures profit == Fitness(trades, position)
  {
    if |trades| == 0 {
      return NoDataFitness;
    }
    var sl, tp, risk := position[2], position[3], position[5];
    ghost var fs := Factors(trades, sl, tp, risk);
    var capital := InitialCapital;
    var k := 0;
    while k < |trades|
      invariant 0 <= k <= |trades|
      invariant capital == InitialCapital * Product(fs[..k])
    {
      FactorAt(trades, sl, tp, risk, k);
      capital := ReplayStep(trades[k], sl, tp, risk, fs, k, capital);
      k := k + 1;
    }
    assert fs[..k] == fs;
    profit := capital - InitialCapital;
  }

  /** The loop body: replaying trade `k` extends the compounded prefix of
      the factors by one. */
  method ReplayStep(t: Trade, sl: real, tp: real, risk: real, ghost fs: seq<real>, k: nat, capital: real)
    returns (next: real)
    requires k < |fs| && fs[k] == Factor(t, sl, tp, risk)
    requires capital == InitialCapital * Product(fs[..k])
    ensures next == InitialCapital * Product(fs[..k + 1])
  {
    next := ReplayOne(capital, t, sl, tp, risk, fs[k]);
    ReplayInvariant(fs, k, capital, next);
  }

  /** Entry `k` of the factors is trade `k`'s factor. */
  lemma FactorAt(trades: seq<Trade>, sl: real, tp: real, risk: real, k: nat)
    requires k < |trades|
    ensures Factors(trades, sl, tp, risk)[k] == Factor(trades[k], sl, tp, risk)
  {
  }

  /** One pass of the replay loop: a settled trade compounds the capital,
      a skipped one leaves it alone. */
  method ReplayOne(capital: real, t: Trade, sl: real, tp: real, risk: real, ghost factor: real) returns (next: real)
    requires factor == Factor(t, sl, tp, risk)
    ensures next == capital * factor
  {
    var actual := SettleTrade(t, sl, tp);
    next := capital;
    if actual.Some? {
      next := Compound(capital, risk, actual.value);
    }
  }

  /** The per-trade branch of the replay: the P&L a trade realises, or
      None when the replay skips it. */
  method SettleTrade(t: Trade, sl: real, tp: real) returns (actual: Option<real>)
    ensures actual == Realised(t, sl, tp)
  {
    actual := None;
    if t.marketPnl.Some? {
      var marketPnl := t.marketPnl.value;
      if t.sentiment == Positive {
        if marketPnl > tp {
          actual := Some(tp);
        } else if marketPnl < -sl {
          actual := Some(-sl);
        } else {
          actual := Some(marketPnl);
        }
      } else if t.sentiment == Negative {
        var short := -1.0 * marketPnl;
        if short > tp {
          actual := Some(tp);
        } else if short < -sl {
          actual := Some(-sl);
        } else {
          actual := Some(short);
        }
      }
    }
  }

  /** Staking `risk%` of the capital on a trade that realises `pnl%`
      multiplies the capital by the trade's factor. */
  method Compound(capital: real, risk: real, pnl: real) returns (next: real)
    ensures next == capital * (1.0 + (risk / 100.0) * (pnl / 100.0))
  {
    var tradeAmount := capital * (risk / 100.0);
    var profitAmount := tradeAmount * (pnl / 100.0);
    MulAssoc(capital, risk / 100.0, pnl / 100.0);
    next := capital + profitAmount;
  }

  /** The replay's invariant survives one more trade: multiplying by the
      k-th factor extends the compounded prefix by one. */
  lemma ReplayInvariant(fs: seq<real>, k: nat, before: real, after: real)
    requires k < |fs|
    requires before == InitialCapital * Product(fs[..k]) && after == before * fs[k]
    ensures after == InitialCapital * Product(fs[..k + 1])
  {
    ProductExtend(fs, k);
    MulAssoc(InitialCapital, Product(fs[..k]), fs[k]);
  }

  /** A trade the replay skips (unreadable P&L, or a label other than
      POSITIVE and NEGATIVE) leaves the fitness unchanged wherever it sits. */
  lemma SkippedTradeNeutral(before: seq<Trade>, t: Trade, after: seq<Trade>, position: seq<real>)
    requires |position| > 5 && |before + after| > 0
    requires Realised(t, position[2], position[3]).None?
    ensures Fitness(before + [t] + after, position) == Fitness(before + after, position)
  {
    var sl, tp, risk := position[2], position[3], position[5];
    var fb, fa := Factors(before, sl, tp, risk), Factors(after, sl, tp, risk);
    FactorsConcat(before + [t], after, sl, tp, risk);
    FactorsConcat(before, [t], sl, tp, risk);
    FactorsConcat(before, after, sl, tp, risk);
    assert Factors([t], sl, tp, risk) == [1.0];
    ProductSkipsOne(fb, fa);
  }

  /** The empty-list guard tests the raw trade list, not the usable
      trades: a non-empty list whose every trade is skipped scores 0, not
      the -1000 of an empty list. */
  lemma AllSkippedScoresZero(trades: seq<Trade>, position: seq<real>)
    requires |trades| > 0 && |position| > 5
    requires forall k :: 0 <= k < |trades| ==> Realised(trades[k], position[2], position[3]).None?
    ensures Fitness(trades, position) == 0.0
    ensures Fitness([], position) == NoDataFitness
  {
    ProductOfOnes(Factors(trades, position[2], position[3], position[5]));
  }

  /** Only genes 2, 3 and 5 (stop loss, take profit, risk) matter. */
  lemma FitnessReadsThreeGenes(trades: seq<Trade>, p: seq<real>, q: seq<real>)
    requires |p| > 5 && |q| > 5
    requires p[2] == q[2] && p[3] == q[3] && p[5] == q[5]
    ensures Fitness(trades, p) == Fitness(trades, q)
  {
  }

  /** With risk and stop loss inside their bounds, no trade can take more
      than a sliver of the capital. */
  lemma FactorPositive(t: Trade, sl: real, tp: real, risk: real)
    requires 0.0 <= risk <= 5.0 && 0.0 <= sl <= 5.0 && -sl <= tp
    ensures Factor(t, sl, tp, risk) > 0.0
  {
    match Realised(t, sl, tp)
    case None =>
    case Some(p) =>
      assert -5.0 <= p;
      MulNonneg(risk, p + 5.0);
      assert risk * p >= -5.0 * risk;
      assert (risk / 100.0) * (p / 100.0) == risk * p / 10000.0;
  }

  /** For any position inside the bounds the replay never loses the whole
      starting capital. */
  lemma CapitalSurvives(trades: seq<Trade>, position: seq<real>)
    requires |position| == Dim && InBox(position, LB, UB)
    ensures Fitness(trades, position) > -InitialCapital
  {
    if |trades| > 0 {
      var fs := Factors(trades, position[2], position[3], position[5]);
      forall k | 0 <= k < |fs|
        ensures 0.0 < fs[k]
      {
        FactorPositive(trades[k], position[2], position[3], position[5]);
      }
      ProductPositive(fs);
    }
  }

  /** The fitness as the objective of the search; the position must be
      long enough to read genes 2, 3 and 5 only when there are trades. */
  function Objective(trades: seq<Trade>): seq<real> --> real {
    (p: seq<real>) requires |trades| == 0 || |p| > 5 => Fitness(trades, p)
  }

  /** The initial pack: per dimension `j`, one `uniform(0, 1, n)` draw
      scaled into `[lb[j], ub[j]]`, so the draws fill the population column
      by column. */
  function InitPositions(u: seq<real>, agents: nat, lb: seq<real>, ub: seq<real>, dim: nat): (ps: seq<seq<real>>)
    requires |u| == dim * agents && |lb| >= dim && |ub| >= dim
    ensures |ps| == agents && WolfPack.Rows(ps, dim)
    ensures forall i, j :: 0 <= i < agents && 0 <= j < dim ==>
              ColumnMajorIndex(i, j, agents) < |u| && ps[i][j] == Uniform(u[ColumnMajorIndex(i, j, agents)], lb[j], ub[j])
    ensures (forall k :: 0 <= k < |u| ==> 0.0 <= u[k] < 1.0) ==>
              forall i, j :: 0 <= i < agents && 0 <= j < dim && lb[j] <= ub[j] ==> lb[j] <= ps[i][j] <= ub[j]
  {
    ColumnMajorInRange(agents, dim);
    seq(agents, i requires 0 <= i < agents =>
      seq(dim, j requires 0 <= j < dim => Uniform(u[ColumnMajorIndex(i, j, agents)], lb[j], ub[j])))
  }

  /** `GWO(search_agents_no, max_iter, lb, ub, dim)` maximising the replay
      fitness, with the initial draws `u` and the per-iteration draws made
      explicit. It returns the alpha position, the alpha score and the
      convergence curve. */
  function Gwo(trades: seq<Trade>, agents: nat, maxIter: nat, lb: seq<real>, ub: seq<real>, dim: nat,
               u: seq<real>, draws: seq<seq<seq<WolfPack.Draws>>>): (r: WolfPack.Outcome)
    requires |lb| >= dim && |ub| >= dim && (|trades| == 0 || dim > 5)
    requires |u| == dim * agents && WolfPack.DrawShape(draws, maxIter, agents, dim)
    ensures |r.curve| == maxIter
    ensures forall k, m :: 0 <= k <= m < maxIter ==> Le(r.curve[k], r.curve[m])
    ensures maxIter > 0 ==> r.curve[maxIter - 1] == r.bestScore
    ensures maxIter > 0 && agents > 0 ==>
              && r.bestScore.Fin?
              && |r.bestPos| == dim
              && (forall j :: 0 <= j < dim && lb[j] <= ub[j] ==> lb[j] <= r.bestPos[j] <= ub[j])
              && r.bestScore.v == Fitness(trades, r.bestPos)
    ensures maxIter == 0 || agents == 0 ==> r.bestScore == NegInf
    ensures maxIter > 0 ==> forall i :: 0 <= i < agents ==>
              Le(Fin(Fitness(trades, ClipVec(InitPositions(u, agents, lb, ub, dim)[i], lb[..dim], ub[..dim]))), r.bestScore)
  {
    var lo, hi := lb[..dim], ub[..dim];
    var f := Objective(trades);
    assert WolfPack.Defined(f, dim);
    var o := WolfPack.Optimize(WolfPack.Maximise, f, lo, hi, InitPositions(u, agents, lb, ub, dim), maxIter, draws);
    assert o.bestScore.Fin? ==> forall j :: 0 <= j < dim && lb[j] <= ub[j] ==> lb[j] <= o.bestPos[j] <= ub[j] by {
      if o.bestScore.Fin? {
        ClippedWithin(o.bestPos, lb, ub, dim);
      }
    }
    o
  }

  /** A position that clipping to the first `dim` bounds leaves unchanged
      lies within those bounds wherever they are ordered. */
  lemma ClippedWithin(p: seq<real>, lb: seq<real>, ub: seq<real>, dim: nat)
    requires |p| == dim && |lb| >= dim && |ub| >= dim
    requires p == ClipVec(p, lb[..dim], ub[..dim])
    ensures forall j :: 0 <= j < dim && lb[j] <= ub[j] ==> lb[j] <= p[j] <= ub[j]
  {
    forall j | 0 <= j < dim && lb[j] <= ub[j]
      ensures lb[j] <= p[j] <= ub[j]
    {
      assert lb[..dim][j] == lb[j] && ub[..dim][j] == ub[j];
    }
  }

  /** Run with the script's own bounds, the best profit found never loses
      the whole starting capital. */
  lemma GwoKeepsCapital(trades: seq<Trade>, agents: nat, maxIter: nat,
                        u: seq<real>, draws: seq<seq<seq<WolfPack.Draws>>>)
    requires |u| == Dim * agents && WolfPack.DrawShape(draws, maxIter, agents, Dim)
    requires maxIter > 0 && agents > 0
    ensures Gwo(trades, agents, maxIter, LB, UB, Dim, u, draws).bestScore.v > -InitialCapital
  {
    var r := Gwo(trades, agents, maxIter, LB, UB, Dim, u, draws);
    BoxedBest(r.bestPos);
    CapitalSurvives(trades, r.bestPos);
  }

  /** With the script's bounds all ordered, a position within every
      ordered bound lies in the box. */
  lemma BoxedBest(p: seq<real>)
    requires |p| == Dim && forall j :: 0 <= j < Dim && LB[j] <= UB[j] ==> LB[j] <= p[j] <= UB[j]
    ensures InBox(p, LB, UB)
  {
    BoundsOrdered();
  }

  /** The script's own call `GWO(60, 1000, LB, UB, 10)`: its curve holds
      one entry per iteration and its best profit keeps the capital. */
  lemma ScriptRun(trades: seq<Trade>, u: seq<real>, draws: seq<seq<seq<WolfPack.Draws>>>)
    requires |u| == Dim * SearchAgents && WolfPack.DrawShape(draws, MaxIter, SearchAgents, Dim)
    ensures var r := Gwo(trades, SearchAgents, MaxIter, LB, UB, Dim, u, draws);
            |r.curve| == MaxIter && r.bestScore.Fin? && r.bestScore.v > -InitialCapital
  {
    GwoKeepsCapital(trades, SearchAgents, MaxIter, u, draws);
  }

  /** How the optimizer reads a stored row: sentiment, entry price, P&L
      percent and news text. */
  function FromRow(row: TradeLog.Row): (t: Trade)
    ensures t.sentiment == row.sentiment && t.marketPnl == Some(row.pnlPercent)
    ensures forall sl: real, tp: real :: Realised(t, sl, tp).Some? <==> row.sentiment == Positive || row.sentiment == Negative
  {
    Trade(row.sentiment, row.entryPrice, Some(row.pnlPercent), row.newsText)
  }

  /** The trade log's success label agrees with the replay: a stored
      POSITIVE or NEGATIVE call is a success exactly when the replay
      realises a gain on it, for any positive take profit and non-negative
      stop loss. */
  lemma SuccessMeansGain(rec: TradeLog.TradeRecord, sl: real, tp: real)
    requires 0.0 < tp && 0.0 <= sl
    requires rec.sentiment == Positive || rec.sentiment == Negative
    ensures var row := TradeLog.SaveTrade(rec);
            var gain := Realised(FromRow(row), sl, tp);
            gain.Some? && (row.success == 1 <==> gain.value > 0.0)
  {
  }
}
