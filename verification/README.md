# Crypto news trading: optimizer and labelling core in Dafny

This project models the deterministic core of a small crypto-trading
research pipeline. The pipeline:

- classifies news items with a language model;
- fetches the price move that followed each item;
- labels and stores each call;
- tunes a ten-gene strategy with a Grey Wolf Optimizer (GWO) that replays
  the stored trades.

Also modelled:

- a minimising GWO benchmark on the Michalewicz test function;
- the report that decodes a 50-gene result into per-coin strategy knobs;
- the placeholder fitness of a genetic-algorithm script.

`report.py:9` says its decode formulas copy `main.py`. `main.py` contains
no such formulas, so no candle backtester is modelled.

The fitness guard `if not TRADE_DATA` tests the raw trade list. An empty
list therefore scores -1000, while a non-empty list whose every trade is
skipped scores 0 (`TradeGwo.AllSkippedScoresZero`).

Modules, one per source file plus shared helpers:

- `TradeGwo` (`gwo_optimization.dfy`): the trade-replay fitness and the
  optimizer run that maximises it.
- `WolfPack` (`wolf_pack.dfy`): the GWO loop that both optimizer scripts
  share, generic in the direction of the search. It covers leader cascade,
  clipping, the control scalar `a`, the position update and the
  convergence curve.
- `Benchmark` (`benchmark_test.dfy`): the minimising twin and the
  Michalewicz function.
- `Report` (`report.dfy`): `decode_params` and the per-coin slicing.
- `TradeLog` (`db_manager.dfy`): the row `save_trade` writes and its
  success label.
- `Sentiment` (`sentiment.dfy`): turning the model's reply into a label.
- `Market` (`market.dfy`): entry, exit and percent change from the fetched
  candles.
- `GaMain` (`gamain.dfy`): the GA fitness and its gene space.
- `Numeric`, `ExtReal`, `Labels`, `Wrappers`: clip, truncation, products,
  reals extended with `-inf` and `+inf`, the three labels, and `Option`.

Randomness is an input:

- The initial population is drawn from a sequence `u` of unit reals. The
  trade optimizer fills it column by column, one `uniform(0, 1, n)` call
  per dimension. The benchmark fills it row by row.
- Each iteration consumes one `Draws` record per agent and dimension. A
  record holds the six `random()` values `r1, r2` for alpha, beta and
  delta.

Other modelling choices:

- The objective is a partial function `seq<real> --> real`.
- Leader scores start at `-inf` or `+inf` and are modelled as `ExtReal.Ext`.
- The Michalewicz function's `sin` and `pi` are parameters.

## Model

| member | source | states |
|---|---|---|
| TradeGwo.BoundsOrdered | gwo_optimization.py:19-20 | the ten lower bounds lie below the ten upper bounds |
| TradeGwo.Cap | gwo_optimization.py:88-93 | above take profit gives take profit; else below `-stop_loss` gives `-stop_loss`; else unchanged; with ordered bounds the result lies in `[-stop_loss, take_profit]` |
| TradeGwo.CapIsClip | gwo_optimization.py:88-110 | with `-stop_loss <= take_profit` the cap equals NumPy's clip into that interval |
| TradeGwo.Realised | gwo_optimization.py:76-113 | a trade realises a P&L exactly when its P&L parses and it is labelled POSITIVE or NEGATIVE; a long is the capped market P&L, a short the capped negated one; a realised P&L stays within the stop loss and take profit |
| TradeGwo.FactorsConcat | gwo_optimization.py:72-118 | the per-trade factors of two trade lists laid end to end are the first list's factors followed by the second's |
| TradeGwo.Fitness | gwo_optimization.py:61-62 | no trades at all gives exactly -1000, whatever the position |
| TradeGwo.ReplayTrades | gwo_optimization.py:56-120 | the trade-by-trade replay loop ends with the reference fitness: 10000 times the product of the per-trade factors `1 + (risk/100)(pnl/100)`, minus 10000 |
| TradeGwo.SettleTrade | gwo_optimization.py:73-113 | the loop's branch on label and P&L computes exactly the realised P&L, or nothing for a skipped trade |
| TradeGwo.ReplayStep | gwo_optimization.py:72-118 | one pass of the loop over trade `k` turns capital `10000 * product of the first k factors` into `10000 * product of the first k+1` |
| TradeGwo.ReplayOne | gwo_optimization.py:84-118 | one pass of the loop multiplies capital by the trade's factor; a skipped trade leaves it unchanged |
| TradeGwo.Compound | gwo_optimization.py:116-118 | staking `risk%` of capital at `pnl%` multiplies capital by `1 + (risk/100)(pnl/100)` |
| TradeGwo.SkippedTradeNeutral | gwo_optimization.py:81-82 | inserting a trade the replay skips anywhere in a non-empty list leaves the fitness unchanged (into the empty list it changes -1000 to 0) |
| TradeGwo.AllSkippedScoresZero | gwo_optimization.py:61-82 | a non-empty list whose every trade is skipped scores exactly 0, while the empty list scores -1000 |
| TradeGwo.FitnessReadsThreeGenes | gwo_optimization.py:64-66 | two positions that agree on genes 2, 3 and 5 have the same fitness |
| TradeGwo.FactorPositive | gwo_optimization.py:116-118 | with risk and stop loss in `[0, 5]` and `-stop_loss <= take_profit`, no trade's factor reaches zero |
| TradeGwo.CapitalSurvives | gwo_optimization.py:116-120 | for any position inside the bounds the fitness is above -10000: capital is never wiped out |
| TradeGwo.InitPositions | gwo_optimization.py:134-136 | agent `i`, dimension `j` gets draw `u[j*n + i]` scaled into `[lb[j], ub[j]]`; unit draws stay within the bounds |
| TradeGwo.Gwo | gwo_optimization.py:122-195 | the curve has `max_iter` entries, never decreases, and ends at the returned alpha score; with no iteration or no agent the score stays `-inf`; after one iteration with any agent the score is finite, the alpha position is inside the bounds and the score is that position's fitness; after one iteration the score is at least the fitness of every initial agent, clipped to the bounds |
| TradeGwo.GwoKeepsCapital | gwo_optimization.py:19-23 | run with the script's bounds, after at least one iteration with at least one agent, the best profit found is above -10000 |
| TradeGwo.ScriptRun | gwo_optimization.py:197-201 | the script's own call with 60 agents, 1000 iterations and ten dimensions returns a 1000-entry curve and a finite best profit above -10000 |
| TradeGwo.FromRow | gwo_optimization.py:38-73 | a stored row is read as its label and its P&L as a number, so the replay skips it exactly when its label is neither POSITIVE nor NEGATIVE |
| TradeGwo.SuccessMeansGain | src/db_manager.py:49-55 | a stored POSITIVE or NEGATIVE row is labelled a success exactly when the optimizer's replay realises a gain on it, for any positive take profit and non-negative stop loss |
| Numeric.Clip | gwo_optimization.py:147 | `np.clip` lands inside ordered bounds and leaves values already inside unchanged |
| Numeric.ClipIdempotent | gwo_optimization.py:147 | clipping twice equals clipping once |
| Numeric.ClipVec | gwo_optimization.py:146-147 | after the clip every component lies in `[LB[j], UB[j]]`; a position inside the box is unchanged |
| Numeric.ClipVecIdempotent | gwo_optimization.py:146-147 | clipping a clipped position changes nothing |
| Numeric.Uniform | gwo_optimization.py:136 | a unit draw scaled by `(ub - lb)` and shifted by `lb` lands in `[lb, ub]` |
| Numeric.Trunc | report.py:14 | Python's `int()` truncates toward zero: non-negative values round down, negative values round up |
| WolfPack.Promote | gwo_optimization.py:153-161 | a fitness beating alpha replaces alpha only, leaving beta and delta unchanged (the old alpha is not demoted); one beating beta but not alpha replaces beta only; one beating delta alone replaces delta only; one beating no leader changes nothing; the cascade keeps alpha no worse than beta and beta no worse than delta, and alpha never gets worse |
| WolfPack.Evaluate | gwo_optimization.py:144-161 | each agent is clipped before scoring; afterwards alpha is no worse than before and no worse than any agent scored; ranking and genuineness of the leaders are preserved |
| WolfPack.Explore | gwo_optimization.py:169 | for `a >= 0` and `r1` in `[0, 1)` the coefficient `A` lies in `[-a, a]` |
| WolfPack.Encircle | gwo_optimization.py:170 | for `r2` in `[0, 1)` the coefficient `C` lies in `[0, 2)` |
| WolfPack.Pull | gwo_optimization.py:171-172 | a leader's pull lands within `a * D` of that leader |
| WolfPack.MoveCoord | gwo_optimization.py:168-186 | three times the new coordinate is the sum of the alpha, beta and delta pulls, each leader weighing equally; the coordinate lies between the smallest and the largest pull |
| WolfPack.MoveAll | gwo_optimization.py:165-186 | the population keeps its shape, and every coordinate of every agent lands between the smallest and largest of its own three pulls, computed from its own draws |
| WolfPack.ControlA | gwo_optimization.py:163 | `a = 2 - 2l/max_iter` lies in `(0, 2]` and equals 2 exactly at the first iteration |
| WolfPack.ControlADecreases | gwo_optimization.py:163 | `a` falls strictly from one iteration to any later one |
| WolfPack.StartHealthy | gwo_optimization.py:125-138 | the freshly initialised pack (zero-position leaders at the worst score, empty curve) meets the loop invariant |
| WolfPack.Step | gwo_optimization.py:143-188 | one iteration keeps the invariant, appends alpha's score to the curve, never worsens alpha, and leaves alpha no worse than every clipped agent; with any agent alpha's score is no longer infinite |
| WolfPack.RunFrom | gwo_optimization.py:143-188 | the remaining iterations keep the invariant, extend the curve by one entry per iteration without changing its recorded prefix, and never worsen alpha; when at least one iteration remains, the final alpha is at least as good as every current agent after clipping; with no agents the leaders stay as they were |
| WolfPack.ImprovingEverywhere | gwo_optimization.py:188 | a curve improving step by step is no worse at any later entry than at any earlier one |
| WolfPack.Optimize | gwo_optimization.py:122-195 | the curve has `max_iter` entries, is monotone in the search direction and ends at the returned score; that score is the starting infinity or the objective value of the returned, clipped position, and it is the starting infinity when there is no iteration or no agent; after one iteration it is at least as good as the objective value of every initial agent, clipped to the bounds |
| Benchmark.MichalewiczAppend | benchmark_test.py:8-15 | the empty position scores 0, and one more coordinate `x` at index `d` subtracts exactly its own term `sin(x) * sin((d+1)x^2/pi)^(2m)`, leaving the earlier terms unchanged |
| Benchmark.MichalewiczBounds | benchmark_test.py:8-15 | for any `sin` with values in `[-1, 1]`, non-negative on `[0, pi]`, the test function lies in `[-d, d]` and is never positive inside `[0, pi]^d` |
| Benchmark.SumTermsBounds | benchmark_test.py:10-14 | the partial sums after `k` terms lie in `[-k, k]` and are non-negative inside the box |
| Benchmark.TermBounds | benchmark_test.py:13 | each term `sin(x) * sin((i+1)x^2/pi)^(2m)` lies in `[-1, 1]` and is non-negative for `x` in `[0, pi]` |
| Benchmark.PowEvenNonneg | benchmark_test.py:13 | the even power `** (2*m)` is never negative |
| Benchmark.InitPositions | benchmark_test.py:34 | agent `i`, dimension `j` gets draw `u[i*dim + j]` scaled into `[0, pi]`, staying inside for unit draws |
| Benchmark.GwoBenchmark | benchmark_test.py:17-89 | leaders start at `+inf`, so with no iteration or no agent the score is `+inf`; the curve has `max_iter` entries, never increases, and ends at the returned score; the score is `+inf` or the objective's value at a point of `[0, pi]^dim`, and finite after one iteration with any agent; after one iteration it is at most the objective value of every initial agent, clipped to `[0, pi]` |
| Benchmark.BenchmarkScoreBounds | benchmark_test.py:43-59 | on Michalewicz with `m = 10`, with `0 < pi` and a sine bounded by 1 and non-negative on `[0, pi]`, after at least one iteration with at least one agent, the returned score lies in `[-dim, 0]` |
| TradeLog.Success | src/db_manager.py:49-55 | the label is 0 or 1, and 1 exactly for POSITIVE with a rise or NEGATIVE with a fall |
| TradeLog.OtherLabelsFail | src/db_manager.py:53-55 | any label but POSITIVE and NEGATIVE, NEUTRAL included, is labelled 0 |
| TradeLog.FlatPriceFails | src/db_manager.py:53-54 | a P&L of zero is labelled 0 whatever the label |
| TradeLog.MirrorSymmetric | src/db_manager.py:53-54 | swapping POSITIVE and NEGATIVE while negating the P&L keeps the label |
| TradeLog.SaveTrade | src/db_manager.py:57-69 | the row copies timestamp, symbol, text, label, prices and P&L verbatim; only the success label is computed |
| Sentiment.StripLeft | src/sentiment.py:43 | the result is a suffix of the input, only whitespace was dropped, and it does not start with whitespace |
| Sentiment.StripRight | src/sentiment.py:43 | the result is a prefix of the input, only whitespace was dropped, and it does not end with whitespace |
| Sentiment.Strip | src/sentiment.py:43 | the result is a contiguous middle of the input with only whitespace cut from both ends, and has no whitespace at either end; a string with no whitespace at its ends is unchanged |
| Sentiment.Upper | src/sentiment.py:43 | `.upper()` on ASCII: the length is kept, no lower-case ASCII letter remains, each one becomes its upper-case letter, and every other character is kept |
| Sentiment.Classify | src/sentiment.py:46-54 | on a stripped, upper-cased reply: always one of the three labels; a reply that is a label is returned unchanged; otherwise POSITIVE exactly when the reply contains POSITIVE, NEGATIVE exactly when it contains NEGATIVE but not POSITIVE, else NEUTRAL |
| Sentiment.ContainsAt | src/sentiment.py:50 | substring test `t in s` holds exactly when `t` occurs at some offset of `s` |
| Sentiment.FirstContained | src/sentiment.py:49-51 | the scan returns a label the reply contains with no earlier label contained; nothing exactly when the reply contains no label |
| Sentiment.Fallback | src/sentiment.py:49-52 | POSITIVE if contained; else NEGATIVE if contained; otherwise NEUTRAL |
| Sentiment.Normalise | src/sentiment.py:38-59 | the result is always one of the three labels; a failed call gives NEUTRAL; a reply that tidies to a label gives that label; otherwise POSITIVE exactly when the tidied reply contains POSITIVE, NEGATIVE exactly when it contains NEGATIVE but not POSITIVE |
| Sentiment.LabelsDistinct | src/sentiment.py:46 | no label occurs inside another |
| Sentiment.ExactMatchSubsumed | src/sentiment.py:47-54 | the exact-match test never changes the answer: the substring scan alone gives the same label on every reply |
| Sentiment.LabelTidy | src/sentiment.py:43-46 | stripping and upper-casing leaves each label unchanged |
| Sentiment.NormaliseIdempotent | src/sentiment.py:43-54 | classifying a returned label again returns the same label |
| Market.PriceMovement | src/market.py:48-75 | a result exists exactly when there are two candles, each with an open price, and the entry is non-zero; entry is candle 0's open, exit candle 1's open; the percent change reconstructs the exit as `entry * (1 + pnl/100)` |
| Market.PnlSign | src/market.py:65 | for a positive entry the percent change is positive, zero or negative exactly when the price rose, stayed or fell |
| Market.LaterCandlesIgnored | src/market.py:57-62 | only the first two candles matter |
| Market.Record | main.py:48-65 | a record is stored exactly when the label is not NEUTRAL and the price move exists; it carries the item's timestamp, symbol, text and label, candle 0's and candle 1's opens, and a P&L that reconstructs the exit price |
| Market.StoredSuccessFollowsPrice | main.py:53-65 | a stored record with a positive entry is a success exactly when the price rose after POSITIVE or fell after NEGATIVE |
| Report.LevelRange | report.py:14-21 | `int(g*span) + base` lies in `[base, base + span]` for a gene in `[0, 1]` |
| Report.LevelMonotone | report.py:14-28 | `int(g*span) + base` never decreases as the gene grows |
| Report.PercentRange | report.py:24-29 | `(g*scale + floor)*100` lies in `[100 floor, 100 (scale + floor)]` for a gene in `[0, 1]` |
| Report.Decode | report.py:6-31 | fails exactly when fewer than ten genes are given; for genes in `[0, 1]` RSI period is in `[4, 20]`, buy in `[20, 50]`, sell in `[60, 90]`, MACD fast in `[8, 18]`, slow in `[19, 34]`, signal in `[5, 13]`, stop loss % in `[1, 16]`, take profit % in `[2, 32]`, SMA in `[20, 170]`, budget % in `[10, 100]`; fast < slow and buy < sell |
| Report.DecodeMonotone | report.py:14-29 | raising genes never lowers any knob |
| Report.DecodeLocal | report.py:14-29 | each knob depends only on its own gene |
| Report.PySlice | report.py:55 | a slice within the list is the plain subsequence, and no slice is longer than asked for |
| Report.CoinGenes | report.py:51-55 | coin `i`'s slice holds ten genes exactly when the vector reaches index `10i + 9`, and is then `best[10i .. 10i+10)` |
| Report.ReportFrom | report.py:50-58 | the remaining coins decode exactly when the vector holds 50 genes; each report carries its coin's symbol and the decode of its own slice |
| Report.GenerateReport | report.py:50-58 | one report per coin in order, coin `i` decoded from `best[10i .. 10i+10)`; failure exactly when there are fewer than 50 genes |
| Report.SlicesPartition | report.py:50-55 | the coin slices laid end to end are exactly the first `10n` genes: contiguous, disjoint and covering |
| GaMain.Score | src/gamain.py:35-46 | inside the gene space the score lies in `[27, 126.5]` |
| GaMain.ScoreExtremes | src/gamain.py:64-75 | both bounds are reached at corners of the gene space |
| GaMain.ScoreReadsThreeGenes | src/gamain.py:35-37 | genes 1 and 4 to 9 have no effect on the score |
| GaMain.ScoreOrder | src/gamain.py:46 | the score rises with the buy threshold and take profit and falls with the stop loss, strictly when they change strictly |

## Left out

- Database access. The import-time load of the trade list, the `DBManager`
  connection, table and query methods, and the root `db_manager.py`
  wrappers are not modelled. The trade list is an input.
- Parsing of the stored P&L (the `'%'` stripping and `float()`). A P&L
  that does not parse is `None` in `TradeGwo.Trade`.
- The network clients (Binance and Gemini). The candle list and the model's
  reply are inputs. A raised Gemini call is `None`; a raised Binance call
  ends in the same `None` as an empty candle list.
- Date parsing and millisecond conversion in the market client.
- `Market.PriceMovement`: the candle fields are already numbers. A field
  that `float()` cannot read, which the script also turns into None, is not
  modelled.
- Random number generation. All draws are explicit inputs, in the scripts'
  drawing order.
- Transcendental functions. The Michalewicz `sin` and `pi` are parameters,
  and the benchmark's optimizer takes any objective.
- Floating point. All arithmetic is on exact reals: rounding, NaN and
  overflow are not modelled.
- `Report.Decode`: the stop loss, take profit and budget percentages are
  the exact values before the script's `round(..., 2)`.
- `Report.GenerateReport`: a vector shorter than 50 genes gives None. The
  script prints the coins before the failing one and then raises. Printed
  output is not modelled.
- Reading `best_results.json`, which is file I/O.
- `Sentiment.Upper`: only ASCII letters are upper-cased. Python's full
  Unicode `upper()` also maps, for example, `'ı'` to `'I'` and `'ŉ'` to
  `'ʼN'`, which can turn a reply into one containing a label.
- The prompt text sent to the language model.
- The pygad GA run in `src/gamain.py`, which belongs to a third-party
  library.
- Orchestration scripts with sleeps and prints: `main.py`,
  `manual_fill.py`, `add.py`, `generate_dataset.py`. The only part modelled
  is the store step of `main.py`: skip NEUTRAL calls, fetch the price move
  and build the record (`Market.Record`).
- Plots, timing and console output.
