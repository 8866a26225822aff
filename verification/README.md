# MACD + EMA + Bollinger Bands trading core, modelled in Dafny

This project models the decision-making core of an asynchronous crypto-futures
trading bot for the BingX exchange. The modelled parts are:

- **The indicator pipeline** (`Indicators`): EMA, SMA, MACD, Bollinger bands
  and width, ATR, volume average, and the per-bar checks built on them.
- **The Quasimodo and swing pattern detectors** (`Patterns`). They are built on
  scipy's `argrelextrema`, which is modelled in clip mode.
- **The strategy vocabulary** (`StrategyBase`) and **the MACD/EMA/BB strategy**
  (`MacdEmaBb`). The strategy is a class whose fields remember the last
  Quasimodo levels.
- **The bar-by-bar backtest engine** (`Engine`): positions, trailing stop,
  exits, equity compounding, and statistics with maximum drawdown.
- **The grid-search optimizer** (`Optimizer`): the itertools-ordered product of
  parameter lists, the parameter-to-config mapping, the penalised score, and
  the first-best search with its failure paths.
- **The pure helpers of the exchange client** (`Bingx`): symbol conversion, the
  sorted query string, order sides, and position size.
- **The live trader's signal-timing rule** (`Trader`).

Python's NaN is modelled as `None` in `Option<real>` (module `Floats`). Every
comparison involving NaN is false, and arithmetic propagates it. Exceptions the
source catches become `Result.Failure`.

## Model

| member | source | states |
|---|---|---|
| Indicators.Alpha | src/core/indicators.py:24 | the smoothing factor of `ewm(span=period)` lies in (0, 1] |
| Indicators.Ema | src/core/indicators.py:10-24 | same length; the first value is the first input; each later value is `alpha*x + (1-alpha)*previous` (adjust=False) |
| Indicators.EmaWithinRange | src/core/indicators.py:24 | every EMA value stays within any bounds that hold all inputs |
| Indicators.EmaOfConstant | src/core/indicators.py:24 | the EMA of a constant series is that constant |
| Indicators.EmaCausal | src/core/indicators.py:24 | the EMA at bar i depends only on inputs up to i |
| Indicators.RollingMean | src/core/indicators.py:41 | entry i is the mean of the window ending at i; undefined while the window is short or holds NaN (min_periods = window) |
| Indicators.Sma | src/core/indicators.py:27-41 | same length as the input |
| Indicators.SmaWindowMean | src/core/indicators.py:41 | undefined exactly for the first period-1 bars; otherwise the window sum divided by period |
| Indicators.RollingMeanBounded | src/core/indicators.py:41 | a defined rolling mean lies within any bounds of its inputs |
| Indicators.TrueRange | src/core/indicators.py:135-141 | per bar: the maximum of high-low and the two gaps to the previous close |
| Indicators.TrueRangeBounds | src/core/indicators.py:135-141 | undefined only at bar 0 (no previous close); otherwise at least high-low and non-negative |
| Indicators.Atr | src/core/indicators.py:117-144 | same length as the closes |
| Indicators.AtrDefinedFrom | src/core/indicators.py:142 | ATR is defined exactly from bar `period` on, and is non-negative there |
| Indicators.Macd | src/core/indicators.py:44-69 | MACD = fast EMA minus slow EMA; signal = EMA of MACD; histogram = MACD minus signal |
| Indicators.MacdOfConstant | src/core/indicators.py:62-67 | a flat close series gives zero MACD, signal and histogram |
| Indicators.BollingerBands | src/core/indicators.py:72-94 | middle = SMA; the upper and lower bands are symmetric about it; each band is defined iff the middle band and std are |
| Indicators.BandsOrdered | src/core/indicators.py:88-92 | with k ≥ 0 and std ≥ 0, lower ≤ middle ≤ upper, each k·std from the middle |
| Indicators.BollingerWidth | src/core/indicators.py:97-114 | per bar: (upper - lower) / middle × 100; undefined if any input is NaN or middle is 0 |
| Indicators.WidthOfBands | src/core/indicators.py:114 | on real bands with a positive middle, the width is 2·k·std/middle × 100 ≥ 0 |
| Indicators.CalculateIndicators | src/core/indicators.py:192-248 | keeps the bars unchanged; all columns have the bars' length; the EMA column is the EMA of the closes; the histogram is MACD - signal; ATR and volume average are defined from their periods on |
| Indicators.MacdCrossUp | src/core/indicators.py:251-255 | holds iff idx ≥ 1 and MACD - signal goes from ≤ 0 at idx-1 to > 0 at idx |
| Indicators.MacdCrossDown | src/core/indicators.py:258-262 | holds iff idx ≥ 1 and MACD - signal goes from ≥ 0 at idx-1 to < 0 at idx |
| Indicators.PriceAboveEma | src/core/indicators.py:265-267 | a close equal to the EMA is not above it |
| Indicators.PriceBelowEma | src/core/indicators.py:270-272 | a close equal to the EMA is not below it |
| Indicators.VolumeFilter | src/core/indicators.py:275-282 | false on a NaN average; otherwise holds iff volume > average × multiplier |
| Indicators.NoSqueeze | src/core/indicators.py:285-287 | false on a NaN width; otherwise holds iff the width ≥ threshold |
| Indicators.CrossesExclusive | src/core/indicators.py:251-262 | a bar is never both a cross up and a cross down; bar 0 is neither |
| Indicators.CrossUpIsHistogramTurningPositive | src/core/indicators.py:251-262 | a MACD cross up (down) is exactly the histogram turning from ≤ 0 to > 0 (from ≥ 0 to < 0) |
| Indicators.AboveBelowExclusive | src/core/indicators.py:265-272 | price is never both above and below the EMA; at equality it is neither |
| StrategyBase.IndicatorParamsOf | src/strategies/base.py:44-77 | carries the eight indicator periods and multipliers of a config unchanged |
| StrategyBase.DefaultConfigIsValid | src/strategies/base.py:44-77 | the default config has all periods ≥ 1 and agrees with `calculate_indicators`' defaults |
| StrategyBase.Signal.RrRatio | src/strategies/base.py:21-40 | 0 for zero risk; otherwise ratio × risk = reward |
| StrategyBase.CheckFilters | src/strategies/base.py:142-164 | NaN averages and widths never block; passing implies a width at or above the threshold (or NaN) and, with the volume filter on and a defined average, volume above average × multiplier |
| StrategyBase.FiltersAgreeWithChecks | src/strategies/base.py:142-164 | with defined inputs, the filters pass iff the volume filter (when enabled) and the no-squeeze check both pass; NaN width fails no-squeeze but passes the inline filter |
| MacdEmaBb.LongCheck | src/strategies/macd_ema_bb.py:45-75 | fires iff MACD crosses up, price is above the EMA, and (with QML on) a bull QML is detected; only then is the bull level remembered |
| MacdEmaBb.ShortCheck | src/strategies/macd_ema_bb.py:77-107 | mirror image for shorts, remembering the bear level |
| MacdEmaBb.EntriesExclusive | src/strategies/macd_ema_bb.py:45-107 | the long and short checks never both fire on one bar |
| MacdEmaBb.LongCheckAnchored | src/strategies/macd_ema_bb.py:65-73 | a remembered bull level is the low of a bar at or before the current one |
| MacdEmaBb.ShortCheckAnchored | src/strategies/macd_ema_bb.py:97-105 | a remembered bear level is the high of a bar at or before the current one |
| MacdEmaBb.SlTp | src/strategies/macd_ema_bb.py:109-161 | reward = risk × rr_ratio; the risk is ATR × mult, or the distance to the remembered QML level plus ATR × mult; levels are defined iff ATR is |
| MacdEmaBb.AtrStopBracketsEntry | src/strategies/macd_ema_bb.py:136-159 | with an ATR stop and non-negative inputs: long stop ≤ entry ≤ target, short target ≤ entry ≤ stop |
| MacdEmaBb.SignalRrIsConfigured | src/strategies/macd_ema_bb.py:147-159 | a signal with non-zero risk has exactly the configured reward/risk ratio |
| MacdEmaBb.CheckExit | src/strategies/macd_ema_bb.py:163-230 | priority stop > target > MACD reversal > band touch; each exit price is the level that triggered it; hold iff none fires |
| MacdEmaBb.ExitLevelWasReached | src/strategies/macd_ema_bb.py:196-228 | a stop, target or band exit price lies inside the bar's high-low range on the side that triggered it |
| MacdEmaBb.StopWinsOverTarget | src/strategies/macd_ema_bb.py:196-203 | when both stop and target are touched, the exit is at the stop |
| MacdEmaBb.UpdateTrailingStop | src/strategies/macd_ema_bb.py:232-286 | 1:1 is reached iff it already was or price touches entry ± the current risk (high ≥ entry + risk for longs, low ≤ entry - risk for shorts); the stop only tightens, to the BB middle once 1:1 is reached |
| MacdEmaBb.GenerateSignalSpec | src/strategies/base.py:166-210 | no signal unless filters pass; long iff filters and the long check; short iff filters and the short check; entry at the close, with stop and target equal to SlTp of the updated memory and ATR at this bar; the memory is unchanged if filters fail, else the long check's memory if it fires, else the short check's |
| MacdEmaBb.GenerateSignalAnchored | src/strategies/base.py:166-210 | signal generation keeps every remembered QML level anchored to a past bar |
| MacdEmaBb.MacdEmaBbStrategy.constructor | src/strategies/macd_ema_bb.py:40-43 | stores the config; both remembered QML levels start as None |
| MacdEmaBb.MacdEmaBbStrategy.CheckLongSignal | src/strategies/macd_ema_bb.py:45-75 | returns LongCheck's verdict and updates the fields to its memory |
| MacdEmaBb.MacdEmaBbStrategy.CheckShortSignal | src/strategies/macd_ema_bb.py:77-107 | returns ShortCheck's verdict and updates the fields to its memory |
| MacdEmaBb.MacdEmaBbStrategy.CalculateSlTp | src/strategies/macd_ema_bb.py:109-161 | returns SlTp for the current memory |
| MacdEmaBb.MacdEmaBbStrategy.GenerateSignal | src/strategies/base.py:166-210 | returns GenerateSignalSpec's signal and leaves the fields at its memory |
| Engine.PnlSign | src/backtest/engine.py:149-152 | a trade's return is positive iff the exit is on the winning side, and zero iff exit = entry |
| Engine.PnlPct | src/backtest/engine.py:148-151 | return × entry = (exit - entry) × 100 for longs, (entry - exit) × 100 for shorts |
| Engine.Enter | src/backtest/engine.py:107-120 | leaves trades and equity unchanged; the memory is GenerateSignalSpec's; a position is opened iff a signal is generated, at this bar's close with the signal's side, stop and target and 1:1 not reached |
| Engine.Trail | src/backtest/engine.py:127-136 | with trailing on, the stop and 1:1 flag are UpdateTrailingStop's for the position; everything else is kept; with trailing off the position is unchanged |
| Engine.Manage | src/backtest/engine.py:122-172 | CheckExit runs on the trailed position; it stays open with the book unchanged iff CheckExit holds; otherwise exactly one trade is appended (this bar, the exit's price and reason, the position's entry) with equity compounded by its return |
| Engine.Step | src/backtest/engine.py:106-172 | positions are always entered at a close; the equity curve keeps starting at 1.0 |
| Engine.Simulate | src/backtest/engine.py:99-172 | the loop over bars `max_lookback .. len-1` as a left fold of Step |
| Engine.EquityIsGrowth | src/backtest/engine.py:166-168 | each equity point is the product of (1 + pnl/100) over the trades before it |
| Engine.SimulationInvariant | src/backtest/engine.py:99-172 | after the loop: equity compounds every trade; each trade enters at a close at or after lookback and exits later; trades do not overlap each other or the open position |
| Engine.StepTightensStop | src/backtest/engine.py:127-136 | while a position stays open its entry, side and target are kept, 1:1 stays reached, and its stop never loosens |
| Engine.NoCrossNoTrades | src/backtest/engine.py:106-120 | if MACD never leaves the signal line, no trade is ever made and the strategy memory is untouched |
| Engine.ConstantMarketNoTrades | src/backtest/engine.py:216-253 | a flat market produces no trades |
| Engine.CountWins | src/backtest/engine.py:196 | at most the number of trades; equal iff every trade has a positive return |
| Engine.RunningMax | src/backtest/engine.py:201 | bounds every equity point up to i |
| Engine.RunningMaxAttained | src/backtest/engine.py:201 | the running maximum is attained by some earlier equity point |
| Engine.MaxDrawdownUpTo | src/backtest/engine.py:202-203 | bounds every drawdown up to k |
| Engine.MaxDrawdownAttained | src/backtest/engine.py:202-203 | the maximum drawdown is attained at some bar |
| Engine.DrawdownBounds | src/backtest/engine.py:202 | a drawdown is ≥ 0, below 100 for positive equity, and 0 at a new high |
| Engine.WinRate | src/backtest/engine.py:196 | win rate × n = wins × 100; within [0, 100]; 100 iff every trade wins |
| Engine.Mean | src/backtest/engine.py:197 | mean × n = total |
| Engine.CalculateStats | src/backtest/engine.py:177-213 | no trades give the zero result with curve [1.0]; otherwise total = the sum of returns, avg = Mean(total, n), win rate = WinRate(wins, n) in [0, 100] and 100 iff all win, max drawdown = MaxDrawdownUpTo over the whole curve, bounding every drawdown |
| Engine.RisingEquityNoDrawdown | src/backtest/engine.py:199-203 | a never-falling equity curve has zero maximum drawdown |
| Engine.PositiveEquityBoundsDrawdown | src/backtest/engine.py:199-203 | with positive equity, the maximum drawdown is below 100 |
| Engine.BacktestEngine.constructor | src/backtest/engine.py:69-82 | stores the strategy and the trailing flag |
| Engine.BacktestEngine.OpenPosition | src/backtest/engine.py:107-120 | computes Enter on the strategy's current memory |
| Engine.BacktestEngine.ManagePosition | src/backtest/engine.py:122-172 | computes Manage |
| Engine.BacktestEngine.Run | src/backtest/engine.py:84-175 | the loop computes CalculateStats of Simulate and leaves the strategy memory where Simulate ends |
| Engine.RunBacktest | src/backtest/engine.py:216-253 | indicators from the config (default if none), a fresh strategy, and Run with lookback 100 |
| Patterns.ClipModeIsStrictLocal | src/core/patterns.py:38 | `argrelextrema` with clip mode marks exactly the interior points strictly beating every other point within `order` |
| Patterns.EndsAreNeverExtrema | src/core/patterns.py:38 | the first and last point are never extrema |
| Patterns.TiedNeighbourIsNoExtremum | src/core/patterns.py:38 | a point tied with a neighbour within `order` is no extremum |
| Patterns.ArgRelExtrema | src/core/patterns.py:38 | strictly increasing indices; exactly the strict local extrema |
| Patterns.ArgRelExtremaSuffix | src/core/patterns.py:43-46 | the last s entries of the extrema list are exactly the last s extrema of the prices |
| Patterns.Prefix | src/core/patterns.py:35 | `prices[:idx + 1]`, clamped to the length |
| Patterns.QmlDetectedIsTriple | src/core/patterns.py:12-57 | a detection comes from the last three extrema of the prefix forming a sweep pattern, and returns the middle one's price |
| Patterns.QmlTripleIsDetected | src/core/patterns.py:12-57 | any last-three sweep triple within recency is detected, at its middle price |
| Patterns.QmlCharacterization | src/core/patterns.py:12-105 | detection returns v iff some last-three sweep triple has middle price v |
| Patterns.QmlBullSweepsBelow | src/core/patterns.py:12-57 | a bull QML level is a low below both neighbouring minima |
| Patterns.QmlBearSweepsAbove | src/core/patterns.py:60-105 | a bear QML level is a high above both neighbouring maxima |
| Patterns.QmlNeedsThreeExtrema | src/core/patterns.py:40-41 | fewer than three extrema give no detection |
| Patterns.QmlIgnoresFuture | src/core/patterns.py:35 | detection at idx depends only on prices up to idx |
| Patterns.DetectQmlBull | src/core/patterns.py:12-57 | a detected level is the middle low of a last-three sweep triple within recency, below both neighbouring minima |
| Patterns.DetectQmlBear | src/core/patterns.py:60-105 | a detected level is the middle high of a last-three sweep triple within recency, above both neighbouring maxima |
| Patterns.Tail | src/core/patterns.py:127 | `tail(lookback)` keeps min(lookback, len) points, the last ones of the input in order |
| Patterns.SwingCharacterization | src/core/patterns.py:108-161 | a swing is found iff the frame is long enough and the window has a last extremum, whose price it returns |
| Patterns.FindSwingHigh | src/core/patterns.py:108-133 | none when the frame is shorter than lookback; a found swing is the price of the last maximum in the window |
| Patterns.FindSwingLow | src/core/patterns.py:136-161 | none when the frame is shorter than lookback; a found swing is the price of the last minimum in the window |
| Patterns.TrendHoldsOnLastPair | src/core/patterns.py:164-261 | a trend test that holds is witnessed by the window's last two extrema |
| Patterns.LastPairMakesTrend | src/core/patterns.py:164-261 | a last pair of extrema in the right order makes the trend test hold |
| Patterns.TrendCharacterization | src/core/patterns.py:164-261 | HH/LL/HL/LH hold iff the last two extrema compare the right way |
| Patterns.DetectHigherHigh | src/core/patterns.py:164-186 | holds iff the window's last two maxima exist and the later is higher |
| Patterns.DetectLowerLow | src/core/patterns.py:189-211 | holds iff the window's last two minima exist and the later is lower |
| Patterns.DetectHigherLow | src/core/patterns.py:214-236 | holds iff the window's last two minima exist and the later is higher |
| Patterns.DetectLowerHigh | src/core/patterns.py:239-261 | holds iff the window's last two maxima exist and the later is lower |
| Optimizer.GridKeys | src/backtest/optimizer.py:116 | the grid's keys in order |
| Optimizer.GridValues | src/backtest/optimizer.py:117 | the grid's value lists in order |
| Optimizer.ProductLength | src/backtest/optimizer.py:117 | the product has the product of the list lengths as its size |
| Optimizer.ProductAt | src/backtest/optimizer.py:117 | combination p picks, from each list, the digit of p in the mixed radix of the later lists' sizes (itertools order) |
| Optimizer.RankUnrank | src/backtest/optimizer.py:117 | rank ∘ unrank is the identity on positions |
| Optimizer.UnrankRank | src/backtest/optimizer.py:117 | unrank ∘ rank is the identity on digit vectors |
| Optimizer.ProductEnumeratesOnce | src/backtest/optimizer.py:117 | every pick of one value per list appears in the product, at exactly one position |
| Optimizer.ProductMembers | src/backtest/optimizer.py:117 | every combination takes its k-th value from the k-th list |
| Optimizer.ZipPrefixEntries | src/backtest/optimizer.py:128 | `dict(zip(keys, combo))`: the keys of the shorter prefix; a repeated key keeps its last value |
| Optimizer.ParamsToConfig | src/backtest/optimizer.py:73-86 | defined iff the ten keys are of the right type; each comes from the combination or its default; every other field is the default |
| Optimizer.EmptyParamsAreDefault | src/backtest/optimizer.py:73-86 | an empty combination gives the default config |
| Optimizer.SearchIndicatorParams | src/backtest/optimizer.py:139-146 | MACD 12/26/9 and BB period 20 (the defaults); EMA period, BB std, ATR and volume periods equal the config's |
| Optimizer.SearchIndicatorParamsAgree | src/backtest/optimizer.py:139-146 | for any config the search builds, this equals the config's own indicator parameters |
| Optimizer.CalculateScore | src/backtest/optimizer.py:88-97 | defined iff the metric is known; never above the metric; equal to it iff min_trades is met; otherwise metric - 1000 |
| Optimizer.PenaltyRanksBelow | src/backtest/optimizer.py:94-95 | a penalised run ranks below an unpenalised one whose metric is less than 1000 lower |
| Optimizer.EntryOf | src/backtest/optimizer.py:157-161 | the stored row carries the params, score, and the result's total return, win rate, trade count, mean return and max drawdown |
| Optimizer.EntriesOf | src/backtest/optimizer.py:157-161 | one row per completed combination, in order |
| Optimizer.Prepare | src/backtest/optimizer.py:133-146 | a failed fetch fails with its error, an untyped combination fails; on success: the config is the combination's config, the bars are well formed, and the frame is CalculateIndicators of the fetched bars with the search's indicator parameters; no close is zero |
| Optimizer.Evaluate | src/backtest/optimizer.py:133-154 | a failed preparation fails with its error; otherwise success iff the score is defined, and then the result is CalculateStats of Simulate (trailing on, lookback 100) on the prepared frame, with that frame |
| Optimizer.Attempts | src/backtest/optimizer.py:127-154 | one attempt per combination |
| Optimizer.Completed | src/backtest/optimizer.py:177-179 | failed combinations are skipped; empty iff every attempt failed |
| Optimizer.BestIndex | src/backtest/optimizer.py:171-175 | an index into the completed trials |
| Optimizer.BestIsFirstMaximum | src/backtest/optimizer.py:119-175 | the best exists iff something completed; it is the first trial with the maximum score, and the only such index |
| Optimizer.SearchResultIsFirstBest | src/backtest/optimizer.py:181-197 | fails iff every combination failed; otherwise all rows in order and the params/result of the first maximum |
| Optimizer.SingleAttempt | src/backtest/optimizer.py:181-197 | with one combination, the search succeeds iff it did, with that trial as best |
| Optimizer.Consider | src/backtest/optimizer.py:156-179 | one loop iteration keeps the rows and the strict-`>` best in step with the attempts so far |
| Optimizer.DefaultGridSize | src/backtest/optimizer.py:38-50 | the default grid has 2916 combinations |
| Optimizer.GridSearchOptimizer.constructor | src/backtest/optimizer.py:52-71 | a missing or empty grid is replaced by the default grid |
| Optimizer.GridSearchOptimizer.TryParams | src/backtest/optimizer.py:133-154 | computes Evaluate, via a fresh strategy and engine |
| Optimizer.GridSearchOptimizer.Run | src/backtest/optimizer.py:99-197 | computes the search result over all combinations in itertools order |
| Optimizer.QuickGridCombination | src/backtest/optimizer.py:216-228 | the quick grid has exactly one combination |
| Optimizer.QuickOptimize | src/backtest/optimizer.py:200-235 | succeeds iff that single combination does; its params are the best params and its row the only row |
| Bingx.ToBingxSymbol | src/core/bingx_client.py:51-58 | a dashed symbol is kept; a dash-free `…USDT` becomes `…-USDT`; anything else is kept |
| Bingx.ToBingxSymbolIdempotent | src/core/bingx_client.py:51-58 | converting twice is converting once |
| Bingx.ToBingxSymbolKeepsLetters | src/core/bingx_client.py:56-57 | removing the dash from the result gives back a dash-free input |
| Bingx.PositionsSymbol | src/core/bingx_client.py:246-249 | the result always holds a dash; a dashed symbol is kept; otherwise a dash is inserted before the last four characters (at the front if there are fewer), every other character kept in place |
| Bingx.PositionsSymbolAgrees | src/core/bingx_client.py:248-249 | for dash-free USDT symbols this agrees with the symbol conversion |
| Bingx.Present | src/core/bingx_client.py:81 | exactly the pairs whose value is not None |
| Bingx.SortByKeySorted | src/core/bingx_client.py:82 | sorting distinct keys gives strictly increasing keys and a permutation of the input |
| Bingx.SplitJoin | src/core/bingx_client.py:83 | splitting a `&`-join of `&`-free parts gives the parts back |
| Bingx.BuildParams | src/core/bingx_client.py:79-87 | the query always ends with `timestamp=<ms>` |
| Bingx.BuildParamsShape | src/core/bingx_client.py:83-87 | the query is the `&`-join of the sorted pieces followed by the timestamp piece; with nothing present it is `timestamp=<ms>` alone |
| Bingx.BuildParamsSplits | src/core/bingx_client.py:79-87 | splitting the query at `&` gives the pieces and then the timestamp piece |
| Bingx.PiecesSorted | src/core/bingx_client.py:81-83 | one `k=v` piece per present parameter, in strictly increasing key order |
| Bingx.OpenSides | src/core/bingx_client.py:314-315 | BUY with LONG iff the side lower-cases to `long`, else SELL with SHORT |
| Bingx.CloseSides | src/core/bingx_client.py:367-368 | SELL with LONG iff the side lower-cases to `long`, else BUY with SHORT |
| Bingx.CloseOpposesOpen | src/core/bingx_client.py:349-415 | stop and take-profit orders keep the position side and use the opposite order side |
| Bingx.SideSpellings | src/core/bingx_client.py:314 | `long` in any case opens long; `short`, `buy` or empty open short |
| Bingx.QtyPrecision | src/core/bingx_client.py:532-540 | the quantity decimals are at most 3 |
| Bingx.QtyPrecisionTiers | src/core/bingx_client.py:533-540 | price decimals d give 3 - d quantity decimals below 3, and 0 from 3 on |
| Bingx.QtyPrecisionMonotone | src/core/bingx_client.py:533-540 | more price decimals never give more quantity decimals |
| Bingx.RoundUnits | src/core/bingx_client.py:542 | the integer nearest x·10^n, ties to even |
| Bingx.Round | src/core/bingx_client.py:542 | a whole number of 10^-n units within half a unit of x |
| Bingx.CalculateQuantity | src/core/bingx_client.py:504-542 | 0 when entry = stop; otherwise the amount whose loss from entry to stop is balance × risk_percent, rounded to the precision tier |
| Bingx.QuantityNearExact | src/core/bingx_client.py:529-542 | the size is within half a unit of its last decimal of the exact risk amount |
| Trader.CandleMinutes | src/bot/trader.py:146-159 | 240, 15 or 5 minutes for `4h`, `15m` and `5m`; 60 for every other interval |
| Trader.ShouldCheckSignal | src/bot/trader.py:144-159 | never from second 30 on; always in the first 30 seconds of an hour, except 4h off the fourth hours |
| Trader.FourHourCandle | src/bot/trader.py:150-151 | a four-hour candle closes (minute of the day a multiple of 240) iff the hour is a multiple of four and the minute is zero |
| Trader.WithinHourCandle | src/bot/trader.py:152-155 | for 5-, 15- and 60-minute candles the minute of the day has the same remainder as the minute of the hour |
| Trader.ChecksAtCandleClose | src/bot/trader.py:144-159 | the window is open iff the minute of the day is a multiple of the candle length and second < 30 |
| Trader.OnlyEarlyInTheMinute | src/bot/trader.py:148-159 | nothing is checked from second 30 on |
| Trader.FourHourImpliesHourly | src/bot/trader.py:148-151 | every 4h check time is a 1h check time |
| Trader.FifteenImpliesFive | src/bot/trader.py:152-155 | every 15m check time is a 5m check time |
| Trader.UnknownIsHourly | src/bot/trader.py:157-159 | an unknown interval is checked like `1h` |

## Left out

- Floating point: prices and returns are exact reals. IEEE rounding, infinities and overflow are not modelled. A zero middle band gives an undefined width instead of infinity.
- The rolling standard deviation (`rolling(period).std()`) needs a square root. It is an input series to `Indicators.BollingerBands` and, in the optimizer, a parameter of `Optimizer.DataSource`.
- Engine.Simulate: the engine requires every close to be non-zero, because returns divide by the entry close.
- Optimizer.Prepare: a combination with a zero close fails instead of producing an infinite return.
- Optimizer.ParamsToConfig: a value of the wrong type makes the combination fail. Python would store it in the dataclass and fail later, or coerce it.
- Indicators.ValidParams: every period must be at least one. pandas raises for an EMA span below one (the EMA and MACD periods) and for a negative rolling window, and the optimizer's `except` skips that combination. A rolling window of zero (BB, ATR or volume period 0) is accepted by pandas and gives an all-NaN column; the model does not accept it.
- Optimizer.Prepare: a combination whose BB, ATR or volume period is 0 fails here, while in Python its backtest runs on all-NaN columns.
- Optimizer.Prepare: a combination with `use_qml` on and `qml_order` ≤ 0 fails up front. In Python, `argrelextrema` raises only when `detect_qml_*` is called, which happens only on a bar with a MACD cross and the price on the right side of the EMA, so such a backtest may still complete.
- Patterns.Tail: `lookback` is a natural number. `tail(-n)` with a negative count (every row but the first n) is not modelled.
- Optimizer.MetricValue: the metric names `trades` and `equity_curve` (non-numeric attributes) are treated as unknown metrics, so the combination fails.
- Optimizer.DataSource: the data fetch is a deterministic function of (symbol, interval, bars), modelled as a parameter. Network access is not modelled.
- Logging (`verbose`), `df.copy()`, and the DataFrame index are not modelled. `best_df` is the best trial's frame value.
- `calculate_rsi` is not used by the strategy and is not modelled. Plotting (`plots.py`) is not modelled either.
- The BingX client's HTTP session, requests, HMAC signing, server time and clock offset are not modelled; the timestamp is a parameter of `Bingx.BuildParams`.
- Bingx.BuildParams: parameter values are taken as their already-rendered `str()` text. Python's formatting of ints, floats and bools is not modelled.
- Bingx.Lower: `str.lower` is modelled on ASCII letters only.
- `count_decimal_places` depends on Python's `repr` of a float. The price's decimal count is an input to `Bingx.CalculateQuantity`.
- Bingx.Round: rounding is on the exact real value, with ties to even. Python rounds the binary double, so a decimal tie there can round either way.
- The live trader is not modelled: its async main loop, leverage setting and order placement. Only `_should_check_signal` is modelled, with the clock reading as parameters.
- `BacktestResult.to_dict`, `__str__`, and the `main.py`/`backtest.py` command-line scripts are not modelled.
