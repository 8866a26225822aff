/**
 * The backtesting engine of `src/backtest/engine.py`.
 *
 * `Simulate` replays the engine's bar loop as a left fold of `Step` over the
 * bars; `BacktestEngine.Run` is the loop itself, proved to end in the state
 * the fold describes. The lemmas state what every run keeps: an equity curve
 * compounded from the trades' returns, trades inside the replayed window that
 * never overlap, and a stop that only ever tightens.
 */
module Engine {
  import opened Wrappers
  import opened Floats
  import opened Indicators
  import opened StrategyBase
  import opened MacdEmaBb

  /** `Trade`. */
  datatype Trade = Trade(
    entryIdx: nat, exitIdx: nat, entryPrice: real, exitPrice: real,
    side: Side, pnlPct: real, exitReason: ExitReason)

  /** `BacktestResult`. */
  datatype BacktestResult = BacktestResult(
    totalPnlPct: real, winRate: real, numTrades: nat, avgPnl: real, maxDrawdown: real,
    trades: seq<Trade>, equityCurve: seq<real>)

  /** The `position` dictionary of the bar loop. */
  datatype Position = Position(
    entryIdx: nat, entryPrice: real, stopLoss: Option<real>, takeProfit: Option<real>,
    side: Side, reached1to1: bool)

  /** Everything the bar loop carries from one bar to the next, the strategy's memory included. */
  datatype SimState = SimState(
    memory: QmlMemory, position: Option<Position>, trades: seq<Trade>, equity: seq<real>, currentEquity: real)

  function Start(memory: QmlMemory): SimState {
    SimState(memory, None, [], [1.0], 1.0)
  }

  /** Returns are computed relative to the entry close, so no close may be zero. */
  predicate ClosesNonZero(f: Frame) {
    forall j :: 0 <= j < |f.bars.close| ==> f.bars.close[j] != 0.0
  }

  /** An open position was entered at the close of an existing bar. */
  predicate EnteredAtClose(f: Frame, position: Option<Position>) {
    position.Some? ==>
      position.value.entryIdx < |f.bars.close| && position.value.entryPrice == f.bars.close[position.value.entryIdx]
  }

  /** The equity curve starts at 1.0. */
  predicate StartsAtOne(st: SimState) {
    |st.equity| >= 1 && st.equity[0] == 1.0
  }

  /** The percentage return of a trade. */
  function PnlPct(side: Side, entry: real, exit: real): (pnl: real)
    requires entry != 0.0
    ensures pnl * entry == (if side == Long then exit - entry else entry - exit) * 100.0
  {
    if side == Long then (exit - entry) / entry * 100.0 else (entry - exit) / entry * 100.0
  }

  /** A trade wins exactly when the exit lies beyond the entry in the trade's direction. */
  lemma PnlSign(side: Side, entry: real, exit: real)
    requires entry > 0.0
    ensures PnlPct(side, entry, exit) > 0.0 <==> (if side == Long then exit > entry else exit < entry)
    ensures PnlPct(side, entry, exit) == 0.0 <==> exit == entry
  {
    var d := if side == Long then exit - entry else entry - exit;
    assert PnlPct(side, entry, exit) == d / entry * 100.0;
    if d > 0.0 {
      assert d / entry > 0.0;
    } else if d < 0.0 {
      assert d / entry < 0.0;
    }
  }

  /** The equity after a trade returning `pnl` percent: `equity * (1 + pnl / 100)`. */
  function Compound(equity: real, pnl: real): real {
    equity * (1.0 + pnl / 100.0)
  }

  /** With no position open: ask the strategy for a signal and open a position on it. */
  function Enter(cfg: StrategyConfig, f: Frame, i: nat, st: SimState): (r: SimState)
    requires f.WellFormed() && i < f.Length() && QmlOrderValid(cfg)
    ensures r.trades == st.trades && r.equity == st.equity && r.currentEquity == st.currentEquity
    ensures var out := GenerateSignalSpec(cfg, f, i, None, st.memory);
      && r.memory == out.memory
      && (r.position.Some? <==> out.signal.Some?)
      && (r.position.Some? ==>
            var p, s := r.position.value, out.signal.value;
            && p.side == s.side && p.stopLoss == s.stopLoss && p.takeProfit == s.takeProfit && !p.reached1to1)
    ensures r.position.Some? ==> r.position.value.entryIdx == i && r.position.value.entryPrice == f.bars.close[i]
  {
    var out := GenerateSignalSpec(cfg, f, i, None, st.memory);
    if out.signal.None? then st.(memory := out.memory, position := None)
    else
      var s := out.signal.value;
      st.(memory := out.memory,
          position := Some(Position(i, s.entryPrice, s.stopLoss, s.takeProfit, s.side, false)))
  }

  /** The position after the optional trailing-stop update. */
  function Trail(useTrailing: bool, f: Frame, i: nat, p: Position): (q: Position)
    requires f.WellFormed() && i < f.Length()
    ensures q.entryIdx == p.entryIdx && q.entryPrice == p.entryPrice && q.side == p.side && q.takeProfit == p.takeProfit
    ensures useTrailing ==>
      var u := UpdateTrailingStop(f, i, p.side, p.entryPrice, p.stopLoss, p.reached1to1);
      q.stopLoss == u.stopLoss && q.reached1to1 == u.reached
    ensures !useTrailing ==> q == p
  {
    if useTrailing then
      var u := UpdateTrailingStop(f, i, p.side, p.entryPrice, p.stopLoss, p.reached1to1);
      p.(stopLoss := u.stopLoss, reached1to1 := u.reached)
    else p
  }

  /**
   * With a position open: trail the stop, then either keep the position or
   * close it, record the trade and compound its return into the equity.
   */
  function Manage(useTrailing: bool, f: Frame, i: nat, st: SimState, p: Position): (r: SimState)
    requires f.WellFormed() && i < f.Length() && p.entryPrice != 0.0
    ensures r.memory == st.memory
    ensures r.position.Some? ==>
      && r.trades == st.trades && r.equity == st.equity && r.currentEquity == st.currentEquity
      && r.position.value == Trail(useTrailing, f, i, p)
    ensures r.position.None? ==>
      && |r.trades| == |st.trades| + 1
      && r.trades == st.trades + [r.trades[|st.trades|]]
      && r.equity == st.equity + [r.currentEquity]
      && var tr := r.trades[|st.trades|];
      && tr.entryIdx == p.entryIdx && tr.exitIdx == i && tr.entryPrice == p.entryPrice && tr.side == p.side
      && tr.pnlPct == PnlPct(p.side, p.entryPrice, tr.exitPrice)
      && r.currentEquity == Compound(st.currentEquity, tr.pnlPct)
    ensures var q := Trail(useTrailing, f, i, p);
      var d := CheckExit(f, i, q.side, q.stopLoss, q.takeProfit);
      && (r.position.None? <==> d.Exit?)
      && (d.Exit? ==> r.trades[|st.trades|].exitPrice == d.price && r.trades[|st.trades|].exitReason == d.reason)
  {
    var q := Trail(useTrailing, f, i, p);
    var d := CheckExit(f, i, q.side, q.stopLoss, q.takeProfit);
    if d.Hold? then st.(position := Some(q))
    else
      var pnl := PnlPct(q.side, q.entryPrice, d.price);
      var eq := Compound(st.currentEquity, pnl);
      SimState(st.memory, None,
        st.trades + [Trade(q.entryIdx, i, q.entryPrice, d.price, q.side, pnl, d.reason)],
        st.equity + [eq], eq)
  }

  /** One iteration of the bar loop at bar `i`. */
  function Step(cfg: StrategyConfig, useTrailing: bool, f: Frame, i: nat, st: SimState): (r: SimState)
    requires f.WellFormed() && i < f.Length() && QmlOrderValid(cfg) && ClosesNonZero(f)
    requires EnteredAtClose(f, st.position)
    ensures EnteredAtClose(f, r.position)
    ensures StartsAtOne(st) ==> StartsAtOne(r)
  {
    if st.position.None? then Enter(cfg, f, i, st)
    else Manage(useTrailing, f, i, st, st.position.value)
  }

  /** The state after the loop has visited bars `lookback .. k-1`. */
  function Simulate(cfg: StrategyConfig, useTrailing: bool, f: Frame, memory: QmlMemory, lookback: nat, k: nat): (st: SimState)
    requires f.WellFormed() && k <= f.Length() && QmlOrderValid(cfg) && ClosesNonZero(f)
    ensures EnteredAtClose(f, st.position) && StartsAtOne(st)
    decreases k
  {
    if k <= lookback then Start(memory)
    else Step(cfg, useTrailing, f, k - 1, Simulate(cfg, useTrailing, f, memory, lookback, k - 1))
  }

  /** The equity reached by compounding the returns of `trades` from 1.0. */
  function Growth(trades: seq<Trade>): real {
    if |trades| == 0 then 1.0
    else Compound(Growth(trades[..|trades| - 1]), trades[|trades| - 1].pnlPct)
  }

  /** The equity curve starts at 1.0 and compounds each trade's return in turn. */
  predicate EquityCompounds(st: SimState) {
    && |st.equity| == |st.trades| + 1
    && st.equity[0] == 1.0
    && st.currentEquity == st.equity[|st.trades|]
    && forall t :: 0 <= t < |st.trades| ==> st.equity[t + 1] == Compound(st.equity[t], st.trades[t].pnlPct)
  }

  /** Every trade was entered at a close inside bars `lookback .. k-1` and left on a later bar of that range. */
  predicate TradesWithin(f: Frame, lookback: nat, k: nat, st: SimState)
    requires k <= f.Length()
    requires f.WellFormed()
  {
    forall t :: 0 <= t < |st.trades| ==>
      && lookback <= st.trades[t].entryIdx < st.trades[t].exitIdx < k
      && st.trades[t].entryPrice == f.bars.close[st.trades[t].entryIdx]
  }

  /** Each trade is entered after the previous one was left, and so is the open position. */
  predicate TradesApart(lookback: nat, k: nat, st: SimState) {
    && (forall t :: 0 <= t < |st.trades| - 1 ==> st.trades[t].exitIdx < st.trades[t + 1].entryIdx)
    && (st.position.Some? ==>
          && lookback <= st.position.value.entryIdx < k
          && (|st.trades| > 0 ==> st.trades[|st.trades| - 1].exitIdx < st.position.value.entryIdx))
  }

  /** What holds of the loop state after bars `lookback .. k-1`. */
  predicate SimInvariant(f: Frame, lookback: nat, k: nat, st: SimState)
    requires f.WellFormed()
  {
    && k <= f.Length()
    && EquityCompounds(st)
    && TradesWithin(f, lookback, k, st)
    && TradesApart(lookback, k, st)
  }

  /** One bar of the loop keeps the invariant. */
  lemma StepKeepsInvariant(cfg: StrategyConfig, useTrailing: bool, f: Frame, lookback: nat, i: nat, st: SimState, next: SimState)
    requires f.WellFormed() && i < f.Length() && QmlOrderValid(cfg) && ClosesNonZero(f)
    requires EnteredAtClose(f, st.position) && lookback <= i && SimInvariant(f, lookback, i, st)
    requires next == Step(cfg, useTrailing, f, i, st)
    ensures SimInvariant(f, lookback, i + 1, next)
  {
    if st.position.None? {
      EnterKeepsInvariant(cfg, f, lookback, i, st);
    } else {
      ManageKeepsInvariant(useTrailing, f, lookback, i, st);
    }
  }

  lemma EnterKeepsInvariant(cfg: StrategyConfig, f: Frame, lookback: nat, i: nat, st: SimState)
    requires f.WellFormed() && i < f.Length() && QmlOrderValid(cfg)
    requires st.position.None? && lookback <= i && SimInvariant(f, lookback, i, st)
    ensures SimInvariant(f, lookback, i + 1, Enter(cfg, f, i, st))
  {
    SameBookKeepsInvariant(f, lookback, i, st, Enter(cfg, f, i, st));
  }

  lemma ManageKeepsInvariant(useTrailing: bool, f: Frame, lookback: nat, i: nat, st: SimState)
    requires f.WellFormed() && i < f.Length() && ClosesNonZero(f)
    requires EnteredAtClose(f, st.position) && st.position.Some?
    requires lookback <= i && SimInvariant(f, lookback, i, st)
    ensures SimInvariant(f, lookback, i + 1, Manage(useTrailing, f, i, st, st.position.value))
  {
    var r := Manage(useTrailing, f, i, st, st.position.value);
    if r.position.None? {
      ClosingKeepsInvariant(f, lookback, i, st, r);
    } else {
      SameBookKeepsInvariant(f, lookback, i, st, r);
    }
  }

  /** A bar that records no trade keeps the invariant if any open position was opened by now and after the last exit. */
  lemma SameBookKeepsInvariant(f: Frame, lookback: nat, i: nat, st: SimState, r: SimState)
    requires f.WellFormed() && i < f.Length() && lookback <= i && SimInvariant(f, lookback, i, st)
    requires r.trades == st.trades && r.equity == st.equity && r.currentEquity == st.currentEquity
    requires r.position.Some? ==>
      || (st.position.Some? && r.position.value.entryIdx == st.position.value.entryIdx)
      || (st.position.None? && r.position.value.entryIdx == i)
    ensures SimInvariant(f, lookback, i + 1, r)
  {
  }

  /** A bar that closes the open position appends its trade and the compounded equity. */
  lemma ClosingKeepsInvariant(f: Frame, lookback: nat, i: nat, st: SimState, r: SimState)
    requires f.WellFormed() && i < f.Length() && lookback <= i && SimInvariant(f, lookback, i, st)
    requires EnteredAtClose(f, st.position) && st.position.Some? && r.position.None?
    requires |r.trades| == |st.trades| + 1 && r.trades == st.trades + [r.trades[|st.trades|]]
    requires r.equity == st.equity + [r.currentEquity]
    requires var tr := r.trades[|st.trades|];
      && tr.entryIdx == st.position.value.entryIdx && tr.exitIdx == i && tr.entryPrice == st.position.value.entryPrice
      && r.currentEquity == Compound(st.currentEquity, tr.pnlPct)
    ensures SimInvariant(f, lookback, i + 1, r)
  {
    var n := |st.trades|;
    var p := st.position.value;
    forall t | 0 <= t < n ensures r.trades[t] == st.trades[t] {
    }
    forall t | 0 <= t <= n ensures r.equity[t] == st.equity[t] {
    }
    forall t | 0 <= t < n + 1
      ensures r.equity[t + 1] == Compound(r.equity[t], r.trades[t].pnlPct)
    {
      if t == n {
        assert r.equity[t + 1] == r.currentEquity;
      }
    }
    forall t | 0 <= t < n + 1
      ensures lookback <= r.trades[t].entryIdx < r.trades[t].exitIdx < i + 1
      ensures r.trades[t].entryPrice == f.bars.close[r.trades[t].entryIdx]
    {
    }
    forall t | 0 <= t < n
      ensures r.trades[t].exitIdx < r.trades[t + 1].entryIdx
    {
      if t == n - 1 {
        assert st.trades[n - 1].exitIdx < p.entryIdx;
      }
    }
  }

  lemma GrowthAppend(trades: seq<Trade>, tr: Trade)
    ensures Growth(trades + [tr]) == Compound(Growth(trades), tr.pnlPct)
  {
    assert (trades + [tr])[..|trades|] == trades;
  }

  /** An equity curve built by the compounding recurrence holds the compounded growth of each trade prefix. */
  lemma {:induction false} EquityIsGrowth(trades: seq<Trade>, equity: seq<real>, t: nat)
    requires |equity| == |trades| + 1 && equity[0] == 1.0 && t <= |trades|
    requires forall u :: 0 <= u < |trades| ==> equity[u + 1] == Compound(equity[u], trades[u].pnlPct)
    ensures equity[t] == Growth(trades[..t])
  {
    if t > 0 {
      EquityIsGrowth(trades, equity, t - 1);
      assert equity[t] == Compound(equity[t - 1], trades[t - 1].pnlPct);
      assert trades[..t] == trades[..t - 1] + [trades[t - 1]];
      GrowthAppend(trades[..t - 1], trades[t - 1]);
    }
  }

  /** Every state the replay passes through satisfies `SimInvariant`. */
  lemma {:induction false} SimulationInvariant(cfg: StrategyConfig, useTrailing: bool, f: Frame, memory: QmlMemory, lookback: nat, k: nat)
    requires f.WellFormed() && k <= f.Length() && QmlOrderValid(cfg) && ClosesNonZero(f)
    ensures SimInvariant(f, lookback, k, Simulate(cfg, useTrailing, f, memory, lookback, k))
    decreases k
  {
    if k > lookback {
      var prev := Simulate(cfg, useTrailing, f, memory, lookback, k - 1);
      SimulationInvariant(cfg, useTrailing, f, memory, lookback, k - 1);
      StepKeepsInvariant(cfg, useTrailing, f, lookback, k - 1, prev, Step(cfg, useTrailing, f, k - 1, prev));
    }
  }

  /** While a position stays open its entry is kept and its stop only tightens. */
  lemma StepTightensStop(cfg: StrategyConfig, useTrailing: bool, f: Frame, i: nat, st: SimState)
    requires f.WellFormed() && i < f.Length() && QmlOrderValid(cfg) && ClosesNonZero(f)
    requires EnteredAtClose(f, st.position) && st.position.Some?
    ensures var r := Step(cfg, useTrailing, f, i, st);
      r.position.Some? ==>
        var p, q := st.position.value, r.position.value;
        && q.entryIdx == p.entryIdx && q.entryPrice == p.entryPrice && q.side == p.side
        && q.takeProfit == p.takeProfit
        && (p.reached1to1 ==> q.reached1to1)
        && (p.stopLoss.Some? ==> (q.stopLoss.Some? &&
              if p.side == Long then q.stopLoss.value >= p.stopLoss.value else q.stopLoss.value <= p.stopLoss.value))
  {
  }

  /** A frame whose MACD and signal lines coincide never crosses, so nothing is ever traded. */
  lemma {:induction false} NoCrossNoTrades(cfg: StrategyConfig, useTrailing: bool, f: Frame, memory: QmlMemory, lookback: nat, k: nat)
    requires f.WellFormed() && k <= f.Length() && QmlOrderValid(cfg) && ClosesNonZero(f)
    requires forall j :: 0 <= j < f.Length() ==> f.macd[j] == f.signal[j]
    ensures var st := Simulate(cfg, useTrailing, f, memory, lookback, k);
      st.trades == [] && st.position.None? && st.equity == [1.0] && st.memory == memory
    decreases k
  {
    if k > lookback {
      NoCrossNoTrades(cfg, useTrailing, f, memory, lookback, k - 1);
      var i := k - 1;
      assert !MacdCrossUp(f.macd, f.signal, i) && !MacdCrossDown(f.macd, f.signal, i);
    }
  }

  /** A market whose close never moves produces no trade. */
  lemma ConstantMarketNoTrades(bars: Bars, cfg: StrategyConfig, std: seq<Option<real>>, useTrailing: bool, c: real)
    requires bars.WellFormed() && |std| == bars.Length() && ValidConfig(cfg) && c != 0.0
    requires forall j :: 0 <= j < |bars.close| ==> bars.close[j] == c
    ensures var f := CalculateIndicators(bars, IndicatorParamsOf(cfg), std);
      Simulate(cfg, useTrailing, f, NoMemory, 100, f.Length()).trades == []
  {
    var p := IndicatorParamsOf(cfg);
    var f := CalculateIndicators(bars, p, std);
    MacdOfConstant(bars.close, p.macdFast, p.macdSlow, p.macdSignal, c);
    NoCrossNoTrades(cfg, useTrailing, f, NoMemory, 100, f.Length());
  }

  // ------------------------------------------------------------- stats

  function SumPnl(trades: seq<Trade>): real {
    if |trades| == 0 then 0.0 else SumPnl(trades[..|trades| - 1]) + trades[|trades| - 1].pnlPct
  }

  /** The number of trades with a strictly positive return. */
  function CountWins(trades: seq<Trade>): (n: nat)
    ensures n <= |trades|
    ensures n == |trades| <==> forall t :: 0 <= t < |trades| ==> trades[t].pnlPct > 0.0
  {
    if |trades| == 0 then 0
    else
      var rest := trades[..|trades| - 1];
      assert forall t :: 0 <= t < |rest| ==> rest[t] == trades[t];
      CountWins(rest) + (if trades[|trades| - 1].pnlPct > 0.0 then 1 else 0)
  }

  /** `np.maximum.accumulate(equity)[i]`. */
  function RunningMax(equity: seq<real>, i: nat): (m: real)
    requires i < |equity|
    ensures forall j :: 0 <= j <= i ==> equity[j] <= m
  {
    if i == 0 then equity[0] else Max(RunningMax(equity, i - 1), equity[i])
  }

  /** The running maximum is one of the values it ranges over. */
  lemma {:induction false} RunningMaxAttained(equity: seq<real>, i: nat)
    requires i < |equity|
    ensures exists j :: 0 <= j <= i && equity[j] == RunningMax(equity, i)
  {
    var m := RunningMax(equity, i);
    if i == 0 {
      assert equity[0] == m;
    } else {
      RunningMaxAttained(equity, i - 1);
      var j :| 0 <= j <= i - 1 && equity[j] == RunningMax(equity, i - 1);
      if RunningMax(equity, i - 1) >= equity[i] {
        assert equity[j] == m;
      } else {
        assert equity[i] == m;
      }
    }
  }

  /** The percentage drop of `equity[i]` below the best equity so far. */
  function Drawdown(equity: seq<real>, i: nat): real
    requires i < |equity| && equity[0] > 0.0
  {
    var peak := RunningMax(equity, i);
    (peak - equity[i]) / peak * 100.0
  }

  /** `np.max` of the drawdowns of the first `k` points. */
  function MaxDrawdownUpTo(equity: seq<real>, k: nat): (m: real)
    requires 1 <= k <= |equity| && equity[0] > 0.0
    ensures forall i :: 0 <= i < k ==> Drawdown(equity, i) <= m
  {
    if k == 1 then Drawdown(equity, 0) else Max(MaxDrawdownUpTo(equity, k - 1), Drawdown(equity, k - 1))
  }

  /** The maximum drawdown is the drawdown of some point. */
  lemma {:induction false} MaxDrawdownAttained(equity: seq<real>, k: nat)
    requires 1 <= k <= |equity| && equity[0] > 0.0
    ensures exists i :: 0 <= i < k && Drawdown(equity, i) == MaxDrawdownUpTo(equity, k)
  {
    if k > 1 {
      MaxDrawdownAttained(equity, k - 1);
      var i :| 0 <= i < k - 1 && Drawdown(equity, i) == MaxDrawdownUpTo(equity, k - 1);
      if MaxDrawdownUpTo(equity, k - 1) < Drawdown(equity, k - 1) {
        assert Drawdown(equity, k - 1) == MaxDrawdownUpTo(equity, k);
      } else {
        assert Drawdown(equity, i) == MaxDrawdownUpTo(equity, k);
      }
    } else {
      assert Drawdown(equity, 0) == MaxDrawdownUpTo(equity, k);
    }
  }

  /** Bounds on a ratio with a positive denominator. */
  lemma RatioBounds(a: real, b: real)
    requires b > 0.0
    ensures a >= 0.0 ==> a / b >= 0.0
    ensures a <= b ==> a / b <= 1.0
    ensures a < b ==> a / b < 1.0
    ensures a / b == 1.0 <==> a == b
  {
    var q := a / b;
    assert q * b == a;
  }

  /** `wins / n * 100`: the percentage of winning trades. */
  function WinRate(wins: nat, n: nat): (w: real)
    requires 0 < n && wins <= n
    ensures w * (n as real) == wins as real * 100.0
    ensures 0.0 <= w <= 100.0
    ensures w == 100.0 <==> wins == n
  {
    var q := wins as real / n as real;
    assert q * (n as real) == wins as real;
    RatioBounds(wins as real, n as real);
    q * 100.0
  }

  /** `np.mean` of `n` values summing to `total`. */
  function Mean(total: real, n: nat): (m: real)
    requires n > 0
    ensures m * (n as real) == total
  {
    var q := total / n as real;
    assert q * (n as real) == total;
    q
  }

  lemma DrawdownBounds(equity: seq<real>, i: nat)
    requires i < |equity| && equity[0] > 0.0
    ensures Drawdown(equity, i) >= 0.0
    ensures equity[i] > 0.0 ==> Drawdown(equity, i) < 100.0
    ensures equity[i] == RunningMax(equity, i) ==> Drawdown(equity, i) == 0.0
  {
    var peak := RunningMax(equity, i);
    assert peak >= equity[0];
    assert Drawdown(equity, i) == (peak - equity[i]) / peak * 100.0;
    RatioBounds(peak - equity[i], peak);
  }

  /** `_calculate_stats`. */
  function CalculateStats(trades: seq<Trade>, equity: seq<real>): (r: BacktestResult)
    requires |equity| >= 1 && equity[0] > 0.0
    ensures |trades| == 0 ==> r == BacktestResult(0.0, 0.0, 0, 0.0, 0.0, [], [1.0])
    ensures r.numTrades == |trades|
    ensures |trades| > 0 ==> r.trades == trades && r.equityCurve == equity
    ensures |trades| > 0 ==> r.totalPnlPct == SumPnl(trades)
    ensures |trades| > 0 ==> r.avgPnl == Mean(r.totalPnlPct, |trades|)
    ensures |trades| > 0 ==> r.winRate == WinRate(CountWins(trades), |trades|)
    ensures 0.0 <= r.winRate <= 100.0
    ensures |trades| > 0 ==> (r.winRate == 100.0 <==> forall t :: 0 <= t < |trades| ==> trades[t].pnlPct > 0.0)
    ensures |trades| > 0 ==> r.maxDrawdown == MaxDrawdownUpTo(equity, |equity|)
    ensures |trades| > 0 ==> forall i :: 0 <= i < |equity| ==> Drawdown(equity, i) <= r.maxDrawdown
    ensures r.maxDrawdown >= 0.0
  {
    if |trades| == 0 then BacktestResult(0.0, 0.0, 0, 0.0, 0.0, [], [1.0])
    else
      var total := SumPnl(trades);
      DrawdownBounds(equity, 0);
      BacktestResult(total, WinRate(CountWins(trades), |trades|), |trades|, Mean(total, |trades|),
        MaxDrawdownUpTo(equity, |equity|), trades, equity)
  }

  /** An equity curve that never falls has no drawdown. */
  lemma {:induction false} RisingEquityNoDrawdown(equity: seq<real>, k: nat)
    requires 1 <= k <= |equity| && equity[0] > 0.0
    requires forall i :: 0 < i < |equity| ==> equity[i - 1] <= equity[i]
    ensures MaxDrawdownUpTo(equity, k) == 0.0
  {
    var i := k - 1;
    assert RunningMax(equity, i) == equity[i] by {
      RunningMaxOfRising(equity, i);
    }
    DrawdownBounds(equity, i);
    if k > 1 {
      RisingEquityNoDrawdown(equity, k - 1);
    }
  }

  lemma {:induction false} RunningMaxOfRising(equity: seq<real>, i: nat)
    requires i < |equity|
    requires forall j :: 0 < j < |equity| ==> equity[j - 1] <= equity[j]
    ensures RunningMax(equity, i) == equity[i]
  {
    if i > 0 {
      RunningMaxOfRising(equity, i - 1);
    }
  }

  /** An equity curve that stays positive never draws down by 100% or more. */
  lemma PositiveEquityBoundsDrawdown(equity: seq<real>, k: nat)
    requires 1 <= k <= |equity| && equity[0] > 0.0
    requires forall i :: 0 <= i < |equity| ==> equity[i] > 0.0
    ensures MaxDrawdownUpTo(equity, k) < 100.0
  {
    var m := MaxDrawdownUpTo(equity, k);
    MaxDrawdownAttained(equity, k);
    var i :| 0 <= i < k && Drawdown(equity, i) == m;
    DrawdownBounds(equity, i);
  }

  // ------------------------------------------------------------ the engine

  /** `BacktestEngine`: a strategy and whether the trailing stop is used. */
  class BacktestEngine {
    const strategy: MacdEmaBbStrategy
    const useTrailing: bool

    constructor(strategy: MacdEmaBbStrategy, useTrailing: bool)
      ensures this.strategy == strategy && this.useTrailing == useTrailing
    {
      this.strategy := strategy;
      this.useTrailing := useTrailing;
    }

    /** The entry half of the bar loop: ask the strategy for a signal and open a position on it. */
    method OpenPosition(f: Frame, i: nat, ghost st: SimState) returns (position: Option<Position>)
      requires f.WellFormed() && i < f.Length() && QmlOrderValid(strategy.config)
      requires st.position.None? && st.memory == strategy.Memory()
      modifies strategy
      ensures SimState(strategy.Memory(), position, st.trades, st.equity, st.currentEquity)
        == Enter(strategy.config, f, i, st)
    {
      var signal := strategy.GenerateSignal(f, i, None);
      position := None;
      if signal.Some? {
        var s := signal.value;
        position := Some(Position(i, s.entryPrice, s.stopLoss, s.takeProfit, s.side, false));
      }
    }

    /**
     * The management half of the bar loop: trail the stop, check the exits,
     * and on an exit record the trade and compound its return.
     */
    method ManagePosition(f: Frame, i: nat, pos: Position, trades: seq<Trade>, equity: seq<real>,
                          currentEquity: real, ghost memory: QmlMemory)
      returns (newPosition: Option<Position>, newTrades: seq<Trade>, newEquity: seq<real>, newCurrentEquity: real)
      requires f.WellFormed() && i < f.Length() && pos.entryPrice != 0.0
      ensures SimState(memory, newPosition, newTrades, newEquity, newCurrentEquity)
        == Manage(useTrailing, f, i, SimState(memory, Some(pos), trades, equity, currentEquity), pos)
    {
      var p := pos;
      if useTrailing {
        var u := UpdateTrailingStop(f, i, p.side, p.entryPrice, p.stopLoss, p.reached1to1);
        p := p.(stopLoss := u.stopLoss, reached1to1 := u.reached);
      }
      assert p == Trail(useTrailing, f, i, pos);
      var decision := CheckExit(f, i, p.side, p.stopLoss, p.takeProfit);
      if decision.Exit? {
        var pnl := PnlPct(p.side, p.entryPrice, decision.price);
        newTrades := trades + [Trade(p.entryIdx, i, p.entryPrice, decision.price, p.side, pnl, decision.reason)];
        newCurrentEquity := Compound(currentEquity, pnl);
        newEquity := equity + [newCurrentEquity];
        newPosition := None;
      } else {
        newPosition, newTrades, newEquity, newCurrentEquity := Some(p), trades, equity, currentEquity;
      }
    }

    /** `run`: visits bars `max_lookback .. len(df) - 1`, then summarises the trades. */
    method Run(f: Frame, maxLookback: nat) returns (result: BacktestResult)
      requires f.WellFormed() && QmlOrderValid(strategy.config) && ClosesNonZero(f)
      modifies strategy
      ensures var st := Simulate(strategy.config, useTrailing, f, old(strategy.Memory()), maxLookback, f.Length());
        result == CalculateStats(st.trades, st.equity) && strategy.Memory() == st.memory
    {
      var n := f.Length();
      var trades: seq<Trade> := [];
      var equity: seq<real> := [1.0];
      var currentEquity := 1.0;
      var position: Option<Position> := None;
      ghost var memory := strategy.Memory();
      var i := maxLookback;
      while i < n
        invariant maxLookback <= i
        invariant Simulate(strategy.config, useTrailing, f, memory, maxLookback, if i <= n then i else n)
          == SimState(strategy.Memory(), position, trades, equity, currentEquity)
        decreases n as int - i as int
      {
        ghost var before := SimState(strategy.Memory(), position, trades, equity, currentEquity);
        if position.None? {
          position := OpenPosition(f, i, before);
        } else {
          position, trades, equity, currentEquity :=
            ManagePosition(f, i, position.value, trades, equity, currentEquity, before.memory);
        }
        assert SimState(strategy.Memory(), position, trades, equity, currentEquity)
          == Step(strategy.config, useTrailing, f, i, before);
        i := i + 1;
      }
      result := CalculateStats(trades, equity);
    }
  }

  /**
   * `run_backtest`: computes the indicators for the configuration (the
   * defaults when none is given), builds a fresh strategy and engine, and runs
   * them with the default warm-up of 100 bars.
   */
  method RunBacktest(bars: Bars, std: seq<Option<real>>, config: Option<StrategyConfig>, useTrailing: bool)
    returns (result: BacktestResult)
    requires bars.WellFormed() && |std| == bars.Length()
    requires config.Some? ==> ValidConfig(config.value)
    requires forall j :: 0 <= j < |bars.close| ==> bars.close[j] != 0.0
    ensures var cfg := if config.Some? then config.value else DefaultConfig;
      var f := CalculateIndicators(bars, IndicatorParamsOf(cfg), std);
      var st := Simulate(cfg, useTrailing, f, NoMemory, 100, f.Length());
      result == CalculateStats(st.trades, st.equity)
  {
    var cfg := if config.Some? then config.value else DefaultConfig;
    DefaultConfigIsValid();
    var f := CalculateIndicators(bars, IndicatorParamsOf(cfg), std);
    var strategy := new MacdEmaBbStrategy(cfg);
    var engine := new BacktestEngine(strategy, useTrailing);
    result := engine.Run(f, 100);
  }
}
