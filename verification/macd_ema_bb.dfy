/**
 * The MACD + EMA + Bollinger Bands (+ optional Quasimodo) strategy of
 * `src/strategies/macd_ema_bb.py`, together with the `generate_signal` template
 * it inherits from `src/strategies/base.py`.
 *
 * The strategy object remembers the last bullish and bearish QML levels it
 * saw; the class below holds them as fields, and the functions beside it
 * describe each call as a transformation of a `QmlMemory` value.
 */
module MacdEmaBb {
  import opened Wrappers
  import opened Floats
  import opened Indicators
  import opened Patterns
  import opened StrategyBase

  /** `_last_qml_bull` and `_last_qml_bear`. */
  datatype QmlMemory = QmlMemory(bull: Option<real>, bear: Option<real>)

  const NoMemory := QmlMemory(None, None)

  /** What `check_long_signal` / `check_short_signal` answer, with the memory they leave behind. */
  datatype Check = Check(fires: bool, memory: QmlMemory)

  /** The QML test of the long entry, consulted only when `use_qml` is on. */
  function BullLevel(cfg: StrategyConfig, f: Frame, idx: nat): Option<real>
    requires f.WellFormed() && cfg.qmlOrder >= 1
  {
    DetectQmlBull(f.bars.low, idx, cfg.qmlOrder, cfg.qmlRecency)
  }

  function BearLevel(cfg: StrategyConfig, f: Frame, idx: nat): Option<real>
    requires f.WellFormed() && cfg.qmlOrder >= 1
  {
    DetectQmlBear(f.bars.high, idx, cfg.qmlOrder, cfg.qmlRecency)
  }

  /** `check_long_signal`: MACD crosses up, close above the EMA, and (with QML on) a bullish QML is found and remembered. */
  function LongCheck(cfg: StrategyConfig, f: Frame, idx: nat, mem: QmlMemory): (c: Check)
    requires f.WellFormed() && idx < f.Length() && QmlOrderValid(cfg)
    ensures c.fires <==>
      && MacdCrossUp(f.macd, f.signal, idx)
      && PriceAboveEma(f.bars.close, f.ema, idx)
      && (cfg.useQml ==> BullLevel(cfg, f, idx).Some?)
    ensures c.memory.bear == mem.bear
    ensures c.memory.bull == if c.fires && cfg.useQml then BullLevel(cfg, f, idx) else mem.bull
  {
    if !MacdCrossUp(f.macd, f.signal, idx) then Check(false, mem)
    else if !PriceAboveEma(f.bars.close, f.ema, idx) then Check(false, mem)
    else if cfg.useQml then
      var level := BullLevel(cfg, f, idx);
      if level.None? then Check(false, mem) else Check(true, mem.(bull := level))
    else Check(true, mem)
  }

  /** `check_short_signal`: MACD crosses down, close below the EMA, and (with QML on) a bearish QML is found and remembered. */
  function ShortCheck(cfg: StrategyConfig, f: Frame, idx: nat, mem: QmlMemory): (c: Check)
    requires f.WellFormed() && idx < f.Length() && QmlOrderValid(cfg)
    ensures c.fires <==>
      && MacdCrossDown(f.macd, f.signal, idx)
      && PriceBelowEma(f.bars.close, f.ema, idx)
      && (cfg.useQml ==> BearLevel(cfg, f, idx).Some?)
    ensures c.memory.bull == mem.bull
    ensures c.memory.bear == if c.fires && cfg.useQml then BearLevel(cfg, f, idx) else mem.bear
  {
    if !MacdCrossDown(f.macd, f.signal, idx) then Check(false, mem)
    else if !PriceBelowEma(f.bars.close, f.ema, idx) then Check(false, mem)
    else if cfg.useQml then
      var level := BearLevel(cfg, f, idx);
      if level.None? then Check(false, mem) else Check(true, mem.(bear := level))
    else Check(true, mem)
  }

  /** Long and short entries never fire on the same bar. */
  lemma EntriesExclusive(cfg: StrategyConfig, f: Frame, idx: nat, mem: QmlMemory)
    requires f.WellFormed() && idx < f.Length() && QmlOrderValid(cfg)
    ensures !(LongCheck(cfg, f, idx, mem).fires && ShortCheck(cfg, f, idx, mem).fires)
  {
    CrossesExclusive(f.macd, f.signal, idx);
  }

  /** Every remembered QML level is the low (bull) or high (bear) of some bar at or before `k`. */
  predicate AnchoredMemory(f: Frame, mem: QmlMemory, k: nat)
    requires f.WellFormed()
  {
    && (mem.bull.Some? ==> exists j: nat :: j <= k && j < f.Length() && mem.bull.value == f.bars.low[j])
    && (mem.bear.Some? ==> exists j: nat :: j <= k && j < f.Length() && mem.bear.value == f.bars.high[j])
  }

  /** A level the long check remembers is a sweep low of a bar no later than `idx`. */
  lemma LongCheckAnchored(cfg: StrategyConfig, f: Frame, idx: nat, mem: QmlMemory)
    requires f.WellFormed() && idx < f.Length() && QmlOrderValid(cfg) && AnchoredMemory(f, mem, idx)
    ensures AnchoredMemory(f, LongCheck(cfg, f, idx, mem).memory, idx)
  {
    var c := LongCheck(cfg, f, idx, mem);
    if c.fires && cfg.useQml {
      var v := c.memory.bull.value;
      QmlCharacterization(f.bars.low, Minimum, idx, cfg.qmlOrder, cfg.qmlRecency, v);
      var i1: nat, i2: nat, i3: nat :| QmlTriple(Prefix(f.bars.low, idx), Minimum, cfg.qmlOrder, idx, cfg.qmlRecency, i1, i2, i3) && v == f.bars.low[i2];
      assert i2 <= idx && i2 < f.Length() && v == f.bars.low[i2];
    }
  }

  /** A level the short check remembers is a sweep high of a bar no later than `idx`. */
  lemma ShortCheckAnchored(cfg: StrategyConfig, f: Frame, idx: nat, mem: QmlMemory)
    requires f.WellFormed() && idx < f.Length() && QmlOrderValid(cfg) && AnchoredMemory(f, mem, idx)
    ensures AnchoredMemory(f, ShortCheck(cfg, f, idx, mem).memory, idx)
  {
    var c := ShortCheck(cfg, f, idx, mem);
    if c.fires && cfg.useQml {
      var v := c.memory.bear.value;
      QmlCharacterization(f.bars.high, Maximum, idx, cfg.qmlOrder, cfg.qmlRecency, v);
      var i1: nat, i2: nat, i3: nat :| QmlTriple(Prefix(f.bars.high, idx), Maximum, cfg.qmlOrder, idx, cfg.qmlRecency, i1, i2, i3) && v == f.bars.high[i2];
      assert i2 <= idx && i2 < f.Length() && v == f.bars.high[i2];
    }
  }

  // ------------------------------------------------------ stop and target

  datatype StopTarget = StopTarget(stopLoss: Option<real>, takeProfit: Option<real>)

  /**
   * `calculate_sl_tp`. The stop sits `atr * atr_sl_mult` beyond the entry, or
   * beyond the remembered QML level when `use_qml_extreme_sl` is on and a level
   * is remembered; the target sits `rr_ratio` risks beyond the entry.
   */
  function SlTp(cfg: StrategyConfig, mem: QmlMemory, entry: real, side: Side, atr: Option<real>): (r: StopTarget)
    ensures var s := Signal(side, entry, r.stopLoss, r.takeProfit, None);
      && s.Reward() == Times(s.Risk(), Some(cfg.rrRatio))
      && (r.stopLoss.Some? <==> atr.Some?)
      && (r.takeProfit.Some? <==> atr.Some?)
    ensures var s := Signal(side, entry, r.stopLoss, r.takeProfit, None);
      var anchor := if side == Long then mem.bull else mem.bear;
      if cfg.useQmlExtremeSl && anchor.Some?
      then s.Risk() == (if side == Long then Plus(Minus(Some(entry), anchor), Times(atr, Some(cfg.atrSlMult)))
                        else Plus(Minus(anchor, Some(entry)), Times(atr, Some(cfg.atrSlMult))))
      else s.Risk() == Times(atr, Some(cfg.atrSlMult))
  {
    var offset := Times(atr, Some(cfg.atrSlMult));
    if side == Long then
      var sl := if cfg.useQmlExtremeSl && mem.bull.Some? then Minus(mem.bull, offset) else Minus(Some(entry), offset);
      var risk := Minus(Some(entry), sl);
      StopTarget(sl, Plus(Some(entry), Times(risk, Some(cfg.rrRatio))))
    else
      var sl := if cfg.useQmlExtremeSl && mem.bear.Some? then Plus(mem.bear, offset) else Plus(Some(entry), offset);
      var risk := Minus(sl, Some(entry));
      StopTarget(sl, Minus(Some(entry), Times(risk, Some(cfg.rrRatio))))
  }

  /** With an ATR stop and non-negative ATR, multiplier and R:R, the entry lies between stop and target. */
  lemma AtrStopBracketsEntry(cfg: StrategyConfig, mem: QmlMemory, entry: real, side: Side, atr: real)
    requires !cfg.useQmlExtremeSl && atr >= 0.0 && cfg.atrSlMult >= 0.0 && cfg.rrRatio >= 0.0
    ensures var r := SlTp(cfg, mem, entry, side, Some(atr));
      && r.stopLoss.Some? && r.takeProfit.Some?
      && (side == Long ==> r.stopLoss.value <= entry <= r.takeProfit.value)
      && (side == Short ==> r.takeProfit.value <= entry <= r.stopLoss.value)
  {
    var r := SlTp(cfg, mem, entry, side, Some(atr));
    var s := Signal(side, entry, r.stopLoss, r.takeProfit, None);
    assert atr * cfg.atrSlMult >= 0.0;
    assert s.Risk() == Times(Some(atr), Some(cfg.atrSlMult));
    assert atr * cfg.atrSlMult * cfg.rrRatio >= 0.0;
  }

  /** A signal's R:R ratio is the configured one whenever its risk is defined and non-zero. */
  lemma SignalRrIsConfigured(cfg: StrategyConfig, mem: QmlMemory, entry: real, side: Side, atr: Option<real>)
    ensures var r := SlTp(cfg, mem, entry, side, atr);
      var s := Signal(side, entry, r.stopLoss, r.takeProfit, None);
      s.Risk().Some? && s.Risk() != Some(0.0) ==> s.RrRatio() == Some(cfg.rrRatio)
  {
    var r := SlTp(cfg, mem, entry, side, atr);
    var s := Signal(side, entry, r.stopLoss, r.takeProfit, None);
    if s.Risk().Some? && s.Risk() != Some(0.0) {
      var risk := s.Risk().value;
      assert s.Reward() == Times(s.Risk(), Some(cfg.rrRatio));
      var q := s.RrRatio().value;
      assert q * risk == risk * cfg.rrRatio;
      assert (q - cfg.rrRatio) * risk == 0.0;
    }
  }

  // -------------------------------------------------------------- exits

  datatype ExitReason = StopLoss | TakeProfit | MacdReverse | BbTouch

  /** `(should_exit, exit_price, exit_reason)`: either hold, or leave at `price` for `reason`. */
  datatype ExitDecision = Hold | Exit(price: real, reason: ExitReason)

  /** The bar reached the stop: the low for a long, the high for a short. */
  predicate StopTouched(f: Frame, idx: nat, side: Side, sl: Option<real>)
    requires f.WellFormed() && idx < f.Length()
  {
    if side == Long then LessEq(Some(f.bars.low[idx]), sl) else GreaterEq(Some(f.bars.high[idx]), sl)
  }

  /** The bar reached the target: the high for a long, the low for a short. */
  predicate TargetTouched(f: Frame, idx: nat, side: Side, tp: Option<real>)
    requires f.WellFormed() && idx < f.Length()
  {
    if side == Long then GreaterEq(Some(f.bars.high[idx]), tp) else LessEq(Some(f.bars.low[idx]), tp)
  }

  /** MACD crossed against the position. */
  predicate Reversal(f: Frame, idx: nat, side: Side)
    requires f.WellFormed() && idx < f.Length()
  {
    if side == Long then MacdCrossDown(f.macd, f.signal, idx) else MacdCrossUp(f.macd, f.signal, idx)
  }

  /** The bar reached the opposite Bollinger band: the upper one for a long, the lower one for a short. */
  predicate BandTouched(f: Frame, idx: nat, side: Side)
    requires f.WellFormed() && idx < f.Length()
  {
    if side == Long then GreaterEq(Some(f.bars.high[idx]), f.bbUpper[idx])
    else LessEq(Some(f.bars.low[idx]), f.bbLower[idx])
  }

  /**
   * `check_exit_conditions`: stop first, then target, then a MACD reversal,
   * then the opposite band. A NaN stop, target or band is never reached.
   */
  function CheckExit(f: Frame, idx: nat, side: Side, sl: Option<real>, tp: Option<real>): (d: ExitDecision)
    requires f.WellFormed() && idx < f.Length()
    ensures d == Hold <==>
      !StopTouched(f, idx, side, sl) && !TargetTouched(f, idx, side, tp) && !Reversal(f, idx, side) && !BandTouched(f, idx, side)
    ensures d.Exit? && d.reason == StopLoss <==> StopTouched(f, idx, side, sl)
    ensures d.Exit? && d.reason == TakeProfit <==> !StopTouched(f, idx, side, sl) && TargetTouched(f, idx, side, tp)
    ensures d.Exit? && d.reason == MacdReverse <==>
      !StopTouched(f, idx, side, sl) && !TargetTouched(f, idx, side, tp) && Reversal(f, idx, side)
    ensures d.Exit? ==> d.price == match d.reason
      case StopLoss => sl.value
      case TakeProfit => tp.value
      case MacdReverse => f.bars.close[idx]
      case BbTouch => (if side == Long then f.bbUpper[idx] else f.bbLower[idx]).value
  {
    if StopTouched(f, idx, side, sl) then Exit(sl.value, StopLoss)
    else if TargetTouched(f, idx, side, tp) then Exit(tp.value, TakeProfit)
    else if Reversal(f, idx, side) then Exit(f.bars.close[idx], MacdReverse)
    else if BandTouched(f, idx, side) then
      Exit((if side == Long then f.bbUpper[idx] else f.bbLower[idx]).value, BbTouch)
    else Hold
  }

  /**
   * Stop, target and band exits fill at a level the bar actually reached from
   * the position's side: a long's stop lies at or above the low, its target
   * and band at or below the high; mirrored for a short.
   */
  lemma ExitLevelWasReached(f: Frame, idx: nat, side: Side, sl: Option<real>, tp: Option<real>)
    requires f.WellFormed() && idx < f.Length()
    ensures var d := CheckExit(f, idx, side, sl, tp);
      d.Exit? && d.reason != MacdReverse ==>
        if (side == Long) == (d.reason == StopLoss) then d.price >= f.bars.low[idx] else d.price <= f.bars.high[idx]
  {
  }

  /** A bar that reaches both stop and target is booked as a stop-out. */
  lemma StopWinsOverTarget(f: Frame, idx: nat, side: Side, sl: Option<real>, tp: Option<real>)
    requires f.WellFormed() && idx < f.Length()
    requires StopTouched(f, idx, side, sl) && TargetTouched(f, idx, side, tp)
    ensures CheckExit(f, idx, side, sl, tp) == Exit(sl.value, StopLoss)
  {
  }

  // ------------------------------------------------------- trailing stop

  datatype TrailUpdate = TrailUpdate(stopLoss: Option<real>, reached: bool)

  /**
   * `update_trailing_stop`: once price has gone one risk in favour (1:1), the
   * stop trails the Bollinger middle band and never moves back.
   */
  function UpdateTrailingStop(f: Frame, idx: nat, side: Side, entry: real, sl: Option<real>, reached: bool): (r: TrailUpdate)
    requires f.WellFormed() && idx < f.Length()
    ensures r.reached <==> (reached || (sl.Some? &&
      if side == Long then f.bars.high[idx] >= entry + (entry - sl.value)
      else f.bars.low[idx] <= entry - (sl.value - entry)))
    ensures !r.reached ==> r.stopLoss == sl
    ensures sl.None? ==> r.stopLoss.None?
    ensures sl.Some? ==> (r.stopLoss.Some? &&
      if side == Long then r.stopLoss.value >= sl.value else r.stopLoss.value <= sl.value)
    ensures r.reached && sl.Some? && f.bbMid[idx].Some? ==>
      if side == Long then r.stopLoss.value >= f.bbMid[idx].value else r.stopLoss.value <= f.bbMid[idx].value
    ensures r.stopLoss == sl || r.stopLoss == f.bbMid[idx]
  {
    var bbMid := f.bbMid[idx];
    if side == Long then
      var risk := Minus(Some(entry), sl);
      var target := Plus(Some(entry), risk);
      var newReached := reached || GreaterEq(Some(f.bars.high[idx]), target);
      TrailUpdate(if newReached then PyMax(sl, bbMid) else sl, newReached)
    else
      var risk := Minus(sl, Some(entry));
      var target := Minus(Some(entry), risk);
      var newReached := reached || LessEq(Some(f.bars.low[idx]), target);
      TrailUpdate(if newReached then PyMin(sl, bbMid) else sl, newReached)
  }

  // ------------------------------------------------------ signal template

  /** A signal (or none) and the strategy memory after producing it. */
  datatype Outcome = Outcome(signal: Option<Signal>, memory: QmlMemory)

  /** `current_price or close`: a missing or zero current price falls back to the bar's close. */
  function EntryPrice(f: Frame, idx: nat, currentPrice: Option<real>): real
    requires f.WellFormed() && idx < f.Length()
  {
    if currentPrice.Some? && currentPrice.value != 0.0 then currentPrice.value else f.bars.close[idx]
  }

  /**
   * `generate_signal`: filters first, then the long check, then the short
   * check; the stop and target use the memory the check has just updated.
   */
  function GenerateSignalSpec(cfg: StrategyConfig, f: Frame, idx: nat, currentPrice: Option<real>, mem: QmlMemory): (o: Outcome)
    requires f.WellFormed() && idx < f.Length() && QmlOrderValid(cfg)
    ensures o.signal.Some? ==> CheckFilters(cfg, f, idx)
    ensures o.signal.Some? && o.signal.value.side == Long <==>
      CheckFilters(cfg, f, idx) && LongCheck(cfg, f, idx, mem).fires
    ensures o.signal.Some? && o.signal.value.side == Short <==>
      CheckFilters(cfg, f, idx) && ShortCheck(cfg, f, idx, mem).fires
    ensures o.signal.Some? ==>
      var s := o.signal.value;
      && s.entryPrice == EntryPrice(f, idx, currentPrice)
      && s.quantity.None?
      && s.Reward() == Times(s.Risk(), Some(cfg.rrRatio))
      && (s.stopLoss.Some? <==> f.atr[idx].Some?)
      && StopTarget(s.stopLoss, s.takeProfit) == SlTp(cfg, o.memory, s.entryPrice, s.side, f.atr[idx])
    ensures !CheckFilters(cfg, f, idx) ==> o.memory == mem
    ensures CheckFilters(cfg, f, idx) && LongCheck(cfg, f, idx, mem).fires ==> o.memory == LongCheck(cfg, f, idx, mem).memory
    ensures CheckFilters(cfg, f, idx) && !LongCheck(cfg, f, idx, mem).fires ==> o.memory == ShortCheck(cfg, f, idx, mem).memory
    ensures !cfg.useQml ==> o.memory == mem
  {
    EntriesExclusive(cfg, f, idx, mem);
    if !CheckFilters(cfg, f, idx) then Outcome(None, mem)
    else
      var entry := EntryPrice(f, idx, currentPrice);
      var atr := f.atr[idx];
      var long := LongCheck(cfg, f, idx, mem);
      if long.fires then
        var st := SlTp(cfg, long.memory, entry, Long, atr);
        Outcome(Some(Signal(Long, entry, st.stopLoss, st.takeProfit, None)), long.memory)
      else
        var short := ShortCheck(cfg, f, idx, long.memory);
        if short.fires then
          var st := SlTp(cfg, short.memory, entry, Short, atr);
          Outcome(Some(Signal(Short, entry, st.stopLoss, st.takeProfit, None)), short.memory)
        else Outcome(None, short.memory)
  }

  /** The memory stays anchored to past bars through every signal request. */
  lemma GenerateSignalAnchored(cfg: StrategyConfig, f: Frame, idx: nat, currentPrice: Option<real>, mem: QmlMemory)
    requires f.WellFormed() && idx < f.Length() && QmlOrderValid(cfg) && AnchoredMemory(f, mem, idx)
    ensures AnchoredMemory(f, GenerateSignalSpec(cfg, f, idx, currentPrice, mem).memory, idx)
  {
    LongCheckAnchored(cfg, f, idx, mem);
    var long := LongCheck(cfg, f, idx, mem);
    ShortCheckAnchored(cfg, f, idx, long.memory);
  }

  // ---------------------------------------------------------- the object

  /** `MacdEmaBbStrategy`: the configuration and the two remembered QML levels. */
  class MacdEmaBbStrategy {
    const config: StrategyConfig
    var lastQmlBull: Option<real>
    var lastQmlBear: Option<real>

    function Memory(): QmlMemory
      reads this
    {
      QmlMemory(lastQmlBull, lastQmlBear)
    }

    constructor(config: StrategyConfig)
      ensures this.config == config && Memory() == NoMemory
    {
      this.config := config;
      lastQmlBull := None;
      lastQmlBear := None;
    }

    method CheckLongSignal(f: Frame, idx: nat) returns (fires: bool)
      requires f.WellFormed() && idx < f.Length() && QmlOrderValid(config)
      modifies this
      ensures var c := LongCheck(config, f, idx, old(Memory())); fires == c.fires && Memory() == c.memory
    {
      if !MacdCrossUp(f.macd, f.signal, idx) {
        return false;
      }
      if !PriceAboveEma(f.bars.close, f.ema, idx) {
        return false;
      }
      if config.useQml {
        var level := DetectQmlBull(f.bars.low, idx, config.qmlOrder, config.qmlRecency);
        if level.None? {
          return false;
        }
        lastQmlBull := level;
      }
      return true;
    }

    method CheckShortSignal(f: Frame, idx: nat) returns (fires: bool)
      requires f.WellFormed() && idx < f.Length() && QmlOrderValid(config)
      modifies this
      ensures var c := ShortCheck(config, f, idx, old(Memory())); fires == c.fires && Memory() == c.memory
    {
      if !MacdCrossDown(f.macd, f.signal, idx) {
        return false;
      }
      if !PriceBelowEma(f.bars.close, f.ema, idx) {
        return false;
      }
      if config.useQml {
        var level := DetectQmlBear(f.bars.high, idx, config.qmlOrder, config.qmlRecency);
        if level.None? {
          return false;
        }
        lastQmlBear := level;
      }
      return true;
    }

    method CalculateSlTp(entry: real, side: Side, atr: Option<real>) returns (sl: Option<real>, tp: Option<real>)
      ensures StopTarget(sl, tp) == SlTp(config, Memory(), entry, side, atr)
    {
      var offset := Times(atr, Some(config.atrSlMult));
      if side == Long {
        if config.useQmlExtremeSl && lastQmlBull.Some? {
          sl := Minus(lastQmlBull, offset);
        } else {
          sl := Minus(Some(entry), offset);
        }
        var risk := Minus(Some(entry), sl);
        tp := Plus(Some(entry), Times(risk, Some(config.rrRatio)));
      } else {
        if config.useQmlExtremeSl && lastQmlBear.Some? {
          sl := Plus(lastQmlBear, offset);
        } else {
          sl := Plus(Some(entry), offset);
        }
        var risk := Minus(sl, Some(entry));
        tp := Minus(Some(entry), Times(risk, Some(config.rrRatio)));
      }
    }

    method GenerateSignal(f: Frame, idx: nat, currentPrice: Option<real>) returns (signal: Option<Signal>)
      requires f.WellFormed() && idx < f.Length() && QmlOrderValid(config)
      modifies this
      ensures Outcome(signal, Memory()) == GenerateSignalSpec(config, f, idx, currentPrice, old(Memory()))
    {
      if !CheckFilters(config, f, idx) {
        return None;
      }
      var entry := if currentPrice.Some? && currentPrice.value != 0.0 then currentPrice.value else f.bars.close[idx];
      var atr := f.atr[idx];
      var isLong := CheckLongSignal(f, idx);
      if isLong {
        var sl, tp := CalculateSlTp(entry, Long, atr);
        return Some(Signal(Long, entry, sl, tp, None));
      }
      var isShort := CheckShortSignal(f, idx);
      if isShort {
        var sl, tp := CalculateSlTp(entry, Short, atr);
        return Some(Signal(Short, entry, sl, tp, None));
      }
      return None;
    }
  }
}
