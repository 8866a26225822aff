/**
 * The strategy vocabulary of `src/strategies/base.py`: the configuration,
 * the signal record with its risk and reward, and the common entry filters.
 */
module StrategyBase {
  import opened Wrappers
  import opened Floats
  import opened Indicators

  /** `'long'` / `'short'`. */
  datatype Side = Long | Short

  /** `StrategyConfig`, field for field. */
  datatype StrategyConfig = StrategyConfig(
    emaPeriod: int,
    macdFast: int, macdSlow: int, macdSignal: int,
    bbPeriod: int, bbStd: real,
    atrPeriod: int, atrSlMult: real,
    rrRatio: real,
    qmlOrder: int, qmlRecency: int, useQml: bool, useQmlExtremeSl: bool,
    useVolFilter: bool, volFilterMult: real, squeezeThreshold: real,
    volPeriod: int)

  /** The dataclass defaults. */
  const DefaultConfig := StrategyConfig(
    100, 12, 26, 9, 20, 2.0, 14, 1.5, 2.0, 3, 20, false, false, false, 0.8, 1.0, 20)

  /** The indicator periods a configuration hands to `calculate_indicators`. */
  function IndicatorParamsOf(cfg: StrategyConfig): (p: IndicatorParams)
    ensures p.emaPeriod == cfg.emaPeriod && p.bbStd == cfg.bbStd && p.volPeriod == cfg.volPeriod
    ensures p.macdFast == cfg.macdFast && p.macdSlow == cfg.macdSlow && p.macdSignal == cfg.macdSignal
    ensures p.bbPeriod == cfg.bbPeriod && p.atrPeriod == cfg.atrPeriod
  {
    IndicatorParams(cfg.emaPeriod, cfg.macdFast, cfg.macdSlow, cfg.macdSignal,
      cfg.bbPeriod, cfg.bbStd, cfg.atrPeriod, cfg.volPeriod)
  }

  /** `argrelextrema` rejects an order below one, and it is only consulted when QML is on. */
  predicate QmlOrderValid(cfg: StrategyConfig) {
    cfg.useQml ==> cfg.qmlOrder >= 1
  }

  /** A configuration every stage of a backtest accepts. */
  predicate ValidConfig(cfg: StrategyConfig) {
    ValidParams(IndicatorParamsOf(cfg)) && QmlOrderValid(cfg)
  }

  /** The defaults are a valid configuration and agree with `calculate_indicators`' own defaults. */
  lemma DefaultConfigIsValid()
    ensures ValidConfig(DefaultConfig)
    ensures IndicatorParamsOf(DefaultConfig) == DefaultIndicatorParams
  {
  }

  /**
   * `Signal`. Stop and target are NaN (`None`) when the ATR they are derived
   * from is still NaN.
   */
  datatype Signal = Signal(side: Side, entryPrice: real, stopLoss: Option<real>, takeProfit: Option<real>, quantity: Option<real>)
  {
    /** The distance from entry to stop, positive when the stop is on the losing side. */
    function Risk(): Option<real> {
      if side == Long then Minus(Some(entryPrice), stopLoss) else Minus(stopLoss, Some(entryPrice))
    }

    /** The distance from entry to target, positive when the target is on the winning side. */
    function Reward(): Option<real> {
      if side == Long then Minus(takeProfit, Some(entryPrice)) else Minus(Some(entryPrice), takeProfit)
    }

    /** `rr_ratio`: reward over risk, and 0 for a zero risk. */
    function RrRatio(): (r: Option<real>)
      ensures Risk() == Some(0.0) ==> r == Some(0.0)
      ensures Risk().Some? && Risk() != Some(0.0) && Reward().Some? ==>
        r.Some? && r.value * Risk().value == Reward().value
    {
      var risk := Risk();
      var reward := Reward();
      if risk == Some(0.0) then Some(0.0)
      else if risk.Some? && reward.Some? then Some(reward.value / risk.value)
      else None
    }
  }

  /**
   * `check_filters`. The comparisons are written inline, so a NaN average
   * volume or a NaN band width rejects nothing.
   */
  predicate CheckFilters(cfg: StrategyConfig, f: Frame, idx: nat)
    requires f.WellFormed() && idx < f.Length()
    ensures f.volAvg[idx].None? && f.bbWidth[idx].None? ==> CheckFilters(cfg, f, idx)
    ensures CheckFilters(cfg, f, idx) ==> f.bbWidth[idx].None? || f.bbWidth[idx].value >= cfg.squeezeThreshold
    ensures CheckFilters(cfg, f, idx) && cfg.useVolFilter && f.volAvg[idx].Some? ==>
      f.bars.volume[idx] > f.volAvg[idx].value * cfg.volFilterMult
  {
    && !(cfg.useVolFilter && LessEq(Some(f.bars.volume[idx]), Times(f.volAvg[idx], Some(cfg.volFilterMult))))
    && !Less(f.bbWidth[idx], Some(cfg.squeezeThreshold))
  }

  /**
   * Where the indicators are defined, the filters are the volume check (when
   * enabled) and the squeeze check; where the band width is NaN the squeeze
   * filter passes although `check_no_squeeze` fails.
   */
  lemma FiltersAgreeWithChecks(cfg: StrategyConfig, f: Frame, idx: nat)
    requires f.WellFormed() && idx < f.Length()
    ensures f.volAvg[idx].Some? && f.bbWidth[idx].Some? ==>
      (CheckFilters(cfg, f, idx) <==>
        (cfg.useVolFilter ==> VolumeFilter(f.bars.volume, f.volAvg, idx, cfg.volFilterMult))
        && NoSqueeze(f.bbWidth, idx, cfg.squeezeThreshold))
    ensures f.bbWidth[idx].None? ==> !NoSqueeze(f.bbWidth, idx, cfg.squeezeThreshold)
    ensures f.bbWidth[idx].None? && !cfg.useVolFilter ==> CheckFilters(cfg, f, idx)
  {
  }
}
