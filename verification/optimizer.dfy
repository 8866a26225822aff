/**
 * `src/backtest/optimizer.py`: the grid search over strategy parameters.
 * Every combination of the grid is backtested in `itertools.product` order;
 * a combination that raises is skipped, and the first combination with the
 * highest score wins.
 */
module Optimizer {
  import opened Wrappers
  import opened Indicators
  import opened StrategyBase
  import opened MacdEmaBb
  import opened Engine
  import opened Arith

  /** The Python values a parameter grid holds. */
  datatype ParamValue = PInt(i: int) | PReal(r: real) | PBool(b: bool) | PStr(s: string)

  /** One combination, `dict(zip(keys, combo))`. */
  type Params = map<string, ParamValue>

  /** A parameter grid: its keys in insertion order, each with its candidate values. */
  type Grid = seq<(string, seq<ParamValue>)>

  function GridKeys(grid: Grid): (keys: seq<string>)
    ensures |keys| == |grid| && forall k :: 0 <= k < |grid| ==> keys[k] == grid[k].0
  {
    seq(|grid|, k requires 0 <= k < |grid| => grid[k].0)
  }

  function GridValues(grid: Grid): (lists: seq<seq<ParamValue>>)
    ensures |lists| == |grid| && forall k :: 0 <= k < |grid| ==> lists[k] == grid[k].1
  {
    seq(|grid|, k requires 0 <= k < |grid| => grid[k].1)
  }

  // ---------------------------------------------------------------------------
  // itertools.product
  // ---------------------------------------------------------------------------

  /** `[[x] + t for t in ts]`. */
  function PrependAll(x: ParamValue, ts: seq<seq<ParamValue>>): (r: seq<seq<ParamValue>>)
    ensures |r| == |ts| && forall k :: 0 <= k < |ts| ==> r[k] == [x] + ts[k]
  {
    seq(|ts|, k requires 0 <= k < |ts| => [x] + ts[k])
  }

  /** The combinations that take their first value from `xs`, one block per value of `xs`. */
  function Expand(xs: seq<ParamValue>, rest: seq<seq<ParamValue>>): seq<seq<ParamValue>>
  {
    if |xs| == 0 then [] else PrependAll(xs[0], rest) + Expand(xs[1..], rest)
  }

  /** `itertools.product(*lists)`: the first list varies slowest, the last fastest. */
  function Product(lists: seq<seq<ParamValue>>): seq<seq<ParamValue>>
  {
    if |lists| == 0 then [[]] else Expand(lists[0], Product(lists[1..]))
  }

  /** The product of the list lengths. */
  function Size(lists: seq<seq<ParamValue>>): nat
  {
    if |lists| == 0 then 1 else |lists[0]| * Size(lists[1..])
  }

  lemma SizeSuffix(lists: seq<seq<ParamValue>>, k: nat)
    requires k < |lists|
    ensures Size(lists[k..]) == |lists[k]| * Size(lists[k + 1..])
  {
    assert lists[k..][1..] == lists[k + 1..];
  }

  /** One index into each list. */
  predicate Digits(lists: seq<seq<ParamValue>>, d: seq<nat>) {
    |d| == |lists| && forall k :: 0 <= k < |d| ==> d[k] < |lists[k]|
  }

  /** The combination that takes value `d[k]` of list `k`. */
  function Pick(lists: seq<seq<ParamValue>>, d: seq<nat>): (c: seq<ParamValue>)
    requires Digits(lists, d)
    ensures |c| == |lists| && forall k :: 0 <= k < |lists| ==> c[k] == lists[k][d[k]]
  {
    seq(|lists|, k requires 0 <= k < |lists| => lists[k][d[k]])
  }

  /** The position of the combination `Pick(lists, d)`, read as a mixed-radix numeral. */
  function Rank(lists: seq<seq<ParamValue>>, d: seq<nat>): nat
    requires Digits(lists, d)
  {
    if |lists| == 0 then 0 else d[0] * Size(lists[1..]) + Rank(lists[1..], d[1..])
  }

  lemma DigitsCons(lists: seq<seq<ParamValue>>, q: nat, rest: seq<nat>)
    requires |lists| > 0 && q < |lists[0]| && Digits(lists[1..], rest)
    ensures Digits(lists, [q] + rest)
  {
  }

  /** The digits of position `p`. */
  function Unrank(lists: seq<seq<ParamValue>>, p: nat): (d: seq<nat>)
    requires p < Size(lists)
    ensures |d| == |lists|
  {
    if |lists| == 0 then []
    else
      var s := Size(lists[1..]);
      DivBelow(p, |lists[0]|, s);
      [p / s] + Unrank(lists[1..], p % s)
  }

  lemma {:induction false} UnrankDigits(lists: seq<seq<ParamValue>>, p: nat)
    requires p < Size(lists)
    ensures Digits(lists, Unrank(lists, p))
  {
    if |lists| > 0 {
      var s := Size(lists[1..]);
      DivBelow(p, |lists[0]|, s);
      var q: nat, r: nat := p / s, p % s;
      UnrankDigits(lists[1..], r);
      assert Unrank(lists, p) == [q] + Unrank(lists[1..], r);
      DigitsCons(lists, q, Unrank(lists[1..], r));
    }
  }

  lemma {:induction false} RankBelowSize(lists: seq<seq<ParamValue>>, d: seq<nat>)
    requires Digits(lists, d)
    ensures Rank(lists, d) < Size(lists)
  {
    if |lists| > 0 {
      var s := Size(lists[1..]);
      RankBelowSize(lists[1..], d[1..]);
      MulSucc(d[0], s);
      MulMono(d[0] + 1, |lists[0]|, s);
    }
  }

  lemma {:induction false} ExpandLength(xs: seq<ParamValue>, rest: seq<seq<ParamValue>>)
    ensures |Expand(xs, rest)| == |xs| * |rest|
  {
    if |xs| > 0 {
      ExpandLength(xs[1..], rest);
      MulSucc(|xs| - 1, |rest|);
    }
  }

  lemma {:induction false} ExpandAt(xs: seq<ParamValue>, rest: seq<seq<ParamValue>>, q: nat, r: nat)
    requires q < |xs| && r < |rest|
    ensures q * |rest| + r < |Expand(xs, rest)|
    ensures Expand(xs, rest)[q * |rest| + r] == [xs[q]] + rest[r]
  {
    ExpandLength(xs, rest);
    MulSucc(q, |rest|);
    MulMono(q + 1, |xs|, |rest|);
    if q > 0 {
      ExpandAt(xs[1..], rest, q - 1, r);
      MulSucc(q - 1, |rest|);
    }
  }

  /** `itertools.product` yields exactly one combination per choice of one value from each list. */
  lemma {:induction false} ProductLength(lists: seq<seq<ParamValue>>)
    ensures |Product(lists)| == Size(lists)
  {
    if |lists| > 0 {
      ProductLength(lists[1..]);
      ExpandLength(lists[0], Product(lists[1..]));
    }
  }

  lemma PickCons(lists: seq<seq<ParamValue>>, d: seq<nat>)
    requires |lists| > 0 && Digits(lists, d)
    ensures Digits(lists[1..], d[1..])
    ensures Pick(lists, d) == [lists[0][d[0]]] + Pick(lists[1..], d[1..])
  {
  }

  lemma ProductStep(lists: seq<seq<ParamValue>>, q: nat, r: nat)
    requires |lists| > 0 && q < |lists[0]| && r < Size(lists[1..])
    ensures |Product(lists[1..])| == Size(lists[1..])
    ensures q * Size(lists[1..]) + r < |Product(lists)|
    ensures Product(lists)[q * Size(lists[1..]) + r] == [lists[0][q]] + Product(lists[1..])[r]
  {
    ProductLength(lists[1..]);
    ExpandAt(lists[0], Product(lists[1..]), q, r);
  }

  /** The combination at position `p` takes, from each list, the value its mixed-radix digit names. */
  lemma {:induction false} ProductAt(lists: seq<seq<ParamValue>>, p: nat)
    requires p < Size(lists)
    ensures Digits(lists, Unrank(lists, p))
    ensures p < |Product(lists)| && Product(lists)[p] == Pick(lists, Unrank(lists, p))
  {
    UnrankDigits(lists, p);
    if |lists| == 0 {
      ProductLength(lists);
    } else {
      var s := Size(lists[1..]);
      DivBelow(p, |lists[0]|, s);
      DivMod(p, s);
      var q, r := p / s, p % s;
      ProductStep(lists, q, r);
      ProductAt(lists[1..], r);
      var d := Unrank(lists, p);
      PickCons(lists, d);
      assert d[0] == q && d[1..] == Unrank(lists[1..], r);
    }
  }

  lemma {:induction false} RankUnrank(lists: seq<seq<ParamValue>>, p: nat)
    requires p < Size(lists)
    ensures Digits(lists, Unrank(lists, p)) && Rank(lists, Unrank(lists, p)) == p
  {
    UnrankDigits(lists, p);
    if |lists| > 0 {
      var s := Size(lists[1..]);
      DivBelow(p, |lists[0]|, s);
      DivMod(p, s);
      RankUnrank(lists[1..], p % s);
      var d := Unrank(lists, p);
      assert d[0] == p / s && d[1..] == Unrank(lists[1..], p % s);
      assert Rank(lists, d) == d[0] * s + Rank(lists[1..], d[1..]);
    }
  }

  lemma {:induction false} UnrankRank(lists: seq<seq<ParamValue>>, d: seq<nat>)
    requires Digits(lists, d)
    ensures Rank(lists, d) < Size(lists) && Unrank(lists, Rank(lists, d)) == d
  {
    RankBelowSize(lists, d);
    if |lists| > 0 {
      var s := Size(lists[1..]);
      var r := Rank(lists[1..], d[1..]);
      RankBelowSize(lists[1..], d[1..]);
      UnrankRank(lists[1..], d[1..]);
      var p := d[0] * s + r;
      assert p / s == d[0] && p % s == r by {
        DivMulAdd(d[0], s, r);
      }
      assert d == [d[0]] + d[1..];
    }
  }

  /**
   * Each choice of one value from every list is tried exactly once, at the
   * position its digits spell in mixed radix: the first list varies slowest.
   */
  lemma ProductEnumeratesOnce(lists: seq<seq<ParamValue>>, d: seq<nat>)
    requires Digits(lists, d)
    ensures Rank(lists, d) < |Product(lists)| && Product(lists)[Rank(lists, d)] == Pick(lists, d)
    ensures forall p :: 0 <= p < Size(lists) ==> (Unrank(lists, p) == d <==> p == Rank(lists, d))
  {
    UnrankRank(lists, d);
    ProductAt(lists, Rank(lists, d));
    forall p | 0 <= p < Size(lists)
      ensures Unrank(lists, p) == d <==> p == Rank(lists, d)
    {
      RankUnrank(lists, p);
    }
  }

  /** Every combination has one value per key, taken from that key's list. */
  lemma ProductMembers(lists: seq<seq<ParamValue>>, p: nat)
    requires p < |Product(lists)|
    ensures |Product(lists)[p]| == |lists|
    ensures forall k :: 0 <= k < |lists| ==> Product(lists)[p][k] in lists[k]
  {
    ProductLength(lists);
    ProductAt(lists, p);
  }

  // ---------------------------------------------------------------------------
  // Parameters
  // ---------------------------------------------------------------------------

  function Min(a: nat, b: nat): nat {
    if a <= b then a else b
  }

  /** The first `n` keys paired with the first `n` values; a repeated key keeps its later value. */
  function ZipPrefix(keys: seq<string>, combo: seq<ParamValue>, n: nat): Params
    requires n <= |keys| && n <= |combo|
  {
    if n == 0 then map[] else ZipPrefix(keys, combo, n - 1)[keys[n - 1] := combo[n - 1]]
  }

  /** The zipped keys are those of the prefix, and a key's entry is its last value there. */
  lemma {:induction false} ZipPrefixEntries(keys: seq<string>, combo: seq<ParamValue>, n: nat)
    requires n <= |keys| && n <= |combo|
    ensures forall key :: key in ZipPrefix(keys, combo, n) <==> exists j :: 0 <= j < n && keys[j] == key
    ensures forall j :: 0 <= j < n && (forall m :: j < m < n ==> keys[m] != keys[j]) ==>
      keys[j] in ZipPrefix(keys, combo, n) && ZipPrefix(keys, combo, n)[keys[j]] == combo[j]
  {
    if n > 0 {
      ZipPrefixEntries(keys, combo, n - 1);
      var prev := ZipPrefix(keys, combo, n - 1);
      assert ZipPrefix(keys, combo, n) == prev[keys[n - 1] := combo[n - 1]];
    }
  }

  /** `dict(zip(keys, combo))`: `zip` stops at the shorter sequence. */
  function ZipParams(keys: seq<string>, combo: seq<ParamValue>): Params {
    ZipPrefix(keys, combo, Min(|keys|, |combo|))
  }

  /** `params.get(key, default)`. */
  function Get(params: Params, key: string, default: ParamValue): ParamValue {
    if key in params then params[key] else default
  }

  /** A value an `int` field of `StrategyConfig` accepts. */
  function AsInt(v: ParamValue): Option<int> {
    if v.PInt? then Some(v.i) else None
  }

  /** A value a `float` field accepts: a float, or an int taken as a float. */
  function AsReal(v: ParamValue): Option<real> {
    match v
    case PReal(r) => Some(r)
    case PInt(i) => Some(i as real)
    case _ => None
  }

  /** A value a `bool` field accepts. */
  function AsBool(v: ParamValue): Option<bool> {
    if v.PBool? then Some(v.b) else None
  }

  /** Every key `_params_to_config` reads holds a value of its field's type, or is absent. */
  predicate WellTyped(params: Params) {
    && AsInt(Get(params, "ema_period", PInt(100))).Some?
    && AsReal(Get(params, "bb_std", PReal(2.0))).Some?
    && AsReal(Get(params, "atr_sl_mult", PReal(1.5))).Some?
    && AsReal(Get(params, "rr_ratio", PReal(2.0))).Some?
    && AsInt(Get(params, "qml_order", PInt(3))).Some?
    && AsInt(Get(params, "qml_recency", PInt(20))).Some?
    && AsBool(Get(params, "use_vol_filter", PBool(false))).Some?
    && AsReal(Get(params, "squeeze_threshold", PReal(1.0))).Some?
    && AsBool(Get(params, "use_qml", PBool(false))).Some?
    && AsBool(Get(params, "use_qml_extreme_sl", PBool(false))).Some?
  }

  /**
   * `_params_to_config`: ten fields are read from the combination, each with
   * its own default; every other field keeps the `StrategyConfig` default. A
   * value of the wrong type makes the combination fail.
   */
  function ParamsToConfig(params: Params): (cfg: Option<StrategyConfig>)
    ensures cfg.Some? <==> WellTyped(params)
    ensures cfg.Some? ==>
      && cfg.value.macdFast == DefaultConfig.macdFast && cfg.value.macdSlow == DefaultConfig.macdSlow
      && cfg.value.macdSignal == DefaultConfig.macdSignal && cfg.value.bbPeriod == DefaultConfig.bbPeriod
      && cfg.value.atrPeriod == DefaultConfig.atrPeriod && cfg.value.volFilterMult == DefaultConfig.volFilterMult
      && cfg.value.volPeriod == DefaultConfig.volPeriod
    ensures cfg.Some? ==>
      && Some(cfg.value.emaPeriod) == AsInt(Get(params, "ema_period", PInt(DefaultConfig.emaPeriod)))
      && Some(cfg.value.bbStd) == AsReal(Get(params, "bb_std", PReal(DefaultConfig.bbStd)))
      && Some(cfg.value.atrSlMult) == AsReal(Get(params, "atr_sl_mult", PReal(DefaultConfig.atrSlMult)))
      && Some(cfg.value.rrRatio) == AsReal(Get(params, "rr_ratio", PReal(DefaultConfig.rrRatio)))
      && Some(cfg.value.qmlOrder) == AsInt(Get(params, "qml_order", PInt(DefaultConfig.qmlOrder)))
      && Some(cfg.value.qmlRecency) == AsInt(Get(params, "qml_recency", PInt(DefaultConfig.qmlRecency)))
      && Some(cfg.value.useVolFilter) == AsBool(Get(params, "use_vol_filter", PBool(DefaultConfig.useVolFilter)))
      && Some(cfg.value.squeezeThreshold) == AsReal(Get(params, "squeeze_threshold", PReal(DefaultConfig.squeezeThreshold)))
      && Some(cfg.value.useQml) == AsBool(Get(params, "use_qml", PBool(DefaultConfig.useQml)))
      && Some(cfg.value.useQmlExtremeSl) == AsBool(Get(params, "use_qml_extreme_sl", PBool(DefaultConfig.useQmlExtremeSl)))
  {
    if !WellTyped(params) then None
    else
      Some(DefaultConfig.(
        emaPeriod := AsInt(Get(params, "ema_period", PInt(100))).value,
        bbStd := AsReal(Get(params, "bb_std", PReal(2.0))).value,
        atrSlMult := AsReal(Get(params, "atr_sl_mult", PReal(1.5))).value,
        rrRatio := AsReal(Get(params, "rr_ratio", PReal(2.0))).value,
        qmlOrder := AsInt(Get(params, "qml_order", PInt(3))).value,
        qmlRecency := AsInt(Get(params, "qml_recency", PInt(20))).value,
        useVolFilter := AsBool(Get(params, "use_vol_filter", PBool(false))).value,
        squeezeThreshold := AsReal(Get(params, "squeeze_threshold", PReal(1.0))).value,
        useQml := AsBool(Get(params, "use_qml", PBool(false))).value,
        useQmlExtremeSl := AsBool(Get(params, "use_qml_extreme_sl", PBool(false))).value))
  }

  /** An empty combination is the default configuration. */
  lemma EmptyParamsAreDefault()
    ensures ParamsToConfig(map[]) == Some(DefaultConfig)
  {
  }

  /**
   * The indicator periods `run` hands to `calculate_indicators`: the EMA
   * period, band width, ATR and volume periods of the configuration, and the
   * function's own defaults for the rest.
   */
  function SearchIndicatorParams(cfg: StrategyConfig): (p: IndicatorParams)
    ensures p.emaPeriod == cfg.emaPeriod && p.bbStd == cfg.bbStd && p.atrPeriod == cfg.atrPeriod && p.volPeriod == cfg.volPeriod
    ensures p.macdFast == 12 && p.macdSlow == 26 && p.macdSignal == 9 && p.bbPeriod == 20
    ensures ParamsToConfig(map[]) == Some(cfg) ==> p == IndicatorParamsOf(cfg)
  {
    DefaultIndicatorParams.(emaPeriod := cfg.emaPeriod, bbStd := cfg.bbStd,
      atrPeriod := cfg.atrPeriod, volPeriod := cfg.volPeriod)
  }

  /** The defaults left in place by `_params_to_config` agree with those of `calculate_indicators`. */
  lemma SearchIndicatorParamsAgree(params: Params)
    requires ParamsToConfig(params).Some?
    ensures SearchIndicatorParams(ParamsToConfig(params).value) == IndicatorParamsOf(ParamsToConfig(params).value)
  {
    DefaultConfigIsValid();
  }

  // ---------------------------------------------------------------------------
  // Scoring
  // ---------------------------------------------------------------------------

  /** `getattr(result, metric)` for the numeric fields of `BacktestResult`; any other name raises. */
  function MetricValue(r: BacktestResult, metric: string): Option<real> {
    if metric == "total_pnl_pct" then Some(r.totalPnlPct)
    else if metric == "win_rate" then Some(r.winRate)
    else if metric == "num_trades" then Some(r.numTrades as real)
    else if metric == "avg_pnl" then Some(r.avgPnl)
    else if metric == "max_drawdown" then Some(r.maxDrawdown)
    else None
  }

  /**
   * `_calculate_score`: the metric, less a penalty of 1000 when the backtest
   * made fewer than `minTrades` trades.
   */
  function CalculateScore(r: BacktestResult, metric: string, minTrades: int): (score: Option<real>)
    ensures score.Some? <==> MetricValue(r, metric).Some?
    ensures score.Some? ==> score.value <= MetricValue(r, metric).value
    ensures score.Some? ==> (score.value == MetricValue(r, metric).value <==> r.numTrades >= minTrades)
    ensures score.Some? && r.numTrades < minTrades ==> score.value == MetricValue(r, metric).value - 1000.0
  {
    var v := MetricValue(r, metric);
    if v.None? then None
    else if r.numTrades < minTrades then Some(v.value - 1000.0)
    else Some(v.value)
  }

  /**
   * With the metrics less than 1000 apart, a backtest with too few trades
   * scores below one with enough.
   */
  lemma PenaltyRanksBelow(r1: BacktestResult, r2: BacktestResult, metric: string, minTrades: int)
    requires MetricValue(r1, metric).Some? && MetricValue(r2, metric).Some?
    requires MetricValue(r1, metric).value - MetricValue(r2, metric).value < 1000.0
    requires r1.numTrades < minTrades <= r2.numTrades
    ensures CalculateScore(r1, metric, minTrades).value < CalculateScore(r2, metric, minTrades).value
  {
  }

  // ---------------------------------------------------------------------------
  // One combination
  // ---------------------------------------------------------------------------

  /**
   * Where the bars come from: `fetch_data_fn(symbol, interval, limit)`, which
   * may raise, and the rolling standard deviation of the closes over a window,
   * which the Bollinger bands are built on.
   */
  datatype DataSource = DataSource(
    fetch: (string, ParamValue, int) -> Result<Bars, string>,
    stdev: (seq<real>, int) -> seq<Option<real>>)

  /** What `run` keeps of a combination that completed. */
  datatype Trial = Trial(params: Params, score: real, result: BacktestResult, frame: Frame)

  /** An entry of `all_results`: the combination, its score and `result.to_dict()`. */
  datatype Entry = Entry(
    params: Params, score: real,
    totalPnlPct: real, winRate: real, numTrades: nat, avgPnl: real, maxDrawdown: real)

  function EntryOf(o: Trial): (e: Entry)
    ensures e.params == o.params && e.score == o.score && e.numTrades == o.result.numTrades
    ensures e.totalPnlPct == o.result.totalPnlPct && e.winRate == o.result.winRate
    ensures e.avgPnl == o.result.avgPnl && e.maxDrawdown == o.result.maxDrawdown
  {
    Entry(o.params, o.score, o.result.totalPnlPct, o.result.winRate, o.result.numTrades,
      o.result.avgPnl, o.result.maxDrawdown)
  }

  function EntriesOf(os: seq<Trial>): (es: seq<Entry>)
    ensures |es| == |os| && forall j :: 0 <= j < |os| ==> es[j] == EntryOf(os[j])
  {
    seq(|os|, j requires 0 <= j < |os| => EntryOf(os[j]))
  }

  /**
   * The first half of the `try` block for one combination: fetch the bars,
   * build the configuration and compute the indicators. `Failure` is an
   * exception, which `run` catches.
   */
  function Prepare(source: DataSource, symbol: string, totalBars: int, params: Params)
    : (r: Result<(StrategyConfig, Frame), string>)
    ensures r.Success? ==> ParamsToConfig(params) == Some(r.value.0) && QmlOrderValid(r.value.0)
    ensures r.Success? ==> r.value.1.WellFormed() && ClosesNonZero(r.value.1)
    ensures var fetched := source.fetch(symbol, Get(params, "interval", PStr("1h")), totalBars);
      && (fetched.Failure? ==> r == Failure(fetched.error))
      && (ParamsToConfig(params).None? ==> r.Failure?)
      && (r.Success? ==>
            var bars, p := fetched.value, SearchIndicatorParams(r.value.0);
            var std := source.stdev(bars.close, p.bbPeriod);
            && bars.WellFormed() && ValidParams(p) && |std| == bars.Length()
            && r.value.1 == CalculateIndicators(bars, p, std))
  {
    var fetched := source.fetch(symbol, Get(params, "interval", PStr("1h")), totalBars);
    if fetched.Failure? then Failure(fetched.error)
    else
      var bars := fetched.value;
      var config := ParamsToConfig(params);
      if !bars.WellFormed() then Failure("columns of different lengths")
      else if config.None? then Failure("parameter of the wrong type")
      else
        var cfg := config.value;
        var p := SearchIndicatorParams(cfg);
        var std := source.stdev(bars.close, p.bbPeriod);
        if !ValidParams(p) || !QmlOrderValid(cfg) then Failure("period below one")
        else if |std| != bars.Length() then Failure("standard deviation of the wrong length")
        else
          var f := CalculateIndicators(bars, p, std);
          if !ClosesNonZero(f) then Failure("zero close") else Success((cfg, f))
  }

  /**
   * The whole `try` block for one combination: prepare, backtest with the
   * trailing stop on, and score the result.
   */
  function Evaluate(source: DataSource, minTrades: int, metric: string, symbol: string, totalBars: int, params: Params)
    : (r: Result<Trial, string>)
    ensures r.Success? ==> r.value.params == params && Prepare(source, symbol, totalBars, params).Success?
    ensures r.Success? ==> Some(r.value.score) == CalculateScore(r.value.result, metric, minTrades)
    ensures var prepared := Prepare(source, symbol, totalBars, params);
      prepared.Success? ==>
        var cfg, f := prepared.value.0, prepared.value.1;
        var st := Simulate(cfg, true, f, NoMemory, 100, f.Length());
        var result := CalculateStats(st.trades, st.equity);
        && (r.Success? <==> CalculateScore(result, metric, minTrades).Some?)
        && (r.Success? ==> r.value.result == result && r.value.frame == f)
    ensures Prepare(source, symbol, totalBars, params).Failure? ==>
      r == Failure(Prepare(source, symbol, totalBars, params).error)
  {
    var prepared := Prepare(source, symbol, totalBars, params);
    if prepared.Failure? then Failure(prepared.error)
    else
      var cfg := prepared.value.0;
      var f := prepared.value.1;
      var st := Simulate(cfg, true, f, NoMemory, 100, f.Length());
      var result := CalculateStats(st.trades, st.equity);
      var score := CalculateScore(result, metric, minTrades);
      if score.None? then Failure("unknown metric") else Success(Trial(params, score.value, result, f))
  }

  // ---------------------------------------------------------------------------
  // The search
  // ---------------------------------------------------------------------------

  /** What each combination of `combos` comes to, in order. */
  function Attempts(source: DataSource, minTrades: int, metric: string, symbol: string, totalBars: int,
                    keys: seq<string>, combos: seq<seq<ParamValue>>): (attempts: seq<Result<Trial, string>>)
    ensures |attempts| == |combos|
  {
    seq(|combos|, i requires 0 <= i < |combos| =>
      Evaluate(source, minTrades, metric, symbol, totalBars, ZipParams(keys, combos[i])))
  }

  /** The attempts that completed, in order: the combinations `all_results` lists. */
  function Completed(attempts: seq<Result<Trial, string>>): (os: seq<Trial>)
    ensures |os| <= |attempts|
    ensures |os| == 0 <==> forall i :: 0 <= i < |attempts| ==> attempts[i].Failure?
  {
    if |attempts| == 0 then []
    else
      var last := attempts[|attempts| - 1];
      Completed(attempts[..|attempts| - 1]) + (if last.Success? then [last.value] else [])
  }

  /**
   * The position of the best trial as `run` tracks it: a trial replaces
   * the best so far only when its score is strictly greater, and the first
   * trial beats the initial score of minus infinity.
   */
  function BestIndex(os: seq<Trial>): (b: Option<nat>)
    ensures b.Some? ==> b.value < |os|
  {
    if |os| == 0 then None
    else
      var b := BestIndex(os[..|os| - 1]);
      if b.None? || os[|os| - 1].score > os[b.value].score then Some(|os| - 1) else b
  }

  lemma AttemptsStep(source: DataSource, minTrades: int, metric: string, symbol: string, totalBars: int,
                     keys: seq<string>, combos: seq<seq<ParamValue>>, i: nat)
    requires i < |combos|
    ensures Attempts(source, minTrades, metric, symbol, totalBars, keys, combos[..i + 1])
      == Attempts(source, minTrades, metric, symbol, totalBars, keys, combos[..i])
        + [Evaluate(source, minTrades, metric, symbol, totalBars, ZipParams(keys, combos[i]))]
  {
  }

  lemma AttemptsOfOne(source: DataSource, minTrades: int, metric: string, symbol: string, totalBars: int,
                      keys: seq<string>, combo: seq<ParamValue>)
    ensures Attempts(source, minTrades, metric, symbol, totalBars, keys, [combo])
      == [Evaluate(source, minTrades, metric, symbol, totalBars, ZipParams(keys, combo))]
  {
  }

  lemma CompletedAppend(attempts: seq<Result<Trial, string>>, trial: Result<Trial, string>)
    ensures Completed(attempts + [trial]) == Completed(attempts) + (if trial.Success? then [trial.value] else [])
  {
    assert (attempts + [trial])[..|attempts|] == attempts;
  }

  lemma BestIndexAppend(os: seq<Trial>, o: Trial)
    ensures BestIndex(os + [o]) ==
      if BestIndex(os).None? || o.score > os[BestIndex(os).value].score then Some(|os|) else BestIndex(os)
  {
    assert (os + [o])[..|os|] == os;
  }

  /** `b` holds the highest score, and no earlier trial reaches it. */
  predicate FirstMaximum(os: seq<Trial>, b: nat) {
    && b < |os|
    && (forall j :: 0 <= j < |os| ==> os[j].score <= os[b].score)
    && (forall j :: 0 <= j < b ==> os[j].score < os[b].score)
  }

  /**
   * The best trial is the first one with the highest score: a later tie
   * does not replace it, and there is one exactly when some combination
   * completed.
   */
  lemma {:induction false} BestIsFirstMaximum(os: seq<Trial>)
    ensures BestIndex(os).Some? <==> |os| > 0
    ensures BestIndex(os).Some? ==> FirstMaximum(os, BestIndex(os).value)
    ensures forall c: nat :: FirstMaximum(os, c) ==> BestIndex(os) == Some(c)
  {
    if |os| > 0 {
      var init := os[..|os| - 1];
      var last := os[|os| - 1];
      BestIsFirstMaximum(init);
      var b := BestIndex(init);
      if b.Some? {
        assert FirstMaximum(init, b.value);
        assert forall j :: 0 <= j < |init| ==> init[j] == os[j];
      }
      forall c: nat | FirstMaximum(os, c)
        ensures BestIndex(os) == Some(c)
      {
        if c < |os| - 1 {
          assert FirstMaximum(init, c) by {
            assert forall j :: 0 <= j < |init| ==> init[j] == os[j];
          }
        }
      }
    }
  }

  /** `OptimizationResult`. */
  datatype OptimizationResult = OptimizationResult(
    bestParams: Params, bestResult: BacktestResult, bestFrame: Frame, allResults: seq<Entry>)

  /** What `run` returns once every combination has been attempted. */
  function SearchResult(attempts: seq<Result<Trial, string>>): Result<OptimizationResult, string>
  {
    var os := Completed(attempts);
    var b := BestIndex(os);
    if b.None? then Failure("No valid results found during optimization")
    else Success(OptimizationResult(os[b.value].params, os[b.value].result, os[b.value].frame, EntriesOf(os)))
  }

  /**
   * The search fails exactly when every combination raised; otherwise it
   * reports every completed combination in grid order and, as the best, the
   * first one with the highest score.
   */
  lemma SearchResultIsFirstBest(attempts: seq<Result<Trial, string>>)
    ensures SearchResult(attempts).Failure? <==> forall i :: 0 <= i < |attempts| ==> attempts[i].Failure?
    ensures SearchResult(attempts).Success? ==>
      var os := Completed(attempts);
      var r := SearchResult(attempts).value;
      && r.allResults == EntriesOf(os)
      && exists b: nat :: FirstMaximum(os, b) && r.bestParams == os[b].params && r.bestResult == os[b].result
  {
    var os := Completed(attempts);
    BestIsFirstMaximum(os);
    if BestIndex(os).Some? {
      var b := BestIndex(os).value;
      assert FirstMaximum(os, b);
    }
  }

  /** A search over one combination reports that combination, or fails with it. */
  lemma SingleAttempt(a: Result<Trial, string>)
    ensures SearchResult([a]).Success? <==> a.Success?
    ensures a.Success? ==>
      SearchResult([a]) == Success(OptimizationResult(a.value.params, a.value.result, a.value.frame, [EntryOf(a.value)]))
  {
    assert [a][..0] == [];
    assert Completed([a]) == if a.Success? then [a.value] else [];
    if a.Success? {
      assert BestIndex([a.value]) == Some(0);
      assert EntriesOf([a.value]) == [EntryOf(a.value)];
    }
  }

  /** The state `run` keeps between combinations, against the attempts so far. */
  predicate Tracks(attempts: seq<Result<Trial, string>>, allResults: seq<Entry>, bestScore: Option<real>, best: Option<Trial>) {
    var os := Completed(attempts);
    && allResults == EntriesOf(os)
    && (best.None? <==> BestIndex(os).None?)
    && (best.Some? ==> best.value == os[BestIndex(os).value])
    && bestScore == (if best.Some? then Some(best.value.score) else None)
  }

  lemma EntriesAppend(os: seq<Trial>, o: Trial)
    ensures EntriesOf(os + [o]) == EntriesOf(os) + [EntryOf(o)]
  {
  }

  /**
   * The end of the loop body for one attempt: a completed combination is
   * appended to `all_results` and replaces the best only with a strictly
   * greater score. `None` stands for the initial best score `float("-inf")`.
   */
  method Consider(trial: Result<Trial, string>, ghost attempts: seq<Result<Trial, string>>,
                  allResults: seq<Entry>, bestScore: Option<real>, best: Option<Trial>)
    returns (allResults': seq<Entry>, bestScore': Option<real>, best': Option<Trial>)
    requires Tracks(attempts, allResults, bestScore, best)
    ensures Tracks(attempts + [trial], allResults', bestScore', best')
  {
    CompletedAppend(attempts, trial);
    ghost var os := Completed(attempts);
    allResults', bestScore', best' := allResults, bestScore, best;
    if trial.Failure? {
      assert Completed(attempts + [trial]) == os;
    } else {
      var o := trial.value;
      assert Completed(attempts + [trial]) == os + [o];
      BestIndexAppend(os, o);
      EntriesAppend(os, o);
      allResults' := allResults + [EntryOf(o)];
      if bestScore.None? || o.score > bestScore.value {
        bestScore' := Some(o.score);
        best' := Some(o);
        assert BestIndex(os + [o]) == Some(|os|);
      } else {
        assert (os + [o])[BestIndex(os).value] == os[BestIndex(os).value];
      }
    }
  }

  /** `GridSearchOptimizer.DEFAULT_PARAM_GRID`. */
  const DefaultParamGrid: Grid := [
    ("interval", [PStr("1h")]),
    ("ema_period", [PInt(50), PInt(100), PInt(200)]),
    ("bb_std", [PReal(1.5), PReal(2.0), PReal(2.5)]),
    ("atr_sl_mult", [PReal(1.0), PReal(1.5), PReal(2.0)]),
    ("rr_ratio", [PReal(1.5), PReal(2.0), PReal(2.5)]),
    ("qml_order", [PInt(3), PInt(5)]),
    ("qml_recency", [PInt(15), PInt(20), PInt(30)]),
    ("use_vol_filter", [PBool(false), PBool(true)]),
    ("squeeze_threshold", [PReal(0.5), PReal(1.0), PReal(1.5)]),
    ("use_qml", [PBool(false)]),
    ("use_qml_extreme_sl", [PBool(false)])
  ]

  /** The default grid holds 2916 combinations. */
  lemma DefaultGridSize()
    ensures |Product(GridValues(DefaultParamGrid))| == 2916
  {
    var lists := GridValues(DefaultParamGrid);
    ProductLength(lists);
    assert Size(lists[11..]) == 1;
    SizeSuffix(lists, 10);
    SizeSuffix(lists, 9);
    SizeSuffix(lists, 8);
    SizeSuffix(lists, 7);
    SizeSuffix(lists, 6);
    SizeSuffix(lists, 5);
    SizeSuffix(lists, 4);
    SizeSuffix(lists, 3);
    SizeSuffix(lists, 2);
    SizeSuffix(lists, 1);
    SizeSuffix(lists, 0);
    assert lists[0..] == lists;
  }

  class GridSearchOptimizer {
    const source: DataSource
    const paramGrid: Grid
    const minTrades: int
    const metric: string

    /** `param_grid or DEFAULT_PARAM_GRID`: a missing or empty grid means the default one. */
    constructor(source: DataSource, paramGrid: Option<Grid>, minTrades: int, metric: string)
      ensures this.source == source && this.minTrades == minTrades && this.metric == metric
      ensures this.paramGrid == if paramGrid.None? || |paramGrid.value| == 0 then DefaultParamGrid else paramGrid.value
    {
      this.source := source;
      this.paramGrid := if paramGrid.None? || |paramGrid.value| == 0 then DefaultParamGrid else paramGrid.value;
      this.minTrades := minTrades;
      this.metric := metric;
    }

    /** One pass of the `try` block. */
    method TryParams(symbol: string, totalBars: int, params: Params) returns (r: Result<Trial, string>)
      ensures r == Evaluate(source, minTrades, metric, symbol, totalBars, params)
    {
      var prepared := Prepare(source, symbol, totalBars, params);
      if prepared.Failure? {
        return Failure(prepared.error);
      }
      var cfg := prepared.value.0;
      var f := prepared.value.1;
      var strategy := new MacdEmaBbStrategy(cfg);
      var engine := new BacktestEngine(strategy, true);
      var result := engine.Run(f, 100);
      var score := CalculateScore(result, metric, minTrades);
      if score.None? {
        return Failure("unknown metric");
      }
      r := Success(Trial(params, score.value, result, f));
    }

    /**
     * `run`: every combination of the grid in `itertools.product` order; the
     * ones that raise are skipped, the others are appended to `all_results`,
     * and the first with the highest score is the best. With no completed
     * combination the search fails.
     */
    method Run(symbol: string, totalBars: int) returns (r: Result<OptimizationResult, string>)
      ensures r == SearchResult(Attempts(source, minTrades, metric, symbol, totalBars,
        GridKeys(paramGrid), Product(GridValues(paramGrid))))
    {
      var keys := GridKeys(paramGrid);
      var combos := Product(GridValues(paramGrid));
      var bestScore: Option<real> := None;
      var best: Option<Trial> := None;
      var allResults: seq<Entry> := [];
      ghost var attempts: seq<Result<Trial, string>> := [];
      for i := 0 to |combos|
        invariant attempts == Attempts(source, minTrades, metric, symbol, totalBars, keys, combos[..i])
        invariant Tracks(attempts, allResults, bestScore, best)
      {
        var trial := TryParams(symbol, totalBars, ZipParams(keys, combos[i]));
        AttemptsStep(source, minTrades, metric, symbol, totalBars, keys, combos, i);
        allResults, bestScore, best := Consider(trial, attempts, allResults, bestScore, best);
        attempts := attempts + [trial];
      }
      assert combos[..|combos|] == combos;
      if best.None? {
        return Failure("No valid results found during optimization");
      }
      r := Success(OptimizationResult(best.value.params, best.value.result, best.value.frame, allResults));
    }
  }

  /** `quick_optimize`'s grid: one value per key. */
  const QuickGrid: Grid := [
    ("interval", [PStr("1h")]),
    ("ema_period", [PInt(100)]),
    ("bb_std", [PReal(2.0)]),
    ("atr_sl_mult", [PReal(1.5)]),
    ("rr_ratio", [PReal(2.0)]),
    ("qml_order", [PInt(3)]),
    ("qml_recency", [PInt(20)]),
    ("use_vol_filter", [PBool(false)]),
    ("squeeze_threshold", [PReal(1.0)]),
    ("use_qml", [PBool(false)]),
    ("use_qml_extreme_sl", [PBool(false)])
  ]

  /** A grid of one value per key has one combination. */
  lemma {:induction false} SingletonsSize(lists: seq<seq<ParamValue>>)
    requires forall k :: 0 <= k < |lists| ==> |lists[k]| == 1
    ensures Size(lists) == 1
  {
    if |lists| > 0 {
      SingletonsSize(lists[1..]);
    }
  }

  /** The keys both grids use, in their order. */
  const SearchKeys: seq<string> := [
    "interval", "ema_period", "bb_std", "atr_sl_mult", "rr_ratio", "qml_order",
    "qml_recency", "use_vol_filter", "squeeze_threshold", "use_qml", "use_qml_extreme_sl"]

  /** The one value of each key in the quick grid. */
  const QuickValues: seq<ParamValue> := [
    PStr("1h"), PInt(100), PReal(2.0), PReal(1.5), PReal(2.0), PInt(3),
    PInt(20), PBool(false), PReal(1.0), PBool(false), PBool(false)]

  /** The quick grid has the one combination `QuickValues`. */
  lemma QuickGridCombination()
    ensures GridKeys(QuickGrid) == SearchKeys
    ensures Product(GridValues(QuickGrid)) == [QuickValues]
  {
    var lists := GridValues(QuickGrid);
    SingletonsSize(lists);
    ProductLength(lists);
    ProductMembers(lists, 0);
    var c := Product(lists)[0];
    assert forall k :: 0 <= k < |lists| ==> c[k] == lists[k][0] == QuickValues[k];
    assert c == QuickValues;
    assert Product(lists) == [c];
  }

  /** `quick_optimize`: the search over the quick grid with the default minimum and metric. */
  method QuickOptimize(source: DataSource, symbol: string, totalBars: int) returns (r: Result<OptimizationResult, string>)
    ensures var a := Evaluate(source, 10, "total_pnl_pct", symbol, totalBars, ZipParams(SearchKeys, QuickValues));
      && (r.Success? <==> a.Success?)
      && (r.Success? ==> r.value.allResults == [EntryOf(a.value)] && r.value.bestParams == ZipParams(SearchKeys, QuickValues))
  {
    var optimizer := new GridSearchOptimizer(source, Some(QuickGrid), 10, "total_pnl_pct");
    r := optimizer.Run(symbol, totalBars);
    QuickGridCombination();
    AttemptsOfOne(source, 10, "total_pnl_pct", symbol, totalBars, SearchKeys, QuickValues);
    SingleAttempt(Evaluate(source, 10, "total_pnl_pct", symbol, totalBars, ZipParams(SearchKeys, QuickValues)));
  }
}
