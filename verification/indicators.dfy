/**
 * The indicator pipeline of `src/core/indicators.py`.
 *
 * pandas' `ewm(span=p, adjust=False)` and `rolling(p).mean()` are replaced by
 * functions that state their semantics: the EMA is the recurrence seeded with
 * the first value, a rolling mean is NaN (`None`) until its window holds `p`
 * defined values and is the window average afterwards.
 */
module Indicators {
  import opened Wrappers
  import opened Floats

  /** The raw OHLCV columns of a candle frame, one entry per bar. */
  datatype Bars = Bars(open: seq<real>, high: seq<real>, low: seq<real>, close: seq<real>, volume: seq<real>)
  {
    predicate WellFormed() {
      |open| == |close| && |high| == |close| && |low| == |close| && |volume| == |close|
    }

    function Length(): nat {
      |close|
    }
  }

  /** A frame after `calculate_indicators`: the bars plus one column per indicator. */
  datatype Frame = Frame(
    bars: Bars,
    ema: seq<real>,
    macd: seq<real>,
    signal: seq<real>,
    macdHist: seq<real>,
    bbUpper: seq<Option<real>>,
    bbMid: seq<Option<real>>,
    bbLower: seq<Option<real>>,
    bbWidth: seq<Option<real>>,
    atr: seq<Option<real>>,
    volAvg: seq<Option<real>>)
  {
    predicate WellFormed() {
      && bars.WellFormed()
      && |ema| == |bars.close| && |macd| == |bars.close| && |signal| == |bars.close|
      && |macdHist| == |bars.close|
      && |bbUpper| == |bars.close| && |bbMid| == |bars.close| && |bbLower| == |bars.close|
      && |bbWidth| == |bars.close| && |atr| == |bars.close| && |volAvg| == |bars.close|
    }

    function Length(): nat {
      |bars.close|
    }
  }

  // ---------------------------------------------------------------- EMA

  /** The smoothing factor of `ewm(span=period)`. */
  function Alpha(period: int): (a: real)
    requires period >= 1
    ensures 0.0 < a <= 1.0
  {
    var d := period as real + 1.0;
    assert d >= 2.0;
    assert 2.0 / d <= 1.0 by {
      assert 2.0 / d * d == 2.0;
    }
    2.0 / d
  }

  function EmaAt(xs: seq<real>, period: int, i: nat): real
    requires period >= 1 && i < |xs|
  {
    if i == 0 then xs[0]
    else Alpha(period) * xs[i] + (1.0 - Alpha(period)) * EmaAt(xs, period, i - 1)
  }

  /** `series.ewm(span=period, adjust=False).mean()`. */
  function Ema(xs: seq<real>, period: int): (r: seq<real>)
    requires period >= 1
    ensures |r| == |xs|
    ensures |xs| > 0 ==> r[0] == xs[0]
    ensures forall i :: 0 < i < |xs| ==> r[i] == Alpha(period) * xs[i] + (1.0 - Alpha(period)) * r[i - 1]
  {
    seq(|xs|, i requires 0 <= i < |xs| => EmaAt(xs, period, i))
  }

  lemma ConvexBetween(a: real, x: real, y: real, lo: real, hi: real)
    requires 0.0 <= a <= 1.0
    requires lo <= x <= hi && lo <= y <= hi
    ensures lo <= a * x + (1.0 - a) * y <= hi
  {
    assert a * (x - lo) >= 0.0;
    assert (1.0 - a) * (y - lo) >= 0.0;
    assert a * (hi - x) >= 0.0;
    assert (1.0 - a) * (hi - y) >= 0.0;
  }

  lemma {:induction false} EmaAtBounded(xs: seq<real>, period: int, i: nat, lo: real, hi: real)
    requires period >= 1 && i < |xs|
    requires forall j :: 0 <= j <= i ==> lo <= xs[j] <= hi
    ensures lo <= EmaAt(xs, period, i) <= hi
  {
    if i > 0 {
      EmaAtBounded(xs, period, i - 1, lo, hi);
      ConvexBetween(Alpha(period), xs[i], EmaAt(xs, period, i - 1), lo, hi);
    }
  }

  /** Every EMA value is a convex combination of the inputs seen so far. */
  lemma EmaWithinRange(xs: seq<real>, period: int, lo: real, hi: real)
    requires period >= 1
    requires forall j :: 0 <= j < |xs| ==> lo <= xs[j] <= hi
    ensures forall i :: 0 <= i < |xs| ==> lo <= Ema(xs, period)[i] <= hi
  {
    forall i | 0 <= i < |xs|
      ensures lo <= Ema(xs, period)[i] <= hi
    {
      EmaAtBounded(xs, period, i, lo, hi);
    }
  }

  /** The EMA of a constant series is that constant. */
  lemma EmaOfConstant(xs: seq<real>, period: int, c: real)
    requires period >= 1
    requires forall j :: 0 <= j < |xs| ==> xs[j] == c
    ensures forall i :: 0 <= i < |xs| ==> Ema(xs, period)[i] == c
  {
    EmaWithinRange(xs, period, c, c);
  }

  /** No look-ahead: the EMA at `i` depends only on the inputs up to `i`. */
  lemma {:induction false} EmaCausal(xs: seq<real>, ys: seq<real>, period: int, i: nat)
    requires period >= 1 && i < |xs| && i < |ys|
    requires xs[..i + 1] == ys[..i + 1]
    ensures EmaAt(xs, period, i) == EmaAt(ys, period, i)
  {
    assert xs[i] == xs[..i + 1][i] == ys[..i + 1][i] == ys[i];
    if i > 0 {
      assert xs[..i] == xs[..i + 1][..i] == ys[..i + 1][..i] == ys[..i];
      EmaCausal(xs, ys, period, i - 1);
    }
  }

  // ------------------------------------------------------- rolling means

  function Sum(xs: seq<real>): real {
    if |xs| == 0 then 0.0 else Sum(xs[..|xs| - 1]) + xs[|xs| - 1]
  }

  predicate AllDefined(w: seq<Option<real>>) {
    forall k :: 0 <= k < |w| ==> w[k].Some?
  }

  function Values(w: seq<Option<real>>): (r: seq<real>)
    requires AllDefined(w)
    ensures |r| == |w|
    ensures forall k :: 0 <= k < |w| ==> w[k] == Some(r[k])
  {
    seq(|w|, k requires 0 <= k < |w| => w[k].value)
  }

  /** A column without NaN. */
  function Lift(xs: seq<real>): (r: seq<Option<real>>)
    ensures |r| == |xs|
    ensures forall k :: 0 <= k < |xs| ==> r[k] == Some(xs[k])
  {
    seq(|xs|, k requires 0 <= k < |xs| => Some(xs[k]))
  }

  /** `rolling(period).mean()` at index `i`: NaN unless the window is full and has no NaN. */
  function RollingMeanAt(xs: seq<Option<real>>, period: int, i: nat): Option<real>
    requires period >= 1 && i < |xs|
  {
    if i + 1 < period then None
    else
      var w := xs[i + 1 - period .. i + 1];
      if AllDefined(w) then Some(Sum(Values(w)) / period as real) else None
  }

  function RollingMean(xs: seq<Option<real>>, period: int): (r: seq<Option<real>>)
    requires period >= 1
    ensures |r| == |xs|
    ensures forall i :: 0 <= i < |xs| ==> r[i] == RollingMeanAt(xs, period, i)
  {
    seq(|xs|, i requires 0 <= i < |xs| => RollingMeanAt(xs, period, i))
  }

  /** `calculate_sma` (and `calculate_volume_sma`, the same rolling mean). */
  function Sma(xs: seq<real>, period: int): (r: seq<Option<real>>)
    requires period >= 1
    ensures |r| == |xs|
  {
    RollingMean(Lift(xs), period)
  }

  /** A simple moving average is undefined for the first `period - 1` bars and the window average after. */
  lemma SmaWindowMean(xs: seq<real>, period: int, i: nat)
    requires period >= 1 && i < |xs|
    ensures Sma(xs, period)[i].None? <==> i + 1 < period
    ensures i + 1 >= period ==> Sma(xs, period)[i] == Some(Sum(xs[i + 1 - period .. i + 1]) / period as real)
  {
    if i + 1 >= period {
      var w := Lift(xs)[i + 1 - period .. i + 1];
      assert AllDefined(w);
      assert Values(w) == xs[i + 1 - period .. i + 1];
    }
  }

  lemma {:induction false} SumBounds(xs: seq<real>, lo: real, hi: real)
    requires forall k :: 0 <= k < |xs| ==> lo <= xs[k] <= hi
    ensures |xs| as real * lo <= Sum(xs) <= |xs| as real * hi
  {
    if |xs| > 0 {
      SumBounds(xs[..|xs| - 1], lo, hi);
    }
  }

  lemma {:induction false} SumConstant(xs: seq<real>, c: real)
    requires forall k :: 0 <= k < |xs| ==> xs[k] == c
    ensures Sum(xs) == |xs| as real * c
  {
    if |xs| > 0 {
      SumConstant(xs[..|xs| - 1], c);
    }
  }

  lemma MeanBetween(s: real, p: real, lo: real, hi: real)
    requires p > 0.0 && p * lo <= s <= p * hi
    ensures lo <= s / p <= hi
  {
    assert s / p * p == s;
  }

  /** A defined rolling mean lies between the smallest and largest value of its window. */
  lemma RollingMeanBounded(xs: seq<Option<real>>, period: int, i: nat, lo: real, hi: real)
    requires period >= 1 && i < |xs|
    requires forall k :: 0 <= k < |xs| && xs[k].Some? ==> lo <= xs[k].value <= hi
    ensures RollingMeanAt(xs, period, i).Some? ==> lo <= RollingMeanAt(xs, period, i).value <= hi
  {
    if RollingMeanAt(xs, period, i).Some? {
      var w := xs[i + 1 - period .. i + 1];
      var vs := Values(w);
      forall k | 0 <= k < |vs| ensures lo <= vs[k] <= hi {
        assert w[k] == xs[i + 1 - period + k];
      }
      SumBounds(vs, lo, hi);
      MeanBetween(Sum(vs), period as real, lo, hi);
    }
  }

  // ------------------------------------------------------ true range, ATR

  function TrueRangeAt(high: seq<real>, low: seq<real>, close: seq<real>, i: nat): Option<real>
    requires |high| == |close| && |low| == |close| && i < |close|
  {
    // prev_close = close.shift(1) is NaN at bar 0, and np.maximum propagates NaN
    if i == 0 then None
    else Some(Max(high[i] - low[i], Max(Abs(high[i] - close[i - 1]), Abs(low[i] - close[i - 1]))))
  }

  function TrueRange(high: seq<real>, low: seq<real>, close: seq<real>): (r: seq<Option<real>>)
    requires |high| == |close| && |low| == |close|
    ensures |r| == |close|
    ensures forall i :: 0 <= i < |close| ==> r[i] == TrueRangeAt(high, low, close, i)
  {
    seq(|close|, i requires 0 <= i < |close| => TrueRangeAt(high, low, close, i))
  }

  /** True range is undefined at the first bar and otherwise at least the bar's spread and non-negative. */
  lemma TrueRangeBounds(high: seq<real>, low: seq<real>, close: seq<real>, i: nat)
    requires |high| == |close| && |low| == |close| && i < |close|
    ensures TrueRangeAt(high, low, close, i).None? <==> i == 0
    ensures i > 0 ==> TrueRangeAt(high, low, close, i).value >= high[i] - low[i]
    ensures i > 0 ==> TrueRangeAt(high, low, close, i).value >= 0.0
  {
  }

  /** `calculate_atr`: a plain rolling mean of the true range (not Wilder smoothing). */
  function Atr(high: seq<real>, low: seq<real>, close: seq<real>, period: int): (r: seq<Option<real>>)
    requires |high| == |close| && |low| == |close| && period >= 1
    ensures |r| == |close|
  {
    RollingMean(TrueRange(high, low, close), period)
  }

  /** ATR is first defined at index `period` (bar 0 has no previous close) and is never negative. */
  lemma AtrDefinedFrom(high: seq<real>, low: seq<real>, close: seq<real>, period: int, i: nat)
    requires |high| == |close| && |low| == |close| && period >= 1 && i < |close|
    ensures Atr(high, low, close, period)[i].Some? <==> i >= period
    ensures i >= period ==> Atr(high, low, close, period)[i].value >= 0.0
  {
    var tr := TrueRange(high, low, close);
    if i >= period {
      var w := tr[i + 1 - period .. i + 1];
      forall k | 0 <= k < |w| ensures w[k].Some? {
        assert w[k] == tr[i + 1 - period + k];
      }
    } else if i + 1 >= period {
      var w := tr[i + 1 - period .. i + 1];
      assert w[0] == tr[0] == None;
    }
    var hi := BiggestTrueRange(tr);
    forall k | 0 <= k < |tr| && tr[k].Some?
      ensures 0.0 <= tr[k].value <= hi
    {
      TrueRangeBounds(high, low, close, k);
    }
    RollingMeanBounded(tr, period, i, 0.0, hi);
  }

  /** An upper bound of the defined entries of a column. */
  function BiggestTrueRange(xs: seq<Option<real>>): (m: real)
    ensures forall k :: 0 <= k < |xs| && xs[k].Some? ==> xs[k].value <= m
  {
    if |xs| == 0 then 0.0
    else
      var rest := BiggestTrueRange(xs[..|xs| - 1]);
      var m := if xs[|xs| - 1].Some? then Max(rest, xs[|xs| - 1].value) else rest;
      assert forall k :: 0 <= k < |xs| - 1 ==> xs[k] == xs[..|xs| - 1][k];
      m
  }

  // ---------------------------------------------------------------- MACD

  datatype MacdLines = MacdLines(macd: seq<real>, signal: seq<real>, histogram: seq<real>)

  /** `calculate_macd`: fast EMA minus slow EMA, its EMA as the signal line, and their difference. */
  function Macd(close: seq<real>, fast: int, slow: int, signalPeriod: int): (r: MacdLines)
    requires fast >= 1 && slow >= 1 && signalPeriod >= 1
    ensures |r.macd| == |close| && |r.signal| == |close| && |r.histogram| == |close|
    ensures forall i :: 0 <= i < |close| ==> r.macd[i] == Ema(close, fast)[i] - Ema(close, slow)[i]
    ensures r.signal == Ema(r.macd, signalPeriod)
    ensures forall i :: 0 <= i < |close| ==> r.histogram[i] == r.macd[i] - r.signal[i]
  {
    var emaFast := Ema(close, fast);
    var emaSlow := Ema(close, slow);
    var line := seq(|close|, i requires 0 <= i < |close| => emaFast[i] - emaSlow[i]);
    var sig := Ema(line, signalPeriod);
    MacdLines(line, sig, seq(|close|, i requires 0 <= i < |close| => line[i] - sig[i]))
  }

  /** A flat close series has a MACD line, signal line and histogram that are all zero. */
  lemma MacdOfConstant(close: seq<real>, fast: int, slow: int, signalPeriod: int, c: real)
    requires fast >= 1 && slow >= 1 && signalPeriod >= 1
    requires forall j :: 0 <= j < |close| ==> close[j] == c
    ensures var r := Macd(close, fast, slow, signalPeriod);
      forall i :: 0 <= i < |close| ==> r.macd[i] == 0.0 && r.signal[i] == 0.0 && r.histogram[i] == 0.0
  {
    var r := Macd(close, fast, slow, signalPeriod);
    EmaOfConstant(close, fast, c);
    EmaOfConstant(close, slow, c);
    EmaOfConstant(r.macd, signalPeriod, 0.0);
  }

  // ----------------------------------------------------- Bollinger bands

  datatype Bands = Bands(upper: seq<Option<real>>, middle: seq<Option<real>>, lower: seq<Option<real>>)

  /**
   * `calculate_bollinger_bands` with the rolling standard deviation `std` of the
   * same window given as an input column.
   */
  function BollingerBands(close: seq<real>, period: int, k: real, std: seq<Option<real>>): (r: Bands)
    requires period >= 1 && |std| == |close|
    ensures |r.upper| == |close| && |r.middle| == |close| && |r.lower| == |close|
    ensures r.middle == Sma(close, period)
    ensures forall i :: 0 <= i < |close| ==>
      Minus(r.upper[i], r.middle[i]) == Minus(r.middle[i], r.lower[i])
    ensures forall i :: 0 <= i < |close| ==>
      (r.upper[i].Some? <==> r.middle[i].Some? && std[i].Some?) &&
      (r.lower[i].Some? <==> r.middle[i].Some? && std[i].Some?)
  {
    var mid := Sma(close, period);
    Bands(
      seq(|close|, i requires 0 <= i < |close| => Plus(mid[i], Times(Some(k), std[i]))),
      mid,
      seq(|close|, i requires 0 <= i < |close| => Minus(mid[i], Times(Some(k), std[i]))))
  }

  /** With a non-negative multiplier and deviation the bands are ordered lower <= middle <= upper. */
  lemma BandsOrdered(close: seq<real>, period: int, k: real, std: seq<Option<real>>, i: nat)
    requires period >= 1 && |std| == |close| && i < |close|
    requires k >= 0.0 && std[i].Some? && std[i].value >= 0.0
    ensures var b := BollingerBands(close, period, k, std);
      b.middle[i].Some? ==>
        && b.upper[i].value - b.middle[i].value == k * std[i].value
        && b.middle[i].value - b.lower[i].value == k * std[i].value
        && b.lower[i].value <= b.middle[i].value <= b.upper[i].value
  {
    assert k * std[i].value >= 0.0;
  }

  function WidthAt(upper: Option<real>, middle: Option<real>, lower: Option<real>): Option<real> {
    // a zero middle band would give an IEEE infinity; it is modelled as undefined
    if upper.Some? && middle.Some? && lower.Some? && middle.value != 0.0
    then Some((upper.value - lower.value) / middle.value * 100.0)
    else None
  }

  /** `calculate_bollinger_width`: band width as a percentage of the middle band. */
  function BollingerWidth(upper: seq<Option<real>>, middle: seq<Option<real>>, lower: seq<Option<real>>): (r: seq<Option<real>>)
    requires |middle| == |upper| && |lower| == |upper|
    ensures |r| == |upper|
    ensures forall i :: 0 <= i < |upper| ==> r[i] == WidthAt(upper[i], middle[i], lower[i])
  {
    seq(|upper|, i requires 0 <= i < |upper| => WidthAt(upper[i], middle[i], lower[i]))
  }

  /** The width of the bands is 2·k·std relative to a positive middle band, hence non-negative. */
  lemma WidthOfBands(close: seq<real>, period: int, k: real, std: seq<Option<real>>, i: nat)
    requires period >= 1 && |std| == |close| && i < |close|
    requires k >= 0.0 && std[i].Some? && std[i].value >= 0.0
    ensures var b := BollingerBands(close, period, k, std);
      b.middle[i].Some? && b.middle[i].value > 0.0 ==>
        && BollingerWidth(b.upper, b.middle, b.lower)[i] == Some(2.0 * k * std[i].value / b.middle[i].value * 100.0)
        && BollingerWidth(b.upper, b.middle, b.lower)[i].value >= 0.0
  {
    var b := BollingerBands(close, period, k, std);
    if b.middle[i].Some? && b.middle[i].value > 0.0 {
      var s := k * std[i].value;
      assert s >= 0.0;
      assert b.upper[i].value - b.lower[i].value == 2.0 * k * std[i].value;
      assert 2.0 * k * std[i].value / b.middle[i].value >= 0.0;
    }
  }

  // ------------------------------------------------------------ pipeline

  datatype IndicatorParams = IndicatorParams(
    emaPeriod: int, macdFast: int, macdSlow: int, macdSignal: int,
    bbPeriod: int, bbStd: real, atrPeriod: int, volPeriod: int)

  /** The keyword defaults of `calculate_indicators`. */
  const DefaultIndicatorParams := IndicatorParams(100, 12, 26, 9, 20, 2.0, 14, 20)

  /**
   * The periods the model accepts: every EMA span and rolling window at least
   * one. pandas rejects an EMA span below one and a negative window; a window
   * of zero it accepts, giving an all-NaN column, which the model excludes.
   */
  predicate ValidParams(p: IndicatorParams) {
    p.emaPeriod >= 1 && p.macdFast >= 1 && p.macdSlow >= 1 && p.macdSignal >= 1 &&
    p.bbPeriod >= 1 && p.atrPeriod >= 1 && p.volPeriod >= 1
  }

  /**
   * `calculate_indicators`: a fresh frame holding the input bars unchanged and
   * one column per indicator. `std` is the rolling standard deviation of the
   * closes over `p.bbPeriod` bars.
   */
  function CalculateIndicators(bars: Bars, p: IndicatorParams, std: seq<Option<real>>): (f: Frame)
    requires bars.WellFormed() && ValidParams(p) && |std| == bars.Length()
    ensures f.WellFormed() && f.bars == bars
    ensures forall i :: 0 <= i < f.Length() ==> f.macdHist[i] == f.macd[i] - f.signal[i]
    ensures forall i :: 0 <= i < f.Length() ==> f.ema[i] == Ema(bars.close, p.emaPeriod)[i]
    ensures forall i :: 0 <= i < f.Length() ==> (f.atr[i].Some? <==> i >= p.atrPeriod)
    ensures forall i :: 0 <= i < f.Length() ==> (f.volAvg[i].Some? <==> i + 1 >= p.volPeriod)
  {
    var m := Macd(bars.close, p.macdFast, p.macdSlow, p.macdSignal);
    var b := BollingerBands(bars.close, p.bbPeriod, p.bbStd, std);
    var atr := Atr(bars.high, bars.low, bars.close, p.atrPeriod);
    var volAvg := Sma(bars.volume, p.volPeriod);
    assert forall i :: 0 <= i < |bars.close| ==> (atr[i].Some? <==> i >= p.atrPeriod) by {
      forall i | 0 <= i < |bars.close| ensures atr[i].Some? <==> i >= p.atrPeriod {
        AtrDefinedFrom(bars.high, bars.low, bars.close, p.atrPeriod, i);
      }
    }
    assert forall i :: 0 <= i < |bars.volume| ==> (volAvg[i].Some? <==> i + 1 >= p.volPeriod) by {
      forall i | 0 <= i < |bars.volume| ensures volAvg[i].Some? <==> i + 1 >= p.volPeriod {
        SmaWindowMean(bars.volume, p.volPeriod, i);
      }
    }
    Frame(bars, Ema(bars.close, p.emaPeriod), m.macd, m.signal, m.histogram,
          b.upper, b.middle, b.lower, BollingerWidth(b.upper, b.middle, b.lower), atr, volAvg)
  }

  // ---------------------------------------------------- entry predicates

  /** `check_macd_cross_up`: MACD was at or below the signal line and is now above it. */
  predicate MacdCrossUp(macd: seq<real>, signal: seq<real>, idx: nat)
    requires idx < |macd| && idx < |signal|
    ensures MacdCrossUp(macd, signal, idx) <==>
      idx >= 1 && macd[idx - 1] - signal[idx - 1] <= 0.0 < macd[idx] - signal[idx]
  {
    if idx < 1 then false
    else macd[idx] > signal[idx] && macd[idx - 1] <= signal[idx - 1]
  }

  /** `check_macd_cross_down`: MACD was at or above the signal line and is now below it. */
  predicate MacdCrossDown(macd: seq<real>, signal: seq<real>, idx: nat)
    requires idx < |macd| && idx < |signal|
    ensures MacdCrossDown(macd, signal, idx) <==>
      idx >= 1 && macd[idx] - signal[idx] < 0.0 <= macd[idx - 1] - signal[idx - 1]
  {
    if idx < 1 then false
    else macd[idx] < signal[idx] && macd[idx - 1] >= signal[idx - 1]
  }

  predicate PriceAboveEma(close: seq<real>, ema: seq<real>, idx: nat)
    requires idx < |close| && idx < |ema|
    ensures close[idx] == ema[idx] ==> !PriceAboveEma(close, ema, idx)
  {
    close[idx] > ema[idx]
  }

  predicate PriceBelowEma(close: seq<real>, ema: seq<real>, idx: nat)
    requires idx < |close| && idx < |ema|
    ensures close[idx] == ema[idx] ==> !PriceBelowEma(close, ema, idx)
  {
    close[idx] < ema[idx]
  }

  /** `check_volume_filter`: volume above the average times the multiplier (false when the average is NaN). */
  predicate VolumeFilter(volume: seq<real>, volAvg: seq<Option<real>>, idx: nat, multiplier: real)
    requires idx < |volume| && idx < |volAvg|
    ensures volAvg[idx].None? ==> !VolumeFilter(volume, volAvg, idx, multiplier)
    ensures volAvg[idx].Some? ==>
      (VolumeFilter(volume, volAvg, idx, multiplier) <==> volume[idx] > volAvg[idx].value * multiplier)
  {
    Greater(Some(volume[idx]), Times(volAvg[idx], Some(multiplier)))
  }

  /** `check_no_squeeze`: band width at least the threshold (false when the width is NaN). */
  predicate NoSqueeze(bbWidth: seq<Option<real>>, idx: nat, threshold: real)
    requires idx < |bbWidth|
    ensures bbWidth[idx].None? ==> !NoSqueeze(bbWidth, idx, threshold)
    ensures bbWidth[idx].Some? ==> (NoSqueeze(bbWidth, idx, threshold) <==> bbWidth[idx].value >= threshold)
  {
    GreaterEq(bbWidth[idx], Some(threshold))
  }

  /** The two crossings never hold at once, and neither holds at the first bar. */
  lemma CrossesExclusive(macd: seq<real>, signal: seq<real>, idx: nat)
    requires idx < |macd| && idx < |signal|
    ensures !(MacdCrossUp(macd, signal, idx) && MacdCrossDown(macd, signal, idx))
    ensures idx == 0 ==> !MacdCrossUp(macd, signal, idx) && !MacdCrossDown(macd, signal, idx)
  {
  }

  /** A MACD crossing is the histogram changing sign. */
  lemma CrossUpIsHistogramTurningPositive(close: seq<real>, fast: int, slow: int, signalPeriod: int, idx: nat)
    requires fast >= 1 && slow >= 1 && signalPeriod >= 1 && idx < |close|
    ensures var m := Macd(close, fast, slow, signalPeriod);
      && (MacdCrossUp(m.macd, m.signal, idx) <==> idx >= 1 && m.histogram[idx] > 0.0 && m.histogram[idx - 1] <= 0.0)
      && (MacdCrossDown(m.macd, m.signal, idx) <==> idx >= 1 && m.histogram[idx] < 0.0 && m.histogram[idx - 1] >= 0.0)
  {
  }

  /** Price above and below the EMA exclude each other, and both fail when close equals the EMA. */
  lemma AboveBelowExclusive(close: seq<real>, ema: seq<real>, idx: nat)
    requires idx < |close| && idx < |ema|
    ensures !(PriceAboveEma(close, ema, idx) && PriceBelowEma(close, ema, idx))
    ensures close[idx] == ema[idx] ==> !PriceAboveEma(close, ema, idx) && !PriceBelowEma(close, ema, idx)
  {
  }
}
