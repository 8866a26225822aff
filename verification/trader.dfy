/**
 * When the live trader looks for a new signal (`_should_check_signal` of
 * `src/bot/trader.py`): in the first thirty seconds after a candle of the
 * configured interval has closed.
 */
module Trader {
  import opened Arith

  /**
   * Whether the clock reading `hour:minute:second` falls in the checking
   * window of `interval`. Unknown intervals are checked hourly.
   */
  predicate ShouldCheckSignal(interval: string, hour: nat, minute: nat, second: nat)
    ensures ShouldCheckSignal(interval, hour, minute, second) ==> second < 30
    ensures minute == 0 && second < 30 && (interval != "4h" || hour % 4 == 0) ==>
      ShouldCheckSignal(interval, hour, minute, second)
  {
    if interval == "1h" then minute == 0 && second < 30
    else if interval == "4h" then hour % 4 == 0 && minute == 0 && second < 30
    else if interval == "15m" then minute % 15 == 0 && second < 30
    else if interval == "5m" then minute % 5 == 0 && second < 30
    else minute == 0 && second < 30
  }

  /** The candle length in minutes that each interval is checked on. */
  function CandleMinutes(interval: string): (m: nat)
    ensures m in {5, 15, 60, 240}
    ensures interval !in {"4h", "15m", "5m"} ==> m == 60
  {
    if interval == "4h" then 240
    else if interval == "15m" then 15
    else if interval == "5m" then 5
    else 60
  }

  /** The four-hour window: the hour is a multiple of four and the minute is zero. */
  lemma FourHourCandle(hour: nat, minute: nat)
    requires minute < 60
    ensures (hour * 60 + minute) % 240 == 0 <==> hour % 4 == 0 && minute == 0
  {
    var r := (hour % 4) * 60 + minute;
    assert hour * 60 + minute == (hour / 4) * 240 + r;
    DivMulAdd(hour / 4, 240, r);
  }

  /** On candles that divide an hour only the minute matters. */
  lemma WithinHourCandle(hour: nat, minute: nat, n: nat)
    requires n == 5 || n == 15 || n == 60
    ensures (hour * 60 + minute) % n == minute % n
  {
    assert hour * 60 == (hour * (60 / n)) * n;
    ModAfterMultiple(hour * (60 / n), minute, n);
  }

  /**
   * The window opens exactly when the minute of the day is a multiple of the
   * candle length, i.e. when a candle has just closed.
   */
  lemma ChecksAtCandleClose(interval: string, hour: nat, minute: nat, second: nat)
    requires minute < 60
    ensures ShouldCheckSignal(interval, hour, minute, second)
        <==> (hour * 60 + minute) % CandleMinutes(interval) == 0 && second < 30
  {
    if interval == "4h" {
      FourHourCandle(hour, minute);
    } else {
      WithinHourCandle(hour, minute, CandleMinutes(interval));
    }
  }

  /** Nothing is checked in the second half of a minute. */
  lemma OnlyEarlyInTheMinute(interval: string, hour: nat, minute: nat, second: nat)
    requires second >= 30
    ensures !ShouldCheckSignal(interval, hour, minute, second)
  {
  }

  /** Every four-hour check is also an hourly check. */
  lemma FourHourImpliesHourly(hour: nat, minute: nat, second: nat)
    ensures ShouldCheckSignal("4h", hour, minute, second) ==> ShouldCheckSignal("1h", hour, minute, second)
  {
  }

  /** Every fifteen-minute check is also a five-minute check. */
  lemma FifteenImpliesFive(hour: nat, minute: nat, second: nat)
    ensures ShouldCheckSignal("15m", hour, minute, second) ==> ShouldCheckSignal("5m", hour, minute, second)
  {
    if ShouldCheckSignal("15m", hour, minute, second) {
      var q := minute / 15;
      assert minute == (3 * q) * 5 + 0;
      ModAfterMultiple(3 * q, 0, 5);
    }
  }

  /** An interval the trader does not know is checked like `1h`. */
  lemma UnknownIsHourly(interval: string, hour: nat, minute: nat, second: nat)
    requires interval !in {"1h", "4h", "15m", "5m"}
    ensures ShouldCheckSignal(interval, hour, minute, second) == ShouldCheckSignal("1h", hour, minute, second)
  {
  }
}
