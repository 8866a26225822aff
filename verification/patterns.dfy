/**
 * The price-action pattern detector of `src/core/patterns.py`.
 *
 * scipy's `argrelextrema` is replaced by a specification of what it computes
 * with its default `mode='clip'`: index `i` is reported when, for every shift
 * 1..order, the value at `i` strictly beats the values at `i+shift` and
 * `i-shift`, where an out-of-range index is clamped to the nearest end.
 */
module Patterns {
  import opened Wrappers

  /** The comparator handed to `argrelextrema`: `np.less` finds minima, `np.greater` maxima. */
  datatype Extremum = Minimum | Maximum

  predicate Beats(kind: Extremum, a: real, b: real) {
    match kind
    case Minimum => a < b
    case Maximum => a > b
  }

  /** numpy `take(..., mode='clip')`: an out-of-range index is clamped to the nearest end. */
  function Clip(j: int, n: nat): (r: nat)
    requires n > 0
    ensures r < n
  {
    if j < 0 then 0 else if j >= n then n - 1 else j
  }

  /** The comparison `argrelextrema` makes at distance `shift` on both sides of `i`. */
  predicate BeatsAtShift(xs: seq<real>, kind: Extremum, i: nat, shift: int)
    requires i < |xs|
  {
    Beats(kind, xs[i], xs[Clip(i + shift, |xs|)]) && Beats(kind, xs[i], xs[Clip(i - shift, |xs|)])
  }

  /** `i` is reported by `argrelextrema(xs, comparator, order=order)`. */
  predicate ClipModeExtremum(xs: seq<real>, kind: Extremum, order: int, i: nat)
    requires i < |xs|
  {
    forall shift :: 1 <= shift <= order ==> BeatsAtShift(xs, kind, i, shift)
  }

  /** An interior point that strictly beats every existing neighbour within `order` positions. */
  predicate StrictLocalExtremum(xs: seq<real>, kind: Extremum, order: int, i: nat) {
    && 0 < i < |xs| - 1
    && forall j :: 0 <= j < |xs| && j != i && i - order <= j <= i + order ==> Beats(kind, xs[i], xs[j])
  }

  /**
   * Clip mode compares the first and last element with themselves, so they are
   * never extrema; every other clamped index is already a neighbour in range.
   */
  lemma ClipModeIsStrictLocal(xs: seq<real>, kind: Extremum, order: int, i: nat)
    requires order >= 1 && i < |xs|
    ensures ClipModeExtremum(xs, kind, order, i) <==> StrictLocalExtremum(xs, kind, order, i)
  {
    var n := |xs|;
    if ClipModeExtremum(xs, kind, order, i) {
      assert BeatsAtShift(xs, kind, i, 1);
      forall j | 0 <= j < n && j != i && i - order <= j <= i + order
        ensures Beats(kind, xs[i], xs[j])
      {
        var shift := if j > i then j - i else i - j;
        assert BeatsAtShift(xs, kind, i, shift);
        if j > i {
          assert Clip(i + shift, n) == j;
        } else {
          assert Clip(i - shift, n) == j;
        }
      }
    }
    if StrictLocalExtremum(xs, kind, order, i) {
      forall shift | 1 <= shift <= order
        ensures BeatsAtShift(xs, kind, i, shift)
      {
        var up := Clip(i + shift, n);
        var down := Clip(i - shift, n);
        assert up != i && i - order <= up <= i + order;
        assert down != i && i - order <= down <= i + order;
      }
    }
  }

  /** The first and the last element of a series are never extrema. */
  lemma EndsAreNeverExtrema(xs: seq<real>, kind: Extremum, order: int)
    requires order >= 1 && |xs| > 0
    ensures !ClipModeExtremum(xs, kind, order, 0)
    ensures !ClipModeExtremum(xs, kind, order, |xs| - 1)
  {
    assert !BeatsAtShift(xs, kind, 0, 1);
    assert !BeatsAtShift(xs, kind, |xs| - 1, 1);
  }

  /** The comparison is strict: a value equal to a neighbour within `order` is not an extremum. */
  lemma TiedNeighbourIsNoExtremum(xs: seq<real>, kind: Extremum, order: int, i: nat, j: nat)
    requires order >= 1 && i < |xs| && j < |xs| && j != i
    requires i - order <= j <= i + order && xs[j] == xs[i]
    ensures !ClipModeExtremum(xs, kind, order, i)
  {
    ClipModeIsStrictLocal(xs, kind, order, i);
  }

  predicate StrictlyIncreasing(s: seq<nat>) {
    forall a, b :: 0 <= a < b < |s| ==> s[a] < s[b]
  }

  /** The extrema among the first `k` indices, in increasing order. */
  function ExtremaBelow(xs: seq<real>, kind: Extremum, order: int, k: nat): (r: seq<nat>)
    requires k <= |xs|
    ensures StrictlyIncreasing(r)
    ensures forall a :: 0 <= a < |r| ==> r[a] < k && ClipModeExtremum(xs, kind, order, r[a])
    ensures forall j :: 0 <= j < k && ClipModeExtremum(xs, kind, order, j) ==> j in r
  {
    if k == 0 then []
    else
      var rest := ExtremaBelow(xs, kind, order, k - 1);
      rest + (if ClipModeExtremum(xs, kind, order, k - 1) then [k - 1] else [])
  }

  /** `argrelextrema(xs, np.less / np.greater, order=order)[0]`; scipy rejects an order below one. */
  function ArgRelExtrema(xs: seq<real>, kind: Extremum, order: int): (r: seq<nat>)
    requires order >= 1
    ensures StrictlyIncreasing(r)
    ensures forall a :: 0 <= a < |r| ==> r[a] < |xs| && StrictLocalExtremum(xs, kind, order, r[a])
    ensures forall j :: 0 <= j < |xs| && StrictLocalExtremum(xs, kind, order, j) ==> j in r
  {
    var r := ExtremaBelow(xs, kind, order, |xs|);
    assert forall j :: 0 <= j < |xs| ==>
      (ClipModeExtremum(xs, kind, order, j) <==> StrictLocalExtremum(xs, kind, order, j)) by {
      forall j | 0 <= j < |xs|
        ensures ClipModeExtremum(xs, kind, order, j) <==> StrictLocalExtremum(xs, kind, order, j)
      {
        ClipModeIsStrictLocal(xs, kind, order, j);
      }
    }
    r
  }

  /** `s` lists, in order, exactly the strict local extrema of `prices` from `s[0]` on. */
  predicate LastExtrema(prices: seq<real>, kind: Extremum, order: int, s: seq<nat>) {
    && |s| >= 1
    && StrictlyIncreasing(s)
    && (forall t :: 0 <= t < |s| ==> s[t] < |prices| && StrictLocalExtremum(prices, kind, order, s[t]))
    && (forall j :: s[0] <= j < |prices| && StrictLocalExtremum(prices, kind, order, j) ==> j in s)
  }

  lemma {:induction false} IncreasingWithSameElementsAreEqual(a: seq<nat>, b: seq<nat>)
    requires StrictlyIncreasing(a) && StrictlyIncreasing(b)
    requires forall x :: x in a <==> x in b
    ensures a == b
  {
    if |a| > 0 {
      assert a[0] in b;
    }
    if |b| > 0 {
      assert b[0] in a;
    }
    if |a| > 0 {
      assert a[0] in b && b[0] in a;
      assert a[0] == b[0];
      assert a == [a[0]] + a[1..] && b == [b[0]] + b[1..];
      forall x | x in a[1..] ensures x in b[1..] {
        assert x in a && x > a[0];
        assert x in b;
      }
      forall x | x in b[1..] ensures x in a[1..] {
        assert x in b && x > b[0];
        assert x in a;
      }
      IncreasingWithSameElementsAreEqual(a[1..], b[1..]);
    }
  }

  /** Every extremum past the start of a suffix of `argrelextrema`'s output lies in that suffix. */
  lemma SuffixIsLastExtrema(prices: seq<real>, kind: Extremum, order: int, s: seq<nat>)
    requires order >= 1 && |s| >= 1
    requires var ext := ArgRelExtrema(prices, kind, order); |ext| >= |s| && ext[|ext| - |s|..] == s
    ensures LastExtrema(prices, kind, order, s)
  {
    var ext := ArgRelExtrema(prices, kind, order);
    var p := |ext| - |s|;
    SuffixIncreasing(ext, p);
    SuffixOfExtrema(prices, kind, order, ext, p);
    SuffixHoldsLaterExtrema(prices, kind, order, ext, p);
  }

  lemma SuffixOfExtrema(prices: seq<real>, kind: Extremum, order: int, ext: seq<nat>, p: nat)
    requires p <= |ext|
    requires forall a :: 0 <= a < |ext| ==> ext[a] < |prices| && StrictLocalExtremum(prices, kind, order, ext[a])
    ensures forall t :: 0 <= t < |ext| - p ==> ext[p..][t] < |prices| && StrictLocalExtremum(prices, kind, order, ext[p..][t])
  {
    forall t | 0 <= t < |ext| - p
      ensures ext[p..][t] < |prices| && StrictLocalExtremum(prices, kind, order, ext[p..][t])
    {
      assert ext[p..][t] == ext[p + t];
    }
  }

  lemma SuffixHoldsLaterExtrema(prices: seq<real>, kind: Extremum, order: int, ext: seq<nat>, p: nat)
    requires StrictlyIncreasing(ext) && p < |ext|
    requires forall j :: 0 <= j < |prices| && StrictLocalExtremum(prices, kind, order, j) ==> j in ext
    ensures forall j :: ext[p] <= j < |prices| && StrictLocalExtremum(prices, kind, order, j) ==> j in ext[p..]
  {
    forall j | ext[p] <= j < |prices| && StrictLocalExtremum(prices, kind, order, j)
      ensures j in ext[p..]
    {
      var c :| 0 <= c < |ext| && ext[c] == j;
      IncreasingOrder(ext, p, c);
      assert ext[p..][c - p] == j;
    }
  }

  /** In a strictly increasing sequence the order of the values is the order of the positions. */
  lemma IncreasingOrder(s: seq<nat>, a: nat, b: nat)
    requires StrictlyIncreasing(s) && a < |s| && b < |s|
    ensures s[a] < s[b] <==> a < b
    ensures s[a] <= s[b] <==> a <= b
  {
  }

  lemma SuffixIncreasing(ext: seq<nat>, p: nat)
    requires StrictlyIncreasing(ext) && p <= |ext|
    ensures StrictlyIncreasing(ext[p..])
  {
    forall a, b | 0 <= a < b < |ext| - p ensures ext[p..][a] < ext[p..][b] {
      IncreasingOrder(ext, p + a, p + b);
    }
  }

  /** Everything from position `p` of `ext`, where `s` starts, lies in `s`. */
  lemma SuffixInside(ext: seq<nat>, s: seq<nat>, p: nat)
    requires StrictlyIncreasing(ext) && |s| >= 1 && p < |ext| && ext[p] == s[0]
    requires forall c :: 0 <= c < |ext| && ext[c] >= s[0] ==> ext[c] in s
    ensures forall x :: x in ext[p..] ==> x in s
  {
    forall x | x in ext[p..] ensures x in s {
      var c :| 0 <= c < |ext| - p && ext[p..][c] == x;
      IncreasingOrder(ext, p, p + c);
    }
  }

  /** Everything in `s` lies in `ext` from position `p`, where `s` starts, on. */
  lemma InsideSuffix(ext: seq<nat>, s: seq<nat>, p: nat)
    requires StrictlyIncreasing(ext) && StrictlyIncreasing(s) && |s| >= 1 && p < |ext| && ext[p] == s[0]
    requires forall t :: 0 <= t < |s| ==> s[t] in ext
    ensures forall x :: x in s ==> x in ext[p..]
  {
    forall x | x in s ensures x in ext[p..] {
      var t :| 0 <= t < |s| && s[t] == x;
      IncreasingOrder(s, 0, t);
      var c :| 0 <= c < |ext| && ext[c] == x;
      IncreasingOrder(ext, p, c);
      assert ext[p..][c - p] == x;
    }
  }

  /**
   * A strictly increasing `ext` that contains all of `s` and, from `s[0]` on,
   * nothing else ends in `s`.
   */
  lemma EndsIn(ext: seq<nat>, s: seq<nat>)
    requires StrictlyIncreasing(ext) && StrictlyIncreasing(s) && |s| >= 1
    requires forall t :: 0 <= t < |s| ==> s[t] in ext
    requires forall c :: 0 <= c < |ext| && ext[c] >= s[0] ==> ext[c] in s
    ensures |ext| >= |s| && ext[|ext| - |s|..] == s
  {
    assert s[0] in ext;
    var p :| 0 <= p < |ext| && ext[p] == s[0];
    SuffixIncreasing(ext, p);
    SuffixInside(ext, s, p);
    InsideSuffix(ext, s, p);
    IncreasingWithSameElementsAreEqual(ext[p..], s);
  }

  /** Conversely, extrema listed by `LastExtrema` are the last ones `argrelextrema` reports. */
  lemma LastExtremaIsSuffix(prices: seq<real>, kind: Extremum, order: int, s: seq<nat>)
    requires order >= 1 && LastExtrema(prices, kind, order, s)
    ensures var ext := ArgRelExtrema(prices, kind, order); |ext| >= |s| && ext[|ext| - |s|..] == s
  {
    var ext := ArgRelExtrema(prices, kind, order);
    forall t | 0 <= t < |s| ensures s[t] in ext {
      assert s[t] < |prices| && StrictLocalExtremum(prices, kind, order, s[t]);
    }
    forall c | 0 <= c < |ext| && ext[c] >= s[0] ensures ext[c] in s {
      assert ext[c] < |prices| && StrictLocalExtremum(prices, kind, order, ext[c]);
    }
    EndsIn(ext, s);
  }

  /** The last `|s|` extrema reported by `argrelextrema` are `s` exactly when `s` satisfies `LastExtrema`. */
  lemma ArgRelExtremaSuffix(prices: seq<real>, kind: Extremum, order: int, s: seq<nat>)
    requires order >= 1 && |s| >= 1
    ensures var ext := ArgRelExtrema(prices, kind, order);
      (|ext| >= |s| && ext[|ext| - |s|..] == s) <==> LastExtrema(prices, kind, order, s)
  {
    var ext := ArgRelExtrema(prices, kind, order);
    if |ext| >= |s| && ext[|ext| - |s|..] == s {
      SuffixIsLastExtrema(prices, kind, order, s);
    }
    if LastExtrema(prices, kind, order, s) {
      LastExtremaIsSuffix(prices, kind, order, s);
    }
  }

  // -------------------------------------------------------------- QML

  /** `df[column][:idx + 1]`: the bars up to and including `idx`. */
  function Prefix(xs: seq<real>, idx: nat): (p: seq<real>)
    ensures |p| == if idx + 1 <= |xs| then idx + 1 else |xs|
    ensures forall k :: 0 <= k < |p| ==> p[k] == xs[k]
  {
    if idx + 1 <= |xs| then xs[..idx + 1] else xs
  }

  /**
   * The Quasimodo rule shared by both directions: among the last three extrema
   * e1, e2, e3 of the prefix, e2 sweeps beyond e1, e3 pulls back from e2, and
   * e3 is fewer than `recency` bars before `idx`. Returns e2's price.
   */
  function DetectQml(xs: seq<real>, kind: Extremum, idx: nat, order: int, recency: int): Option<real>
    requires order >= 1
  {
    var prices := Prefix(xs, idx);
    var ext := ArgRelExtrema(prices, kind, order);
    if |ext| < 3 then None
    else
      var i3, i2, i1 := ext[|ext| - 1], ext[|ext| - 2], ext[|ext| - 3];
      if Beats(kind, prices[i2], prices[i1]) && Beats(kind, prices[i2], prices[i3]) && idx - i3 < recency
      then Some(prices[i2])
      else None
  }

  /** `detect_qml_bull` over the lows column. */
  function DetectQmlBull(lows: seq<real>, idx: nat, order: int, recency: int): (r: Option<real>)
    requires order >= 1
    ensures r.Some? ==> exists i1: nat, i2: nat, i3: nat ::
      && QmlTriple(Prefix(lows, idx), Minimum, order, idx, recency, i1, i2, i3)
      && r.value == lows[i2] && lows[i2] < lows[i1] && lows[i2] < lows[i3]
  {
    var r := DetectQml(lows, Minimum, idx, order, recency);
    if r.Some? then QmlCharacterization(lows, Minimum, idx, order, recency, r.value); r else r
  }

  /** `detect_qml_bear` over the highs column. */
  function DetectQmlBear(highs: seq<real>, idx: nat, order: int, recency: int): (r: Option<real>)
    requires order >= 1
    ensures r.Some? ==> exists i1: nat, i2: nat, i3: nat ::
      && QmlTriple(Prefix(highs, idx), Maximum, order, idx, recency, i1, i2, i3)
      && r.value == highs[i2] && highs[i2] > highs[i1] && highs[i2] > highs[i3]
  {
    var r := DetectQml(highs, Maximum, idx, order, recency);
    if r.Some? then QmlCharacterization(highs, Maximum, idx, order, recency, r.value); r else r
  }

  /** i1 < i2 < i3 are the last three extrema of the prefix and form a recent sweep-then-reversal. */
  predicate QmlTriple(prices: seq<real>, kind: Extremum, order: int, idx: nat, recency: int, i1: nat, i2: nat, i3: nat) {
    && i1 < i2 < i3 < |prices|
    && LastExtrema(prices, kind, order, [i1, i2, i3])
    && Beats(kind, prices[i2], prices[i1])
    && Beats(kind, prices[i2], prices[i3])
    && idx - i3 < recency
  }

  /** A detection comes from the last three extrema of the prefix, which form a Quasimodo triple. */
  lemma QmlDetectedIsTriple(xs: seq<real>, kind: Extremum, idx: nat, order: int, recency: int)
    requires order >= 1 && DetectQml(xs, kind, idx, order, recency).Some?
    ensures var ext := ArgRelExtrema(Prefix(xs, idx), kind, order);
      && |ext| >= 3
      && QmlTriple(Prefix(xs, idx), kind, order, idx, recency, ext[|ext| - 3], ext[|ext| - 2], ext[|ext| - 1])
      && DetectQml(xs, kind, idx, order, recency).value == xs[ext[|ext| - 2]]
  {
    var prices := Prefix(xs, idx);
    var ext := ArgRelExtrema(prices, kind, order);
    var i3, i2, i1 := ext[|ext| - 1], ext[|ext| - 2], ext[|ext| - 3];
    assert ext[|ext| - 3..] == [i1, i2, i3];
    SuffixIsLastExtrema(prices, kind, order, [i1, i2, i3]);
  }

  /** A Quasimodo triple at the end of the prefix is detected, with its middle extremum's price. */
  lemma QmlTripleIsDetected(xs: seq<real>, kind: Extremum, idx: nat, order: int, recency: int, i1: nat, i2: nat, i3: nat)
    requires order >= 1 && QmlTriple(Prefix(xs, idx), kind, order, idx, recency, i1, i2, i3)
    ensures DetectQml(xs, kind, idx, order, recency) == Some(xs[i2])
  {
    var prices := Prefix(xs, idx);
    var ext := ArgRelExtrema(prices, kind, order);
    LastExtremaIsSuffix(prices, kind, order, [i1, i2, i3]);
    assert ext[|ext| - 3..] == [i1, i2, i3];
    assert ext[|ext| - 1] == i3 && ext[|ext| - 2] == i2 && ext[|ext| - 3] == i1;
  }

  /** The detector returns `v` exactly when the prefix ends in a Quasimodo triple whose middle extremum is `v`. */
  lemma QmlCharacterization(xs: seq<real>, kind: Extremum, idx: nat, order: int, recency: int, v: real)
    requires order >= 1
    ensures DetectQml(xs, kind, idx, order, recency) == Some(v) <==>
      exists i1: nat, i2: nat, i3: nat :: QmlTriple(Prefix(xs, idx), kind, order, idx, recency, i1, i2, i3) && v == xs[i2]
  {
    if DetectQml(xs, kind, idx, order, recency) == Some(v) {
      QmlDetectedIsTriple(xs, kind, idx, order, recency);
    }
    if exists i1: nat, i2: nat, i3: nat :: QmlTriple(Prefix(xs, idx), kind, order, idx, recency, i1, i2, i3) && v == xs[i2] {
      var i1: nat, i2: nat, i3: nat :| QmlTriple(Prefix(xs, idx), kind, order, idx, recency, i1, i2, i3) && v == xs[i2];
      QmlTripleIsDetected(xs, kind, idx, order, recency, i1, i2, i3);
    }
  }

  /** Bullish case: the returned sweep low lies strictly below the minima before and after it. */
  lemma QmlBullSweepsBelow(lows: seq<real>, idx: nat, order: int, recency: int)
    requires order >= 1
    ensures DetectQmlBull(lows, idx, order, recency).Some? ==>
      exists i1: nat, i2: nat, i3: nat ::
        && QmlTriple(Prefix(lows, idx), Minimum, order, idx, recency, i1, i2, i3)
        && DetectQmlBull(lows, idx, order, recency).value == lows[i2]
        && lows[i2] < lows[i1] && lows[i2] < lows[i3]
  {
    var r := DetectQmlBull(lows, idx, order, recency);
    if r.Some? {
      QmlCharacterization(lows, Minimum, idx, order, recency, r.value);
    }
  }

  /** Bearish case: the returned sweep high lies strictly above the maxima before and after it. */
  lemma QmlBearSweepsAbove(highs: seq<real>, idx: nat, order: int, recency: int)
    requires order >= 1
    ensures DetectQmlBear(highs, idx, order, recency).Some? ==>
      exists i1: nat, i2: nat, i3: nat ::
        && QmlTriple(Prefix(highs, idx), Maximum, order, idx, recency, i1, i2, i3)
        && DetectQmlBear(highs, idx, order, recency).value == highs[i2]
        && highs[i2] > highs[i1] && highs[i2] > highs[i3]
  {
    var r := DetectQmlBear(highs, idx, order, recency);
    if r.Some? {
      QmlCharacterization(highs, Maximum, idx, order, recency, r.value);
    }
  }

  /** Fewer than three extrema in the prefix means no pattern. */
  lemma QmlNeedsThreeExtrema(xs: seq<real>, kind: Extremum, idx: nat, order: int, recency: int)
    requires order >= 1
    requires |ArgRelExtrema(Prefix(xs, idx), kind, order)| < 3
    ensures DetectQml(xs, kind, idx, order, recency).None?
  {
  }

  /** No look-ahead: bars after `idx` never affect the detector. */
  lemma QmlIgnoresFuture(xs: seq<real>, ys: seq<real>, kind: Extremum, idx: nat, order: int, recency: int)
    requires order >= 1 && idx < |xs| && idx < |ys| && xs[..idx + 1] == ys[..idx + 1]
    ensures DetectQml(xs, kind, idx, order, recency) == DetectQml(ys, kind, idx, order, recency)
  {
    assert Prefix(xs, idx) == Prefix(ys, idx);
  }

  // ---------------------------------------------------- swings and trends

  /** pandas `tail(k)`: the last `k` entries, or all of them when there are fewer. */
  function Tail(xs: seq<real>, k: nat): (t: seq<real>)
    ensures |t| == if k <= |xs| then k else |xs|
    ensures forall j :: 0 <= j < |t| ==> t[j] == xs[|xs| - |t| + j]
  {
    if k <= |xs| then xs[|xs| - k..] else xs
  }

  /** `find_swing_high` / `find_swing_low`: the price of the last extremum among the last `lookback` bars. */
  function FindSwing(xs: seq<real>, kind: Extremum, lookback: nat, order: int): Option<real>
    requires order >= 1
  {
    if |xs| < lookback then None
    else
      var prices := Tail(xs, lookback);
      var ext := ArgRelExtrema(prices, kind, order);
      if |ext| == 0 then None else Some(prices[ext[|ext| - 1]])
  }

  function FindSwingHigh(highs: seq<real>, lookback: nat, order: int): (r: Option<real>)
    requires order >= 1
    ensures |highs| < lookback ==> r.None?
    ensures r.Some? ==> exists j: nat ::
      LastSwing(Tail(highs, lookback), Maximum, order, j) && r.value == Tail(highs, lookback)[j]
  {
    var r := FindSwing(highs, Maximum, lookback, order);
    if r.Some? then SwingCharacterization(highs, Maximum, lookback, order, r.value); r else r
  }

  function FindSwingLow(lows: seq<real>, lookback: nat, order: int): (r: Option<real>)
    requires order >= 1
    ensures |lows| < lookback ==> r.None?
    ensures r.Some? ==> exists j: nat ::
      LastSwing(Tail(lows, lookback), Minimum, order, j) && r.value == Tail(lows, lookback)[j]
  {
    var r := FindSwing(lows, Minimum, lookback, order);
    if r.Some? then SwingCharacterization(lows, Minimum, lookback, order, r.value); r else r
  }

  /** `j` is the last extremum of `prices`. */
  predicate LastSwing(prices: seq<real>, kind: Extremum, order: int, j: nat) {
    j < |prices| && LastExtrema(prices, kind, order, [j])
  }

  /** A swing is found exactly when the frame is long enough and the window has a last extremum, whose price it is. */
  lemma SwingCharacterization(xs: seq<real>, kind: Extremum, lookback: nat, order: int, v: real)
    requires order >= 1
    ensures FindSwing(xs, kind, lookback, order) == Some(v) <==>
      |xs| >= lookback && exists j: nat :: LastSwing(Tail(xs, lookback), kind, order, j) && v == Tail(xs, lookback)[j]
  {
    var prices := Tail(xs, lookback);
    var ext := ArgRelExtrema(prices, kind, order);
    if FindSwing(xs, kind, lookback, order) == Some(v) {
      var j := ext[|ext| - 1];
      assert ext[|ext| - 1..] == [j];
      ArgRelExtremaSuffix(prices, kind, order, [j]);
      assert LastSwing(prices, kind, order, j);
    }
    if |xs| >= lookback && exists j: nat :: LastSwing(prices, kind, order, j) && v == prices[j] {
      var j: nat :| LastSwing(prices, kind, order, j) && v == prices[j];
      ArgRelExtremaSuffix(prices, kind, order, [j]);
      assert ext[|ext| - 1..] == [j];
      assert ext[|ext| - 1] == j;
    }
  }

  /** Compares the last two extrema of the last `lookback` bars; false when there are fewer than two. */
  function CompareLastTwo(xs: seq<real>, kind: Extremum, lookback: nat, order: int, higher: bool): bool
    requires order >= 1
  {
    var prices := Tail(xs, lookback);
    var ext := ArgRelExtrema(prices, kind, order);
    if |ext| < 2 then false
    else if higher then prices[ext[|ext| - 1]] > prices[ext[|ext| - 2]]
    else prices[ext[|ext| - 1]] < prices[ext[|ext| - 2]]
  }

  function DetectHigherHigh(highs: seq<real>, lookback: nat, order: int): (b: bool)
    requires order >= 1
    ensures b <==> exists i: nat, j: nat :: TrendPair(Tail(highs, lookback), Maximum, order, true, i, j)
  {
    TrendCharacterization(highs, Maximum, lookback, order, true);
    CompareLastTwo(highs, Maximum, lookback, order, true)
  }

  function DetectLowerLow(lows: seq<real>, lookback: nat, order: int): (b: bool)
    requires order >= 1
    ensures b <==> exists i: nat, j: nat :: TrendPair(Tail(lows, lookback), Minimum, order, false, i, j)
  {
    TrendCharacterization(lows, Minimum, lookback, order, false);
    CompareLastTwo(lows, Minimum, lookback, order, false)
  }

  function DetectHigherLow(lows: seq<real>, lookback: nat, order: int): (b: bool)
    requires order >= 1
    ensures b <==> exists i: nat, j: nat :: TrendPair(Tail(lows, lookback), Minimum, order, true, i, j)
  {
    TrendCharacterization(lows, Minimum, lookback, order, true);
    CompareLastTwo(lows, Minimum, lookback, order, true)
  }

  function DetectLowerHigh(highs: seq<real>, lookback: nat, order: int): (b: bool)
    requires order >= 1
    ensures b <==> exists i: nat, j: nat :: TrendPair(Tail(highs, lookback), Maximum, order, false, i, j)
  {
    TrendCharacterization(highs, Maximum, lookback, order, false);
    CompareLastTwo(highs, Maximum, lookback, order, false)
  }

  /** `i` and `j` are the last two extrema of `prices`, and the later one is higher (or lower) as asked. */
  predicate TrendPair(prices: seq<real>, kind: Extremum, order: int, higher: bool, i: nat, j: nat) {
    && i < j < |prices|
    && LastExtrema(prices, kind, order, [i, j])
    && (if higher then prices[j] > prices[i] else prices[j] < prices[i])
  }

  /** A trend test that holds is witnessed by the last two extrema of the window. */
  lemma TrendHoldsOnLastPair(xs: seq<real>, kind: Extremum, lookback: nat, order: int, higher: bool)
    requires order >= 1 && CompareLastTwo(xs, kind, lookback, order, higher)
    ensures var ext := ArgRelExtrema(Tail(xs, lookback), kind, order);
      |ext| >= 2 && TrendPair(Tail(xs, lookback), kind, order, higher, ext[|ext| - 2], ext[|ext| - 1])
  {
    var prices := Tail(xs, lookback);
    var ext := ArgRelExtrema(prices, kind, order);
    var i, j := ext[|ext| - 2], ext[|ext| - 1];
    assert ext[|ext| - 2..] == [i, j];
    SuffixIsLastExtrema(prices, kind, order, [i, j]);
  }

  /** Two last extrema ordered the asked way make the trend test hold. */
  lemma LastPairMakesTrend(xs: seq<real>, kind: Extremum, lookback: nat, order: int, higher: bool, i: nat, j: nat)
    requires order >= 1 && TrendPair(Tail(xs, lookback), kind, order, higher, i, j)
    ensures CompareLastTwo(xs, kind, lookback, order, higher)
  {
    var prices := Tail(xs, lookback);
    var ext := ArgRelExtrema(prices, kind, order);
    LastExtremaIsSuffix(prices, kind, order, [i, j]);
    assert ext[|ext| - 2..] == [i, j];
    assert ext[|ext| - 1] == j && ext[|ext| - 2] == i;
  }

  /** A trend test holds exactly when the window ends in two extrema ordered the asked way. */
  lemma TrendCharacterization(xs: seq<real>, kind: Extremum, lookback: nat, order: int, higher: bool)
    requires order >= 1
    ensures CompareLastTwo(xs, kind, lookback, order, higher) <==>
      exists i: nat, j: nat :: TrendPair(Tail(xs, lookback), kind, order, higher, i, j)
  {
    if CompareLastTwo(xs, kind, lookback, order, higher) {
      TrendHoldsOnLastPair(xs, kind, lookback, order, higher);
    }
    if exists i: nat, j: nat :: TrendPair(Tail(xs, lookback), kind, order, higher, i, j) {
      var i: nat, j: nat :| TrendPair(Tail(xs, lookback), kind, order, higher, i, j);
      LastPairMakesTrend(xs, kind, lookback, order, higher, i, j);
    }
  }
}
