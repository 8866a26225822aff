/**
 * The pure helpers of `src/core/bingx_client.py`: symbol normalisation, the
 * signed query string, the order-side mapping and the position size.
 */
module Bingx {
  import opened Wrappers
  import Floats

  // ---------------------------------------------------------------------------
  // Symbols
  // ---------------------------------------------------------------------------

  predicate EndsWith(s: string, suffix: string) {
    |suffix| <= |s| && s[|s| - |suffix|..] == suffix
  }

  /** `s` with every `-` removed. */
  function Undash(s: string): (r: string)
    ensures '-' !in r
  {
    if |s| == 0 then []
    else (if s[0] == '-' then [] else [s[0]]) + Undash(s[1..])
  }

  lemma {:induction false} UndashAppend(a: string, b: string)
    ensures Undash(a + b) == Undash(a) + Undash(b)
  {
    if |a| == 0 {
      assert a + b == b;
    } else {
      assert (a + b)[0] == a[0];
      assert (a + b)[1..] == a[1..] + b;
      UndashAppend(a[1..], b);
    }
  }

  lemma {:induction false} UndashNoDash(s: string)
    requires '-' !in s
    ensures Undash(s) == s
  {
    if |s| > 0 {
      UndashNoDash(s[1..]);
    }
  }

  /**
   * `_to_bingx_symbol`: a symbol with a dash is already in BingX form; one
   * ending in `USDT` gets a dash before the quote currency; any other symbol
   * is left alone.
   */
  function ToBingxSymbol(symbol: string): (r: string)
    ensures '-' in symbol ==> r == symbol
    ensures '-' !in symbol && EndsWith(symbol, "USDT") ==>
      '-' in r && EndsWith(r, "-USDT") && |r| == |symbol| + 1 && r[..|symbol| - 4] == symbol[..|symbol| - 4]
    ensures '-' !in symbol && !EndsWith(symbol, "USDT") ==> r == symbol
  {
    if '-' in symbol then symbol
    else if EndsWith(symbol, "USDT") then symbol[..|symbol| - 4] + "-USDT"
    else symbol
  }

  /** Converting twice is converting once. */
  lemma ToBingxSymbolIdempotent(symbol: string)
    ensures ToBingxSymbol(ToBingxSymbol(symbol)) == ToBingxSymbol(symbol)
  {
  }

  /** The conversion only ever inserts one dash: removing the dashes gives back a dash-free input. */
  lemma ToBingxSymbolKeepsLetters(symbol: string)
    requires '-' !in symbol
    ensures Undash(ToBingxSymbol(symbol)) == symbol
  {
    UndashNoDash(symbol);
    if EndsWith(symbol, "USDT") {
      var base := symbol[..|symbol| - 4];
      assert symbol == base + "USDT";
      UndashAppend(base, "-USDT");
      UndashAppend(base, "USDT");
      UndashNoDash(base);
      assert Undash("-USDT") == "USDT";
      assert Undash("USDT") == "USDT";
    }
  }

  /** Removing the dash put between two dash-free halves joins them again. */
  lemma UndashAroundDash(a: string, b: string)
    requires '-' !in a && '-' !in b
    ensures Undash(a + "-" + b) == a + b
  {
    var d: string := "-";
    assert Undash(d) == [] by { assert d[1..] == []; }
    assert Undash(a + d + b) == Undash(a + d) + Undash(b) by { UndashAppend(a + d, b); }
    assert Undash(a + d) == Undash(a) + [] by { UndashAppend(a, d); }
    assert Undash(a) == a by { UndashNoDash(a); }
    assert Undash(b) == b by { UndashNoDash(b); }
    assert a + [] == a;
  }

  /** Inserting one dash at `k` into a dash-free string. */
  lemma InsertDash(sym: string, k: nat)
    requires '-' !in sym && k <= |sym|
    ensures var r := sym[..k] + "-" + sym[k..];
      && '-' in r && |r| == |sym| + 1 && Undash(r) == sym
      && r[..k] == sym[..k] && r[k] == '-' && r[k + 1..] == sym[k..]
  {
    var a, b := sym[..k], sym[k..];
    var r := a + "-" + b;
    assert r[k] == '-';
    assert r[..k] == a;
    assert r[k + 1..] == b;
    assert sym == a + b;
    UndashAroundDash(a, b);
  }

  /**
   * The symbol fix-up of `get_positions`: `symbol or self.symbol`, and
   * without a dash, `sym[:-4] + "-" + sym[-4:]`. Python's negative slices
   * clamp, so a symbol of fewer than four characters gets a leading dash.
   */
  function PositionsSymbol(symbol: Option<string>, clientSymbol: string): (r: string)
    ensures var sym := if symbol.None? || symbol.value == "" then clientSymbol else symbol.value;
      && '-' in r
      && ('-' in sym ==> r == sym)
      && ('-' !in sym ==> |r| == |sym| + 1 && Undash(r) == sym)
    ensures var sym := if symbol.None? || symbol.value == "" then clientSymbol else symbol.value;
      '-' !in sym ==>
        var k := if |sym| >= 4 then |sym| - 4 else 0;
        r[..k] == sym[..k] && r[k] == '-' && r[k + 1..] == sym[k..]
  {
    var sym := if symbol.None? || symbol.value == "" then clientSymbol else symbol.value;
    if '-' in sym then sym
    else
      var k := if |sym| >= 4 then |sym| - 4 else 0;
      InsertDash(sym, k);
      sym[..k] + "-" + sym[k..]
  }

  /** For a dash-free symbol ending in `USDT`, the fix-up agrees with `_to_bingx_symbol`. */
  lemma PositionsSymbolAgrees(symbol: string)
    requires symbol != "" && '-' !in symbol && EndsWith(symbol, "USDT")
    ensures PositionsSymbol(Some(symbol), "") == ToBingxSymbol(symbol)
  {
    var k := |symbol| - 4;
    assert symbol[k..] == "USDT";
    assert symbol[..k] + "-" + symbol[k..] == symbol[..k] + "-USDT";
  }

  // ---------------------------------------------------------------------------
  // The query string
  // ---------------------------------------------------------------------------

  /** Python's `<` on `str`: code points compared left to right, a proper prefix first. */
  predicate StrLess(a: string, b: string)
    decreases |a|
  {
    if |a| == 0 then |b| > 0
    else if |b| == 0 then false
    else if a[0] == b[0] then StrLess(a[1..], b[1..])
    else a[0] < b[0]
  }

  lemma {:induction false} StrLessTransitive(a: string, b: string, c: string)
    requires StrLess(a, b) && StrLess(b, c)
    ensures StrLess(a, c)
    decreases |a|
  {
    if |a| > 0 && a[0] == b[0] && b[0] == c[0] {
      StrLessTransitive(a[1..], b[1..], c[1..]);
    }
  }

  lemma {:induction false} StrLessTotal(a: string, b: string)
    ensures a == b || StrLess(a, b) || StrLess(b, a)
    decreases |a|
  {
    if |a| > 0 && |b| > 0 && a[0] == b[0] {
      StrLessTotal(a[1..], b[1..]);
      if a[1..] == b[1..] {
        assert a == [a[0]] + a[1..] && b == [b[0]] + b[1..];
      }
    }
  }

  /** A parameter with its value as `str` renders it; `None` values are dropped. */
  type Param = (string, Option<string>)

  /** The keys of a Python dict are distinct. */
  predicate DistinctKeys(params: seq<Param>) {
    forall i, j :: 0 <= i < j < |params| ==> params[i].0 != params[j].0
  }

  /** `{k: v for k, v in params.items() if v is not None}`, as (key, value) pairs in dict order. */
  function Present(params: seq<Param>): (kept: seq<(string, string)>)
    ensures |kept| <= |params|
    ensures forall k, v :: (k, v) in kept <==> (k, Some(v)) in params
  {
    if |params| == 0 then []
    else
      var rest := Present(params[1..]);
      assert forall p :: p in params <==> p == params[0] || p in params[1..];
      if params[0].1.Some? then [(params[0].0, params[0].1.value)] + rest else rest
  }

  lemma {:induction false} PresentDistinct(params: seq<Param>)
    requires DistinctKeys(params)
    ensures forall i, j :: 0 <= i < j < |Present(params)| ==> Present(params)[i].0 != Present(params)[j].0
  {
    if |params| > 0 {
      PresentDistinct(params[1..]);
      var rest := Present(params[1..]);
      forall j | 0 <= j < |rest|
        ensures rest[j].0 != params[0].0
      {
        assert (rest[j].0, Some(rest[j].1)) in params[1..];
      }
    }
  }

  /** Strictly increasing keys. */
  predicate SortedByKey(s: seq<(string, string)>) {
    forall i, j :: 0 <= i < j < |s| ==> StrLess(s[i].0, s[j].0)
  }

  /** Inserts `p` before the first pair whose key is not smaller. */
  function Insert(p: (string, string), s: seq<(string, string)>): (r: seq<(string, string)>)
    ensures multiset(r) == multiset(s) + multiset{p}
    ensures forall q :: q in r <==> q == p || q in s
  {
    if |s| == 0 || !StrLess(s[0].0, p.0) then [p] + s
    else
      assert s == [s[0]] + s[1..];
      [s[0]] + Insert(p, s[1..])
  }

  lemma {:induction false} InsertSorted(p: (string, string), s: seq<(string, string)>)
    requires SortedByKey(s) && forall q :: q in s ==> q.0 != p.0
    ensures SortedByKey(Insert(p, s))
  {
    if |s| > 0 && StrLess(s[0].0, p.0) {
      InsertSorted(p, s[1..]);
      var r := Insert(p, s[1..]);
      forall j | 0 <= j < |r|
        ensures StrLess(s[0].0, r[j].0)
      {
        assert r[j] in r;
        if r[j] != p {
          assert r[j] in s[1..];
          var m :| 0 <= m < |s[1..]| && s[1..][m] == r[j];
          assert s[m + 1] == r[j];
        }
      }
    } else if |s| > 0 {
      StrLessTotal(s[0].0, p.0);
      forall j | 0 <= j < |s|
        ensures StrLess(p.0, s[j].0)
      {
        if j > 0 {
          StrLessTransitive(p.0, s[0].0, s[j].0);
        }
      }
    }
  }

  /** `sorted` on the keys, carrying each key's value along. */
  function SortByKey(s: seq<(string, string)>): (r: seq<(string, string)>)
    ensures multiset(r) == multiset(s)
    ensures forall q :: q in r <==> q in s
  {
    if |s| == 0 then []
    else
      assert s == [s[0]] + s[1..];
      Insert(s[0], SortByKey(s[1..]))
  }

  /** With distinct keys, sorting yields the same pairs in strictly increasing key order. */
  lemma {:induction false} SortByKeySorted(s: seq<(string, string)>)
    requires forall i, j :: 0 <= i < j < |s| ==> s[i].0 != s[j].0
    ensures SortedByKey(SortByKey(s)) && multiset(SortByKey(s)) == multiset(s)
  {
    if |s| > 0 {
      SortByKeySorted(s[1..]);
      var r := SortByKey(s[1..]);
      forall q | q in r
        ensures q.0 != s[0].0
      {
        var m :| 0 <= m < |s[1..]| && s[1..][m] == q;
        assert s[m + 1] == q;
      }
      InsertSorted(s[0], r);
    }
  }

  /** `"&".join(parts)`. */
  function Join(parts: seq<string>, sep: char): string
  {
    if |parts| == 0 then ""
    else if |parts| == 1 then parts[0]
    else parts[0] + [sep] + Join(parts[1..], sep)
  }

  function IndexOf(s: string, c: char): (i: nat)
    requires c in s
    ensures i < |s| && s[i] == c && c !in s[..i]
  {
    if s[0] == c then 0
    else
      var i := IndexOf(s[1..], c);
      assert s[..i + 1] == [s[0]] + s[1..][..i];
      i + 1
  }

  /** The first separator is the one right after a separator-free prefix. */
  lemma {:induction false} IndexOfAfter(a: string, sep: char, t: string)
    requires sep !in a
    ensures IndexOf(a + [sep] + t, sep) == |a|
  {
    if |a| > 0 {
      assert (a + [sep] + t)[1..] == a[1..] + [sep] + t;
      IndexOfAfter(a[1..], sep, t);
    }
  }

  /** `s.split(sep)`. */
  function Split(s: string, sep: char): (parts: seq<string>)
    ensures |parts| >= 1
    decreases |s|
  {
    if sep !in s then [s]
    else
      var i := IndexOf(s, sep);
      [s[..i]] + Split(s[i + 1..], sep)
  }

  /** Splitting at the first separator, right after a separator-free prefix. */
  lemma SplitCons(a: string, sep: char, t: string)
    requires sep !in a
    ensures Split(a + [sep] + t, sep) == [a] + Split(t, sep)
  {
    var s := a + [sep] + t;
    assert s[|a|] == sep;
    IndexOfAfter(a, sep, t);
    assert s[..|a|] == a;
    assert s[|a| + 1..] == t;
  }

  /** Splitting a joined list at a separator none of its parts holds gives the parts back. */
  lemma {:induction false} SplitJoin(parts: seq<string>, sep: char)
    requires |parts| > 0 && forall k :: 0 <= k < |parts| ==> sep !in parts[k]
    ensures Split(Join(parts, sep), sep) == parts
  {
    if |parts| > 1 {
      assert Join(parts, sep) == parts[0] + [sep] + Join(parts[1..], sep);
      SplitCons(parts[0], sep, Join(parts[1..], sep));
      SplitJoin(parts[1..], sep);
      assert parts == [parts[0]] + parts[1..];
    } else {
      assert Join(parts, sep) == parts[0];
    }
  }

  lemma {:induction false} JoinAppend(parts: seq<string>, last: string, sep: char)
    requires |parts| > 0
    ensures Join(parts + [last], sep) == Join(parts, sep) + [sep] + last
  {
    if |parts| == 1 {
      assert (parts + [last])[1..] == [last];
    } else {
      assert (parts + [last])[1..] == parts[1..] + [last];
      JoinAppend(parts[1..], last, sep);
    }
  }

  function Digit(d: nat): (c: char)
    requires d < 10
    ensures '0' <= c <= '9'
  {
    ['0', '1', '2', '3', '4', '5', '6', '7', '8', '9'][d]
  }

  function NatToString(n: nat): (s: string)
    ensures |s| >= 1 && forall k :: 0 <= k < |s| ==> '0' <= s[k] <= '9'
  {
    if n < 10 then [Digit(n)] else NatToString(n / 10) + [Digit(n % 10)]
  }

  /** `str(n)` of a Python `int`. */
  function IntToString(n: int): (s: string)
    ensures '&' !in s && '=' !in s
  {
    if n < 0 then "-" + NatToString(-n) else NatToString(n)
  }

  /** The `key=value` pieces of the query, in sorted key order. */
  function Pieces(params: seq<Param>): seq<string>
  {
    var sorted := SortByKey(Present(params));
    seq(|sorted|, i requires 0 <= i < |sorted| => sorted[i].0 + "=" + sorted[i].1)
  }

  /**
   * `_build_params` with the millisecond timestamp given: the present
   * parameters as `key=value` in sorted key order joined by `&`, then
   * `timestamp=…`.
   */
  function BuildParams(params: seq<Param>, timestamp: int): (q: string)
    ensures EndsWith(q, "timestamp=" + IntToString(timestamp))
  {
    var query := Join(Pieces(params), '&');
    var stamp := "timestamp=" + IntToString(timestamp);
    if query != "" then query + "&" + stamp else stamp
  }

  lemma {:induction false} JoinNonEmpty(parts: seq<string>, sep: char)
    requires |parts| > 0 && parts[0] != ""
    ensures Join(parts, sep) != ""
  {
    if |parts| > 1 {
      assert |Join(parts, sep)| >= |parts[0]|;
    }
  }

  /**
   * The query is the sorted pieces followed by the timestamp piece, joined by
   * `&`; with no parameter present it is the timestamp piece alone.
   */
  lemma BuildParamsShape(params: seq<Param>, timestamp: int)
    ensures BuildParams(params, timestamp) == Join(Pieces(params) + ["timestamp=" + IntToString(timestamp)], '&')
    ensures Present(params) == [] ==> BuildParams(params, timestamp) == "timestamp=" + IntToString(timestamp)
  {
    var pieces := Pieces(params);
    var stamp := "timestamp=" + IntToString(timestamp);
    if |pieces| == 0 {
      assert pieces + [stamp] == [stamp];
    } else {
      JoinAppend(pieces, stamp, '&');
      var p := SortByKey(Present(params))[0];
      assert pieces[0] == p.0 + "=" + p.1;
      JoinNonEmpty(pieces, '&');
    }
  }

  lemma PiecesHaveNoAmpersand(params: seq<Param>)
    requires forall k :: 0 <= k < |params| ==> '&' !in params[k].0 && (params[k].1.Some? ==> '&' !in params[k].1.value)
    ensures forall k :: 0 <= k < |Pieces(params)| ==> '&' !in Pieces(params)[k]
  {
    var sorted := SortByKey(Present(params));
    forall k | 0 <= k < |sorted|
      ensures '&' !in sorted[k].0 + "=" + sorted[k].1
    {
      var p := sorted[k];
      assert p in Present(params);
      var m :| 0 <= m < |params| && params[m] == (p.0, Some(p.1));
    }
  }

  /**
   * Reading the query back: when no key or value holds `&`, splitting at `&`
   * gives the `key=value` pieces in sorted key order and the timestamp piece
   * last.
   */
  lemma BuildParamsSplits(params: seq<Param>, timestamp: int)
    requires forall k :: 0 <= k < |params| ==> '&' !in params[k].0 && (params[k].1.Some? ==> '&' !in params[k].1.value)
    ensures Split(BuildParams(params, timestamp), '&') == Pieces(params) + ["timestamp=" + IntToString(timestamp)]
  {
    BuildParamsShape(params, timestamp);
    var pieces := Pieces(params);
    var stamp := "timestamp=" + IntToString(timestamp);
    PiecesHaveNoAmpersand(params);
    assert forall k :: 0 <= k < |pieces + [stamp]| ==> '&' !in (pieces + [stamp])[k] by {
      forall k | 0 <= k < |pieces + [stamp]|
        ensures '&' !in (pieces + [stamp])[k]
      {
        if k < |pieces| {
          assert (pieces + [stamp])[k] == pieces[k];
        }
      }
    }
    SplitJoin(pieces + [stamp], '&');
  }

  /**
   * The pieces name every present parameter once, with its value, in strictly
   * increasing key order.
   */
  lemma PiecesSorted(params: seq<Param>)
    requires DistinctKeys(params)
    ensures var sorted := SortByKey(Present(params));
      && |Pieces(params)| == |sorted|
      && (forall i :: 0 <= i < |sorted| ==> Pieces(params)[i] == sorted[i].0 + "=" + sorted[i].1)
      && SortedByKey(sorted)
      && (forall k, v :: (k, v) in sorted <==> (k, Some(v)) in params)
  {
    PresentDistinct(params);
    SortByKeySorted(Present(params));
  }

  // ---------------------------------------------------------------------------
  // Order sides
  // ---------------------------------------------------------------------------

  datatype OrderSide = BUY | SELL
  datatype PositionSide = LONG | SHORT

  /** `str.lower` on ASCII letters. */
  function Lower(s: string): (r: string)
    ensures |r| == |s|
  {
    seq(|s|, i requires 0 <= i < |s| => if 'A' <= s[i] <= 'Z' then (s[i] as int + 32) as char else s[i])
  }

  /** `side.lower() == "long"`. */
  predicate IsLong(side: string) {
    Lower(side) == "long"
  }

  /** `place_market_order`: a long position is opened with a buy, anything else with a sell. */
  function OpenSides(side: string): (r: (OrderSide, PositionSide))
    ensures r.0 == BUY <==> r.1 == LONG
    ensures r.1 == LONG <==> IsLong(side)
  {
    if IsLong(side) then (BUY, LONG) else (SELL, SHORT)
  }

  /** `set_stop_loss` / `set_take_profit`: the position is closed with the opposite order side. */
  function CloseSides(side: string): (r: (OrderSide, PositionSide))
    ensures r.0 == SELL <==> r.1 == LONG
    ensures r.1 == LONG <==> IsLong(side)
  {
    if IsLong(side) then (SELL, LONG) else (BUY, SHORT)
  }

  /** Closing orders keep the position side and flip the order side of the opening order. */
  lemma CloseOpposesOpen(side: string)
    ensures CloseSides(side).1 == OpenSides(side).1
    ensures CloseSides(side).0 != OpenSides(side).0
  {
  }

  /** The spelling of `long` does not matter, and any other word means short. */
  lemma SideSpellings()
    ensures OpenSides("long") == (BUY, LONG) && OpenSides("LONG") == (BUY, LONG) && OpenSides("Long") == (BUY, LONG)
    ensures OpenSides("short") == (SELL, SHORT) && OpenSides("buy") == (SELL, SHORT) && OpenSides("") == (SELL, SHORT)
  {
    assert Lower("LONG") == "long";
    assert Lower("Long") == "long";
    assert Lower("short") != "long";
    assert Lower("buy") != "long";
  }

  // ---------------------------------------------------------------------------
  // Position size
  // ---------------------------------------------------------------------------

  /** The quantity decimals for a price with `decimals` decimal places. */
  function QtyPrecision(decimals: nat): (p: nat)
    ensures p <= 3
  {
    if decimals >= 3 then 0
    else if decimals >= 2 then 1
    else if decimals >= 1 then 2
    else 3
  }

  /** Price and quantity decimals add up to at least three, and exactly three below three price decimals. */
  lemma QtyPrecisionTiers(decimals: nat)
    ensures decimals <= 3 ==> QtyPrecision(decimals) == 3 - decimals
    ensures decimals >= 3 ==> QtyPrecision(decimals) == 0
  {
  }

  /** A finer-priced instrument never gets more quantity decimals. */
  lemma QtyPrecisionMonotone(d1: nat, d2: nat)
    requires d1 <= d2
    ensures QtyPrecision(d2) <= QtyPrecision(d1)
  {
  }

  function Pow10(n: nat): (p: nat)
    ensures p >= 1
  {
    if n == 0 then 1 else 10 * Pow10(n - 1)
  }

  /**
   * The number of `10^-n` units `round(x, n)` keeps: the integer nearest to
   * `x * 10^n`, a tie going to the even one.
   */
  function RoundUnits(x: real, n: nat): (m: int)
    ensures -0.5 <= m as real - x * Pow10(n) as real <= 0.5
    ensures m as real - x * Pow10(n) as real == 0.5 || m as real - x * Pow10(n) as real == -0.5 ==> m % 2 == 0
  {
    var y := x * Pow10(n) as real;
    var f := y.Floor;
    var frac := y - f as real;
    if frac > 0.5 then f + 1
    else if frac < 0.5 then f
    else if f % 2 == 0 then f
    else f + 1
  }

  /** `round(x, n)`: a multiple of `10^-n` within half a unit of `x`. */
  function Round(x: real, n: nat): (r: real)
    ensures r == RoundUnits(x, n) as real / Pow10(n) as real
    ensures -0.5 / Pow10(n) as real <= r - x <= 0.5 / Pow10(n) as real
  {
    var scale := Pow10(n) as real;
    var m := RoundUnits(x, n);
    assert scale >= 1.0;
    assert -0.5 <= m as real - x * scale <= 0.5;
    ScaleBack(m, x, scale);
    m as real / scale
  }

  /** Dividing an integer `m` near `x * scale` by `scale` lands near `x`. */
  lemma ScaleBack(m: int, x: real, scale: real)
    requires scale >= 1.0 && -0.5 <= m as real - x * scale <= 0.5
    ensures -0.5 / scale <= m as real / scale - x <= 0.5 / scale
  {
    var r := m as real / scale;
    assert r * scale == m as real;
    var d := m as real - x * scale;
    assert r - x == d / scale;
    assert d / scale <= 0.5 / scale by {
      assert (0.5 - d) / scale >= 0.0;
    }
    assert -0.5 / scale <= d / scale by {
      assert (d + 0.5) / scale >= 0.0;
    }
  }

  /**
   * `calculate_quantity`: the amount whose loss from entry to stop is
   * `risk_percent` of the balance, rounded to the precision tier of the entry
   * price's decimals; zero when entry and stop coincide.
   */
  function CalculateQuantity(balance: real, entryPrice: real, stopLoss: real, riskPercent: real, priceDecimals: nat)
    : (qty: real)
    ensures entryPrice == stopLoss ==> qty == 0.0
    ensures entryPrice != stopLoss ==>
      var raw := balance * riskPercent / Floats.Abs(entryPrice - stopLoss);
      && raw * Floats.Abs(entryPrice - stopLoss) == balance * riskPercent
      && qty == Round(raw, QtyPrecision(priceDecimals))
  {
    var riskUsdt := balance * riskPercent;
    var riskPerUnit := Floats.Abs(entryPrice - stopLoss);
    if riskPerUnit == 0.0 then 0.0
    else Round(riskUsdt / riskPerUnit, QtyPrecision(priceDecimals))
  }

  /** The size is within half a unit of its last decimal of the exact risk-based amount. */
  lemma QuantityNearExact(balance: real, entryPrice: real, stopLoss: real, riskPercent: real, priceDecimals: nat)
    requires entryPrice != stopLoss
    ensures var raw := balance * riskPercent / Floats.Abs(entryPrice - stopLoss);
      var unit := 1.0 / Pow10(QtyPrecision(priceDecimals)) as real;
      -unit / 2.0 <= CalculateQuantity(balance, entryPrice, stopLoss, riskPercent, priceDecimals) - raw <= unit / 2.0
  {
  }
}
