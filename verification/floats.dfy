/**
 * Float values that may be NaN.
 *
 * A price column that pandas fills with NaN while a rolling window is not yet
 * full is modelled as `seq<Option<real>>`; `None` is NaN. Arithmetic propagates
 * NaN and every ordered comparison with NaN is false, as in IEEE arithmetic.
 */
module Floats {
  import opened Wrappers

  function Plus(a: Option<real>, b: Option<real>): Option<real> {
    if a.Some? && b.Some? then Some(a.value + b.value) else None
  }

  function Minus(a: Option<real>, b: Option<real>): Option<real> {
    if a.Some? && b.Some? then Some(a.value - b.value) else None
  }

  function Times(a: Option<real>, b: Option<real>): Option<real> {
    if a.Some? && b.Some? then Some(a.value * b.value) else None
  }

  predicate Less(a: Option<real>, b: Option<real>) {
    a.Some? && b.Some? && a.value < b.value
  }

  predicate LessEq(a: Option<real>, b: Option<real>) {
    a.Some? && b.Some? && a.value <= b.value
  }

  predicate Greater(a: Option<real>, b: Option<real>) {
    a.Some? && b.Some? && a.value > b.value
  }

  predicate GreaterEq(a: Option<real>, b: Option<real>) {
    a.Some? && b.Some? && a.value >= b.value
  }

  /** Python's builtin `max(a, b)`: keeps `a` unless `b > a`. */
  function PyMax(a: Option<real>, b: Option<real>): Option<real> {
    if Greater(b, a) then b else a
  }

  /** Python's builtin `min(a, b)`: keeps `a` unless `b < a`. */
  function PyMin(a: Option<real>, b: Option<real>): Option<real> {
    if Less(b, a) then b else a
  }

  function Max(a: real, b: real): real {
    if a >= b then a else b
  }

  function Abs(a: real): real {
    if a < 0.0 then -a else a
  }
}
