/**
 * Facts about multiplication, division and remainder on naturals that the
 * mixed-radix enumeration of the grid and the candle clock both rely on.
 */
module Arith {

  lemma MulSucc(a: nat, s: nat)
    ensures (a + 1) * s == a * s + s
  {
  }

  lemma {:induction false} MulMono(a: nat, b: nat, s: nat)
    ensures a <= b ==> a * s <= b * s
  {
    if a < b {
      MulMono(a, b - 1, s);
      MulSucc(b - 1, s);
    }
  }

  lemma DivMod(p: nat, s: nat)
    requires s > 0
    ensures (p / s) * s + p % s == p && p % s < s
  {
  }

  lemma DivBelow(p: nat, a: nat, s: nat)
    requires p < a * s
    ensures s > 0 && 0 <= p / s < a && p % s < s
  {
    MulMono(a, 0, s);
    var q := p / s;
    MulMono(a, q, s);
  }

  lemma DivMulAdd(a: nat, s: nat, r: nat)
    requires r < s
    ensures (a * s + r) / s == a && (a * s + r) % s == r
  {
    var q := (a * s + r) / s;
    MulSucc(q, s);
    MulSucc(a, s);
    MulMono(q + 1, a, s);
    MulMono(a + 1, q, s);
  }

  /** Adding whole multiples of `n` leaves the remainder modulo `n` unchanged. */
  lemma ModAfterMultiple(q: nat, r: nat, n: nat)
    requires n > 0
    ensures (q * n + r) % n == r % n
  {
    var d := r / n;
    DivMod(r, n);
    assert q * n + r == (q + d) * n + r % n;
    DivMulAdd(q + d, n, r % n);
  }
}
