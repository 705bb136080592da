/** JavaScript number primitives the dashboard relies on, stated over exact reals.

    `Math.random()` becomes a `Draw`, a value the caller supplies from [0, 1).
    `Math.round`, `Math.floor`, `Math.min` and `Math.max` become the functions below.
 */
module JsNumbers {

  /** One `Math.random()` result. */
  type Draw = r: real | 0.0 <= r < 1.0

  /** `Math.round(x)`: the nearest integer, halves rounded up towards +infinity. */
  function Round(x: real): (n: int)
    ensures x - 0.5 < n as real <= x + 0.5
  {
    (x + 0.5).Floor
  }

  /** `Math.floor(Math.random() * k)`: a uniform pick among 0 .. k-1. */
  function Pick(r: Draw, k: nat): (n: int)
    requires k > 0
    ensures 0 <= n < k
  {
    assert r * k as real < k as real by {
      assert (1.0 - r) * k as real > 0.0;
    }
    (r * k as real).Floor
  }

  /** A value with at most one decimal, as the page writes and reads it back. */
  predicate OnTenths(x: real)
  {
    (x * 10.0).Floor as real == x * 10.0
  }

  /** `parseFloat(x.toFixed(1))`: the nearest tenth, halves rounded away from
      zero (the sign is written separately, the magnitude rounded up). */
  function ToFixed1(x: real): (y: real)
    ensures OnTenths(y)
    ensures x - 0.05 <= y <= x + 0.05
  {
    var n := if x < 0.0 then -Round(-x * 10.0) else Round(x * 10.0);
    assert (n as real / 10.0) * 10.0 == n as real;
    n as real / 10.0
  }

  function MinReal(a: real, b: real): real { if a <= b then a else b }
  function MaxReal(a: real, b: real): real { if a >= b then a else b }
  function MinInt(a: int, b: int): int { if a <= b then a else b }
  function MaxInt(a: int, b: int): int { if a >= b then a else b }

  /** Rounding never reverses the order of two values. */
  lemma RoundMonotone(x: real, y: real)
    requires x <= y
    ensures Round(x) <= Round(y)
  {
    assert (x + 0.5).Floor <= (y + 0.5).Floor;
  }

  /** Rounding leaves whole numbers alone. */
  lemma RoundWhole(n: int)
    ensures Round(n as real) == n
  {
  }

  /** A value no larger than a whole number rounds to no more than it, and no
      smaller than a whole number rounds to no less than it. */
  lemma RoundBetweenWhole(x: real, lo: int, hi: int)
    requires lo as real <= x <= hi as real
    ensures lo <= Round(x) <= hi
  {
    RoundMonotone(lo as real, x);
    RoundMonotone(x, hi as real);
    RoundWhole(lo);
    RoundWhole(hi);
  }

  /** A value already on the tenths grid is stored unchanged. */
  lemma ToFixed1OnTenths(x: real)
    requires OnTenths(x)
    ensures ToFixed1(x) == x
  {
    var m := (x * 10.0).Floor;
    if x < 0.0 {
      RoundWhole(-m);
    } else {
      RoundWhole(m);
    }
  }

  /** Storing with one decimal never reverses the order of two values. */
  lemma ToFixed1Monotone(x: real, y: real)
    requires x <= y
    ensures ToFixed1(x) <= ToFixed1(y)
  {
    if x < 0.0 {
      RoundMonotone(-y * 10.0, -x * 10.0);
      if y >= 0.0 {
        assert -Round(-x * 10.0) <= 0 by { RoundMonotone(0.0, -x * 10.0); RoundWhole(0); }
        RoundMonotone(0.0, y * 10.0);
        RoundWhole(0);
      }
    } else {
      RoundMonotone(x * 10.0, y * 10.0);
    }
  }

  /** A value between two values on the tenths grid is stored between them. */
  lemma ToFixed1Between(x: real, lo: real, hi: real)
    requires OnTenths(lo) && OnTenths(hi) && lo <= x <= hi
    ensures lo <= ToFixed1(x) <= hi
  {
    ToFixed1Monotone(lo, x);
    ToFixed1Monotone(x, hi);
    ToFixed1OnTenths(lo);
    ToFixed1OnTenths(hi);
  }

  /** Moving a value on the tenths grid by whole tenths keeps it on the grid. */
  lemma OnTenthsShift(x: real, k: int)
    requires OnTenths(x)
    ensures OnTenths(x + k as real / 10.0)
  {
    var m := (x * 10.0).Floor;
    assert (x + k as real / 10.0) * 10.0 == (m + k) as real;
    assert ((m + k) as real).Floor == m + k;
  }
}
