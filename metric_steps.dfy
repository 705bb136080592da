/** Refresh steps that both versions of the dashboard share: each reads the
    current header value, moves it by a random step and clamps it.
 */
module MetricSteps {
  import opened JsNumbers

  /** Match rate: up by 0, 1 or 2, capped at 99. */
  function NextMatchRate(current: int, r: Draw): (next: int)
    ensures next <= 99 && next <= current + 2
    ensures current <= 99 ==> current <= next
  {
    MinInt(99, current + Pick(r, 3))
  }

  /** Match time: down by less than 0.1 seconds, never below 0.3. */
  function NextMatchTime(current: real, r: Draw): (next: real)
    ensures next >= 0.3 && next > current - 0.1
    ensures current >= 0.3 ==> next <= current
  {
    MaxReal(0.3, current - r * 0.1)
  }

  /** The match time as the page stores it: the step written with one decimal.
      From a stored value within the band it falls by at most 0.1. */
  function StoredMatchTime(current: real, r: Draw): (next: real)
    ensures OnTenths(next) && next >= 0.3
    ensures OnTenths(current) && current >= 0.3 ==> current - 0.1 <= next <= current
  {
    var x := NextMatchTime(current, r);
    ToFixed1Monotone(0.3, x);
    ToFixed1OnTenths(0.3);
    assert OnTenths(current) && current >= 0.3 ==> current - 0.1 <= ToFixed1(x) <= current by {
      if OnTenths(current) && current >= 0.3 {
        OnTenthsShift(current, -1);
        ToFixed1Between(x, current - 0.1, current);
      }
    }
    ToFixed1(x)
  }

  /** Trial count: a step of -1, 0 or +1, kept within [35, 50]. */
  function NextTrialCount(current: int, r: Draw): (next: int)
    ensures 35 <= next <= 50
    ensures 35 <= current <= 50 ==> current - 1 <= next <= current + 1
  {
    MaxInt(35, MinInt(50, current + Pick(r, 3) - 1))
  }

  /** Coordination score: a step of -2 .. +2, kept within [80, 99]. */
  function NextCoordination(current: int, r: Draw): (next: int)
    ensures 80 <= next <= 99
    ensures 80 <= current <= 99 ==> current - 2 <= next <= current + 2
  {
    MaxInt(80, MinInt(99, current + Pick(r, 5) - 2))
  }
}
