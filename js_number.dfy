/**
 * JavaScript number operations the dashboard relies on, stated on exact reals:
 * `Math.round`, the truncating remainder `%`, and `toFixed(2)` read back as a number.
 * Binary floating-point representation is not modelled.
 */
module JsNumber {

  /** `Math.round(x)`: nearest integer, halves round towards +infinity. */
  function JsRound(x: real): (r: int)
    ensures x - 1.0 / 2.0 < r as real <= x + 1.0 / 2.0
  {
    (x + 1.0 / 2.0).Floor
  }

  /** `a % b` for `b > 0`: the remainder takes the sign of the dividend. */
  function JsRem(a: int, b: int): (r: int)
    requires b > 0
    ensures a >= 0 ==> 0 <= r < b
    ensures a < 0 ==> -b < r <= 0
  {
    if a >= 0 then a % b else -((-a) % b)
  }

  /** `r` is a whole number of hundredths. */
  predicate WholeCents(r: real) {
    (r * 100.0).Floor as real == r * 100.0
  }

  /**
   * `r` is the multiple of 0.01 nearest to `x`, a tie going away from zero: for `x >= 0`
   * the interval is (x - 0.005, x + 0.005], for `x < 0` it is [x - 0.005, x + 0.005).
   */
  predicate NearestCent(x: real, r: real) {
    && WholeCents(r)
    && (x >= 0.0 ==> x - 1.0 / 200.0 < r <= x + 1.0 / 200.0)
    && (x < 0.0 ==> x - 1.0 / 200.0 <= r < x + 1.0 / 200.0)
  }

  /** `|x|.toFixed(2)` read back: the nearest multiple of 0.01, halves rounding up. */
  function RoundMagnitude2(x: real): (r: real)
    requires x >= 0.0
    ensures 0.0 <= r && x - 1.0 / 200.0 < r <= x + 1.0 / 200.0
    ensures WholeCents(r)
  {
    var k := (x * 100.0 + 1.0 / 2.0).Floor;
    assert (k as real / 100.0) * 100.0 == k as real;
    k as real / 100.0
  }

  /**
   * `parseFloat(x.toFixed(2))`: `toFixed` rounds the magnitude and keeps the sign,
   * so halves round away from zero.
   */
  function ToFixed2(x: real): (r: real)
    ensures NearestCent(x, r)
    ensures x >= 0.0 ==> r >= 0.0
    ensures x <= 0.0 ==> r <= 0.0
  {
    if x < 0.0 then
      var m := RoundMagnitude2(-x);
      var k := (m * 100.0).Floor;
      assert (-m) * 100.0 == (-k) as real;
      -m
    else RoundMagnitude2(x)
  }

  /** At most one value is the nearest cent of `x`, so `NearestCent` fixes the result of `ToFixed2`. */
  lemma NearestCentUnique(x: real, r1: real, r2: real)
    requires NearestCent(x, r1) && NearestCent(x, r2)
    ensures r1 == r2
  {
    var k1 := (r1 * 100.0).Floor;
    var k2 := (r2 * 100.0).Floor;
    assert -1.0 / 100.0 < r1 - r2 < 1.0 / 100.0;
    assert k1 as real - k2 as real == (r1 - r2) * 100.0;
    assert k1 == k2;
  }

  /** Rounding to cents never reverses the order of two numbers. */
  lemma ToFixed2Monotone(a: real, b: real)
    requires a <= b
    ensures ToFixed2(a) <= ToFixed2(b)
  {
    if 0.0 <= a {
      assert (a * 100.0 + 1.0 / 2.0).Floor <= (b * 100.0 + 1.0 / 2.0).Floor;
    } else if b < 0.0 {
      assert (-b * 100.0 + 1.0 / 2.0).Floor <= (-a * 100.0 + 1.0 / 2.0).Floor;
    }
  }
}
