/**
 * The C operators and Arduino-core helpers that the firmware's integer
 * arithmetic relies on, stated over unbounded integers.
 */
module Arduino {

  /**
   * Division by a positive divisor with the quotient truncated toward zero:
   * C's integer `/`, and also the conversion to an integer of an exact
   * floating-point quotient (the ramp's step).
   */
  function TruncDiv(a: int, b: int): (q: int)
    requires b > 0
    ensures a >= 0 ==> 0 <= q * b <= a < q * b + b
    ensures a < 0 ==> q * b - b < a <= q * b <= 0
  {
    if a >= 0 then DivBounds(a, b); a / b else DivBounds(-a, b); -((-a) / b)
  }

  lemma DivBounds(a: int, b: int)
    requires a >= 0 && b > 0
    ensures 0 <= (a / b) * b <= a < (a / b) * b + b
  {
    assert a == (a / b) * b + a % b;
  }

  /** C's `%` by a positive divisor: the remainder takes the sign of the dividend. */
  function TruncRem(a: int, b: int): (r: int)
    requires b > 0
    ensures -b < r < b
    ensures a >= 0 ==> 0 <= r
    ensures 0 <= a < b ==> r == a
    ensures a == b ==> r == 0
  {
    if a >= 0 then ModBounds(a, b); a % b else ModBounds(-a, b); -((-a) % b)
  }

  lemma ModBounds(a: int, b: int)
    requires a >= 0 && b > 0
    ensures 0 <= a % b < b
    ensures a < b ==> a % b == a
    ensures a == b ==> a % b == 0
  {
    assert a == (a / b) * b + a % b;
    if a < b {
      assert a / b == 0;
    } else if a == b {
      assert a / b == 1;
    }
  }

  /** The conversion of a floating-point value to an integer type: truncation toward zero. */
  function Trunc(x: real): (n: int)
    ensures x >= 0.0 ==> 0 <= n && n as real <= x < n as real + 1.0
    ensures x < 0.0 ==> n <= 0 && n as real - 1.0 < x <= n as real
  {
    if x >= 0.0 then x.Floor else -((-x).Floor)
  }

  /** Arduino's `constrain(x, lo, hi)`: the point of [lo, hi] nearest to x. */
  function Constrain(x: int, lo: int, hi: int): (r: int)
    requires lo <= hi
    ensures lo <= r <= hi
    ensures lo <= x <= hi ==> r == x
    ensures x < lo ==> r == lo
    ensures hi < x ==> r == hi
  {
    if x < lo then lo else if x > hi then hi else x
  }

  /**
   * Arduino's `map` on `long`s: a linear rescale whose division truncates
   * toward zero. Some cores (the ESP8266 one among them) add half the divisor
   * before dividing, which rounds instead; the two agree for x in
   * [inMin, inMax] whenever the input span divides the output span exactly,
   * as 20 divides 1000 for the fan rule (outside that range they can differ).
   */
  function Map(x: int, inMin: int, inMax: int, outMin: int, outMax: int): (r: int)
    requires inMin < inMax
    ensures x == inMin ==> r == outMin
    ensures x == inMax && outMin <= outMax ==> r == outMax
  {
    var r := TruncDiv((x - inMin) * (outMax - outMin), inMax - inMin) + outMin;
    if x == inMax && outMin <= outMax then MulDivCancel(outMax - outMin, inMax - inMin); r else r
  }

  lemma MulDivCancel(k: int, d: int)
    requires k >= 0 && d > 0
    ensures TruncDiv(d * k, d) == k
  {
    var a := d * k;
    assert a >= 0 by { MulNonNegative(d, k); }
    var q := a / d;
    var r := a % d;
    assert a == q * d + r && 0 <= r < d;
    var m := k - q;
    assert m * d == r by {
      assert m * d == k * d - q * d;
    }
    if m >= 1 {
      MulNonNegative(m - 1, d);
      assert false;
    } else if m <= -1 {
      MulNonNegative(-m - 1, d);
      assert false;
    }
  }

  lemma MulNonNegative(x: int, y: int)
    requires x >= 0 && y >= 0
    ensures x * y >= 0
  {
  }

  function Min(a: int, b: int): int { if a <= b then a else b }

  function Max(a: int, b: int): int { if a <= b then b else a }

  /** `constrain` never reverses the order of its arguments. */
  lemma ConstrainMonotone(x: int, y: int, lo: int, hi: int)
    requires lo <= hi && x <= y
    ensures Constrain(x, lo, hi) <= Constrain(y, lo, hi)
  {
  }
}
