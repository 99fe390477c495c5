/**
 * Java's integer division, remainder and float-to-int cast, written out over
 * Dafny's unbounded integers and reals. Dafny's own `/` and `%` are Euclidean;
 * Java's truncate toward zero, so the two differ on negative operands.
 */
module JavaArith {

  /** Java `a / b` for a positive divisor: the quotient truncated toward zero. */
  function Div(a: int, b: int): (q: int)
    requires b > 0
    ensures a >= 0 ==> q * b <= a < q * b + b
    ensures a < 0 ==> q * b - b < a <= q * b
  {
    if a >= 0 then
      var q := a / b;
      assert a == q * b + a % b && 0 <= a % b < b;
      q
    else
      var p := (-a) / b;
      assert -a == p * b + (-a) % b && 0 <= (-a) % b < b;
      assert (-p) * b == -(p * b);
      -p
  }

  /** Java `a % b` for a positive divisor: the remainder takes the sign of the dividend. */
  function Rem(a: int, b: int): (r: int)
    requires b > 0
    ensures a == Div(a, b) * b + r
    ensures a >= 0 ==> 0 <= r < b
    ensures a < 0 ==> -b < r <= 0
  {
    a - Div(a, b) * b
  }

  /** Java's `(int) x` narrowing cast of a float: truncation toward zero. */
  function FloatToInt(x: real): (n: int)
    ensures x >= 0.0 ==> 0 <= n && n as real <= x < n as real + 1.0
    ensures x < 0.0 ==> n <= 0 && n as real - 1.0 < x <= n as real
  {
    if x >= 0.0 then x.Floor else -((-x).Floor)
  }
}
