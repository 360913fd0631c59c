/** Small numeric helpers shared by the drivers: the clamp written `max(lo, min(hi, x))`
    throughout the drivers, and Python's `int(a / b)` on integers. */
module Util {

  datatype Option<T> = None | Some(value: T)

  function Abs(x: int): nat
  {
    if x < 0 then -x else x
  }

  /** `max(lo, min(hi, x))`, as the drivers write their clamps; when `hi < lo` the `max` wins. */
  function Clamp(x: int, lo: int, hi: int): (r: int)
    ensures lo <= hi ==> lo <= r <= hi
    ensures lo <= x <= hi ==> r == x
    ensures x < lo || hi < lo ==> r == lo
    ensures lo <= hi < x ==> r == hi
  {
    var m := if x < hi then x else hi;
    if lo < m then m else lo
  }

  /** Multiplying by a non-negative number keeps an order. */
  lemma MulLeft(a: int, b: int, c: int)
    requires a <= b && 0 <= c
    ensures a * c <= b * c
  {
    assert b * c - a * c == (b - a) * c;
  }

  /** A quotient rounded down is unique: at most one q has b * q <= n < b * q + b. */
  lemma FloorUnique(n: int, b: int, q1: int, q2: int)
    requires 0 < b
    requires b * q1 <= n < b * q1 + b && b * q2 <= n < b * q2 + b
    ensures q1 == q2
  {
    if q1 < q2 {
      FloorMonotone(n, n, b, q2, q1);
    } else if q2 < q1 {
      FloorMonotone(n, n, b, q1, q2);
    }
  }

  /** Rounding down a quotient by a positive divisor keeps the order of the dividends. */
  lemma FloorMonotone(n: int, m: int, b: int, x: int, y: int)
    requires 0 < b && n <= m
    requires b * x <= n < b * x + b && b * y <= m < b * y + b
    ensures x <= y
  {
    if y < x {
      assert (y + 1) * b == b * y + b;
      assert x * b == b * x;
      MulLeft(y + 1, x, b);
    }
  }

  /** Division by a positive number rounds down: the quotient's multiple brackets the dividend. */
  lemma DivBounds(n: int, d: int)
    requires 0 < d
    ensures 0 <= n ==> 0 <= n / d
    ensures d * (n / d) <= n < d * (n / d) + d
  {
  }

  /** `int(a / b)` in Python: the exact quotient truncated toward zero. For a positive divisor it
      is the largest multiple not above a non-negative dividend, and the smallest not below a
      non-positive one. */
  function TruncDiv(a: int, b: int): (q: int)
    requires b != 0
    ensures 0 < b && 0 <= a ==> 0 <= q && b * q <= a < b * q + b
    ensures 0 < b && a <= 0 ==> q <= 0 && a <= b * q < a + b
  {
    if 0 < b && 0 <= a then
      DivBounds(a, b);
      a / b
    else if 0 < b then
      DivBounds(-a, b);
      -((-a) / b)
    else if a <= 0 then
      (-a) / (-b)
    else
      -(a / (-b))
  }
}
