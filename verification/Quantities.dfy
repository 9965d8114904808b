/** Fixed-point quantities. Volumes are integers of 0.0001 m3, weights of 0.01 kg,
    money of 0.01 IDR, times of 1 ms. */
module Quantities {

  /** `Number((x / k).toFixed(0))`: the nearest integer, ties away from zero
      (section 21.1.3.3 of ECMA-262). */
  function ToFixed(x: int, k: int): (n: int)
    requires 0 < k
    ensures -k <= 2 * (n * k - x) <= k
    ensures 0 <= x ==> 0 <= n && 2 * (n * k - x) != -k
    ensures x < 0 ==> n <= 0 && 2 * (n * k - x) != k
  {
    if 0 <= x then (2 * x + k) / (2 * k) else -((-2 * x + k) / (2 * k))
  }

  /** The same rounding of a non-negative real number. */
  function Nearest(x: real): (n: int)
    requires 0.0 <= x
    ensures n as real - 0.5 <= x < n as real + 0.5
    ensures 0 <= n
  {
    (x + 0.5).Floor
  }

  function CeilDiv(x: int, k: int): (n: int)
    requires 0 < k
    ensures (n - 1) * k < x <= n * k
  {
    (x + k - 1) / k
  }

  function Max(a: int, b: int): (m: int)
    ensures m >= a && m >= b && (m == a || m == b)
  {
    if a < b then b else a
  }
}
