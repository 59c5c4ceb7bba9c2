/** JavaScript number operations, on integers and rationals written out exactly. */
module JsNumbers {

  /** `a % b` in JavaScript: the remainder has the sign of the dividend (Dafny's `%` is Euclidean). */
  function JsRem(a: int, b: int): (r: int)
    requires b != 0
    ensures a >= 0 ==> 0 <= r < if b > 0 then b else -b
    ensures a < 0 ==> -(if b > 0 then b else -b) < r <= 0
    ensures a == JsQuot(a, b) * b + r
  {
    if a >= 0 then a % b else -((-a) % b)
  }

  /** The quotient `Math.trunc(a / b)` that goes with `JsRem`. */
  function JsQuot(a: int, b: int): int
    requires b != 0
  {
    if a >= 0 then a / b else -((-a) / b)
  }

  /** Floor division, which equals Dafny's `/` only for a positive divisor. */
  function FloorDiv(n: int, d: int): (q: int)
    requires d != 0
    ensures d > 0 ==> q * d <= n < q * d + d
    ensures d < 0 ==> q * d >= n > q * d + d
  {
    if d > 0 then n / d else (-n) / (-d)
  }

  /**
   * `Math.round(n / d)`: the nearest integer, halves rounded up, computed on the exact rational
   * `n / d` (round half up is floor(n / d + 1/2) = floor((2n + d) / 2d)).
   */
  function RoundDiv(n: int, d: int): (r: int)
    requires d != 0
    ensures d > 0 ==> (2 * r - 1) * d <= 2 * n < (2 * r + 1) * d
    ensures d < 0 ==> (2 * r - 1) * d >= 2 * n > (2 * r + 1) * d
  {
    FloorDiv(2 * n + d, 2 * d)
  }

  /** The number a string of decimal digits denotes, read from its last digit. */
  ghost function DigitsValue(s: string): int
    decreases |s|
  {
    if s == [] then 0 else 10 * DigitsValue(s[..|s| - 1]) + (s[|s| - 1] as int - '0' as int)
  }

  /**
   * The decimal digits of `n`, as `String(n)` writes a non-negative integer: they denote `n`,
   * and only zero itself starts with the digit 0.
   */
  function NatToString(n: nat): (s: string)
    ensures |s| > 0
    ensures forall i :: 0 <= i < |s| ==> '0' <= s[i] <= '9'
    ensures DigitsValue(s) == n
    ensures n > 0 ==> s[0] != '0'
    decreases n
  {
    if n < 10 then [Digit(n)]
    else
      var prefix, last := NatToString(n / 10), Digit(n % 10);
      assert (prefix + [last])[..|prefix|] == prefix;
      prefix + [last]
  }

  /** The character of a decimal digit. */
  function Digit(d: nat): (c: char)
    requires d < 10
    ensures '0' <= c <= '9'
    ensures c as int - '0' as int == d
  {
    ('0' as int + d) as char
  }

  /** Division with remainder is unique. */
  lemma ModUnique(x: int, n: int, q: int, r: int)
    requires n > 0 && 0 <= r < n && x == q * n + r
    ensures x % n == r
  {
    var q', r' := x / n, x % n;
    assert x == q' * n + r';
    Distrib(q, q', n);
    assert (q - q') * n == r' - r;
    if q > q' {
      MulAtLeast(q - q', n);
      assert false;
    } else if q < q' {
      MulAtLeast(q' - q, n);
      Distrib(q', q, n);
      assert false;
    }
  }

  lemma MulAtLeast(d: int, n: int)
    requires d >= 1 && n > 0
    ensures d * n >= n
  {
  }

  lemma Distrib(q: int, q': int, n: int)
    ensures (q - q') * n == q * n - q' * n
  {
  }
}
