/** Python integer division, which floors, in terms of Dafny's Euclidean division. */
module PyMath {
  /** a // b. */
  function FloorDiv(a: int, b: int): (q: int)
    requires b != 0
    ensures b > 0 ==> b * q <= a < b * q + b
    ensures b < 0 ==> b * q >= a > b * q + b
  {
    if b > 0 then a / b else (-a) / (-b)
  }

  /** ceil(a / b) for b > 0, as math.ceil(a / b) computes it on exact values. */
  function CeilDiv(a: int, b: int): (q: int)
    requires b > 0
    ensures b * q >= a > b * q - b
  {
    (a + b - 1) / b
  }

  function Min(a: int, b: int): int { if a <= b then a else b }
  function Max(a: int, b: int): int { if a >= b then a else b }

  /** 2 ** k. */
  function Pow2(k: nat): (r: nat)
    ensures r >= 1
  {
    if k == 0 then 1 else 2 * Pow2(k - 1)
  }

  /** floor(floor(m * n / t) * 9 / 10) is not negative for non-negative m and n and positive t. */
  lemma {:induction false} ScaledQuotientNonNegative(m: int, n: int, t: int)
    requires m >= 0 && n >= 0 && t > 0
    ensures (m * n / t) * 9 / 10 >= 0
  {
    var p := m * n;
    assert p >= 0;
    var q := p / t;
    assert q >= 0;
  }
}
