/** Integer division with JavaScript's rounding, shared by the tax and the rate code. */
module Rounding {

  /** JavaScript's `Math.round(n / d)`: the nearest integer, halves rounding up, also for negatives. */
  function RoundDiv(n: int, d: int): (r: int)
    requires d > 0
    ensures 2 * n - d < 2 * d * r <= 2 * n + d
  {
    var q := (2 * n + d) / (2 * d);
    assert 2 * n + d == 2 * d * q + (2 * n + d) % (2 * d);
    q
  }

  lemma RoundDivMonotone(n: int, m: int, d: int)
    requires d > 0 && n <= m
    ensures RoundDiv(n, d) <= RoundDiv(m, d)
  {
    var k := RoundDiv(n, d) - RoundDiv(m, d);
    assert 2 * d * k == 2 * d * RoundDiv(n, d) - 2 * d * RoundDiv(m, d);
    assert d * k < d * 1;
    FactorBelow(d, k, 1);
  }

  lemma FactorBelow(d: int, k: int, bound: int)
    requires d > 0 && d * k < d * bound
    ensures k < bound
  {}

  function Abs(n: int): (r: int)
    ensures r >= 0
  {
    if n < 0 then -n else n
  }

  function Max(a: int, b: int): int {
    if a < b then b else a
  }

  function Min(a: int, b: int): int {
    if a < b then a else b
  }
}
