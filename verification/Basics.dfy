/** What every component uses: optional values, bounds, and the few product facts. */
module Basics {

  datatype Option<+T> = None | Some(value: T)

  function Max(a: real, b: real): real { if a >= b then a else b }

  function Min(a: real, b: real): real { if a <= b then a else b }

  function MaxInt(a: int, b: int): int { if a >= b then a else b }

  function MinInt(a: int, b: int): int { if a <= b then a else b }

  lemma ProductMonotone(x: real, y: real, f: real)
    requires x <= y && f >= 0.0
    ensures x * f <= y * f
  {
    assert (y - x) * f >= 0.0;
  }

  lemma ProductPositive(x: real, f: real)
    requires x > 0.0 && f > 0.0
    ensures x * f > 0.0
  {
  }
}
