/** Small value types and arithmetic shared by every module. */
module Prelude {
  datatype Option<+T> = None | Some(value: T)

  function Min(x: int, y: int): int { if x <= y then x else y }

  function Max(x: int, y: int): int { if x >= y then x else y }

  /** Integer ceiling of `x / d`. */
  function CeilDiv(x: int, d: nat): (q: int)
    requires d > 0
    ensures (q - 1) * d < x <= q * d
  {
    -((-x) / d)
  }

  /** The ceiling is the least integer whose multiple reaches `x`. */
  lemma {:induction false} CeilDivUnique(x: int, d: nat, q: int)
    requires d > 0 && (q - 1) * d < x <= q * d
    ensures q == CeilDiv(x, d)
  {
  }

  lemma {:induction false} CeilDivMonotone(x: int, y: int, d: nat)
    requires d > 0 && x <= y
    ensures CeilDiv(x, d) <= CeilDiv(y, d)
  {
  }

  /** A multiple of `d` smaller than `d` is zero. */
  lemma {:induction false} MulSmall(k: int, d: int, z: int)
    requires k * d == z && -d < z < d
    ensures k == 0
  {
  }

  lemma {:induction false} MulMonotone(x: int, y: int, d: nat)
    ensures x <= y ==> x * d <= y * d
  {
  }
}
