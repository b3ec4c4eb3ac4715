/** Integer ceilings and the `||` numeric fallbacks of the estimator. */
module Numeric {
  import opened Wrappers

  /** `Math.ceil` on exact reals: the least integer not below `x`. */
  function Ceil(x: real): (c: int)
    ensures x <= c as real < x + 1.0
  {
    -((-x).Floor)
  }

  /** `Math.max(1, n)`: the divisor floor used for per-unit and per-sheet shares. */
  function AtLeastOne(n: int): int {
    if n < 1 then 1 else n
  }

  /** `x || d` on a number: an absent or zero value yields the fallback `d`. */
  function OrReal(x: Option<real>, d: real): real {
    if x.Some? && x.value != 0.0 then x.value else d
  }

  /** `x || d` on a sheet count. */
  function OrInt(x: Option<int>, d: int): int {
    if x.Some? && x.value != 0 then x.value else d
  }

  /** Multiplying by a positive factor keeps the order of two reals. */
  lemma MulMonotone(a: real, b: real, k: real)
    requires a <= b && k > 0.0
    ensures a * k <= b * k
  {
  }

  /** Multiplying by a positive factor keeps a strict order. */
  lemma MulStrictMonotone(a: real, b: real, k: real)
    requires a < b && k > 0.0
    ensures a * k < b * k
  {
  }

  /** A positive factor can be cancelled from a strict order. */
  lemma MulCancelLess(a: real, b: real, k: real)
    requires k > 0.0 && a * k < b * k
    ensures a < b
  {
    if a >= b {
      MulMonotone(b, a, k);
    }
  }

  /** A positive factor can be cancelled from a non-strict order. */
  lemma MulCancelLe(a: real, b: real, k: real)
    requires k > 0.0 && a * k <= b * k
    ensures a <= b
  {
    if a > b {
      MulStrictMonotone(b, a, k);
    }
  }

  /** Dividing by a positive factor and multiplying back gives the original. */
  lemma DivMul(x: real, k: real)
    requires k > 0.0
    ensures (x / k) * k == x
  {
  }

  /** Multiplying by a positive factor and dividing back gives the original. */
  lemma MulDiv(x: real, k: real)
    requires k > 0.0
    ensures (x * k) / k == x
  {
  }

  /** One more step of `k` adds `k`: `(q + 1) * k` is `x + k` where `x` is `q * k`. */
  lemma MulSuccessor(q: real, k: real, x: real)
    requires q * k == x
    ensures (q + 1.0) * k == x + k
  {
  }

  /** A value in `[q, q + 1)` scales by a positive `k` into `[x, x + k)` where `x` is `q * k`. */
  lemma MulWithinStep(q: real, a: real, k: real, x: real)
    requires q <= a < q + 1.0 && k > 0.0 && q * k == x
    ensures x <= a * k < x + k
  {
    MulMonotone(q, a, k);
    MulStrictMonotone(a, q + 1.0, k);
    assert (q + 1.0) * k == q * k + k;
  }
}
