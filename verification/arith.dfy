/** Ceiling division, the page count `(n.to_f / page_size.to_f).ceil` the tests expect. */
module Arith {

  function CeilDiv(k: nat, p: nat): (r: nat)
    requires 0 < p
  {
    (k + p - 1) / p
  }

  lemma MulMonotone(x: int, y: int, p: nat)
    requires x <= y
    ensures x * p <= y * p
  {
    assert y * p - x * p == (y - x) * p;
  }

  /** Integer division is determined by the bracket its quotient lies in. */
  lemma DivUnique(a: int, p: int, q: int)
    requires 0 <= a && 0 < p && q * p <= a < q * p + p
    ensures a / p == q
  {
    var d := a / p;
    assert a == d * p + a % p;
    if d < q {
      MulMonotone(d + 1, q, p);
    } else if q < d {
      MulMonotone(q + 1, d, p);
    }
  }

  /** `n` pages of `p` items are the fewest that hold `k` items exactly when
      `n - 1` pages do not. */
  lemma CeilDivExact(k: nat, p: nat, n: nat)
    requires 0 < p && 1 <= n && (n - 1) * p < k <= n * p
    ensures CeilDiv(k, p) == n
  {
    assert (n - 1) * p == n * p - p;
    DivUnique(k + p - 1, p, n);
  }

  lemma CeilDivZero(p: nat)
    requires 0 < p
    ensures CeilDiv(0, p) == 0
  {
    DivUnique(p - 1, p, 0);
  }

  /** `CeilDiv(k, p)` pages of `p` items hold all `k` items. */
  lemma CeilDivCovers(k: nat, p: nat)
    requires 0 < p
    ensures k <= CeilDiv(k, p) * p
  {
    var a := k + p - 1;
    assert a == (a / p) * p + a % p;
  }

  /** One page fewer than `CeilDiv(k, p)` does not hold `k` items. */
  lemma CeilDivTight(k: nat, p: nat)
    requires 0 < p && 0 < k
    ensures 1 <= CeilDiv(k, p) && (CeilDiv(k, p) - 1) * p < k
  {
    var a := k + p - 1;
    assert a == (a / p) * p + a % p;
    assert (a / p - 1) * p == (a / p) * p - p;
  }
}
