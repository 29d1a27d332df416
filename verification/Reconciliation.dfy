/** How long to wait before asking again (packages/control-storage/reconciliation.ts). */
module Reconciliation {
  function Power2(n: nat): (r: nat)
    ensures r > 0
  {
    if n == 0 then 1 else 2 * Power2(n - 1)
  }

  /** Exponential backoff from `base`, capped at five minutes. */
  function RetryDelay(failures: nat, base: nat := 5000): nat {
    var exponent := if failures < 1 then 0 else if failures - 1 > 10 then 10 else failures - 1;
    var delay := base * Power2(exponent);
    if delay > 300000 then 300000 else delay
  }

  lemma {:induction false} PowersGrow(m: nat, n: nat)
    requires m <= n
    ensures Power2(m) <= Power2(n)
  {
    if m < n {
      PowersGrow(m, n - 1);
    }
  }

  /** Never sooner than the base, never later than five minutes, and never sooner after more failures. */
  lemma DelaysGrow(failures: nat, more: nat, base: nat)
    requires failures <= more
    ensures (if base < 300000 then base else 300000) <= RetryDelay(failures, base) <= RetryDelay(more, base) <= 300000
  {
    var i := if failures < 1 then 0 else if failures - 1 > 10 then 10 else failures - 1;
    var j := if more < 1 then 0 else if more - 1 > 10 then 10 else more - 1;
    PowersGrow(i, j);
    Multiply(base, Power2(i), Power2(j));
    Multiply(base, 1, Power2(i));
  }

  lemma Multiply(base: nat, a: nat, b: nat)
    requires a <= b
    ensures base * a <= base * b
  {
  }
}
