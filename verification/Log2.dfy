/** Binary logarithms of include/osv/ilog2.hh, used to pick a free list. */
module Log2 {

  function Pow2(k: nat): (p: nat)
    ensures p > 0
  {
    if k == 0 then 1 else 2 * Pow2(k - 1)
  }

  /** Index of the highest bit set; zero for arguments up to one. */
  function Ilog2(n: nat): nat {
    if n <= 1 then 0 else 1 + Ilog2(n / 2)
  }

  /** Number of significant bits of n - 1. */
  function Ilog2Roundup(n: nat): nat {
    if n <= 1 then 0 else Ilog2(n - 1) + 1
  }

  predicate IsPow2(n: nat) {
    n > 0 && n == Pow2(Ilog2(n))
  }

  lemma {:induction false} Pow2Monotone(j: nat, k: nat)
    requires j <= k
    ensures Pow2(j) <= Pow2(k)
    decreases k - j
  {
    if j < k {
      Pow2Monotone(j, k - 1);
    }
  }

  /** Ilog2 rounds the logarithm down. */
  lemma {:induction false} Ilog2Bounds(n: nat)
    requires n > 0
    ensures Pow2(Ilog2(n)) <= n < Pow2(Ilog2(n) + 1)
  {
    if n > 1 {
      Ilog2Bounds(n / 2);
    }
  }

  lemma {:induction false} Ilog2Monotone(m: nat, n: nat)
    requires m <= n
    ensures Ilog2(m) <= Ilog2(n)
  {
    if m > 0 && Ilog2(m) > Ilog2(n) {
      Ilog2Bounds(m);
      Ilog2Bounds(n);
      Pow2Monotone(Ilog2(n) + 1, Ilog2(m));
    }
  }

  /** Ilog2Roundup rounds it up. */
  lemma {:induction false} RoundupBounds(n: nat)
    requires n > 0
    ensures n <= Pow2(Ilog2Roundup(n))
    ensures Ilog2Roundup(n) > 0 ==> Pow2(Ilog2Roundup(n) - 1) < n
    ensures Ilog2(n) <= Ilog2Roundup(n) <= Ilog2(n) + 1
  {
    if n > 1 {
      var half := n - 1;
      Ilog2Bounds(half);
      Ilog2Monotone(half, n);
      Ilog2Monotone(n, 2 * half);
      assert Ilog2(2 * half) == 1 + Ilog2(half);
    }
  }
}
