/** Finite sums over row numbers, and how they change when one row changes. */
module Sums {

  function Sum(f: nat -> int, n: nat): int {
    if n == 0 then 0 else Sum(f, n - 1) + f(n - 1)
  }

  /** Changing one term changes the sum by that term's difference. */
  lemma {:induction false} SumChange(f: nat -> int, g: nat -> int, n: nat, i: nat)
    requires forall j: nat | j < n && j != i :: f(j) == g(j)
    ensures Sum(g, n) == Sum(f, n) + if i < n then g(i) - f(i) else 0
  {
    if n > 0 {
      SumChange(f, g, n - 1, i);
    }
  }

  lemma {:induction false} SumSame(f: nat -> int, g: nat -> int, n: nat)
    requires forall j: nat | j < n :: f(j) == g(j)
    ensures Sum(g, n) == Sum(f, n)
  {
    SumChange(f, g, n, n);
  }

  lemma SumOfNewZero(f: nat -> int, n: nat, k: nat)
    requires n <= k <= n + 1 && f(n) == 0
    ensures Sum(f, k) == Sum(f, n)
  {
  }

  lemma {:induction false} SumOrder(f: nat -> int, g: nat -> int, n: nat)
    requires forall j: nat | j < n :: f(j) <= g(j)
    ensures Sum(f, n) <= Sum(g, n)
  {
    if n > 0 {
      SumOrder(f, g, n - 1);
    }
  }

  lemma {:induction false} SumNonNegative(f: nat -> int, n: nat)
    requires forall j: nat | j < n :: f(j) >= 0
    ensures Sum(f, n) >= 0
    ensures forall j: nat | j < n :: f(j) <= Sum(f, n)
  {
    if n > 0 {
      SumNonNegative(f, n - 1);
    }
  }

  lemma {:induction false} SumOfDifference(f: nat -> int, g: nat -> int, h: nat -> int, n: nat)
    requires forall j: nat | j < n :: h(j) == f(j) - g(j)
    ensures Sum(h, n) == Sum(f, n) - Sum(g, n)
  {
    if n > 0 {
      SumOfDifference(f, g, h, n - 1);
    }
  }
}
