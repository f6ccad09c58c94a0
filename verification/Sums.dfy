// Finite sums over an index range. Every total the payment service computes
// with SQL (balances, outflows, fees) is one of these over the table's rows.
module Sums {

  function SumTo(n: nat, f: nat -> int): int {
    if n == 0 then 0 else SumTo(n - 1, f) + f(n - 1)
  }

  lemma SumLast(n: nat, f: nat -> int)
    ensures SumTo(n + 1, f) == SumTo(n, f) + f(n)
  {
  }

  lemma {:induction false} SumSame(n: nat, f: nat -> int, g: nat -> int)
    requires forall i: nat | i < n :: f(i) == g(i)
    ensures SumTo(n, f) == SumTo(n, g)
  {
    if n == 0 {
    } else {
      SumSame(n - 1, f, g);
    }
  }

  // Changing the summand at one index changes the sum by exactly that much.
  lemma {:induction false} SumDiff(n: nat, k: nat, f: nat -> int, g: nat -> int)
    requires k < n
    requires forall i: nat | i < n && i != k :: f(i) == g(i)
    ensures SumTo(n, g) == SumTo(n, f) + g(k) - f(k)
  {
    if k == n - 1 {
      SumSame(n - 1, f, g);
    } else {
      SumDiff(n - 1, k, f, g);
    }
  }

  lemma {:induction false} SumAtMost(n: nat, f: nat -> int, g: nat -> int)
    requires forall i: nat | i < n :: f(i) <= g(i)
    ensures SumTo(n, f) <= SumTo(n, g)
  {
    if n == 0 {
    } else {
      SumAtMost(n - 1, f, g);
    }
  }

  lemma {:induction false} SumZero(n: nat, f: nat -> int)
    requires forall i: nat | i < n :: f(i) == 0
    ensures SumTo(n, f) == 0
  {
    if n == 0 {
    } else {
      SumZero(n - 1, f);
    }
  }

  // A summand split into two parts splits the sum.
  lemma {:induction false} SumSplit(n: nat, f: nat -> int, g: nat -> int, h: nat -> int)
    requires forall i: nat | i < n :: f(i) == g(i) + h(i)
    ensures SumTo(n, f) == SumTo(n, g) + SumTo(n, h)
  {
    if n == 0 {
    } else {
      SumSplit(n - 1, f, g, h);
    }
  }
}
