// Finite sums of reals over index functions.

module Sums {

  function Sum(n: nat, f: nat -> real): real {
    if n == 0 then 0.0 else Sum(n - 1, f) + f(n - 1)
  }

  lemma {:induction false} SumEqual(n: nat, f: nat -> real, g: nat -> real)
    requires forall i: nat :: i < n ==> f(i) == g(i)
    ensures Sum(n, f) == Sum(n, g)
  {
    if n > 0 { SumEqual(n - 1, f, g); }
  }

  /** Lanes past the end add nothing when they contribute zero. */
  lemma {:induction false} SumPadded(n: nat, m: nat, f: nat -> real)
    requires n <= m && forall i: nat :: n <= i < m ==> f(i) == 0.0
    ensures Sum(m, f) == Sum(n, f)
    decreases m
  {
    if n < m { SumPadded(n, m - 1, f); }
  }

  /** A single term that is not zero is the sum. */
  lemma {:induction false} SumImpulse(n: nat, f: nat -> real, k: nat)
    requires k < n && forall i: nat :: i < n && i != k ==> f(i) == 0.0
    ensures Sum(n, f) == f(k)
  {
    if k < n - 1 { SumImpulse(n - 1, f, k); } else { SumZero(n - 1, f); }
  }

  lemma {:induction false} SumZero(n: nat, f: nat -> real)
    requires forall i: nat :: i < n ==> f(i) == 0.0
    ensures Sum(n, f) == 0.0
  {
    if n > 0 { SumZero(n - 1, f); }
  }

  /** Sums are additive in their terms, so that single terms determine them. */
  lemma {:induction false} SumAdds(n: nat, f: nat -> real, g: nat -> real, h: nat -> real)
    requires forall i: nat :: i < n ==> h(i) == f(i) + g(i)
    ensures Sum(n, h) == Sum(n, f) + Sum(n, g)
  {
    if n > 0 { SumAdds(n - 1, f, g, h); }
  }

  lemma {:induction false} SumConstant(n: nat, f: nat -> real, c: real)
    requires forall i: nat :: i < n ==> f(i) == c
    ensures Sum(n, f) == n as real * c
  {
    if n > 0 {
      SumConstant(n - 1, f, c);
      assert n as real == (n - 1) as real + 1.0;
    }
  }
}
