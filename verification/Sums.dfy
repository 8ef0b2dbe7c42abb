/** Sums of a weight over the values of a map whose keys are below a bound. */
module Sums {
  function Part<V>(m: map<nat, V>, w: V -> nat, k: nat): nat {
    if k in m then w(m[k]) else 0
  }

  function Sum<V>(m: map<nat, V>, w: V -> nat, n: nat): nat {
    if n == 0 then 0 else Sum(m, w, n - 1) + Part(m, w, n - 1)
  }

  lemma {:induction false} SumSame<V>(m: map<nat, V>, m': map<nat, V>, w: V -> nat, n: nat)
    requires forall k :: 0 <= k < n ==> Part(m, w, k) == Part(m', w, k)
    ensures Sum(m, w, n) == Sum(m', w, n)
  {
    if n > 0 { SumSame(m, m', w, n - 1); }
  }

  lemma {:induction false} SumLe<V>(m: map<nat, V>, m': map<nat, V>, w: V -> nat, n: nat)
    requires forall k :: 0 <= k < n ==> Part(m, w, k) <= Part(m', w, k)
    ensures Sum(m, w, n) <= Sum(m', w, n)
  {
    if n > 0 { SumLe(m, m', w, n - 1); }
  }

  /** Changing one entry changes the sum by the difference of its weights. */
  lemma {:induction false} SumChange<V>(m: map<nat, V>, m': map<nat, V>, w: V -> nat, n: nat, k: nat)
    requires k < n
    requires forall j :: 0 <= j < n && j != k ==> Part(m, w, j) == Part(m', w, j)
    ensures Sum(m', w, n) == Sum(m, w, n) - Part(m, w, k) + Part(m', w, k)
  {
    if k == n - 1 {
      SumSame(m, m', w, n - 1);
    } else {
      SumChange(m, m', w, n - 1, k);
    }
  }

  lemma {:induction false} SumLess<V>(m: map<nat, V>, m': map<nat, V>, w: V -> nat, n: nat, k: nat)
    requires k < n && Part(m, w, k) < Part(m', w, k)
    requires forall j :: 0 <= j < n ==> Part(m, w, j) <= Part(m', w, j)
    ensures Sum(m, w, n) < Sum(m', w, n)
  {
    if k == n - 1 {
      SumLe(m, m', w, n - 1);
    } else {
      SumLess(m, m', w, n - 1, k);
    }
  }
}
