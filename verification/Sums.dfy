/** Finite sums over table indices, as the admission queries aggregate them. */
module Sums {
  import opened Sequences

  function Total(f: nat -> nat, n: nat): nat {
    if n == 0 then 0 else Total(f, n - 1) + f(n - 1)
  }

  // A sum whose summands only shrink only shrinks.
  lemma {:induction false} TotalMono(f: nat -> nat, g: nat -> nat, n: nat)
    requires forall i: nat | i < n :: f(i) <= g(i)
    ensures Total(f, n) <= Total(g, n)
  {
    if n > 0 {
      TotalMono(f, g, n - 1);
      assert f(n - 1) <= g(n - 1);
    }
  }

  lemma {:induction false} TotalZero(f: nat -> nat, n: nat)
    requires forall i: nat | i < n :: f(i) == 0
    ensures Total(f, n) == 0
  {
    if n > 0 {
      TotalZero(f, n - 1);
      assert f(n - 1) == 0;
    }
  }

  // ---- Sums over a list of distinct indices ----

  function ListSum(f: nat -> nat, list: seq<nat>): nat {
    if |list| == 0 then 0 else ListSum(f, list[..|list| - 1]) + f(list[|list| - 1])
  }

  lemma {:induction false} ListSumAppend(f: nat -> nat, a: seq<nat>, b: seq<nat>)
    ensures ListSum(f, a + b) == ListSum(f, a) + ListSum(f, b)
  {
    if |b| == 0 {
      assert a + b == a;
    } else {
      assert (a + b)[..|a + b| - 1] == a + b[..|b| - 1];
      ListSumAppend(f, a, b[..|b| - 1]);
    }
  }

  lemma ListSumOne(f: nat -> nat, x: nat)
    ensures ListSum(f, [x]) == f(x)
  {
    assert [x][..0] == [];
  }

  lemma ListSumWithout(f: nat -> nat, list: seq<nat>, m: nat)
    requires m < |list|
    ensures ListSum(f, list) == ListSum(f, list[..m] + list[m + 1..]) + f(list[m])
  {
    hide ListSum;
    var a, b, c := list[..m], [list[m]], list[m + 1..];
    assert list == (a + b) + c;
    ListSumAppend(f, a + b, c);
    ListSumAppend(f, a, b);
    ListSumAppend(f, a, c);
    ListSumOne(f, list[m]);
  }

  // Distinct summands among the first n add up to no more than all of them.
  lemma {:induction false} DistinctSum(f: nat -> nat, list: seq<nat>, n: nat)
    requires Distinct(list) && forall i | 0 <= i < |list| :: list[i] < n
    ensures ListSum(f, list) <= Total(f, n)
    decreases n
  {
    if |list| > 0 {
      assert list[0] < n;
      if m: nat :| m < |list| && list[m] == n - 1 {
        ListSumWithout(f, list, m);
        DistinctSum(f, list[..m] + list[m + 1..], n - 1);
      } else {
        DistinctSum(f, list, n - 1);
      }
    }
  }

  lemma {:induction false} ListSumSame(f: nat -> nat, g: nat -> nat, list: seq<nat>)
    requires forall i | 0 <= i < |list| :: f(list[i]) == g(list[i])
    ensures ListSum(f, list) == ListSum(g, list)
  {
    if |list| > 0 { ListSumSame(f, g, list[..|list| - 1]); }
  }

  lemma {:induction false} OnesCount(list: seq<nat>)
    ensures ListSum((a: nat) => 1, list) == |list|
  {
    if |list| > 0 { OnesCount(list[..|list| - 1]); }
  }
}
