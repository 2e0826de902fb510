/** Sums over the threads of a step system, one update at a time. */
module Tally {

  function Sum<T(!new)>(ts: seq<T>, f: T -> nat): nat {
    if ts == [] then 0 else f(ts[0]) + Sum(ts[1..], f)
  }

  lemma {:induction false} SumUpdate<T(!new)>(ts: seq<T>, f: T -> nat, i: nat, x: T)
    requires i < |ts|
    ensures Sum(ts[i := x], f) == Sum(ts, f) - f(ts[i]) + f(x)
  {
    if i == 0 {
      assert ts[i := x][1..] == ts[1..];
    } else {
      assert ts[i := x][1..] == ts[1..][i - 1 := x];
      SumUpdate(ts[1..], f, i - 1, x);
    }
  }

  lemma {:induction false} SumAtLeast<T(!new)>(ts: seq<T>, f: T -> nat, i: nat)
    requires i < |ts|
    ensures Sum(ts, f) >= f(ts[i])
  {
    if i > 0 {
      SumAtLeast(ts[1..], f, i - 1);
    }
  }

  lemma {:induction false} SumAtLeastTwo<T(!new)>(ts: seq<T>, f: T -> nat, i: nat, j: nat)
    requires i < j < |ts|
    ensures Sum(ts, f) >= f(ts[i]) + f(ts[j])
  {
    if i == 0 {
      SumAtLeast(ts[1..], f, j - 1);
    } else {
      SumAtLeastTwo(ts[1..], f, i - 1, j - 1);
    }
  }

  lemma {:induction false} SumWitness<T(!new)>(ts: seq<T>, f: T -> nat) returns (i: nat)
    requires Sum(ts, f) > 0
    ensures i < |ts| && f(ts[i]) > 0
  {
    if f(ts[0]) > 0 {
      i := 0;
    } else {
      i := SumWitness(ts[1..], f);
      i := i + 1;
    }
  }

  lemma {:induction false} SumZero<T(!new)>(ts: seq<T>, f: T -> nat)
    requires forall i :: 0 <= i < |ts| ==> f(ts[i]) == 0
    ensures Sum(ts, f) == 0
  {
    if ts != [] {
      SumZero(ts[1..], f);
    }
  }

  /** A bound between two measures of every thread bounds their sums. */
  lemma {:induction false} SumAdd<T(!new)>(ts: seq<T>, f: T -> nat, g: T -> nat, h: T -> nat)
    requires forall x :: f(x) + g(x) == h(x)
    ensures Sum(ts, f) + Sum(ts, g) == Sum(ts, h)
  {
    if ts != [] {
      SumAdd(ts[1..], f, g, h);
    }
  }
}
