/**
  The estimator of core/sched.cc that lets other CPUs read how long a running
  thread has been running: two 64-bit times kept as 32 bits each in one word.
 */
module CpuTime {

  const TWO10: nat := 0x400
  const TWO32: nat := 0x1_0000_0000
  const TWO42: nat := 0x400_0000_0000
  const TWO63: nat := 0x8000_0000_0000_0000
  const TWO64: nat := 0x1_0000_0000_0000_0000

  /** The bits of a time that are kept: 10 to 41. */
  function Kept(t: nat): (b: nat)
    ensures b < TWO32
  {
    t / TWO10 % TWO32
  }

  /** A time without the bits below the accuracy. */
  function Truncated(t: nat): nat { t - t % TWO10 }

  /** The time with these low bits that is recovered by means of a reference time. */
  function Recovered(low: nat, ref: nat): nat {
    var high := ref - ref % TWO42;
    var high := if ref % TWO42 >= low then high else if high >= TWO42 then high - TWO42 else high + TWO64 - TWO42;
    high + low
  }

  lemma KeptIsLow(t: nat)
    ensures Kept(t) * TWO10 == Truncated(t) % TWO42
  {
    var q := t / TWO10;
    assert Truncated(t) == q * TWO10;
    var k := q / TWO32;
    assert q == k * TWO32 + Kept(t);
    assert q * TWO10 == k * TWO42 + Kept(t) * TWO10;
    LowOf(k, Kept(t) * TWO10);
  }

  lemma LowOf(k: nat, low: nat)
    requires low < TWO42
    ensures (k * TWO42 + low) % TWO42 == low && (k * TWO42 + low) / TWO42 == k
  {}

  /** The saved time comes back exactly if the reference is less than 2^42 ns past it. */
  lemma RecoveredIff(t: nat, ref: nat)
    requires t < TWO63 && ref < TWO64
    ensures Recovered(Kept(t) * TWO10, ref) == Truncated(t) <==> Truncated(t) <= ref < Truncated(t) + TWO42
  {
    KeptIsLow(t);
    var x := Truncated(t);
    var k, low, j, r := x / TWO42, x % TWO42, ref / TWO42, ref % TWO42;
    assert x == k * TWO42 + low && ref == j * TWO42 + r;
  }

  /** What the estimator's low half tells at this time: when the thread began to run. */
  function RunningSinceAt(e: nat, now: nat): nat {
    Recovered(e % TWO32 * TWO10, now)
  }

  /** What its high half tells by means of this total: the CPU time at that moment. */
  function TotalAt(e: nat, ref: nat): nat {
    Recovered(e / TWO32 * TWO10, ref)
  }

  /** A reference time by means of which the saved one comes back. */
  predicate InWindow(t: nat, ref: nat) {
    Truncated(t) <= ref < Truncated(t) + TWO42
  }

  lemma Halves(low: nat, high: nat)
    requires low < TWO32 && high < TWO32
    ensures (low + high * TWO32) % TWO32 == low && (low + high * TWO32) / TWO32 == high && low + high * TWO32 < TWO64
  {}

  /** Each half of a packed word gives its time back exactly in its window. */
  lemma PackedRecovers(rs: nat, tc: nat, ref: nat)
    requires rs < TWO63 && tc < TWO63 && ref < TWO64
    ensures var e := Kept(rs) + Kept(tc) * TWO32;
            && (RunningSinceAt(e, ref) == Truncated(rs) <==> InWindow(rs, ref))
            && (TotalAt(e, ref) == Truncated(tc) <==> InWindow(tc, ref))
  {
    hide Kept, Recovered, Truncated;
    KeptBound(rs);
    KeptBound(tc);
    Halves(Kept(rs), Kept(tc));
    RecoveredIff(rs, ref);
    RecoveredIff(tc, ref);
  }

  lemma KeptBound(t: nat)
    ensures Kept(t) < TWO32
  {}

  class Thread {
    var estimator: nat
    var totalCpuTime: nat

    ghost predicate Valid()
      reads this
    {
      estimator < TWO64 && totalCpuTime < TWO63
    }

    /** The estimator gives these two times back, each exactly by means of a reference in its window. */
    ghost predicate Saved(runningSince: nat, total: nat)
      reads this
    {
      && (forall now: nat :: now < TWO64 ==>
            (RunningSinceAt(estimator, now) == Truncated(runningSince) <==> InWindow(runningSince, now)))
      && (forall ref: nat :: ref < TWO64 ==>
            (TotalAt(estimator, ref) == Truncated(total) <==> InWindow(total, ref)))
    }

    method Set(runningSince: nat, total: nat)
      requires Valid() && runningSince < TWO63 && total < TWO63
      modifies `estimator
      ensures Valid() && Saved(runningSince, total)
    {
      hide Kept, RunningSinceAt, TotalAt, InWindow, Truncated;
      KeptBound(runningSince);
      KeptBound(total);
      Halves(Kept(runningSince), Kept(total));
      estimator := Kept(runningSince) + Kept(total) * TWO32;
      forall ref: nat | ref < TWO64
        ensures RunningSinceAt(estimator, ref) == Truncated(runningSince) <==> InWindow(runningSince, ref)
        ensures TotalAt(estimator, ref) == Truncated(total) <==> InWindow(total, ref)
      {
        PackedRecovers(runningSince, total, ref);
      }
    }

    /** Both saved times, recovered at time `now`; rs and tc are what was saved. */
    method Get(now: nat, ghost rs: nat, ghost tc: nat) returns (runningSince: nat, total: nat)
      requires Valid() && now < TWO64 && Saved(rs, tc)
      ensures runningSince == Truncated(rs) <==> InWindow(rs, now)
      ensures total == Truncated(tc) <==> InWindow(tc, totalCpuTime)
    {
      hide RunningSinceAt, TotalAt, InWindow, Truncated;
      runningSince := RunningSinceAt(estimator, now);
      total := TotalAt(estimator, totalCpuTime);
    }

    /** What one CPU saves another reads back, as long as both references stay in their windows. */
    method SetThenGet(rs: nat, tc: nat, now: nat) returns (runningSince: nat, total: nat)
      requires Valid() && rs < TWO63 && tc < TWO63 && InWindow(rs, now) && InWindow(tc, totalCpuTime) && now < TWO64
      modifies `estimator
      ensures Valid() && runningSince == Truncated(rs) && total == Truncated(tc)
    {
      Set(rs, tc);
      runningSince, total := Get(now, rs, tc);
    }

    /** The clock of a thread that runs on another CPU, off by less than the accuracy. */
    method RemoteClock(now: nat, later: nat, ghost rs: nat, ghost tc: nat) returns (t: int)
      requires Valid() && now <= later < TWO64 && Saved(rs, tc)
      requires InWindow(rs, now) && InWindow(tc, totalCpuTime)
      ensures -1023 <= t - (tc + (later - rs)) <= 1023
    {
      var runningSince, total := Get(now, rs, tc);
      t := total + (later - runningSince);
    }
  }
}
