/**
  In every run each waiter leaves the queue once, by its own timeout or by
  being sent to the mutex, and returns holding the mutex, with its record used
  by nobody any more.
 */
module CondvarProof {
  import opened Condvar

  // --------------------------------------------------------------- invariant

  predicate PlaceOk(th: Thread) {
    match th.pc
    case Out => th.place == Nowhere
    case Sleeping => th.place.InFifo? || th.place.InBatch? || th.place.InMutex? || th.place.Given?
    case Removing => th.place.InFifo? || th.place.InBatch? || th.place.InMutex? || th.place.Given?
    case WaitAgain => th.place.InBatch? || th.place.InMutex? || th.place.Given?
    case Relock => th.place == Gone
  }

  ghost predicate ThreadOk(s: State, t: nat)
    requires t < |s.threads|
  {
    var th := s.threads[t];
    && PlaceOk(th)
    && (th.woken <==> th.place == Given)
    && (th.pc != Out ==> th.mutex < |s.owners| && th.sent == if th.place.InMutex? || th.place.Given? then 1 else 0)
    && (th.pc != Out ==> (th.timedOut <==> th.pc == Relock))
    && (th.pc == Out ==> th.sent == 0 || (th.sent == 1 && !th.timedOut))
    && (th.place == Given ==> s.owners[th.mutex] == Some(t))
    && (t in s.fifo <==> th.place == InFifo)
    && (th.place == InFifo ==> s.userMutex == Some(th.mutex))
    && (forall m: nat :: m < |s.pending| ==> (t in s.pending[m] <==> th.place == InMutex && th.mutex == m))
    && (forall b: nat :: b < |s.batches| ==> (t in s.batches[b].list <==> th.place == InBatch(b)))
    && (th.place.InBatch? ==> th.place.i < |s.batches| && s.batches[th.place.i].mutex == th.mutex)
  }

  ghost predicate Proper(q: seq<nat>, n: nat) {
    (forall i :: 0 <= i < |q| ==> q[i] < n) && forall i, j :: 0 <= i < j < |q| ==> q[i] != q[j]
  }

  ghost predicate SharedOk(s: State) {
    && |s.pending| == |s.owners| && Proper(s.fifo, |s.threads|)
    && (s.userMutex.Some? ==> s.userMutex.value < |s.owners|)
    && (s.fifo != [] ==> s.userMutex.Some?)
    && (forall b: nat :: b < |s.batches| ==> s.batches[b].mutex < |s.owners| && Proper(s.batches[b].list, |s.threads|))
    && (forall m: nat, t :: m < |s.pending| && t in s.pending[m] ==> t < |s.threads|)
    && (forall m: nat :: m < |s.owners| && s.owners[m].Some? ==> s.owners[m].value < |s.threads|)
  }

  ghost predicate Inv(s: State) {
    SharedOk(s) && forall t: nat :: t < |s.threads| ==> ThreadOk(s, t)
  }

  lemma InitInv(n: nat, mutexes: nat)
    ensures Inv(Init(n, mutexes))
  {}

  lemma {:induction false} WithoutMembers(q: seq<nat>, t: nat, n: nat, x: nat)
    requires Proper(q, n)
    ensures x in Without(q, t) <==> x in q && x != t
  {
    if q != [] {
      WithoutMembers(q[1..], t, n, x);
      assert q == [q[0]] + q[1..];
    }
  }

  lemma {:induction false} WithoutProper(q: seq<nat>, t: nat, n: nat)
    requires Proper(q, n)
    ensures Proper(Without(q, t), n)
  {
    if q != [] && q[0] != t {
      WithoutProper(q[1..], t, n);
      WithoutMembers(q[1..], t, n, q[0]);
    }
  }

  lemma WithoutFacts(q: seq<nat>, t: nat, n: nat)
    requires Proper(q, n)
    ensures Proper(Without(q, t), n) && forall x :: x in Without(q, t) <==> x in q && x != t
  {
    WithoutProper(q, t, n);
    forall x ensures x in Without(q, t) <==> x in q && x != t {
      if x >= 0 { WithoutMembers(q, t, n, x); }
    }
  }

  lemma DropFacts(q: seq<nat>, k: nat, n: nat)
    requires Proper(q, n) && k < |q|
    ensures Proper(DropAt(q, k), n) && forall x :: x in DropAt(q, k) <==> x in q && x != q[k]
  {
    forall x | x in q && x != q[k] ensures x in DropAt(q, k) {
      var i :| 0 <= i < |q| && q[i] == x;
      assert i < k ==> DropAt(q, k)[i] == x;
      assert i > k ==> DropAt(q, k)[i - 1] == x;
    }
  }

  lemma LockOk(s: State, t: nat, m: nat, x: nat)
    requires SharedOk(s) && Enabled(s, Lock(t, m)) && x < |s.threads| && ThreadOk(s, x)
    ensures SharedOk(Next(s, Lock(t, m))) && ThreadOk(Next(s, Lock(t, m)), x)
  {}

  lemma UnlockOk(s: State, t: nat, m: nat, x: nat)
    requires SharedOk(s) && Enabled(s, Unlock(t, m)) && x < |s.threads| && ThreadOk(s, x) && ThreadOk(s, t)
    ensures SharedOk(Next(s, Unlock(t, m))) && ThreadOk(Next(s, Unlock(t, m)), x)
  {}

  lemma WaitOk(s: State, t: nat, m: nat, x: nat)
    requires SharedOk(s) && Enabled(s, Wait(t, m)) && x < |s.threads| && ThreadOk(s, x) && ThreadOk(s, t)
    ensures SharedOk(Next(s, Wait(t, m))) && ThreadOk(Next(s, Wait(t, m)), x)
  {}

  lemma ExpireOk(s: State, t: nat, x: nat)
    requires SharedOk(s) && Enabled(s, Expire(t)) && x < |s.threads| && ThreadOk(s, x)
    ensures SharedOk(Next(s, Expire(t))) && ThreadOk(Next(s, Expire(t)), x)
  {}

  lemma RemoveOk(s: State, t: nat, x: nat)
    requires SharedOk(s) && Enabled(s, Remove(t)) && x < |s.threads| && ThreadOk(s, x)
    ensures SharedOk(Next(s, Remove(t))) && ThreadOk(Next(s, Remove(t)), x)
  {
    WithoutFacts(s.fifo, t, |s.threads|);
  }

  lemma ReceiveOk(s: State, t: nat, x: nat)
    requires SharedOk(s) && Enabled(s, Receive(t)) && x < |s.threads| && ThreadOk(s, x)
    ensures SharedOk(Next(s, Receive(t))) && ThreadOk(Next(s, Receive(t)), x)
  {}

  lemma LockAgainOk(s: State, t: nat, x: nat)
    requires SharedOk(s) && Enabled(s, LockAgain(t)) && x < |s.threads| && ThreadOk(s, x)
    ensures SharedOk(Next(s, LockAgain(t))) && ThreadOk(Next(s, LockAgain(t)), x)
  {}

  lemma WakeOneOk(s: State, x: nat)
    requires SharedOk(s) && Enabled(s, WakeOne) && x < |s.threads| && ThreadOk(s, x) && ThreadOk(s, s.fifo[0])
    ensures SharedOk(Next(s, WakeOne)) && ThreadOk(Next(s, WakeOne), x)
  {
    DropFacts(s.fifo, 0, |s.threads|);
  }

  lemma WakeAllOk(s: State, x: nat)
    requires SharedOk(s) && Enabled(s, WakeAll) && x < |s.threads| && ThreadOk(s, x)
    ensures SharedOk(Next(s, WakeAll)) && ThreadOk(Next(s, WakeAll), x)
  {}

  lemma SendNextOk(s: State, b: nat, k: nat, x: nat)
    requires SharedOk(s) && Enabled(s, SendNext(b, k)) && x < |s.threads| && ThreadOk(s, x)
    requires ThreadOk(s, s.batches[b].list[k])
    ensures SharedOk(Next(s, SendNext(b, k))) && ThreadOk(Next(s, SendNext(b, k)), x)
  {
    DropFacts(s.batches[b].list, k, |s.threads|);
  }

  lemma GrantOk(s: State, m: nat, t: nat, x: nat)
    requires SharedOk(s) && Enabled(s, Grant(m, t)) && x < |s.threads| && ThreadOk(s, x) && ThreadOk(s, t)
    ensures SharedOk(Next(s, Grant(m, t))) && ThreadOk(Next(s, Grant(m, t)), x)
  {}

  lemma NextInv(s: State, a: Action)
    requires Inv(s) && Enabled(s, a)
    ensures Inv(Next(s, a))
  {
    hide SharedOk, ThreadOk, Next, Enabled;
    var s' := Next(s, a);
    SameSize(s, a);
    if |s.threads| == 0 {
      NoThreads(s, a);
    }
    forall x: nat | x < |s.threads| ensures SharedOk(s') && ThreadOk(s', x) {
      ActionOk(s, a, x);
    }
    assert 0 < |s.threads|;
    ActionOk(s, a, 0);
  }

  lemma SameSize(s: State, a: Action)
    requires Enabled(s, a)
    ensures |Next(s, a).threads| == |s.threads|
  {}

  lemma NoThreads(s: State, a: Action)
    requires Inv(s) && Enabled(s, a)
    ensures |s.threads| > 0
  {
    if a.WakeAll? {
      assert s.fifo[0] in s.fifo && s.fifo[0] < |s.threads|;
    }
  }

  lemma ActionOk(s: State, a: Action, x: nat)
    requires Inv(s) && Enabled(s, a) && x < |s.threads|
    ensures |Next(s, a).threads| == |s.threads| && SharedOk(Next(s, a)) && ThreadOk(Next(s, a), x)
  {
    hide SharedOk, ThreadOk, WaitStep, RemoveStep, WakeOneStep, WakeAllStep, SendNextStep, GrantStep;
    SameSize(s, a);
    match a
    case Lock(t, m) => LockOk(s, t, m, x);
    case Unlock(t, m) => UnlockOk(s, t, m, x);
    case Wait(t, m) => WaitOk(s, t, m, x);
    case Expire(t) => ExpireOk(s, t, x);
    case Remove(t) => RemoveOk(s, t, x);
    case Receive(t) => ReceiveOk(s, t, x);
    case LockAgain(t) => LockAgainOk(s, t, x);
    case WakeOne => WakeOneOk(s, x);
    case WakeAll => WakeAllOk(s, x);
    case SendNext(b, k) => SendNextOk(s, b, k, x);
    case Grant(m, t) => GrantOk(s, m, t, x);
  }

  lemma {:induction false} RunInv(n: nat, mutexes: nat, run: seq<State>, i: nat)
    requires IsRun(n, mutexes, run) && i < |run|
    ensures Inv(run[i])
  {
    hide Inv, Next, Enabled;
    if i == 0 {
      InitInv(n, mutexes);
    } else {
      RunInv(n, mutexes, run, i - 1);
      assert Follows(run[i - 1], run[i]);
      var a :| Enabled(run[i - 1], a) && run[i] == Next(run[i - 1], a);
      NextInv(run[i - 1], a);
    }
  }

  // ---------------------------------------------------------------- theorems

  /** The record of this thread is queued, detached, or with a mutex. */
  predicate InUse(s: State, t: nat) {
    || t in s.fifo
    || (exists b: nat :: b < |s.batches| && t in s.batches[b].list)
    || (exists m: nat :: m < |s.pending| && t in s.pending[m])
  }

  /** wait() returns only while holding the mutex it was called with. */
  lemma ReturnsHoldingMutex(n: nat, mutexes: nat, run: seq<State>, i: nat, t: nat)
    requires IsRun(n, mutexes, run) && i + 1 < |run| && t < |run[i].threads|
    requires run[i].threads[t].pc != Out && t < |run[i + 1].threads| && run[i + 1].threads[t].pc == Out
    ensures run[i].threads[t].mutex < |run[i + 1].owners| && run[i + 1].owners[run[i].threads[t].mutex] == Some(t)
    ensures !InUse(run[i + 1], t)
    ensures run[i + 1].threads[t].timedOut <==> run[i].threads[t].pc == Relock
    ensures run[i + 1].threads[t].sent == if run[i + 1].threads[t].timedOut then 0 else 1
  {
    RunInv(n, mutexes, run, i);
    RunInv(n, mutexes, run, i + 1);
    assert Follows(run[i], run[i + 1]);
    var a :| Enabled(run[i], a) && run[i + 1] == Next(run[i], a);
    Leaves(run[i], a, t);
    assert ThreadOk(run[i + 1], t);
  }

  lemma Leaves(s: State, a: Action, t: nat)
    requires Inv(s) && Enabled(s, a) && t < |s.threads| && s.threads[t].pc != Out
    requires t < |Next(s, a).threads| && Next(s, a).threads[t].pc == Out
    ensures a == Receive(t) || a == LockAgain(t)
    ensures s.threads[t].mutex < |Next(s, a).owners| && Next(s, a).owners[s.threads[t].mutex] == Some(t)
    ensures Next(s, a).threads[t].timedOut <==> s.threads[t].pc == Relock
    ensures Next(s, a).threads[t].sent == if s.threads[t].pc == Relock then 0 else 1
  {
    assert ThreadOk(s, t);
  }

  /** A record is queued once at most, is with one waker or one mutex at most, and was sent at most once. */
  lemma OnePlaceOnly(n: nat, mutexes: nat, run: seq<State>, i: nat, t: nat)
    requires IsRun(n, mutexes, run) && i < |run| && t < |run[i].threads|
    ensures Proper(run[i].fifo, |run[i].threads|) && run[i].threads[t].sent <= 1
    ensures t in run[i].fifo ==> (forall b: nat :: b < |run[i].batches| ==> t !in run[i].batches[b].list)
                                 && (forall m: nat :: m < |run[i].pending| ==> t !in run[i].pending[m])
    ensures forall b: nat, m: nat :: b < |run[i].batches| && m < |run[i].pending| && t in run[i].batches[b].list ==>
              t !in run[i].pending[m]
    ensures forall b: nat, c: nat ::
              (b < |run[i].batches| && c < |run[i].batches| && t in run[i].batches[b].list && t in run[i].batches[c].list
               ==> b == c)
  {
    RunInv(n, mutexes, run, i);
    assert ThreadOk(run[i], t);
  }

  /** A waiter that missed its own timeout is going to be woken: its record is with a waker, the mutex, or woken. */
  lemma MissedTimeoutIsWoken(n: nat, mutexes: nat, run: seq<State>, i: nat, t: nat)
    requires IsRun(n, mutexes, run) && i < |run| && t < |run[i].threads| && run[i].threads[t].pc == WaitAgain
    ensures t !in run[i].fifo && (run[i].threads[t].woken || InUse(run[i], t))
  {
    RunInv(n, mutexes, run, i);
    var s := run[i];
    assert ThreadOk(s, t);
    if s.threads[t].place.InBatch? {
      assert t in s.batches[s.threads[t].place.i].list;
    } else if s.threads[t].place.InMutex? {
      assert t in s.pending[s.threads[t].mutex];
    }
  }

  /** A waker that finds somebody waiting finds the mutex that all of them wait with. */
  lemma WakersKnowMutex(n: nat, mutexes: nat, run: seq<State>, i: nat, t: nat)
    requires IsRun(n, mutexes, run) && i < |run| && t in run[i].fifo
    ensures t < |run[i].threads| && run[i].userMutex == Some(run[i].threads[t].mutex)
    ensures run[i].threads[t].mutex < |run[i].pending|
  {
    RunInv(n, mutexes, run, i);
    assert t < |run[i].threads| && ThreadOk(run[i], t);
  }

  /** A woken waiter holds the mutex already. */
  lemma WokenHoldsMutex(n: nat, mutexes: nat, run: seq<State>, i: nat, t: nat)
    requires IsRun(n, mutexes, run) && i < |run| && t < |run[i].threads| && run[i].threads[t].woken
    ensures run[i].threads[t].mutex < |run[i].owners| && run[i].owners[run[i].threads[t].mutex] == Some(t)
  {
    RunInv(n, mutexes, run, i);
    assert ThreadOk(run[i], t);
  }

  /** A waiter that timed out took its record off the queue. */
  ghost predicate TimedOut(s: State, s': State) {
    exists t: nat :: Enabled(s, Remove(t)) && s' == Next(s, Remove(t))
  }

  /** The step after state j emptied the queue, and it has been empty since then up to state i. */
  ghost predicate LastEmptied(run: seq<State>, j: nat, i: nat) {
    && j < i < |run| && run[j].fifo != []
    && forall k :: j < k <= i ==> run[k].fifo == []
  }

  /** A step between two states with an empty queue leaves the mutex as it is. */
  lemma EmptyKeepsMutex(s: State, a: Action)
    requires SharedOk(s) && Enabled(s, a) && s.fifo == [] && Next(s, a).fifo == []
    ensures Next(s, a).userMutex == s.userMutex
  {}

  /** A step that empties the queue keeps the mutex exactly if it is a timeout. */
  lemma EmptyingStep(s: State, a: Action)
    requires SharedOk(s) && Enabled(s, a) && s.fifo != [] && Next(s, a).fifo == []
    ensures Next(s, a).userMutex.Some? <==> TimedOut(s, Next(s, a))
  {
    if a.Remove? {
      assert TimedOut(s, Next(s, a));
    }
  }

  lemma {:induction false} RememberedIff(n: nat, mutexes: nat, run: seq<State>, i: nat)
    requires IsRun(n, mutexes, run) && i < |run| && run[i].fifo == []
    ensures run[i].userMutex.Some? <==>
            exists j: nat :: LastEmptied(run, j, i) && TimedOut(run[j], run[j + 1])
  {
    hide TimedOut, Next, Enabled;
    if i > 0 {
      RunInv(n, mutexes, run, i - 1);
      assert Follows(run[i - 1], run[i]);
      var a :| Enabled(run[i - 1], a) && run[i] == Next(run[i - 1], a);
      if run[i - 1].fifo == [] {
        RememberedIff(n, mutexes, run, i - 1);
        EmptyKeepsMutex(run[i - 1], a);
        forall j: nat ensures LastEmptied(run, j, i) <==> LastEmptied(run, j, i - 1) {}
      } else {
        EmptyingStep(run[i - 1], a);
        forall j: nat ensures LastEmptied(run, j, i) <==> j == i - 1 {}
      }
    }
  }

  /**
    When nobody waits, the next wait may use any mutex, unless the step that
    last emptied the queue was a waiter leaving by its timeout.
   */
  lemma MutexForgottenIff(n: nat, mutexes: nat, run: seq<State>, i: nat)
    requires IsRun(n, mutexes, run) && i < |run| && run[i].fifo == []
    ensures (forall m: nat :: SameMutex(run[i], m)) <==>
            !exists j: nat :: LastEmptied(run, j, i) && TimedOut(run[j], run[j + 1])
  {
    RememberedIff(n, mutexes, run, i);
    if run[i].userMutex.Some? {
      assert !SameMutex(run[i], run[i].userMutex.value + 1);
    }
  }

  /** A wait on mutex 0 that times out and leaves the queue. */
  lemma StaleSteps() returns (s1: State, s2: State, s3: State, s4: State)
    ensures Follows(Init(1, 2), s1) && Follows(s1, s2) && Follows(s2, s3) && Follows(s3, s4)
    ensures s4.fifo == [] && !SameMutex(s4, 1)
  {
    var s0 := Init(1, 2);
    s1 := Next(s0, Lock(0, 0));
    s2 := Next(s1, Wait(0, 0));
    s3 := Next(s2, Expire(0));
    s4 := Next(s3, Remove(0));
  }

  /** After it, with nobody waiting, the assertion fails for mutex 1. */
  lemma StaleMutex()
    ensures exists run: seq<State> :: IsRun(1, 2, run) && run[|run| - 1].fifo == [] && !SameMutex(run[|run| - 1], 1)
  {
    hide Follows;
    var s1, s2, s3, s4 := StaleSteps();
    var run := [Init(1, 2), s1, s2, s3, s4];
    assert IsRun(1, 2, run);
    assert run[|run| - 1] == s4;
  }
}
