/**
  Which waiters of a condition variable return from wait(): all that were taken
  off the queue, unless the mutex of a waiter is held, directly or through
  others, by a thread that itself waits and is not going to be woken.
 */
module CondvarProgress {
  import opened Condvar
  import opened CondvarProof

  /** Calls in progress, the mutex at work, and unlock(); nobody waits, wakes or locks anew. */
  predicate Helps(a: Action) {
    a.Unlock? || a.Remove? || a.Receive? || a.LockAgain? || a.SendNext? || a.Grant?
  }

  predicate Leads(s: State, acts: seq<Action>, s': State)
    decreases |acts|
  {
    if acts == [] then s' == s
    else Helps(acts[0]) && Enabled(s, acts[0]) && Leads(Next(s, acts[0]), acts[1..], s')
  }

  ghost predicate CanReturn(s: State, t: nat) {
    exists acts, s' :: Leads(s, acts, s') && IsOut(s', t)
  }

  // --------------------------------------------------------- who is trapped

  /** The thread waits, and for the other threads of the set, or for a wakeup. */
  predicate WaitsFor(s: State, trap: set<nat>, t: nat) {
    t < |s.threads| &&
    var th := s.threads[t];
    && th.pc != Out && !th.woken
    && (|| (th.pc == Sleeping && th.place == InFifo)
        || (th.mutex < |s.owners| && s.owners[th.mutex].Some? && s.owners[th.mutex].value in trap))
  }

  ghost predicate Trapped(s: State, trap: set<nat>) {
    forall t :: t in trap ==> WaitsFor(s, trap, t)
  }

  /** A mutex held by a trapped thread stays with it, and its waiters stay where they are. */
  lemma TrapKept(s: State, a: Action, trap: set<nat>)
    requires Inv(s) && Helps(a) && Enabled(s, a) && Trapped(s, trap)
    ensures Trapped(Next(s, a), trap)
  {
    hide Inv;
    forall t | t in trap ensures WaitsFor(Next(s, a), trap, t) {
      assert WaitsFor(s, trap, t);
      OneTrapped(s, a, trap, t);
    }
  }

  /** A thread that releases or takes a mutex is not trapped, nor is one that moves on in wait(). */
  lemma OneTrapped(s: State, a: Action, trap: set<nat>, t: nat)
    requires Inv(s) && Helps(a) && Enabled(s, a) && Trapped(s, trap) && t in trap
    ensures WaitsFor(Next(s, a), trap, t)
  {
    assert WaitsFor(s, trap, t) && ThreadOk(s, t);
    match a
    case Unlock(u, m) => assert u in trap ==> WaitsFor(s, trap, u);
    case Remove(u) =>
    case Receive(u) =>
    case LockAgain(u) => assert u in trap ==> WaitsFor(s, trap, u);
    case SendNext(b, k) => assert ThreadOk(s, s.batches[b].list[k]);
    case Grant(m, u) => assert ThreadOk(s, u) && (u in trap ==> WaitsFor(s, trap, u));
    case _ =>
  }

  lemma {:induction false} TrappedForever(s: State, acts: seq<Action>, s': State, trap: set<nat>)
    requires Inv(s) && Leads(s, acts, s') && Trapped(s, trap)
    ensures Trapped(s', trap)
    decreases |acts|
  {
    hide Inv, Next, Enabled, Trapped;
    if acts != [] {
      TrapKept(s, acts[0], trap);
      NextInv(s, acts[0]);
      TrappedForever(Next(s, acts[0]), acts[1..], s', trap);
    }
  }

  // --------------------------------------------------------- who returns

  lemma ReturnsAfter(s: State, a: Action, t: nat)
    requires Helps(a) && Enabled(s, a) && CanReturn(Next(s, a), t)
    ensures CanReturn(s, t)
  {
    hide Enabled, Next, IsOut;
    var acts, s' :| Leads(Next(s, a), acts, s') && IsOut(s', t);
    assert ([a] + acts)[0] == a && ([a] + acts)[1..] == acts;
    assert Leads(s, [a] + acts, s');
  }

  lemma OutReturns(s: State, t: nat)
    requires IsOut(s, t)
    ensures CanReturn(s, t)
  {
    assert Leads(s, [], s);
  }

  /** The thread is inside wait(), and not asleep in the queue. */
  predicate Leaving(s: State, t: nat) {
    t < |s.threads| && s.threads[t].pc != Out && !(s.threads[t].pc == Sleeping && s.threads[t].place == InFifo)
  }

  lemma InvAt(s: State, t: nat)
    requires Inv(s) && t < |s.threads|
    ensures SharedOk(s) && ThreadOk(s, t)
  {}

  /** A woken waiter returns on its own. */
  lemma WokenReturns(s: State, t: nat)
    requires Inv(s) && t < |s.threads| && s.threads[t].woken
    ensures CanReturn(s, t)
  {
    hide Inv, CanReturn;
    InvAt(s, t);
    if s.threads[t].pc == Removing {
      var s1 := Next(s, Remove(t));
      OutReturns(Next(s1, Receive(t)), t);
      ReturnsAfter(s1, Receive(t), t);
      ReturnsAfter(s, Remove(t), t);
    } else {
      OutReturns(Next(s, Receive(t)), t);
      ReturnsAfter(s, Receive(t), t);
    }
  }

  /** A waiter that was sent to a free mutex is granted it. */
  lemma SentReturns(s: State, t: nat)
    requires Inv(s) && Leaving(s, t) && s.threads[t].place == InMutex
    requires s.threads[t].mutex < |s.owners| && s.owners[s.threads[t].mutex] == None
    ensures CanReturn(s, t)
  {
    hide Inv, CanReturn;
    InvAt(s, t);
    var a := Grant(s.threads[t].mutex, t);
    NextInv(s, a);
    WokenReturns(Next(s, a), t);
    ReturnsAfter(s, a, t);
  }

  lemma BatchReturns(s: State, t: nat)
    requires Inv(s) && Leaving(s, t) && s.threads[t].place.InBatch?
    requires s.threads[t].mutex < |s.owners| && s.owners[s.threads[t].mutex] == None
    ensures CanReturn(s, t)
  {
    hide Inv, CanReturn;
    InvAt(s, t);
    var b := s.threads[t].place.i;
    var k :| 0 <= k < |s.batches[b].list| && s.batches[b].list[k] == t;
    NextInv(s, SendNext(b, k));
    SentReturns(Next(s, SendNext(b, k)), t);
    ReturnsAfter(s, SendNext(b, k), t);
  }

  lemma TimedOutReturns(s: State, t: nat)
    requires Inv(s) && t < |s.threads| && (s.threads[t].pc == Relock || (s.threads[t].pc == Removing && s.threads[t].place == InFifo))
    requires s.threads[t].mutex < |s.owners| && s.owners[s.threads[t].mutex] == None
    ensures CanReturn(s, t)
  {
    hide Inv, CanReturn;
    InvAt(s, t);
    var s1 := if s.threads[t].pc == Removing then Next(s, Remove(t)) else s;
    OutReturns(Next(s1, LockAgain(t)), t);
    ReturnsAfter(s1, LockAgain(t), t);
    if s.threads[t].pc == Removing {
      ReturnsAfter(s, Remove(t), t);
    }
  }

  /** A waiter whose mutex is free returns. */
  lemma FreeReturns(s: State, t: nat)
    requires Inv(s) && Leaving(s, t)
    requires s.threads[t].mutex < |s.owners| && s.owners[s.threads[t].mutex] == None
    ensures CanReturn(s, t)
  {
    hide Inv, CanReturn;
    InvAt(s, t);
    var th := s.threads[t];
    if th.woken { WokenReturns(s, t); }
    else if th.place == InMutex { SentReturns(s, t); }
    else if th.place.InBatch? { BatchReturns(s, t); }
    else { TimedOutReturns(s, t); }
  }

  /** Once the holder of its mutex is outside, a waiter returns. */
  lemma UnlockReturns(s: State, u: nat, t: nat)
    requires Inv(s) && Leaving(s, t) && IsOut(s, u)
    requires s.threads[t].mutex < |s.owners| && s.owners[s.threads[t].mutex] == Some(u)
    ensures CanReturn(s, t)
  {
    hide Inv, CanReturn;
    var a := Unlock(u, s.threads[t].mutex);
    NextInv(s, a);
    FreeReturns(Next(s, a), t);
    ReturnsAfter(s, a, t);
  }

  /** While the holder waits, it keeps the mutex, and the waiter for it stays or returns. */
  lemma HolderStep(s: State, a: Action, u: nat, t: nat)
    requires Inv(s) && Helps(a) && Enabled(s, a) && Leaving(s, t) && u < |s.threads| && s.threads[u].pc != Out && u != t
    requires s.threads[t].mutex < |s.owners| && s.owners[s.threads[t].mutex] == Some(u)
    ensures var s' := Next(s, a);
            && |s'.threads| == |s.threads| && |s'.owners| == |s.owners|
            && (IsOut(s', t) || (Leaving(s', t) && s'.threads[t].mutex == s.threads[t].mutex))
            && s'.owners[s.threads[t].mutex] == Some(u)
  {
    InvAt(s, t);
    hide Inv;
    match a
    case Grant(m, x) => GrantOther(s, m, x);
    case _ =>
  }

  lemma GrantOther(s: State, m: nat, x: nat)
    requires Inv(s) && Enabled(s, Grant(m, x))
    ensures s.owners[m] == None
  {}

  lemma {:induction false} HolderReturns(s: State, acts: seq<Action>, s': State, u: nat, t: nat)
    requires Inv(s) && Leads(s, acts, s') && IsOut(s', u) && Leaving(s, t) && u < |s.threads| && u != t
    requires s.threads[t].mutex < |s.owners| && s.owners[s.threads[t].mutex] == Some(u)
    ensures CanReturn(s, t)
    decreases |acts|
  {
    hide Inv, CanReturn, Next, Enabled;
    if IsOut(s, u) {
      UnlockReturns(s, u, t);
    } else {
      var s1 := Next(s, acts[0]);
      NextInv(s, acts[0]);
      HolderStep(s, acts[0], u, t);
      if IsOut(s1, t) {
        OutReturns(s1, t);
      } else {
        HolderReturns(s1, acts[1..], s', u, t);
      }
      ReturnsAfter(s, acts[0], t);
    }
  }

  /** The threads inside wait() that do not return. */
  ghost function Lost(s: State): set<nat> {
    set t: nat | t < |s.threads| && s.threads[t].pc != Out && !CanReturn(s, t)
  }

  lemma LostIsTrapped(s: State)
    requires Inv(s)
    ensures Trapped(s, Lost(s))
  {
    hide Inv, CanReturn;
    forall t | t in Lost(s) ensures WaitsFor(s, Lost(s), t) {
      LostWaits(s, t);
    }
  }

  lemma LostWaits(s: State, t: nat)
    requires Inv(s) && t in Lost(s)
    ensures WaitsFor(s, Lost(s), t)
  {
    hide Inv, CanReturn;
    InvAt(s, t);
    var m := s.threads[t].mutex;
    if s.threads[t].woken {
      WokenReturns(s, t);
    } else if Leaving(s, t) {
      if s.owners[m] == None {
        FreeReturns(s, t);
      } else if s.owners[m].value !in Lost(s) {
        OthersReturn(s, s.owners[m].value, t);
      }
    }
  }

  lemma OthersReturn(s: State, u: nat, t: nat)
    requires Inv(s) && Leaving(s, t) && u < |s.threads| && u != t && (IsOut(s, u) || CanReturn(s, u))
    requires s.threads[t].mutex < |s.owners| && s.owners[s.threads[t].mutex] == Some(u)
    ensures CanReturn(s, t)
  {
    hide Inv;
    if IsOut(s, u) {
      UnlockReturns(s, u, t);
    } else {
      var acts, s' :| Leads(s, acts, s') && IsOut(s', u);
      HolderReturns(s, acts, s', u, t);
    }
  }

  // ---------------------------------------------------------------- theorems

  /**
    In every state of every run, the sends in progress, the mutex and unlock()
    can lead a thread inside wait() out of it exactly if it is in no set of
    waiting threads each of which sleeps in the queue or waits for a mutex that
    one of the set holds.
   */
  lemma WaiterReturnsIff(n: nat, mutexes: nat, run: seq<State>, i: nat, t: nat)
    requires IsRun(n, mutexes, run) && i < |run| && t < |run[i].threads| && run[i].threads[t].pc != Out
    ensures CanReturn(run[i], t) <==> !exists trap: set<nat> :: t in trap && Trapped(run[i], trap)
  {
    hide Inv, Leads;
    var s := run[i];
    RunInv(n, mutexes, run, i);
    if trap: set<nat> :| t in trap && Trapped(s, trap) {
      forall acts, s' | Leads(s, acts, s') ensures !IsOut(s', t) {
        TrappedForever(s, acts, s', trap);
        assert WaitsFor(s', trap, t);
      }
    } else {
      LostIsTrapped(s);
      assert t !in Lost(s);
    }
  }

  /** A thread that waits without being woken holds no mutex. */
  ghost predicate NobodyHoldsAndWaits(s: State) {
    forall m: nat, u: nat :: m < |s.owners| && u < |s.threads| && s.owners[m] == Some(u) ==> s.threads[u].pc == Out || s.threads[u].woken
  }

  /** As long as nobody waits with another mutex in hand, every waiter that does not sleep in the queue returns. */
  lemma TakenOffReturns(n: nat, mutexes: nat, run: seq<State>, i: nat, t: nat)
    requires IsRun(n, mutexes, run) && i < |run| && Leaving(run[i], t) && NobodyHoldsAndWaits(run[i])
    ensures CanReturn(run[i], t)
  {
    hide CanReturn, IsRun;
    var s := run[i];
    WaiterReturnsIff(n, mutexes, run, i, t);
    forall trap: set<nat> | t in trap ensures !Trapped(s, trap) {
      NotTrapped(s, trap, t);
    }
  }

  lemma NotTrapped(s: State, trap: set<nat>, t: nat)
    requires Leaving(s, t) && NobodyHoldsAndWaits(s) && t in trap
    ensures !Trapped(s, trap)
  {
    if WaitsFor(s, trap, t) {
      var u := s.owners[s.threads[t].mutex].value;
      assert u in trap && !WaitsFor(s, trap, u);
    }
  }

  // ------------------------------------------------------- what a wake does

  /** A waker finds what it needs whenever somebody is queued. */
  lemma WakersGoOn(s: State)
    requires Inv(s) && s.fifo != []
    ensures Enabled(s, WakeOne) && Enabled(s, WakeAll)
  {}

  /** The threads that are not in the set are as they were, and so are the mutexes. */
  ghost predicate OnlyTouches(s: State, s': State, touched: set<nat>) {
    && |s'.threads| == |s.threads| && s'.owners == s.owners
    && forall t: nat :: t < |s.threads| && t !in touched ==> s'.threads[t] == s.threads[t]
  }

  /** A wake that finds somebody is not waiting for anything, and takes no mutex from anybody. */
  lemma StillNobodyHolds(s: State, s': State)
    requires NobodyHoldsAndWaits(s) && |s'.threads| == |s.threads| && s'.owners == s.owners
    requires forall t: nat :: t < |s.threads| ==> s'.threads[t].pc == s.threads[t].pc && s'.threads[t].woken == s.threads[t].woken
    ensures NobodyHoldsAndWaits(s')
  {}

  lemma WakeAllTakes(s: State, t: nat)
    requires Inv(s) && s.fifo != [] && t < |s.threads|
    ensures Enabled(s, WakeAll) && t < |Next(s, WakeAll).threads|
    ensures var th, th' := s.threads[t], Next(s, WakeAll).threads[t];
            && th'.pc == th.pc && th'.woken == th.woken && (t !in s.fifo ==> th' == th)
            && (th.pc != Out ==> Leaving(Next(s, WakeAll), t))
  {
    assert ThreadOk(s, t);
  }

  /**
    In every state of every run with somebody queued: after wake_all() nobody is
    queued, no thread inside wait() sleeps in the queue, and unless somebody waits
    with a mutex in hand each of them can return.
   */
  lemma WakeAllWakesAll(n: nat, mutexes: nat, run: seq<State>, i: nat)
    requires IsRun(n, mutexes, run) && i < |run| && run[i].fifo != []
    ensures Enabled(run[i], WakeAll)
    ensures var s, s' := run[i], Next(run[i], WakeAll);
            && s'.fifo == [] && OnlyTouches(s, s', set t | t in s.fifo)
            && (forall t: nat :: t < |s.threads| && s.threads[t].pc != Out ==> Leaving(s', t))
            && (NobodyHoldsAndWaits(s) ==> forall t: nat :: t < |s.threads| && s.threads[t].pc != Out ==> CanReturn(s', t))
  {
    hide IsRun, Inv, CanReturn, Leaving, NobodyHoldsAndWaits;
    var s := run[i];
    RunInv(n, mutexes, run, i);
    WakersGoOn(s);
    var s' := Next(s, WakeAll);
    forall t: nat | t < |s.threads|
      ensures s'.threads[t].pc == s.threads[t].pc && s'.threads[t].woken == s.threads[t].woken
      ensures t !in s.fifo ==> s'.threads[t] == s.threads[t]
      ensures s.threads[t].pc != Out ==> Leaving(s', t)
    {
      WakeAllTakes(s, t);
    }
    if NobodyHoldsAndWaits(s) {
      StillNobodyHolds(s, s');
      var longer := run[..i + 1] + [s'];
      OneMore(n, mutexes, run, i, WakeAll);
      forall t: nat | t < |s.threads| && s.threads[t].pc != Out ensures CanReturn(s', t) {
        TakenOffReturns(n, mutexes, longer, i + 1, t);
      }
    }
  }

  lemma OneMore(n: nat, mutexes: nat, run: seq<State>, i: nat, a: Action)
    requires IsRun(n, mutexes, run) && i < |run| && Enabled(run[i], a)
    ensures IsRun(n, mutexes, run[..i + 1] + [Next(run[i], a)])
  {
    hide Next, Enabled;
    var longer := run[..i + 1] + [Next(run[i], a)];
    forall j | 0 < j < |longer| ensures Follows(longer[j - 1], longer[j]) {
      if j <= i {
        assert longer[j - 1] == run[j - 1] && longer[j] == run[j];
      } else {
        assert longer[j - 1] == run[i] && longer[j] == Next(run[i], a);
      }
    }
  }

  lemma WakeOneTakes(s: State)
    requires Inv(s) && s.fifo != []
    ensures Enabled(s, WakeOne)
    ensures var s', t := Next(s, WakeOne), s.fifo[0];
            && OnlyTouches(s, s', {t}) && s.fifo == [t] + s'.fifo && t !in s'.fifo
            && s'.threads[t].pc == s.threads[t].pc && s'.threads[t].woken == s.threads[t].woken && Leaving(s', t)
            && s.threads[t].mutex < |s'.pending| && t in s'.pending[s.threads[t].mutex]
  {
    assert ThreadOk(s, s.fifo[0]);
  }

  /**
    After wake_one() exactly the oldest has left the queue, for its mutex; the
    others are queued as before, and unless somebody waits with a mutex in hand
    it can return.
   */
  lemma WakeOneWakesOldest(n: nat, mutexes: nat, run: seq<State>, i: nat)
    requires IsRun(n, mutexes, run) && i < |run| && run[i].fifo != []
    ensures Enabled(run[i], WakeOne)
    ensures var s, s', t := run[i], Next(run[i], WakeOne), run[i].fifo[0];
            && s.fifo == [t] + s'.fifo && t !in s'.fifo && OnlyTouches(s, s', {t})
            && Leaving(s', t) && s.threads[t].mutex < |s'.pending| && t in s'.pending[s.threads[t].mutex]
            && (NobodyHoldsAndWaits(s) ==> CanReturn(s', t))
  {
    hide IsRun, Inv, CanReturn, Leaving, NobodyHoldsAndWaits;
    var s := run[i];
    RunInv(n, mutexes, run, i);
    WakeOneTakes(s);
    if NobodyHoldsAndWaits(s) {
      var s' := Next(s, WakeOne);
      StillNobodyHolds(s, s');
      OneMore(n, mutexes, run, i, WakeOne);
      TakenOffReturns(n, mutexes, run[..i + 1] + [s'], i + 1, s.fifo[0]);
    }
  }

  /** wait() queues its caller behind all others and releases the mutex; nobody else is touched. */
  lemma WaitQueuesLast(n: nat, mutexes: nat, run: seq<State>, i: nat, t: nat, m: nat)
    requires IsRun(n, mutexes, run) && i < |run| && Enabled(run[i], Wait(t, m))
    ensures var s, s' := run[i], Next(run[i], Wait(t, m));
            && s'.fifo == s.fifo + [t] && t !in s.fifo && |s'.threads| == |s.threads|
            && s'.threads[t].pc == Sleeping && s'.threads[t].mutex == m && !s'.threads[t].woken
            && s'.owners == s.owners[m := None] && s'.pending == s.pending && s'.batches == s.batches
            && (forall u: nat :: u < |s.threads| && u != t ==> s'.threads[u] == s.threads[u])
  {
    RunInv(n, mutexes, run, i);
    assert ThreadOk(run[i], t);
  }

  /** A waiter whose timer expires does not sleep in the queue any more, and unless somebody waits with a mutex in hand it can return. */
  lemma ExpiredReturns(n: nat, mutexes: nat, run: seq<State>, i: nat, t: nat)
    requires IsRun(n, mutexes, run) && i < |run| && Enabled(run[i], Expire(t))
    ensures var s, s' := run[i], Next(run[i], Expire(t));
            && OnlyTouches(s, s', {t}) && s'.fifo == s.fifo && Leaving(s', t)
            && (NobodyHoldsAndWaits(s) ==> CanReturn(s', t))
  {
    hide IsRun, CanReturn, NobodyHoldsAndWaits;
    var s, s' := run[i], Next(run[i], Expire(t));
    if NobodyHoldsAndWaits(s) {
      HoldsAsBefore(s, s', t);
      OneMore(n, mutexes, run, i, Expire(t));
      TakenOffReturns(n, mutexes, run[..i + 1] + [s'], i + 1, t);
    }
  }

  lemma HoldsAsBefore(s: State, s': State, t: nat)
    requires NobodyHoldsAndWaits(s) && OnlyTouches(s, s', {t}) && t < |s.threads|
    requires s.threads[t].pc != Out && s'.threads[t].pc != Out && s'.threads[t].woken == s.threads[t].woken
    ensures NobodyHoldsAndWaits(s')
  {}

  ghost predicate Before(q: seq<nat>, x: nat, y: nat) {
    exists p, r :: 0 <= p < r < |q| && q[p] == x && q[r] == y
  }

  lemma {:induction false} WithoutKeepsOrder(q: seq<nat>, t: nat, x: nat, y: nat)
    requires Before(q, x, y) && x != t && y != t
    ensures Before(Without(q, t), x, y)
  {
    var p, r :| 0 <= p < r < |q| && q[p] == x && q[r] == y;
    if q[0] == t {
      assert q[1..][p - 1] == x && q[1..][r - 1] == y;
    } else if p == 0 {
      StillIn(q[1..], t, y, r - 1);
      var k :| 0 <= k < |Without(q[1..], t)| && Without(q[1..], t)[k] == y;
      assert Without(q, t)[0] == x && Without(q, t)[k + 1] == y;
    } else {
      assert q[1..][p - 1] == x && q[1..][r - 1] == y;
      WithoutKeepsOrder(q[1..], t, x, y);
      var p', r' :| 0 <= p' < r' < |Without(q[1..], t)| && Without(q[1..], t)[p'] == x && Without(q[1..], t)[r'] == y;
      assert Without(q, t)[p' + 1] == x && Without(q, t)[r' + 1] == y;
    }
  }

  lemma {:induction false} StillIn(q: seq<nat>, t: nat, y: nat, k: nat)
    requires k < |q| && q[k] == y && y != t
    ensures y in Without(q, t)
  {
    if q[0] == t {
      assert q[1..][k - 1] == y;
    } else if k > 0 {
      StillIn(q[1..], t, y, k - 1);
    }
  }

  /** What an action makes of the queue: nothing, one more at the end, one less, or nobody left. */
  lemma QueueChanges(s: State, a: Action)
    requires Enabled(s, a)
    ensures var q, q' := s.fifo, Next(s, a).fifo;
            q' == q || q' == [] || (a.Wait? && q' == q + [a.t]) || (q != [] && q' == q[1..]) || (a.Remove? && q' == Without(q, a.t))
  {}

  lemma StaysBefore(s: State, a: Action, x: nat, y: nat)
    requires Inv(s) && Enabled(s, a) && x in s.fifo && (y in s.fifo ==> Before(s.fifo, x, y)) && x != y
    requires x in Next(s, a).fifo && y in Next(s, a).fifo
    ensures Before(Next(s, a).fifo, x, y)
  {
    var q, q' := s.fifo, Next(s, a).fifo;
    QueueChanges(s, a);
    hide Next, Enabled;
    if a.Wait? && q' == q + [a.t] && y !in q {
      var p :| 0 <= p < |q| && q[p] == x;
      assert q'[p] == x && q'[|q|] == y;
    } else if q' != q && a.Remove? && q' == Without(q, a.t) {
      WithoutFacts(q, a.t, |s.threads|);
      WithoutKeepsOrder(q, a.t, x, y);
    } else if q' != q {
      var p, r :| 0 <= p < r < |q| && q[p] == x && q[r] == y;
      if q' == q[1..] {
        assert q'[p - 1] == x && q'[r - 1] == y;
      } else {
        assert q'[p] == x && q'[r] == y;
      }
    }
  }

  /** As long as a waiter stays queued, one that came after it is behind it; so the oldest is the first to be woken. */
  lemma {:induction false} NobodyOvertakes(n: nat, mutexes: nat, run: seq<State>, i: nat, j: nat, x: nat, y: nat)
    requires IsRun(n, mutexes, run) && i <= j < |run| && x != y && (y in run[i].fifo ==> Before(run[i].fifo, x, y))
    requires forall k :: i <= k <= j ==> x in run[k].fifo
    ensures y in run[j].fifo ==> Before(run[j].fifo, x, y)
    decreases j
  {
    hide Before, Inv, Next, Enabled;
    if i < j {
      NobodyOvertakes(n, mutexes, run, i, j - 1, x, y);
      RunInv(n, mutexes, run, j - 1);
      assert Follows(run[j - 1], run[j]);
      var a :| Enabled(run[j - 1], a) && run[j] == Next(run[j - 1], a);
      if y in run[j].fifo {
        StaysBefore(run[j - 1], a, x, y);
      }
    }
  }


  lemma SameSize(s: State, a: Action)
    requires Enabled(s, a)
    ensures |Next(s, a).threads| == |s.threads| && |Next(s, a).owners| == |s.owners|
  {}

  lemma {:induction false} SizesStay(n: nat, mutexes: nat, run: seq<State>, i: nat)
    requires IsRun(n, mutexes, run) && i < |run|
    ensures |run[i].threads| == n && |run[i].owners| == mutexes
  {
    hide Next, Enabled;
    if i > 0 {
      SizesStay(n, mutexes, run, i - 1);
      assert Follows(run[i - 1], run[i]);
      var a :| Enabled(run[i - 1], a) && run[i] == Next(run[i - 1], a);
      SameSize(run[i - 1], a);
    }
  }

  /** In every state of every run: a thread outside may lock a free mutex, and wait with one it holds unless another one is in use. */
  lemma MayCall(n: nat, mutexes: nat, run: seq<State>, i: nat, t: nat, m: nat)
    requires IsRun(n, mutexes, run) && i < |run| && t < n && m < mutexes
    ensures |run[i].threads| == n && |run[i].owners| == mutexes
    ensures run[i].threads[t].pc == Out ==>
              && (Enabled(run[i], Lock(t, m)) <==> run[i].owners[m] == None)
              && (Enabled(run[i], Unlock(t, m)) <==> run[i].owners[m] == Some(t))
              && (Enabled(run[i], Wait(t, m)) <==> run[i].owners[m] == Some(t) && SameMutex(run[i], m))
    ensures run[i].threads[t].pc == Sleeping && !run[i].threads[t].woken ==> Enabled(run[i], Expire(t))
  {
    SizesStay(n, mutexes, run, i);
  }

  // ----------------------------------------------------- one that does not return

  /** Thread 1 has been sent to mutex 1. */
  function SentOnly(): State {
    State([Thread(Out, 0, false, false, Nowhere, 0), Thread(Sleeping, 1, false, false, InMutex, 1)], [], None,
          [None, None], [{}, {1}], [])
  }

  lemma SentSteps() returns (b: State, c: State)
    ensures Follows(Init(2, 2), b) && Follows(b, c) && Follows(c, SentOnly())
  {
    b := Next(Init(2, 2), Lock(1, 1));
    c := Next(b, Wait(1, 1));
    var d := Next(c, WakeOne);
    assert d.pending[0] == {} && d.pending[1] == {} + {1} == {1};
    assert d.threads == SentOnly().threads && d.owners == [None, None] && d.pending == [{}, {1}];
  }

  /** Thread 0 takes that mutex and waits with mutex 0. */
  lemma HeldSteps() returns (e: State, f: State, g: State)
    ensures Follows(SentOnly(), e) && Follows(e, f) && Follows(f, g)
    ensures Trapped(g, {0, 1}) && |g.threads| == 2 && g.threads[1].place == InMutex && g.threads[1].pc != Out
  {
    e := Next(SentOnly(), Lock(0, 1));
    f := Next(e, Lock(0, 0));
    g := Next(f, Wait(0, 0));
  }

  /** A waiter that was taken off the queue does not return while the holder of its mutex waits for a wakeup. */
  lemma HeldWhileWaiting() returns (run: seq<State>)
    ensures IsRun(2, 2, run) && var s := run[|run| - 1]; |s.threads| == 2 && s.threads[1].place == InMutex && !CanReturn(s, 1)
  {
    hide Follows, CanReturn, Trapped;
    var b, c := SentSteps();
    var e, f, g := HeldSteps();
    run := [Init(2, 2), b, c, SentOnly(), e, f, g];
    assert IsRun(2, 2, run);
    assert run[6] == g;
    WaiterReturnsIff(2, 2, run, 6, 1);
    assert 1 in {0, 1};
  }
}
