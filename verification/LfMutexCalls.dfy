/**
  What the calls on the mutex have done when they return, in every interleaving:
  lock() has taken one more acquisition, unlock() has given one back,
  try_lock() has taken one whenever it could, and a thread that was sent the
  lock has it.
 */
module LfMutexCalls {
  import opened LfMutex
  import opened LfMutexProof
  import opened LfMutexProgress
  import opened Tally

  /** Calls by what they are bound to end with. */
  datatype Kind = Locks | Tries | TriesSurely | Unlocks | Sends | Parks | Receives

  /** The points of each call. */
  predicate Inside(kind: Kind, th: Thread) {
    var pc := th.pc;
    match kind
    case Locks =>
      || pc == LockCheckOwner || pc == LockRecurse || pc == LockPush || pc == LockWait || pc == SetOwner
      || (InHandoffCode(pc) && pc.role == Locker)
    case Tries => pc == TryCheckOwner || pc == TryCount || pc == SetOwner || (InHandoffCode(pc) && pc.role == Trier)
    case TriesSurely => pc == SetOwner || (pc == TryCheckOwner && th.held > 0)
    case Unlocks => pc == UnlockCount || pc.Publish? || (InHandoffCode(pc) && pc.role.Unlocker?)
    case Sends => pc.SendPush? || (InHandoffCode(pc) && pc.role == Sender)
    case Parks => pc == Parked(false)
    case Receives => pc == Parked(true) || pc == SetOwner
  }

  /** A thread inside a call that it made with h acquisitions. */
  predicate Busy(kind: Kind, th: Thread, h: int) {
    Inside(kind, th) && th.held == if kind == Unlocks then h - 1 else h
  }

  /** What it has when it returns. */
  predicate Answer(kind: Kind, th: Thread, h: int) {
    th.pc == Idle &&
    match kind
    case Locks => th.held == h + 1
    case Tries => th.held == h || th.held == h + 1
    case TriesSurely => th.held == h + 1
    case Unlocks => th.held == h - 1
    case Sends => th.held == h
    case Parks => th.held == h
    case Receives => th.held == h + 1
  }

  // ------------------------------------------------------ steps of the caller

  lemma OwnerPart(s: State, t: nat, kind: Kind, h: int)
    requires View(s, t) && CanStep(s.threads[t]) && Busy(kind, s.threads[t], h) && !InHandoffCode(s.threads[t].pc)
    ensures var s' := StepCall(s, t);
            |s'.threads| == |s.threads| && (Busy(kind, s'.threads[t], h) || Answer(kind, s'.threads[t], h))
  {}

  lemma HandoffPart(s: State, t: nat, kind: Kind, h: int)
    requires View(s, t) && CanStep(s.threads[t]) && Busy(kind, s.threads[t], h)
    requires var pc := s.threads[t].pc; pc.LoadHandoff? || pc.CheckEmpty? || pc.TakeHandoff?
    ensures var s' := StepCall(s, t);
            |s'.threads| == |s.threads| && (Busy(kind, s'.threads[t], h) || Answer(kind, s'.threads[t], h))
  {}

  lemma WakePart(s: State, t: nat, kind: Kind, h: int)
    requires View(s, t) && CanStep(s.threads[t]) && Busy(kind, s.threads[t], h)
    requires var pc := s.threads[t].pc; pc.Pop? || pc.Wake?
    ensures var s' := StepCall(s, t);
            |s'.threads| == |s.threads| && (Busy(kind, s'.threads[t], h) || Answer(kind, s'.threads[t], h))
  {}

  lemma OwnAction(s: State, t: nat, kind: Kind, h: int, b: Action)
    requires Inv(s) && Enabled(s, t, b) && Busy(kind, s.threads[t], h)
    ensures var s' := Next(s, t, b);
            |s'.threads| == |s.threads| && (Busy(kind, s'.threads[t], h) || Answer(kind, s'.threads[t], h))
  {
    hide Inv, View, StepCall;
    Views(s, t);
    if b == Step {
      if !InHandoffCode(s.threads[t].pc) { OwnerPart(s, t, kind, h); }
      else if s.threads[t].pc.Pop? || s.threads[t].pc.Wake? { WakePart(s, t, kind, h); }
      else { HandoffPart(s, t, kind, h); }
    }
  }

  // -------------------------------------------------- actions of the others

  /** Others leave a thread where it is, with what it holds; send_lock() marks a parked one. */
  predicate Left(th: Thread, th': Thread) {
    th'.held == th.held && (th'.pc == th.pc || (th.pc == Parked(false) && th'.pc == Parked(true)))
  }

  lemma OthersLeave(s: State, u: nat, b: Action, t: nat)
    requires Inv(s) && Enabled(s, u, b) && t < |s.threads| && t != u
    ensures |Next(s, u, b).threads| == |s.threads| && Left(s.threads[t], Next(s, u, b).threads[t])
  {
    hide Inv, StepCall, BeginUnlock;
    if b == Step {
      StepAhead(s, u);
    } else if b == Unlock {
      UnlockAhead(s, u);
    }
  }

  lemma BusyLeft(kind: Kind, th: Thread, th': Thread, h: int)
    requires Busy(kind, th, h) && Left(th, th') && (kind == Parks ==> th'.pc != Parked(true))
    ensures Busy(kind, th', h)
  {}

  /** From state k0 to state k thread t has not been outside, nor been sent the lock if it counts on that. */
  ghost predicate Stays(run: seq<State>, t: nat, kind: Kind, k0: nat, k: nat) {
    && k0 <= k < |run|
    && (forall x :: k0 <= x < k ==> t < |run[x].threads| && run[x].threads[t].pc != Idle)
    && (kind == Parks ==> forall x :: k0 <= x <= k ==> t < |run[x].threads| && run[x].threads[t].pc != Parked(true))
  }

  /** Along a run a call goes on, or has its answer. */
  lemma {:induction false} GoesOn(n: nat, run: seq<State>, t: nat, kind: Kind, h: int, k0: nat, k: nat)
    requires IsRun(n, run) && Stays(run, t, kind, k0, k)
    requires t < |run[k0].threads| && Busy(kind, run[k0].threads[t], h)
    ensures t < |run[k].threads| && (Busy(kind, run[k].threads[t], h) || Answer(kind, run[k].threads[t], h))
    decreases k
  {
    hide Inv, Busy, Left, Next, Enabled;
    if k > k0 {
      var s, s' := run[k - 1], run[k];
      GoesOn(n, run, t, kind, h, k0, k - 1);
      RunInv(n, run, k - 1);
      assert Follows(s, s');
      var u: nat, b :| Enabled(s, u, b) && s' == Next(s, u, b);
      if u == t {
        OwnAction(s, t, kind, h, b);
      } else {
        OthersLeave(s, u, b, t);
        BusyLeft(kind, s.threads[t], s'.threads[t], h);
      }
    }
  }

  // ---------------------------------------------------------------- theorems

  /** Thread t makes the call after state i and is outside again, for the first time, in state j. */
  ghost predicate Call(run: seq<State>, t: nat, a: Action, i: nat, j: nat) {
    && i < j < |run| && Enabled(run[i], t, a) && run[i + 1] == Next(run[i], t, a)
    && (forall k :: i < k < j ==> t < |run[k].threads| && run[k].threads[t].pc != Idle)
    && t < |run[j].threads| && run[j].threads[t].pc == Idle
  }

  lemma Returns(n: nat, run: seq<State>, t: nat, a: Action, i: nat, j: nat, kind: Kind)
    requires IsRun(n, run) && Call(run, t, a, i, j) && kind != Parks
    requires t < |run[i].threads| && t < |run[i + 1].threads| && Busy(kind, run[i + 1].threads[t], run[i].threads[t].held)
    ensures Answer(kind, run[j].threads[t], run[i].threads[t].held)
  {
    hide IsRun, Next, Enabled;
    assert Stays(run, t, kind, i + 1, j);
    GoesOn(n, run, t, kind, run[i].threads[t].held, i + 1, j);
  }

  /** In every run: when lock() returns the caller holds exactly one acquisition more, as the owner. */
  lemma LockTakes(n: nat, run: seq<State>, t: nat, i: nat, j: nat)
    requires IsRun(n, run) && Call(run, t, Lock, i, j)
    ensures t < |run[i].threads| && run[j].threads[t].held == run[i].threads[t].held + 1
    ensures run[j].owner == Some(t) && run[j].depth == run[j].threads[t].held
  {
    Returns(n, run, t, Lock, i, j, Locks);
    MutualExclusion(n, run, j, t, t);
  }

  /** When unlock() returns the caller holds exactly one acquisition less. */
  lemma UnlockGivesBack(n: nat, run: seq<State>, t: nat, i: nat, j: nat)
    requires IsRun(n, run) && Call(run, t, Unlock, i, j)
    ensures t < |run[i].threads| && run[j].threads[t].held == run[i].threads[t].held - 1
    ensures run[j].threads[t].held == 0 ==> run[j].owner != Some(t)
  {
    hide IsRun;
    if run[i + 1].threads[t].pc != Idle {
      Returns(n, run, t, Unlock, i, j, Unlocks);
    }
    HoldsNothing(n, run, j, t);
  }

  lemma HoldsNothing(n: nat, run: seq<State>, i: nat, t: nat)
    requires IsRun(n, run) && i < |run| && t < |run[i].threads|
    ensures run[i].threads[t].held == 0 ==> run[i].owner != Some(t)
  {
    RunInv(n, run, i);
  }

  /** try_lock() takes one acquisition or none, and one for certain if the mutex was free or the caller's. */
  lemma TryLockAnswers(n: nat, run: seq<State>, t: nat, i: nat, j: nat)
    requires IsRun(n, run) && Call(run, t, TryLock, i, j)
    ensures t < |run[i].threads| && var h, h' := run[i].threads[t].held, run[j].threads[t].held;
            (h' == h || h' == h + 1) && (run[i].count == 0 || run[i].owner == Some(t) ==> h' == h + 1)
  {
    hide IsRun, Inv;
    RunInv(n, run, i);
    Returns(n, run, t, TryLock, i, j, Tries);
    Views(run[i], t);
    if run[i].count == 0 || run[i].owner == Some(t) {
      Returns(n, run, t, TryLock, i, j, TriesSurely);
    }
  }

  /** send_lock() changes nothing about what its caller holds, and makes its target one that wants the lock. */
  lemma SendLockSends(n: nat, run: seq<State>, t: nat, w: nat, i: nat, j: nat)
    requires IsRun(n, run) && Call(run, t, SendLock(w), i, j)
    ensures t < |run[i].threads| && run[j].threads[t].held == run[i].threads[t].held
    ensures w < |run[i + 1].threads| && run[i + 1].threads[w].pc == Parked(true) && Wants(run[i + 1].threads[w])
  {
    Returns(n, run, t, SendLock(w), i, j, Sends);
  }

  /** A thread that parked comes back with the lock if it was sent the lock meanwhile, and else with nothing. */
  lemma ParkedReceives(n: nat, run: seq<State>, t: nat, i: nat, j: nat)
    requires IsRun(n, run) && Call(run, t, Park, i, j)
    ensures run[j].threads[t].held == if exists k :: i < k < j && run[k].threads[t].pc == Parked(true) then 1 else 0
  {
    hide IsRun;
    if k :| i < k < j && run[k].threads[t].pc == Parked(true) {
      SentReceives(n, run, t, i, j, k);
    } else {
      assert Stays(run, t, Parks, i + 1, j);
      GoesOn(n, run, t, Parks, 0, i + 1, j);
    }
  }

  lemma SentReceives(n: nat, run: seq<State>, t: nat, i: nat, j: nat, k: nat)
    requires IsRun(n, run) && Call(run, t, Park, i, j) && i < k < j && run[k].threads[t].pc == Parked(true)
    ensures run[j].threads[t].held == 1
  {
    hide IsRun, Next, Enabled, Inv;
    RunInv(n, run, k);
    LocalIsOk(run[k], t);
    assert Stays(run, t, Receives, k, j);
    GoesOn(n, run, t, Receives, 0, k, j);
  }

  // ------------------------------------------------------ every call returns

  function KindOf(a: Action): Kind {
    match a
    case Lock => Locks
    case TryLock => Tries
    case Unlock => Unlocks
    case SendLock(_) => Sends
    case _ => Parks
  }

  /** At some point of these moves the thread is back from its call, with its answer. */
  ghost predicate Answered(s: State, ms: seq<Move>, t: nat, kind: Kind, h: int)
    decreases |ms|
  {
    || (t < |s.threads| && Answer(kind, s.threads[t], h))
    || (ms != [] && Enabled(s, ms[0].thread, ms[0].a)
        && Answered(Next(s, ms[0].thread, ms[0].a), ms[1..], t, kind, h))
  }

  lemma {:induction false} AnsweredOrBusy(s: State, ms: seq<Move>, s': State, t: nat, kind: Kind, h: int)
    requires Inv(s) && Drains(s, ms, s') && t < |s.threads| && Busy(kind, s.threads[t], h) && kind != Parks
    ensures Answered(s, ms, t, kind, h) || (t < |s'.threads| && Busy(kind, s'.threads[t], h))
    decreases |ms|
  {
    hide Inv, Next, Enabled, Busy, Answer, Left;
    if ms != [] {
      var u, b := ms[0].thread, ms[0].a;
      var s1 := Next(s, u, b);
      NextInv(s, u, b);
      if u == t {
        OwnAction(s, t, kind, h, b);
      } else {
        OthersLeave(s, u, b, t);
        BusyLeft(kind, s.threads[t], s1.threads[t], h);
      }
      if Busy(kind, s1.threads[t], h) {
        AnsweredOrBusy(s1, ms[1..], s', t, kind, h);
      }
    }
  }

  /** A call goes on by itself or waits for the lock. */
  lemma BusyMoves(th: Thread, kind: Kind, h: int)
    requires Busy(kind, th, h) && kind != Parks
    ensures CanStep(th) || Wants(th)
  {}

  lemma NobodyBusy(s: State, t: nat, kind: Kind, h: int)
    requires Inv(s) && Still(s) && t < |s.threads| && kind != Parks
    ensures !Busy(kind, s.threads[t], h)
  {
    hide Inv, Wants, Still, Busy;
    if Busy(kind, s.threads[t], h) {
      BusyMoves(s.threads[t], kind, h);
      NobodyWants(s, t);
      NotStill(s, t, Step);
    }
  }

  /**
    From every state of every run, in whatever order the calls in progress and
    the unlock() calls of holders are taken: a call made there returns, and with
    its answer, before none of these is left.
   */
  lemma EveryCallReturns(n: nat, run: seq<State>, i: nat, t: nat, a: Action, ms: seq<Move>, s': State)
    requires IsRun(n, run) && i < |run| && Enabled(run[i], t, a) && (a.Lock? || a.TryLock? || a.Unlock? || a.SendLock?)
    requires Drains(Next(run[i], t, a), ms, s')
    ensures |ms| <= Work(Next(run[i], t, a))
    ensures Still(s') ==> Answered(Next(run[i], t, a), ms, t, KindOf(a), run[i].threads[t].held)
  {
    hide Inv, Work, Answered, IsRun;
    var s, h := run[i], run[i].threads[t].held;
    RunInv(n, run, i);
    NextInv(s, t, a);
    var s1 := Next(s, t, a);
    DrainsEnd(s1, ms, s');
    if Still(s') {
      AfterCall(s, t, a);
      if Busy(KindOf(a), s1.threads[t], h) {
        AnsweredOrBusy(s1, ms, s', t, KindOf(a), h);
        NobodyBusy(s', t, KindOf(a), h);
      } else {
        AnsweredAtOnce(s1, ms, t, KindOf(a), h);
      }
    }
  }

  lemma AfterCall(s: State, t: nat, a: Action)
    requires Enabled(s, t, a) && (a.Lock? || a.TryLock? || a.Unlock? || a.SendLock?)
    ensures var s', kind, h := Next(s, t, a), KindOf(a), s.threads[t].held;
            |s'.threads| == |s.threads| && (Busy(kind, s'.threads[t], h) || Answer(kind, s'.threads[t], h))
  {}

  lemma AnsweredAtOnce(s: State, ms: seq<Move>, t: nat, kind: Kind, h: int)
    requires t < |s.threads| && Answer(kind, s.threads[t], h)
    ensures Answered(s, ms, t, kind, h)
  {}

  // ---------------------------------------------------------- try_lock() alone

  /** Up to k steps of thread t and of nobody else. */
  function Alone(s: State, t: nat, k: nat): State
    decreases k
  {
    if k == 0 || !Enabled(s, t, Step) then s else Alone(Next(s, t, Step), t, k - 1)
  }

  /** One step more, while the call goes on. */
  lemma AloneStep(s: State, t: nat, k: nat)
    requires Enabled(s, t, Step) && k > 0
    ensures Alone(s, t, k) == Alone(StepCall(s, t), t, k - 1)
  {}

  lemma AloneBack(s: State, t: nat, k: nat)
    requires t < |s.threads| && s.threads[t].pc == Idle
    ensures Alone(s, t, k) == s
  {}

  /** What a successful try_lock() comes to. */
  predicate Taken(s: State, s': State, t: nat) {
    && t < |s.threads| == |s'.threads| && s'.threads[t].pc == Idle && s'.threads[t].held == s.threads[t].held + 1
    && s'.owner == Some(t) && s'.handoff == 0 && s'.queue == s.queue
    && s'.count == (if s.owner == Some(t) then s.count else s.count + 1)
  }

  lemma TryFree(s: State, t: nat)
    requires View(s, t) && s.threads[t].pc == Idle && s.count == 0
    ensures Taken(s, Alone(BeginTryLock(s, t), t, 5), t)
  {
    hide Alone;
    var s1 := BeginTryLock(s, t);
    AloneStep(s1, t, 5);
    AloneBack(StepCall(s1, t), t, 4);
  }

  lemma TryOwned(s: State, t: nat)
    requires View(s, t) && s.threads[t].pc == Idle && s.owner == Some(t)
    ensures Taken(s, Alone(BeginTryLock(s, t), t, 5), t)
  {
    hide Alone;
    var s1 := BeginTryLock(s, t);
    AloneStep(s1, t, 5);
    AloneBack(StepCall(s1, t), t, 4);
  }

  lemma TryHandedOff(s: State, t: nat)
    requires View(s, t) && s.threads[t].pc == Idle && s.handoff != 0
    ensures Taken(s, Alone(BeginTryLock(s, t), t, 5), t)
  {
    hide Alone, AwayOk, CargoOk;
    var s1 := BeginTryLock(s, t);
    AloneStep(s1, t, 5);
    var s2 := StepCall(s1, t);
    AloneStep(s2, t, 4);
    var s3 := StepCall(s2, t);
    AloneStep(s3, t, 3);
    var s4 := StepCall(s3, t);
    AloneStep(s4, t, 2);
    var s5 := StepCall(s4, t);
    AloneStep(s5, t, 1);
    AloneBack(StepCall(s5, t), t, 0);
  }

  lemma TryRefused(s: State, t: nat)
    requires View(s, t) && s.threads[t].pc == Idle && s.count != 0 && s.owner != Some(t) && s.handoff == 0
    ensures Alone(BeginTryLock(s, t), t, 5) == s
  {
    hide Alone, AwayOk, CargoOk;
    var s1 := BeginTryLock(s, t);
    AloneStep(s1, t, 5);
    var s2 := StepCall(s1, t);
    AloneStep(s2, t, 4);
    assert StepCall(s2, t).threads == s.threads;
    AloneBack(s, t, 3);
  }

  /**
    With no step of another thread in between, try_lock() takes the mutex
    exactly if it is free, the caller's or handed off; else nothing has changed.
   */
  lemma TryLockAlone(n: nat, run: seq<State>, i: nat, t: nat)
    requires IsRun(n, run) && i < |run| && Enabled(run[i], t, TryLock)
    ensures var s := run[i];
            var s' := Alone(Next(s, t, TryLock), t, 5);
            if s.count == 0 || s.owner == Some(t) || s.handoff != 0 then Taken(s, s', t) else s' == s
  {
    hide Inv, IsRun, Alone, View, BeginTryLock, Taken;
    var s := run[i];
    RunInv(n, run, i);
    Views(s, t);
    if s.count == 0 { TryFree(s, t); }
    else if s.owner == Some(t) { TryOwned(s, t); }
    else if s.handoff != 0 { TryHandedOff(s, t); }
    else { TryRefused(s, t); }
  }

  // ------------------------------------------------------- nobody overtakes

  ghost predicate Before(q: seq<nat>, x: nat, y: nat) {
    exists p, r :: 0 <= p < r < |q| && q[p] == x && q[r] == y
  }

  lemma StepQueue(s: State, t: nat)
    requires t < |s.threads|
    ensures var q, q' := s.queue, StepCall(s, t).queue;
            q' == q || (q != [] && q' == q[1..]) || exists o :: q' == q + [o]
  {}

  lemma QueueChanges(s: State, t: nat, a: Action)
    requires Enabled(s, t, a)
    ensures var q, q' := s.queue, Next(s, t, a).queue;
            q' == q || (q != [] && q' == q[1..]) || exists o :: q' == q + [o]
  {
    hide StepCall;
    StepQueue(s, t);
  }

  lemma StaysBefore(q: seq<nat>, q': seq<nat>, x: nat, y: nat)
    requires Before(q, x, y) && x in q' && (forall i, j :: 0 <= i < j < |q| ==> q[i] != q[j])
    requires q' == q || (q != [] && q' == q[1..]) || exists o :: q' == q + [o]
    ensures Before(q', x, y)
  {
    var p, r :| 0 <= p < r < |q| && q[p] == x && q[r] == y;
    if q != [] && q' == q[1..] {
      assert p > 0;
      assert q'[p - 1] == x && q'[r - 1] == y;
    } else {
      assert q'[p] == x && q'[r] == y;
    }
  }

  /** As long as a waiter stays queued, none that was queued behind it leaves the queue or gets ahead of it. */
  lemma {:induction false} NobodyOvertakes(n: nat, run: seq<State>, i: nat, j: nat, x: nat, y: nat)
    requires IsRun(n, run) && i <= j < |run| && Before(run[i].queue, x, y)
    requires forall k :: i <= k <= j ==> x in run[k].queue
    ensures Before(run[j].queue, x, y)
    decreases j
  {
    hide Before, Inv, Next, Enabled;
    if i < j {
      NobodyOvertakes(n, run, i, j - 1, x, y);
      RunInv(n, run, j - 1);
      assert Follows(run[j - 1], run[j]);
      var t: nat, a :| Enabled(run[j - 1], t, a) && run[j] == Next(run[j - 1], t, a);
      QueueChanges(run[j - 1], t, a);
      assert QueueOk(run[j - 1]) by { InvQueue(run[j - 1]); }
      StaysBefore(run[j - 1].queue, run[j].queue, x, y);
    }
  }

  lemma InvQueue(s: State)
    requires Inv(s)
    ensures QueueOk(s)
  {}

  /** When nobody holds the mutex and no call is in progress, it is as new. */
  lemma FreeWhenAllOut(n: nat, run: seq<State>, i: nat)
    requires IsRun(n, run) && i < |run|
    requires forall t :: 0 <= t < |run[i].threads| ==> run[i].threads[t].held == 0 && run[i].threads[t].pc in {Idle, Parked(false)}
    ensures run[i].count == 0 && run[i].owner == None && run[i].queue == [] && run[i].handoff == 0
  {
    hide Inv, IsRun;
    RunInv(n, run, i);
    NothingLeft(run[i]);
    if run[i].queue != [] {
      QueuedIsInside(run[i]);
    }
  }

  lemma NothingLeft(s: State)
    requires Inv(s) && forall t :: 0 <= t < |s.threads| ==> s.threads[t].held == 0 && !Attempting(s.threads[t].pc)
    ensures s.count == 0 && s.owner == None && s.handoff == 0
  {
    SumZero(s.threads, Weight);
  }

  lemma QueuedIsInside(s: State)
    requires Inv(s) && s.queue != []
    ensures s.queue[0] < |s.threads| && s.threads[s.queue[0]].pc !in {Idle, Parked(false)}
  {
    assert LocalOk(s.threads[s.queue[0]]);
  }

  // ------------------------------------------------------------ who may call

  lemma SameThreads(s: State, t: nat, a: Action)
    requires Inv(s) && Enabled(s, t, a)
    ensures |Next(s, t, a).threads| == |s.threads|
  {
    hide Inv, StepCall, BeginUnlock;
    if a == Step {
      StepAhead(s, t);
    } else if a == Unlock {
      UnlockAhead(s, t);
    }
  }

  lemma {:induction false} ThreadsStay(n: nat, run: seq<State>, i: nat)
    requires IsRun(n, run) && i < |run|
    ensures |run[i].threads| == n
  {
    hide Inv, Next, Enabled;
    if i > 0 {
      ThreadsStay(n, run, i - 1);
      RunInv(n, run, i - 1);
      assert Follows(run[i - 1], run[i]);
      var t: nat, a :| Enabled(run[i - 1], t, a) && run[i] == Next(run[i - 1], t, a);
      SameThreads(run[i - 1], t, a);
    }
  }

  /** In every state of every run, each of the n threads that is outside may lock, and unlock what it holds. */
  lemma MayCall(n: nat, run: seq<State>, i: nat, t: nat, w: nat)
    requires IsRun(n, run) && i < |run| && t < n && w < n
    ensures |run[i].threads| == n
    ensures run[i].threads[t].pc == Idle ==>
              && Enabled(run[i], t, Lock) && Enabled(run[i], t, TryLock)
              && (Enabled(run[i], t, Unlock) <==> run[i].threads[t].held > 0)
              && (Enabled(run[i], t, Park) <==> run[i].threads[t].held == 0)
              && (w != t && run[i].threads[w].pc == Parked(false) ==> Enabled(run[i], t, SendLock(w)))
  {
    ThreadsStay(n, run, i);
  }
}
