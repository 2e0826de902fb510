/**
  No wake-up of the mutex is ever lost: as long as some thread wants the lock,
  the calls already in progress can bring the lock to a holder on their own.
 */
module LfMutexProgress {
  import opened LfMutex
  import opened LfMutexProof
  import opened Tally

  /** Steps of calls in progress, taken in turn by the threads of `ts`. */
  predicate Leads(s: State, ts: seq<nat>, s': State)
    decreases |ts|
  {
    if ts == [] then s' == s
    else ts[0] < |s.threads| && CanStep(s.threads[ts[0]]) && Leads(StepCall(s, ts[0]), ts[1..], s')
  }

  /** The number of steps that separate the driving thread from a holder, at most. */
  function Rank(s: State, k: nat): nat
    requires k < |s.threads|
  {
    var th := s.threads[k];
    if th.held > 0 then 0
    else if th.record == Woken then (if th.pc == LockWait || th.pc == Parked(true) then 2 else if th.pc.CheckEmpty? then 4 else 3)
    else match th.pc
      case SetOwner => 1
      case TryCount => 2
      case Wake(_, _) => 5
      case Pop(_) => if s.queue != [] then 6 else 17
      case TakeHandoff(_, _) => 10
      case CheckEmpty(_, _) => if s.queue != [] then 11 else 15
      case LoadHandoff(_) => 12
      case LockPush => 13
      case SendPush(_) => 13
      case LockCheckOwner => 14
      case Publish(_) => 16
      case _ => 18
  }

  /** Thread `k` is the one whose steps bring the lock to a holder. */
  predicate Drives(s: State, k: nat) {
    && k < |s.threads|
    && if s.handoff == 0 then s.token == At(k) && s.threads[k].pc != UnlockCount
       else WillFind(s.threads[k].pc, s.handoff, s.queue != [])
  }

  /** One step of the driver, or a change of driver, comes closer. */
  lemma DriverStep(s: State, k: nat) returns (k': nat)
    requires View(s, k) && Drives(s, k) && s.threads[k].held == 0
    requires s.threads[k].pc.Wake? ==> View(s, s.threads[k].pc.other)
    requires s.handoff != 0 && s.threads[k].pc.CheckEmpty? ==> s.queue != []
    ensures CanStep(s.threads[k])
    ensures Drives(StepCall(s, k), k') && Rank(StepCall(s, k), k') < Rank(s, k)
  {
    k' := if s.threads[k].pc.Wake? then s.threads[k].pc.other else k;
    if s.handoff == 0 {
      TokenDriverStep(s, k);
    } else {
      HandoffDriverStep(s, k);
    }
  }

  lemma TokenDriverStep(s: State, k: nat)
    requires View(s, k) && s.token == At(k) && s.threads[k].pc != UnlockCount && s.threads[k].held == 0
    requires s.threads[k].pc.Wake? ==> View(s, s.threads[k].pc.other)
    ensures CanStep(s.threads[k])
    ensures var k' := if s.threads[k].pc.Wake? then s.threads[k].pc.other else k;
            Drives(StepCall(s, k), k') && Rank(StepCall(s, k), k') < Rank(s, k)
  {
    if s.threads[k].record == Woken {
      assert s.threads[k].pc == LockWait || s.threads[k].pc == Parked(true) || InHandoffCode(s.threads[k].pc);
    }
  }

  lemma HandoffDriverStep(s: State, k: nat)
    requires View(s, k) && s.handoff != 0 && s.threads[k].held == 0
    requires WillFind(s.threads[k].pc, s.handoff, s.queue != [])
    requires s.threads[k].pc.CheckEmpty? ==> s.queue != []
    ensures CanStep(s.threads[k]) && !s.threads[k].pc.Wake?
    ensures Drives(StepCall(s, k), k) && Rank(StepCall(s, k), k) < Rank(s, k)
  {
  }

  /** Somebody who can carry on with an offered hand-off, even on an empty queue. */
  lemma PickDriver(s: State, k: nat) returns (d: nat)
    requires Inv(s) && Drives(s, k)
    ensures Drives(s, d) && Rank(s, d) <= Rank(s, k)
    ensures s.handoff != 0 && s.threads[d].pc.CheckEmpty? ==> s.queue != []
  {
    if s.handoff != 0 && s.threads[k].pc.CheckEmpty? && s.queue == [] {
      d := SomebodyOnTheWay(s);
      Views(s, d);
      Views(s, k);
    } else {
      d := k;
    }
  }

  lemma {:induction false} Drive(s: State, k: nat) returns (ts: seq<nat>, s': State, h: nat)
    requires Inv(s) && Drives(s, k)
    ensures Leads(s, ts, s') && h < |s'.threads| && s'.threads[h].held > 0
    decreases Rank(s, k)
  {
    hide Inv, View, StepCall, Rank, CanStep, WillFind;
    if s.threads[k].held > 0 {
      return [], s, k;
    }
    var d := PickDriver(s, k);
    if s.threads[d].held > 0 {
      return [], s, d;
    }
    Views(s, d);
    if s.threads[d].pc.Wake? {
      CargoInRange(s, d);
      Views(s, s.threads[d].pc.other);
    }
    var k' := DriverStep(s, d);
    StepCallInv(s, d);
    ts, s', h := Drive(StepCall(s, d), k');
    assert ([d] + ts)[1..] == ts;
    ts := [d] + ts;
  }

  /** The thread is inside lock(), or was sent the lock by send_lock(). */
  predicate Wants(th: Thread) {
    Attempting(th.pc) && th.pc != UnlockCount
  }

  lemma DriverExists(s: State, w: nat) returns (k: nat)
    requires Inv(s) && w < |s.threads| && Wants(s.threads[w])
    ensures k < |s.threads|
    ensures Drives(s, k) || (s.token == At(k) && s.threads[k].pc == UnlockCount && s.count >= 2)
  {
    SumAtLeast(s.threads, Weight, w);
    if s.handoff != 0 {
      k :| 0 <= k < |s.threads| && WillFind(s.threads[k].pc, s.handoff, s.queue != []);
    } else {
      k := s.token.thread;
      if s.threads[k].pc == UnlockCount {
        SumAtLeastTwo(s.threads, Weight, if w < k then w else k, if w < k then k else w);
      }
    }
  }

  /**
    In every state of every run in which a thread wants the lock, the calls in
    progress alone lead to a state in which some thread holds it.
   */
  lemma NoLostWakeup(n: nat, run: seq<State>, i: nat, w: nat) returns (ts: seq<nat>, s': State, h: nat)
    requires IsRun(n, run) && i < |run| && w < |run[i].threads| && Wants(run[i].threads[w])
    ensures Leads(run[i], ts, s') && h < |s'.threads| && s'.threads[h].held > 0
  {
    var s := run[i];
    RunInv(n, run, i);
    var k := DriverExists(s, w);
    if Drives(s, k) {
      ts, s', h := Drive(s, k);
    } else {
      StepCallInv(s, k);
      ts, s', h := Drive(StepCall(s, k), k);
      assert ([k] + ts)[1..] == ts;
      ts := [k] + ts;
    }
  }

  /** No state has every locker asleep and nobody about to wake one. */
  lemma SomebodyAwake(n: nat, run: seq<State>, i: nat, w: nat)
    requires IsRun(n, run) && i < |run| && w < |run[i].threads| && Wants(run[i].threads[w])
    ensures exists k :: 0 <= k < |run[i].threads| && (run[i].threads[k].held > 0 || CanStep(run[i].threads[k]))
  {
    var ts, s', h := NoLostWakeup(n, run, i, w);
    var k := if ts == [] then h else ts[0];
    assert run[i].threads[k].held > 0 || CanStep(run[i].threads[k]);
  }

  // ------------------------------------------------- every locker is served

  datatype Move = Move(thread: nat, a: Action)

  /** No new call but unlock(). */
  predicate Draining(a: Action) {
    a == Step || a == MissQueue || a == Unlock
  }

  predicate Drains(s: State, ms: seq<Move>, s': State)
    decreases |ms|
  {
    if ms == [] then s' == s
    else
      && Draining(ms[0].a) && Enabled(s, ms[0].thread, ms[0].a)
      && Drains(Next(s, ms[0].thread, ms[0].a), ms[1..], s')
  }

  /** Steps that a call may still take, and those of the unlock() that must follow it. */
  function PcWork(pc: Pc): nat {
    match pc
    case Idle => 0
    case LockCheckOwner => 100
    case LockRecurse => 99
    case LockPush => 98
    case LockWait => 92
    case TryCheckOwner => 123
    case TryCount => 120
    case SendPush(_) => 20
    case UnlockCount => 20
    case Publish(_) => 18
    case LoadHandoff(role) => if role == Locker then 97 else if role == Trier then 122 else 19
    case CheckEmpty(_, role) => if role == Locker then 96 else if role == Sender then 18 else 17
    case TakeHandoff(_, role) => if role == Locker then 95 else if role == Trier then 121 else if role == Sender then 17 else 16
    case Pop(role) =>
      if role == Locker then 94 else if role.Unlocker? && role.round <= 1 then 19 else if role.Unlocker? then 15 else 16
    case Wake(_, role) => if role == Locker then 93 else 14
    case SetOwner => 91
    case Parked(sent) => if sent then 92 else 0
  }

  function ThreadWork(th: Thread): nat {
    PcWork(th.pc) + 30 * th.held
  }

  function Work(s: State): nat {
    Sum(s.threads, ThreadWork)
  }

  /** Other threads are where they were, with what they held. */
  ghost predicate OthersStay(s: State, s': State, t: nat) {
    && |s'.threads| == |s.threads| && t < |s.threads|
    && forall k :: 0 <= k < |s.threads| && k != t ==> s'.threads[k].pc == s.threads[k].pc && s'.threads[k].held == s.threads[k].held
  }

  /** What every move of a thread does to it. */
  predicate Ahead(th: Thread, th': Thread) {
    && ThreadWork(th') < ThreadWork(th)
    && (Wants(th) ==> Wants(th') || th'.held > 0)
  }

  lemma OwnerAhead(s: State, t: nat)
    requires t < |s.threads| && LocalOk(s.threads[t]) && CanStep(s.threads[t])
    requires var pc := s.threads[t].pc; pc == LockCheckOwner || pc == LockRecurse || pc == TryCheckOwner || pc == TryCount || pc == SetOwner || pc == UnlockCount
    ensures OthersStay(s, StepCall(s, t), t) && Ahead(s.threads[t], StepCall(s, t).threads[t])
  {}

  lemma SleeperAhead(s: State, t: nat)
    requires t < |s.threads| && LocalOk(s.threads[t]) && CanStep(s.threads[t])
    requires var pc := s.threads[t].pc; pc == LockWait || pc.Parked? || pc.Publish?
    ensures OthersStay(s, StepCall(s, t), t) && Ahead(s.threads[t], StepCall(s, t).threads[t])
  {}

  lemma PushAhead(s: State, t: nat)
    requires t < |s.threads| && LocalOk(s.threads[t]) && CanStep(s.threads[t])
    requires var pc := s.threads[t].pc; pc == LockPush || pc.SendPush?
    ensures OthersStay(s, StepCall(s, t), t) && Ahead(s.threads[t], StepCall(s, t).threads[t])
  {}

  lemma HandoffAhead(s: State, t: nat)
    requires t < |s.threads| && LocalOk(s.threads[t]) && CanStep(s.threads[t])
    requires var pc := s.threads[t].pc; pc.LoadHandoff? || pc.CheckEmpty? || pc.TakeHandoff?
    ensures OthersStay(s, StepCall(s, t), t) && Ahead(s.threads[t], StepCall(s, t).threads[t])
  {}

  lemma PopAhead(s: State, t: nat)
    requires View(s, t) && s.threads[t].pc.Pop?
    ensures OthersStay(s, StepCall(s, t), t) && Ahead(s.threads[t], StepCall(s, t).threads[t])
  {}

  lemma WakeAhead(s: State, t: nat)
    requires t < |s.threads| && LocalOk(s.threads[t]) && CanStep(s.threads[t])
    requires var pc := s.threads[t].pc; pc.Wake?
    ensures OthersStay(s, StepCall(s, t), t) && Ahead(s.threads[t], StepCall(s, t).threads[t])
  {}

  lemma StepAhead(s: State, t: nat)
    requires Inv(s) && t < |s.threads| && CanStep(s.threads[t])
    ensures OthersStay(s, StepCall(s, t), t) && Ahead(s.threads[t], StepCall(s, t).threads[t])
  {
    hide StepCall, Inv, View, LocalOk, OthersStay, Ahead;
    LocalIsOk(s, t);
    Views(s, t);
    var pc := s.threads[t].pc;
    if pc == LockWait || pc.Parked? || pc.Publish? { SleeperAhead(s, t); }
    else if pc == LockPush || pc.SendPush? { PushAhead(s, t); }
    else if pc.LoadHandoff? || pc.CheckEmpty? || pc.TakeHandoff? { HandoffAhead(s, t); }
    else if pc.Pop? { PopAhead(s, t); }
    else if pc.Wake? { WakeAhead(s, t); }
    else { OwnerAhead(s, t); }
  }

  lemma LocalIsOk(s: State, t: nat)
    requires Inv(s) && t < |s.threads|
    ensures LocalOk(s.threads[t])
  {}

  lemma UnlockAhead(s: State, t: nat)
    requires Enabled(s, t, Unlock)
    ensures OthersStay(s, BeginUnlock(s, t), t) && Ahead(s.threads[t], BeginUnlock(s, t).threads[t])
  {}

  lemma MissAhead(s: State, t: nat)
    requires t < |s.threads| && s.threads[t].pc.CheckEmpty?
    ensures var s' := Goto(s, t, GiveUp(s.threads[t].pc.role)); OthersStay(s, s', t) && Ahead(s.threads[t], s'.threads[t])
  {}

  lemma {:induction false} OthersSameWork(a: seq<Thread>, b: seq<Thread>)
    requires |a| == |b| && forall k :: 0 <= k < |a| ==> b[k].pc == a[k].pc && b[k].held == a[k].held
    ensures Sum(b, ThreadWork) == Sum(a, ThreadWork)
  {
    if a != [] {
      assert forall k :: 0 <= k < |a[1..]| ==> b[1..][k] == b[k + 1] && a[1..][k] == a[k + 1];
      OthersSameWork(a[1..], b[1..]);
    }
  }

  lemma LessWork(s: State, s': State, t: nat)
    requires OthersStay(s, s', t) && Ahead(s.threads[t], s'.threads[t])
    ensures Work(s') < Work(s)
  {
    hide ThreadWork;
    SumUpdate(s.threads, ThreadWork, t, s'.threads[t]);
    OthersSameWork(s.threads[t := s'.threads[t]], s'.threads);
  }

  lemma MoveAhead(s: State, t: nat, a: Action)
    requires Inv(s) && Draining(a) && Enabled(s, t, a)
    ensures var s' := Next(s, t, a); Inv(s') && OthersStay(s, s', t) && Ahead(s.threads[t], s'.threads[t]) && Work(s') < Work(s)
  {
    hide Inv, StepCall, BeginUnlock, OthersStay, Ahead, Work;
    NextInv(s, t, a);
    if a == Step { StepAhead(s, t); } else if a == Unlock { UnlockAhead(s, t); } else { MissAhead(s, t); }
    LessWork(s, Next(s, t, a), t);
  }

  /** There are only so many steps until everybody sleeps or is outside with nothing held. */
  lemma {:induction false} DrainsEnd(s: State, ms: seq<Move>, s': State)
    requires Inv(s) && Drains(s, ms, s')
    ensures |ms| <= Work(s) && Inv(s') && |s'.threads| == |s.threads|
    decreases |ms|
  {
    hide Inv, Next, Enabled, Work;
    if ms != [] {
      MoveAhead(s, ms[0].thread, ms[0].a);
      DrainsEnd(Next(s, ms[0].thread, ms[0].a), ms[1..], s');
    }
  }

  /** No call goes on and nobody can call unlock(). */
  ghost predicate Still(s: State) {
    forall t: nat, a: Action :: Draining(a) ==> !Enabled(s, t, a)
  }

  /** Thread w holds the lock at some point of these moves. */
  ghost predicate Served(s: State, ms: seq<Move>, w: nat)
    decreases |ms|
  {
    || (w < |s.threads| && s.threads[w].held > 0)
    || (ms != [] && Enabled(s, ms[0].thread, ms[0].a) && Served(Next(s, ms[0].thread, ms[0].a), ms[1..], w))
  }

  /** Who wants the lock goes on wanting it until it holds it. */
  lemma {:induction false} ServedOrWants(s: State, ms: seq<Move>, s': State, w: nat)
    requires Inv(s) && Drains(s, ms, s') && w < |s.threads| && Wants(s.threads[w])
    ensures Served(s, ms, w) || (w < |s'.threads| && Wants(s'.threads[w]))
    decreases |ms|
  {
    hide Inv, Next, Enabled, Work, Wants;
    if ms != [] {
      var s1 := Next(s, ms[0].thread, ms[0].a);
      MoveAhead(s, ms[0].thread, ms[0].a);
      StillWants(s, s1, ms[0].thread, w);
      if s1.threads[w].held > 0 {
        HeldIsServed(s1, ms[1..], w);
      } else {
        ServedOrWants(s1, ms[1..], s', w);
      }
    }
  }

  lemma HeldIsServed(s: State, ms: seq<Move>, w: nat)
    requires w < |s.threads| && s.threads[w].held > 0
    ensures Served(s, ms, w)
  {}

  lemma StillWants(s: State, s': State, t: nat, w: nat)
    requires OthersStay(s, s', t) && Ahead(s.threads[t], s'.threads[t]) && w < |s.threads| && Wants(s.threads[w])
    ensures Wants(s'.threads[w]) || s'.threads[w].held > 0
  {}

  /** In a state without a move nobody wants the lock. */
  lemma NobodyWants(s: State, w: nat)
    requires Inv(s) && Still(s) && w < |s.threads|
    ensures !Wants(s.threads[w])
  {
    hide Inv, Wants, Still;
    if Wants(s.threads[w]) {
      var k := SomebodyMoves(s, w);
      if !CanStep(s.threads[k]) {
        HolderMoves(s, k);
      }
      NotStill(s, k, if CanStep(s.threads[k]) then Step else Unlock);
    }
  }

  lemma NotStill(s: State, k: nat, a: Action)
    requires Draining(a) && Enabled(s, k, a)
    ensures !Still(s)
  {}

  lemma HolderMoves(s: State, k: nat)
    requires Inv(s) && k < |s.threads| && s.threads[k].held > 0
    ensures CanStep(s.threads[k]) || s.threads[k].pc == Idle
  {
    LocalIsOk(s, k);
  }

  lemma SomebodyMoves(s: State, w: nat) returns (k: nat)
    requires Inv(s) && w < |s.threads| && Wants(s.threads[w])
    ensures k < |s.threads| && (s.threads[k].held > 0 || CanStep(s.threads[k]))
  {
    hide Inv, StepCall;
    var d := DriverExists(s, w);
    if Drives(s, d) {
      var ts, s', h := Drive(s, d);
      k := if ts == [] then h else ts[0];
    } else {
      k := d;
    }
  }

  /**
    In every state of every run, in whatever order the calls in progress and
    the unlock() calls of holders are taken from there: their number is bounded,
    and when none is left every thread that wanted the lock has held it.
   */
  lemma EveryLockerIsServed(n: nat, run: seq<State>, i: nat, w: nat, ms: seq<Move>, s': State)
    requires IsRun(n, run) && i < |run| && w < |run[i].threads| && Wants(run[i].threads[w]) && Drains(run[i], ms, s')
    ensures |ms| <= Work(run[i])
    ensures Still(s') ==> Served(run[i], ms, w)
  {
    hide Inv, Wants, Work, Served;
    RunInv(n, run, i);
    DrainsEnd(run[i], ms, s');
    ServedOrWants(run[i], ms, s', w);
    if Still(s') {
      NobodyWants(s', w);
    }
  }
}
