/**
  The lock-free recursive mutex of core/lfmutex.cc as a step system.

  Any number of threads run lock(), try_lock(), unlock() and send_lock() /
  receive_lock() on one mutex.  Every atomic operation of the source is one
  step; plain accesses to `depth` and `sequence`, which only the thread that
  owns them touches, are merged with the neighbouring atomic operation.
 */
module LfMutex {

  datatype Option<T> = None | Some(value: T)

  /** Which call is at work; `round` counts the iterations of unlock()'s loop. */
  datatype Role = Locker | Trier | Sender | Unlocker(round: nat)

  /** Where a thread stands inside the mutex code. */
  datatype Pc =
    | Idle                              // outside, holding the mutex or not
    | LockCheckOwner                    // lock(): count was not zero, am I the owner?
    | LockRecurse                       // lock(): I am, undo the count, bump the depth
    | LockPush                          // lock(): about to push my wait record
    | LockWait                          // lock(): asleep until my record is woken
    | TryCheckOwner                     // try_lock(): count was not zero
    | TryCount                          // try_lock(): accepted a hand-off, count myself
    | SendPush(target: nat)             // send_lock(): about to push the target's record
    | UnlockCount                       // unlock(): owner cleared, about to drop the count
    | Publish(round: nat)               // unlock(): found nobody, about to offer a hand-off
    | LoadHandoff(role: Role)           // the Responsibility Hand-Off protocol
    | CheckEmpty(number: nat, role: Role)
    | TakeHandoff(number: nat, role: Role)
    | Pop(role: Role)                   // responsible for waking somebody
    | Wake(other: nat, role: Role)      // popped the record of thread `other`
    | SetOwner                          // the lock is mine: store owner and depth
    | Parked(sent: bool)                // asleep on a record that a condvar holds

  /**
    Where a thread's wait record is.  Only `Woken` exists in the source (the
    record's thread pointer is null); the other values are bookkeeping that
    no step ever tests.
   */
  datatype Record = Unused | Sent(carrier: nat) | Queued | Popped(carrier: nat) | Woken

  /** `held` counts the client's unmatched successful acquisitions. */
  datatype Thread = Thread(pc: Pc, held: nat, record: Record)

  /** Where the right to pass the lock on rests.  Bookkeeping: no step looks at it. */
  datatype Token = Free | InHandoff | At(thread: nat)

  datatype State = State(
    count: int,
    owner: Option<nat>,
    depth: nat,
    queue: seq<nat>,                    // wait records, named by their threads
    handoff: nat,
    sequence: nat,
    threads: seq<Thread>,
    token: Token,
    asserts: bool                       // every assert() executed so far held
  )

  function Init(n: nat): State {
    State(0, None, 0, [], 0, 0, seq(n, _ => Thread(Idle, 0, Unused)), Free, true)
  }

  function Goto(s: State, t: nat, pc: Pc): State
    requires t < |s.threads|
  {
    s.(threads := s.threads[t := s.threads[t].(pc := pc)])
  }

  function SetRecord(s: State, t: nat, r: Record): State
    requires t < |s.threads|
  {
    s.(threads := s.threads[t := s.threads[t].(record := r)])
  }

  // ------------------------------------------------------------ client calls

  /** lock(): count.fetch_add(1). */
  function BeginLock(s: State, t: nat): State
    requires t < |s.threads|
  {
    var s' := s.(count := s.count + 1);
    if s.count == 0 then Goto(s', t, SetOwner).(token := At(t)) else Goto(s', t, LockCheckOwner)
  }

  /** try_lock(): compare-and-swap of count from 0 to 1. */
  function BeginTryLock(s: State, t: nat): State
    requires t < |s.threads|
  {
    if s.count == 0 then Goto(s, t, SetOwner).(count := 1, token := At(t)) else Goto(s, t, TryCheckOwner)
  }

  /** unlock(): the two asserts, then the depth, then the owner. */
  function BeginUnlock(s: State, t: nat): State
    requires t < |s.threads| && s.threads[t].held > 0
  {
    var th := s.threads[t];
    var s' := s.(asserts := s.asserts && s.owner == Some(t) && s.depth != 0);
    if s.depth > 1 then
      s'.(depth := s.depth - 1, threads := s.threads[t := th.(held := th.held - 1)])
    else
      s'.(depth := 0, owner := None, threads := s.threads[t := th.(held := th.held - 1, pc := UnlockCount)])
  }

  /** send_lock(): count.fetch_add(1) on behalf of the parked thread `w`. */
  function BeginSendLock(s: State, t: nat, w: nat): State
    requires t < |s.threads| && w < |s.threads| && t != w
  {
    var target := Thread(Parked(true), s.threads[w].held, if s.count == 0 then Popped(t) else Sent(t));
    var caller := s.threads[t].(pc := if s.count == 0 then Wake(w, Sender) else SendPush(w));
    s.(count := s.count + 1, threads := s.threads[w := target][t := caller],
       token := if s.count == 0 then At(t) else s.token)
  }

  // ------------------------------------------------------ one step of a call

  function CheckOwner(s: State, t: nat): State
    requires t < |s.threads|
  {
    Goto(s, t, if s.owner == Some(t) then LockRecurse else LockPush)
  }

  function Recurse(s: State, t: nat): State
    requires t < |s.threads|
  {
    var th := s.threads[t];
    s.(count := s.count - 1, depth := s.depth + 1,
       threads := s.threads[t := th.(pc := Idle, held := th.held + 1)])
  }

  function TryRecurse(s: State, t: nat): State
    requires t < |s.threads|
  {
    var th := s.threads[t];
    if s.owner == Some(t) then
      s.(depth := s.depth + 1, threads := s.threads[t := th.(pc := Idle, held := th.held + 1)])
    else
      Goto(s, t, LoadHandoff(Trier))
  }

  /** waitqueue.push() of the record of thread `w`. */
  function Push(s: State, t: nat, w: nat, role: Role): State
    requires t < |s.threads|
  {
    var s' := Goto(s, t, LoadHandoff(role)).(queue := s.queue + [w]);
    if w < |s.threads| then SetRecord(s', w, Queued) else s'.(asserts := false)
  }

  /** What a call does when it is not the one to wake somebody. */
  function GiveUp(role: Role): Pc {
    if role == Locker then LockWait else Idle
  }

  function ReadHandoff(s: State, t: nat, role: Role): State
    requires t < |s.threads|
  {
    Goto(s, t,
         if s.handoff == 0 then GiveUp(role)
         else if role == Trier then TakeHandoff(s.handoff, role)
         else CheckEmpty(s.handoff, role))
  }

  function LookAtQueue(s: State, t: nat, number: nat, role: Role): State
    requires t < |s.threads|
  {
    Goto(s, t, if s.queue != [] then TakeHandoff(number, role) else GiveUp(role))
  }

  /** compare-and-swap of `handoff` from `number` to 0. */
  function SwapHandoff(s: State, t: nat, number: nat, role: Role): State
    requires t < |s.threads|
  {
    if s.handoff != number then Goto(s, t, GiveUp(role))
    else
      var next := match role
                  case Trier => TryCount
                  case Unlocker(round) => Pop(Unlocker(round + 1))
                  case _ => Pop(role);
      Goto(s, t, next).(handoff := 0, token := At(t))
  }

  /** waitqueue.pop() and the asserts on its result. */
  function PopQueue(s: State, t: nat, role: Role): State
    requires t < |s.threads|
  {
    if s.queue == [] then
      if role.Unlocker? then Goto(s, t, Publish(role.round))
      else Goto(s, t, GiveUp(role)).(asserts := false)
    else
      var other := s.queue[0];
      var s' := s.(queue := s.queue[1..]);
      if other >= |s.threads| then s'.(asserts := false)
      else if other == t && role == Locker then SetRecord(Goto(s', t, SetOwner), t, Unused)
      else
        var fine := match role
                    case Locker => s.threads[t].record != Woken
                    case Unlocker(_) => other != t
                    case _ => true;
        Goto(SetRecord(s', other, Popped(t)), t, Wake(other, role)).(asserts := s.asserts && fine)
  }

  /** other->wake(). */
  function WakeOther(s: State, t: nat, other: nat, role: Role): State
    requires t < |s.threads|
  {
    var s' := Goto(s, t, GiveUp(role)).(token := At(other));
    if other < |s.threads| then SetRecord(s', other, Woken) else s'.(asserts := false)
  }

  /** wait() returns; the record goes out of use. */
  function Rise(s: State, t: nat): State
    requires t < |s.threads|
  {
    SetRecord(Goto(s, t, SetOwner), t, Unused)
  }

  /** The stores of owner and depth in lock(), try_lock() and receive_lock(). */
  function StoreOwner(s: State, t: nat): State
    requires t < |s.threads|
  {
    s.(owner := Some(t), depth := 1, threads := s.threads[t := s.threads[t].(pc := Idle, held := 1)])
  }

  function DropCount(s: State, t: nat): State
    requires t < |s.threads|
  {
    var s' := s.(count := s.count - 1);
    if s.count == 1 then Goto(s', t, Idle).(token := Free) else Goto(s', t, Pop(Unlocker(1)))
  }

  /** A fresh sequence number becomes the hand-off. */
  function PublishHandoff(s: State, t: nat, round: nat): State
    requires t < |s.threads|
  {
    Goto(s, t, CheckEmpty(s.sequence + 1, Unlocker(round)))
      .(sequence := s.sequence + 1, handoff := s.sequence + 1, token := InHandoff)
  }

  function StepCall(s: State, t: nat): State
    requires t < |s.threads|
  {
    match s.threads[t].pc
    case Idle => s
    case LockCheckOwner => CheckOwner(s, t)
    case LockRecurse => Recurse(s, t)
    case LockPush => Push(s, t, t, Locker)
    case LockWait => Rise(s, t)
    case TryCheckOwner => TryRecurse(s, t)
    case TryCount => Goto(s.(count := s.count + 1), t, SetOwner)
    case SendPush(w) => Push(s, t, w, Sender)
    case UnlockCount => DropCount(s, t)
    case Publish(round) => PublishHandoff(s, t, round)
    case LoadHandoff(role) => ReadHandoff(s, t, role)
    case CheckEmpty(number, role) => LookAtQueue(s, t, number, role)
    case TakeHandoff(number, role) => SwapHandoff(s, t, number, role)
    case Pop(role) => PopQueue(s, t, role)
    case Wake(other, role) => WakeOther(s, t, other, role)
    case SetOwner => StoreOwner(s, t)
    case Parked(_) => Rise(s, t)
  }

  // -------------------------------------------------------------------- runs

  /** A client call, or the next atomic step of the call in progress. */
  datatype Action =
    | Lock
    | TryLock
    | Unlock
    | SendLock(target: nat)
    | Park                              // wait on a condition variable
    | Timeout                           // leave it before anybody sent the lock
    | Step
    | MissQueue                         // empty() is true although items are in transit

  predicate Enabled(s: State, t: nat, a: Action) {
    t < |s.threads| &&
    var th := s.threads[t];
    match a
    case Lock => th.pc == Idle
    case TryLock => th.pc == Idle
    case Unlock => th.pc == Idle && th.held > 0
    case SendLock(w) =>
      th.pc == Idle && w < |s.threads| && w != t && s.threads[w].pc == Parked(false)
    case Park => th.pc == Idle && th.held == 0
    case Timeout => th.pc == Parked(false)
    case Step => CanStep(th)
    // Items are in transit only while somebody pops, that is, after taking the number.
    case MissQueue => th.pc.CheckEmpty? && s.handoff != th.pc.number
  }

  /** The thread is inside a call and not asleep. */
  predicate CanStep(th: Thread) {
    && th.pc != Idle && th.pc != Parked(false)
    && (th.pc == LockWait || th.pc == Parked(true) ==> th.record == Woken)
  }

  function Next(s: State, t: nat, a: Action): State
    requires Enabled(s, t, a)
  {
    match a
    case Lock => BeginLock(s, t)
    case TryLock => BeginTryLock(s, t)
    case Unlock => BeginUnlock(s, t)
    case SendLock(w) => BeginSendLock(s, t, w)
    case Park => Goto(s, t, Parked(false))
    case Timeout => Goto(s, t, Idle)
    case MissQueue => Goto(s, t, GiveUp(s.threads[t].pc.role))
    case Step => StepCall(s, t)
  }

  ghost predicate Follows(s: State, s': State) {
    exists t: nat, a: Action :: Enabled(s, t, a) && s' == Next(s, t, a)
  }

  /** A run: states of `n` threads linked by enabled actions, in any interleaving. */
  ghost predicate IsRun(n: nat, run: seq<State>) {
    && |run| > 0 && run[0] == Init(n)
    && forall i :: 0 < i < |run| ==> Follows(run[i - 1], run[i])
  }
}
