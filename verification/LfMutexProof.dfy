/**
  What every interleaving of the mutex steps keeps, and what follows from it:
  mutual exclusion, a single consumer of the wait queue, no lost wake-up,
  asserts that cannot fail, and an unlock() loop of at most two rounds.
 */
module LfMutexProof {
  import opened LfMutex
  import opened Tally

  // ---------------------------------------------------------------- counting

  /** How many of the increments of `count` stand for this thread. */
  function Weight(th: Thread): nat {
    (if th.held > 0 then 1 else 0) + (if Attempting(th.pc) then 1 else 0)
  }

  predicate Attempting(pc: Pc) {
    match pc
    case LockCheckOwner | LockRecurse | LockPush | LockWait | SetOwner | UnlockCount => true
    case LoadHandoff(role) => role == Locker
    case CheckEmpty(_, role) => role == Locker
    case TakeHandoff(_, role) => role == Locker
    case Pop(role) => role == Locker
    case Wake(_, role) => role == Locker
    case Parked(sent) => sent
    case _ => false
  }

  // --------------------------------------------------------------- invariant

  /** The thread owns the lock, or is the one that must pass it on. */
  predicate HasToken(th: Thread) {
    || th.held > 0 || th.record == Woken
    || th.pc == SetOwner || th.pc == TryCount || th.pc == UnlockCount
    || th.pc.Publish? || th.pc.Pop? || th.pc.Wake?
  }

  predicate InHandoffCode(pc: Pc) {
    pc.LoadHandoff? || pc.CheckEmpty? || pc.TakeHandoff? || pc.Pop? || pc.Wake?
  }

  /** The record of this thread has been made known to the mutex. */
  predicate Registered(pc: Pc) {
    pc == LockWait || pc == Parked(true) || (InHandoffCode(pc) && pc.role == Locker)
  }

  predicate MayHold(pc: Pc) {
    || pc == Idle || pc == LockCheckOwner || pc == LockRecurse || pc == TryCheckOwner || pc.SendPush?
    || ((pc.LoadHandoff? || pc.CheckEmpty? || pc.TakeHandoff?) && pc.role == Sender)
  }

  predicate LocalOk(th: Thread) {
    && (Registered(th.pc) <==> th.record != Unused)
    && (th.record.Sent? ==> th.pc == Parked(true))
    && (th.held > 0 ==> MayHold(th.pc))
    && (th.pc == LockRecurse ==> th.held > 0)
    && ((th.pc.Pop? || th.pc.Wake?) && th.pc.role == Locker ==> th.record == Queued)
    && (th.pc.Publish? ==> th.pc.round == 1)
    && (InHandoffCode(th.pc) ==> RoleOk(th.pc))
  }

  /** Only a pop() is ever reached in the second round of unlock(). */
  predicate RoleOk(pc: Pc)
    requires InHandoffCode(pc)
  {
    && (pc.role.Unlocker? && !pc.Wake? ==> 1 <= pc.role.round <= if pc.Pop? then 2 else 1)
    && (pc.role.Unlocker? ==> !pc.LoadHandoff?)
    && (pc.role == Trier ==> pc.LoadHandoff? || pc.TakeHandoff?)
  }

  ghost predicate TokenOk(s: State) {
    && (s.token.At? ==> s.token.thread < |s.threads|)
    && (forall t :: 0 <= t < |s.threads| ==> (HasToken(s.threads[t]) <==> s.token == At(t)))
    && (s.handoff != 0 <==> s.token == InHandoff)
    && (s.count == 0 <==> s.token == Free)
  }

  ghost predicate OwnerOk(s: State) {
    && (forall t :: 0 <= t < |s.threads| ==> (s.threads[t].held > 0 <==> s.owner == Some(t)))
    && (forall t :: 0 <= t < |s.threads| ==> (s.owner == Some(t) ==> s.depth == s.threads[t].held))
    && (s.owner.Some? ==> s.owner.value < |s.threads|)
  }

  ghost predicate QueueOk(s: State) {
    && (forall i :: 0 <= i < |s.queue| ==> s.queue[i] < |s.threads| && s.threads[s.queue[i]].record == Queued)
    && (forall i, j :: 0 <= i < j < |s.queue| ==> s.queue[i] != s.queue[j])
    && (forall t :: 0 <= t < |s.threads| && s.threads[t].record == Queued ==> t in s.queue)
  }

  /** The record that the thread took out of the queue or is about to put in it. */
  function Carries(pc: Pc): Option<nat> {
    if pc.Wake? then Some(pc.other) else if pc.SendPush? then Some(pc.target) else None
  }

  /** How that record is marked. */
  function Mark(pc: Pc, k: nat): Record {
    if pc.SendPush? then Sent(k) else Popped(k)
  }

  predicate Away(r: Record) {
    r.Sent? || r.Popped?
  }

  predicate AwayOk(s: State, x: nat)
    requires x < |s.threads|
  {
    var r := s.threads[x].record;
    Away(r) ==> r.carrier < |s.threads| && Carries(s.threads[r.carrier].pc) == Some(x)
  }

  predicate CargoOk(s: State, k: nat)
    requires k < |s.threads|
  {
    var c := Carries(s.threads[k].pc);
    c.Some? ==> c.value < |s.threads| && s.threads[c.value].record == Mark(s.threads[k].pc, k)
  }

  ghost predicate CarriedOk(s: State) {
    && (forall x :: 0 <= x < |s.threads| ==> AwayOk(s, x))
    && (forall k :: 0 <= k < |s.threads| ==> CargoOk(s, k))
  }

  ghost predicate LocalsOk(s: State) {
    forall t :: 0 <= t < |s.threads| ==> LocalOk(s.threads[t])
  }

  /** Hand-off numbers that threads remember; none is used twice. */
  predicate Remembers(pc: Pc) {
    pc.CheckEmpty? || pc.TakeHandoff?
  }

  ghost predicate NumbersOk(s: State) {
    && s.handoff <= s.sequence
    && (forall t :: 0 <= t < |s.threads| && Remembers(s.threads[t].pc) ==>
          0 < s.threads[t].pc.number <= s.sequence)
  }

  /** The thread saw a queue that was not empty and would now pop it. */
  predicate SawQueue(pc: Pc, handoff: nat) {
    || (pc.TakeHandoff? && pc.role != Trier && pc.number == handoff)
    || (pc.Pop? && (pc.role.Unlocker? ==> pc.role.round > 1))
  }

  ghost predicate SightingsOk(s: State) {
    forall t :: 0 <= t < |s.threads| && SawQueue(s.threads[t].pc, s.handoff) ==> s.queue != []
  }

  /** The thread will find the published hand-off and act on it. */
  predicate WillFind(pc: Pc, handoff: nat, queued: bool) {
    || pc == LockCheckOwner || pc == LockPush || pc.SendPush?
    || (pc.CheckEmpty? && pc.role.Unlocker? && pc.number == handoff)
    || (queued && (pc.LoadHandoff? || Remembers(pc)) && pc.role != Trier
        && (Remembers(pc) ==> pc.number == handoff))
  }

  ghost predicate HandoffOk(s: State) {
    s.handoff != 0 ==>
      exists t :: 0 <= t < |s.threads| && WillFind(s.threads[t].pc, s.handoff, s.queue != [])
  }

  ghost predicate Inv(s: State) {
    && s.asserts
    && s.count == Sum(s.threads, Weight)
    && TokenOk(s) && OwnerOk(s) && QueueOk(s) && CarriedOk(s) && LocalsOk(s)
    && NumbersOk(s) && SightingsOk(s) && HandoffOk(s)
  }

  // ---------------------------------------------------- the effect of one step

  ghost predicate OthersSame(s: State, s': State, t: nat, o: nat) {
    && |s'.threads| == |s.threads| && t < |s.threads| && o < |s.threads|
    && forall k :: 0 <= k < |s.threads| && k != t && k != o ==> s'.threads[k] == s.threads[k]
  }

  /** Weights: what the count gained is what the two threads gained. */
  predicate CountDelta(s: State, s': State, t: nat, o: nat)
    requires |s'.threads| == |s.threads| && t < |s.threads| && o < |s.threads|
  {
    s'.count - s.count ==
    Weight(s'.threads[t]) - Weight(s.threads[t]) +
    (if o == t then 0 else Weight(s'.threads[o]) - Weight(s.threads[o]))
  }

  lemma CountFrame(s: State, s': State, t: nat, o: nat)
    requires OthersSame(s, s', t, o) && CountDelta(s, s', t, o) && s.count == Sum(s.threads, Weight)
    ensures s'.count == Sum(s'.threads, Weight)
  {
    SumUpdate(s.threads, Weight, o, s'.threads[o]);
    SumUpdate(s.threads[o := s'.threads[o]], Weight, t, s'.threads[t]);
    assert s'.threads == s.threads[o := s'.threads[o]][t := s'.threads[t]];
  }

  predicate TokenDelta(s: State, s': State, t: nat, o: nat)
    requires |s'.threads| == |s.threads| && t < |s.threads| && o < |s.threads|
  {
    && (HasToken(s'.threads[t]) <==> s'.token == At(t))
    && (HasToken(s'.threads[o]) <==> s'.token == At(o))
    && (|| s'.token == s.token
        || ((s.token.At? ==> s.token.thread == t || s.token.thread == o) &&
            (s'.token.At? ==> s'.token.thread == t || s'.token.thread == o)))
    && (s'.handoff != 0 <==> s'.token == InHandoff)
    && (s'.count == 0 <==> s'.token == Free)
  }

  lemma TokenFrame(s: State, s': State, t: nat, o: nat)
    requires TokenOk(s) && OthersSame(s, s', t, o) && TokenDelta(s, s', t, o)
    ensures TokenOk(s')
  {}

  predicate OwnerDelta(s: State, s': State, t: nat, o: nat)
    requires |s'.threads| == |s.threads| && t < |s.threads| && o < |s.threads|
  {
    && (s'.threads[t].held > 0 <==> s'.owner == Some(t))
    && (s'.threads[o].held > 0 <==> s'.owner == Some(o))
    && (s'.owner == Some(t) ==> s'.depth == s'.threads[t].held)
    && (s'.owner == Some(o) ==> s'.depth == s'.threads[o].held)
    && (|| (s'.owner == s.owner && (s'.depth == s.depth || s.owner == Some(t)))
        || ((s.owner == None || s.owner == Some(t)) && (s'.owner == None || s'.owner == Some(t))))
  }

  lemma OwnerFrame(s: State, s': State, t: nat, o: nat)
    requires OwnerOk(s) && OthersSame(s, s', t, o) && OwnerDelta(s, s', t, o)
    ensures OwnerOk(s')
  {}

  predicate SameQueued(s: State, s': State, k: nat)
    requires |s'.threads| == |s.threads| && k < |s.threads|
  {
    s'.threads[k].record == Queued <==> s.threads[k].record == Queued
  }

  predicate QueueDelta(s: State, s': State, t: nat, o: nat)
    requires |s'.threads| == |s.threads| && t < |s.threads| && o < |s.threads|
  {
    && (o != t ==> SameQueued(s, s', t))
    && (|| (s'.queue == s.queue && SameQueued(s, s', o))
        || (s'.queue == s.queue + [o] && s.threads[o].record != Queued && s'.threads[o].record == Queued)
        || (s.queue != [] && o == s.queue[0] && s'.queue == s.queue[1..] && s'.threads[o].record != Queued))
  }

  lemma QueueFrame(s: State, s': State, t: nat, o: nat)
    requires QueueOk(s) && OthersSame(s, s', t, o) && QueueDelta(s, s', t, o)
    ensures QueueOk(s')
  {
    if s'.queue == s.queue {
    } else if s'.queue == s.queue + [o] {
      PushFrame(s, s', t, o);
    } else {
      PopFrame(s, s', t, o);
    }
  }

  lemma PushFrame(s: State, s': State, t: nat, o: nat)
    requires QueueOk(s) && OthersSame(s, s', t, o) && (o != t ==> SameQueued(s, s', t))
    requires s'.queue == s.queue + [o] && s.threads[o].record != Queued && s'.threads[o].record == Queued
    ensures QueueOk(s')
  {
    assert forall x :: x in s'.queue <==> x in s.queue || x == o;
  }

  lemma PopFrame(s: State, s': State, t: nat, o: nat)
    requires QueueOk(s) && OthersSame(s, s', t, o) && (o != t ==> SameQueued(s, s', t))
    requires s.queue != [] && o == s.queue[0] && s'.queue == s.queue[1..] && s'.threads[o].record != Queued
    ensures QueueOk(s')
  {
    forall i | 0 <= i < |s'.queue|
      ensures s'.queue[i] < |s'.threads| && s'.threads[s'.queue[i]].record == Queued
    {
      assert s'.queue[i] == s.queue[i + 1];
    }
    assert s.queue == [o] + s'.queue;
  }

  predicate CarriedDelta(s: State, s': State, t: nat, o: nat, x: nat)
    requires |s'.threads| == |s.threads| && x < |s.threads| && t < |s.threads| && o < |s.threads|
  {
    var r, r' := s.threads[x].record, s'.threads[x].record;
    var c, c' := Carries(s.threads[x].pc), Carries(s'.threads[x].pc);
    // the record of x
    && (Away(r') ==>
          if r'.carrier == t || r'.carrier == o then Carries(s'.threads[r'.carrier].pc) == Some(x) else r' == r)
    && (Away(r) && r.carrier != t && r.carrier != o ==> r' == r)
    // what x carries
    && (c'.Some? ==>
          if c'.value == t || c'.value == o
          then s'.threads[c'.value].record == Mark(s'.threads[x].pc, x)
          else s'.threads[x].pc == s.threads[x].pc)
    && (c.Some? && c.value != t && c.value != o ==> s'.threads[x].pc == s.threads[x].pc)
  }

  lemma AwayFrame(s: State, s': State, t: nat, o: nat, x: nat)
    requires OthersSame(s, s', t, o) && x < |s.threads|
    requires AwayOk(s, x) && CargoOk(s, t) && CargoOk(s, o)
    requires CarriedDelta(s, s', t, o, t) && CarriedDelta(s, s', t, o, o)
    ensures AwayOk(s', x)
  {
    var r := s'.threads[x].record;
    if x != t && x != o && Away(r) {
      assert s.threads[r.carrier].pc == s'.threads[r.carrier].pc;
    }
  }

  lemma CargoFrame(s: State, s': State, t: nat, o: nat, k: nat)
    requires OthersSame(s, s', t, o) && k < |s.threads|
    requires CargoOk(s, k) && AwayOk(s, t) && AwayOk(s, o)
    requires CarriedDelta(s, s', t, o, t) && CarriedDelta(s, s', t, o, o)
    ensures CargoOk(s', k)
  {
    var c := Carries(s'.threads[k].pc);
    if k != t && k != o && c.Some? {
      assert s.threads[c.value].record == s'.threads[c.value].record;
    }
  }

  lemma CarriedFrame(s: State, s': State, t: nat, o: nat)
    requires CarriedOk(s) && OthersSame(s, s', t, o)
    requires CarriedDelta(s, s', t, o, t) && CarriedDelta(s, s', t, o, o)
    ensures CarriedOk(s')
  {
    forall x | 0 <= x < |s'.threads| ensures AwayOk(s', x) {
      AwayFrame(s, s', t, o, x);
    }
    forall k | 0 <= k < |s'.threads| ensures CargoOk(s', k) {
      CargoFrame(s, s', t, o, k);
    }
  }

  predicate HandoffDelta(s: State, s': State, t: nat, o: nat)
    requires |s'.threads| == |s.threads| && t < |s.threads| && o < |s.threads|
  {
    && s'.handoff <= s'.sequence && s.sequence <= s'.sequence
    && (s'.handoff == s.handoff || s'.handoff == 0 || s'.handoff > s.sequence)
    && (o != t ==> !Remembers(s'.threads[o].pc) || s'.threads[o].pc == s.threads[o].pc)
    && (Remembers(s'.threads[t].pc) ==> 0 < s'.threads[t].pc.number <= s'.sequence)
    && (o != t ==> !s'.threads[o].pc.Pop? || s'.threads[o].pc == s.threads[o].pc)
    && (SawQueue(s'.threads[t].pc, s'.handoff) ==> s'.queue != [])
    && (s.queue != [] && s'.queue == [] ==> s'.handoff == 0 && s.token == At(t) && !s'.threads[t].pc.Pop?)
  }

  lemma NumbersFrame(s: State, s': State, t: nat, o: nat)
    requires NumbersOk(s) && OthersSame(s, s', t, o) && HandoffDelta(s, s', t, o)
    ensures NumbersOk(s')
  {}

  lemma SightingsFrame(s: State, s': State, t: nat, o: nat)
    requires SightingsOk(s) && NumbersOk(s) && TokenOk(s)
    requires OthersSame(s, s', t, o) && HandoffDelta(s, s', t, o)
    ensures SightingsOk(s')
  {
    forall x | 0 <= x < |s'.threads| && SawQueue(s'.threads[x].pc, s'.handoff)
      ensures s'.queue != []
    {
      if x != t {
        assert HasToken(s.threads[x]) <==> s.token == At(x);
      }
    }
  }

  /** A published hand-off still has somebody who will find it. */
  predicate WitnessDelta(s: State, s': State, t: nat, o: nat)
    requires |s'.threads| == |s.threads| && t < |s.threads| && o < |s.threads|
  {
    s'.handoff != 0 ==>
      || WillFind(s'.threads[t].pc, s'.handoff, s'.queue != [])
      || (&& s'.handoff == s.handoff && (s.queue != [] ==> s'.queue != [])
          && !WillFind(s.threads[t].pc, s.handoff, s.queue != [])
          && (o != t ==> !WillFind(s.threads[o].pc, s.handoff, s.queue != [])))
  }

  lemma WitnessFrame(s: State, s': State, t: nat, o: nat)
    requires HandoffOk(s) && OthersSame(s, s', t, o) && WitnessDelta(s, s', t, o)
    ensures HandoffOk(s')
  {
    if s'.handoff != 0 && !WillFind(s'.threads[t].pc, s'.handoff, s'.queue != []) {
      var k :| 0 <= k < |s.threads| && WillFind(s.threads[k].pc, s.handoff, s.queue != []);
      assert WillFind(s'.threads[k].pc, s'.handoff, s'.queue != []);
    }
  }

  /** What a step owes the invariant, said about the threads it touches. */
  ghost predicate LockDelta(s: State, s': State, t: nat, o: nat) {
    && OthersSame(s, s', t, o)
    && s'.asserts
    && TokenDelta(s, s', t, o)
    && OwnerDelta(s, s', t, o)
  }

  ghost predicate LocalDelta(s: State, s': State, t: nat, o: nat) {
    && OthersSame(s, s', t, o)
    && LocalOk(s'.threads[t]) && LocalOk(s'.threads[o])
    && CountDelta(s, s', t, o)
  }

  ghost predicate WaitDelta(s: State, s': State, t: nat, o: nat) {
    && OthersSame(s, s', t, o)
    && QueueDelta(s, s', t, o)
    && CarriedDelta(s, s', t, o, t) && CarriedDelta(s, s', t, o, o)
    && HandoffDelta(s, s', t, o)
  }

  ghost predicate Delta(s: State, s': State, t: nat, o: nat) {
    LocalDelta(s, s', t, o) && LockDelta(s, s', t, o) && WaitDelta(s, s', t, o)
  }

  lemma LocalsFrame(s: State, s': State, t: nat, o: nat)
    requires LocalsOk(s) && OthersSame(s, s', t, o)
    requires LocalOk(s'.threads[t]) && LocalOk(s'.threads[o])
    ensures LocalsOk(s')
  {}

  lemma Preserved(s: State, s': State, t: nat, o: nat)
    requires Inv(s) && Delta(s, s', t, o) && HandoffOk(s')
    ensures Inv(s')
  {
    CountFrame(s, s', t, o);
    TokenFrame(s, s', t, o);
    OwnerFrame(s, s', t, o);
    QueueFrame(s, s', t, o);
    CarriedFrame(s, s', t, o);
    LocalsFrame(s, s', t, o);
    NumbersFrame(s, s', t, o);
    SightingsFrame(s, s', t, o);
  }

  lemma InitInv(n: nat)
    ensures Inv(Init(n))
  {
    SumZero(Init(n).threads, Weight);
  }

  // ------------------------------------------------- each step pays its dues

  /** What the invariant says about one thread, without quantifiers. */
  predicate View(s: State, t: nat) {
    && t < |s.threads|
    && var th := s.threads[t];
    && s.asserts
    && LocalOk(th)
    && (HasToken(th) <==> s.token == At(t))
    && (th.held > 0 <==> s.owner == Some(t))
    && (s.owner == Some(t) ==> s.depth == th.held)
    && (s.owner.Some? ==> s.token == At(s.owner.value))
    && (s.handoff != 0 <==> s.token == InHandoff)
    && (s.count == 0 <==> s.token == Free)
    && s.count >= Weight(th)
    && s.handoff <= s.sequence
    && (Remembers(th.pc) ==> 0 < th.pc.number <= s.sequence)
    && (SawQueue(th.pc, s.handoff) ==> s.queue != [])
    && (th.record == Queued ==> s.queue != [])
    && (th.record.Popped? ==> s.token == At(th.record.carrier))
    && (s.queue != [] ==> s.queue[0] < |s.threads| && s.threads[s.queue[0]].record == Queued)
    && CargoOk(s, t) && AwayOk(s, t)
  }

  lemma Views(s: State, t: nat)
    requires Inv(s) && t < |s.threads|
    ensures View(s, t)
  {
    SumAtLeast(s.threads, Weight, t);
    PoppedAtToken(s, t);
  }

  lemma PoppedAtToken(s: State, t: nat)
    requires TokenOk(s) && CarriedOk(s) && t < |s.threads|
    ensures s.threads[t].record.Popped? ==> s.token == At(s.threads[t].record.carrier)
  {
    if s.threads[t].record.Popped? {
      var k := s.threads[t].record.carrier;
      assert AwayOk(s, t) && CargoOk(s, k);
      assert HasToken(s.threads[k]);
    }
  }

  ghost predicate StepOk(s: State, s': State, t: nat, o: nat) {
    Delta(s, s', t, o) && WitnessDelta(s, s', t, o)
  }

  lemma LockOk(s: State, t: nat)
    requires View(s, t) && s.threads[t].pc == Idle
    ensures StepOk(s, BeginLock(s, t), t, t)
  {}

  lemma TryLockOk(s: State, t: nat)
    requires View(s, t) && s.threads[t].pc == Idle
    ensures StepOk(s, BeginTryLock(s, t), t, t)
  {}

  lemma UnlockOk(s: State, t: nat)
    requires View(s, t) && s.threads[t].pc == Idle && s.threads[t].held > 0
    ensures StepOk(s, BeginUnlock(s, t), t, t)
  {}

  lemma SendLockOwnershipOk(s: State, t: nat, w: nat)
    requires View(s, t) && s.threads[t].pc == Idle
    requires View(s, w) && w != t && s.threads[w].pc == Parked(false)
    ensures LockDelta(s, BeginSendLock(s, t, w), t, w)
  {}

  lemma SendLockLocalOk(s: State, t: nat, w: nat)
    requires View(s, t) && s.threads[t].pc == Idle
    requires View(s, w) && w != t && s.threads[w].pc == Parked(false)
    ensures LocalDelta(s, BeginSendLock(s, t, w), t, w)
  {}

  lemma SendLockRecordsOk(s: State, t: nat, w: nat)
    requires View(s, t) && s.threads[t].pc == Idle
    requires View(s, w) && w != t && s.threads[w].pc == Parked(false)
    ensures WaitDelta(s, BeginSendLock(s, t, w), t, w)
    ensures WitnessDelta(s, BeginSendLock(s, t, w), t, w)
  {}

  lemma SendLockOk(s: State, t: nat, w: nat)
    requires View(s, t) && s.threads[t].pc == Idle
    requires View(s, w) && w != t && s.threads[w].pc == Parked(false)
    ensures StepOk(s, BeginSendLock(s, t, w), t, w)
  {
    hide View, LocalDelta, LockDelta, WaitDelta, WitnessDelta;
    SendLockLocalOk(s, t, w);
    SendLockOwnershipOk(s, t, w);
    SendLockRecordsOk(s, t, w);
  }

  lemma CheckOwnerOk(s: State, t: nat)
    requires View(s, t) && s.threads[t].pc == LockCheckOwner
    ensures StepOk(s, CheckOwner(s, t), t, t)
  {}

  lemma RecurseOk(s: State, t: nat)
    requires View(s, t) && s.threads[t].pc == LockRecurse
    ensures StepOk(s, Recurse(s, t), t, t)
  {}

  lemma LockPushOk(s: State, t: nat)
    requires View(s, t) && s.threads[t].pc == LockPush
    ensures StepOk(s, Push(s, t, t, Locker), t, t)
  {}

  lemma SendPushOk(s: State, t: nat, w: nat)
    requires View(s, t) && s.threads[t].pc == SendPush(w) && View(s, w)
    ensures StepOk(s, Push(s, t, w, Sender), t, w)
  {}

  lemma RiseOk(s: State, t: nat)
    requires View(s, t) && (s.threads[t].pc == LockWait || s.threads[t].pc == Parked(true))
    requires s.threads[t].record == Woken
    ensures StepOk(s, Rise(s, t), t, t)
  {}

  lemma TryRecurseOk(s: State, t: nat)
    requires View(s, t) && s.threads[t].pc == TryCheckOwner
    ensures StepOk(s, TryRecurse(s, t), t, t)
  {}

  lemma TryCountOk(s: State, t: nat)
    requires View(s, t) && s.threads[t].pc == TryCount
    ensures StepOk(s, Goto(s.(count := s.count + 1), t, SetOwner), t, t)
  {}

  lemma DropCountOk(s: State, t: nat)
    requires View(s, t) && s.threads[t].pc == UnlockCount
    ensures StepOk(s, DropCount(s, t), t, t)
  {}

  lemma PublishOk(s: State, t: nat, round: nat)
    requires View(s, t) && s.threads[t].pc == Publish(round)
    ensures StepOk(s, PublishHandoff(s, t, round), t, t)
  {}

  lemma ReadHandoffOk(s: State, t: nat, role: Role)
    requires View(s, t) && s.threads[t].pc == LoadHandoff(role)
    ensures StepOk(s, ReadHandoff(s, t, role), t, t)
  {}

  lemma LookAtQueueOk(s: State, t: nat, number: nat, role: Role)
    requires View(s, t) && s.threads[t].pc == CheckEmpty(number, role)
    ensures Delta(s, LookAtQueue(s, t, number, role), t, t)
    ensures s.queue != [] || number != s.handoff || role != Unlocker(1) ==>
              WitnessDelta(s, LookAtQueue(s, t, number, role), t, t)
  {}

  lemma SwapHandoffOk(s: State, t: nat, number: nat, role: Role)
    requires View(s, t) && s.threads[t].pc == TakeHandoff(number, role)
    ensures StepOk(s, SwapHandoff(s, t, number, role), t, t)
  {}

  lemma PopNothingOk(s: State, t: nat, role: Role)
    requires View(s, t) && s.threads[t].pc == Pop(role) && s.queue == []
    ensures StepOk(s, PopQueue(s, t, role), t, t)
  {
    assert role == Unlocker(1);
  }

  lemma PopSelfOk(s: State, t: nat)
    requires View(s, t) && s.threads[t].pc == Pop(Locker) && s.queue != [] && s.queue[0] == t
    ensures StepOk(s, PopQueue(s, t, Locker), t, t)
  {}

  lemma PopOtherOk(s: State, t: nat, role: Role)
    requires View(s, t) && s.threads[t].pc == Pop(role) && s.queue != [] && View(s, s.queue[0])
    requires role == Locker ==> s.queue[0] != t
    ensures StepOk(s, PopQueue(s, t, role), t, s.queue[0])
  {
    var s', o := PopQueue(s, t, role), s.queue[0];
    assert o != t;
    assert s'.threads[t] == s.threads[t].(pc := Wake(o, role));
    assert s'.threads[o] == s.threads[o].(record := Popped(t));
  }

  lemma WakeOk(s: State, t: nat, other: nat, role: Role)
    requires View(s, t) && s.threads[t].pc == Wake(other, role) && View(s, other)
    ensures StepOk(s, WakeOther(s, t, other, role), t, other)
  {}

  lemma SetOwnerOk(s: State, t: nat)
    requires View(s, t) && s.threads[t].pc == SetOwner
    ensures StepOk(s, StoreOwner(s, t), t, t)
  {}

  lemma ParkOk(s: State, t: nat, pc: Pc)
    requires View(s, t)
    requires (s.threads[t].pc == Idle && s.threads[t].held == 0 && pc == Parked(false))
          || (s.threads[t].pc == Parked(false) && pc == Idle)
    ensures StepOk(s, Goto(s, t, pc), t, t)
  {}

  lemma MissQueueOk(s: State, t: nat)
    requires View(s, t) && s.threads[t].pc.CheckEmpty? && s.handoff != s.threads[t].pc.number
    ensures StepOk(s, Goto(s, t, GiveUp(s.threads[t].pc.role)), t, t)
  {}

  // ------------------------------------------------------------ all the steps

  /**
    An offered hand-off with an empty queue: the count tells that somebody is
    still on the way to the queue, and will look at the hand-off afterwards.
   */
  lemma SomebodyOnTheWay(s: State) returns (k: nat)
    requires s.count == Sum(s.threads, Weight) && TokenOk(s) && QueueOk(s) && CarriedOk(s) && LocalsOk(s)
    requires s.handoff != 0 && s.queue == []
    ensures k < |s.threads|
    ensures s.threads[k].pc == LockCheckOwner || s.threads[k].pc == LockPush || s.threads[k].pc.SendPush?
  {
    var i := SumWitness(s.threads, Weight);
    var th := s.threads[i];
    assert LocalOk(th) && !HasToken(th);
    if th.record.Sent? {
      k := th.record.carrier;
      assert AwayOk(s, i) && CargoOk(s, k);
    } else {
      k := i;
      PoppedAtToken(s, i);
    }
  }

  lemma Kept(s: State, s': State, t: nat, o: nat)
    requires Inv(s) && StepOk(s, s', t, o)
    ensures Inv(s')
  {
    WitnessFrame(s, s', t, o);
    Preserved(s, s', t, o);
  }

  /** unlock() returns after offering the hand-off to a queue still empty. */
  lemma LeaveHandoff(s: State, t: nat, number: nat, role: Role)
    requires Inv(s) && View(s, t) && s.threads[t].pc == CheckEmpty(number, role)
    ensures Inv(LookAtQueue(s, t, number, role))
  {
    var s' := LookAtQueue(s, t, number, role);
    LookAtQueueOk(s, t, number, role);
    if s.queue == [] && number == s.handoff && role == Unlocker(1) {
      var k := SomebodyOnTheWay(s);
      assert WillFind(s'.threads[k].pc, s'.handoff, s'.queue != []);
    } else {
      WitnessFrame(s, s', t, t);
    }
    Preserved(s, s', t, t);
  }

  lemma PopQueueInv(s: State, t: nat, role: Role)
    requires Inv(s) && View(s, t) && s.threads[t].pc == Pop(role)
    ensures Inv(PopQueue(s, t, role))
  {
    hide Inv, StepOk;
    var s', o := PopQueue(s, t, role), t;
    if s.queue == [] {
      PopNothingOk(s, t, role);
    } else if role == Locker && s.queue[0] == t {
      PopSelfOk(s, t);
    } else {
      o := s.queue[0];
      Views(s, o);
      PopOtherOk(s, t, role);
    }
    Kept(s, s', t, o);
  }

  lemma StepCallInv(s: State, t: nat)
    requires Inv(s) && t < |s.threads| && CanStep(s.threads[t])
    ensures Inv(StepCall(s, t))
  {
    hide Inv, View, StepOk, CheckOwner, Recurse, TryRecurse, Push, Rise, ReadHandoff, LookAtQueue,
         SwapHandoff, PopQueue, WakeOther, StoreOwner, DropCount, PublishHandoff;
    Views(s, t);
    var s' := StepCall(s, t);
    match s.threads[t].pc
    case LockCheckOwner => CheckOwnerOk(s, t); Kept(s, s', t, t);
    case LockRecurse => RecurseOk(s, t); Kept(s, s', t, t);
    case LockPush => LockPushOk(s, t); Kept(s, s', t, t);
    case LockWait => RiseOk(s, t); Kept(s, s', t, t);
    case TryCheckOwner => TryRecurseOk(s, t); Kept(s, s', t, t);
    case TryCount => TryCountOk(s, t); Kept(s, s', t, t);
    case UnlockCount => DropCountOk(s, t); Kept(s, s', t, t);
    case Publish(round) => PublishOk(s, t, round); Kept(s, s', t, t);
    case LoadHandoff(role) => ReadHandoffOk(s, t, role); Kept(s, s', t, t);
    case CheckEmpty(number, role) => LeaveHandoff(s, t, number, role);
    case TakeHandoff(number, role) => SwapHandoffOk(s, t, number, role); Kept(s, s', t, t);
    case Pop(role) => PopQueueInv(s, t, role);
    case SetOwner => SetOwnerOk(s, t); Kept(s, s', t, t);
    case Parked(_) => RiseOk(s, t); Kept(s, s', t, t);
    case SendPush(w) =>
      CargoInRange(s, t);
      Views(s, w);
      SendPushOk(s, t, w);
      Kept(s, s', t, w);
    case Wake(other, role) =>
      CargoInRange(s, t);
      Views(s, other);
      WakeOk(s, t, other, role);
      Kept(s, s', t, other);
  }

  lemma CargoInRange(s: State, t: nat)
    requires View(s, t) && Carries(s.threads[t].pc).Some?
    ensures Carries(s.threads[t].pc).value < |s.threads|
  {}

  /** Every action of every thread keeps the invariant. */
  lemma NextInv(s: State, t: nat, a: Action)
    requires Inv(s) && Enabled(s, t, a)
    ensures Inv(Next(s, t, a))
  {
    hide Inv, View, StepOk;
    Views(s, t);
    var s' := Next(s, t, a);
    match a
    case Lock => LockOk(s, t); Kept(s, s', t, t);
    case TryLock => TryLockOk(s, t); Kept(s, s', t, t);
    case Unlock => UnlockOk(s, t); Kept(s, s', t, t);
    case SendLock(w) =>
      Views(s, w);
      SendLockOk(s, t, w);
      Kept(s, s', t, w);
    case Park => ParkOk(s, t, Parked(false)); Kept(s, s', t, t);
    case Timeout => ParkOk(s, t, Idle); Kept(s, s', t, t);
    case MissQueue => MissQueueOk(s, t); Kept(s, s', t, t);
    case Step => StepCallInv(s, t);
  }

  lemma {:induction false} RunInv(n: nat, run: seq<State>, i: nat)
    requires IsRun(n, run) && i < |run|
    ensures Inv(run[i])
  {
    if i == 0 {
      InitInv(n);
    } else {
      RunInv(n, run, i - 1);
      assert Follows(run[i - 1], run[i]);
      var t: nat, a :| Enabled(run[i - 1], t, a) && run[i] == Next(run[i - 1], t, a);
      NextInv(run[i - 1], t, a);
    }
  }

  // ---------------------------------------------------------------- theorems

  /** At most one thread holds the mutex, and the depth counts its acquisitions. */
  lemma MutualExclusion(n: nat, run: seq<State>, i: nat, t: nat, u: nat)
    requires IsRun(n, run) && i < |run| && t < |run[i].threads| && u < |run[i].threads|
    requires run[i].threads[t].held > 0
    ensures run[i].owner == Some(t) && run[i].depth == run[i].threads[t].held
    ensures u != t ==> run[i].threads[u].held == 0
  {
    RunInv(n, run, i);
  }

  /** One ownership token exists exactly while the count is positive. */
  lemma OneToken(n: nat, run: seq<State>, i: nat)
    requires IsRun(n, run) && i < |run|
    ensures run[i].count >= 0
    ensures run[i].count == 0 ==> run[i].handoff == 0
    ensures run[i].count == 0 || run[i].handoff != 0 ==>
              forall t :: 0 <= t < |run[i].threads| ==> !HasToken(run[i].threads[t])
    ensures run[i].count > 0 && run[i].handoff == 0 ==>
              exists t :: 0 <= t < |run[i].threads| && HasToken(run[i].threads[t]) &&
                forall u :: 0 <= u < |run[i].threads| && HasToken(run[i].threads[u]) ==> u == t
  {
    RunInv(n, run, i);
    var s := run[i];
    if s.count > 0 && s.handoff == 0 {
      assert HasToken(s.threads[s.token.thread]);
    }
  }

  /** Two threads never pop the wait queue at the same time. */
  lemma SingleConsumer(n: nat, run: seq<State>, i: nat, t: nat, u: nat)
    requires IsRun(n, run) && i < |run| && t < |run[i].threads| && u < |run[i].threads|
    requires run[i].threads[t].pc.Pop? && run[i].threads[u].pc.Pop?
    ensures t == u
  {
    RunInv(n, run, i);
    assert HasToken(run[i].threads[t]) && HasToken(run[i].threads[u]);
  }

  /** No assert() of the mutex code ever fails. */
  lemma AssertsHold(n: nat, run: seq<State>, i: nat)
    requires IsRun(n, run) && i < |run|
    ensures run[i].asserts
  {
    RunInv(n, run, i);
  }

  /** The loop of unlock() runs at most twice, and its second pop() finds a waiter. */
  lemma UnlockLoopAtMostTwice(n: nat, run: seq<State>, i: nat, t: nat)
    requires IsRun(n, run) && i < |run| && t < |run[i].threads|
    requires run[i].threads[t].pc.Pop? && run[i].threads[t].pc.role.Unlocker?
    ensures run[i].threads[t].pc.role.round <= 2
    ensures run[i].threads[t].pc.role.round == 2 ==> run[i].queue != []
  {
    RunInv(n, run, i);
    assert LocalOk(run[i].threads[t]);
  }
}
