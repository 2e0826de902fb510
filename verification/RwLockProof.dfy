/**
  The fields of the packed word always equal the numbers they stand for, a
  writer excludes every reader, and nobody sleeps without somebody who will
  wake them, in every interleaving of the reader-writer lock.
 */
module RwLockProof {
  import opened RwWord
  import opened RwLock
  import opened Tally

  // -------------------------------------------------------- counts and phases

  function Reads(th: Thread): nat { th.readHolds }

  /** Readers counted in the low half of the word. */
  function Waits(th: Thread): nat { if CountedPending(th.pc) then 1 else 0 }

  predicate CountedPending(pc: Pc) {
    pc.ReadRetry? || pc == ReadPush || pc == ReadSleep || pc == ReadPopped
  }

  /** The thread that owns _wmtx, or an idle stand-in. */
  function Boss(s: State): Thread {
    if s.owner.Some? && s.owner.value < |s.threads| then s.threads[s.owner.value] else Thread(Idle, 0, 0)
  }

  /** The owner of _wmtx has the writer bit set. */
  predicate HoldsBit(th: Thread) {
    th.writeHolds > 0 || th.pc == UnlockClear || th.pc == DownLoad || th.pc.DownTry?
  }

  /** The owner of _wmtx has the pending-writer bit set. */
  predicate Pends(pc: Pc) {
    pc.WriteTry? || pc == WriteSleep || pc == WriteAdd
  }

  /** The pending writer saw owning readers. */
  predicate Waiting(pc: Pc) {
    pc == WriteSleep || (pc.WriteTry? && Owning(pc.seen) != 0)
  }

  /** wunlock() or downgrade() past the client's call. */
  predicate Leaving(pc: Pc) {
    || pc == UnlockClear || pc == DownLoad || pc.DownTry? || pc == DownCount
    || pc.Serve? || pc == ServeReload || pc.Grant? || pc.Notify? || pc == Release
  }

  /** wlock(), try_wlock() or try_upgrade() between _wmtx and success. */
  predicate Entering(pc: Pc) {
    || pc == WriteCheck || pc == WriteSetWait || pc == WriteAnnounce || Pends(pc)
    || pc.TryLoad? || pc.TryTake? || pc == TryRelease
  }

  predicate OwnsMutex(th: Thread) {
    th.writeHolds > 0 || Entering(th.pc) || Leaving(th.pc)
  }

  predicate DepthOk(th: Thread, depth: nat) {
    if Entering(th.pc) then depth == th.writeHolds + 1
    else if Leaving(th.pc) then depth >= 1
    else depth == th.writeHolds
  }

  /** A reader that will not look at the word again. */
  predicate Committed(pc: Pc) {
    (pc.ReadRetry? && pc.seen >= PENDING_WRITER) || pc == ReadPush || pc == ReadSleep || pc == ReadPopped
  }

  /** The owner of _wmtx will still wake every committed reader. */
  predicate Serving(th: Thread) {
    || HoldsBit(th) || Pends(th.pc) || th.pc == DownCount
    || (th.pc.Serve? && th.pc.pending > 0) || th.pc == ServeReload || th.pc.Grant? || th.pc.Notify?
  }

  predicate OnTheWay(pc: Pc) {
    pc == LastLoadOwner || pc.LastStore?
  }

  // --------------------------------------------------------------- invariant

  predicate LocalOk(th: Thread) {
    && (th.writeHolds > 0 ==>
          !Leaving(th.pc) && !OnTheWay(th.pc) && !Pends(th.pc) && !th.pc.TryTake?
          && th.pc != WriteSetWait && th.pc != WriteAnnounce)
    && (th.pc == WriteClearWait ==> th.writeHolds > 0)
    && (th.pc.Notify? ==> th.pc.pending > 0)
    && ((th.pc.TryLoad? || th.pc.TryTake?) && th.pc.upgrade ==> th.readHolds > 0)
    && (th.pc.TryTake? ==> Owning(th.pc.seen) == if th.pc.upgrade then 1 else 0)
    && (th.pc.ReadTry? || th.pc.ReadCount? ==> Pending(th.pc.seen) <= MAX_READERS)
    && (th.pc.WriteTry? ==> PendingWriter(th.pc.seen))
  }

  predicate ThreadOk(s: State, boss: Thread, k: nat)
    requires k < |s.threads|
  {
    var th := s.threads[k];
    && LocalOk(th)
    && (OwnsMutex(th) <==> s.owner == Some(k))
    && (s.owner == Some(k) ==> DepthOk(th, s.depth))
    && (OnTheWay(th.pc) <==> s.last == Some(k))
    && (th.pc.LastStore? ==> s.owner == Some(th.pc.writer))
    && (th.pc == ReadPopped ==> boss.pc == Grant(k))
    && (th.pc == ReadGranted ==> boss.pc.Notify? && boss.pc.reader == k)
    && (th.pc.Grant? ==> th.pc.reader < |s.threads| && s.threads[th.pc.reader].pc == ReadPopped)
    && (th.pc.Notify? ==> th.pc.reader < |s.threads| && s.threads[th.pc.reader].pc == ReadGranted)
    && (Committed(th.pc) ==> Serving(boss))
  }

  /** With `r` owning and `q` pending readers, and `c` claims. */
  predicate SharedOk(s: State, boss: Thread, r: int, q: int, c: int) {
    && s.asserts
    && 0 <= r && 0 <= q && r + q <= c <= MAX_READERS
    && s.word == Pack(HoldsBit(boss), Pends(boss.pc), r, q)
    && (s.owner.Some? ==> s.owner.value < |s.threads|)
    && (s.owner == None ==> s.depth == 0)
    && (s.last.Some? ==> s.last.value < |s.threads|)
    && WaitOk(s, boss, r)
  }

  /** A writer excludes readers; a pending one and the last reader find each other. */
  predicate WaitOk(s: State, boss: Thread, r: int) {
    && (HoldsBit(boss) || boss.pc == WriteAdd ==> r == 0)
    && (boss.pc.WriteTry? && Owning(boss.pc.seen) == 0 ==> r == 0)
    && (s.last.Some? ==> Waiting(boss.pc) && r == 0 && s.writerWait)
    && (Waiting(boss.pc) && r > 0 ==> s.writerWait)
    && (Waiting(boss.pc) && r == 0 && s.writerWait ==> s.last.Some?)
    && (boss.pc == WriteAnnounce ==> s.writerWait)
  }

  ghost predicate QueueOk(s: State) {
    && (forall i :: 0 <= i < |s.queue| ==> s.queue[i] < |s.threads| && s.threads[s.queue[i]].pc == ReadSleep)
    && (forall i, j :: 0 <= i < j < |s.queue| ==> s.queue[i] != s.queue[j])
    && (forall k :: 0 <= k < |s.threads| && s.threads[k].pc == ReadSleep ==> k in s.queue)
  }

  ghost predicate ThreadsOk(s: State) {
    forall k :: 0 <= k < |s.threads| ==> ThreadOk(s, Boss(s), k)
  }

  ghost predicate Inv(s: State) {
    && SharedOk(s, Boss(s), Sum(s.threads, Reads), Sum(s.threads, Waits), Sum(s.threads, Claims))
    && ThreadsOk(s) && QueueOk(s)
  }

  // ---------------------------------------------------- the effect of one step

  ghost predicate OthersSame(s: State, s': State, t: nat, o: nat) {
    && |s'.threads| == |s.threads| && t < |s.threads| && o < |s.threads|
    && forall k :: 0 <= k < |s.threads| && k != t && k != o ==> s'.threads[k] == s.threads[k]
  }

  lemma SumFrame(s: State, s': State, f: Thread -> nat, t: nat, o: nat)
    requires OthersSame(s, s', t, o)
    ensures Sum(s'.threads, f) == Sum(s.threads, f) + f(s'.threads[t]) - f(s.threads[t])
              + if o == t then 0 else f(s'.threads[o]) - f(s.threads[o])
  {
    SumUpdate(s.threads, f, o, s'.threads[o]);
    SumUpdate(s.threads[o := s'.threads[o]], f, t, s'.threads[t]);
    assert s'.threads == s.threads[o := s'.threads[o]][t := s'.threads[t]];
  }

  predicate SameAsleep(s: State, s': State, k: nat)
    requires |s'.threads| == |s.threads| && k < |s.threads|
  {
    s'.threads[k].pc == ReadSleep <==> s.threads[k].pc == ReadSleep
  }

  predicate QueueDelta(s: State, s': State, t: nat, o: nat)
    requires |s'.threads| == |s.threads| && t < |s.threads| && o < |s.threads|
  {
    && (o != t ==> SameAsleep(s, s', t))
    && (|| (s'.queue == s.queue && SameAsleep(s, s', o))
        || (s'.queue == s.queue + [o] && s.threads[o].pc != ReadSleep && s'.threads[o].pc == ReadSleep)
        || (s.queue != [] && o == s.queue[0] && s'.queue == s.queue[1..] && s'.threads[o].pc != ReadSleep))
  }

  lemma QueueFrame(s: State, s': State, t: nat, o: nat)
    requires QueueOk(s) && OthersSame(s, s', t, o) && QueueDelta(s, s', t, o)
    ensures QueueOk(s')
  {
    if s'.queue == s.queue {
    } else if s'.queue == s.queue + [o] {
      assert forall x :: x in s'.queue <==> x in s.queue || x == o;
    } else {
      PopFrame(s, s', t, o);
    }
  }

  lemma PopFrame(s: State, s': State, t: nat, o: nat)
    requires QueueOk(s) && OthersSame(s, s', t, o) && (o != t ==> SameAsleep(s, s', t))
    requires s.queue != [] && o == s.queue[0] && s'.queue == s.queue[1..] && s'.threads[o].pc != ReadSleep
    ensures QueueOk(s')
  {
    forall i | 0 <= i < |s'.queue|
      ensures s'.queue[i] < |s'.threads| && s'.threads[s'.queue[i]].pc == ReadSleep
    {
      assert s'.queue[i] == s.queue[i + 1];
    }
    assert s.queue == [o] + s'.queue;
  }

  /** The owner of _wmtx after a step of `t`. */
  function NextBoss(s': State, t: nat, boss: Thread): Thread
    requires t < |s'.threads|
  {
    if s'.owner == Some(t) then s'.threads[t] else if s'.owner == None then Thread(Idle, 0, 0) else boss
  }

  /** What the step does to everything the other threads rely on. */
  predicate SharedDelta(s: State, s': State, t: nat, o: nat, boss: Thread, q': int)
    requires |s'.threads| == |s.threads| && t < |s.threads| && o < |s.threads|
  {
    var boss' := NextBoss(s', t, boss);
    && (o != t ==> s.owner == Some(t))
    && (|| (s'.owner == s.owner && (s'.depth == s.depth || s.owner == Some(t)))
        || ((s.owner == None || s.owner == Some(t)) && (s'.owner == None || s'.owner == Some(t))))
    && (s'.last == s.last || ((s.last == None || s.last == Some(t)) && (s'.last == None || s'.last == Some(t))))
    && (s.last.Some? && s.last != Some(t) ==> s'.owner == s.owner)
    && (boss'.pc == boss.pc || (boss.pc.Grant? || boss.pc.Notify? ==> boss.pc.reader == t || boss.pc.reader == o))
    && s.threads[t].pc != ReadPopped && s.threads[t].pc != ReadGranted
    && (Serving(boss) ==> Serving(boss') || q' == 0)
  }

  lemma ThreadFrame(s: State, s': State, t: nat, o: nat, boss: Thread, q': int, k: nat)
    requires OthersSame(s, s', t, o) && SharedDelta(s, s', t, o, boss, q')
    requires k < |s.threads| && k != t && k != o && ThreadOk(s, boss, k)
    requires q' >= Waits(s'.threads[k])
    ensures ThreadOk(s', NextBoss(s', t, boss), k)
  {}

  ghost predicate StepOk(s: State, s': State, t: nat, o: nat, boss: Thread, r: int, q: int, c: int) {
    && OthersSame(s, s', t, o)
    && var boss' := NextBoss(s', t, boss);
    && SharedOk(s', boss', r + GainReads(s, s', t, o), q + GainWaits(s, s', t, o), c + GainClaims(s, s', t, o))
    && SharedDelta(s, s', t, o, boss, q + GainWaits(s, s', t, o))
    && ThreadOk(s', boss', t) && ThreadOk(s', boss', o)
    && QueueDelta(s, s', t, o)
  }

  function GainReads(s: State, s': State, t: nat, o: nat): int
    requires |s'.threads| == |s.threads| && t < |s.threads| && o < |s.threads|
  {
    Reads(s'.threads[t]) - Reads(s.threads[t]) + if o == t then 0 else Reads(s'.threads[o]) - Reads(s.threads[o])
  }

  function GainWaits(s: State, s': State, t: nat, o: nat): int
    requires |s'.threads| == |s.threads| && t < |s.threads| && o < |s.threads|
  {
    Waits(s'.threads[t]) - Waits(s.threads[t]) + if o == t then 0 else Waits(s'.threads[o]) - Waits(s.threads[o])
  }

  function GainClaims(s: State, s': State, t: nat, o: nat): int
    requires |s'.threads| == |s.threads| && t < |s.threads| && o < |s.threads|
  {
    Claims(s'.threads[t]) - Claims(s.threads[t]) + if o == t then 0 else Claims(s'.threads[o]) - Claims(s.threads[o])
  }

  lemma BossFrame(s: State, s': State, t: nat, o: nat, q': int)
    requires OthersSame(s, s', t, o) && SharedDelta(s, s', t, o, Boss(s), q')
    ensures Boss(s') == NextBoss(s', t, Boss(s))
  {}

  lemma ThreadsFrame(s: State, s': State, t: nat, o: nat)
    requires ThreadsOk(s) && OthersSame(s, s', t, o) && SharedDelta(s, s', t, o, Boss(s), Sum(s'.threads, Waits))
    requires ThreadOk(s', NextBoss(s', t, Boss(s)), t) && ThreadOk(s', NextBoss(s', t, Boss(s)), o)
    ensures ThreadsOk(s')
  {
    BossFrame(s, s', t, o, Sum(s'.threads, Waits));
    forall k | 0 <= k < |s'.threads| ensures ThreadOk(s', Boss(s'), k) {
      if k != t && k != o {
        hide ThreadOk, SharedDelta;
        SumAtLeast(s'.threads, Waits, k);
        ThreadFrame(s, s', t, o, Boss(s), Sum(s'.threads, Waits), k);
      }
    }
  }

  lemma Kept(s: State, s': State, t: nat, o: nat)
    requires Inv(s)
    requires StepOk(s, s', t, o, Boss(s), Sum(s.threads, Reads), Sum(s.threads, Waits), Sum(s.threads, Claims))
    ensures Inv(s')
  {
    hide Sum, SharedOk, ThreadOk, SharedDelta, QueueDelta, QueueOk, ThreadsOk, NextBoss, Boss;
    SumFrame(s, s', Reads, t, o);
    SumFrame(s, s', Waits, t, o);
    SumFrame(s, s', Claims, t, o);
    BossFrame(s, s', t, o, Sum(s'.threads, Waits));
    ThreadsFrame(s, s', t, o);
    QueueFrame(s, s', t, o);
  }

  // ------------------------------------------------- each step pays its dues

  /** What the invariant says about thread `t`, without quantifiers. */
  predicate View(s: State, t: nat, boss: Thread, r: int, q: int, c: int) {
    && t < |s.threads|
    && SharedOk(s, boss, r, q, c)
    && ThreadOk(s, boss, t)
    && (s.owner == Some(t) ==> boss == s.threads[t])
    && (s.owner == None ==> boss == Thread(Idle, 0, 0))
    && Reads(s.threads[t]) <= r && Waits(s.threads[t]) <= q
    && r + q + Claims(s.threads[t]) <= c + Reads(s.threads[t]) + Waits(s.threads[t])
    && (s.queue != [] ==> s.queue[0] < |s.threads| && s.threads[s.queue[0]].pc == ReadSleep)
  }

  /** Claims that no field of the word counts yet. */
  function Unseen(th: Thread): nat { Claims(th) - Reads(th) - Waits(th) }
  function Seen(th: Thread): nat { Reads(th) + Waits(th) }

  lemma Views(s: State, t: nat)
    requires Inv(s) && t < |s.threads|
    ensures View(s, t, Boss(s), Sum(s.threads, Reads), Sum(s.threads, Waits), Sum(s.threads, Claims))
  {
    SumAtLeast(s.threads, Reads, t);
    SumAtLeast(s.threads, Waits, t);
    SumAtLeast(s.threads, Claims, t);
    SumAtLeast(s.threads, Unseen, t);
    SumAdd(s.threads, Reads, Waits, Seen);
    SumAdd(s.threads, Seen, Unseen, Claims);
  }

  /** The thread is not between _wmtx.lock() and _wmtx.unlock(), unless as a writer. */
  predicate Bystander(pc: Pc) {
    !Entering(pc) && !Leaving(pc)
  }

  /** What a step of a reader owes the invariant. */
  predicate ReaderDelta(s: State, s': State, t: nat, boss: Thread, r: int, q: int, c: int)
    requires t < |s.threads|
  {
    && |s'.threads| == |s.threads|
    && var th, th' := s.threads[t], s'.threads[t];
    && s'.threads == s.threads[t := th']
    && Bystander(th.pc) && Bystander(th'.pc) && th'.writeHolds == th.writeHolds
    && th.pc != ReadPopped && th.pc != ReadGranted && th'.pc != ReadPopped && th'.pc != ReadGranted
    && s'.owner == s.owner && s'.depth == s.depth && s'.asserts
    && LocalOk(th') && (Committed(th'.pc) ==> Serving(boss))
    && (OnTheWay(th'.pc) <==> s'.last == Some(t))
    && (th'.pc.LastStore? ==> s.owner == Some(th'.pc.writer))
    && (s'.last == s.last || ((s.last == None || s.last == Some(t)) && (s'.last == None || s'.last == Some(t))))
    && QueueDelta(s, s', t, t)
    && 0 <= r && 0 <= q && r + q <= c <= MAX_READERS
    && s'.word == Pack(HoldsBit(boss), Pends(boss.pc), r, q)
    && WaitOk(s', boss, r)
  }

  lemma ReaderStep(s: State, s': State, t: nat, boss: Thread, r: int, q: int, c: int)
    requires View(s, t, boss, r, q, c)
    requires |s'.threads| == |s.threads|
    requires ReaderDelta(s, s', t, boss, r + GainReads(s, s', t, t), q + GainWaits(s, s', t, t),
                         c + GainClaims(s, s', t, t))
    ensures StepOk(s, s', t, t, boss, r, q, c)
  {
  }

  /** A reader moves on without touching the shared state. */
  lemma ReaderMoveOk(s: State, t: nat, boss: Thread, r: int, q: int, c: int, pc: Pc)
    requires View(s, t, boss, r, q, c)
    requires var pc0 := s.threads[t].pc;
             && Bystander(pc0) && Bystander(pc)
             && pc0 != ReadPopped && pc0 != ReadGranted && pc0 != ReadSleep
             && pc != ReadPopped && pc != ReadGranted && pc != ReadSleep && pc != WriteClearWait
             && !OnTheWay(pc0) && !OnTheWay(pc)
             && CountedPending(pc0) == CountedPending(pc)
             && (Acquiring(pc) && !Acquiring(pc0) ==> c < MAX_READERS)
    requires LocalOk(s.threads[t].(pc := pc)) && (Committed(pc) ==> Serving(boss))
    ensures StepOk(s, Goto(s, t, pc), t, t, boss, r, q, c)
  {
    hide StepOk, Serving;
    var s' := Goto(s, t, pc);
    assert s'.threads[t] == s.threads[t].(pc := pc);
    assert Claims(s.threads[t]) <= Claims(s'.threads[t]) + 1;
    ReaderStep(s, s', t, boss, r, q, c);
  }

  /** A reader becomes an owner by its own compare-and-swap. */
  lemma ReaderAcquireOk(s: State, t: nat, boss: Thread, r: int, q: int, c: int, x: Word)
    requires View(s, t, boss, r, q, c) && s.word < PENDING_WRITER
    requires s.threads[t].pc.ReadTry? || s.threads[t].pc.ReadRetry?
    requires x == Add(s.word, if s.threads[t].pc.ReadTry? then READER_LOCK_INC else READER_LOCK_INC - 1)
    ensures var th := Thread(Idle, s.threads[t].readHolds + 1, s.threads[t].writeHolds);
            StepOk(s, s.(word := x, threads := s.threads[t := th]), t, t, boss, r, q, c)
  {
    hide StepOk, Serving;
    Fields(HoldsBit(boss), Pends(boss.pc), r, q);
    if s.threads[t].pc.ReadTry? {
      AddReader(false, false, r, q);
    } else {
      PromoteReader(false, false, r, q);
    }
    var th := Thread(Idle, s.threads[t].readHolds + 1, s.threads[t].writeHolds);
    ReaderStep(s, s.(word := x, threads := s.threads[t := th]), t, boss, r, q, c);
  }

  lemma RlockOk(s: State, t: nat, boss: Thread, r: int, q: int, c: int, once: bool)
    requires View(s, t, boss, r, q, c) && s.threads[t].pc == Idle && c < MAX_READERS
    ensures StepOk(s, Goto(s, t, ReadLoad(once)), t, t, boss, r, q, c)
  {
    hide StepOk;
    ReaderMoveOk(s, t, boss, r, q, c, ReadLoad(once));
  }

  lemma RunlockOk(s: State, t: nat, boss: Thread, r: int, q: int, c: int)
    requires View(s, t, boss, r, q, c) && s.threads[t].pc == Idle && s.threads[t].readHolds > 0
    ensures StepOk(s, BeginRunlock(s, t), t, t, boss, r, q, c)
  {
    hide StepOk, Serving;
    Fields(HoldsBit(boss), Pends(boss.pc), r, q);
    AddReader(false, Pends(boss.pc), r - 1, q);
    var s' := BeginRunlock(s, t);
    assert s'.word == Pack(false, Pends(boss.pc), r - 1, q);
    assert WaitOk(s', boss, r - 1);
    ReaderStep(s, s', t, boss, r, q, c);
  }

  lemma ReadLoadOk(s: State, t: nat, boss: Thread, r: int, q: int, c: int, once: bool)
    requires View(s, t, boss, r, q, c) && s.threads[t].pc == ReadLoad(once)
    ensures StepOk(s, ReadLoadStep(s, t, once), t, t, boss, r, q, c)
  {
    hide StepOk;
    Fields(HoldsBit(boss), Pends(boss.pc), r, q);
    ReaderStep(s, ReadLoadStep(s, t, once), t, boss, r, q, c);
  }

  lemma ReadCountOk(s: State, t: nat, boss: Thread, r: int, q: int, c: int, seen: Word)
    requires View(s, t, boss, r, q, c) && s.threads[t].pc == ReadCount(seen)
    ensures StepOk(s, ReadCountStep(s, t, seen), t, t, boss, r, q, c)
  {
    hide StepOk;
    Fields(HoldsBit(boss), Pends(boss.pc), r, q);
    AddPendingReader(HoldsBit(boss), Pends(boss.pc), r, q);
    ReaderStep(s, ReadCountStep(s, t, seen), t, boss, r, q, c);
  }

  lemma ReadPushOk(s: State, t: nat, boss: Thread, r: int, q: int, c: int)
    requires View(s, t, boss, r, q, c) && s.threads[t].pc == ReadPush
    ensures StepOk(s, Goto(s, t, ReadSleep).(queue := s.queue + [t]), t, t, boss, r, q, c)
  {
    hide StepOk;
    ReaderStep(s, Goto(s, t, ReadSleep).(queue := s.queue + [t]), t, boss, r, q, c);
  }

  lemma LastLoadOwnerOk(s: State, t: nat, boss: Thread, r: int, q: int, c: int)
    requires View(s, t, boss, r, q, c) && s.threads[t].pc == LastLoadOwner
    ensures StepOk(s, LastLoadOwnerStep(s, t), t, t, boss, r, q, c)
  {
    hide StepOk;
    ReaderStep(s, LastLoadOwnerStep(s, t), t, boss, r, q, c);
  }

  lemma LastStoreOk(s: State, t: nat, boss: Thread, r: int, q: int, c: int)
    requires View(s, t, boss, r, q, c) && s.threads[t].pc.LastStore?
    ensures StepOk(s, Goto(s, t, Idle).(writerWait := false, last := None), t, t, boss, r, q, c)
  {
    hide StepOk;
    ReaderStep(s, Goto(s, t, Idle).(writerWait := false, last := None), t, boss, r, q, c);
  }

  /** What a step of the owner of _wmtx owes the invariant. */
  predicate OwnerDelta(s: State, s': State, t: nat, r: int, q: int, c: int)
    requires t < |s.threads|
  {
    && |s'.threads| == |s.threads|
    && var th, th' := s.threads[t], s'.threads[t];
    && s'.threads == s.threads[t := th']
    && s.owner == Some(t) && s'.owner == Some(t)
    && s'.last == s.last && s'.queue == s.queue && s'.asserts
    && th.pc != ReadSleep && th.pc != ReadPopped && th.pc != ReadGranted && !OnTheWay(th.pc)
    && !th.pc.Grant? && !th.pc.Notify?
    && (Entering(th'.pc) || Leaving(th'.pc) || ((th'.pc == Idle || th'.pc == WriteClearWait) && th'.writeHolds > 0))
    && !th'.pc.Grant? && !th'.pc.Notify?
    && LocalOk(th') && DepthOk(th', s'.depth)
    && (Serving(th) ==> Serving(th') || q == 0)
    && 0 <= r && 0 <= q && r + q <= c <= MAX_READERS
    && s'.word == Pack(HoldsBit(th'), Pends(th'.pc), r, q)
    && WaitOk(s', th', r)
  }

  lemma OwnerStep(s: State, s': State, t: nat, r: int, q: int, c: int)
    requires t < |s.threads| && View(s, t, s.threads[t], r, q, c)
    requires |s'.threads| == |s.threads|
    requires OwnerDelta(s, s', t, r + GainReads(s, s', t, t), q + GainWaits(s, s', t, t),
                        c + GainClaims(s, s', t, t))
    ensures StepOk(s, s', t, t, s.threads[t], r, q, c)
  {}

  lemma LockMutexOk(s: State, t: nat, boss: Thread, r: int, q: int, c: int, pc: Pc)
    requires View(s, t, boss, r, q, c) && s.threads[t].pc == Idle && MutexFree(s, t) && (pc == WriteCheck || pc == TryLoad(false) || (pc == TryLoad(true) && s.threads[t].readHolds > 0))
    ensures StepOk(s, LockMutex(s, t, pc), t, t, boss, r, q, c)
  {
  }

  lemma WunlockOk(s: State, t: nat, r: int, q: int, c: int)
    requires t < |s.threads| && View(s, t, s.threads[t], r, q, c)
    requires s.threads[t].pc == Idle && s.threads[t].writeHolds > 0
    ensures StepOk(s, BeginWunlock(s, t), t, t, s.threads[t], r, q, c)
  {
    hide StepOk;
    Fields(HoldsBit(s.threads[t]), Pends(s.threads[t].pc), r, q);
    OwnerStep(s, BeginWunlock(s, t), t, r, q, c);
  }

  lemma DowngradeOk(s: State, t: nat, r: int, q: int, c: int)
    requires t < |s.threads| && View(s, t, s.threads[t], r, q, c)
    requires s.threads[t].pc == Idle && s.threads[t].writeHolds > 0 && c < MAX_READERS
    ensures StepOk(s, BeginDowngrade(s, t), t, t, s.threads[t], r, q, c)
  {
    hide StepOk;
    Fields(HoldsBit(s.threads[t]), Pends(s.threads[t].pc), r, q);
    OwnerStep(s, BeginDowngrade(s, t), t, r, q, c);
  }

  lemma WriteCheckOk(s: State, t: nat, r: int, q: int, c: int)
    requires t < |s.threads| && View(s, t, s.threads[t], r, q, c)
    requires s.threads[t].pc == WriteCheck
    ensures StepOk(s, WriteCheckStep(s, t), t, t, s.threads[t], r, q, c)
  {
    hide StepOk;
    Fields(HoldsBit(s.threads[t]), Pends(s.threads[t].pc), r, q);
    OwnerStep(s, WriteCheckStep(s, t), t, r, q, c);
  }

  lemma WriteSetWaitOk(s: State, t: nat, r: int, q: int, c: int)
    requires t < |s.threads| && View(s, t, s.threads[t], r, q, c)
    requires s.threads[t].pc == WriteSetWait
    ensures StepOk(s, Goto(s, t, WriteAnnounce).(writerWait := true), t, t, s.threads[t], r, q, c)
  {
    hide StepOk;
    OwnerStep(s, Goto(s, t, WriteAnnounce).(writerWait := true), t, r, q, c);
  }

  lemma WriteAnnounceOk(s: State, t: nat, r: int, q: int, c: int)
    requires t < |s.threads| && View(s, t, s.threads[t], r, q, c)
    requires s.threads[t].pc == WriteAnnounce
    ensures StepOk(s, WriteAnnounceStep(s, t), t, t, s.threads[t], r, q, c)
  {
    hide StepOk;
    Fields(HoldsBit(s.threads[t]), Pends(s.threads[t].pc), r, q);
    Fields(false, true, r, q);
    AddPendingWriter(r, q);
    OwnerStep(s, WriteAnnounceStep(s, t), t, r, q, c);
  }

  lemma WriteClearWaitOk(s: State, t: nat, r: int, q: int, c: int)
    requires t < |s.threads| && View(s, t, s.threads[t], r, q, c)
    requires s.threads[t].pc == WriteClearWait
    ensures StepOk(s, Goto(s, t, Idle).(writerWait := false), t, t, s.threads[t], r, q, c)
  {
    hide StepOk;
    OwnerStep(s, Goto(s, t, Idle).(writerWait := false), t, r, q, c);
  }

  lemma WriteSleepOk(s: State, t: nat, r: int, q: int, c: int)
    requires t < |s.threads| && View(s, t, s.threads[t], r, q, c)
    requires s.threads[t].pc == WriteSleep && !s.writerWait
    ensures StepOk(s, Goto(s, t, WriteAdd), t, t, s.threads[t], r, q, c)
  {
    hide StepOk;
    OwnerStep(s, Goto(s, t, WriteAdd), t, r, q, c);
  }

  lemma WriteAddOk(s: State, t: nat, r: int, q: int, c: int)
    requires t < |s.threads| && View(s, t, s.threads[t], r, q, c)
    requires s.threads[t].pc == WriteAdd
    ensures StepOk(s, WriteAddStep(s, t), t, t, s.threads[t], r, q, c)
  {
    hide StepOk;
    AddPendingWriter(r, q);
    OwnerStep(s, WriteAddStep(s, t), t, r, q, c);
  }

  lemma TryLoadOk(s: State, t: nat, r: int, q: int, c: int, upgrade: bool)
    requires t < |s.threads| && View(s, t, s.threads[t], r, q, c)
    requires s.threads[t].pc == TryLoad(upgrade)
    ensures StepOk(s, TryLoadStep(s, t, upgrade), t, t, s.threads[t], r, q, c)
  {
    hide StepOk;
    Fields(HoldsBit(s.threads[t]), Pends(s.threads[t].pc), r, q);
    OwnerStep(s, TryLoadStep(s, t, upgrade), t, r, q, c);
  }

  lemma UnlockClearOk(s: State, t: nat, r: int, q: int, c: int)
    requires t < |s.threads| && View(s, t, s.threads[t], r, q, c)
    requires s.threads[t].pc == UnlockClear
    ensures StepOk(s, UnlockClearStep(s, t), t, t, s.threads[t], r, q, c)
  {
    hide StepOk;
    Fields(HoldsBit(s.threads[t]), Pends(s.threads[t].pc), r, q);
    SwitchWriter(true, false, r, q);
    OwnerStep(s, UnlockClearStep(s, t), t, r, q, c);
  }

  lemma DownLoadOk(s: State, t: nat, r: int, q: int, c: int)
    requires t < |s.threads| && View(s, t, s.threads[t], r, q, c)
    requires s.threads[t].pc == DownLoad
    ensures StepOk(s, DownLoadStep(s, t), t, t, s.threads[t], r, q, c)
  {
    hide StepOk;
    Fields(HoldsBit(s.threads[t]), Pends(s.threads[t].pc), r, q);
    OwnerStep(s, DownLoadStep(s, t), t, r, q, c);
  }

  lemma DownTryOk(s: State, t: nat, r: int, q: int, c: int, seen: Word)
    requires t < |s.threads| && View(s, t, s.threads[t], r, q, c)
    requires s.threads[t].pc == DownTry(seen)
    ensures StepOk(s, DownTryStep(s, t, seen), t, t, s.threads[t], r, q, c)
  {
    hide StepOk;
    Fields(HoldsBit(s.threads[t]), Pends(s.threads[t].pc), r, q);
    SwitchWriter(true, false, r, q);
    AddReader(false, false, r, q);
    OwnerStep(s, DownTryStep(s, t, seen), t, r, q, c);
  }

  lemma CountPendingOk(s: State, t: nat, r: int, q: int, c: int)
    requires t < |s.threads| && View(s, t, s.threads[t], r, q, c)
    requires s.threads[t].pc == DownCount || s.threads[t].pc == ServeReload
    ensures StepOk(s, Goto(s, t, Serve(Pending(s.word))), t, t, s.threads[t], r, q, c)
  {
    hide StepOk;
    Fields(HoldsBit(s.threads[t]), Pends(s.threads[t].pc), r, q);
    OwnerStep(s, Goto(s, t, Serve(Pending(s.word))), t, r, q, c);
  }

  lemma WriteWaitOk(s: State, t: nat, r: int, q: int, c: int)
    requires t < |s.threads| && View(s, t, s.threads[t], r, q, c)
    requires s.threads[t].pc.WriteTry? && Owning(s.threads[t].pc.seen) != 0
    ensures StepOk(s, Goto(s, t, WriteSleep), t, t, s.threads[t], r, q, c)
  {
    hide StepOk;
    OwnerStep(s, Goto(s, t, WriteSleep), t, r, q, c);
  }

  lemma WriteTakeOk(s: State, t: nat, r: int, q: int, c: int)
    requires t < |s.threads| && View(s, t, s.threads[t], r, q, c)
    requires s.threads[t].pc == WriteTry(s.word) && Owning(s.word) == 0
    ensures StepOk(s, WriteTryStep(s, t, s.word), t, t, s.threads[t], r, q, c)
  {
    hide StepOk;
    Fields(HoldsBit(s.threads[t]), Pends(s.threads[t].pc), r, q);
    SwitchWriter(false, true, r, q);
    OwnerStep(s, WriteTryStep(s, t, s.word), t, r, q, c);
  }

  lemma TryTakeOk(s: State, t: nat, r: int, q: int, c: int, upgrade: bool)
    requires t < |s.threads| && View(s, t, s.threads[t], r, q, c)
    requires s.threads[t].pc == TryTake(s.word, upgrade)
    ensures StepOk(s, TryTakeStep(s, t, s.word, upgrade), t, t, s.threads[t], r, q, c)
  {
    hide StepOk;
    Fields(HoldsBit(s.threads[t]), Pends(s.threads[t].pc), r, q);
    SwitchWriter(false, false, r, q);
    OwnerStep(s, TryTakeStep(s, t, s.word, upgrade), t, r, q, c);
  }

  lemma TryFailOk(s: State, t: nat, r: int, q: int, c: int)
    requires t < |s.threads| && View(s, t, s.threads[t], r, q, c)
    requires s.threads[t].pc.TryTake?
    ensures StepOk(s, Goto(s, t, TryRelease), t, t, s.threads[t], r, q, c)
  {
    hide StepOk;
    OwnerStep(s, Goto(s, t, TryRelease), t, r, q, c);
  }

  lemma ServeDoneOk(s: State, t: nat, r: int, q: int, c: int)
    requires t < |s.threads| && View(s, t, s.threads[t], r, q, c)
    requires s.threads[t].pc == Serve(0)
    ensures StepOk(s, Goto(s, t, Release), t, t, s.threads[t], r, q, c)
  {
    hide StepOk;
    OwnerStep(s, Goto(s, t, Release), t, r, q, c);
  }

  lemma ServeAgainOk(s: State, t: nat, r: int, q: int, c: int)
    requires t < |s.threads| && View(s, t, s.threads[t], r, q, c)
    requires s.threads[t].pc.Serve? && s.threads[t].pc.pending > 0
    ensures StepOk(s, Goto(s, t, ServeReload), t, t, s.threads[t], r, q, c)
  {
    hide StepOk;
    OwnerStep(s, Goto(s, t, ServeReload), t, r, q, c);
  }

  lemma WriteRetryOk(s: State, t: nat, r: int, q: int, c: int)
    requires t < |s.threads| && View(s, t, s.threads[t], r, q, c)
    requires s.threads[t].pc.WriteTry? && Owning(s.threads[t].pc.seen) == 0
    ensures StepOk(s, Goto(s, t, WriteTry(s.word)), t, t, s.threads[t], r, q, c)
  {
    hide StepOk;
    Fields(HoldsBit(s.threads[t]), Pends(s.threads[t].pc), r, q);
    OwnerStep(s, Goto(s, t, WriteTry(s.word)), t, r, q, c);
  }

  lemma DownRetryOk(s: State, t: nat, r: int, q: int, c: int)
    requires t < |s.threads| && View(s, t, s.threads[t], r, q, c)
    requires s.threads[t].pc.DownTry?
    ensures StepOk(s, Goto(s, t, DownTry(s.word)), t, t, s.threads[t], r, q, c)
  {
    hide StepOk;
    OwnerStep(s, Goto(s, t, DownTry(s.word)), t, r, q, c);
  }

  /** The owner of _wmtx that keeps neither bit and nobody waiting gives it back. */
  predicate Leaves(s: State, s': State, t: nat) {
    && t < |s.threads| && s.owner == Some(t) && s.last == None
    && (s.threads[t].pc == TryRelease || s.threads[t].pc == Release) && s.threads[t].writeHolds == 0
    && s' == s.(owner := None, depth := 0, threads := s.threads[t := Thread(Idle, s.threads[t].readHolds, 0)])
  }

  lemma LeaveShared(s: State, s': State, t: nat, r: int, q: int, c: int)
    requires Leaves(s, s', t) && SharedOk(s, s.threads[t], r, q, c)
    ensures SharedOk(s', Thread(Idle, 0, 0), r, q, c)
  {}

  lemma LeaveThread(s: State, s': State, t: nat)
    requires Leaves(s, s', t) && ThreadOk(s, s.threads[t], t)
    ensures ThreadOk(s', Thread(Idle, 0, 0), t)
  {}

  lemma LeaveStep(s: State, s': State, t: nat, r: int, q: int, c: int)
    requires Leaves(s, s', t) && SharedOk(s, s.threads[t], r, q, c) && ThreadOk(s, s.threads[t], t)
    ensures StepOk(s, s', t, t, s.threads[t], r, q, c)
  {
    hide SharedOk, ThreadOk, SharedDelta, QueueDelta, GainReads, GainWaits, GainClaims, OthersSame, NextBoss, Leaves;
    LeaveShared(s, s', t, r, q, c);
    LeaveThread(s, s', t);
    LeaveDelta(s, s', t, q);
  }

  lemma LeaveDelta(s: State, s': State, t: nat, q: int)
    requires Leaves(s, s', t)
    ensures OthersSame(s, s', t, t) && NextBoss(s', t, s.threads[t]) == Thread(Idle, 0, 0)
    ensures GainReads(s, s', t, t) == 0 && GainWaits(s, s', t, t) == 0 && GainClaims(s, s', t, t) == 0
    ensures SharedDelta(s, s', t, t, s.threads[t], q) && QueueDelta(s, s', t, t)
  {}

  lemma TryReleaseOk(s: State, t: nat, r: int, q: int, c: int)
    requires t < |s.threads| && View(s, t, s.threads[t], r, q, c) && s.threads[t].pc == TryRelease
    ensures StepOk(s, TryReleaseStep(s, t), t, t, s.threads[t], r, q, c)
  {
    hide StepOk;
    if s.threads[t].writeHolds == 0 {
      LeaveStep(s, TryReleaseStep(s, t), t, r, q, c);
    } else {
      OwnerStep(s, TryReleaseStep(s, t), t, r, q, c);
    }
  }

  lemma ReleaseOk(s: State, t: nat, r: int, q: int, c: int)
    requires t < |s.threads| && View(s, t, s.threads[t], r, q, c) && s.threads[t].pc == Release
    ensures StepOk(s, Goto(s, t, Idle).(owner := None, depth := 0), t, t, s.threads[t], r, q, c)
  {
    hide StepOk;
    assert LocalOk(s.threads[t]) && WaitOk(s, s.threads[t], r);
    LeaveStep(s, Goto(s, t, Idle).(owner := None, depth := 0), t, r, q, c);
  }

  /** What wake_pending_readers() owes the invariant when it touches a reader. */
  predicate PairDelta(s: State, s': State, t: nat, o: nat, r: int, q: int, c: int)
    requires t < |s.threads| && o < |s.threads|
  {
    && |s'.threads| == |s.threads| && o != t
    && var th, th', x, x' := s.threads[t], s'.threads[t], s.threads[o], s'.threads[o];
    && s'.threads == s.threads[t := th'][o := x']
    && s.owner == Some(t) && s'.owner == Some(t) && s'.depth == s.depth
    && s'.last == s.last && s'.writerWait == s.writerWait && s'.asserts
    && (th.pc.Serve? || th.pc == Grant(o) || (th.pc.Notify? && th.pc.reader == o))
    && th'.writeHolds == 0 && x'.writeHolds == x.writeHolds
    && (x.pc == ReadSleep || x.pc == ReadPopped || x.pc == ReadGranted)
    && (|| (th'.pc == Grant(o) && x'.pc == ReadPopped)
        || (th'.pc.Notify? && th'.pc.reader == o && th'.pc.pending > 0 && x'.pc == ReadGranted)
        || (th'.pc.Serve? && th'.pc.pending > 0 && x'.pc == ReadWoken))
    && QueueDelta(s, s', t, o)
    && 0 <= r && 0 <= q && r + q <= c <= MAX_READERS
    && s'.word == Pack(false, false, r, q)
  }

  lemma PairStep(s: State, s': State, t: nat, o: nat, r: int, q: int, c: int)
    requires t < |s.threads| && View(s, t, s.threads[t], r, q, c) && View(s, o, s.threads[t], r, q, c)
    requires |s'.threads| == |s.threads|
    requires PairDelta(s, s', t, o, r + GainReads(s, s', t, o), q + GainWaits(s, s', t, o),
                       c + GainClaims(s, s', t, o))
    ensures StepOk(s, s', t, o, s.threads[t], r, q, c)
  {}

  lemma ServePopOk(s: State, t: nat, r: int, q: int, c: int, pending: nat)
    requires t < |s.threads| && View(s, t, s.threads[t], r, q, c) && s.threads[t].pc == Serve(pending)
    requires pending > 0 && s.queue != [] && View(s, s.queue[0], s.threads[t], r, q, c)
    ensures StepOk(s, ServeStep(s, t, pending), t, s.queue[0], s.threads[t], r, q, c)
  {
    hide StepOk;
    PairStep(s, ServeStep(s, t, pending), t, s.queue[0], r, q, c);
  }

  lemma GrantOk(s: State, t: nat, r: int, q: int, c: int, reader: nat)
    requires t < |s.threads| && View(s, t, s.threads[t], r, q, c) && s.threads[t].pc == Grant(reader)
    requires View(s, reader, s.threads[t], r, q, c)
    ensures StepOk(s, GrantStep(s, t, reader), t, reader, s.threads[t], r, q, c)
  {
    hide StepOk, Serving, Committed, DepthOk, WaitOk;
    Fields(false, false, r, q);
    PromoteReader(false, false, r, q);
    var s', x := GrantStep(s, t, reader), s.threads[reader];
    assert s'.threads[reader] == Thread(ReadGranted, x.readHolds + 1, x.writeHolds);
    assert s'.threads[t] == s.threads[t].(pc := Notify(reader, q));
    assert s'.word == Pack(false, false, r + 1, q - 1);
    PairStep(s, s', t, reader, r, q, c);
  }

  lemma NotifyOk(s: State, t: nat, r: int, q: int, c: int, reader: nat, pending: nat)
    requires t < |s.threads| && View(s, t, s.threads[t], r, q, c) && s.threads[t].pc == Notify(reader, pending)
    requires View(s, reader, s.threads[t], r, q, c)
    ensures StepOk(s, NotifyStep(s, t, reader, pending), t, reader, s.threads[t], r, q, c)
  {
    hide StepOk;
    PairStep(s, NotifyStep(s, t, reader, pending), t, reader, r, q, c);
  }

  // ------------------------------------------------------------ all the steps

  lemma InitInv(n: nat)
    ensures Inv(Init(n))
  {
    SumZero(Init(n).threads, Reads);
    SumZero(Init(n).threads, Waits);
    SumZero(Init(n).threads, Claims);
  }

  /** Only the owner of _wmtx is inside the writer's code. */
  lemma BossIs(s: State, t: nat)
    requires Inv(s) && t < |s.threads| && (Entering(s.threads[t].pc) || Leaving(s.threads[t].pc) || s.threads[t].writeHolds > 0)
    ensures s.owner == Some(t) && Boss(s) == s.threads[t]
  {
    assert ThreadOk(s, Boss(s), t);
  }

  /** A failed compare-and-swap of a reader leaves the current word with it. */
  lemma ReaderRefreshOk(s: State, t: nat, boss: Thread, r: int, q: int, c: int)
    requires View(s, t, boss, r, q, c)
    requires (s.threads[t].pc.ReadTry? || s.threads[t].pc.ReadRetry?) && s.threads[t].pc.seen < PENDING_WRITER
    ensures StepOk(s, Refresh(s, t), t, t, boss, r, q, c)
  {
    hide StepOk;
    Fields(HoldsBit(boss), Pends(boss.pc), r, q);
    var pc := s.threads[t].pc;
    ReaderMoveOk(s, t, boss, r, q, c, if pc.ReadTry? then ReadTry(s.word, pc.once) else ReadRetry(s.word));
  }

  /** A reader that saw a writer stops trying. */
  lemma ReaderStopOk(s: State, t: nat, boss: Thread, r: int, q: int, c: int, pc: Pc)
    requires View(s, t, boss, r, q, c)
    requires var pc0 := s.threads[t].pc;
             || (pc0.ReadTry? && pc == (if pc0.once then Idle else ReadCount(pc0.seen)))
             || (pc0.ReadRetry? && pc0.seen >= PENDING_WRITER && pc == ReadPush)
    ensures StepOk(s, Goto(s, t, pc), t, t, boss, r, q, c)
  {
    hide StepOk;
    ReaderMoveOk(s, t, boss, r, q, c, pc);
  }

  lemma ReadTryInv(s: State, t: nat, seen: Word, once: bool)
    requires Inv(s) && t < |s.threads| && s.threads[t].pc == ReadTry(seen, once)
    ensures Inv(ReadTryStep(s, t, seen, once))
  {
    hide Sum, Inv, StepOk, View;
    Views(s, t);
    var r, q, c := Sum(s.threads, Reads), Sum(s.threads, Waits), Sum(s.threads, Claims);
    if seen >= PENDING_WRITER {
      ReaderStopOk(s, t, Boss(s), r, q, c, if once then Idle else ReadCount(seen));
    } else if s.word == seen {
      ReaderAcquireOk(s, t, Boss(s), r, q, c, Add(seen, READER_LOCK_INC));
    } else {
      ReaderRefreshOk(s, t, Boss(s), r, q, c);
    }
    Kept(s, ReadTryStep(s, t, seen, once), t, t);
  }

  lemma ReadRetryInv(s: State, t: nat, seen: Word)
    requires Inv(s) && t < |s.threads| && s.threads[t].pc == ReadRetry(seen)
    ensures Inv(ReadRetryStep(s, t, seen))
  {
    hide Sum, Inv, StepOk, View;
    Views(s, t);
    var r, q, c := Sum(s.threads, Reads), Sum(s.threads, Waits), Sum(s.threads, Claims);
    if seen >= PENDING_WRITER {
      ReaderStopOk(s, t, Boss(s), r, q, c, ReadPush);
    } else if s.word == seen {
      ReaderAcquireOk(s, t, Boss(s), r, q, c, Add(seen, READER_LOCK_INC - 1));
    } else {
      ReaderRefreshOk(s, t, Boss(s), r, q, c);
    }
    Kept(s, ReadRetryStep(s, t, seen), t, t);
  }

  /** rlock(), try_rlock() and runlock(). */
  lemma ReaderInv(s: State, t: nat)
    requires Inv(s) && t < |s.threads| && CanStep(s, s.threads[t].pc) && Bystander(s.threads[t].pc)
    requires s.threads[t].pc != WriteClearWait
    ensures Inv(StepCall(s, t))
  {
    hide Sum, Inv, View, StepOk, ReadLoadStep, ReadTryStep, ReadCountStep, ReadRetryStep, LastLoadOwnerStep, LocalOk, Serving, Claims, Committed, Waits;
    Views(s, t);
    var r, q, c := Sum(s.threads, Reads), Sum(s.threads, Waits), Sum(s.threads, Claims);
    var boss, s' := Boss(s), StepCall(s, t);
    match s.threads[t].pc
    case ReadLoad(once) => ReadLoadOk(s, t, boss, r, q, c, once); Kept(s, s', t, t);
    case ReadTry(seen, once) => ReadTryInv(s, t, seen, once);
    case ReadCount(seen) => ReadCountOk(s, t, boss, r, q, c, seen); Kept(s, s', t, t);
    case ReadRetry(seen) => ReadRetryInv(s, t, seen);
    case ReadPush => ReadPushOk(s, t, boss, r, q, c); Kept(s, s', t, t);
    case ReadWoken => ReadWokenOk(s, t, boss, r, q, c); Kept(s, s', t, t);
    case LastLoadOwner => LastLoadOwnerOk(s, t, boss, r, q, c); Kept(s, s', t, t);
    case LastStore(_) => LastStoreOk(s, t, boss, r, q, c); Kept(s, s', t, t);
  }

  lemma ReadWokenOk(s: State, t: nat, boss: Thread, r: int, q: int, c: int)
    requires View(s, t, boss, r, q, c) && s.threads[t].pc == ReadWoken
    ensures StepOk(s, Goto(s, t, Idle), t, t, boss, r, q, c)
  {
    hide StepOk;
    ReaderMoveOk(s, t, boss, r, q, c, Idle);
  }

  lemma WriteTryInv(s: State, t: nat, seen: Word)
    requires Inv(s) && t < |s.threads| && s.threads[t].pc == WriteTry(seen)
    ensures Inv(WriteTryStep(s, t, seen))
  {
    hide Sum, Inv, StepOk, View;
    BossIs(s, t);
    Views(s, t);
    var r, q, c := Sum(s.threads, Reads), Sum(s.threads, Waits), Sum(s.threads, Claims);
    if Owning(seen) != 0 {
      WriteWaitOk(s, t, r, q, c);
    } else if s.word == seen {
      WriteTakeOk(s, t, r, q, c);
    } else {
      WriteRetryOk(s, t, r, q, c);
    }
    Kept(s, WriteTryStep(s, t, seen), t, t);
  }

  lemma TryTakeInv(s: State, t: nat, seen: Word, upgrade: bool)
    requires Inv(s) && t < |s.threads| && s.threads[t].pc == TryTake(seen, upgrade)
    ensures Inv(TryTakeStep(s, t, seen, upgrade))
  {
    hide Sum, Inv, StepOk, View;
    BossIs(s, t);
    Views(s, t);
    var r, q, c := Sum(s.threads, Reads), Sum(s.threads, Waits), Sum(s.threads, Claims);
    if s.word == seen {
      TryTakeOk(s, t, r, q, c, upgrade);
    } else {
      TryFailOk(s, t, r, q, c);
    }
    Kept(s, TryTakeStep(s, t, seen, upgrade), t, t);
  }

  /** wlock(), try_wlock() and try_upgrade(). */
  lemma EnterInv(s: State, t: nat)
    requires Inv(s) && t < |s.threads| && CanStep(s, s.threads[t].pc)
    requires Entering(s.threads[t].pc)
    ensures Inv(StepCall(s, t))
  {
    hide Sum, Inv, View, StepOk, WriteCheckStep, WriteAnnounceStep, WriteTryStep, WriteAddStep, TryLoadStep, TryTakeStep, TryReleaseStep;
    Views(s, t);
    BossIs(s, t);
    var r, q, c := Sum(s.threads, Reads), Sum(s.threads, Waits), Sum(s.threads, Claims);
    var s' := StepCall(s, t);
    match s.threads[t].pc
    case WriteCheck => WriteCheckOk(s, t, r, q, c); Kept(s, s', t, t);
    case WriteSetWait => WriteSetWaitOk(s, t, r, q, c); Kept(s, s', t, t);
    case WriteAnnounce => WriteAnnounceOk(s, t, r, q, c); Kept(s, s', t, t);
    case WriteTry(seen) => WriteTryInv(s, t, seen);
    case WriteSleep => WriteSleepOk(s, t, r, q, c); Kept(s, s', t, t);
    case WriteAdd => WriteAddOk(s, t, r, q, c); Kept(s, s', t, t);
    case TryLoad(upgrade) => TryLoadOk(s, t, r, q, c, upgrade); Kept(s, s', t, t);
    case TryTake(seen, upgrade) => TryTakeInv(s, t, seen, upgrade);
    case TryRelease => TryReleaseOk(s, t, r, q, c); Kept(s, s', t, t);
  }

  lemma WriteClearWaitInv(s: State, t: nat)
    requires Inv(s) && t < |s.threads| && s.threads[t].pc == WriteClearWait
    ensures Inv(StepCall(s, t))
  {
    var r, q, c := Sum(s.threads, Reads), Sum(s.threads, Waits), Sum(s.threads, Claims);
    assert LocalOk(s.threads[t]) by { assert ThreadOk(s, Boss(s), t); }
    hide Sum, Inv, View, StepOk;
    Views(s, t);
    BossIs(s, t);
    WriteClearWaitOk(s, t, r, q, c);
    Kept(s, StepCall(s, t), t, t);
  }

  lemma DownTryInv(s: State, t: nat, seen: Word)
    requires Inv(s) && t < |s.threads| && s.threads[t].pc == DownTry(seen)
    ensures Inv(DownTryStep(s, t, seen))
  {
    hide Sum, Inv, StepOk, View;
    BossIs(s, t);
    Views(s, t);
    DownTryOk(s, t, Sum(s.threads, Reads), Sum(s.threads, Waits), Sum(s.threads, Claims), seen);
    Kept(s, DownTryStep(s, t, seen), t, t);
  }

  lemma ServeInv(s: State, t: nat, pending: nat)
    requires Inv(s) && t < |s.threads| && s.threads[t].pc == Serve(pending)
    ensures Inv(ServeStep(s, t, pending))
  {
    hide Sum, Inv, StepOk;
    BossIs(s, t);
    Views(s, t);
    var r, q, c := Sum(s.threads, Reads), Sum(s.threads, Waits), Sum(s.threads, Claims);
    var o := t;
    if pending == 0 {
      ServeDoneOk(s, t, r, q, c);
    } else if s.queue == [] {
      ServeAgainOk(s, t, r, q, c);
    } else {
      o := s.queue[0];
      Views(s, o);
      ServePopOk(s, t, r, q, c, pending);
    }
    Kept(s, ServeStep(s, t, pending), t, o);
  }

  lemma ReaderInRange(s: State, t: nat)
    requires Inv(s) && t < |s.threads| && (s.threads[t].pc.Grant? || s.threads[t].pc.Notify?)
    ensures s.threads[t].pc.reader < |s.threads|
  {
    assert ThreadOk(s, Boss(s), t);
  }

  /** wunlock() and downgrade(). */
  lemma LeaveInv(s: State, t: nat)
    requires Inv(s) && t < |s.threads| && Leaving(s.threads[t].pc)
    ensures Inv(StepCall(s, t))
  {
    hide Sum, Inv, View, StepOk, UnlockClearStep, DownLoadStep, DownTryStep, ServeStep, GrantStep, NotifyStep;
    Views(s, t);
    BossIs(s, t);
    var r, q, c := Sum(s.threads, Reads), Sum(s.threads, Waits), Sum(s.threads, Claims);
    var s' := StepCall(s, t);
    match s.threads[t].pc
    case UnlockClear => UnlockClearOk(s, t, r, q, c); Kept(s, s', t, t);
    case DownLoad => DownLoadOk(s, t, r, q, c); Kept(s, s', t, t);
    case DownTry(seen) => DownTryInv(s, t, seen);
    case DownCount => CountPendingOk(s, t, r, q, c); Kept(s, s', t, t);
    case Serve(pending) => ServeInv(s, t, pending);
    case ServeReload => CountPendingOk(s, t, r, q, c); Kept(s, s', t, t);
    case Grant(reader) =>
      ReaderInRange(s, t);
      Views(s, reader);
      GrantOk(s, t, r, q, c, reader);
      Kept(s, s', t, reader);
    case Notify(reader, pending) =>
      ReaderInRange(s, t);
      Views(s, reader);
      NotifyOk(s, t, r, q, c, reader, pending);
      Kept(s, s', t, reader);
    case Release => ReleaseOk(s, t, r, q, c); Kept(s, s', t, t);
  }

  lemma RefreshInv(s: State, t: nat)
    requires Inv(s) && Enabled(s, t, WeakFail)
    ensures Inv(Refresh(s, t))
  {
    hide Sum, Inv, StepOk, View;
    Views(s, t);
    var r, q, c := Sum(s.threads, Reads), Sum(s.threads, Waits), Sum(s.threads, Claims);
    var pc := s.threads[t].pc;
    if pc.ReadTry? || pc.ReadRetry? {
      ReaderRefreshOk(s, t, Boss(s), r, q, c);
    } else {
      BossIs(s, t);
      if pc.WriteTry? {
        WriteRetryOk(s, t, r, q, c);
      } else {
        DownRetryOk(s, t, r, q, c);
      }
    }
    Kept(s, Refresh(s, t), t, t);
  }

  lemma StepInv(s: State, t: nat, a: Action)
    requires Inv(s) && Enabled(s, t, a) && (a == Step || a == WeakFail)
    ensures Inv(Next(s, t, a))
  {
    hide Inv, StepCall, Refresh;
    var pc := s.threads[t].pc;
    if a == WeakFail { RefreshInv(s, t); }
    else if Entering(pc) { EnterInv(s, t); }
    else if Leaving(pc) { LeaveInv(s, t); }
    else if pc == WriteClearWait { WriteClearWaitInv(s, t); }
    else { ReaderInv(s, t); }
  }

  /** Every action of every thread keeps the invariant. */
  lemma NextInv(s: State, t: nat, a: Action)
    requires Inv(s) && Enabled(s, t, a)
    ensures Inv(Next(s, t, a))
  {
    hide Sum, Inv, View, StepOk, StepCall, Refresh, BeginRunlock, BeginWunlock, BeginDowngrade, LockMutex;
    if a == Step || a == WeakFail {
      StepInv(s, t, a);
      return;
    }
    Views(s, t);
    var r, q, c := Sum(s.threads, Reads), Sum(s.threads, Waits), Sum(s.threads, Claims);
    var boss, s' := Boss(s), Next(s, t, a);
    match a
    case Rlock => RlockOk(s, t, boss, r, q, c, false); Kept(s, s', t, t);
    case TryRlock => RlockOk(s, t, boss, r, q, c, true); Kept(s, s', t, t);
    case Runlock => RunlockOk(s, t, boss, r, q, c); Kept(s, s', t, t);
    case Wlock => LockMutexOk(s, t, boss, r, q, c, WriteCheck); Kept(s, s', t, t);
    case TryWlock => if MutexFree(s, t) { LockMutexOk(s, t, boss, r, q, c, TryLoad(false)); Kept(s, s', t, t); }
    case TryUpgrade => if MutexFree(s, t) { LockMutexOk(s, t, boss, r, q, c, TryLoad(true)); Kept(s, s', t, t); }
    case Wunlock => BossIs(s, t); WunlockOk(s, t, r, q, c); Kept(s, s', t, t);
    case Downgrade => BossIs(s, t); DowngradeOk(s, t, r, q, c); Kept(s, s', t, t);
  }

  lemma {:induction false} RunInv(n: nat, run: seq<State>, i: nat)
    requires IsRun(n, run) && i < |run|
    ensures Inv(run[i])
  {
    hide Inv;
    if i == 0 {
      InitInv(n);
    } else {
      RunInv(n, run, i - 1);
      assert Follows(run[i - 1], run[i]);
      var t: nat, a :| Enabled(run[i - 1], t, a) && run[i] == Next(run[i - 1], t, a);
      NextInv(run[i - 1], t, a);
    }
  }

  // ---------------------------------------------------------------- theorems

  /** The four fields of the word are the numbers they stand for. */
  lemma FieldsAreCounts(n: nat, run: seq<State>, i: nat)
    requires IsRun(n, run) && i < |run|
    ensures var s := run[i];
            && Owning(s.word) == Sum(s.threads, Reads) && Pending(s.word) == Sum(s.threads, Waits)
            && (WriterLocked(s.word) <==> HoldsBit(Boss(s)))
            && (PendingWriter(s.word) <==> Pends(Boss(s).pc))
            && !(WriterLocked(s.word) && (PendingWriter(s.word) || Owning(s.word) > 0))
  {
    RunInv(n, run, i);
    var s := run[i];
    Fields(HoldsBit(Boss(s)), Pends(Boss(s).pc), Sum(s.threads, Reads), Sum(s.threads, Waits));
    if s.owner.Some? {
      assert ThreadOk(s, Boss(s), s.owner.value);
    }
  }

  /** A writer excludes every reader and every other writer. */
  lemma WriterExcludes(n: nat, run: seq<State>, i: nat, t: nat, u: nat)
    requires IsRun(n, run) && i < |run| && t < |run[i].threads| && u < |run[i].threads|
    requires run[i].threads[t].writeHolds > 0
    ensures run[i].threads[u].readHolds == 0
    ensures u != t ==> run[i].threads[u].writeHolds == 0
  {
    RunInv(n, run, i);
    BossIs(run[i], t);
    SumAtLeast(run[i].threads, Reads, u);
    assert ThreadOk(run[i], Boss(run[i]), u);
  }

  /** No assert() of the lock ever fails. */
  lemma AssertsHold(n: nat, run: seq<State>, i: nat)
    requires IsRun(n, run) && i < |run|
    ensures run[i].asserts
  {
    RunInv(n, run, i);
  }

  /** A reader that sleeps, or is about to, has a writer that will wake it. */
  lemma NoStrandedReader(n: nat, run: seq<State>, i: nat, x: nat)
    requires IsRun(n, run) && i < |run| && x < |run[i].threads|
    requires run[i].threads[x].pc == ReadPush || run[i].threads[x].pc == ReadSleep
    ensures run[i].owner.Some? && run[i].owner.value < |run[i].threads|
    ensures Serving(run[i].threads[run[i].owner.value])
  {
    RunInv(n, run, i);
    assert ThreadOk(run[i], Boss(run[i]), x);
  }

  /** A sleeping writer waits for an owning reader, or for the one last reader. */
  lemma NoStrandedWriter(n: nat, run: seq<State>, i: nat, t: nat)
    requires IsRun(n, run) && i < |run| && t < |run[i].threads|
    requires run[i].threads[t].pc == WriteSleep && run[i].writerWait
    ensures Owning(run[i].word) > 0 ||
            exists k :: 0 <= k < |run[i].threads| && OnTheWay(run[i].threads[k].pc) &&
              forall u :: 0 <= u < |run[i].threads| && OnTheWay(run[i].threads[u].pc) ==> u == k
    ensures Owning(run[i].word) > 0 ==> exists k :: 0 <= k < |run[i].threads| && run[i].threads[k].readHolds > 0
  {
    var s := run[i];
    RunInv(n, run, i);
    BossIs(s, t);
    Fields(false, true, Sum(s.threads, Reads), Sum(s.threads, Waits));
    if Sum(s.threads, Reads) > 0 {
      var k := SumWitness(s.threads, Reads);
    } else {
      var k := s.last.value;
      assert ThreadOk(s, Boss(s), k);
      forall u | 0 <= u < |s.threads| && OnTheWay(s.threads[u].pc) ensures u == k {
        assert ThreadOk(s, Boss(s), u);
      }
    }
  }

  /** Two threads never pop the queue of pending readers at the same time. */
  lemma SingleConsumer(n: nat, run: seq<State>, i: nat, t: nat, u: nat)
    requires IsRun(n, run) && i < |run| && t < |run[i].threads| && u < |run[i].threads|
    requires run[i].threads[t].pc.Serve? && run[i].threads[u].pc.Serve?
    ensures t == u
  {
    RunInv(n, run, i);
    BossIs(run[i], t);
    BossIs(run[i], u);
  }

  lemma IdleOwnsNothing(s: State, k: nat)
    requires Inv(s) && k < |s.threads| && s.threads[k] == Thread(Idle, 0, 0)
    ensures s.owner != Some(k) && k !in s.queue
  {
    assert ThreadOk(s, Boss(s), k);
  }

  lemma FreeWord(s: State)
    requires Inv(s) && s.owner == None && Sum(s.threads, Reads) == 0 && Sum(s.threads, Waits) == 0
    ensures s.word == 0 && s.depth == 0
  {}

  lemma QueueInRange(s: State)
    requires Inv(s)
    ensures s.owner.Some? ==> s.owner.value < |s.threads|
    ensures s.queue != [] ==> exists k :: 0 <= k < |s.threads| && k in s.queue
  {
    if s.queue != [] {
      assert s.queue[0] in s.queue;
    }
  }

  /** When every call has returned and nothing is held, the lock is as new. */
  lemma Quiescent(n: nat, run: seq<State>, i: nat)
    requires IsRun(n, run) && i < |run|
    requires forall k :: 0 <= k < |run[i].threads| ==> run[i].threads[k] == Thread(Idle, 0, 0)
    ensures run[i].word == 0 && run[i].queue == [] && run[i].owner == None && run[i].depth == 0
  {
    hide Inv;
    var s := run[i];
    RunInv(n, run, i);
    QueueInRange(s);
    forall k | 0 <= k < |s.threads| ensures s.owner != Some(k) && k !in s.queue {
      IdleOwnsNothing(s, k);
    }
    SumZero(s.threads, Reads);
    SumZero(s.threads, Waits);
    FreeWord(s);
  }
}
