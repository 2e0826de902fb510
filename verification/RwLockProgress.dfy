/**
  Who is reached by the calls in progress and by the releases of the present
  holders of the reader-writer lock: everybody, unless a holder waits for the
  lock again in a way that waits for its own release, and exactly then not.
 */
module RwLockProgress {
  import opened RwWord
  import opened RwLock
  import opened RwLockProof
  import opened Tally

  datatype Move = Move(thread: nat, a: Action)

  /** No new acquisition: a step of a call in progress, or a release. */
  predicate Draining(a: Action) {
    a == Step || a == Runlock || a == Wunlock
  }

  predicate Leads(s: State, ms: seq<Move>, s': State)
    decreases |ms|
  {
    if ms == [] then s' == s
    else
      && Draining(ms[0].a) && Enabled(s, ms[0].thread, ms[0].a)
      && Leads(Next(s, ms[0].thread, ms[0].a), ms[1..], s')
  }

  /** Inside rlock() or wlock(), not yet a holder by this call. */
  predicate Acquires(pc: Pc) {
    || ((pc.ReadLoad? || pc.ReadTry?) && !pc.once)
    || pc.ReadCount? || pc.ReadRetry? || pc == ReadPush || pc == ReadSleep || pc == ReadPopped
    || pc == WriteCheck || pc == WriteSetWait || pc == WriteAnnounce || Pends(pc)
  }

  /** Inside wlock(). */
  predicate Writes(pc: Pc) {
    pc == WriteCheck || pc == WriteSetWait || pc == WriteAnnounce || Pends(pc)
  }

  // ------------------------------------------------ who waits for its own release

  /** A reader inside wlock(). */
  predicate ReaderWrites(th: Thread) {
    Writes(th.pc) && th.readHolds > 0
  }

  /** A writer inside rlock(). */
  predicate WriterReads(th: Thread) {
    Acquires(th.pc) && !Writes(th.pc) && th.writeHolds > 0
  }

  /** A reader inside rlock() or wlock() again. */
  predicate ReaderAgain(th: Thread) {
    Acquires(th.pc) && th.readHolds > 0
  }

  /** Nobody gets in any more: the owner of _wmtx waits for a reader that waits for it, or for itself. */
  ghost predicate Barred(s: State) {
    || WriterReads(Boss(s))
    || (Pends(Boss(s).pc) && exists k :: 0 <= k < |s.threads| && ReaderAgain(s.threads[k]))
  }

  /** The lock can not become free any more. */
  ghost predicate Doomed(s: State) {
    Barred(s) || ReaderWrites(Boss(s))
  }

  /** Thread x does not get the lock. */
  ghost predicate Hopeless(s: State, x: nat) {
    x < |s.threads| && Acquires(s.threads[x].pc) && (Barred(s) || (s.owner == Some(x) && ReaderWrites(s.threads[x])))
  }

  // ---------------------------------------------------------- what is left

  function PcWeight(pc: Pc): nat {
    match pc
    case Idle => 0
    case ReadLoad(_) => 45
    case ReadTry(_, _) => 44
    case ReadCount(_) => 43
    case ReadRetry(_) => 42
    case ReadPush => 41
    case ReadSleep => 40
    case ReadPopped => 30
    case ReadGranted => 3
    case ReadWoken => 2
    case LastLoadOwner => 2
    case LastStore(_) => 1
    case WriteCheck => 30
    case WriteSetWait => 29
    case WriteAnnounce => 28
    case WriteTry(_) => 27
    case WriteClearWait => 2
    case WriteSleep => 26
    case WriteAdd => 25
    case TryLoad(_) => 30
    case TryTake(_, _) => 29
    case TryRelease => 3
    case UnlockClear => 11
    case DownLoad => 60
    case DownTry(_) => 59
    case DownCount => 11
    case Serve(pending) => if pending > 0 then 5 else 4
    case ServeReload => 6
    case Grant(_) => 9
    case Notify(_, _) => 8
    case Release => 3
  }

  /** Steps left in a call, and those of the releases to come. */
  function Weight(th: Thread): nat {
    PcWeight(th.pc) + 8 * th.readHolds + 20 * th.writeHolds
  }

  /** The owner of _wmtx has to read the word again, as no reader is queued. */
  function Extra(s: State, boss: Thread): nat {
    if boss.pc.Serve? && boss.pc.pending > 0 && s.queue == [] then 2 else 0
  }

  function Work(s: State): nat {
    Sum(s.threads, Weight) + Extra(s, Boss(s))
  }

  /** The next compare-and-swap of the thread would fail. */
  function Stale(th: Thread, word: Word): nat {
    match th.pc
    case ReadTry(seen, _) => if seen < PENDING_WRITER && seen != word then 1 else 0
    case ReadRetry(seen) => if seen < PENDING_WRITER && seen != word then 1 else 0
    case WriteTry(seen) => if Owning(seen) == 0 && seen != word then 1 else 0
    case DownTry(seen) => if seen != word then 1 else 0
    case _ => 0
  }

  function StaleAt(word: Word): Thread -> nat {
    th => Stale(th, word)
  }

  /** How the weight of the threads changes with a step of t that also moves o. */
  function Gain(s: State, s': State, t: nat, o: nat): int
    requires |s'.threads| == |s.threads| && t < |s.threads| && o < |s.threads|
  {
    Weight(s'.threads[t]) - Weight(s.threads[t]) + if o == t then 0 else Weight(s'.threads[o]) - Weight(s.threads[o])
  }

  /** The step does some of the work left, or reads the word again for a failed compare-and-swap. */
  ghost predicate Lighter(s: State, s': State, t: nat, o: nat, boss: Thread) {
    && OthersSame(s, s', t, o)
    && var boss' := NextBoss(s', t, boss);
    && (s'.owner == s.owner || s'.owner == None || s'.owner == Some(t))
    && (|| Gain(s, s', t, o) + Extra(s', boss') - Extra(s, boss) < 0
        || (s' == s.(threads := s'.threads) && o == t && Gain(s, s', t, o) == 0 && Extra(s', boss') == Extra(s, boss)
            && Stale(s'.threads[t], s.word) < Stale(s.threads[t], s.word)))
    && Proceeds(s.threads[t], s'.threads[t]) && Proceeds(s.threads[o], s'.threads[o])
  }

  /** A call that acquires ends with one hold more; none begins, and it is announced before it pends. */
  predicate Proceeds(th: Thread, th': Thread) {
    && (Acquires(th.pc) && !Acquires(th'.pc) ==> th'.readHolds + th'.writeHolds > th.readHolds + th.writeHolds)
    && (Acquires(th'.pc) ==>
          && Acquires(th.pc) && th'.readHolds == th.readHolds && th'.writeHolds == th.writeHolds
          && (Writes(th'.pc) <==> Writes(th.pc)) && (Pends(th'.pc) ==> Pends(th.pc) || th.pc == WriteAnnounce))
  }

  lemma StaleSum(s: State, s': State, t: nat)
    requires OthersSame(s, s', t, t)
    ensures Sum(s'.threads, StaleAt(s.word)) ==
              Sum(s.threads, StaleAt(s.word)) + Stale(s'.threads[t], s.word) - Stale(s.threads[t], s.word)
  {
    hide Stale;
    SumFrame(s, s', StaleAt(s.word), t, t);
  }

  lemma BossAfter(s: State, s': State, t: nat, o: nat)
    requires Inv(s) && OthersSame(s, s', t, o) && (o != t ==> s.owner == Some(t))
    requires s'.owner == s.owner || s'.owner == None || s'.owner == Some(t)
    requires o != t ==> s'.owner == s.owner
    ensures Boss(s') == NextBoss(s', t, Boss(s))
  {}

  lemma Drained(s: State, s': State, t: nat, o: nat)
    requires Inv(s) && Lighter(s, s', t, o, Boss(s)) && (o != t ==> s.owner == s'.owner == Some(t))
    ensures Work(s') < Work(s) ||
            (Work(s') == Work(s) && Sum(s'.threads, StaleAt(s'.word)) < Sum(s.threads, StaleAt(s.word)))
  {
    hide Inv, Sum, Weight, Extra, Stale, Boss, NextBoss;
    SumFrame(s, s', Weight, t, o);
    BossAfter(s, s', t, o);
    if s'.word == s.word && o == t {
      StaleSum(s, s', t);
    }
  }

  // ------------------------------------------------------- lighter step by step

  /** A reader, or the last one on its way to the writer, who can go on. */
  predicate Goes(pc: Pc) {
    || pc.ReadLoad? || pc.ReadTry? || pc.ReadCount? || pc.ReadRetry? || pc == ReadPush || pc == ReadWoken
    || OnTheWay(pc)
  }

  /** What is known of the owner of _wmtx. */
  predicate Known(s: State, t: nat, boss: Thread) {
    && t < |s.threads| && (s.owner == Some(t) ==> boss == s.threads[t])
    && (s.owner == None ==> boss == Thread(Idle, 0, 0))
  }

  /** A step that moves one thread is judged by that thread alone. */
  lemma OneMoved(s: State, s': State, t: nat, boss: Thread, th: Thread)
    requires t < |s.threads| && s'.threads == s.threads[t := th]
    requires s'.owner == s.owner || s'.owner == None || s'.owner == Some(t)
    requires var boss' := NextBoss(s', t, boss);
             || Weight(th) + Extra(s', boss') < Weight(s.threads[t]) + Extra(s, boss)
             || (s' == s.(threads := s'.threads) && Weight(th) == Weight(s.threads[t]) && Extra(s', boss') == Extra(s, boss)
                 && Stale(th, s.word) < Stale(s.threads[t], s.word))
    requires Proceeds(s.threads[t], th)
    ensures Lighter(s, s', t, t, boss)
  {
    hide Weight, Extra, Stale, Proceeds, NextBoss;
  }

  /** The same for a step of the owner of _wmtx that keeps it. */
  lemma BossMoved(s: State, s': State, t: nat, boss: Thread, th: Thread)
    requires t < |s.threads| && s.owner == Some(t) == s'.owner && boss == s.threads[t] && s'.threads == s.threads[t := th]
    requires || Weight(th) + Extra(s', th) < Weight(boss) + Extra(s, boss)
             || (s' == s.(threads := s'.threads) && Weight(th) == Weight(boss) && Extra(s', th) == Extra(s, boss)
                 && Stale(th, s.word) < Stale(boss, s.word))
    requires Proceeds(boss, th)
    ensures Lighter(s, s', t, t, boss)
  {
    hide Weight, Extra, Stale, Proceeds;
  }

  /** A step of the owner of _wmtx that also moves a pending reader is judged by both. */
  lemma TwoMoved(s: State, s': State, t: nat, o: nat, boss: Thread)
    requires t < |s.threads| == |s'.threads| && o < |s.threads| && o != t
    requires s'.threads == s.threads[t := s'.threads[t]][o := s'.threads[o]] && s'.owner == s.owner
    requires Weight(s'.threads[t]) + Weight(s'.threads[o]) + Extra(s', NextBoss(s', t, boss))
             < Weight(s.threads[t]) + Weight(s.threads[o]) + Extra(s, boss)
    requires Proceeds(s.threads[t], s'.threads[t]) && Proceeds(s.threads[o], s'.threads[o])
    ensures Lighter(s, s', t, o, boss)
  {
    hide Weight, Extra, Stale, Proceeds, NextBoss;
  }

  lemma RlockLighter(s: State, t: nat, boss: Thread)
    requires Known(s, t, boss) && (s.threads[t].pc.ReadLoad? || s.threads[t].pc.ReadTry?)
    ensures Lighter(s, StepCall(s, t), t, t, boss)
  {
    hide Add, SetPendingWriter, ClearWriter, TakeForWriting, Pending, Owning, PendingWriter, WriterLocked, Lighter;
    var s' := StepCall(s, t);
    OneMoved(s, s', t, boss, s'.threads[t]);
  }

  lemma PendingLighter(s: State, t: nat, boss: Thread)
    requires Known(s, t, boss) && (s.threads[t].pc.ReadCount? || s.threads[t].pc.ReadRetry? || s.threads[t].pc == ReadPush)
    ensures Lighter(s, StepCall(s, t), t, t, boss)
  {
    hide Add, SetPendingWriter, ClearWriter, TakeForWriting, Pending, Owning, PendingWriter, WriterLocked, Lighter;
    var s' := StepCall(s, t);
    OneMoved(s, s', t, boss, s'.threads[t]);
  }

  lemma LastMoves(s: State, t: nat)
    requires t < |s.threads| && (s.threads[t].pc == ReadWoken || OnTheWay(s.threads[t].pc))
    ensures var s' := StepCall(s, t);
            && |s'.threads| == |s.threads| && s'.threads == s.threads[t := s.threads[t].(pc := s'.threads[t].pc)]
            && (s'.threads[t].pc == Idle || (s.threads[t].pc == LastLoadOwner && s'.threads[t].pc.LastStore?))
            && s'.owner == s.owner && s'.queue == s.queue
  {}

  lemma LastLighter(s: State, t: nat, boss: Thread)
    requires Known(s, t, boss) && (s.threads[t].pc == ReadWoken || OnTheWay(s.threads[t].pc))
    ensures Lighter(s, StepCall(s, t), t, t, boss)
  {
    hide StepCall, Lighter;
    LastMoves(s, t);
    var s' := StepCall(s, t);
    OneMoved(s, s', t, boss, s'.threads[t]);
  }

  lemma AnnounceLighter(s: State, t: nat, boss: Thread)
    requires Known(s, t, boss) && s.owner == Some(t) && CanStep(s, boss.pc)
    requires boss.pc == WriteCheck || boss.pc == WriteSetWait || boss.pc == WriteAnnounce
    ensures Lighter(s, StepCall(s, t), t, t, boss)
  {
    hide Add, SetPendingWriter, ClearWriter, TakeForWriting, Pending, Owning, PendingWriter, WriterLocked, Lighter;
    var s' := StepCall(s, t);
    BossMoved(s, s', t, boss, s'.threads[t]);
  }

  lemma WlockLighter(s: State, t: nat, boss: Thread)
    requires Known(s, t, boss) && s.owner == Some(t) && CanStep(s, boss.pc)
    requires Pends(boss.pc)
    ensures Lighter(s, StepCall(s, t), t, t, boss)
  {
    hide Add, SetPendingWriter, ClearWriter, TakeForWriting, Pending, Owning, PendingWriter, WriterLocked, Lighter;
    var s' := StepCall(s, t);
    BossMoved(s, s', t, boss, s'.threads[t]);
  }

  lemma TryLoadLighter(s: State, t: nat, boss: Thread)
    requires Known(s, t, boss) && s.owner == Some(t) && LocalOk(boss)
    requires boss.pc.TryLoad?
    ensures Lighter(s, StepCall(s, t), t, t, boss)
  {
    hide Add, SetPendingWriter, ClearWriter, TakeForWriting, Pending, Owning, PendingWriter, WriterLocked, Lighter;
    var s' := StepCall(s, t);
    BossMoved(s, s', t, boss, s'.threads[t]);
  }

  lemma TryTakeLighter(s: State, t: nat, boss: Thread)
    requires Known(s, t, boss) && s.owner == Some(t) && LocalOk(boss)
    requires boss.pc.TryTake?
    ensures Lighter(s, StepCall(s, t), t, t, boss)
  {
    hide Add, SetPendingWriter, ClearWriter, TakeForWriting, Pending, Owning, PendingWriter, WriterLocked, Lighter;
    var s' := StepCall(s, t);
    BossMoved(s, s', t, boss, s'.threads[t]);
  }

  lemma TryLighter(s: State, t: nat, boss: Thread)
    requires Known(s, t, boss) && s.owner == Some(t) && LocalOk(boss)
    requires boss.pc == TryRelease || boss.pc == WriteClearWait
    ensures Lighter(s, StepCall(s, t), t, t, boss)
  {
    hide Add, SetPendingWriter, ClearWriter, TakeForWriting, Pending, Owning, PendingWriter, WriterLocked, Lighter;
    var s' := StepCall(s, t);
    OneMoved(s, s', t, boss, s'.threads[t]);
  }

  lemma UnlockLighter(s: State, t: nat, boss: Thread)
    requires Known(s, t, boss) && s.owner == Some(t)
    requires boss.pc == UnlockClear || boss.pc == DownCount
    ensures Lighter(s, StepCall(s, t), t, t, boss)
  {
    hide Add, SetPendingWriter, ClearWriter, TakeForWriting, Pending, Owning, PendingWriter, WriterLocked, Lighter;
    var s' := StepCall(s, t);
    BossMoved(s, s', t, boss, s'.threads[t]);
  }

  lemma DowngradeLighter(s: State, t: nat, boss: Thread)
    requires Known(s, t, boss) && s.owner == Some(t)
    requires boss.pc == DownLoad || boss.pc.DownTry?
    ensures Lighter(s, StepCall(s, t), t, t, boss)
  {
    hide Add, SetPendingWriter, ClearWriter, TakeForWriting, Pending, Owning, PendingWriter, WriterLocked, Lighter;
    var s' := StepCall(s, t);
    BossMoved(s, s', t, boss, s'.threads[t]);
  }

  lemma ReloadLighter(s: State, t: nat, boss: Thread)
    requires Known(s, t, boss) && s.owner == Some(t)
    requires boss.pc == ServeReload && (Pending(s.word) > 0 ==> s.queue != [])
    ensures Lighter(s, StepCall(s, t), t, t, boss)
  {
    hide Add, SetPendingWriter, ClearWriter, TakeForWriting, Pending, Owning, PendingWriter, WriterLocked, Lighter;
    var s' := StepCall(s, t);
    BossMoved(s, s', t, boss, s'.threads[t]);
  }

  lemma EmptyLighter(s: State, t: nat, boss: Thread)
    requires Known(s, t, boss) && s.owner == Some(t)
    requires boss.pc.Serve? && boss.pc.pending > 0 && s.queue == []
    ensures Lighter(s, StepCall(s, t), t, t, boss)
  {
    hide Add, SetPendingWriter, ClearWriter, TakeForWriting, Pending, Owning, PendingWriter, WriterLocked, Lighter;
    var s' := StepCall(s, t);
    BossMoved(s, s', t, boss, s'.threads[t]);
  }

  lemma ServedLighter(s: State, t: nat, boss: Thread)
    requires Known(s, t, boss) && s.owner == Some(t) && boss.pc == Serve(0)
    ensures Lighter(s, StepCall(s, t), t, t, boss)
  {
    hide Lighter;
    BossMoved(s, Goto(s, t, Release), t, boss, boss.(pc := Release));
  }

  lemma FreedLighter(s: State, t: nat, boss: Thread)
    requires Known(s, t, boss) && s.owner == Some(t) && boss.pc == Release
    ensures Lighter(s, StepCall(s, t), t, t, boss)
  {
    hide Lighter;
    OneMoved(s, Goto(s, t, Idle).(owner := None, depth := 0), t, boss, boss.(pc := Idle));
  }

  lemma PopLighter(s: State, t: nat, boss: Thread, o: nat)
    requires Known(s, t, boss) && s.owner == Some(t) && o < |s.threads| && o != t
    requires boss.pc.Serve? && boss.pc.pending > 0 && s.queue != [] && o == s.queue[0] && s.threads[o].pc == ReadSleep
    ensures Lighter(s, StepCall(s, t), t, o, boss) && StepCall(s, t).owner == Some(t)
  {
    hide Add, SetPendingWriter, ClearWriter, TakeForWriting, Pending, Owning, PendingWriter, WriterLocked, Lighter;
    var s' := StepCall(s, t);
    assert s'.threads == s.threads[t := s'.threads[t]][o := s'.threads[o]];
    TwoMoved(s, s', t, o, boss);
  }

  lemma GrantWeights(boss: Thread, th: Thread, pending: nat)
    requires th.pc == ReadPopped && boss.pc.Grant?
    ensures var boss', th' := boss.(pc := Notify(boss.pc.reader, pending)), Thread(ReadGranted, th.readHolds + 1, th.writeHolds);
            && Weight(boss') + Weight(th') < Weight(boss) + Weight(th)
            && Proceeds(boss, boss') && Proceeds(th, th')
  {}

  lemma GrantLighter(s: State, t: nat, boss: Thread, o: nat)
    requires Known(s, t, boss) && s.owner == Some(t) && o < |s.threads| && o != t && boss.pc == Grant(o) && s.threads[o].pc == ReadPopped
    ensures Lighter(s, StepCall(s, t), t, o, boss) && StepCall(s, t).owner == Some(t)
  {
    hide Add, Pending, Lighter, Weight, Proceeds;
    var s' := StepCall(s, t);
    GrantWeights(boss, s.threads[o], Pending(s.word));
    assert s'.threads == s.threads[t := s'.threads[t]][o := s'.threads[o]];
    TwoMoved(s, s', t, o, boss);
  }

  lemma NotifyWeights(boss: Thread, th: Thread)
    requires th.pc == ReadGranted && boss.pc.Notify? && boss.pc.pending > 0
    ensures var boss', th' := boss.(pc := Serve(boss.pc.pending)), th.(pc := ReadWoken);
            && Weight(boss') + 2 + Weight(th') < Weight(boss) + Weight(th)
            && Proceeds(boss, boss') && Proceeds(th, th')
  {}

  lemma NotifyLighter(s: State, t: nat, boss: Thread, o: nat)
    requires Known(s, t, boss) && s.owner == Some(t) && o < |s.threads| && o != t && LocalOk(boss)
    requires boss.pc.Notify? && boss.pc.reader == o && s.threads[o].pc == ReadGranted
    ensures Lighter(s, StepCall(s, t), t, o, boss) && StepCall(s, t).owner == Some(t)
  {
    hide Lighter, Weight, Proceeds;
    var s' := StepCall(s, t);
    NotifyWeights(boss, s.threads[o]);
    assert s'.threads == s.threads[t := s'.threads[t]][o := s'.threads[o]];
    TwoMoved(s, s', t, o, boss);
  }

  lemma ReleaseLighter(s: State, t: nat, a: Action, boss: Thread)
    requires Enabled(s, t, a) && (a == Runlock || a == Wunlock)
    requires (s.owner == Some(t) ==> boss == s.threads[t]) && (s.owner == None ==> boss == Thread(Idle, 0, 0))
    ensures Lighter(s, Next(s, t, a), t, t, boss)
  {
    hide Add, SetPendingWriter, ClearWriter, TakeForWriting, Pending, Owning, PendingWriter, WriterLocked, Lighter;
    var s' := Next(s, t, a);
    OneMoved(s, s', t, boss, s'.threads[t]);
  }

  // --------------------------------------------------- somebody can go on

  /** Nobody holds the lock or is inside a call. */
  ghost predicate AllFree(s: State) {
    forall k :: 0 <= k < |s.threads| ==> s.threads[k] == Thread(Idle, 0, 0)
  }

  ghost predicate NobodyGoes(s: State) {
    forall k :: 0 <= k < |s.threads| ==> !Goes(s.threads[k].pc)
  }

  ghost predicate GoodMove(s: State, t: nat, a: Action, o: nat) {
    && Draining(a) && Enabled(s, t, a)
    && Lighter(s, Next(s, t, a), t, o, Boss(s))
    && (o != t ==> s.owner == Next(s, t, a).owner == Some(t))
  }

  lemma BossKnown(s: State, t: nat)
    requires Inv(s) && t < |s.threads|
    ensures Known(s, t, Boss(s)) && ThreadOk(s, Boss(s), t)
    ensures s.owner.Some? ==> s.owner.value < |s.threads| && Boss(s) == s.threads[s.owner.value]
  {}

  lemma GoingMove(s: State, t: nat)
    requires Inv(s) && t < |s.threads| && Goes(s.threads[t].pc)
    ensures GoodMove(s, t, Step, t)
  {
    hide Inv, Lighter, StepCall, ThreadOk;
    BossKnown(s, t);
    var pc := s.threads[t].pc;
    if pc.ReadLoad? || pc.ReadTry? { RlockLighter(s, t, Boss(s)); }
    else if pc == ReadWoken || OnTheWay(pc) { LastLighter(s, t, Boss(s)); }
    else { PendingLighter(s, t, Boss(s)); }
  }

  /** Readers that are counted as pending and cannot go on are queued. */
  lemma PendingIsQueued(s: State)
    requires Inv(s) && NobodyGoes(s) && Boss(s).pc == ServeReload && Pending(s.word) > 0
    ensures s.queue != []
  {
    hide Pending, Pack, Sum;
    Fields(HoldsBit(Boss(s)), Pends(Boss(s).pc), Sum(s.threads, Reads), Sum(s.threads, Waits));
    var k := SumWitness(s.threads, Waits);
    assert ThreadOk(s, Boss(s), k);
    assert s.threads[k].pc == ReadSleep;
  }

  lemma SomebodyGoes(s: State, k: nat)
    requires k < |s.threads| && Goes(s.threads[k].pc)
    ensures !NobodyGoes(s)
  {}

  lemma NoLast(s: State)
    requires Inv(s) && NobodyGoes(s)
    ensures s.last == None
  {
    hide NobodyGoes;
    if s.last.Some? {
      assert ThreadOk(s, Boss(s), s.last.value);
      SomebodyGoes(s, s.last.value);
    }
  }

  /** A writer that waits for readers: one of them is idle and can release. */
  lemma HolderOf(s: State, t: nat) returns (k: nat)
    requires Inv(s) && !Doomed(s) && NobodyGoes(s) && s.owner == Some(t) && Boss(s).pc == WriteSleep && s.writerWait
    ensures k < |s.threads| && Enabled(s, k, Runlock)
  {
    hide Pack, Sum;
    NoLast(s);
    assert Sum(s.threads, Reads) > 0;
    k := SumWitness(s.threads, Reads);
    assert ThreadOk(s, Boss(s), k) && !ReaderAgain(s.threads[k]) && !Goes(s.threads[k].pc);
  }

  lemma EnterMove(s: State, t: nat)
    requires Inv(s) && s.owner == Some(t) && t < |s.threads| && Boss(s) == s.threads[t] && CanStep(s, Boss(s).pc)
    requires Entering(Boss(s).pc) || Boss(s).pc == WriteClearWait
    ensures GoodMove(s, t, Step, t)
  {
    hide Inv, Lighter, StepCall, WriterLocked, Boss;
    BossKnown(s, t);
    var boss := Boss(s);
    if boss.pc.TryLoad? {
      TryLoadLighter(s, t, boss);
    } else if boss.pc.TryTake? {
      TryTakeLighter(s, t, boss);
    } else if boss.pc == TryRelease || boss.pc == WriteClearWait {
      TryLighter(s, t, boss);
    } else if Pends(boss.pc) {
      WlockLighter(s, t, boss);
    } else {
      AnnounceLighter(s, t, boss);
    }
  }

  lemma FirstInQueue(s: State, t: nat)
    requires Inv(s) && s.queue != [] && t < |s.threads| && s.threads[t].pc.Serve?
    ensures s.queue[0] < |s.threads| && s.threads[s.queue[0]].pc == ReadSleep && s.queue[0] != t
  {}

  /** The reader that the owner of _wmtx is about to admit or to wake. */
  lemma Cargo(s: State, t: nat, boss: Thread)
    requires t < |s.threads| && boss == s.threads[t] && ThreadOk(s, boss, t)
    ensures LocalOk(boss)
    ensures boss.pc.Grant? ==> var o := boss.pc.reader; o < |s.threads| && o != t && s.threads[o].pc == ReadPopped
    ensures boss.pc.Notify? ==> var o := boss.pc.reader; o < |s.threads| && o != t && s.threads[o].pc == ReadGranted
  {}

  lemma LeaveMove(s: State, t: nat) returns (o: nat)
    requires Inv(s) && NobodyGoes(s) && s.owner == Some(t) && t < |s.threads| && Boss(s) == s.threads[t] && Leaving(Boss(s).pc)
    ensures GoodMove(s, t, Step, o)
  {
    hide Inv, Lighter, StepCall, Boss, NobodyGoes, ThreadOk, LocalOk;
    BossKnown(s, t);
    Cargo(s, t, Boss(s));
    var boss := Boss(s);
    o := t;
    if boss.pc.Grant? {
      o := boss.pc.reader;
      GrantLighter(s, t, boss, o);
    } else if boss.pc.Notify? {
      o := boss.pc.reader;
      NotifyLighter(s, t, boss, o);
    } else if boss.pc.Serve? && boss.pc.pending > 0 && s.queue != [] {
      FirstInQueue(s, t);
      o := s.queue[0];
      PopLighter(s, t, boss, o);
    } else if boss.pc == Serve(0) {
      ServedLighter(s, t, boss);
    } else if boss.pc == Release {
      FreedLighter(s, t, boss);
    } else if boss.pc.Serve? {
      EmptyLighter(s, t, boss);
    } else if boss.pc == ServeReload {
      if Pending(s.word) > 0 { PendingIsQueued(s); }
      ReloadLighter(s, t, boss);
    } else if boss.pc == UnlockClear || boss.pc == DownCount {
      UnlockLighter(s, t, boss);
    } else {
      DowngradeLighter(s, t, boss);
    }
  }

  lemma ReleaseMove(s: State, t: nat, a: Action)
    requires Inv(s) && Enabled(s, t, a) && (a == Runlock || a == Wunlock)
    ensures GoodMove(s, t, a, t)
  {
    hide Inv, Lighter, Boss, Next;
    BossKnown(s, t);
    ReleaseLighter(s, t, a, Boss(s));
  }

  lemma OwnerCases(s: State, t: nat)
    requires Inv(s) && !Doomed(s) && NobodyGoes(s) && s.owner == Some(t) && t < |s.threads| && Boss(s) == s.threads[t]
    ensures Entering(Boss(s).pc) || Leaving(Boss(s).pc) || Boss(s).pc == WriteClearWait
            || (Boss(s).pc == Idle && Boss(s).writeHolds > 0)
  {
    assert ThreadOk(s, Boss(s), t) && !Goes(s.threads[t].pc);
  }

  lemma OwnerMove(s: State) returns (t: nat, a: Action, o: nat)
    requires Inv(s) && !Doomed(s) && NobodyGoes(s) && s.owner.Some?
    ensures GoodMove(s, t, a, o)
  {
    hide Inv, GoodMove, Doomed, NobodyGoes, Boss;
    t, a := s.owner.value, Step;
    OwnerInRange(s);
    BossKnown(s, t);
    OwnerCases(s, t);
    o := t;
    if Boss(s).pc == Idle {
      a := Wunlock;
      ReleaseMove(s, t, a);
    } else if Boss(s).pc == WriteSleep && s.writerWait {
      t := HolderOf(s, t);
      a, o := Runlock, t;
      ReleaseMove(s, t, a);
    } else if Leaving(Boss(s).pc) {
      o := LeaveMove(s, t);
    } else {
      EnterMove(s, t);
    }
  }

  lemma OwnerInRange(s: State)
    requires Inv(s)
    ensures s.owner.Some? ==> s.owner.value < |s.threads|
  {}

  /** Without an owner of _wmtx everybody who cannot go on is idle. */
  lemma IdleWithoutOwner(s: State, k: nat)
    requires Inv(s) && NobodyGoes(s) && s.owner == None && k < |s.threads|
    ensures s.threads[k].pc == Idle && s.threads[k].writeHolds == 0
  {
    assert ThreadOk(s, Boss(s), k) && !Goes(s.threads[k].pc);
  }

  /** Unless the lock is free, some call can go on or some holder can release; readers that can go on come first. */
  lemma NextMove(s: State) returns (t: nat, a: Action, o: nat)
    requires Inv(s) && !Doomed(s) && !AllFree(s)
    ensures GoodMove(s, t, a, o) && t < |s.threads| && (Goes(s.threads[t].pc) || NobodyGoes(s))
  {
    hide Inv, GoodMove, Doomed;
    if k: nat :| k < |s.threads| && Goes(s.threads[k].pc) {
      GoingMove(s, k);
      t, a, o := k, Step, k;
    } else if s.owner.Some? {
      t, a, o := OwnerMove(s);
      MoverInRange(s, t, a, o);
    } else {
      var k: nat :| k < |s.threads| && s.threads[k] != Thread(Idle, 0, 0);
      IdleWithoutOwner(s, k);
      t, a, o := k, Runlock, k;
      ReleaseMove(s, k, Runlock);
    }
  }

  lemma MoverInRange(s: State, t: nat, a: Action, o: nat)
    requires GoodMove(s, t, a, o)
    ensures t < |s.threads|
  {}

  lemma MoveKeeps(s: State, t: nat, a: Action, o: nat)
    requires Inv(s) && GoodMove(s, t, a, o)
    ensures var s' := Next(s, t, a); Inv(s') && |s'.threads| == |s.threads|
    ensures var s' := Next(s, t, a); forall k :: 0 <= k < |s.threads| && k != t && s'.owner == Some(k) ==> s'.threads[k] == s.threads[k]
    ensures var s' := Next(s, t, a); forall k :: 0 <= k < |s.threads| ==> Proceeds(s.threads[k], s'.threads[k])
  {
    hide Inv, Next, Gain, Extra, Stale, Boss;
    NextInv(s, t, a);
    var s' := Next(s, t, a);
    forall k | 0 <= k < |s.threads| && k != t && k != o ensures Proceeds(s.threads[k], s'.threads[k]) {
      SameProceeds(s.threads[k]);
    }
  }

  lemma SameProceeds(th: Thread)
    ensures Proceeds(th, th)
  {}

  lemma BossHolds(s: State, k: nat)
    requires Inv(s) && k < |s.threads| && (Writes(s.threads[k].pc) || s.threads[k].writeHolds > 0)
    ensures s.owner == Some(k) && Boss(s) == s.threads[k]
  {
    assert ThreadOk(s, Boss(s), k);
  }

  lemma CommittedIsServed(s: State, k: nat)
    requires Inv(s) && k < |s.threads| && Committed(s.threads[k].pc)
    ensures Serving(Boss(s))
  {
    assert ThreadOk(s, Boss(s), k);
  }

  lemma UncommittedGoes(pc: Pc)
    requires Acquires(pc) && !Writes(pc) && !Committed(pc)
    ensures Goes(pc) && !OnTheWay(pc)
  {}

  /** While some thread reads, the owner of _wmtx does not write. */
  lemma ReaderIsNoWriter(s: State, k: nat)
    requires Inv(s) && k < |s.threads| && s.threads[k].readHolds > 0
    ensures Boss(s).writeHolds == 0
  {
    hide Sum, Pack, ThreadsOk, QueueOk, Boss;
    SumAtLeast(s.threads, Reads, k);
  }

  /** Before a writer has announced itself, a reader in rlock() can go on. */
  lemma GoesBeforeAnnounce(s: State, k: nat)
    requires Inv(s) && Writes(Boss(s).pc) && !Pends(Boss(s).pc) && Boss(s).writeHolds == 0
    requires k < |s.threads| && Acquires(s.threads[k].pc) && !Writes(s.threads[k].pc)
    ensures Goes(s.threads[k].pc) && !OnTheWay(s.threads[k].pc)
  {
    hide Inv, Boss, Goes, OnTheWay, Acquires;
    if Committed(s.threads[k].pc) {
      CommittedIsServed(s, k);
    }
    UncommittedGoes(s.threads[k].pc);
  }

  lemma QuietBeforeAnnounce(s: State, k: nat)
    requires Inv(s) && NobodyGoes(s) && Boss(s).pc == WriteAnnounce && k < |s.threads| && ReaderAgain(s.threads[k])
    ensures ReaderWrites(Boss(s))
  {
    hide Inv, Boss, NobodyGoes, Goes, Acquires;
    ReaderIsNoWriter(s, k);
    if Writes(s.threads[k].pc) {
      BossHolds(s, k);
    } else {
      GoesBeforeAnnounce(s, k);
      SomebodyGoes(s, k);
    }
  }

  lemma DoomedBoss(s: State, s': State, u: nat)
    requires Inv(s) && u < |s.threads| == |s'.threads| && Proceeds(s.threads[u], s'.threads[u])
    requires ReaderWrites(s'.threads[u]) || WriterReads(s'.threads[u])
    ensures Doomed(s)
  {
    hide Inv, Boss;
    BossHolds(s, u);
  }

  lemma DoomedReader(s: State, s': State, t: nat, u: nat, k: nat)
    requires Inv(s) && u < |s.threads| == |s'.threads| && k < |s.threads| && t < |s.threads|
    requires Proceeds(s.threads[u], s'.threads[u]) && Proceeds(s.threads[k], s'.threads[k])
    requires u == t || s'.threads[u] == s.threads[u]
    requires Goes(s.threads[t].pc) || NobodyGoes(s)
    requires Pends(s'.threads[u].pc) && ReaderAgain(s'.threads[k])
    ensures Doomed(s)
  {
    hide Inv, Boss;
    BossHolds(s, u);
    assert ReaderAgain(s.threads[k]);
    if !Pends(s.threads[u].pc) {
      QuietBeforeAnnounce(s, k);
    }
  }

  lemma BossOf(s: State) returns (u: nat)
    requires Inv(s) && Boss(s).pc != Idle
    ensures s.owner == Some(u) && u < |s.threads| && Boss(s) == s.threads[u]
  {
    u := s.owner.value;
  }

  /** The move that is chosen dooms nobody. */
  lemma NotDoomed(s: State, t: nat, a: Action, o: nat)
    requires Inv(s) && !Doomed(s) && GoodMove(s, t, a, o) && t < |s.threads| && (Goes(s.threads[t].pc) || NobodyGoes(s))
    ensures !Doomed(Next(s, t, a))
  {
    hide Inv, Next, Boss, Lighter, NobodyGoes, Proceeds, Enabled;
    MoveKeeps(s, t, a, o);
    var s' := Next(s, t, a);
    if Doomed(s') {
      var u := BossOf(s');
      if ReaderWrites(Boss(s')) || WriterReads(Boss(s')) {
        DoomedBoss(s, s', u);
      } else {
        var k :| 0 <= k < |s'.threads| && ReaderAgain(s'.threads[k]);
        DoomedReader(s, s', t, u, k);
      }
    }
  }

  // --------------------------------------------------- everybody is reached

  lemma LeadsFirst(s: State, t: nat, a: Action, ms: seq<Move>, s': State)
    requires Draining(a) && Enabled(s, t, a) && Leads(Next(s, t, a), ms, s')
    ensures Leads(s, [Move(t, a)] + ms, s')
  {
    hide Enabled, Next;
    assert ([Move(t, a)] + ms)[0] == Move(t, a) && ([Move(t, a)] + ms)[1..] == ms;
  }

  lemma {:induction false} Drain(s: State) returns (ms: seq<Move>, s': State)
    requires Inv(s) && !Doomed(s)
    ensures Leads(s, ms, s') && AllFree(s')
    decreases Work(s), Sum(s.threads, StaleAt(s.word))
  {
    hide Inv, Doomed, Lighter, Work, Sum, StaleAt, Next, Enabled, NobodyGoes;
    if AllFree(s) {
      return [], s;
    }
    var t, a, o := NextMove(s);
    var s1 := Next(s, t, a);
    Drained(s, s1, t, o);
    NextInv(s, t, a);
    NotDoomed(s, t, a, o);
    ms, s' := Drain(s1);
    LeadsFirst(s, t, a, ms, s');
    ms := [Move(t, a)] + ms;
  }

  /** Thread x is through with its call and has one hold more than before. */
  predicate Reached(s: State, s': State, x: nat) {
    && x < |s.threads| && x < |s'.threads| && !Acquires(s'.threads[x].pc)
    && s'.threads[x].readHolds + s'.threads[x].writeHolds > s.threads[x].readHolds + s.threads[x].writeHolds
  }

  /** A reader that has a chance although the lock is doomed: the writer has not announced itself yet. */
  lemma ReaderGoes(s: State, x: nat)
    requires Inv(s) && Doomed(s) && !Hopeless(s, x) && x < |s.threads| && Acquires(s.threads[x].pc)
    ensures Goes(s.threads[x].pc) && !OnTheWay(s.threads[x].pc) && s.owner != Some(x)
    ensures ReaderWrites(Boss(s)) && !Pends(Boss(s).pc) && Boss(s).writeHolds == 0
  {
    hide Inv, Boss, Goes, OnTheWay;
    var u := BossOf(s);
    assert ReaderAgain(s.threads[u]);
    ReaderIsNoWriter(s, u);
    if Writes(s.threads[x].pc) {
      BossHolds(s, x);
    }
    GoesBeforeAnnounce(s, x);
  }

  lemma ReaderKeepsChance(s: State, x: nat)
    requires Inv(s) && Doomed(s) && !Hopeless(s, x) && x < |s.threads| && Acquires(s.threads[x].pc)
    requires Enabled(s, x, Step)
    ensures !Hopeless(Next(s, x, Step), x)
  {
    hide Inv, StepCall, Acquires, Boss, Hopeless, Doomed, Enabled, Goes, OnTheWay;
    ReaderGoes(s, x);
    var u := BossOf(s);
    GoingKeepsOwner(s, x);
    StillNotBarred(s, StepCall(s, x), x, u);
  }

  lemma StillNotBarred(s: State, s': State, x: nat, u: nat)
    requires u < |s.threads| == |s'.threads| && s.owner == Some(u) == s'.owner && x != u && s'.threads[u] == s.threads[u]
    requires Writes(s.threads[u].pc) && !Pends(s.threads[u].pc) && s.threads[u].writeHolds == 0
    ensures !Hopeless(s', x)
  {}

  lemma GoingKeepsOwner(s: State, x: nat)
    requires x < |s.threads| && Goes(s.threads[x].pc)
    ensures StepCall(s, x).owner == s.owner
    ensures |StepCall(s, x).threads| == |s.threads| && StepCall(s, x).threads == s.threads[x := StepCall(s, x).threads[x]]
  {
    hide Add;
  }

  lemma NotHopeless(s: State, x: nat)
    requires !Doomed(s)
    ensures !Hopeless(s, x)
  {
  }

  /** The next move on the way of thread x to the lock. */
  lemma MoveFor(s: State, x: nat) returns (t: nat, a: Action, o: nat)
    requires Inv(s) && !Hopeless(s, x) && x < |s.threads| && Acquires(s.threads[x].pc)
    ensures GoodMove(s, t, a, o) && !Hopeless(Next(s, t, a), x)
  {
    hide Inv, Lighter, Doomed, Hopeless, Next, NobodyGoes, Boss, Enabled;
    if Doomed(s) {
      ReaderGoes(s, x);
      GoingMove(s, x);
      t, a, o := x, Step, x;
      ReaderKeepsChance(s, x);
    } else {
      assert s.threads[x] != Thread(Idle, 0, 0);
      t, a, o := NextMove(s);
      NotDoomed(s, t, a, o);
      NotHopeless(Next(s, t, a), x);
    }
  }

  lemma {:induction false} Reach(s: State, x: nat) returns (ms: seq<Move>, s': State)
    requires Inv(s) && !Hopeless(s, x) && x < |s.threads| && Acquires(s.threads[x].pc)
    ensures Leads(s, ms, s') && Reached(s, s', x)
    decreases Work(s), Sum(s.threads, StaleAt(s.word))
  {
    hide Inv, Hopeless, Lighter, Work, Sum, StaleAt, Next, Enabled;
    var t, a, o := MoveFor(s, x);
    var s1 := Next(s, t, a);
    Drained(s, s1, t, o);
    MoveKeeps(s, t, a, o);
    assert Proceeds(s.threads[x], s1.threads[x]);
    if Acquires(s1.threads[x].pc) {
      ms, s' := Reach(s1, x);
    } else {
      ms, s' := [], s1;
    }
    LeadsFirst(s, t, a, ms, s');
    ms := [Move(t, a)] + ms;
  }

  // --------------------------------------------------- nobody else is reached

  /** The thread is no nearer to the end of its call. */
  predicate Stays(th: Thread, th': Thread) {
    && Acquires(th'.pc) && (Writes(th'.pc) <==> Writes(th.pc)) && (Pends(th.pc) ==> Pends(th'.pc))
    && th'.readHolds == th.readHolds && th'.writeHolds == th.writeHolds
  }

  /** Only thread t moves. */
  predicate OnlyMoves(s: State, s': State, t: nat) {
    && s'.owner == s.owner && t < |s.threads| == |s'.threads| && s'.threads == s.threads[t := s'.threads[t]]
  }

  /** A writer or a pending one keeps readers out. */
  lemma KeepsReadersOut(s: State)
    requires Inv(s) && (Pends(Boss(s).pc) || Boss(s).writeHolds > 0)
    ensures s.word >= PENDING_WRITER
  {
    hide Pack, Sum, ThreadsOk, QueueOk, Boss, WaitOk;
    Fields(HoldsBit(Boss(s)), Pends(Boss(s).pc), Sum(s.threads, Reads), Sum(s.threads, Waits));
  }

  lemma ReaderStays(s: State, t: nat)
    requires t < |s.threads| && Goes(s.threads[t].pc) && Acquires(s.threads[t].pc) && s.word >= PENDING_WRITER
    ensures OnlyMoves(s, StepCall(s, t), t) && Stays(s.threads[t], StepCall(s, t).threads[t])
  {
    hide Add, Pending, Owning;
  }

  /** A reader stands in the way of the writer. */
  lemma WriterMustWait(s: State, u: nat, k: nat)
    requires Inv(s) && s.owner == Some(u) && u < |s.threads| && k < |s.threads| && s.threads[k].readHolds > 0
    ensures !WriterLocked(s.word) || s.threads[u].pc != WriteCheck
    ensures s.threads[u].pc == WriteSleep ==> s.writerWait
    ensures s.threads[u].pc != WriteAdd && (s.threads[u].pc.WriteTry? ==> Owning(s.threads[u].pc.seen) != 0)
  {
    hide Pack, Sum, ThreadsOk, QueueOk, WriterLocked, Owning;
    SumAtLeast(s.threads, Reads, k);
    Fields(HoldsBit(Boss(s)), Pends(Boss(s).pc), Sum(s.threads, Reads), Sum(s.threads, Waits));
  }

  lemma WriterStays(s: State, u: nat)
    requires u < |s.threads| && Writes(s.threads[u].pc) && CanStep(s, s.threads[u].pc)
    requires !WriterLocked(s.word) || s.threads[u].pc != WriteCheck
    requires s.threads[u].pc == WriteSleep ==> s.writerWait
    requires s.threads[u].pc != WriteAdd && (s.threads[u].pc.WriteTry? ==> Owning(s.threads[u].pc.seen) != 0)
    ensures OnlyMoves(s, StepCall(s, u), u) && Stays(s.threads[u], StepCall(s, u).threads[u])
  {
    hide Add, SetPendingWriter, Owning, WriterLocked;
  }

  lemma BystanderGoes(s: State, t: nat)
    requires Inv(s) && t < |s.threads| && CanStep(s, s.threads[t].pc) && !Writes(s.threads[t].pc)
    requires s.owner != Some(t) || Acquires(s.threads[t].pc)
    ensures Goes(s.threads[t].pc)
  {
    assert ThreadOk(s, Boss(s), t);
  }

  lemma SomeReader(s: State) returns (k: nat)
    requires Inv(s) && Doomed(s) && !WriterReads(Boss(s))
    ensures k < |s.threads| && s.threads[k].readHolds > 0
  {
    hide Inv, Boss;
    if ReaderWrites(Boss(s)) {
      k := BossOf(s);
    } else {
      k :| 0 <= k < |s.threads| && ReaderAgain(s.threads[k]);
    }
  }

  /** The owner of _wmtx makes no way. */
  lemma OwnerStays(s: State, u: nat)
    requires Inv(s) && Doomed(s) && s.owner == Some(u) && u < |s.threads| && Boss(s) == s.threads[u]
    requires CanStep(s, s.threads[u].pc)
    ensures OnlyMoves(s, StepCall(s, u), u) && Stays(s.threads[u], StepCall(s, u).threads[u])
  {
    hide Inv, Boss, StepCall, OnlyMoves, Stays, CanStep, WriterLocked, Owning;
    if WriterReads(Boss(s)) {
      BystanderGoes(s, u);
      KeepsReadersOut(s);
      ReaderStays(s, u);
    } else {
      var k := SomeReader(s);
      WriterMustWait(s, u, k);
      WriterStays(s, u);
    }
  }

  lemma OwnerAcquires(s: State, u: nat)
    requires Doomed(s) && s.owner == Some(u) && u < |s.threads|
    ensures Boss(s) == s.threads[u] && Acquires(s.threads[u].pc)
  {}

  lemma DoomedOwner(s: State)
    requires Inv(s) && Doomed(s)
    ensures s.owner.Some? && s.owner.value < |s.threads|
  {
    var u := BossOf(s);
  }

  lemma ReleaseMovesOne(s: State, t: nat, a: Action)
    requires Enabled(s, t, a) && (a == Runlock || a == Wunlock)
    ensures OnlyMoves(s, Next(s, t, a), t) && !Acquires(s.threads[t].pc)
  {
    hide Add, Owning, PendingWriter, WriterLocked;
  }

  /** Readers go on, but to no avail once nobody gets in any more. */
  lemma DoomedStep(s: State, t: nat)
    requires Inv(s) && t < |s.threads| && s.owner != Some(t) && CanStep(s, s.threads[t].pc)
    ensures OnlyMoves(s, StepCall(s, t), t)
    ensures Acquires(s.threads[t].pc) && Barred(s) ==> Stays(s.threads[t], StepCall(s, t).threads[t])
  {
    hide Inv, Boss, StepCall, Goes, CanStep, Acquires, Stays, Writes;
    if Writes(s.threads[t].pc) {
      BossHolds(s, t);
    }
    BystanderGoes(s, t);
    if Acquires(s.threads[t].pc) && Barred(s) {
      KeepsReadersOut(s);
      ReaderStays(s, t);
    } else {
      GoingKeepsOwner(s, t);
    }
  }

  /** What a move can do once the lock is doomed. */
  lemma DoomedMove(s: State, t: nat, a: Action)
    requires Inv(s) && Doomed(s) && Enabled(s, t, a) && Draining(a)
    ensures OnlyMoves(s, Next(s, t, a), t)
    ensures Acquires(s.threads[t].pc) && (s.owner == Some(t) || Barred(s)) ==> Stays(s.threads[t], Next(s, t, a).threads[t])
  {
    hide Inv, Boss, StepCall, OnlyMoves, Stays, Doomed, Barred, BeginRunlock, BeginWunlock, CanStep, Acquires;
    if a != Step {
      ReleaseMovesOne(s, t, a);
    } else if s.owner == Some(t) {
      OwnerAcquires(s, t);
      OwnerStays(s, t);
    } else {
      DoomedStep(s, t);
    }
  }

  lemma BarredKept(s: State, s': State, t: nat)
    requires Barred(s) && OnlyMoves(s, s', t) && s.owner.Some? && s.owner.value < |s.threads|
    requires Acquires(s.threads[t].pc) ==> Stays(s.threads[t], s'.threads[t])
    ensures Barred(s')
  {
    hide Acquires, Writes, Pends;
    var u := s.owner.value;
    assert Boss(s) == s.threads[u] && Boss(s') == s'.threads[u];
    OwnerAcquires(s, u);
    StaysBad(s.threads[u], s'.threads[u]);
    if !WriterReads(Boss(s)) {
      var k :| 0 <= k < |s.threads| && ReaderAgain(s.threads[k]);
      assert ReaderAgain(s'.threads[k]);
    }
  }

  lemma StaysBad(th: Thread, th': Thread)
    requires Acquires(th.pc) && (th' == th || Stays(th, th'))
    ensures WriterReads(th) ==> WriterReads(th')
    ensures Pends(th.pc) ==> Pends(th'.pc)
  {}

  /** Who does not get the lock never will. */
  lemma HopelessKept(s: State, t: nat, a: Action, x: nat)
    requires Inv(s) && Enabled(s, t, a) && Draining(a) && Hopeless(s, x)
    ensures Hopeless(Next(s, t, a), x)
  {
    hide Inv, Next, Acquires, Writes, Pends, Enabled, Draining;
    var s' := Next(s, t, a);
    HopelessDooms(s, x);
    DoomedMove(s, t, a);
    DoomedOwner(s);
    if Barred(s) {
      BarredKept(s, s', t);
    }
  }

  lemma HopelessDooms(s: State, x: nat)
    requires Hopeless(s, x)
    ensures Doomed(s)
  {}

  lemma {:induction false} HopelessForever(s: State, ms: seq<Move>, s': State, x: nat)
    requires Inv(s) && Hopeless(s, x) && Leads(s, ms, s')
    ensures Hopeless(s', x)
    decreases |ms|
  {
    hide Inv, Next, Hopeless, Enabled;
    if ms != [] {
      NextInv(s, ms[0].thread, ms[0].a);
      HopelessKept(s, ms[0].thread, ms[0].a, x);
      HopelessForever(Next(s, ms[0].thread, ms[0].a), ms[1..], s', x);
    }
  }

  // ---------------------------------------------------------------- theorems

  /** Calls in progress and releases can lead thread x to the lock. */
  ghost predicate CanReach(s: State, x: nat) {
    exists ms, s' :: Leads(s, ms, s') && Reached(s, s', x)
  }

  /**
    In every state of every run, a thread inside rlock() or wlock() is led to the
    lock by the calls in progress and the releases of holders exactly if nobody
    bars it for good and it does not wait for its own release.
   */
  lemma WaiterIsReachedIff(n: nat, run: seq<State>, i: nat, x: nat)
    requires IsRun(n, run) && i < |run| && x < |run[i].threads| && Acquires(run[i].threads[x].pc)
    ensures CanReach(run[i], x) <==> !Hopeless(run[i], x)
  {
    hide Inv, Hopeless, Leads;
    var s := run[i];
    RunInv(n, run, i);
    if !Hopeless(s, x) {
      var ms, s' := Reach(s, x);
    } else {
      forall ms, s' | Leads(s, ms, s') ensures !Reached(s, s', x) {
        HopelessForever(s, ms, s', x);
        HopelessAcquires(s', x);
      }
    }
  }

  lemma HopelessAcquires(s: State, x: nat)
    requires Hopeless(s, x)
    ensures x < |s.threads| && Acquires(s.threads[x].pc)
  {}

  lemma SomebodyHopeless(s: State) returns (x: nat)
    requires Inv(s) && Doomed(s)
    ensures Hopeless(s, x)
  {
    hide Inv;
    x := BossOf(s);
    OwnerAcquires(s, x);
  }

  /** Every thread inside rlock() or wlock() can be led to the lock exactly if the lock is not doomed. */
  lemma EveryWaiterIsReachedIff(n: nat, run: seq<State>, i: nat)
    requires IsRun(n, run) && i < |run|
    ensures (forall x: nat :: x < |run[i].threads| && Acquires(run[i].threads[x].pc) ==> CanReach(run[i], x)) <==> !Doomed(run[i])
  {
    hide Inv, Doomed, Hopeless, CanReach;
    RunInv(n, run, i);
    if Doomed(run[i]) {
      var x := SomebodyHopeless(run[i]);
      HopelessAcquires(run[i], x);
      WaiterIsReachedIff(n, run, i, x);
    } else {
      forall x: nat | x < |run[i].threads| && Acquires(run[i].threads[x].pc) ensures CanReach(run[i], x) {
        NotHopeless(run[i], x);
        WaiterIsReachedIff(n, run, i, x);
      }
    }
  }

  /** The same moves lead to a state in which nothing is held and no call is in progress, exactly if the lock is not doomed. */
  lemma LockDrainsIff(n: nat, run: seq<State>, i: nat)
    requires IsRun(n, run) && i < |run|
    ensures (exists ms, s' :: Leads(run[i], ms, s') && AllFree(s')) <==> !Doomed(run[i])
  {
    hide Inv, Doomed, Hopeless, Leads;
    var s := run[i];
    RunInv(n, run, i);
    if !Doomed(s) {
      var ms, s' := Drain(s);
    } else {
      var x := SomebodyHopeless(s);
      forall ms, s' | Leads(s, ms, s') ensures !AllFree(s') {
        HopelessForever(s, ms, s', x);
        HopelessAcquires(s', x);
        assert s'.threads[x] != Thread(Idle, 0, 0);
      }
    }
  }

  // -------------------------------------------------- three ways to be doomed

  /** Two threads on the lock. */
  function Two(word: Word, writerWait: bool, owner: Option<nat>, th0: Thread, th1: Thread): State {
    State(word, writerWait, owner, if owner.Some? then 1 else 0, [], [th0, th1], None, true)
  }

  const READ: Word := READER_LOCK_INC
  const PENDS: Word := READER_LOCK_INC + PENDING_WRITER
  const UNUSED := Thread(Idle, 0, 0)
  const READER := Thread(Idle, 1, 0)

  /** Thread 0 takes the lock for reading; thread 1 wants to write; thread 0 calls rlock() again. */
  function ReadAgain(k: nat): State {
    if k == 0 then Two(0, false, None, UNUSED, UNUSED)
    else if k == 1 then Two(0, false, None, Thread(ReadLoad(false), 0, 0), UNUSED)
    else if k == 2 then Two(0, false, None, Thread(ReadTry(0, false), 0, 0), UNUSED)
    else if k == 3 then Two(READ, false, None, READER, UNUSED)
    else if k == 4 then Two(READ, false, Some(1), READER, Thread(WriteCheck, 0, 0))
    else if k == 5 then Two(READ, false, Some(1), READER, Thread(WriteSetWait, 0, 0))
    else if k == 6 then Two(READ, true, Some(1), READER, Thread(WriteAnnounce, 0, 0))
    else if k == 7 then Two(PENDS, true, Some(1), READER, Thread(WriteTry(PENDS), 0, 0))
    else Two(PENDS, true, Some(1), Thread(ReadLoad(false), 1, 0), Thread(WriteTry(PENDS), 0, 0))
  }

  function ReadAgainMove(k: nat): Move {
    Move(if 3 <= k <= 6 then 1 else 0, if k == 0 || k == 7 then Rlock else if k == 3 then Wlock else Step)
  }

  /** Thread 1 takes the lock for writing and calls rlock(). */
  function WriteRead(k: nat): State {
    if k == 0 then Two(0, false, None, UNUSED, UNUSED)
    else if k == 1 then Two(0, false, Some(1), UNUSED, Thread(WriteCheck, 0, 0))
    else if k == 2 then Two(0, false, Some(1), UNUSED, Thread(WriteSetWait, 0, 0))
    else if k == 3 then Two(0, true, Some(1), UNUSED, Thread(WriteAnnounce, 0, 0))
    else if k == 4 then Two(PENDING_WRITER, true, Some(1), UNUSED, Thread(WriteTry(PENDING_WRITER), 0, 0))
    else if k == 5 then Two(WRITER_LOCK, true, Some(1), UNUSED, Thread(WriteClearWait, 0, 1))
    else if k == 6 then Two(WRITER_LOCK, false, Some(1), UNUSED, Thread(Idle, 0, 1))
    else Two(WRITER_LOCK, false, Some(1), UNUSED, Thread(ReadLoad(false), 0, 1))
  }

  function WriteReadMove(k: nat): Move {
    Move(1, if k == 0 then Wlock else if k == 6 then Rlock else Step)
  }

  predicate Moves(s: State, m: Move, s': State) {
    Enabled(s, m.thread, m.a) && Next(s, m.thread, m.a) == s'
  }

  lemma TwoClaims(s: State)
    requires |s.threads| == 2
    ensures Sum(s.threads, Claims) == Claims(s.threads[0]) + Claims(s.threads[1])
  {
    assert Sum(s.threads[1..][1..], Claims) == 0;
    assert Sum(s.threads[1..], Claims) == Claims(s.threads[1]);
  }

  lemma ReadAgainReads(k: nat)
    requires k < 3
    ensures Moves(ReadAgain(k), ReadAgainMove(k), ReadAgain(k + 1))
  {
    hide Sum;
    TwoClaims(ReadAgain(k));
  }

  lemma ReadAgainWrites(k: nat)
    requires 3 <= k < 6
    ensures Moves(ReadAgain(k), ReadAgainMove(k), ReadAgain(k + 1))
  {
    hide Sum;
  }

  lemma ReadAgainReturns(k: nat)
    requires 6 <= k < 8
    ensures Moves(ReadAgain(k), ReadAgainMove(k), ReadAgain(k + 1))
  {
    hide Sum;
    TwoClaims(ReadAgain(k));
  }

  lemma WriteReadWrites(k: nat)
    requires k < 4
    ensures Moves(WriteRead(k), WriteReadMove(k), WriteRead(k + 1))
  {
    hide Sum;
  }

  lemma WriteReadReads(k: nat)
    requires 4 <= k < 7
    ensures Moves(WriteRead(k), WriteReadMove(k), WriteRead(k + 1))
  {
    hide Sum;
    TwoClaims(WriteRead(k));
  }

  lemma Longer(n: nat, run: seq<State>, t: nat, a: Action, s': State)
    requires IsRun(n, run) && Enabled(run[|run| - 1], t, a) && s' == Next(run[|run| - 1], t, a)
    ensures IsRun(n, run + [s'])
  {
    hide Enabled, Next;
    var longer := run + [s'];
    forall i | 0 < i < |longer| ensures Follows(longer[i - 1], longer[i]) {
      assert i < |run| ==> Follows(run[i - 1], run[i]);
    }
  }

  lemma InitTwo()
    ensures IsRun(2, [Two(0, false, None, UNUSED, UNUSED)])
  {
    assert Init(2).threads == [UNUSED, UNUSED];
  }

  lemma {:induction false} ReadAgainRun(k: nat) returns (run: seq<State>)
    requires k <= 8
    ensures IsRun(2, run) && run[|run| - 1] == ReadAgain(k)
  {
    hide Next, Enabled, Follows;
    if k == 0 {
      InitTwo();
      run := [ReadAgain(0)];
    } else {
      run := ReadAgainRun(k - 1);
      if k <= 3 { ReadAgainReads(k - 1); } else if k <= 6 { ReadAgainWrites(k - 1); } else { ReadAgainReturns(k - 1); }
      Longer(2, run, ReadAgainMove(k - 1).thread, ReadAgainMove(k - 1).a, ReadAgain(k));
      run := run + [ReadAgain(k)];
    }
  }

  lemma {:induction false} WriteReadRun(k: nat) returns (run: seq<State>)
    requires k <= 7
    ensures IsRun(2, run) && run[|run| - 1] == WriteRead(k)
  {
    hide Next, Enabled, Follows;
    if k == 0 {
      InitTwo();
      run := [WriteRead(0)];
    } else {
      run := WriteReadRun(k - 1);
      if k <= 4 { WriteReadWrites(k - 1); } else { WriteReadReads(k - 1); }
      Longer(2, run, 1, WriteReadMove(k - 1).a, WriteRead(k));
      run := run + [WriteRead(k)];
    }
  }

  /** The call that thread x is in never returns. */
  ghost predicate NeverReturns(s: State, x: nat) {
    forall ms, s' :: Leads(s, ms, s') ==> x < |s'.threads| && Acquires(s'.threads[x].pc)
  }

  lemma HopelessEnd(n: nat, run: seq<State>, x: nat)
    requires IsRun(n, run) && Hopeless(run[|run| - 1], x)
    ensures NeverReturns(run[|run| - 1], x)
  {
    hide Inv, Hopeless, Leads;
    var s := run[|run| - 1];
    RunInv(n, run, |run| - 1);
    forall ms, s' | Leads(s, ms, s') ensures x < |s'.threads| && Acquires(s'.threads[x].pc) {
      HopelessForever(s, ms, s', x);
      HopelessAcquires(s', x);
    }
  }

  /** A reader that calls wlock() waits for itself. */
  lemma ReaderWaitsForItself() returns (run: seq<State>)
    ensures IsRun(2, run) && NeverReturns(run[|run| - 1], 0)
  {
    hide IsRun, NeverReturns;
    run := ReadAgainRun(3);
    var s' := Two(READ, false, Some(0), Thread(WriteCheck, 1, 0), UNUSED);
    ReaderCallsWlock();
    Longer(2, run, 0, Wlock, s');
    run := run + [s'];
    HopelessEnd(2, run, 0);
  }

  lemma ReaderCallsWlock()
    ensures Moves(ReadAgain(3), Move(0, Wlock), Two(READ, false, Some(0), Thread(WriteCheck, 1, 0), UNUSED))
  {}

  /** A reader that calls rlock() again while a writer waits, waits for that writer, which waits for it. */
  lemma ReaderWaitsForWriter() returns (run: seq<State>)
    ensures IsRun(2, run) && NeverReturns(run[|run| - 1], 0) && NeverReturns(run[|run| - 1], 1)
  {
    hide IsRun, NeverReturns;
    run := ReadAgainRun(8);
    assert ReaderAgain(ReadAgain(8).threads[0]) && Boss(ReadAgain(8)) == ReadAgain(8).threads[1];
    HopelessEnd(2, run, 0);
    HopelessEnd(2, run, 1);
  }

  /** A writer that calls rlock() waits for itself. */
  lemma WriterWaitsForItself() returns (run: seq<State>)
    ensures IsRun(2, run) && NeverReturns(run[|run| - 1], 1)
  {
    hide IsRun, NeverReturns;
    run := WriteReadRun(7);
    assert Boss(WriteRead(7)) == WriteRead(7).threads[1];
    HopelessEnd(2, run, 1);
  }
}
