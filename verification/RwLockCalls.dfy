/**
  What the calls on the reader-writer lock have done when they return: in every
  interleaving each call has changed the caller's own holds as it promises, and
  left alone each call gets the lock exactly if it is to be had.
 */
module RwLockCalls {
  import opened RwWord
  import opened RwLock
  import opened RwLockProof
  import opened Tally

  // ------------------------------------------------------- holds along a call

  predicate WakesReaders(pc: Pc) {
    pc.Serve? || pc == ServeReload || pc.Grant? || pc.Notify? || pc == Release
  }

  /** A thread inside call `a`, which it made with r read holds and w write holds. */
  predicate Busy(a: Action, th: Thread, r: int, w: int) {
    match a
    case Rlock =>
      if Acquiring(th.pc) then th.readHolds == r && th.writeHolds == w && !th.pc.DownTry? && th.pc != DownLoad
                               && (th.pc.ReadLoad? || th.pc.ReadTry? ==> !th.pc.once)
      else th.readHolds == r + 1 && th.writeHolds == w && (th.pc == ReadGranted || th.pc == ReadWoken)
    case TryRlock => th.readHolds == r && th.writeHolds == w && (th.pc.ReadLoad? || th.pc.ReadTry?) && th.pc.once
    case Runlock => th.readHolds == r - 1 && th.writeHolds == w && OnTheWay(th.pc)
    case Wlock =>
      if th.pc == WriteClearWait then th.readHolds == r && th.writeHolds == w + 1
      else th.readHolds == r && th.writeHolds == w && (th.pc == WriteCheck || th.pc == WriteSetWait || th.pc == WriteAnnounce || Pends(th.pc))
    case TryWlock =>
      th.readHolds == r && th.writeHolds == w && (((th.pc.TryLoad? || th.pc.TryTake?) && !th.pc.upgrade) || th.pc == TryRelease)
    case TryUpgrade =>
      th.readHolds == r && th.writeHolds == w && (((th.pc.TryLoad? || th.pc.TryTake?) && th.pc.upgrade) || th.pc == TryRelease)
    case Wunlock => th.readHolds == r && th.writeHolds == w - 1 && (th.pc == UnlockClear || WakesReaders(th.pc))
    case Downgrade =>
      if th.pc == DownLoad || th.pc.DownTry? then th.readHolds == r && th.writeHolds == 0
      else th.readHolds == r + 1 && th.writeHolds == 0 && (th.pc == DownCount || WakesReaders(th.pc))
    case _ => false
  }

  /** What the caller holds when the call returns. */
  predicate Answer(a: Action, th: Thread, r: int, w: int) {
    th.pc == Idle &&
    match a
    case Rlock => th.readHolds == r + 1 && th.writeHolds == w
    case TryRlock => (th.readHolds == r || th.readHolds == r + 1) && th.writeHolds == w
    case Runlock => th.readHolds == r - 1 && th.writeHolds == w
    case Wlock => th.readHolds == r && th.writeHolds == w + 1
    case TryWlock => th.readHolds == r && (th.writeHolds == w || th.writeHolds == w + 1)
    case TryUpgrade => (th.readHolds == r && th.writeHolds == w) || (th.readHolds == r - 1 && th.writeHolds == w + 1)
    case Wunlock => th.readHolds == r && th.writeHolds == w - 1
    case Downgrade => th.readHolds == r + 1 && th.writeHolds == 0
    case _ => false
  }

  predicate IsCall(a: Action) {
    a != Step && a != WeakFail
  }

  lemma AfterCall(s: State, t: nat, a: Action)
    requires Enabled(s, t, a) && IsCall(a)
    ensures var s', r, w := Next(s, t, a), s.threads[t].readHolds, s.threads[t].writeHolds;
            |s'.threads| == |s.threads| && (Busy(a, s'.threads[t], r, w) || Answer(a, s'.threads[t], r, w))
  {
    hide Sum, Add;
  }

  /** What a step of the caller needs to know: it serves other threads, not itself. */
  predicate Sane(s: State, t: nat) {
    && t < |s.threads| && LocalOk(s.threads[t]) && CanStep(s, s.threads[t].pc)
    && (s.threads[t].pc.Serve? && s.queue != [] ==> s.queue[0] != t)
    && (s.threads[t].pc.Grant? || s.threads[t].pc.Notify? ==> s.threads[t].pc.reader != t)
  }

  predicate Goes(s': State, n: nat, t: nat, a: Action, r: int, w: int) {
    |s'.threads| == n && t < n && (Busy(a, s'.threads[t], r, w) || Answer(a, s'.threads[t], r, w))
  }

  lemma ReaderStep(s: State, t: nat, a: Action, r: int, w: int)
    requires Sane(s, t) && (a == Rlock || a == TryRlock || a == Runlock) && Busy(a, s.threads[t], r, w)
    ensures Goes(StepCall(s, t), |s.threads|, t, a, r, w)
  {
    hide Add, LocalOk;
  }

  lemma WriterStep(s: State, t: nat, r: int, w: int)
    requires Sane(s, t) && Busy(Wlock, s.threads[t], r, w)
    ensures Goes(StepCall(s, t), |s.threads|, t, Wlock, r, w)
  {
    hide Add, LocalOk;
  }

  lemma TryStep(s: State, t: nat, a: Action, r: int, w: int)
    requires Sane(s, t) && (a == TryWlock || a == TryUpgrade) && Busy(a, s.threads[t], r, w)
    ensures Goes(StepCall(s, t), |s.threads|, t, a, r, w)
  {
    hide Add;
  }

  predicate ServesReader(pc: Pc) {
    pc.Serve? || pc.Grant? || pc.Notify?
  }

  lemma ServeGoes(s: State, t: nat, a: Action, r: int, w: int)
    requires Sane(s, t) && (a == Wunlock || a == Downgrade) && s.threads[t].pc.Serve? && Busy(a, s.threads[t], r, w)
    ensures Goes(ServeStep(s, t, s.threads[t].pc.pending), |s.threads|, t, a, r, w)
  {
    hide LocalOk, Pends, Acquiring, OnTheWay, CanStep;
  }

  lemma GrantGoes(s: State, t: nat, a: Action, r: int, w: int)
    requires Sane(s, t) && (a == Wunlock || a == Downgrade) && s.threads[t].pc.Grant? && Busy(a, s.threads[t], r, w)
    ensures Goes(GrantStep(s, t, s.threads[t].pc.reader), |s.threads|, t, a, r, w)
  {
    hide LocalOk, Pends, Acquiring, OnTheWay, CanStep, Add, Pending;
  }

  lemma NotifyGoes(s: State, t: nat, a: Action, r: int, w: int)
    requires Sane(s, t) && (a == Wunlock || a == Downgrade) && s.threads[t].pc.Notify? && Busy(a, s.threads[t], r, w)
    ensures Goes(NotifyStep(s, t, s.threads[t].pc.reader, s.threads[t].pc.pending), |s.threads|, t, a, r, w)
  {
    hide LocalOk, Pends, Acquiring, OnTheWay, CanStep;
  }

  lemma ServerStep(s: State, t: nat, a: Action, r: int, w: int)
    requires Sane(s, t) && (a == Wunlock || a == Downgrade) && ServesReader(s.threads[t].pc) && Busy(a, s.threads[t], r, w)
    ensures Goes(StepCall(s, t), |s.threads|, t, a, r, w)
  {
    hide Sane, Goes, Busy, ServeStep, GrantStep, NotifyStep, WriteTryStep, ReadTryStep, TryTakeStep;
    assert t < |s.threads| by { SaneInRange(s, t); }
    if s.threads[t].pc.Serve? { ServeGoes(s, t, a, r, w); }
    else if s.threads[t].pc.Grant? { GrantGoes(s, t, a, r, w); }
    else { NotifyGoes(s, t, a, r, w); }
  }

  lemma SaneInRange(s: State, t: nat)
    requires Sane(s, t)
    ensures t < |s.threads|
  {}

  lemma ReleaseStep(s: State, t: nat, a: Action, r: int, w: int)
    requires Sane(s, t) && (a == Wunlock || a == Downgrade) && !ServesReader(s.threads[t].pc) && Busy(a, s.threads[t], r, w)
    ensures Goes(StepCall(s, t), |s.threads|, t, a, r, w)
  {
    hide Add, LocalOk;
  }

  lemma OwnStep(s: State, t: nat, a: Action, r: int, w: int)
    requires Sane(s, t) && t < |s.threads| && Busy(a, s.threads[t], r, w)
    ensures Goes(StepCall(s, t), |s.threads|, t, a, r, w)
  {
    hide StepCall, Sane, Goes;
    match a
    case Rlock => ReaderStep(s, t, a, r, w);
    case TryRlock => ReaderStep(s, t, a, r, w);
    case Runlock => ReaderStep(s, t, a, r, w);
    case Wlock => WriterStep(s, t, r, w);
    case TryWlock => TryStep(s, t, a, r, w);
    case TryUpgrade => TryStep(s, t, a, r, w);
    case Wunlock => if ServesReader(s.threads[t].pc) { ServerStep(s, t, a, r, w); } else { ReleaseStep(s, t, a, r, w); }
    case Downgrade => if ServesReader(s.threads[t].pc) { ServerStep(s, t, a, r, w); } else { ReleaseStep(s, t, a, r, w); }
    case _ =>
  }

  lemma IsSane(s: State, t: nat)
    requires Inv(s) && Enabled(s, t, Step)
    ensures Sane(s, t)
  {
    hide Sum;
    assert ThreadOk(s, Boss(s), t);
  }

  /** A failed compare-and-swap only refreshes the local copy. */
  lemma OwnRefresh(s: State, t: nat, a: Action, r: int, w: int)
    requires Enabled(s, t, WeakFail) && Busy(a, s.threads[t], r, w)
    ensures Goes(Refresh(s, t), |s.threads|, t, a, r, w)
  {
    hide Sum;
  }

  // -------------------------------------------------- actions of the others

  /** Others leave a thread alone, but for a pending reader that is served. */
  predicate Left(th: Thread, th': Thread) {
    || th' == th
    || (th.pc == ReadSleep && th' == th.(pc := ReadPopped))
    || (th.pc == ReadPopped && th' == Thread(ReadGranted, th.readHolds + 1, th.writeHolds))
    || (th.pc == ReadGranted && th' == th.(pc := ReadWoken))
  }

  lemma LeftAlone(th: Thread)
    ensures Left(th, th)
  {}

  /** A step of a call that serves no reader moves its own thread only. */
  predicate MovesOnly(s: State, s': State, u: nat, t: nat) {
    |s'.threads| == |s.threads| && t < |s.threads| && (t != u ==> s'.threads[t] == s.threads[t])
  }

  lemma EnterMoves(s: State, u: nat, t: nat)
    requires u < |s.threads| && t < |s.threads| && Entering(s.threads[u].pc)
    ensures MovesOnly(s, StepCall(s, u), u, t)
  {
    hide Add, Owning, Pending, PendingWriter, WriterLocked;
  }

  lemma LeaveMoves(s: State, u: nat, t: nat)
    requires u < |s.threads| && t < |s.threads| && Leaving(s.threads[u].pc) && !ServesReader(s.threads[u].pc)
    ensures MovesOnly(s, StepCall(s, u), u, t)
  {
    hide Add, Owning, Pending, PendingWriter, WriterLocked;
  }

  lemma ReaderMoves(s: State, u: nat, t: nat)
    requires u < |s.threads| && t < |s.threads| && !Entering(s.threads[u].pc) && !Leaving(s.threads[u].pc)
    ensures MovesOnly(s, StepCall(s, u), u, t)
  {
    hide Add, Owning, Pending, PendingWriter, WriterLocked;
  }

  lemma ServeLeaves(s: State, u: nat, t: nat, pending: nat)
    requires t < |s.threads| && u < |s.threads| && t != u && (s.queue != [] && s.queue[0] == t ==> s.threads[t].pc == ReadSleep)
    ensures var s' := ServeStep(s, u, pending); |s'.threads| == |s.threads| && Left(s.threads[t], s'.threads[t])
  {}

  lemma GrantLeaves(s: State, u: nat, t: nat, reader: nat)
    requires t < |s.threads| && u < |s.threads| && t != u && (reader == t ==> s.threads[t].pc == ReadPopped)
    ensures var s' := GrantStep(s, u, reader); |s'.threads| == |s.threads| && Left(s.threads[t], s'.threads[t])
  {
    hide Add, Pending;
  }

  lemma NotifyLeaves(s: State, u: nat, t: nat, reader: nat, pending: nat)
    requires t < |s.threads| && u < |s.threads| && t != u && (reader == t ==> s.threads[t].pc == ReadGranted)
    ensures var s' := NotifyStep(s, u, reader, pending); |s'.threads| == |s.threads| && Left(s.threads[t], s'.threads[t])
  {}

  lemma ServerLeaves(s: State, u: nat, t: nat)
    requires t < |s.threads| && u < |s.threads| && t != u && ServesReader(s.threads[u].pc)
    requires s.threads[u].pc.Serve? && s.queue != [] && s.queue[0] == t ==> s.threads[t].pc == ReadSleep
    requires s.threads[u].pc == Grant(t) ==> s.threads[t].pc == ReadPopped
    requires s.threads[u].pc.Notify? && s.threads[u].pc.reader == t ==> s.threads[t].pc == ReadGranted
    ensures |StepCall(s, u).threads| == |s.threads| && Left(s.threads[t], StepCall(s, u).threads[t])
  {
    hide Left, ServeStep, GrantStep, NotifyStep, WriteTryStep, ReadTryStep, TryTakeStep;
    match s.threads[u].pc
    case Serve(pending) => ServeLeaves(s, u, t, pending);
    case Grant(reader) => GrantLeaves(s, u, t, reader);
    case Notify(reader, pending) => NotifyLeaves(s, u, t, reader, pending);
  }

  lemma OthersLeave(s: State, u: nat, b: Action, t: nat)
    requires Inv(s) && Enabled(s, u, b) && t < |s.threads| && t != u
    ensures |Next(s, u, b).threads| == |s.threads| && Left(s.threads[t], Next(s, u, b).threads[t])
  {
    hide Sum, StepCall, SharedOk, Left;
    assert ThreadOk(s, Boss(s), u);
    LeftAlone(s.threads[t]);
    if b == Step {
      if ServesReader(s.threads[u].pc) { ServerLeaves(s, u, t); }
      else if Entering(s.threads[u].pc) { EnterMoves(s, u, t); }
      else if Leaving(s.threads[u].pc) { LeaveMoves(s, u, t); }
      else { ReaderMoves(s, u, t); }
    }
  }

  lemma BusyLeft(a: Action, th: Thread, th': Thread, r: int, w: int)
    requires Busy(a, th, r, w) && Left(th, th')
    ensures Busy(a, th', r, w)
  {}

  // ----------------------------------------------------- along a run

  /** Thread t makes the call after state i and is outside again, for the first time, in state j. */
  ghost predicate Call(run: seq<State>, t: nat, a: Action, i: nat, j: nat) {
    && i < j < |run| && IsCall(a) && Enabled(run[i], t, a) && run[i + 1] == Next(run[i], t, a)
    && (forall k :: i < k < j ==> t < |run[k].threads| && run[k].threads[t].pc != Idle)
    && t < |run[j].threads| && run[j].threads[t].pc == Idle
  }

  lemma CallAction(s: State, u: nat, b: Action, t: nat, a: Action, r: int, w: int)
    requires Inv(s) && Enabled(s, u, b) && t < |s.threads| && Busy(a, s.threads[t], r, w)
    ensures Goes(Next(s, u, b), |s.threads|, t, a, r, w)
  {
    hide Inv, Busy, Left, StepCall, Refresh, Sum, Sane;
    if u != t {
      OthersLeave(s, u, b, t);
      BusyLeft(a, s.threads[t], Next(s, u, b).threads[t], r, w);
    } else if b == Step {
      IsSane(s, t);
      OwnStep(s, t, a, r, w);
    } else if b == WeakFail {
      OwnRefresh(s, t, a, r, w);
    } else {
      BusyIsInside(a, s.threads[t], r, w);
    }
  }

  lemma BusyIsInside(a: Action, th: Thread, r: int, w: int)
    requires Busy(a, th, r, w)
    ensures th.pc != Idle
  {}

  lemma {:induction false} GoesOn(n: nat, run: seq<State>, t: nat, a: Action, i: nat, j: nat, k: nat)
    requires IsRun(n, run) && Call(run, t, a, i, j) && i < k <= j
    ensures t < |run[i].threads| && t < |run[k].threads|
    ensures var th, r, w := run[k].threads[t], run[i].threads[t].readHolds, run[i].threads[t].writeHolds;
            Busy(a, th, r, w) || Answer(a, th, r, w)
    decreases k
  {
    hide Inv, Busy, Next, Enabled, Sum;
    if k == i + 1 {
      BeginCall(run, t, a, i, j);
    } else {
      GoesOn(n, run, t, a, i, j, k - 1);
      RunInv(n, run, k - 1);
      assert Follows(run[k - 1], run[k]);
      var u: nat, b :| Enabled(run[k - 1], u, b) && run[k] == Next(run[k - 1], u, b);
      CallAction(run[k - 1], u, b, t, a, run[i].threads[t].readHolds, run[i].threads[t].writeHolds);
    }
  }

  lemma BeginCall(run: seq<State>, t: nat, a: Action, i: nat, j: nat)
    requires Call(run, t, a, i, j)
    ensures t < |run[i].threads| && t < |run[i + 1].threads|
    ensures var th, r, w := run[i + 1].threads[t], run[i].threads[t].readHolds, run[i].threads[t].writeHolds;
            Busy(a, th, r, w) || Answer(a, th, r, w)
  {
    hide Next, Busy, Answer, Sum;
    assert t < |run[i].threads|;
    AfterCall(run[i], t, a);
  }

  /** In every run a call that returns has changed what the caller holds as it promises, and no more. */
  lemma CallReturns(n: nat, run: seq<State>, t: nat, a: Action, i: nat, j: nat)
    requires IsRun(n, run) && Call(run, t, a, i, j)
    ensures t < |run[i].threads|
    ensures var r, w, r', w' := run[i].threads[t].readHolds, run[i].threads[t].writeHolds,
                                run[j].threads[t].readHolds, run[j].threads[t].writeHolds;
            match a
            case Rlock => r' == r + 1 && w' == w
            case TryRlock => (r' == r || r' == r + 1) && w' == w
            case Runlock => r' == r - 1 && w' == w
            case Wlock => r' == r && w' == w + 1
            case TryWlock => r' == r && (w' == w || w' == w + 1)
            case TryUpgrade => (r' == r && w' == w) || (r' == r - 1 && w' == w + 1)
            case Wunlock => r' == r && w' == w - 1
            case Downgrade => r' == r + 1 && w' == 0
            case _ => true
  {
    hide Inv, Next, Enabled, Sum;
    GoesOn(n, run, t, a, i, j, j);
  }

  // ------------------------------------------------------------ a call alone

  /** Up to k steps of thread t and of nobody else. */
  function Alone(s: State, t: nat, k: nat): State
    decreases k
  {
    if k == 0 || !Enabled(s, t, Step) then s else Alone(StepCall(s, t), t, k - 1)
  }

  lemma AloneStep(s: State, t: nat, k: nat)
    requires t < |s.threads| && CanStep(s, s.threads[t].pc) && k > 0
    ensures Alone(s, t, k) == Alone(StepCall(s, t), t, k - 1)
  {
    hide StepCall;
  }

  lemma AloneBack(s: State, t: nat, k: nat)
    requires t < |s.threads| && s.threads[t].pc == Idle
    ensures Alone(s, t, k) == s
  {}

  /** The lock as an idle thread finds it: r readers own it and q are pending. */
  predicate Found(s: State, t: nat, w: bool, p: bool, r: nat, q: nat) {
    && t < |s.threads| && s.threads[t].pc == Idle && s.asserts
    && r + q <= MAX_READERS && s.word == Pack(w, p, r, q)
    && (s.owner == None ==> s.depth == 0 && !w && !p)
    && (s.owner == Some(t) <==> s.threads[t].writeHolds > 0)
    && (s.threads[t].writeHolds > 0 ==> w && !p && r == 0)
    && (w ==> r == 0 && !p)
    && r >= s.threads[t].readHolds
  }

  lemma FindLock(s: State, t: nat) returns (w: bool, p: bool, r: nat, q: nat)
    requires Inv(s) && t < |s.threads| && s.threads[t].pc == Idle
    ensures Found(s, t, w, p, r, q) && r == Sum(s.threads, Reads)
    ensures Sum(s.threads, Claims) < MAX_READERS ==> r + q < MAX_READERS
    ensures WriterLocked(s.word) == w && PendingWriter(s.word) == p && Owning(s.word) == r && Pending(s.word) == q
  {
    w, p, r, q := HoldsBit(Boss(s)), Pends(Boss(s).pc), Sum(s.threads, Reads), Sum(s.threads, Waits);
    Fields(w, p, r, q);
    assert ThreadOk(s, Boss(s), t);
    SumAtLeast(s.threads, Reads, t);
    if s.owner.Some? {
      assert ThreadOk(s, Boss(s), s.owner.value);
    }
  }

  /** The caller has got a read hold; all else is as it was. */
  ghost predicate GotRead(s: State, s': State, t: nat) {
    && t < |s.threads|
    && s' == s.(word := s'.word, threads := s.threads[t := s.threads[t].(readHolds := s.threads[t].readHolds + 1)])
    && Owning(s'.word) == Owning(s.word) + 1 && Pending(s'.word) == Pending(s.word)
    && !WriterLocked(s'.word) && !PendingWriter(s'.word)
  }

  lemma OneReaderMore(s: State, s': State, t: nat, r: nat, q: nat)
    requires t < |s.threads| && r + q < MAX_READERS && s.word == Pack(false, false, r, q)
    requires s' == s.(word := Add(s.word, READER_LOCK_INC),
                      threads := s.threads[t := s.threads[t].(readHolds := s.threads[t].readHolds + 1)])
    ensures GotRead(s, s', t)
  {
    AddReader(false, false, r, q);
    Fields(false, false, r, q);
    Fields(false, false, r + 1, q);
  }

  lemma ReadLoads(s: State, t: nat, once: bool)
    requires t < |s.threads| && s.asserts && Owning(s.word) + 1 < 0x4000
    ensures StepCall(Goto(s, t, ReadLoad(once)), t) == Goto(s, t, ReadTry(s.word, once))
  {
    var s1 := Goto(s, t, ReadLoad(once));
    assert StepCall(s1, t) == ReadLoadStep(s1, t, once);
    assert ReadLoadStep(s1, t, once).threads == Goto(s, t, ReadTry(s.word, once)).threads;
  }

  lemma ReadTries(s: State, t: nat, once: bool)
    requires t < |s.threads| && s.threads[t].pc == Idle
    ensures StepCall(Goto(s, t, ReadTry(s.word, once)), t) ==
            if s.word >= PENDING_WRITER then (if once then s else Goto(s, t, ReadCount(s.word)))
            else s.(word := Add(s.word, READER_LOCK_INC),
                    threads := s.threads[t := s.threads[t].(readHolds := s.threads[t].readHolds + 1)])
  {
    hide Add;
    var s2 := Goto(s, t, ReadTry(s.word, once));
    var s3 := ReadTryStep(s2, t, s.word, once);
    assert StepCall(s2, t) == s3;
    if s.word >= PENDING_WRITER {
      assert s3.threads == (if once then s else Goto(s, t, ReadCount(s.word))).threads;
    } else {
      assert s3.threads == s.threads[t := s.threads[t].(readHolds := s.threads[t].readHolds + 1)];
    }
  }

  lemma ReadRefreshes(s: State, t: nat, once: bool)
    requires t < |s.threads| && Enabled(Goto(s, t, ReadTry(s.word, once)), t, WeakFail)
    ensures var s2 := Goto(s, t, ReadTry(s.word, once)); Next(s2, t, WeakFail) == s2
  {
    hide Sum;
    var s2 := Goto(s, t, ReadTry(s.word, once));
    assert Refresh(s2, t).threads == s2.threads;
  }

  lemma ReadAlone(s: State, t: nat, once: bool, w: bool, p: bool, r: nat, q: nat)
    requires Found(s, t, w, p, r, q) && r + q < MAX_READERS
    ensures var s1 := Goto(s, t, ReadLoad(once));
            && (!w && !p ==> GotRead(s, Alone(s1, t, 2), t))
            && (w || p ==> Alone(s1, t, 2) == if once then s else Goto(s, t, ReadCount(s.word)))
            && var s2 := Alone(s1, t, 1); Enabled(s2, t, WeakFail) ==> Next(s2, t, WeakFail) == s2
  {
    Fields(w, p, r, q);
    hide Alone, GotRead, StepCall, Pack, Owning, Pending, PendingWriter, WriterLocked, Add, Sum, Refresh;
    var s1, s2 := Goto(s, t, ReadLoad(once)), Goto(s, t, ReadTry(s.word, once));
    ReadLoads(s, t, once);
    AloneStep(s1, t, 2);
    AloneStep(s1, t, 1);
    AloneStep(s2, t, 1);
    AloneNone(s2, t);
    ReadTries(s, t, once);
    AloneNone(StepCall(s2, t), t);
    if !w && !p {
      OneReaderMore(s, StepCall(s2, t), t, r, q);
    }
    if Enabled(s2, t, WeakFail) {
      ReadRefreshes(s, t, once);
    }
  }

  lemma AloneNone(s: State, t: nat)
    ensures Alone(s, t, 0) == s
  {}

  /**
    With no step of another thread in between, try_rlock() gets the lock exactly
    if nobody writes or is about to; else nothing has changed.
   */
  lemma TryRlockAlone(n: nat, run: seq<State>, i: nat, t: nat)
    requires IsRun(n, run) && i < |run| && Enabled(run[i], t, TryRlock)
    ensures var s := run[i];
            var s' := Alone(Next(s, t, TryRlock), t, 2);
            if WriterLocked(s.word) || PendingWriter(s.word) then s' == s else GotRead(s, s', t)
    // a compare-and-swap that fails for no reason is tried again
    ensures var s1 := Alone(Next(run[i], t, TryRlock), t, 1); Enabled(s1, t, WeakFail) ==> Next(s1, t, WeakFail) == s1
  {
    hide IsRun, Inv, Alone, GotRead, Sum, Found;
    RunInv(n, run, i);
    var w, p, r, q := FindLock(run[i], t);
    ReadAlone(run[i], t, true, w, p, r, q);
  }

  /** rlock() does not wait unless somebody writes or is about to. */
  lemma RlockAlone(n: nat, run: seq<State>, i: nat, t: nat)
    requires IsRun(n, run) && i < |run| && Enabled(run[i], t, Rlock)
    ensures var s := run[i];
            var s' := Alone(Next(s, t, Rlock), t, 2);
            if WriterLocked(s.word) || PendingWriter(s.word) then s' == Goto(s, t, ReadCount(s.word)) else GotRead(s, s', t)
  {
    hide IsRun, Inv, Alone, GotRead, Sum, Found;
    RunInv(n, run, i);
    var w, p, r, q := FindLock(run[i], t);
    ReadAlone(run[i], t, false, w, p, r, q);
  }

  /** The caller has got a write hold and given back `gave` read holds; all else is as it was. */
  ghost predicate GotWrite(s: State, s': State, t: nat, gave: nat) {
    && t < |s.threads| && s.threads[t].readHolds >= gave
    && var th := s.threads[t];
    && s' == s.(word := s'.word, owner := Some(t), depth := s.depth + 1,
                threads := s.threads[t := Thread(Idle, th.readHolds - gave, th.writeHolds + 1)])
    && WriterLocked(s'.word) && !PendingWriter(s'.word) && Owning(s'.word) == 0 && Pending(s'.word) == Pending(s.word)
  }

  lemma OneWriterMore(s: State, s': State, t: nat, w: bool, r: nat, q: nat, gave: nat)
    requires t < |s.threads| && r + q <= MAX_READERS && s.word == Pack(w, false, r, q) && s.threads[t].readHolds >= gave
    requires var th := s.threads[t];
             s' == s.(word := TakeForWriting(s.word), owner := Some(t), depth := s.depth + 1,
                      threads := s.threads[t := Thread(Idle, th.readHolds - gave, th.writeHolds + 1)])
    ensures GotWrite(s, s', t, gave)
  {
    SwitchWriter(w, false, r, q);
    Fields(w, false, r, q);
    Fields(true, false, 0, q);
  }

  /** The writer that has the lock already. */
  lemma WriteAgain(s: State, s1: State, s': State, t: nat, w: bool, p: bool, r: nat, q: nat)
    requires Found(s, t, w, p, r, q) && s.threads[t].writeHolds > 0
    requires |s1.threads| == |s.threads| && s1.threads == s.threads[t := s1.threads[t]]
    requires s' == s.(owner := Some(t), depth := s.depth + 1,
                      threads := s1.threads[t := s.threads[t].(writeHolds := s.threads[t].writeHolds + 1)])
    ensures GotWrite(s, s', t, 0)
  {
    Fields(true, false, 0, q);
    assert s'.threads == s.threads[t := Thread(Idle, s.threads[t].readHolds, s.threads[t].writeHolds + 1)];
  }

  lemma TryLoads(s: State, t: nat, upgrade: bool, r: nat, q: nat)
    requires Found(s, t, false, false, r, q) && s.owner == None
    ensures var ok := r == if upgrade then 1 else 0;
            Alone(LockMutex(s, t, TryLoad(upgrade)), t, 3)
            == Alone(LockMutex(s, t, if ok then TryTake(s.word, upgrade) else TryRelease), t, 2)
  {
    hide Alone;
    Fields(false, false, r, q);
    var s1 := LockMutex(s, t, TryLoad(upgrade));
    AloneStep(s1, t, 3);
    assert StepCall(s1, t).threads == LockMutex(s, t, if r == (if upgrade then 1 else 0) then TryTake(s.word, upgrade) else TryRelease).threads;
  }

  lemma TrySwaps(s: State, t: nat, upgrade: bool)
    requires t < |s.threads| && (upgrade ==> s.threads[t].readHolds > 0)
    ensures var th, gave := s.threads[t], if upgrade then 1 else 0;
            StepCall(LockMutex(s, t, TryTake(s.word, upgrade)), t) ==
            s.(word := TakeForWriting(s.word), owner := Some(t), depth := s.depth + 1,
               threads := s.threads[t := Thread(Idle, th.readHolds - gave, th.writeHolds + 1)])
  {
    hide TakeForWriting;
    var th, gave := s.threads[t], if upgrade then 1 else 0;
    var s2 := LockMutex(s, t, TryTake(s.word, upgrade));
    assert StepCall(s2, t) == TryTakeStep(s2, t, s.word, upgrade);
    assert TryTakeStep(s2, t, s.word, upgrade).threads == s.threads[t := Thread(Idle, th.readHolds - gave, th.writeHolds + 1)];
  }

  lemma TrySwapsAlone(s: State, t: nat, upgrade: bool)
    requires t < |s.threads| && (upgrade ==> s.threads[t].readHolds > 0)
    ensures var th, gave := s.threads[t], if upgrade then 1 else 0;
            Alone(LockMutex(s, t, TryTake(s.word, upgrade)), t, 2) ==
            s.(word := TakeForWriting(s.word), owner := Some(t), depth := s.depth + 1,
               threads := s.threads[t := Thread(Idle, th.readHolds - gave, th.writeHolds + 1)])
  {
    hide Alone, StepCall, TakeForWriting;
    var s2 := LockMutex(s, t, TryTake(s.word, upgrade));
    TrySwaps(s, t, upgrade);
    AloneStep(s2, t, 2);
    AloneBack(StepCall(s2, t), t, 1);
  }

  lemma TryTaken(s: State, t: nat, upgrade: bool, r: nat, q: nat)
    requires Found(s, t, false, false, r, q) && s.owner == None && (upgrade ==> s.threads[t].readHolds > 0)
    ensures GotWrite(s, Alone(LockMutex(s, t, TryTake(s.word, upgrade)), t, 2), t, if upgrade then 1 else 0)
  {
    hide Alone, GotWrite, StepCall, LockMutex;
    TrySwapsAlone(s, t, upgrade);
    OneWriterMore(s, Alone(LockMutex(s, t, TryTake(s.word, upgrade)), t, 2), t, false, r, q, if upgrade then 1 else 0);
  }

  lemma TryAgain(s: State, t: nat, w: bool, p: bool, r: nat, q: nat)
    requires Found(s, t, w, p, r, q) && s.threads[t].writeHolds > 0
    ensures GotWrite(s, Alone(LockMutex(s, t, TryLoad(false)), t, 3), t, 0)
  {
    hide Alone, GotWrite;
    Fields(w, p, r, q);
    var s1 := LockMutex(s, t, TryLoad(false));
    AloneStep(s1, t, 3);
    var s2 := StepCall(s1, t);
    AloneBack(s2, t, 2);
    WriteAgain(s, s1, s2, t, w, p, r, q);
  }

  lemma TryRefused(s: State, t: nat)
    requires t < |s.threads| && s.threads[t].pc == Idle && s.owner == None && s.depth == 0
    ensures Alone(LockMutex(s, t, TryRelease), t, 2) == s
  {
    hide Alone;
    var s2 := LockMutex(s, t, TryRelease);
    AloneStep(s2, t, 2);
    assert StepCall(s2, t).threads == s.threads;
    AloneBack(s, t, 1);
  }

  /**
    try_wlock() gets the lock exactly if no other thread has the writer mutex,
    and nobody reads or the caller writes already; else nothing has changed.
   */
  lemma TryWlockAlone(n: nat, run: seq<State>, i: nat, t: nat)
    requires IsRun(n, run) && i < |run| && Enabled(run[i], t, TryWlock)
    ensures var s := run[i];
            var s' := Alone(Next(s, t, TryWlock), t, 3);
            if MutexFree(s, t) && (Owning(s.word) == 0 || s.threads[t].writeHolds > 0) then GotWrite(s, s', t, 0) else s' == s
  {
    hide IsRun, Inv, Alone, GotWrite, Sum;
    var s := run[i];
    RunInv(n, run, i);
    var w, p, r, q := FindLock(s, t);
    if !MutexFree(s, t) { AloneBack(s, t, 3); }
    else if s.threads[t].writeHolds > 0 { TryAgain(s, t, w, p, r, q); }
    else {
      TryLoads(s, t, false, r, q);
      if r == 0 { TryTaken(s, t, false, r, q); } else { TryRefused(s, t); }
    }
  }

  /**
    try_upgrade() turns a read hold into a write hold exactly if no other thread
    has the writer mutex and the caller's is the only read hold; else nothing has changed.
   */
  lemma TryUpgradeAlone(n: nat, run: seq<State>, i: nat, t: nat)
    requires IsRun(n, run) && i < |run| && Enabled(run[i], t, TryUpgrade)
    ensures var s := run[i];
            var s' := Alone(Next(s, t, TryUpgrade), t, 3);
            if MutexFree(s, t) && Owning(s.word) == 1 then GotWrite(s, s', t, 1) else s' == s
    ensures MutexFree(run[i], t) ==> !WriterLocked(run[i].word) && !PendingWriter(run[i].word)
  {
    hide IsRun, Inv, Alone, GotWrite, Sum;
    var s := run[i];
    RunInv(n, run, i);
    var w, p, r, q := FindLock(s, t);
    if !MutexFree(s, t) { AloneBack(s, t, 3); }
    else {
      TryLoads(s, t, true, r, q);
      if r == 1 { TryTaken(s, t, true, r, q); } else { TryRefused(s, t); }
    }
  }

  /** A writer at this point of wlock(), with the mutex, the word and the wait flag as given. */
  function Writing(s: State, t: nat, pc: Pc, x: Word, wait: bool): State
    requires t < |s.threads|
  {
    s.(word := x, writerWait := wait, owner := Some(t), depth := s.depth + 1, threads := s.threads[t := s.threads[t].(pc := pc)])
  }

  lemma ChecksNoWriter(s: State, t: nat)
    requires t < |s.threads| && !WriterLocked(s.word)
    ensures StepCall(LockMutex(s, t, WriteCheck), t) == Writing(s, t, WriteSetWait, s.word, s.writerWait)
  {
    var s1 := LockMutex(s, t, WriteCheck);
    assert StepCall(s1, t) == WriteCheckStep(s1, t) == Goto(s1, t, WriteSetWait);
    assert Goto(s1, t, WriteSetWait).threads == Writing(s, t, WriteSetWait, s.word, s.writerWait).threads;
  }

  lemma SetsWait(s: State, t: nat, x: Word)
    requires t < |s.threads|
    ensures StepCall(Writing(s, t, WriteSetWait, x, s.writerWait), t) == Writing(s, t, WriteAnnounce, x, true)
  {
    var s2 := Writing(s, t, WriteSetWait, x, s.writerWait);
    assert StepCall(s2, t) == Goto(s2, t, WriteAnnounce).(writerWait := true);
    assert Goto(s2, t, WriteAnnounce).threads == Writing(s, t, WriteAnnounce, x, true).threads;
  }

  lemma SetsPending(s: State, t: nat, x: Word)
    requires t < |s.threads|
    ensures var y := SetPendingWriter(x); StepCall(Writing(s, t, WriteAnnounce, x, true), t) == Writing(s, t, WriteTry(y), y, true)
  {
    hide SetPendingWriter;
    var s3, y := Writing(s, t, WriteAnnounce, x, true), SetPendingWriter(x);
    assert StepCall(s3, t) == WriteAnnounceStep(s3, t);
    assert WriteAnnounceStep(s3, t).threads == Writing(s, t, WriteTry(y), y, true).threads;
  }

  /** A writer alone comes to its first look at the readers. */
  lemma AnnouncesAlone(s: State, t: nat)
    requires t < |s.threads| && !WriterLocked(s.word)
    ensures var y := SetPendingWriter(s.word);
            Alone(LockMutex(s, t, WriteCheck), t, 5) == Alone(Writing(s, t, WriteTry(y), y, true), t, 2)
  {
    hide Alone, StepCall, WriterLocked, SetPendingWriter;
    ChecksNoWriter(s, t);
    AloneStep(LockMutex(s, t, WriteCheck), t, 5);
    SetsWait(s, t, s.word);
    AloneStep(Writing(s, t, WriteSetWait, s.word, s.writerWait), t, 4);
    SetsPending(s, t, s.word);
    AloneStep(Writing(s, t, WriteAnnounce, s.word, true), t, 3);
  }

  lemma Announces(s: State, t: nat, r: nat, q: nat)
    requires Found(s, t, false, false, r, q) && s.owner == None
    ensures var y := Pack(false, true, r, q);
            Alone(LockMutex(s, t, WriteCheck), t, 5) == Alone(Writing(s, t, WriteTry(y), y, true), t, 2)
  {
    hide Alone, StepCall, Writing, LockMutex;
    Fields(false, false, r, q);
    AddPendingWriter(r, q);
    AnnouncesAlone(s, t);
  }

  lemma Takes(s: State, t: nat, y: Word)
    requires t < |s.threads| && Owning(y) == 0
    ensures StepCall(Writing(s, t, WriteTry(y), y, true), t) ==
            Writing(s, t, WriteClearWait, TakeForWriting(y), true)
              .(threads := s.threads[t := Thread(WriteClearWait, s.threads[t].readHolds, s.threads[t].writeHolds + 1)])
  {
    hide TakeForWriting;
    var s4 := Writing(s, t, WriteTry(y), y, true);
    assert StepCall(s4, t) == WriteTryStep(s4, t, y);
    assert WriteTryStep(s4, t, y).threads == s.threads[t := Thread(WriteClearWait, s.threads[t].readHolds, s.threads[t].writeHolds + 1)];
  }

  lemma ClearsWait(s: State, t: nat, z: Word)
    requires t < |s.threads|
    ensures var th := s.threads[t];
            var s5 := Writing(s, t, WriteClearWait, z, true).(threads := s.threads[t := Thread(WriteClearWait, th.readHolds, th.writeHolds + 1)]);
            StepCall(s5, t) == Writing(s, t, Idle, z, false).(threads := s.threads[t := Thread(Idle, th.readHolds, th.writeHolds + 1)])
  {
    var th := s.threads[t];
    var s5 := Writing(s, t, WriteClearWait, z, true).(threads := s.threads[t := Thread(WriteClearWait, th.readHolds, th.writeHolds + 1)]);
    assert StepCall(s5, t) == Goto(s5, t, Idle).(writerWait := false);
    assert Goto(s5, t, Idle).threads == s.threads[t := Thread(Idle, th.readHolds, th.writeHolds + 1)];
  }

  /** The state of a writer that has got the lock, but for the wait flag. */
  function Written(s: State, t: nat, z: Word): State
    requires t < |s.threads|
  {
    s.(word := z, owner := Some(t), depth := s.depth + 1,
       threads := s.threads[t := Thread(Idle, s.threads[t].readHolds, s.threads[t].writeHolds + 1)])
  }

  lemma TakesAlone(s: State, t: nat, y: Word)
    requires t < |s.threads| && Owning(y) == 0
    ensures Alone(Writing(s, t, WriteTry(y), y, true), t, 2) == Written(s, t, TakeForWriting(y)).(writerWait := false)
  {
    hide Alone, StepCall, Owning, TakeForWriting;
    Takes(s, t, y);
    AloneStep(Writing(s, t, WriteTry(y), y, true), t, 2);
    var s5 := StepCall(Writing(s, t, WriteTry(y), y, true), t);
    ClearsWait(s, t, TakeForWriting(y));
    AloneStep(s5, t, 1);
    AloneNone(StepCall(s5, t), t);
  }

  lemma AnnouncedTakes(s: State, t: nat, q: nat)
    requires Found(s, t, false, false, 0, q) && s.owner == None
    ensures var y := Pack(false, true, 0, q);
            var s' := Alone(Writing(s, t, WriteTry(y), y, true), t, 2);
            GotWrite(s, s'.(writerWait := s.writerWait), t, 0)
  {
    hide Alone, StepCall, GotWrite, Writing;
    var y := Pack(false, true, 0, q);
    Fields(false, true, 0, q);
    TakesAlone(s, t, y);
    SwitchWriter(false, true, 0, q);
    SwitchWriter(false, false, 0, q);
    OneWriterMore(s, Written(s, t, TakeForWriting(y)), t, false, 0, q, 0);
  }

  lemma AnnouncedWaits(s: State, t: nat, r: nat, q: nat)
    requires Found(s, t, false, false, r, q) && s.owner == None && r > 0
    ensures var y := Pack(false, true, r, q);
            var s' := Alone(Writing(s, t, WriteTry(y), y, true), t, 2);
            |s'.threads| == |s.threads| && s'.threads[t].pc == WriteSleep && s'.writerWait && PendingWriter(s'.word)
  {
    hide Alone;
    var y := Pack(false, true, r, q);
    Fields(false, true, r, q);
    var s4 := Writing(s, t, WriteTry(y), y, true);
    AloneStep(s4, t, 2);
    assert StepCall(s4, t) == WriteTryStep(s4, t, y);
    AloneAsleep(StepCall(s4, t), t, 1);
  }

  lemma AloneAsleep(s: State, t: nat, k: nat)
    requires t < |s.threads| && s.threads[t].pc == WriteSleep && s.writerWait
    ensures Alone(s, t, k) == s
  {}

  lemma LockAgain(s: State, t: nat, w: bool, p: bool, r: nat, q: nat)
    requires Found(s, t, w, p, r, q) && s.threads[t].writeHolds > 0
    ensures GotWrite(s, Alone(LockMutex(s, t, WriteCheck), t, 5), t, 0)
  {
    hide Alone, GotWrite;
    Fields(w, p, r, q);
    var s1 := LockMutex(s, t, WriteCheck);
    AloneStep(s1, t, 5);
    var s2 := StepCall(s1, t);
    AloneBack(s2, t, 4);
    WriteAgain(s, s1, s2, t, w, p, r, q);
  }

  /** wlock() past the writer mutex gets the lock at once exactly if nobody reads; else it is pending and sleeps. */
  lemma WlockAlone(n: nat, run: seq<State>, i: nat, t: nat)
    requires IsRun(n, run) && i < |run| && Enabled(run[i], t, Wlock)
    ensures var s := run[i];
            var s' := Alone(Next(s, t, Wlock), t, 5);
            if Owning(s.word) == 0 then GotWrite(s, s'.(writerWait := s.writerWait), t, 0)
            else |s'.threads| == |s.threads| && s'.threads[t].pc == WriteSleep && s'.writerWait && PendingWriter(s'.word)
  {
    hide IsRun, Inv, Alone, GotWrite, Sum;
    var s := run[i];
    RunInv(n, run, i);
    var w, p, r, q := FindLock(s, t);
    if s.threads[t].writeHolds > 0 {
      LockAgain(s, t, w, p, r, q);
      KeepsWait(s, Alone(Next(s, t, Wlock), t, 5), t);
    }
    else {
      Announces(s, t, r, q);
      if r == 0 { AnnouncedTakes(s, t, q); } else { AnnouncedWaits(s, t, r, q); }
    }
  }

  lemma KeepsWait(s: State, s': State, t: nat)
    requires GotWrite(s, s', t, 0)
    ensures GotWrite(s, s'.(writerWait := s.writerWait), t, 0)
  {}

  // ------------------------------------------------- readers in their order

  ghost predicate Before(q: seq<nat>, x: nat, y: nat) {
    exists p, r :: 0 <= p < r < |q| && q[p] == x && q[r] == y
  }

  /** What a step makes of the queue of pending readers. */
  predicate QueueStep(q: seq<nat>, q': seq<nat>, t: nat) {
    q' == q || q' == q + [t] || (q != [] && q' == q[1..])
  }

  lemma EnterQueue(s: State, t: nat)
    requires t < |s.threads| && Entering(s.threads[t].pc)
    ensures QueueStep(s.queue, StepCall(s, t).queue, t)
  {
    hide Add, Owning, Pending, PendingWriter, WriterLocked;
  }

  lemma LeaveQueue(s: State, t: nat)
    requires t < |s.threads| && Leaving(s.threads[t].pc)
    ensures QueueStep(s.queue, StepCall(s, t).queue, t)
  {
    hide Add, Owning, Pending, PendingWriter, WriterLocked;
  }

  lemma ReaderQueue(s: State, t: nat)
    requires t < |s.threads| && !Entering(s.threads[t].pc) && !Leaving(s.threads[t].pc)
    ensures QueueStep(s.queue, StepCall(s, t).queue, t)
  {
    hide Add, Owning, Pending, PendingWriter, WriterLocked;
  }

  lemma QueueChanges(s: State, t: nat, a: Action)
    requires Enabled(s, t, a)
    ensures QueueStep(s.queue, Next(s, t, a).queue, t)
  {
    hide Sum, StepCall, Add, Owning, Pending, PendingWriter, WriterLocked;
    if a == Step {
      if Entering(s.threads[t].pc) { EnterQueue(s, t); }
      else if Leaving(s.threads[t].pc) { LeaveQueue(s, t); }
      else { ReaderQueue(s, t); }
    }
  }

  lemma StaysBefore(q: seq<nat>, q': seq<nat>, t: nat, x: nat, y: nat)
    requires Before(q, x, y) && x in q' && (forall i, j :: 0 <= i < j < |q| ==> q[i] != q[j])
    requires QueueStep(q, q', t)
    ensures Before(q', x, y)
  {
    var p, r :| 0 <= p < r < |q| && q[p] == x && q[r] == y;
    if q != [] && q' == q[1..] {
      assert p > 0;
      assert q'[p - 1] == x && q'[r - 1] == y;
    } else {
      assert q'[p] == x && q'[r] == y;
    }
  }

  /** As long as a pending reader stays queued, none that was queued behind it leaves the queue or gets ahead of it. */
  lemma {:induction false} NobodyOvertakes(n: nat, run: seq<State>, i: nat, j: nat, x: nat, y: nat)
    requires IsRun(n, run) && i <= j < |run| && Before(run[i].queue, x, y)
    requires forall k :: i <= k <= j ==> x in run[k].queue
    ensures Before(run[j].queue, x, y)
    decreases j
  {
    hide Before, Inv, Next, Enabled, Sum, QueueStep;
    if i < j {
      NobodyOvertakes(n, run, i, j - 1, x, y);
      RunInv(n, run, j - 1);
      assert Follows(run[j - 1], run[j]);
      var t: nat, a :| Enabled(run[j - 1], t, a) && run[j] == Next(run[j - 1], t, a);
      QueueChanges(run[j - 1], t, a);
      assert QueueOk(run[j - 1]) by { InvQueue(run[j - 1]); }
      StaysBefore(run[j - 1].queue, run[j].queue, t, x, y);
    }
  }

  lemma InvQueue(s: State)
    requires Inv(s)
    ensures QueueOk(s)
  {}

  // ------------------------------------------------------------ who may call

  lemma ServerSize(s: State, t: nat)
    requires t < |s.threads| && ServesReader(s.threads[t].pc)
    ensures |StepCall(s, t).threads| == |s.threads|
  {
    hide Add, Owning, Pending, PendingWriter, WriterLocked, WriteTryStep, ReadTryStep, TryTakeStep, TryLoadStep;
  }

  lemma SameThreads(s: State, t: nat, a: Action)
    requires Enabled(s, t, a)
    ensures |Next(s, t, a).threads| == |s.threads|
  {
    hide StepCall, Sum, Add, Owning, Pending, PendingWriter, WriterLocked;
    if a == Step {
      if ServesReader(s.threads[t].pc) { ServerSize(s, t); }
      else if Entering(s.threads[t].pc) { EnterMoves(s, t, t); }
      else if Leaving(s.threads[t].pc) { LeaveMoves(s, t, t); }
      else { ReaderMoves(s, t, t); }
    }
  }

  lemma {:induction false} ThreadsStay(n: nat, run: seq<State>, i: nat)
    requires IsRun(n, run) && i < |run|
    ensures |run[i].threads| == n
  {
    hide Inv, Next, Enabled, Sum;
    if i > 0 {
      ThreadsStay(n, run, i - 1);
      assert Follows(run[i - 1], run[i]);
      var t: nat, a :| Enabled(run[i - 1], t, a) && run[i] == Next(run[i - 1], t, a);
      SameThreads(run[i - 1], t, a);
    }
  }

  /**
    In every state of every run, each of the n threads that is outside may try
    to write, read below the limit of readers, release what it holds, and lock
    for writing as soon as no other thread has the writer mutex.
   */
  lemma MayCall(n: nat, run: seq<State>, i: nat, t: nat)
    requires IsRun(n, run) && i < |run| && t < n
    ensures |run[i].threads| == n
    ensures run[i].threads[t].pc == Idle ==>
              && Enabled(run[i], t, TryWlock) && (Enabled(run[i], t, Wlock) <==> MutexFree(run[i], t))
              && (Sum(run[i].threads, Claims) < MAX_READERS ==> Enabled(run[i], t, Rlock) && Enabled(run[i], t, TryRlock))
              && (Enabled(run[i], t, Runlock) <==> run[i].threads[t].readHolds > 0)
              && (Enabled(run[i], t, TryUpgrade) <==> run[i].threads[t].readHolds > 0)
              && (Enabled(run[i], t, Wunlock) <==> run[i].threads[t].writeHolds > 0)
  {
    ThreadsStay(n, run, i);
  }
}
