/**
  The reader-writer lock of core/rwlock.cc as a step system over its packed
  32-bit word.  Every atomic operation on `_readers`, `_writer_wait` and
  `_read_waiters` is one step of one thread; `_wmtx` is a recursive mutex
  whose lock() and unlock() are single steps.
 */
module RwWord {

  const WRITER_LOCK := 0x8000_0000
  const PENDING_WRITER := 0x4000_0000
  const READER_LOCK_INC := 0x1_0000

  /** The most reader acquisitions that may be outstanding at a time. */
  const MAX_READERS := 16383

  type Word = x: nat | x < 0x1_0000_0000

  /** x & PENDING_READERS_MASK */
  function Pending(x: Word): nat { x % READER_LOCK_INC }

  /** (x & READERS_MASK) in units of READER_LOCK_INC */
  function Owning(x: Word): nat { x / READER_LOCK_INC % 0x4000 }

  predicate PendingWriter(x: Word) { x / PENDING_WRITER % 2 == 1 }

  predicate WriterLocked(x: Word) { x / WRITER_LOCK == 1 }

  /** fetch_add on an unsigned 32-bit word. */
  function Add(x: Word, d: int): Word { (x + d) % 0x1_0000_0000 }

  /** x | PENDING_WRITER */
  function SetPendingWriter(x: Word): Word {
    if PendingWriter(x) then x else Add(x, PENDING_WRITER)
  }

  /** x & ~WRITER_LOCK */
  function ClearWriter(x: Word): Word { x % WRITER_LOCK }

  /** WRITER_LOCK | (x & PENDING_READERS_MASK) */
  function TakeForWriting(x: Word): Word { WRITER_LOCK + Pending(x) }

  /** The word that holds the four fields side by side. */
  function Pack(writer: bool, pending: bool, owning: nat, waiting: nat): Word
    requires owning < 0x4000 && waiting < 0x1_0000
  {
    (if writer then WRITER_LOCK else 0) + (if pending then PENDING_WRITER else 0)
    + owning * READER_LOCK_INC + waiting
  }

  lemma Fields(w: bool, p: bool, r: nat, q: nat)
    requires r < 0x4000 && q < 0x1_0000
    ensures var x := Pack(w, p, r, q);
            && WriterLocked(x) == w && PendingWriter(x) == p && Owning(x) == r && Pending(x) == q
            && (x < PENDING_WRITER <==> !w && !p) && (x < WRITER_LOCK <==> !w)
  {}

  // Each operation on the word is an operation on its fields, as long as no
  // field is full.

  lemma AddReader(w: bool, p: bool, r: nat, q: nat)
    requires r + 1 < 0x4000 && q < 0x1_0000
    ensures Add(Pack(w, p, r, q), READER_LOCK_INC) == Pack(w, p, r + 1, q)
    ensures Add(Pack(w, p, r + 1, q), -READER_LOCK_INC) == Pack(w, p, r, q)
  {}

  lemma AddPendingReader(w: bool, p: bool, r: nat, q: nat)
    requires r < 0x4000 && q + 1 < 0x1_0000
    ensures Add(Pack(w, p, r, q), 1) == Pack(w, p, r, q + 1)
  {}

  lemma PromoteReader(w: bool, p: bool, r: nat, q: nat)
    requires r + 1 < 0x4000 && 0 < q < 0x1_0000
    ensures Add(Pack(w, p, r, q), READER_LOCK_INC - 1) == Pack(w, p, r + 1, q - 1)
  {}

  lemma AddPendingWriter(r: nat, q: nat)
    requires r < 0x4000 && q < 0x1_0000
    ensures SetPendingWriter(Pack(false, false, r, q)) == Pack(false, true, r, q)
    ensures Add(Pack(false, true, r, q), PENDING_WRITER) == Pack(true, false, r, q)
  {}

  lemma SwitchWriter(w: bool, p: bool, r: nat, q: nat)
    requires r < 0x4000 && q < 0x1_0000
    ensures ClearWriter(Pack(w, p, r, q)) == Pack(false, p, r, q)
    ensures TakeForWriting(Pack(w, p, r, q)) == Pack(true, false, 0, q)
  {}

  /** The limit is real: one reader more carries into the pending-writer bit. */
  lemma TooManyReaders(q: nat)
    requires q < 0x1_0000
    ensures Add(Pack(false, false, MAX_READERS, q), READER_LOCK_INC) == Pack(false, true, 0, q)
  {}
}

module RwLock {
  import opened RwWord
  import opened Tally

  datatype Option<T> = None | Some(value: T)

  datatype Pc =
    | Idle
    // rlock() and, with once, try_rlock()
    | ReadLoad(once: bool)
    | ReadTry(seen: Word, once: bool)   // loop of compare-and-swap
    | ReadCount(seen: Word)             // about to join the pending readers
    | ReadRetry(seen: Word)             // counted as pending, second loop
    | ReadPush
    | ReadSleep                         // queued in _read_waiters
    | ReadPopped                        // taken from it, not yet counted as owner
    | ReadGranted                       // counted as owner, not yet told
    | ReadWoken
    // runlock() of the last reader under a pending writer
    | LastLoadOwner
    | LastStore(writer: nat)
    // wlock()
    | WriteCheck
    | WriteSetWait
    | WriteAnnounce
    | WriteTry(seen: Word)
    | WriteClearWait
    | WriteSleep
    | WriteAdd
    // try_wlock() and try_upgrade()
    | TryLoad(upgrade: bool)
    | TryTake(seen: Word, upgrade: bool)
    | TryRelease
    // wunlock() and downgrade()
    | UnlockClear
    | DownLoad
    | DownTry(seen: Word)
    | DownCount
    // wake_pending_readers()
    | Serve(pending: nat)
    | ServeReload
    | Grant(reader: nat)
    | Notify(reader: nat, pending: nat)
    | Release

  /** `readHolds` and `writeHolds` count unmatched successful acquisitions. */
  datatype Thread = Thread(pc: Pc, readHolds: nat, writeHolds: nat)

  datatype State = State(
    word: Word,                         // _readers
    writerWait: bool,                   // _writer_wait
    owner: Option<nat>,                 // _wmtx
    depth: nat,
    queue: seq<nat>,                    // _read_waiters
    threads: seq<Thread>,
    last: Option<nat>,                  // last reader on its way to the writer; bookkeeping
    asserts: bool
  )

  function Init(n: nat): State {
    State(0, false, None, 0, [], seq(n, _ => Thread(Idle, 0, 0)), None, true)
  }

  /** Read acquisitions that a thread holds or has asked for. */
  function Claims(th: Thread): nat {
    th.readHolds + if Acquiring(th.pc) then 1 else 0
  }

  predicate Acquiring(pc: Pc) {
    || pc.ReadLoad? || pc.ReadTry? || pc.ReadCount? || pc.ReadRetry?
    || pc == ReadPush || pc == ReadSleep || pc == ReadPopped
    || pc == DownLoad || pc.DownTry?
  }

  datatype Action =
    | Rlock | TryRlock | Runlock
    | Wlock | TryWlock | TryUpgrade | Wunlock | Downgrade
    | Step
    | WeakFail                          // a weak compare-and-swap fails for no reason

  predicate Enabled(s: State, t: nat, a: Action) {
    t < |s.threads| &&
    var th := s.threads[t];
    match a
    case Rlock => th.pc == Idle && Sum(s.threads, Claims) < MAX_READERS
    case TryRlock => th.pc == Idle && Sum(s.threads, Claims) < MAX_READERS
    case Runlock => th.pc == Idle && th.readHolds > 0
    case Wlock => th.pc == Idle && MutexFree(s, t)
    case TryWlock => th.pc == Idle
    case TryUpgrade => th.pc == Idle && th.readHolds > 0
    case Wunlock => th.pc == Idle && th.writeHolds > 0
    case Downgrade => th.pc == Idle && th.writeHolds > 0 && Sum(s.threads, Claims) < MAX_READERS
    case Step => CanStep(s, th.pc)
    case WeakFail =>
      || ((th.pc.ReadTry? || th.pc.ReadRetry?) && th.pc.seen < PENDING_WRITER)
      || (th.pc.WriteTry? && Owning(th.pc.seen) == 0)
      || th.pc.DownTry?
  }

  predicate MutexFree(s: State, t: nat) {
    s.owner == None || s.owner == Some(t)
  }

  predicate CanStep(s: State, pc: Pc) {
    && pc != Idle && pc != ReadSleep && pc != ReadPopped && pc != ReadGranted
    && (pc == WriteSleep ==> !s.writerWait)
  }

  function Goto(s: State, t: nat, pc: Pc): State
    requires t < |s.threads|
  {
    s.(threads := s.threads[t := s.threads[t].(pc := pc)])
  }

  // ------------------------------------------------------------ client calls

  /** runlock(): fetch_add(-READER_LOCK_INC) and the two asserts. */
  function BeginRunlock(s: State, t: nat): State
    requires t < |s.threads| && s.threads[t].readHolds > 0
  {
    var x := s.word;
    var isLast := Owning(x) == 1 && PendingWriter(x);
    s.(word := Add(x, -READER_LOCK_INC),
       threads := s.threads[t := s.threads[t].(pc := if isLast then LastLoadOwner else Idle,
                                               readHolds := s.threads[t].readHolds - 1)],
       last := if isLast then Some(t) else s.last,
       asserts := s.asserts && x > 0 && x < WRITER_LOCK)
  }

  /** _wmtx.lock() or a successful _wmtx.try_lock(). */
  function LockMutex(s: State, t: nat, pc: Pc): State
    requires t < |s.threads|
  {
    Goto(s, t, pc).(owner := Some(t), depth := s.depth + 1)
  }

  /** _wmtx.try_lock(): the call is over if the mutex belongs to another thread. */
  function TryMutex(s: State, t: nat, pc: Pc): State
    requires t < |s.threads|
  {
    if MutexFree(s, t) then LockMutex(s, t, pc) else s
  }

  function BeginWunlock(s: State, t: nat): State
    requires t < |s.threads| && s.threads[t].writeHolds > 0
  {
    var th := s.threads[t];
    var s' := s.(asserts := s.asserts && WriterLocked(s.word));
    if s.depth > 1 then
      s'.(depth := s.depth - 1, threads := s.threads[t := th.(writeHolds := th.writeHolds - 1)])
    else
      s'.(threads := s.threads[t := th.(writeHolds := th.writeHolds - 1, pc := UnlockClear)])
  }

  function BeginDowngrade(s: State, t: nat): State
    requires t < |s.threads|
  {
    s.(asserts := s.asserts && WriterLocked(s.word),
       threads := s.threads[t := s.threads[t].(writeHolds := 0, pc := DownLoad)])
  }

  // ------------------------------------------------------ one step of a call

  function ReadLoadStep(s: State, t: nat, once: bool): State
    requires t < |s.threads|
  {
    Goto(s, t, ReadTry(s.word, once)).(asserts := s.asserts && Owning(s.word) + 1 < 0x4000)
  }

  function ReadTryStep(s: State, t: nat, seen: Word, once: bool): State
    requires t < |s.threads|
  {
    if seen >= PENDING_WRITER then Goto(s, t, if once then Idle else ReadCount(seen))
    else if s.word == seen then
      s.(word := Add(seen, READER_LOCK_INC),
         threads := s.threads[t := s.threads[t].(pc := Idle, readHolds := s.threads[t].readHolds + 1)])
    else Goto(s, t, ReadTry(s.word, once))
  }

  function ReadCountStep(s: State, t: nat, seen: Word): State
    requires t < |s.threads|
  {
    Goto(s, t, ReadRetry(Add(s.word, 1)))
      .(word := Add(s.word, 1), asserts := s.asserts && Pending(seen) + 1 < READER_LOCK_INC)
  }

  function ReadRetryStep(s: State, t: nat, seen: Word): State
    requires t < |s.threads|
  {
    if seen >= PENDING_WRITER then Goto(s, t, ReadPush)
    else if s.word == seen then
      s.(word := Add(seen, READER_LOCK_INC - 1),
         threads := s.threads[t := s.threads[t].(pc := Idle, readHolds := s.threads[t].readHolds + 1)])
    else Goto(s, t, ReadRetry(s.word))
  }

  function LastLoadOwnerStep(s: State, t: nat): State
    requires t < |s.threads|
  {
    if s.owner.Some? then Goto(s, t, LastStore(s.owner.value)) else Goto(s, t, Idle).(last := None)
  }

  function WriteAnnounceStep(s: State, t: nat): State
    requires t < |s.threads|
  {
    Goto(s, t, WriteTry(SetPendingWriter(s.word))).(word := SetPendingWriter(s.word))
  }

  function WriteTryStep(s: State, t: nat, seen: Word): State
    requires t < |s.threads|
  {
    if Owning(seen) != 0 then Goto(s, t, WriteSleep)
    else if s.word == seen then
      s.(word := TakeForWriting(seen),
         threads := s.threads[t := s.threads[t].(pc := WriteClearWait, writeHolds := s.threads[t].writeHolds + 1)])
    else Goto(s, t, WriteTry(s.word))
  }

  /** fetch_add(PENDING_WRITER) turns the pending bit into the writer bit. */
  function WriteAddStep(s: State, t: nat): State
    requires t < |s.threads|
  {
    s.(word := Add(s.word, PENDING_WRITER),
       threads := s.threads[t := s.threads[t].(pc := Idle, writeHolds := s.threads[t].writeHolds + 1)])
  }

  function WriteCheckStep(s: State, t: nat): State
    requires t < |s.threads|
  {
    if WriterLocked(s.word) then
      s.(threads := s.threads[t := s.threads[t].(pc := Idle, writeHolds := s.threads[t].writeHolds + 1)])
    else Goto(s, t, WriteSetWait)
  }

  function TryLoadStep(s: State, t: nat, upgrade: bool): State
    requires t < |s.threads|
  {
    var x := s.word;
    if upgrade then
      Goto(s, t, if Owning(x) == 1 && !PendingWriter(x) && !WriterLocked(x) then TryTake(x, true) else TryRelease)
    else if Owning(x) == 0 && !WriterLocked(x) then Goto(s, t, TryTake(x, false))
    else if WriterLocked(x) then
      s.(threads := s.threads[t := s.threads[t].(pc := Idle, writeHolds := s.threads[t].writeHolds + 1)])
    else Goto(s, t, TryRelease)
  }

  function TryTakeStep(s: State, t: nat, seen: Word, upgrade: bool): State
    requires t < |s.threads|
  {
    var th := s.threads[t];
    if s.word != seen then Goto(s, t, TryRelease)
    else
      s.(word := TakeForWriting(seen),
         threads := s.threads[t := Thread(Idle, if upgrade && th.readHolds > 0 then th.readHolds - 1 else th.readHolds, th.writeHolds + 1)])
  }

  function TryReleaseStep(s: State, t: nat): State
    requires t < |s.threads|
  {
    var depth := if s.depth > 0 then s.depth - 1 else 0;
    Goto(s, t, Idle).(depth := depth, owner := if depth == 0 then None else s.owner)
  }

  function UnlockClearStep(s: State, t: nat): State
    requires t < |s.threads|
  {
    Goto(s, t, Serve(Pending(s.word))).(word := ClearWriter(s.word))
  }

  function DownLoadStep(s: State, t: nat): State
    requires t < |s.threads|
  {
    Goto(s, t, DownTry(s.word)).(asserts := s.asserts && Owning(s.word) + 1 < 0x4000)
  }

  function DownTryStep(s: State, t: nat, seen: Word): State
    requires t < |s.threads|
  {
    if s.word == seen then
      s.(word := Add(ClearWriter(seen), READER_LOCK_INC),
         threads := s.threads[t := s.threads[t].(pc := DownCount, readHolds := s.threads[t].readHolds + 1)])
    else Goto(s, t, DownTry(s.word))
  }

  function ServeStep(s: State, t: nat, pending: nat): State
    requires t < |s.threads|
  {
    if pending == 0 then Goto(s, t, Release)
    else if s.queue == [] then Goto(s, t, ServeReload)
    else
      var s' := Goto(s, t, Grant(s.queue[0])).(queue := s.queue[1..]);
      if s.queue[0] < |s.threads| && s.queue[0] != t then Goto(s', s.queue[0], ReadPopped)
      else s'.(asserts := false)
  }

  /** fetch_add(READER_LOCK_INC - 1) on behalf of the popped reader. */
  function GrantStep(s: State, t: nat, reader: nat): State
    requires t < |s.threads|
  {
    var s' := Goto(s, t, Notify(reader, Pending(s.word))).(word := Add(s.word, READER_LOCK_INC - 1));
    if reader < |s.threads| && reader != t then
      s'.(threads := s'.threads[reader := Thread(ReadGranted, s.threads[reader].readHolds + 1, s.threads[reader].writeHolds)])
    else s'.(asserts := false)
  }

  function NotifyStep(s: State, t: nat, reader: nat, pending: nat): State
    requires t < |s.threads|
  {
    var s' := Goto(s, t, Serve(pending));
    if reader < |s.threads| && reader != t then Goto(s', reader, ReadWoken) else s'.(asserts := false)
  }

  function StepCall(s: State, t: nat): State
    requires t < |s.threads|
  {
    match s.threads[t].pc
    case Idle => s
    case ReadLoad(once) => ReadLoadStep(s, t, once)
    case ReadTry(seen, once) => ReadTryStep(s, t, seen, once)
    case ReadCount(seen) => ReadCountStep(s, t, seen)
    case ReadRetry(seen) => ReadRetryStep(s, t, seen)
    case ReadPush => Goto(s, t, ReadSleep).(queue := s.queue + [t])
    case ReadSleep => s
    case ReadPopped => s
    case ReadGranted => s
    case ReadWoken => Goto(s, t, Idle)
    case LastLoadOwner => LastLoadOwnerStep(s, t)
    case LastStore(_) => Goto(s, t, Idle).(writerWait := false, last := None)
    case WriteCheck => WriteCheckStep(s, t)
    case WriteSetWait => Goto(s, t, WriteAnnounce).(writerWait := true)
    case WriteAnnounce => WriteAnnounceStep(s, t)
    case WriteTry(seen) => WriteTryStep(s, t, seen)
    case WriteClearWait => Goto(s, t, Idle).(writerWait := false)
    case WriteSleep => Goto(s, t, WriteAdd)
    case WriteAdd => WriteAddStep(s, t)
    case TryLoad(upgrade) => TryLoadStep(s, t, upgrade)
    case TryTake(seen, upgrade) => TryTakeStep(s, t, seen, upgrade)
    case TryRelease => TryReleaseStep(s, t)
    case UnlockClear => UnlockClearStep(s, t)
    case DownLoad => DownLoadStep(s, t)
    case DownTry(seen) => DownTryStep(s, t, seen)
    case DownCount => Goto(s, t, Serve(Pending(s.word)))
    case Serve(pending) => ServeStep(s, t, pending)
    case ServeReload => Goto(s, t, Serve(Pending(s.word)))
    case Grant(reader) => GrantStep(s, t, reader)
    case Notify(reader, pending) => NotifyStep(s, t, reader, pending)
    case Release => Goto(s, t, Idle).(owner := None, depth := 0)
  }

  /** A failed compare-and-swap leaves the current word in the local copy. */
  function Refresh(s: State, t: nat): State
    requires t < |s.threads|
  {
    var pc := s.threads[t].pc;
    Goto(s, t,
         if pc.ReadTry? then ReadTry(s.word, pc.once)
         else if pc.ReadRetry? then ReadRetry(s.word)
         else if pc.WriteTry? then WriteTry(s.word)
         else DownTry(s.word))
  }

  function Next(s: State, t: nat, a: Action): State
    requires Enabled(s, t, a)
  {
    match a
    case Rlock => Goto(s, t, ReadLoad(false))
    case TryRlock => Goto(s, t, ReadLoad(true))
    case Runlock => BeginRunlock(s, t)
    case Wlock => LockMutex(s, t, WriteCheck)
    case TryWlock => TryMutex(s, t, TryLoad(false))
    case TryUpgrade => TryMutex(s, t, TryLoad(true))
    case Wunlock => BeginWunlock(s, t)
    case Downgrade => BeginDowngrade(s, t)
    case Step => StepCall(s, t)
    case WeakFail => Refresh(s, t)
  }

  ghost predicate Follows(s: State, s': State) {
    exists t: nat, a: Action :: Enabled(s, t, a) && s' == Next(s, t, a)
  }

  /** A run: states of `n` threads linked by enabled actions, in any interleaving. */
  ghost predicate IsRun(n: nat, run: seq<State>) {
    && |run| > 0 && run[0] == Init(n)
    && forall i :: 0 < i < |run| ==> Follows(run[i - 1], run[i])
  }
}
