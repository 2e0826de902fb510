/**
  In every run of the scheduler: a thread is on exactly the queue its status
  says, no wakeup is lost, a thread that ended never runs again, and a CPU
  whose thread blocks always has another one to run.
 */
module SchedProof {
  import opened Sched

  // --------------------------------------------------------------- invariant

  predicate IsCurrent(s: State, t: nat)
    requires t < |s.threads|
  {
    s.threads[t].cpu < |s.cpus| && s.cpus[s.threads[t].cpu].current == t
  }

  /** What the status of a thread can be at each point of its code. */
  predicate PcOk(th: Thread, current: bool, free: bool) {
    match th.pc
    case Normal => if current then th.status == Running else th.status in {Unstarted, Waiting, Waking, Queued}
    case Prepared => current && free && th.status in {Waiting, Waking}
    case InWait => if current then th.status == Running || (!free && th.status in {Waiting, Waking})
                   else th.status in {Waiting, Waking, Queued}
    case StopLoop => if current then th.status in {Waking, Running} else th.status in {Waking, Queued}
    case Exiting => th.status == Terminating || (th.status == Terminated && !current)
  }

  ghost predicate ThreadOk(s: State, t: nat)
    requires t < |s.threads|
  {
    var th := s.threads[t];
    && (th.status != Unstarted ==> th.cpu < |s.cpus|)
    && (th.status == Waking <==> th.place != Off)
    && (th.place != Off ==> th.place.source < |s.cpus|)
    && PcOk(th, th.status != Unstarted && IsCurrent(s, t),
            th.cpu < |s.cpus| && s.cpus[th.cpu].mode == Free)
  }

  /** What CPU c and thread t say about each other. */
  ghost predicate PairOk(s: State, c: nat, t: nat)
    requires c < |s.cpus| && t < |s.threads|
  {
    var cpu, th := s.cpus[c], s.threads[t];
    && (t in cpu.runq <==> th.status == Queued && th.cpu == c)
    && (t in cpu.flight <==> th.place == Flight(c))
    && (forall i: nat :: i < |cpu.incoming| ==> (t in cpu.incoming[i] <==> th.place == Incoming(i) && th.cpu == c))
    && (cpu.current == t ==> th.cpu == c && th.status != Unstarted)
    && (cpu.terminating == Some(t) <==> th.status == Terminating && th.cpu == c)
  }

  ghost predicate Distinct(q: seq<nat>, n: nat) {
    (forall i :: 0 <= i < |q| ==> q[i] < n) && forall i, j :: 0 <= i < j < |q| ==> q[i] != q[j]
  }

  /** A queue with wakeups is flagged, being drained, or about to be flagged. */
  predicate Flagged(s: State, c: nat, i: nat)
    requires c < |s.cpus| && i < |s.cpus|
  {
    var cpu := s.cpus[c];
    i in cpu.mask || (cpu.mode.Draining? && i in cpu.mode.sources) || c in s.cpus[i].marks
  }

  ghost predicate CpuOk(s: State, c: nat)
    requires c < |s.cpus|
  {
    var cpu := s.cpus[c];
    && |cpu.incoming| == |s.cpus| <= |s.threads| && cpu.current < |s.threads|
    && (cpu.terminating.Some? ==> cpu.terminating.value < |s.threads|)
    && (forall i :: i in cpu.mask ==> i < |s.cpus|)
    && (cpu.mode.Draining? ==> forall i :: i in cpu.mode.sources ==> i < |s.cpus|)
    && (forall i: nat :: i < |s.cpus| ==> Distinct(cpu.incoming[i], |s.threads|) && (cpu.incoming[i] != [] ==> Flagged(s, c, i)))
    && (forall t :: t in cpu.runq || t in cpu.flight ==> t < |s.threads|)
    && (cpu.mode.Draining? && !cpu.mode.reschedule ==> cpu.current == c)
    && s.threads[c].cpu == c && s.threads[c].pc == Normal && s.threads[c].status in {Running, Queued}
  }

  ghost predicate Inv(s: State) {
    && (forall t: nat :: t < |s.threads| ==> ThreadOk(s, t))
    && (forall c: nat, t: nat :: c < |s.cpus| && t < |s.threads| ==> PairOk(s, c, t))
    && (forall c: nat :: c < |s.cpus| ==> CpuOk(s, c))
  }

  lemma InitInv(n: nat, m: nat)
    ensures Inv(Init(n, m))
  {}

  /** The parts of the invariant about CPU c, its current thread p and thread t. */
  ghost predicate View(s: State, c: nat, t: nat) {
    && c < |s.cpus| && t < |s.threads| && CpuOk(s, c) && ThreadOk(s, t) && PairOk(s, c, t)
    && ThreadOk(s, s.cpus[c].current) && PairOk(s, c, s.cpus[c].current)
  }

  lemma Views(s: State, c: nat, t: nat)
    requires Inv(s) && c < |s.cpus| && t < |s.threads|
    ensures View(s, c, t)
  {
    assert CpuOk(s, c) && ThreadOk(s, t) && PairOk(s, c, t);
    var p := s.cpus[c].current;
    assert ThreadOk(s, p) && PairOk(s, c, p);
  }

  /** What an action must keep, for any CPU d and any thread t. */
  ghost predicate Kept(s: State, d: nat, t: nat) {
    d < |s.cpus| && t < |s.threads| && ThreadOk(s, t) && PairOk(s, d, t) && CpuOk(s, d)
  }

  // ------------------------------- actions of the thread that runs on CPU c

  lemma PrepareWaitOk(s: State, c: nat, d: nat, t: nat)
    requires Enabled(s, PrepareWait(c)) && View(s, c, t) && View(s, c, d) && View(s, d, t)
    ensures Kept(Next(s, PrepareWait(c)), d, t)
  {}

  lemma CallWaitOk(s: State, c: nat, d: nat, t: nat)
    requires Enabled(s, CallWait(c)) && View(s, c, t) && View(s, c, d) && View(s, d, t)
    ensures Kept(Next(s, CallWait(c)), d, t)
  {}

  lemma StopWaitOk(s: State, c: nat, d: nat, t: nat)
    requires Enabled(s, StopWait(c)) && View(s, c, t) && View(s, c, d) && View(s, d, t)
    ensures Kept(Next(s, StopWait(c)), d, t)
  {}

  /** Entering handle_incoming_wakeups(), anywhere but between prepare_wait() and wait(). */
  lemma DrainOk(s: State, c: nat, reschedule: bool, d: nat, t: nat)
    requires View(s, c, t) && View(s, c, d) && View(s, d, t) && s.cpus[c].mode == Free
    requires s.threads[s.cpus[c].current].pc != Prepared && (reschedule || s.cpus[c].current == c)
    ensures Kept(SetCpu(s, c, Drain(s.cpus[c], reschedule)), d, t)
  {}

  lemma StopTurnOk(s: State, c: nat, d: nat, t: nat)
    requires Enabled(s, StopTurn(c)) && View(s, c, t) && View(s, c, d) && View(s, d, t)
    ensures Kept(Next(s, StopTurn(c)), d, t)
  {
    hide Kept, Drain;
    if s.threads[s.cpus[c].current].status == Waking {
      DrainOk(s, c, true, d, t);
    } else {
      StopEndOk(s, c, d, t);
    }
  }

  lemma StopEndOk(s: State, c: nat, d: nat, t: nat)
    requires At(s, c, StopLoop) && View(s, c, t) && View(s, c, d) && View(s, d, t)
    requires s.threads[s.cpus[c].current].status != Waking
    ensures var p := s.cpus[c].current; Kept(SetThread(s, p, s.threads[p].(pc := Normal)), d, t)
  {}

  lemma ReapThread(s: State, c: nat, t: nat)
    requires Enabled(s, Reap(c)) && View(s, c, t) && View(s, c, s.cpus[c].terminating.value)
    ensures ThreadOk(Next(s, Reap(c)), t)
  {
    hide CpuOk;
  }

  lemma ReapPair(s: State, c: nat, d: nat, t: nat)
    requires Enabled(s, Reap(c)) && View(s, c, t) && View(s, d, t) && View(s, c, s.cpus[c].terminating.value)
    ensures PairOk(Next(s, Reap(c)), d, t)
  {
    hide CpuOk;
  }

  lemma ReapCpu(s: State, c: nat, d: nat)
    requires Enabled(s, Reap(c)) && d < |s.cpus| && CpuOk(s, d) && View(s, c, s.cpus[c].terminating.value)
    ensures CpuOk(Next(s, Reap(c)), d)
  {
    hide Distinct, PcOk;
  }

  lemma ReapOk(s: State, c: nat, d: nat, t: nat)
    requires Enabled(s, Reap(c)) && View(s, c, t) && View(s, d, t) && View(s, c, s.cpus[c].terminating.value)
    ensures Kept(Next(s, Reap(c)), d, t)
  {
    hide ThreadOk, PairOk, CpuOk, Next;
    SameSize(s, Reap(c));
    ReapThread(s, c, t);
    ReapPair(s, c, d, t);
    ReapCpu(s, c, d);
  }

  lemma DrainedOk(s: State, c: nat, i: nat, d: nat, t: nat)
    requires Enabled(s, Drained(c, i)) && View(s, c, t) && View(s, c, d) && View(s, d, t)
    ensures Kept(Next(s, Drained(c, i)), d, t)
  {}

  lemma WakeThread(s: State, k: nat, x: nat, t: nat)
    requires Enabled(s, Wake(k, x)) && t < |s.threads| && ThreadOk(s, t)
    ensures ThreadOk(Next(s, Wake(k, x)), t)
  {}

  lemma WakePair(s: State, k: nat, x: nat, d: nat, t: nat)
    requires Enabled(s, Wake(k, x)) && d < |s.cpus| && t < |s.threads| && PairOk(s, d, t) && ThreadOk(s, x)
    ensures PairOk(Next(s, Wake(k, x)), d, t)
  {
    hide PcOk;
  }

  lemma WakeCpu(s: State, k: nat, x: nat, d: nat)
    requires Enabled(s, Wake(k, x)) && d < |s.cpus| && CpuOk(s, d)
    ensures CpuOk(Next(s, Wake(k, x)), d)
  {
    hide Distinct;
  }

  lemma WakeOk(s: State, k: nat, x: nat, d: nat, t: nat)
    requires Enabled(s, Wake(k, x)) && View(s, d, t) && View(s, k, x)
    ensures Kept(Next(s, Wake(k, x)), d, t)
  {
    hide ThreadOk, PairOk, CpuOk, Next;
    SameSize(s, Wake(k, x));
    WakeThread(s, k, x, t);
    WakePair(s, k, x, d, t);
    WakeCpu(s, k, x, d);
  }

  lemma StartOk(s: State, x: nat, c: nat, d: nat, t: nat)
    requires Enabled(s, Start(x, c)) && View(s, c, t) && View(s, c, d) && View(s, d, t) && View(s, d, x)
    ensures Kept(Next(s, Start(x, c)), d, t)
  {}

  lemma ExitThread(s: State, c: nat, t: nat)
    requires Enabled(s, Exit(c)) && View(s, c, t)
    requires s.cpus[c].terminating.Some? ==> View(s, c, s.cpus[c].terminating.value)
    ensures ThreadOk(Next(s, Exit(c)), t)
  {}

  lemma ExitPair(s: State, c: nat, d: nat, t: nat)
    requires Enabled(s, Exit(c)) && View(s, c, t) && d < |s.cpus| && PairOk(s, d, t)
    requires s.cpus[c].terminating.Some? ==> View(s, c, s.cpus[c].terminating.value)
    ensures PairOk(Next(s, Exit(c)), d, t)
  {}

  lemma ExitCpu(s: State, c: nat, d: nat)
    requires Enabled(s, Exit(c)) && d < |s.cpus| && CpuOk(s, d) && View(s, c, d)
    requires s.cpus[c].terminating.Some? ==> View(s, c, s.cpus[c].terminating.value)
    ensures CpuOk(Next(s, Exit(c)), d)
  {}

  lemma PopThread(s: State, c: nat, i: nat, t: nat)
    requires Enabled(s, Pop(c, i)) && View(s, c, t) && View(s, c, s.cpus[c].incoming[i][0])
    ensures ThreadOk(Next(s, Pop(c, i)), t)
  {}

  lemma PopPair(s: State, c: nat, i: nat, d: nat, t: nat)
    requires Enabled(s, Pop(c, i)) && View(s, c, t) && View(s, c, s.cpus[c].incoming[i][0])
    requires d < |s.cpus| && PairOk(s, d, t)
    ensures PairOk(Next(s, Pop(c, i)), d, t)
  {}

  lemma PopCpu(s: State, c: nat, i: nat, d: nat)
    requires Enabled(s, Pop(c, i)) && View(s, c, s.cpus[c].incoming[i][0])
    requires d < |s.cpus| && CpuOk(s, d) && View(s, c, d)
    ensures CpuOk(Next(s, Pop(c, i)), d)
  {
    hide Distinct;
    TailDistinct(s.cpus[c].incoming[i], |s.threads|);
  }

  lemma TailDistinct(q: seq<nat>, n: nat)
    requires Distinct(q, n) && q != []
    ensures Distinct(q[1..], n)
  {}

  lemma FinishThread(s: State, c: nat, next: Option<nat>, t: nat)
    requires Enabled(s, Finish(c, next)) && View(s, c, t) && (next.Some? ==> View(s, c, next.value))
    ensures ThreadOk(Next(s, Finish(c, next)), t)
  {}

  lemma FinishPair(s: State, c: nat, next: Option<nat>, d: nat, t: nat)
    requires Enabled(s, Finish(c, next)) && View(s, c, t) && (next.Some? ==> View(s, c, next.value))
    requires d < |s.cpus| && PairOk(s, d, t)
    ensures PairOk(Next(s, Finish(c, next)), d, t)
  {}

  lemma FinishCpu(s: State, c: nat, next: Option<nat>, d: nat)
    requires Enabled(s, Finish(c, next)) && View(s, c, d) && (next.Some? ==> View(s, c, next.value))
    requires d < |s.cpus| && CpuOk(s, d)
    ensures CpuOk(Next(s, Finish(c, next)), d)
  {
    hide Distinct;
  }

  lemma PushThread(s: State, k: nat, x: nat, t: nat)
    requires Enabled(s, Push(k, x)) && View(s, k, t) && View(s, k, x)
    ensures ThreadOk(Next(s, Push(k, x)), t)
  {}

  lemma PushPair(s: State, k: nat, x: nat, d: nat, t: nat)
    requires Enabled(s, Push(k, x)) && View(s, k, x) && d < |s.cpus| && t < |s.threads|
    requires PairOk(s, d, t) && CpuOk(s, s.threads[x].cpu)
    ensures PairOk(Next(s, Push(k, x)), d, t)
  {}

  lemma PushCpu(s: State, k: nat, x: nat, d: nat)
    requires Enabled(s, Push(k, x)) && s.threads[x].place == Flight(k) && PairOk(s, s.threads[x].cpu, x)
    requires d < |s.cpus| && CpuOk(s, d)
    ensures CpuOk(Next(s, Push(k, x)), d)
  {
    hide Distinct, PcOk, Flagged;
    var c, s' := s.threads[x].cpu, Next(s, Push(k, x));
    if d == c {
      AppendDistinct(s.cpus[c].incoming[k], x, |s.threads|);
    }
    forall i: nat | i < |s.cpus| && (Flagged(s, d, i) || (d == c && i == k)) ensures Flagged(s', d, i) {
      PushFlags(s, k, x, d, i);
    }
  }

  /** The source of a thread that was pushed is going to set the mask. */
  lemma PushFlags(s: State, k: nat, x: nat, d: nat, i: nat)
    requires Enabled(s, Push(k, x)) && d < |s.cpus| && i < |s.cpus|
    requires Flagged(s, d, i) || (d == s.threads[x].cpu && i == k)
    ensures Flagged(Next(s, Push(k, x)), d, i)
  {}

  lemma AppendDistinct(q: seq<nat>, x: nat, n: nat)
    requires Distinct(q, n) && x !in q && x < n
    ensures Distinct(q + [x], n)
  {}

  lemma MarkThread(s: State, k: nat, c: nat, t: nat)
    requires Enabled(s, Mark(k, c)) && t < |s.threads| && ThreadOk(s, t)
    ensures ThreadOk(Next(s, Mark(k, c)), t)
  {}

  lemma MarkPair(s: State, k: nat, c: nat, d: nat, t: nat)
    requires Enabled(s, Mark(k, c)) && d < |s.cpus| && t < |s.threads| && PairOk(s, d, t)
    ensures PairOk(Next(s, Mark(k, c)), d, t)
  {}

  lemma MarkCpu(s: State, k: nat, c: nat, d: nat)
    requires Enabled(s, Mark(k, c)) && d < |s.cpus| && CpuOk(s, d)
    ensures CpuOk(Next(s, Mark(k, c)), d)
  {
    hide Distinct, PcOk, Flagged;
    var s' := Next(s, Mark(k, c));
    forall i: nat | i < |s.cpus| && Flagged(s, d, i) ensures Flagged(s', d, i) {
      MarkFlags(s, k, c, d, i);
    }
    assert s'.threads == s.threads && |s'.cpus| == |s.cpus|;
    assert s'.cpus[d].incoming == s.cpus[d].incoming && s'.cpus[d].mode == s.cpus[d].mode;
  }

  /** A mark that leaves the list is in the mask. */
  lemma MarkFlags(s: State, k: nat, c: nat, d: nat, i: nat)
    requires Enabled(s, Mark(k, c)) && d < |s.cpus| && i < |s.cpus| && Flagged(s, d, i)
    ensures Flagged(Next(s, Mark(k, c)), d, i)
  {}

  // ------------------------------------------------------------- all actions

  lemma Split(s: State, d: nat, t: nat)
    requires d < |s.cpus| && t < |s.threads| && ThreadOk(s, t) && PairOk(s, d, t) && CpuOk(s, d)
    ensures Kept(s, d, t)
  {}

  lemma InFlight(s: State, k: nat, x: nat)
    requires k < |s.cpus| && x < |s.threads| && PairOk(s, k, x) && x in s.cpus[k].flight
    ensures s.threads[x].place == Flight(k)
  {}

  lemma PushOk(s: State, k: nat, x: nat, d: nat, t: nat)
    requires Inv(s) && Enabled(s, Push(k, x)) && d < |s.cpus| && t < |s.threads|
    ensures Kept(Next(s, Push(k, x)), d, t)
  {
    hide Inv, ThreadOk, PairOk, CpuOk, Kept;
    Views(s, d, t);
    Views(s, k, t);
    Views(s, k, x);
    Views(s, s.threads[x].cpu, x);
    InFlight(s, k, x);
    PushThread(s, k, x, t);
    PushPair(s, k, x, d, t);
    PushCpu(s, k, x, d);
    Split(Next(s, Push(k, x)), d, t);
  }

  lemma MarkOk(s: State, k: nat, c: nat, d: nat, t: nat)
    requires Inv(s) && Enabled(s, Mark(k, c)) && d < |s.cpus| && t < |s.threads|
    ensures Kept(Next(s, Mark(k, c)), d, t)
  {
    hide Inv, ThreadOk, PairOk, CpuOk, Kept;
    Views(s, d, t);
    MarkThread(s, k, c, t);
    MarkPair(s, k, c, d, t);
    MarkCpu(s, k, c, d);
    Split(Next(s, Mark(k, c)), d, t);
  }

  lemma ExitOk(s: State, c: nat, d: nat, t: nat)
    requires Inv(s) && Enabled(s, Exit(c)) && d < |s.cpus| && t < |s.threads|
    ensures Kept(Next(s, Exit(c)), d, t)
  {
    hide Inv, ThreadOk, PairOk, CpuOk, Kept;
    Views(s, d, t);
    Views(s, c, t);
    IdleExists(s, d);
    Views(s, c, d);
    if s.cpus[c].terminating.Some? {
      Views(s, c, s.cpus[c].terminating.value);
    }
    ExitThread(s, c, t);
    ExitPair(s, c, d, t);
    ExitCpu(s, c, d);
    Split(Next(s, Exit(c)), d, t);
  }

  lemma PopOk(s: State, c: nat, i: nat, d: nat, t: nat)
    requires Inv(s) && Enabled(s, Pop(c, i)) && d < |s.cpus| && t < |s.threads|
    ensures Kept(Next(s, Pop(c, i)), d, t)
  {
    hide Inv, ThreadOk, PairOk, CpuOk, Kept;
    Views(s, d, t);
    Views(s, c, t);
    IdleExists(s, d);
    Views(s, c, d);
    Views(s, c, s.cpus[c].incoming[i][0]);
    PopThread(s, c, i, t);
    PopPair(s, c, i, d, t);
    PopCpu(s, c, i, d);
    Split(Next(s, Pop(c, i)), d, t);
  }

  lemma FinishOk(s: State, c: nat, next: Option<nat>, d: nat, t: nat)
    requires Inv(s) && Enabled(s, Finish(c, next)) && d < |s.cpus| && t < |s.threads|
    ensures Kept(Next(s, Finish(c, next)), d, t)
  {
    hide Inv, ThreadOk, PairOk, CpuOk, Kept;
    Views(s, d, t);
    Views(s, c, t);
    IdleExists(s, d);
    Views(s, c, d);
    if next.Some? {
      Views(s, c, next.value);
    }
    FinishThread(s, c, next, t);
    FinishPair(s, c, next, d, t);
    FinishCpu(s, c, next, d);
    Split(Next(s, Finish(c, next)), d, t);
  }

  lemma IdleExists(s: State, c: nat)
    requires Inv(s) && c < |s.cpus|
    ensures c < |s.threads| && (s.cpus[c].terminating.Some? ==> s.cpus[c].terminating.value < |s.threads|)
  {
    assert CpuOk(s, c);
  }

  /** Every action keeps what the invariant says about any CPU and any thread. */
  lemma ActionOk(s: State, a: Action, d: nat, t: nat)
    requires Inv(s) && Enabled(s, a) && d < |s.cpus| && t < |s.threads|
    ensures |Next(s, a).cpus| == |s.cpus| && |Next(s, a).threads| == |s.threads| && Kept(Next(s, a), d, t)
  {
    hide Inv, View, Kept, ThreadOk, PairOk, CpuOk, Drain, WakeStep, PushStep, MarkStep, StopWaitStep, StopTurnStep,
         ExitStep, PopStep, FinishStep, SetCpu, SetThread;
    SameSize(s, a);
    Views(s, d, t);
    IdleExists(s, d);
    match a
    case Wake(k, x) => Views(s, k, x); WakeOk(s, k, x, d, t);
    case Push(k, x) => PushOk(s, k, x, d, t);
    case Mark(k, c) => MarkOk(s, k, c, d, t);
    case Start(x, c) => Views(s, c, t); Views(s, c, d); Views(s, d, x); StartOk(s, x, c, d, t);
    case PrepareWait(c) => Views(s, c, t); Views(s, c, d); PrepareWaitOk(s, c, d, t);
    case CallWait(c) => Views(s, c, t); Views(s, c, d); CallWaitOk(s, c, d, t);
    case StopWait(c) => Views(s, c, t); Views(s, c, d); StopWaitOk(s, c, d, t);
    case StopTurn(c) => Views(s, c, t); Views(s, c, d); StopTurnOk(s, c, d, t);
    case Preempt(c) => Views(s, c, t); Views(s, c, d); DrainOk(s, c, true, d, t);
    case Exit(c) => ExitOk(s, c, d, t);
    case Again(c) => Views(s, c, t); Views(s, c, d); DrainOk(s, c, true, d, t);
    case Poll(c) => Views(s, c, t); Views(s, c, d); DrainOk(s, c, false, d, t);
    case Pop(c, i) => PopOk(s, c, i, d, t);
    case Drained(c, i) => Views(s, c, t); Views(s, c, d); DrainedOk(s, c, i, d, t);
    case Finish(c, next) => FinishOk(s, c, next, d, t);
    case Reap(c) => Views(s, c, t); Views(s, c, d); Views(s, c, s.cpus[c].terminating.value); ReapOk(s, c, d, t);
  }

  lemma NextInv(s: State, a: Action)
    requires Inv(s) && Enabled(s, a)
    ensures Inv(Next(s, a))
  {
    hide ThreadOk, PairOk, CpuOk, Next, Enabled;
    var s' := Next(s, a);
    SameSize(s, a);
    forall d: nat, t: nat | d < |s.cpus| && t < |s.threads| ensures ThreadOk(s', t) && PairOk(s', d, t) && CpuOk(s', d) {
      ActionOk(s, a, d, t);
    }
    if |s.cpus| == 0 {
      NoCpus(s, a);
    }
    forall d: nat | d < |s.cpus| ensures CpuOk(s', d) {
      IdleExists(s, d);
      ActionOk(s, a, d, 0);
    }
    forall t: nat | t < |s.threads| && |s.cpus| > 0 ensures ThreadOk(s', t) {
      ActionOk(s, a, 0, t);
    }
  }

  lemma SameSize(s: State, a: Action)
    requires Enabled(s, a)
    ensures |Next(s, a).cpus| == |s.cpus| && |Next(s, a).threads| == |s.threads|
  {}

  /** Without CPUs nothing happens. */
  lemma NoCpus(s: State, a: Action)
    requires Enabled(s, a)
    ensures |s.cpus| > 0
  {}

  lemma {:induction false} RunInv(n: nat, m: nat, run: seq<State>, i: nat)
    requires IsRun(n, m, run) && i < |run|
    ensures Inv(run[i]) && |run[i].cpus| == n && |run[i].threads| == n + m
  {
    hide Inv, Next, Enabled;
    if i == 0 {
      InitInv(n, m);
    } else {
      RunInv(n, m, run, i - 1);
      assert Follows(run[i - 1], run[i]);
      var a :| Enabled(run[i - 1], a) && run[i] == Next(run[i - 1], a);
      NextInv(run[i - 1], a);
      SameSize(run[i - 1], a);
    }
  }

  // ---------------------------------------------------------------- theorems

  /** A thread is queued exactly when it is on a run queue, and that is the one of its CPU. */
  lemma QueuedIffOnRunQueue(n: nat, m: nat, run: seq<State>, i: nat, c: nat, t: nat)
    requires IsRun(n, m, run) && i < |run| && c < |run[i].cpus| && t < |run[i].threads|
    ensures t in run[i].cpus[c].runq <==> run[i].threads[t].status == Queued && run[i].threads[t].cpu == c
  {
    RunInv(n, m, run, i);
    assert PairOk(run[i], c, t);
  }

  /** A running thread is the current one of its CPU; a current one runs, waits, is woken or ends. */
  lemma RunningIsCurrent(n: nat, m: nat, run: seq<State>, i: nat, t: nat)
    requires IsRun(n, m, run) && i < |run| && t < |run[i].threads|
    ensures run[i].threads[t].status == Running ==> IsCurrent(run[i], t)
    ensures forall c: nat :: c < |run[i].cpus| && run[i].cpus[c].current == t ==>
              run[i].threads[t].cpu == c && run[i].threads[t].status in {Running, Waiting, Waking, Terminating}
  {
    RunInv(n, m, run, i);
    assert ThreadOk(run[i], t);
    forall c: nat | c < |run[i].cpus| && run[i].cpus[c].current == t
      ensures run[i].threads[t].cpu == c && run[i].threads[t].status in {Running, Waiting, Waking, Terminating}
    {
      assert PairOk(run[i], c, t);
    }
  }

  /** Where a woken thread can be. */
  datatype Spot = WithWaker(k: nat) | OnQueue(c: nat, k: nat)

  predicate Holds(s: State, t: nat, spot: Spot) {
    match spot
    case WithWaker(k) => k < |s.cpus| && t in s.cpus[k].flight
    case OnQueue(c, k) => c < |s.cpus| && k < |s.cpus[c].incoming| && t in s.cpus[c].incoming[k]
  }

  lemma SpotIsPlace(s: State, t: nat, spot: Spot)
    requires Inv(s) && t < |s.threads| && Holds(s, t, spot)
    ensures s.threads[t].status == Waking
    ensures match spot
            case WithWaker(k) => s.threads[t].place == Flight(k)
            case OnQueue(c, k) => s.threads[t].place == Incoming(k) && s.threads[t].cpu == c
  {
    assert ThreadOk(s, t);
    assert PairOk(s, if spot.WithWaker? then spot.k else spot.c, t);
  }

  /** A thread is waking exactly when its waker still has it or it is on an incoming queue, and only one of these. */
  lemma WakingIffInOneSpot(n: nat, m: nat, run: seq<State>, i: nat, t: nat)
    requires IsRun(n, m, run) && i < |run| && t < |run[i].threads|
    ensures run[i].threads[t].status == Waking <==> exists spot :: Holds(run[i], t, spot)
    ensures forall a, b :: Holds(run[i], t, a) && Holds(run[i], t, b) ==> a == b
  {
    RunInv(n, m, run, i);
    var s := run[i];
    forall spot | Holds(s, t, spot)
      ensures s.threads[t].status == Waking
      ensures spot == match s.threads[t].place
                      case Flight(k) => WithWaker(k)
                      case Incoming(k) => OnQueue(s.threads[t].cpu, k)
                      case Off => spot
    {
      SpotIsPlace(s, t, spot);
    }
    if s.threads[t].status == Waking {
      assert ThreadOk(s, t);
      var c, place := s.threads[t].cpu, s.threads[t].place;
      if place.Flight? {
        assert PairOk(s, place.source, t);
        assert Holds(s, t, WithWaker(place.source));
      } else {
        assert PairOk(s, c, t) && CpuOk(s, c);
        assert Holds(s, t, OnQueue(c, place.source));
      }
    }
  }

  /** No queued wakeup is forgotten, and none is queued twice. */
  lemma WakeupsAreFlagged(n: nat, m: nat, run: seq<State>, i: nat, c: nat, k: nat)
    requires IsRun(n, m, run) && i < |run| && c < |run[i].cpus| && k < |run[i].cpus|
    ensures |run[i].cpus[c].incoming| == |run[i].cpus| && Distinct(run[i].cpus[c].incoming[k], |run[i].threads|)
    ensures run[i].cpus[c].incoming[k] != [] ==> Flagged(run[i], c, k)
  {
    RunInv(n, m, run, i);
    assert CpuOk(run[i], c);
  }

  /** When the current thread cannot go on there is one to switch to. */
  lemma SomebodyToRun(n: nat, m: nat, run: seq<State>, i: nat, c: nat)
    requires IsRun(n, m, run) && i < |run| && c < |run[i].cpus|
    requires run[i].cpus[c].mode.Draining? && run[i].cpus[c].mode.reschedule && run[i].cpus[c].mode.sources == {}
    requires run[i].cpus[c].current < |run[i].threads| && run[i].threads[run[i].cpus[c].current].status != Running
    ensures Enabled(run[i], Finish(c, Some(c)))
  {
    RunInv(n, m, run, i);
    assert CpuOk(run[i], c) && ThreadOk(run[i], c) && PairOk(run[i], c, c);
  }

  /** The facts that the scheduler asserts, at each action that asserts one. */
  predicate Asserted(s: State, a: Action)
    requires Enabled(s, a)
  {
    match a
    case PrepareWait(c) => s.threads[s.cpus[c].current].status == Running
    case StopTurn(c) => s.threads[s.cpus[c].current].status in {Waking, Running}
    case Exit(c) => s.cpus[c].terminating.Some? ==>
                      s.cpus[c].terminating.value != s.cpus[c].current
                      && s.threads[s.cpus[c].terminating.value].status == Terminating
    case Pop(c, i) => s.threads[s.cpus[c].incoming[i][0]].cpu == c && s.threads[s.cpus[c].incoming[i][0]].status == Waking
    case Finish(c, next) => s.threads[s.cpus[c].current].status != Queued
                            && (next.Some? ==> next.value != s.cpus[c].current && s.threads[next.value].status == Queued)
    case Reap(c) => s.threads[s.cpus[c].terminating.value].status == Terminating
    case _ => true
  }

  /** None of its assertions fails, and no thread is found on the queue of another CPU. */
  lemma AssertsHold(n: nat, m: nat, run: seq<State>, i: nat, a: Action)
    requires IsRun(n, m, run) && i < |run| && Enabled(run[i], a)
    ensures Asserted(run[i], a)
  {
    RunInv(n, m, run, i);
    AssertsOf(run[i], a);
  }

  lemma AssertsOf(s: State, a: Action)
    requires Inv(s) && Enabled(s, a)
    ensures Asserted(s, a)
  {
    match a
    case PrepareWait(c) => Views(s, c, s.cpus[c].current);
    case StopTurn(c) => Views(s, c, s.cpus[c].current);
    case Exit(c) => if s.cpus[c].terminating.Some? { Views(s, c, s.cpus[c].terminating.value); }
    case Pop(c, i) => Views(s, c, s.cpus[c].incoming[i][0]);
    case Finish(c, next) => Views(s, c, if next.Some? then next.value else s.cpus[c].current);
    case Reap(c) => Views(s, c, s.cpus[c].terminating.value);
    case _ =>
  }

  /** The status changes that the scheduler documents. */
  predicate MayBecome(a: Status, b: Status) {
    || a == b
    || (a == Unstarted && b == Waiting)
    || (a == Waiting && b in {Waking, Running})
    || (a == Running && b in {Waiting, Queued, Terminating})
    || (a == Queued && b == Running)
    || (a == Waking && b in {Queued, Running})
    || (a == Terminating && b == Terminated)
  }

  /** Every step changes the status of each thread only as documented. */
  lemma OnlyDocumentedChanges(s: State, a: Action, t: nat)
    requires Inv(s) && Enabled(s, a) && t < |s.threads|
    ensures |Next(s, a).threads| == |s.threads| && MayBecome(s.threads[t].status, Next(s, a).threads[t].status)
  {
    hide Inv;
    AssertsOf(s, a);
    if a.Exit? {
      Views(s, a.c, s.cpus[a.c].current);
    }
  }

  /** The event that the documented matrix gives for a change of the status of thread t. */
  predicate Event(s: State, a: Action, t: nat, was: Status, now: Status)
    requires Enabled(s, a)
  {
    match (was, now)
    case (Unstarted, Waiting) => a.Start? && a.t == t
    case (Waiting, Waking) => a.Wake? && a.t == t
    case (Waiting, Running) => a.StopWait? && s.cpus[a.c].current == t
    case (Running, Waiting) => a.PrepareWait? && s.cpus[a.c].current == t
    case (Running, Queued) => a.Finish? && s.cpus[a.c].current == t && a.next.Some?
    case (Running, Terminating) => a.Exit? && s.cpus[a.c].current == t
    case (Queued, Running) => a.Finish? && a.next == Some(t)
    case (Waking, Queued) => a.Pop? && s.cpus[a.c].incoming[a.i][0] == t && s.cpus[a.c].current != t
    case (Waking, Running) => a.Pop? && s.cpus[a.c].incoming[a.i][0] == t && s.cpus[a.c].current == t
    case (Terminating, Terminated) => (a.Exit? || a.Reap?) && s.cpus[a.c].terminating == Some(t)
    case _ => false
  }

  /** The status of thread t changes exactly as the matrix says. */
  ghost predicate ByMatrix(s: State, a: Action, t: nat)
    requires Enabled(s, a) && t < |s.threads|
  {
    && |Next(s, a).threads| == |s.threads|
    && var was, now := s.threads[t].status, Next(s, a).threads[t].status;
    && (now != was ==> Event(s, a, t, was, now))
    && (forall to :: Event(s, a, t, was, to) ==> now == to)
  }

  lemma CallMatrix(s: State, a: Action, t: nat)
    requires Enabled(s, a) && t < |s.threads| && Asserted(s, a) && (a.Start? || a.PrepareWait? || a.CallWait? || a.StopWait? || a.StopTurn?)
    ensures ByMatrix(s, a, t)
  {}

  lemma OtherMatrix(s: State, a: Action, t: nat)
    requires Enabled(s, a) && t < |s.threads| && (a.Wake? || a.Push? || a.Mark? || a.Preempt? || a.Again? || a.Poll? || a.Drained?)
    ensures ByMatrix(s, a, t)
  {}

  lemma EndMatrix(s: State, a: Action, t: nat)
    requires Enabled(s, a) && t < |s.threads| && Asserted(s, a) && (a.Exit? || a.Reap?)
    requires a.Exit? ==> s.threads[s.cpus[a.c].current].status == Running
    ensures ByMatrix(s, a, t)
  {}

  lemma QueueMatrix(s: State, a: Action, t: nat)
    requires Enabled(s, a) && t < |s.threads| && Asserted(s, a) && (a.Pop? || a.Finish?)
    ensures ByMatrix(s, a, t)
  {}

  lemma MatrixOf(s: State, a: Action, t: nat)
    requires Inv(s) && Enabled(s, a) && t < |s.threads|
    ensures ByMatrix(s, a, t)
  {
    hide Inv, ByMatrix, Asserted;
    AssertsOf(s, a);
    match a
    case Start(_, _) => CallMatrix(s, a, t);
    case PrepareWait(_) => CallMatrix(s, a, t);
    case CallWait(_) => CallMatrix(s, a, t);
    case StopWait(_) => CallMatrix(s, a, t);
    case StopTurn(_) => CallMatrix(s, a, t);
    case Exit(c) =>
      Views(s, c, s.cpus[c].current);
      EndMatrix(s, a, t);
    case Reap(_) => EndMatrix(s, a, t);
    case Pop(_, _) => QueueMatrix(s, a, t);
    case Finish(_, _) => QueueMatrix(s, a, t);
    case _ => OtherMatrix(s, a, t);
  }

  /** In every run the status of a thread changes exactly by the events of the matrix. */
  lemma TransitionMatrix(n: nat, m: nat, run: seq<State>, i: nat, a: Action, t: nat)
    requires IsRun(n, m, run) && i < |run| && Enabled(run[i], a) && t < |run[i].threads|
    ensures |Next(run[i], a).threads| == |run[i].threads|
    ensures var was, now := run[i].threads[t].status, Next(run[i], a).threads[t].status;
            && (now != was ==> Event(run[i], a, t, was, now))
            && (forall to :: Event(run[i], a, t, was, to) ==> now == to)
  {
    hide IsRun, Inv;
    RunInv(n, m, run, i);
    MatrixOf(run[i], a, t);
  }

  predicate Dead(s: State, t: nat)
    requires t < |s.threads|
  {
    s.threads[t].status in {Terminating, Terminated}
  }

  predicate Switched(s: State, t: nat) {
    forall c: nat :: c < |s.cpus| ==> s.cpus[c].current != t
  }

  lemma StaysDead(s: State, a: Action, t: nat)
    requires Inv(s) && Enabled(s, a) && t < |s.threads| && Dead(s, t)
    ensures |Next(s, a).threads| == |s.threads| && Dead(Next(s, a), t)
    ensures Switched(s, t) ==> Switched(Next(s, a), t)
  {
    hide Inv;
    AssertsOf(s, a);
    OnlyDocumentedChanges(s, a, t);
  }

  /** Once a thread has begun to end it never runs again: it stays ended, and once off its CPU it stays off. */
  lemma {:induction false} NeverRunsAgain(n: nat, m: nat, run: seq<State>, i: nat, j: nat, t: nat)
    requires IsRun(n, m, run) && i <= j < |run| && t < |run[i].threads| && Dead(run[i], t)
    ensures t < |run[j].threads| && Dead(run[j], t) && (Switched(run[i], t) ==> Switched(run[j], t))
  {
    hide Inv, Next, Enabled, Switched, Dead;
    if i < j {
      NeverRunsAgain(n, m, run, i, j - 1, t);
      RunInv(n, m, run, j - 1);
      assert Follows(run[j - 1], run[j]);
      var a :| Enabled(run[j - 1], a) && run[j] == Next(run[j - 1], a);
      StaysDead(run[j - 1], a, t);
    }
  }
}
