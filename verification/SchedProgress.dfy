/**
  A wakeup takes effect on every waiting thread: the thread gets onto the run
  queue of its CPU by steps of its waker and of its CPU alone, and from there
  to run.  A thread that ends is taken out of the way.
 */
module SchedProgress {
  import opened Sched
  import opened SchedProof
  import opened Tally

  /** What CPU k still does as a waker of threads of CPU c, and what CPU c does. */
  predicate Helps(a: Action, k: nat, c: nat) {
    match a
    case Push(x, _) => x == k
    case Mark(x, y) => x == k && y == c
    case CallWait(x) => x == c
    case StopWait(x) => x == c
    case StopTurn(x) => x == c
    case Preempt(x) => x == c
    case Again(x) => x == c
    case Pop(x, _) => x == c
    case Drained(x, _) => x == c
    case Finish(x, _) => x == c
    case Reap(x) => x == c
    case _ => false
  }

  predicate Leads(s: State, acts: seq<Action>, s': State, k: nat, c: nat)
    decreases |acts|
  {
    if acts == [] then s' == s
    else Helps(acts[0], k, c) && Enabled(s, acts[0]) && Leads(Next(s, acts[0]), acts[1..], s', k, c)
  }

  lemma LeadsFirst(s: State, a: Action, acts: seq<Action>, s': State, k: nat, c: nat)
    requires Helps(a, k, c) && Enabled(s, a) && Leads(Next(s, a), acts, s', k, c)
    ensures Leads(s, [a] + acts, s', k, c)
  {
    hide Enabled, Next, Helps;
    assert ([a] + acts)[0] == a && ([a] + acts)[1..] == acts;
  }

  /** Thread t of CPU c is on the queue that CPU k fills. */
  predicate Waits(s: State, t: nat, k: nat, c: nat) {
    && t < |s.threads| && s.threads[t].status == Waking && s.threads[t].place == Incoming(k) && s.threads[t].cpu == c
    && c < |s.cpus| && k < |s.cpus|
  }

  predicate Arrived(s: State, t: nat) {
    t < |s.threads| && s.threads[t].status in {Queued, Running}
  }

  function Len(q: seq<nat>): nat { |q| }

  /** CPU c is looking at the queue of CPU k. */
  predicate Looks(cpu: Cpu, k: nat) {
    cpu.mode.Draining? && k in cpu.mode.sources
  }

  /** How far CPU c is from looking at the queue of CPU k. */
  function Stage(s: State, k: nat, c: nat): nat
    requires c < |s.cpus|
  {
    var cpu := s.cpus[c];
    if Looks(cpu, k) then 0
    else if k !in cpu.mask then 4
    else if cpu.mode.Draining? then 3
    else if cpu.current < |s.threads| && s.threads[cpu.current].pc == InWait then 2
    else 1
  }

  function Sources(cpu: Cpu): nat {
    if cpu.mode.Draining? then |cpu.mode.sources| else 0
  }

  /** What the invariant says about the thread, its queue and its CPU. */
  lemma Known(s: State, t: nat, k: nat, c: nat)
    requires Inv(s) && Waits(s, t, k, c)
    ensures View(s, c, t) && s.cpus[c].current < |s.threads| && k < |s.cpus[c].incoming| && t in s.cpus[c].incoming[k] && Flagged(s, c, k)
    ensures forall i: nat :: i < |s.cpus[c].incoming| && t in s.cpus[c].incoming[i] ==> i == k
  {
    Views(s, c, t);
  }

  /** One action brings the thread nearer, or there. */
  ghost predicate Nearer(s: State, s': State, t: nat, k: nat, c: nat) {
    c < |s.cpus| && c < |s'.cpus| &&
    (|| Arrived(s', t)
     || (Waits(s', t, k, c) &&
         (|| Stage(s', k, c) < Stage(s, k, c)
          || (Stage(s', k, c) == Stage(s, k, c) && Sources(s'.cpus[c]) < Sources(s.cpus[c]))
          || (Stage(s', k, c) == Stage(s, k, c) && Sources(s'.cpus[c]) == Sources(s.cpus[c])
              && Sum(s'.cpus[c].incoming, Len) < Sum(s.cpus[c].incoming, Len)))))
  }

  lemma MarkNearer(s: State, t: nat, k: nat, c: nat)
    requires Waits(s, t, k, c) && Enabled(s, Mark(k, c)) && Stage(s, k, c) == 4
    ensures Nearer(s, Next(s, Mark(k, c)), t, k, c)
  {
    hide Sum;
  }

  /** A queue in turn loses its first thread. */
  lemma PopNearer(s: State, t: nat, k: nat, c: nat, i: nat)
    requires Waits(s, t, k, c) && Enabled(s, Pop(c, i)) && (Stage(s, k, c) == 0 || Stage(s, k, c) == 3)
    ensures Nearer(s, Next(s, Pop(c, i)), t, k, c)
  {
    hide Sum;
    SumUpdate(s.cpus[c].incoming, Len, i, s.cpus[c].incoming[i][1..]);
  }

  lemma DrainedNearer(s: State, t: nat, k: nat, c: nat, i: nat)
    requires Waits(s, t, k, c) && Enabled(s, Drained(c, i)) && i != k && Stage(s, k, c) == 3
    ensures Nearer(s, Next(s, Drained(c, i)), t, k, c)
  {
    hide Sum;
  }

  lemma FinishNearer(s: State, t: nat, k: nat, c: nat)
    requires View(s, c, t) && View(s, c, c) && Waits(s, t, k, c) && Stage(s, k, c) == 3 && s.cpus[c].mode.sources == {}
    ensures var cpu := s.cpus[c];
            var a := Finish(c, if cpu.mode.reschedule && s.threads[cpu.current].status != Running then Some(c) else None);
            Enabled(s, a) && Nearer(s, Next(s, a), t, k, c)
  {
    hide Sum;
  }

  /** The CPU calls the scheduler, or leaves wait() first. */
  lemma FreeNearer(s: State, t: nat, k: nat, c: nat) returns (a: Action)
    requires View(s, c, t) && Waits(s, t, k, c) && (Stage(s, k, c) == 1 || Stage(s, k, c) == 2)
    ensures Helps(a, k, c) && Enabled(s, a) && Nearer(s, Next(s, a), t, k, c)
  {
    hide Sum;
    var pc := s.threads[s.cpus[c].current].pc;
    a := match pc
      case Normal => Preempt(c)
      case Prepared => CallWait(c)
      case InWait => StopWait(c)
      case StopLoop => Preempt(c)
      case Exiting => Again(c);
  }

  lemma HeadInRange(s: State, c: nat, i: nat)
    requires Inv(s) && c < |s.cpus| && i < |s.cpus| && i < |s.cpus[c].incoming| && s.cpus[c].incoming[i] != []
    ensures s.cpus[c].incoming[i][0] < |s.threads|
  {
    assert CpuOk(s, c);
    assert Distinct(s.cpus[c].incoming[i], |s.threads|);
  }

  lemma SourceInRange(s: State, c: nat, i: nat)
    requires Inv(s) && c < |s.cpus| && Looks(s.cpus[c], i)
    ensures i < |s.cpus| == |s.cpus[c].incoming|
  {
    assert CpuOk(s, c);
  }

  /** A turn of handle_incoming_wakeups(). */
  lemma DrainMove(s: State, t: nat, k: nat, c: nat) returns (a: Action)
    requires Inv(s) && Waits(s, t, k, c) && (Stage(s, k, c) == 0 || Stage(s, k, c) == 3)
    ensures Helps(a, k, c) && Enabled(s, a) && Nearer(s, Next(s, a), t, k, c)
  {
    hide Inv, Nearer, View, Sum, Next, Flagged;
    Known(s, t, k, c);
    var cpu := s.cpus[c];
    if Looks(cpu, k) {
      HeadInRange(s, c, k);
      a := Pop(c, k);
      PopNearer(s, t, k, c, k);
    } else if i: nat :| i in cpu.mode.sources {
      SourceInRange(s, c, i);
      if cpu.incoming[i] == [] {
        a := Drained(c, i);
        DrainedNearer(s, t, k, c, i);
      } else {
        HeadInRange(s, c, i);
        a := Pop(c, i);
        PopNearer(s, t, k, c, i);
      }
    } else {
      IdleExists(s, c);
      Views(s, c, c);
      a := Finish(c, if cpu.mode.reschedule && s.threads[cpu.current].status != Running then Some(c) else None);
      FinishNearer(s, t, k, c);
    }
  }

  lemma NextMove(s: State, t: nat, k: nat, c: nat) returns (a: Action)
    requires Inv(s) && Waits(s, t, k, c)
    ensures Helps(a, k, c) && Enabled(s, a) && Nearer(s, Next(s, a), t, k, c)
  {
    hide Inv, Nearer, Sum, Next, View;
    Known(s, t, k, c);
    if Stage(s, k, c) == 4 {
      a := Mark(k, c);
      MarkNearer(s, t, k, c);
    } else if Stage(s, k, c) == 0 || Stage(s, k, c) == 3 {
      a := DrainMove(s, t, k, c);
    } else {
      a := FreeNearer(s, t, k, c);
    }
  }

  lemma {:induction false} Arrives(s: State, t: nat, k: nat, c: nat) returns (acts: seq<Action>, s': State)
    requires Inv(s) && Waits(s, t, k, c)
    ensures Leads(s, acts, s', k, c) && Arrived(s', t)
    decreases Stage(s, k, c), Sources(s.cpus[c]), Sum(s.cpus[c].incoming, Len)
  {
    hide Inv, Sum, Next, Enabled, Stage, Sources, Helps;
    var a := NextMove(s, t, k, c);
    var s1 := Next(s, a);
    NextInv(s, a);
    if Arrived(s1, t) {
      acts, s' := [], s1;
    } else {
      acts, s' := Arrives(s1, t, k, c);
    }
    LeadsFirst(s, a, acts, s', k, c);
    acts := [a] + acts;
  }

  lemma PushWaits(s: State, t: nat, k: nat)
    requires Inv(s) && t < |s.threads| && s.threads[t].status == Waking && s.threads[t].place == Flight(k)
    ensures Enabled(s, Push(k, t)) && Waits(Next(s, Push(k, t)), t, k, s.threads[t].cpu)
  {
    assert ThreadOk(s, t);
    Views(s, k, t);
    assert CpuOk(s, s.threads[t].cpu);
  }

  lemma WakingPlace(s: State, t: nat)
    requires Inv(s) && t < |s.threads| && s.threads[t].status == Waking
    ensures s.threads[t].place != Off && s.threads[t].place.source < |s.cpus| && s.threads[t].cpu < |s.cpus|
  {
    assert ThreadOk(s, t);
  }

  /**
    From every state of every run in which a thread is waking, steps of its
    waker and of its CPU alone lead to a state in which it is queued or runs.
   */
  lemma WakingArrives(n: nat, m: nat, run: seq<State>, i: nat, t: nat) returns (acts: seq<Action>, s': State)
    requires IsRun(n, m, run) && i < |run| && t < |run[i].threads| && run[i].threads[t].status == Waking
    ensures run[i].threads[t].place != Off
    ensures Leads(run[i], acts, s', run[i].threads[t].place.source, run[i].threads[t].cpu) && Arrived(s', t)
  {
    hide Inv, Next, Enabled;
    var s := run[i];
    RunInv(n, m, run, i);
    WakingPlace(s, t);
    var k, c := s.threads[t].place.source, s.threads[t].cpu;
    if s.threads[t].place.Flight? {
      PushWaits(s, t, k);
      NextInv(s, Push(k, t));
      acts, s' := Arrives(Next(s, Push(k, t)), t, k, c);
      LeadsFirst(s, Push(k, t), acts, s', k, c);
      acts := [Push(k, t)] + acts;
    } else {
      acts, s' := Arrives(s, t, k, c);
    }
  }

  // ------------------------------------------------------------- wakeups

  /**
    A wakeup takes effect on a waiting thread wherever it is in its code: it is
    with its waker then.  On any other thread it has no effect.
   */
  lemma WakeTakesEffect(n: nat, m: nat, run: seq<State>, i: nat, k: nat, t: nat)
    requires IsRun(n, m, run) && i < |run| && Enabled(run[i], Wake(k, t))
    ensures var s, s' := run[i], Next(run[i], Wake(k, t));
            if s.threads[t].status != Waiting then s' == s
            else
              && |s'.threads| == |s.threads| && |s'.cpus| == |s.cpus|
              && s'.threads[t] == s.threads[t].(status := Waking, place := Flight(k))
              && s'.cpus[k] == s.cpus[k].(flight := s.cpus[k].flight + {t}) && t !in s.cpus[k].flight
              && (forall u :: 0 <= u < |s.threads| && u != t ==> s'.threads[u] == s.threads[u])
              && (forall c :: 0 <= c < |s.cpus| && c != k ==> s'.cpus[c] == s.cpus[c])
  {
    hide IsRun;
    RunInv(n, m, run, i);
    assert ThreadOk(run[i], t) && PairOk(run[i], k, t);
  }

  /** From every state in which a thread waits, wake() and steps of its waker and CPU lead to its being queued or running. */
  lemma WakeArrives(n: nat, m: nat, run: seq<State>, i: nat, k: nat, t: nat) returns (acts: seq<Action>, s': State)
    requires IsRun(n, m, run) && i < |run| && Enabled(run[i], Wake(k, t)) && run[i].threads[t].status == Waiting
    ensures Leads(Next(run[i], Wake(k, t)), acts, s', k, run[i].threads[t].cpu) && Arrived(s', t)
  {
    hide Inv, Next, Leads;
    var s := run[i];
    WakeTakesEffect(n, m, run, i, k, t);
    var longer := run[..i + 1] + [Next(s, Wake(k, t))];
    OneMore(n, m, run, i, Wake(k, t));
    acts, s' := WakingArrives(n, m, longer, i + 1, t);
  }

  lemma OneMore(n: nat, m: nat, run: seq<State>, i: nat, a: Action)
    requires IsRun(n, m, run) && i < |run| && Enabled(run[i], a)
    ensures IsRun(n, m, run[..i + 1] + [Next(run[i], a)])
  {
    hide Next, Enabled;
    var longer := run[..i + 1] + [Next(run[i], a)];
    forall j | 0 < j < |longer| ensures Follows(longer[j - 1], longer[j]) {
      if j <= i {
        assert longer[j - 1] == run[j - 1] && longer[j] == run[j];
      } else {
        assert longer[j - 1] == run[i] && longer[j] == Next(run[i], a);
      }
    }
  }

  // ------------------------------------------------------- the idle loop polls

  /** Turns of the inner loop of handle_incoming_wakeups() over the queue of CPU k, and nothing else. */
  function Taken(s: State, c: nat, k: nat, turns: nat): State
    decreases turns
  {
    if turns == 0 || !Enabled(s, Pop(c, k)) then s else Taken(Next(s, Pop(c, k)), c, k, turns - 1)
  }

  lemma TakesOne(s: State, c: nat, k: nat, t: nat)
    requires Inv(s) && Waits(s, t, k, c) && Looks(s.cpus[c], k)
    ensures Enabled(s, Pop(c, k))
    ensures var s' := Next(s, Pop(c, k));
            && c < |s'.cpus| && s'.cpus[c].current == s.cpus[c].current && k < |s.cpus[c].incoming| == |s'.cpus[c].incoming|
            && |s'.cpus[c].incoming[k]| == |s.cpus[c].incoming[k]| - 1
            && (Arrived(s', t) || (Waits(s', t, k, c) && Looks(s'.cpus[c], k)))
  {
    hide Inv;
    Known(s, t, k, c);
    HeadInRange(s, c, k);
  }

  /** A thread that has arrived is not popped, and other threads do not change its status. */
  lemma TakesLeave(s: State, c: nat, k: nat, t: nat)
    requires Inv(s) && Arrived(s, t) && Enabled(s, Pop(c, k))
    ensures Arrived(Next(s, Pop(c, k)), t) && Next(s, Pop(c, k)).cpus[c].current == s.cpus[c].current
  {
    hide Inv;
    HeadIsWaking(s, c, k);
  }

  lemma {:induction false} TakesUpTo(s: State, c: nat, k: nat, t: nat, turns: nat)
    requires Inv(s) && c < |s.cpus| && k < |s.cpus[c].incoming|
    requires Arrived(s, t) || (Waits(s, t, k, c) && Looks(s.cpus[c], k) && turns >= |s.cpus[c].incoming[k]|)
    ensures var s' := Taken(s, c, k, turns); Arrived(s', t) && c < |s'.cpus| && s'.cpus[c].current == s.cpus[c].current
    decreases turns
  {
    hide Inv, Arrived, Waits, Looks;
    if Waits(s, t, k, c) && Looks(s.cpus[c], k) && !Arrived(s, t) {
      TakesOne(s, c, k, t);
    }
    if turns > 0 && Enabled(s, Pop(c, k)) {
      NextInv(s, Pop(c, k));
      if Arrived(s, t) {
        TakesLeave(s, c, k, t);
      }
      TakesUpTo(Next(s, Pop(c, k)), c, k, t, turns - 1);
    }
  }

  lemma HeadIsWaking(s: State, c: nat, i: nat)
    requires Inv(s) && Enabled(s, Pop(c, i))
    ensures s.threads[s.cpus[c].incoming[i][0]].status == Waking
  {
    AssertsOf(s, Pop(c, i));
  }

  /** An idle CPU that polls takes every thread of a flagged queue onto its run queue, without leaving its idle thread. */
  lemma PollTakes(n: nat, m: nat, run: seq<State>, i: nat, c: nat, k: nat, t: nat)
    requires IsRun(n, m, run) && i < |run| && Waits(run[i], t, k, c)
    requires run[i].cpus[c].current == c && run[i].cpus[c].mode == Free && k in run[i].cpus[c].mask
    ensures Enabled(run[i], Poll(c)) && k < |run[i].cpus[c].incoming|
    ensures var s' := Taken(Next(run[i], Poll(c)), c, k, |run[i].cpus[c].incoming[k]|);
            Arrived(s', t) && c < |s'.cpus| && s'.cpus[c].current == c
  {
    hide IsRun, Inv, Arrived;
    var s := run[i];
    RunInv(n, m, run, i);
    Known(s, t, k, c);
    PollStarts(s, c);
    NextInv(s, Poll(c));
    TakesUpTo(Next(s, Poll(c)), c, k, t, |s.cpus[c].incoming[k]|);
  }

  lemma PollStarts(s: State, c: nat)
    requires Inv(s) && c < |s.cpus| && s.cpus[c].current == c && s.cpus[c].mode == Free
    ensures Enabled(s, Poll(c))
  {
    assert CpuOk(s, c);
  }

  // ------------------------------------------------ from the run queue to the CPU

  lemma {:induction false} LeadsConcat(s: State, a: seq<Action>, s1: State, b: seq<Action>, s2: State, k: nat, c: nat)
    requires Leads(s, a, s1, k, c) && Leads(s1, b, s2, k, c)
    ensures Leads(s, a + b, s2, k, c)
    decreases |a|
  {
    hide Next, Enabled, Helps;
    if a == [] {
      assert a + b == b;
    } else {
      LeadsConcat(Next(s, a[0]), a[1..], s1, b, s2, k, c);
      assert (a + b)[0] == a[0] && (a + b)[1..] == a[1..] + b;
    }
  }

  /** How far a CPU is from the choice of the next thread. */
  function Turn(s: State, c: nat): nat
    requires c < |s.cpus|
  {
    var cpu := s.cpus[c];
    if cpu.mode.Draining? then (if cpu.mode.reschedule then 1 else 4)
    else if cpu.current < |s.threads| && s.threads[cpu.current].pc == InWait then 3
    else 2
  }

  predicate Chooses(s: State, c: nat) {
    c < |s.cpus| && s.cpus[c].mode.Draining? && s.cpus[c].mode.reschedule && s.cpus[c].mode.sources == {}
  }

  /** Thread t of CPU c stays as it is, on the run queue or ended, while the CPU comes nearer to its choice. */
  ghost predicate Coming(s: State, s': State, c: nat, t: nat) {
    && c < |s.cpus| == |s'.cpus| && t < |s.threads| == |s'.threads|
    && s'.threads[t] == s.threads[t]
    && (|| Turn(s', c) < Turn(s, c)
        || (Turn(s', c) == Turn(s, c) && Sources(s'.cpus[c]) < Sources(s.cpus[c]))
        || (Turn(s', c) == Turn(s, c) && Sources(s'.cpus[c]) == Sources(s.cpus[c])
            && Sum(s'.cpus[c].incoming, Len) < Sum(s.cpus[c].incoming, Len)))
  }

  predicate Settled(th: Thread, c: nat) {
    th.cpu == c && (th.status == Queued || (th.status == Terminating && th.pc == Exiting))
  }

  lemma PopComing(s: State, c: nat, i: nat, t: nat)
    requires t < |s.threads| && Enabled(s, Pop(c, i)) && s.cpus[c].incoming[i][0] != t
    ensures Coming(s, Next(s, Pop(c, i)), c, t)
  {
    hide Sum;
    SumUpdate(s.cpus[c].incoming, Len, i, s.cpus[c].incoming[i][1..]);
  }

  lemma DrainedComing(s: State, c: nat, i: nat, t: nat)
    requires t < |s.threads| && Enabled(s, Drained(c, i))
    ensures Coming(s, Next(s, Drained(c, i)), c, t)
  {
    hide Sum;
  }

  lemma StayComing(s: State, c: nat, t: nat)
    requires t < |s.threads| && View(s, c, t) && s.cpus[c].mode.Draining? && !s.cpus[c].mode.reschedule && s.cpus[c].mode.sources == {}
    ensures Enabled(s, Finish(c, None)) && Coming(s, Next(s, Finish(c, None)), c, t)
  {
    hide Sum;
  }

  lemma FreeComing(s: State, k: nat, c: nat, t: nat) returns (a: Action)
    requires View(s, c, t) && s.cpus[c].mode == Free && Settled(s.threads[t], c)
    ensures Helps(a, k, c) && Enabled(s, a) && Coming(s, Next(s, a), c, t)
  {
    hide Sum;
    var pc := s.threads[s.cpus[c].current].pc;
    a := match pc
      case Normal => Preempt(c)
      case Prepared => CallWait(c)
      case InWait => StopWait(c)
      case StopLoop => Preempt(c)
      case Exiting => Again(c);
  }

  lemma NotIncoming(s: State, c: nat, i: nat, t: nat)
    requires Inv(s) && c < |s.cpus| && t < |s.threads| && Settled(s.threads[t], c) && i < |s.cpus[c].incoming|
    ensures t !in s.cpus[c].incoming[i]
  {
    assert ThreadOk(s, t) && PairOk(s, c, t);
  }

  lemma ComingMove(s: State, k: nat, c: nat, t: nat) returns (a: Action)
    requires Inv(s) && c < |s.cpus| && t < |s.threads| && Settled(s.threads[t], c) && !Chooses(s, c)
    ensures Helps(a, k, c) && Enabled(s, a) && Coming(s, Next(s, a), c, t)
  {
    hide Inv, Coming, View, Sum, Next, Settled;
    Views(s, c, t);
    var cpu := s.cpus[c];
    if cpu.mode == Free {
      a := FreeComing(s, k, c, t);
    } else if i: nat :| i in cpu.mode.sources {
      SourceInRange(s, c, i);
      if cpu.incoming[i] == [] {
        a := Drained(c, i);
        DrainedComing(s, c, i, t);
      } else {
        HeadInRange(s, c, i);
        NotIncoming(s, c, i, t);
        a := Pop(c, i);
        PopComing(s, c, i, t);
      }
    } else {
      a := Finish(c, None);
      StayComing(s, c, t);
    }
  }

  /** Steps of a CPU alone lead it to the choice of its next thread. */
  lemma {:induction false} ComesToChoice(s: State, k: nat, c: nat, t: nat) returns (acts: seq<Action>, s': State)
    requires Inv(s) && c < |s.cpus| && t < |s.threads| && Settled(s.threads[t], c)
    ensures Leads(s, acts, s', k, c) && Inv(s') && c < |s'.cpus| && Chooses(s', c) && t < |s'.threads| && s'.threads[t] == s.threads[t]
    decreases Turn(s, c), Sources(s.cpus[c]), Sum(s.cpus[c].incoming, Len)
  {
    hide Inv, Sum, Next, Enabled, Turn, Sources, Helps, Settled, Chooses;
    if Chooses(s, c) {
      return [], s;
    }
    var a := ComingMove(s, k, c, t);
    var s1 := Next(s, a);
    NextInv(s, a);
    acts, s' := ComesToChoice(s1, k, c, t);
    LeadsFirst(s, a, acts, s', k, c);
    acts := [a] + acts;
  }

  lemma LeadsLast(s: State, acts: seq<Action>, s1: State, a: Action, k: nat, c: nat)
    requires Leads(s, acts, s1, k, c) && Helps(a, k, c) && Enabled(s1, a)
    ensures Leads(s, acts + [a], Next(s1, a), k, c)
  {
    hide Next, Enabled, Helps;
    assert Leads(Next(s1, a), [a][1..], Next(s1, a), k, c);
    LeadsConcat(s, acts, s1, [a], Next(s1, a), k, c);
  }

  /** The thread runs, and on its CPU. */
  predicate OnCpu(s: State, t: nat) {
    t < |s.threads| && s.threads[t].status == Running && s.threads[t].cpu < |s.cpus| && s.cpus[s.threads[t].cpu].current == t
  }

  lemma ChosenRuns(s: State, c: nat, t: nat)
    requires View(s, c, t) && Chooses(s, c) && s.threads[t].status == Queued && s.threads[t].cpu == c
    ensures Enabled(s, Finish(c, Some(t))) && OnCpu(Next(s, Finish(c, Some(t))), t)
  {}

  lemma QueuedCanRun(s: State, k: nat, t: nat) returns (acts: seq<Action>, s': State)
    requires Inv(s) && t < |s.threads| && s.threads[t].status == Queued
    ensures Leads(s, acts, s', k, s.threads[t].cpu) && OnCpu(s', t)
  {
    hide Inv, Next, Enabled, Leads, OnCpu, Chooses, View;
    var c := s.threads[t].cpu;
    assert c < |s.cpus| by { StartedHasCpu(s, t); }
    var acts1, s1 := ComesToChoice(s, k, c, t);
    Views(s1, c, t);
    ChosenRuns(s1, c, t);
    LeadsLast(s, acts1, s1, Finish(c, Some(t)), k, c);
    acts, s' := acts1 + [Finish(c, Some(t))], Next(s1, Finish(c, Some(t)));
  }

  lemma StartedHasCpu(s: State, t: nat)
    requires Inv(s) && t < |s.threads| && s.threads[t].status != Unstarted
    ensures s.threads[t].cpu < |s.cpus|
  {
    assert ThreadOk(s, t);
  }

  /** From every state in which a thread is queued, steps of its CPU alone can lead to its running there. */
  lemma QueuedRuns(n: nat, m: nat, run: seq<State>, i: nat, t: nat) returns (acts: seq<Action>, s': State)
    requires IsRun(n, m, run) && i < |run| && t < |run[i].threads| && run[i].threads[t].status == Queued
    ensures Leads(run[i], acts, s', run[i].threads[t].cpu, run[i].threads[t].cpu) && OnCpu(s', t)
  {
    hide Inv, IsRun, Leads, OnCpu;
    RunInv(n, m, run, i);
    acts, s' := QueuedCanRun(run[i], run[i].threads[t].cpu, t);
  }

  lemma ArrivedCanRun(s: State, k: nat, t: nat) returns (acts: seq<Action>, s': State)
    requires Inv(s) && Arrived(s, t)
    ensures Leads(s, acts, s', k, s.threads[t].cpu) && OnCpu(s', t)
  {
    hide Inv, OnCpu;
    if s.threads[t].status == Queued {
      acts, s' := QueuedCanRun(s, k, t);
    } else {
      RunningOnCpu(s, t);
      acts, s' := [], s;
    }
  }

  lemma RunningOnCpu(s: State, t: nat)
    requires Inv(s) && t < |s.threads| && s.threads[t].status == Running
    ensures OnCpu(s, t)
  {
    assert ThreadOk(s, t);
  }

  lemma {:induction false} LeadsInv(s: State, acts: seq<Action>, s': State, k: nat, c: nat, t: nat)
    requires Inv(s) && Leads(s, acts, s', k, c) && t < |s.threads|
    ensures Inv(s') && t < |s'.threads| && s'.threads[t].cpu == s.threads[t].cpu
    decreases |acts|
  {
    hide Inv, Next, Enabled;
    if acts != [] {
      NextInv(s, acts[0]);
      CpuStays(s, acts[0], k, c, t);
      LeadsInv(Next(s, acts[0]), acts[1..], s', k, c, t);
    }
  }

  lemma CpuStays(s: State, a: Action, k: nat, c: nat, t: nat)
    requires Helps(a, k, c) && Enabled(s, a) && t < |s.threads|
    ensures t < |Next(s, a).threads| && Next(s, a).threads[t].cpu == s.threads[t].cpu
  {}

  /**
    From every state of every run in which a thread waits, at whatever point of
    its code, wake() and steps of its waker and CPU can lead to its running.
   */
  lemma WokenRuns(n: nat, m: nat, run: seq<State>, i: nat, k: nat, t: nat) returns (acts: seq<Action>, s': State)
    requires IsRun(n, m, run) && i < |run| && Enabled(run[i], Wake(k, t)) && run[i].threads[t].status == Waiting
    ensures Leads(Next(run[i], Wake(k, t)), acts, s', k, run[i].threads[t].cpu) && OnCpu(s', t)
  {
    hide Inv, Next, Leads, OnCpu;
    var s, c := run[i], run[i].threads[t].cpu;
    RunInv(n, m, run, i);
    NextInv(s, Wake(k, t));
    WakeTakesEffect(n, m, run, i, k, t);
    var s0 := Next(s, Wake(k, t));
    var acts1, s1 := WakeArrives(n, m, run, i, k, t);
    LeadsInv(s0, acts1, s1, k, c, t);
    var acts2, s2 := ArrivedCanRun(s1, k, t);
    LeadsConcat(s0, acts1, s1, acts2, s2, k, c);
    acts, s' := acts1 + acts2, s2;
  }

  /** A thread that start() puts on CPU c, and wakes, can be led to run there. */
  lemma StartedRuns(n: nat, m: nat, run: seq<State>, i: nat, k: nat, c: nat, t: nat) returns (acts: seq<Action>, s': State)
    requires IsRun(n, m, run) && i < |run| && Enabled(run[i], Start(t, c)) && k < |run[i].cpus|
    ensures var s := Next(run[i], Start(t, c));
            Enabled(s, Wake(k, t)) && Leads(Next(s, Wake(k, t)), acts, s', k, c) && OnCpu(s', t) && s'.threads[t].cpu == c
  {
    hide Inv, Leads;
    var s := Next(run[i], Start(t, c));
    var longer := run[..i + 1] + [s];
    OneMore(n, m, run, i, Start(t, c));
    RunInv(n, m, longer, i + 1);
    acts, s' := WokenRuns(n, m, longer, i + 1, k, t);
    NextInv(s, Wake(k, t));
    LeadsInv(Next(s, Wake(k, t)), acts, s', k, c, t);
  }

  // ------------------------------------------------------ the end of a wait

  /** One turn of the loops of handle_incoming_wakeups() leaves a thread that is not being woken alone. */
  lemma DrainTurn(s: State, k: nat, c: nat, t: nat) returns (a: Action)
    requires Inv(s) && c < |s.cpus| && t < |s.threads| && s.threads[t].status != Waking
    requires s.cpus[c].mode.Draining? && s.cpus[c].mode.sources != {}
    ensures Helps(a, k, c) && Enabled(s, a) && Coming(s, Next(s, a), c, t)
    ensures var cpu, cpu' := s.cpus[c], Next(s, a).cpus[c];
            cpu'.current == cpu.current && cpu'.mode.Draining? && cpu'.mode.reschedule == cpu.mode.reschedule
  {
    hide Inv, Coming, Sum;
    var cpu := s.cpus[c];
    var i: nat :| i in cpu.mode.sources;
    SourceInRange(s, c, i);
    if cpu.incoming[i] == [] {
      a := Drained(c, i);
      DrainedComing(s, c, i, t);
    } else {
      HeadInRange(s, c, i);
      HeadIsWaking(s, c, i);
      a := Pop(c, i);
      PopComing(s, c, i, t);
    }
  }

  /** The CPU comes to the end of these loops, with the same thread on it. */
  lemma {:induction false} DrainsOut(s: State, k: nat, c: nat, t: nat) returns (acts: seq<Action>, s': State)
    requires Inv(s) && c < |s.cpus| && t < |s.threads| && s.threads[t].status != Waking && s.cpus[c].mode.Draining?
    ensures Leads(s, acts, s', k, c) && Inv(s') && c < |s'.cpus| && t < |s'.threads| && s'.threads[t] == s.threads[t]
    ensures var cpu, cpu' := s.cpus[c], s'.cpus[c];
            cpu'.current == cpu.current && cpu'.mode == Draining({}, cpu.mode.reschedule)
    decreases Turn(s, c), Sources(s.cpus[c]), Sum(s.cpus[c].incoming, Len)
  {
    hide Inv, Sum, Next, Enabled, Turn, Sources, Helps;
    if s.cpus[c].mode.sources == {} {
      return [], s;
    }
    var a := DrainTurn(s, k, c, t);
    var s1 := Next(s, a);
    NextInv(s, a);
    acts, s' := DrainsOut(s1, k, c, t);
    LeadsFirst(s, a, acts, s', k, c);
    acts := [a] + acts;
  }

  lemma StayOnCpu(s: State, c: nat, t: nat)
    requires OnCpu(s, t) && s.threads[t].cpu == c && s.cpus[c].mode.Draining? && s.cpus[c].mode.sources == {}
    ensures Enabled(s, Finish(c, None)) && var s' := Next(s, Finish(c, None));
            OnCpu(s', t) && s'.threads[t] == s.threads[t] && s'.cpus[c].mode == Free
  {}

  /** A thread that runs gets out of wait() and stop_wait(). */
  lemma LeavesWait(s: State, k: nat, c: nat, t: nat) returns (acts: seq<Action>, s': State)
    requires Inv(s) && OnCpu(s, t) && s.threads[t].cpu == c && s.cpus[c].mode == Free
    ensures Leads(s, acts, s', k, c) && OnCpu(s', t) && s'.threads[t].pc == Normal
  {
    hide Inv;
    var pc := s.threads[t].pc;
    RunningPc(s, t);
    if pc == Normal {
      acts, s' := [], s;
    } else {
      var s1 := if pc == InWait then Next(s, StopWait(c)) else s;
      s' := Next(s1, StopTurn(c));
      assert Leads(s', [], s', k, c);
      LeadsFirst(s1, StopTurn(c), [], s', k, c);
      acts := [StopTurn(c)] + [];
      if pc == InWait {
        LeadsFirst(s, StopWait(c), acts, s', k, c);
        acts := [StopWait(c)] + acts;
      }
    }
  }

  lemma RunningPc(s: State, t: nat)
    requires Inv(s) && t < |s.threads| && s.threads[t].status == Running
    ensures s.threads[t].pc in {Normal, InWait, StopLoop}
  {
    assert ThreadOk(s, t);
  }

  lemma RunningReturns(s: State, k: nat, t: nat) returns (acts: seq<Action>, s': State)
    requires Inv(s) && OnCpu(s, t)
    ensures Leads(s, acts, s', k, s.threads[t].cpu) && OnCpu(s', t) && s'.threads[t].pc == Normal
  {
    hide Inv, Next, Enabled, Leads;
    var c := s.threads[t].cpu;
    if s.cpus[c].mode == Free {
      acts, s' := LeavesWait(s, k, c, t);
    } else {
      var acts1, s1 := DrainsOut(s, k, c, t);
      StayOnCpu(s1, c, t);
      LeadsLast(s, acts1, s1, Finish(c, None), k, c);
      NextInv(s1, Finish(c, None));
      var s2 := Next(s1, Finish(c, None));
      var acts2, s3 := LeavesWait(s2, k, c, t);
      LeadsConcat(s, acts1 + [Finish(c, None)], s2, acts2, s3, k, c);
      acts, s' := acts1 + [Finish(c, None)] + acts2, s3;
    }
  }

  /**
    From every state of every run in which a thread waits, at whatever point of
    its code, wake() and steps of its waker and CPU can lead to its running with
    its wait over.
   */
  lemma WokenReturns(n: nat, m: nat, run: seq<State>, i: nat, k: nat, t: nat) returns (acts: seq<Action>, s': State)
    requires IsRun(n, m, run) && i < |run| && Enabled(run[i], Wake(k, t)) && run[i].threads[t].status == Waiting
    ensures Leads(Next(run[i], Wake(k, t)), acts, s', k, run[i].threads[t].cpu)
    ensures OnCpu(s', t) && s'.threads[t].pc == Normal
  {
    hide Inv, Next, Leads, OnCpu;
    var s, c := run[i], run[i].threads[t].cpu;
    RunInv(n, m, run, i);
    NextInv(s, Wake(k, t));
    WakeTakesEffect(n, m, run, i, k, t);
    var s0 := Next(s, Wake(k, t));
    var acts1, s1 := WokenRuns(n, m, run, i, k, t);
    LeadsInv(s0, acts1, s1, k, c, t);
    var acts2, s2 := RunningReturns(s1, k, t);
    LeadsConcat(s0, acts1, s1, acts2, s2, k, c);
    acts, s' := acts1 + acts2, s2;
  }

  lemma WaitDrains(s: State, c: nat)
    requires Inv(s) && Enabled(s, CallWait(c))
    ensures var s', t := Next(s, CallWait(c)), s.cpus[c].current;
            && c < |s'.cpus| && s'.cpus[c].mode.Draining? && s'.cpus[c].mode.reschedule && s'.cpus[c].current == t && t != c
            && t < |s'.threads| && s'.threads[t].status == s.threads[t].status && s.threads[t].status in {Waiting, Waking}
  {
    Views(s, c, s.cpus[c].current);
  }

  lemma SwitchToIdle(s: State, c: nat, t: nat)
    requires View(s, c, c) && c != t && t < |s.threads| && s.cpus[c].current == t && s.threads[t].status == Waiting
    requires s.cpus[c].mode == Draining({}, true)
    ensures Enabled(s, Finish(c, Some(c))) && var s' := Next(s, Finish(c, Some(c)));
            t < |s'.threads| && s'.threads[t] == s.threads[t] && c < |s'.cpus| && s'.cpus[c].current == c
  {}

  /** A thread that calls wait() without having been woken makes way for another one and goes on waiting. */
  lemma WaitMakesWay(n: nat, m: nat, run: seq<State>, i: nat, c: nat) returns (acts: seq<Action>, s': State)
    requires IsRun(n, m, run) && i < |run| && Enabled(run[i], CallWait(c)) && run[i].threads[run[i].cpus[c].current].status != Waking
    ensures Leads(Next(run[i], CallWait(c)), acts, s', c, c)
    ensures var t := run[i].cpus[c].current;
            c < |s'.cpus| && s'.cpus[c].current != t && t < |s'.threads| && s'.threads[t].status == Waiting
  {
    hide Inv, IsRun, Next, Leads, View;
    var s, t := run[i], run[i].cpus[c].current;
    RunInv(n, m, run, i);
    WaitDrains(s, c);
    NextInv(s, CallWait(c));
    var s1 := Next(s, CallWait(c));
    var acts1, s2 := DrainsOut(s1, c, c, t);
    IdleExists(s2, c);
    Views(s2, c, c);
    SwitchToIdle(s2, c, t);
    LeadsLast(s1, acts1, s2, Finish(c, Some(c)), c, c);
    acts, s' := acts1 + [Finish(c, Some(c))], Next(s2, Finish(c, Some(c)));
  }

  // --------------------------------------------------------------- ending

  /** The CPU leaves the thread that ends, if it is still there. */
  lemma LeavesEnding(s: State, c: nat, t: nat)
    requires View(s, c, t) && View(s, c, c) && Chooses(s, c) && s.threads[t].status == Terminating && s.threads[t].cpu == c
    ensures var a := Finish(c, if s.threads[s.cpus[c].current].status == Running then None else Some(c));
            Enabled(s, a) && var s' := Next(s, a);
            && |s'.threads| == |s.threads| && c < |s'.cpus| && s'.cpus[c].mode == Free && s'.cpus[c].current != t
            && s'.threads[t] == s.threads[t]
  {}

  lemma Reaped(s: State, c: nat, t: nat)
    requires View(s, c, t) && s.cpus[c].mode == Free && s.cpus[c].current != t && s.threads[t].status == Terminating && s.threads[t].cpu == c
    ensures Enabled(s, Reap(c)) && t < |Next(s, Reap(c)).threads| && Next(s, Reap(c)).threads[t].status == Terminated
  {}

  /** From every state in which a thread is ending, steps of its CPU alone lead to its being terminated. */
  lemma EndingIsReaped(n: nat, m: nat, run: seq<State>, i: nat, t: nat) returns (acts: seq<Action>, s': State)
    requires IsRun(n, m, run) && i < |run| && t < |run[i].threads| && run[i].threads[t].status == Terminating
    ensures Leads(run[i], acts, s', run[i].threads[t].cpu, run[i].threads[t].cpu)
    ensures t < |s'.threads| && s'.threads[t].status == Terminated
  {
    hide Inv, IsRun, Leads, Next, Enabled, Chooses, View;
    var s, c := run[i], run[i].threads[t].cpu;
    RunInv(n, m, run, i);
    EndingExits(s, t);
    var acts1, s1 := ComesToChoice(s, c, c, t);
    Views(s1, c, t);
    IdleExists(s1, c);
    Views(s1, c, c);
    LeavesEnding(s1, c, t);
    var a := Finish(c, if s1.threads[s1.cpus[c].current].status == Running then None else Some(c));
    LeadsLast(s, acts1, s1, a, c, c);
    var s2 := Next(s1, a);
    NextInv(s1, a);
    Views(s2, c, t);
    Reaped(s2, c, t);
    LeadsLast(s, acts1 + [a], s2, Reap(c), c, c);
    acts, s' := acts1 + [a] + [Reap(c)], Next(s2, Reap(c));
  }

  lemma EndingExits(s: State, t: nat)
    requires Inv(s) && t < |s.threads| && s.threads[t].status == Terminating
    ensures s.threads[t].cpu < |s.cpus| && s.threads[t].pc == Exiting
  {
    assert ThreadOk(s, t);
  }

  /** In every state of every run: any CPU may wake any thread, and a thread that runs may wait or end, but for the idle threads. */
  lemma MayAct(n: nat, m: nat, run: seq<State>, i: nat, k: nat, t: nat)
    requires IsRun(n, m, run) && i < |run| && k < n && t < n + m
    ensures |run[i].cpus| == n && |run[i].threads| == n + m && Enabled(run[i], Wake(k, t))
    ensures run[i].threads[t].status == Unstarted ==> Enabled(run[i], Start(t, k))
    ensures var cpu := run[i].cpus[k];
            cpu.current == t && t != k && cpu.mode == Free && run[i].threads[t].pc == Normal ==>
              Enabled(run[i], PrepareWait(k)) && Enabled(run[i], Exit(k)) && Enabled(run[i], Preempt(k))
    ensures var cpu := run[i].cpus[k];
            cpu.current == t && cpu.mode == Free && run[i].threads[t].pc == Prepared ==>
              Enabled(run[i], CallWait(k)) && Enabled(run[i], StopWait(k))
  {
    hide IsRun;
    RunInv(n, m, run, i);
    assert CpuOk(run[i], k);
  }
}
