/**
  How a wakeup gets the attention of another CPU, core/sched.cc: the set of
  sources with wakeups in words of 64 CPUs, the flag that says the idle loop is
  polling, and the interrupt that ends a halt.  One CPU is the target, any
  number of others wake threads of it.
 */
module WakeupIpi {

  const BITS_PER_WORD: nat := 64
  const NR_WORDS: nat := 4
  const MAX_CPUS: nat := 256

  function WordOf(k: nat): nat { k / BITS_PER_WORD }

  /** A CPU in wake_impl(): thread queued, first in its word, not polling when looked. */
  datatype Waker = Quiet | Marking | Ringing | Sending

  /** Why handle_incoming_wakeups() is called. */
  datatype Why = Poll | Check | Woken | Switch

  datatype Target =
    | Busy                                          // runs a thread; the idle thread is queued
    | PollBegin
    | Look(why: Why, word: nat, taken: set<nat>)    // fetch_clear(), word by word
    | Drain(why: Why, taken: set<nat>)
    | PollEnd(leave: bool)
    | Halt                                          // interrupts off, about to halt
    | Halted

  datatype State = State(
    target: Target,
    runq: nat,
    mask: set<nat>,
    queue: seq<nat>,            // woken threads by source CPU
    poll: bool,                 // idle_poll
    ipi: bool,                  // the interrupt is pending
    resched: bool,              // need_reschedule
    wakers: seq<Waker>
  )

  /** The CPUs 0 .. n - 1; the target is one of them. */
  function Init(n: nat): State {
    State(Busy, 1, {}, seq(n, _ => 0), false, false, false, seq(n, _ => Quiet))
  }

  datatype Action =
    | Push(k: nat)              // a thread is queued from CPU k
    | Mark(k: nat)              // test_all_and_set()
    | Ring(k: nat)              // idle_poll.load()
    | Send(k: nat)              // runqueue.size()
    | LocalWake(k: nat)         // the target wakes a thread of its own
    | Deliver                   // the interrupt arrives
    | Interrupt                 // another interrupt arrives
    | Go(again: bool)           // a step of the target's idle loop or scheduler
    | Preempt
    | Depart                    // a thread of the target blocks or ends

  /** Interrupts are off from the last look to the halt. */
  predicate IrqOff(t: Target) {
    ((t.Look? || t.Drain?) && t.why == Check) || t == Halt
  }

  predicate Enabled(s: State, a: Action) {
    match a
    case Push(k) => k < |s.wakers| && k < |s.queue| && s.wakers[k] == Quiet
    case Mark(k) => k < |s.wakers| && s.wakers[k] == Marking
    case Ring(k) => k < |s.wakers| && s.wakers[k] == Ringing
    case Send(k) => k < |s.wakers| && s.wakers[k] == Sending
    case LocalWake(k) => k < |s.queue| && !IrqOff(s.target) && s.target != Halted
    case Deliver => s.ipi && !IrqOff(s.target)
    case Interrupt => !IrqOff(s.target)
    case Go(_) => s.target != Busy && s.target != Halted
    case Preempt => s.target == Busy
    case Depart => s.target == Busy && s.runq > 0
  }

  predicate WordEmpty(mask: set<nat>, w: nat) {
    forall k :: k in mask ==> WordOf(k) != w
  }

  function SetWaker(s: State, k: nat, w: Waker): State
    requires k < |s.wakers|
  {
    s.(wakers := s.wakers[k := w])
  }

  function MarkStep(s: State, k: nat): State
    requires k < |s.wakers|
  {
    SetWaker(s, k, if WordEmpty(s.mask, WordOf(k)) then Ringing else Quiet).(mask := s.mask + {k})
  }

  function LocalWakeStep(s: State, k: nat): State
    requires k < |s.queue|
  {
    s.(queue := s.queue[k := s.queue[k] + 1], mask := s.mask + {k}, resched := s.resched || WordEmpty(s.mask, WordOf(k)))
  }

  /** An interrupt ends a halt; otherwise it asks for a reschedule. */
  function InterruptStep(s: State): State {
    if s.target == Halted then s.(target := Look(Woken, 0, {})) else s.(resched := true)
  }

  function LookStep(s: State, why: Why, word: nat, taken: set<nat>): State {
    if word >= NR_WORDS then s.(target := Drain(why, taken))
    else
      var here := set k | k in s.mask && WordOf(k) == word;
      s.(mask := s.mask - here, target := Look(why, word + 1, taken + here))
  }

  /** The threads in the queues of these sources, from source k on. */
  function Count(queue: seq<nat>, taken: set<nat>, k: nat): nat
    requires k <= |queue|
    decreases |queue| - k
  {
    if k == |queue| then 0 else (if k in taken then queue[k] else 0) + Count(queue, taken, k + 1)
  }

  function Emptied(queue: seq<nat>, taken: set<nat>): seq<nat> {
    seq(|queue|, k requires 0 <= k < |queue| => if k in taken then 0 else queue[k])
  }

  function DrainStep(s: State, why: Why, taken: set<nat>, again: bool): State {
    var runq := s.runq + Count(s.queue, taken, 0);
    var s := s.(runq := runq, queue := Emptied(s.queue, taken));
    match why
    case Poll => if runq > 0 then s.(target := PollEnd(true)) else if again then s.(target := Look(Poll, 0, {}))
                 else s.(target := PollEnd(false))
    case Check => if runq > 0 then s.(target := Look(Switch, 0, {})) else s.(target := Halt)
    case Woken => if runq > 0 then s.(target := Look(Switch, 0, {})) else s.(target := PollBegin)
    case Switch => if runq > 0 then s.(target := Busy) else s.(target := PollBegin)
  }

  function GoStep(s: State, again: bool): State
    requires s.target != Busy && s.target != Halted
  {
    match s.target
    case PollBegin => s.(poll := true, target := Look(Poll, 0, {}))
    case Look(why, word, taken) => LookStep(s, why, word, taken)
    case Drain(why, taken) => DrainStep(s, why, taken, again)
    case PollEnd(leave) => s.(poll := false, target := if leave then Look(Switch, 0, {}) else Look(Check, 0, {}))
    case Halt => s.(target := Halted)
  }

  function Next(s: State, a: Action): State
    requires Enabled(s, a)
  {
    match a
    case Push(k) => SetWaker(s, k, Marking).(queue := s.queue[k := s.queue[k] + 1])
    case Mark(k) => MarkStep(s, k)
    case Ring(k) => SetWaker(s, k, if s.poll then Quiet else Sending)
    case Send(k) => SetWaker(s, k, Quiet).(ipi := s.ipi || s.runq <= 1)
    case LocalWake(k) => LocalWakeStep(s, k)
    case Deliver => InterruptStep(s).(ipi := false)
    case Interrupt => InterruptStep(s)
    case Go(again) => GoStep(s, again)
    case Preempt => s.(resched := false, target := Look(Switch, 0, {}))
    case Depart => if s.runq == 1 then s.(runq := 0, target := PollBegin) else s.(runq := s.runq - 1)
  }

  ghost predicate Follows(s: State, s': State) {
    exists a: Action :: Enabled(s, a) && s' == Next(s, a)
  }

  ghost predicate IsRun(n: nat, run: seq<State>) {
    && n <= MAX_CPUS && |run| > 0 && run[0] == Init(n)
    && forall i :: 0 < i < |run| ==> Follows(run[i - 1], run[i])
  }

  // --------------------------------------------------------------- invariant

  predicate Polls(t: Target) {
    ((t.Look? || t.Drain?) && t.why == Poll) || t.PollEnd?
  }

  /** The target does not look at this word again before it halts. */
  predicate Past(t: Target, w: nat) {
    || t == Halt || t == Halted
    || (t.Look? && t.why == Check && w < t.word)
    || (t.Drain? && t.why == Check)
  }

  /** The interrupt is pending, or somebody is going to send it. */
  ghost predicate Summoned(s: State) {
    s.ipi || exists j :: 0 <= j < |s.wakers| && (s.wakers[j] == Ringing || s.wakers[j] == Sending)
  }

  /** The threads queued by source k are flagged, being taken, or about to be flagged. */
  predicate Flagged(s: State, k: nat)
    requires k < |s.wakers|
  {
    k in s.mask || s.wakers[k] == Marking || ((s.target.Look? || s.target.Drain?) && k in s.target.taken)
  }

  predicate TargetOk(s: State) {
    && (s.poll <==> Polls(s.target))
    && (Past(s.target, 0) || (s.target.Look? && s.target.why == Check) || s.target == PollEnd(false) ==> s.runq == 0)
  }

  ghost predicate Inv(s: State) {
    && TargetOk(s) && |s.queue| == |s.wakers| <= MAX_CPUS
    && (forall k :: k in s.mask ==> k < |s.wakers| && (Past(s.target, WordOf(k)) ==> Summoned(s)))
    && (forall k: nat :: k < |s.queue| && s.queue[k] > 0 ==> Flagged(s, k))
  }

  lemma InitInv(n: nat)
    requires n <= MAX_CPUS
    ensures Inv(Init(n))
  {}

  lemma MarkInv(s: State, k: nat)
    requires Inv(s) && Enabled(s, Mark(k))
    ensures Inv(Next(s, Mark(k)))
  {
    var s' := Next(s, Mark(k));
    assert s'.wakers[k] == Ringing || s'.wakers[k] == Quiet;
    forall x | x in s'.mask && Past(s'.target, WordOf(x)) ensures Summoned(s') {
      if WordEmpty(s.mask, WordOf(k)) {
        assert s'.wakers[k] == Ringing;
      } else {
        var y :| y in s.mask && WordOf(y) == WordOf(k);
        assert Summoned(s);
        StillSummoned(s, s', k);
      }
    }
  }

  /** A waker that is not ringing does not change what the others do. */
  lemma StillSummoned(s: State, s': State, k: nat)
    requires Summoned(s) && k < |s.wakers| && s.wakers[k] != Ringing && s.wakers[k] != Sending
    requires |s'.wakers| == |s.wakers| && s'.wakers == s.wakers[k := s'.wakers[k]] && (s.ipi ==> s'.ipi)
    ensures Summoned(s')
  {
    if !s.ipi {
      var j :| 0 <= j < |s.wakers| && (s.wakers[j] == Ringing || s.wakers[j] == Sending);
      assert s'.wakers[j] == s.wakers[j];
    }
  }

  lemma RingInv(s: State, k: nat)
    requires Inv(s) && Enabled(s, Ring(k))
    ensures Inv(Next(s, Ring(k)))
  {
    var s' := Next(s, Ring(k));
    if !s.poll {
      assert s'.wakers[k] == Sending;
    }
  }

  lemma SendInv(s: State, k: nat)
    requires Inv(s) && Enabled(s, Send(k))
    ensures Inv(Next(s, Send(k)))
  {}

  lemma PushInv(s: State, k: nat)
    requires Inv(s) && Enabled(s, Push(k))
    ensures Inv(Next(s, Push(k)))
  {
    var s' := Next(s, Push(k));
    if Summoned(s) {
      StillSummoned(s, s', k);
    }
  }

  lemma LookInv(s: State)
    requires Inv(s) && s.target.Look?
    ensures Inv(LookStep(s, s.target.why, s.target.word, s.target.taken))
  {
    var s' := LookStep(s, s.target.why, s.target.word, s.target.taken);
    assert s'.wakers == s.wakers && s'.ipi == s.ipi;
    assert Summoned(s') == Summoned(s);
  }

  lemma DrainInv(s: State, again: bool)
    requires Inv(s) && s.target.Drain?
    ensures Inv(DrainStep(s, s.target.why, s.target.taken, again))
  {
    var s' := DrainStep(s, s.target.why, s.target.taken, again);
    assert Summoned(s') == Summoned(s);
  }

  lemma OtherInv(s: State, a: Action)
    requires Inv(s) && Enabled(s, a)
    requires a.LocalWake? || a == Deliver || a == Interrupt || a == Preempt || a == Depart
             || (a.Go? && !s.target.Look? && !s.target.Drain?)
    ensures Inv(Next(s, a))
  {
    var s' := Next(s, a);
    assert s.ipi == s'.ipi ==> Summoned(s') == Summoned(s);
  }

  lemma NextInv(s: State, a: Action)
    requires Inv(s) && Enabled(s, a)
    ensures Inv(Next(s, a))
  {
    hide Inv, LookStep, DrainStep;
    match a
    case Push(k) => PushInv(s, k);
    case Mark(k) => MarkInv(s, k);
    case Ring(k) => RingInv(s, k);
    case Send(k) => SendInv(s, k);
    case Go(again) => if s.target.Look? { LookInv(s); } else if s.target.Drain? { DrainInv(s, again); } else { OtherInv(s, a); }
    case _ => OtherInv(s, a);
  }

  lemma {:induction false} RunInv(n: nat, run: seq<State>, i: nat)
    requires IsRun(n, run) && i < |run|
    ensures Inv(run[i])
  {
    hide Inv;
    if i == 0 {
      InitInv(n);
    } else {
      RunInv(n, run, i - 1);
      assert Follows(run[i - 1], run[i]);
      var a :| Enabled(run[i - 1], a) && run[i] == Next(run[i - 1], a);
      NextInv(run[i - 1], a);
    }
  }

  // ---------------------------------------------------------------- theorems

  /** A CPU never halts for good over a wakeup: the interrupt is pending, or a waker is on its way to send it. */
  lemma NeverHaltsOverWakeup(n: nat, run: seq<State>, i: nat, k: nat)
    requires IsRun(n, run) && i < |run| && k < |run[i].queue| && run[i].target == Halted && run[i].queue[k] > 0
    ensures run[i].ipi || exists j :: 0 <= j < |run[i].wakers| && run[i].wakers[j] != Quiet
  {
    RunInv(n, run, i);
    assert Flagged(run[i], k);
  }

  function Total(queue: seq<nat>): nat {
    if queue == [] then 0 else queue[0] + Total(queue[1..])
  }

  lemma {:induction false} TotalOneMore(queue: seq<nat>, k: nat)
    requires k < |queue|
    ensures Total(queue[k := queue[k] + 1]) == Total(queue) + 1
  {
    if k > 0 {
      assert queue[k := queue[k] + 1][1..] == queue[1..][k - 1 := queue[k] + 1];
      TotalOneMore(queue[1..], k - 1);
    } else {
      assert queue[0 := queue[0] + 1][1..] == queue[1..];
    }
  }

  lemma {:induction false} TakenAndLeft(queue: seq<nat>, taken: set<nat>, k: nat)
    requires k <= |queue|
    ensures Count(queue, taken, k) + Total(Emptied(queue, taken)[k..]) == Total(queue[k..])
    decreases |queue| - k
  {
    if k < |queue| {
      TakenAndLeft(queue, taken, k + 1);
      assert queue[k..][1..] == queue[k + 1..];
      assert Emptied(queue, taken)[k..][1..] == Emptied(queue, taken)[k + 1..];
    }
  }

  /** Threads that are queued as woken or on the run queue. */
  function Runnable(s: State): nat { Total(s.queue) + s.runq }

  /** No woken thread is lost or made up: only wakeups add one, and only a thread that blocks or ends leaves. */
  lemma NoThreadLost(n: nat, run: seq<State>, i: nat, a: Action)
    requires IsRun(n, run) && i < |run| && Enabled(run[i], a)
    ensures Runnable(Next(run[i], a)) == Runnable(run[i]) + (if a.Push? || a.LocalWake? then 1 else if a == Depart then -1 else 0)
  {
    hide IsRun, DrainStep, Total;
    var s := run[i];
    if a.Push? || a.LocalWake? {
      TotalOneMore(s.queue, a.k);
    } else if a.Go? && s.target.Drain? {
      DrainKeeps(s, s.target.why, s.target.taken, a.again);
    }
  }

  lemma DrainKeeps(s: State, why: Why, taken: set<nat>, again: bool)
    ensures Runnable(DrainStep(s, why, taken, again)) == Runnable(s)
  {
    TakenAndLeft(s.queue, taken, 0);
    assert s.queue[0..] == s.queue && Emptied(s.queue, taken)[0..] == Emptied(s.queue, taken);
  }

  /** Steps of calls of wake() in progress, of the target, and the interrupt; no new wakeup. */
  predicate InProgress(a: Action) {
    a.Mark? || a.Ring? || a.Send? || a == Deliver || a.Go?
  }

  predicate Leads(s: State, acts: seq<Action>, s': State)
    decreases |acts|
  {
    if acts == [] then s' == s
    else InProgress(acts[0]) && Enabled(s, acts[0]) && Leads(Next(s, acts[0]), acts[1..], s')
  }

  lemma LeadsFirst(s: State, a: Action, acts: seq<Action>, s': State)
    requires InProgress(a) && Enabled(s, a) && Leads(Next(s, a), acts, s')
    ensures Leads(s, [a] + acts, s')
  {
    hide Enabled, Next;
    assert ([a] + acts)[0] == a && ([a] + acts)[1..] == acts;
  }

  lemma {:induction false} CountAtLeast(queue: seq<nat>, taken: set<nat>, k: nat, from: nat)
    requires from <= k < |queue| && k in taken
    ensures Count(queue, taken, from) >= queue[k]
    decreases k - from
  {
    if from < k {
      CountAtLeast(queue, taken, k, from + 1);
    }
  }

  /** Once the target looks, it takes the threads of every flagged source. */
  lemma {:induction false} Takes(s: State, k: nat) returns (acts: seq<Action>, s': State)
    requires s.target.Look? && s.target.why == Woken && s.target.word <= NR_WORDS
    requires k < |s.queue| && k < MAX_CPUS && s.queue[k] > 0
    requires k in s.target.taken || (k in s.mask && WordOf(k) >= s.target.word)
    ensures Leads(s, acts, s') && k < |s'.queue| && s'.queue[k] == 0 && s'.runq > 0
    decreases NR_WORDS - s.target.word
  {
    var s1 := GoStep(s, false);
    if s.target.word < NR_WORDS {
      acts, s' := Takes(s1, k);
    } else {
      CountAtLeast(s.queue, s.target.taken, k, 0);
      s' := GoStep(s1, false);
      acts := [Go(false)];
      assert Leads(s1, acts, s') by { assert acts[1..] == []; }
    }
    LeadsFirst(s, Go(false), acts, s');
    acts := [Go(false)] + acts;
  }

  /** A pending interrupt ends the halt. */
  lemma Wakes(s: State, k: nat) returns (acts: seq<Action>, s': State)
    requires s.target == Halted && s.ipi && k in s.mask && k < |s.queue| && k < MAX_CPUS && s.queue[k] > 0
    ensures Leads(s, acts, s') && k < |s'.queue| && s'.queue[k] == 0 && s'.runq > 0
  {
    acts, s' := Takes(Next(s, Deliver), k);
    LeadsFirst(s, Deliver, acts, s');
    acts := [Deliver] + acts;
  }

  /** Who rings sends the interrupt: the halted CPU neither polls nor has threads to run. */
  lemma Sends(s: State, k: nat, j: nat) returns (acts: seq<Action>, s': State)
    requires Inv(s) && s.target == Halted && k in s.mask && k < |s.queue| && s.queue[k] > 0
    requires j < |s.wakers| && (s.wakers[j] == Ringing || s.wakers[j] == Sending)
    ensures Leads(s, acts, s') && k < |s'.queue| && s'.queue[k] == 0 && s'.runq > 0
  {
    var s1 := if s.wakers[j] == Ringing then Next(s, Ring(j)) else s;
    acts, s' := Wakes(Next(s1, Send(j)), k);
    LeadsFirst(s1, Send(j), acts, s');
    acts := [Send(j)] + acts;
    if s.wakers[j] == Ringing {
      LeadsFirst(s, Ring(j), acts, s');
      acts := [Ring(j)] + acts;
    }
  }

  lemma FlaggedIsTaken(s: State, k: nat) returns (acts: seq<Action>, s': State)
    requires Inv(s) && s.target == Halted && k in s.mask && k < |s.queue| && s.queue[k] > 0
    ensures Leads(s, acts, s') && k < |s'.queue| && s'.queue[k] == 0 && s'.runq > 0
  {
    if s.ipi {
      acts, s' := Wakes(s, k);
    } else {
      assert Past(s.target, WordOf(k));
      var j :| 0 <= j < |s.wakers| && (s.wakers[j] == Ringing || s.wakers[j] == Sending);
      acts, s' := Sends(s, k, j);
    }
  }

  /**
    From every state of every run in which the CPU has halted while a thread of
    it is queued as woken, the wakers' calls in progress and the interrupt alone
    lead to a state in which the CPU has taken the thread.
   */
  lemma HaltedIsWoken(n: nat, run: seq<State>, i: nat, k: nat) returns (acts: seq<Action>, s': State)
    requires IsRun(n, run) && i < |run| && k < |run[i].queue| && run[i].target == Halted && run[i].queue[k] > 0
    ensures Leads(run[i], acts, s') && k < |s'.queue| && s'.queue[k] == 0 && s'.runq > 0
  {
    hide Inv;
    var s := run[i];
    RunInv(n, run, i);
    if k in s.mask {
      acts, s' := FlaggedIsTaken(s, k);
    } else {
      NotFlagged(s, k);
      NextInv(s, Mark(k));
      acts, s' := FlaggedIsTaken(Next(s, Mark(k)), k);
      LeadsFirst(s, Mark(k), acts, s');
      acts := [Mark(k)] + acts;
    }
  }

  lemma NotFlagged(s: State, k: nat)
    requires Inv(s) && s.target == Halted && k < |s.queue| && s.queue[k] > 0 && k !in s.mask
    ensures k < |s.wakers| && s.wakers[k] == Marking
  {
    assert Flagged(s, k);
  }
}
