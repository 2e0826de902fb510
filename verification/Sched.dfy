/**
  Thread status in the scheduler of core/sched.cc as a step system: any number
  of CPUs and threads, waking each other, waiting, being preempted and ending.
  Threads stay on the CPU they were started on.
 */
module Sched {

  datatype Option<T> = None | Some(value: T)

  datatype Status = Unstarted | Waiting | Running | Queued | Waking | Terminating | Terminated

  /** Where a thread is in its own code. */
  datatype Pc =
    | Normal
    | Prepared                  // after prepare_wait(), preemption disabled
    | InWait                    // in wait(), preemption disabled
    | StopLoop                  // in stop_wait(), after a failed exchange
    | Exiting                   // in complete()

  /** Where a waking thread is: with its waker, or on a queue for its CPU. */
  datatype Place = Off | Flight(source: nat) | Incoming(source: nat)

  /** `place` is bookkeeping: no step looks at it. */
  datatype Thread = Thread(status: Status, cpu: nat, pc: Pc, place: Place)

  /** Draining: in handle_incoming_wakeups(), with the queues still to look at. */
  datatype Mode = Free | Draining(sources: set<nat>, reschedule: bool)

  datatype Cpu = Cpu(
    current: nat,
    runq: set<nat>,
    incoming: seq<seq<nat>>,    // wakeups by source CPU
    mask: set<nat>,             // source CPUs whose queue has something
    flight: set<nat>,           // threads marked waking from here, not yet queued
    marks: multiset<nat>,       // CPUs whose mask is yet to be set from here
    terminating: Option<nat>,
    mode: Mode
  )

  datatype State = State(threads: seq<Thread>, cpus: seq<Cpu>)

  datatype Action =
    | Wake(s: nat, t: nat)
    | Push(s: nat, t: nat)
    | Mark(s: nat, c: nat)
    | Start(t: nat, c: nat)
    | PrepareWait(c: nat)
    | CallWait(c: nat)
    | StopWait(c: nat)
    | StopTurn(c: nat)
    | Preempt(c: nat)
    | Exit(c: nat)
    | Again(c: nat)
    | Poll(c: nat)
    | Pop(c: nat, i: nat)
    | Drained(c: nat, i: nat)
    | Finish(c: nat, next: Option<nat>)
    | Reap(c: nat)

  /** The idle threads come first, one for each of n CPUs; m more are not started. */
  function Init(n: nat, m: nat): State {
    State(seq(n, c requires 0 <= c => Thread(Running, c, Normal, Off)) + seq(m, _ => Thread(Unstarted, 0, Normal, Off)),
          seq(n, c requires 0 <= c => Cpu(c, {}, seq(n, _ => []), {}, {}, multiset{}, None, Free)))
  }

  /** The CPU runs code of its current thread, which is at this point. */
  predicate At(s: State, c: nat, pc: Pc) {
    c < |s.cpus| && s.cpus[c].mode == Free && s.cpus[c].current < |s.threads| && s.threads[s.cpus[c].current].pc == pc
  }

  predicate Enabled(s: State, a: Action) {
    match a
    case Wake(k, t) => k < |s.cpus| && t < |s.threads|
    case Push(k, t) => k < |s.cpus| && t < |s.threads| && t in s.cpus[k].flight
                       && s.threads[t].cpu < |s.cpus| && k < |s.cpus[s.threads[t].cpu].incoming|
    case Mark(k, c) => k < |s.cpus| && c < |s.cpus| && c in s.cpus[k].marks
    case Start(t, c) => t < |s.threads| && c < |s.cpus| && s.threads[t].status == Unstarted
    case PrepareWait(c) => At(s, c, Normal) && s.cpus[c].current != c
    case CallWait(c) => At(s, c, Prepared)
    case StopWait(c) => At(s, c, Prepared) || At(s, c, InWait)
    case StopTurn(c) => At(s, c, StopLoop)
    case Preempt(c) => At(s, c, Normal) || At(s, c, StopLoop)
    case Exit(c) => At(s, c, Normal) && s.cpus[c].current != c && Reapable(s, c)
    case Again(c) => At(s, c, Exiting)
    case Poll(c) => At(s, c, Normal) && s.cpus[c].current == c
    case Pop(c, i) => c < |s.cpus| && s.cpus[c].mode.Draining? && i in s.cpus[c].mode.sources && i < |s.cpus[c].incoming|
                      && s.cpus[c].incoming[i] != [] && s.cpus[c].incoming[i][0] < |s.threads|
    case Drained(c, i) => c < |s.cpus| && s.cpus[c].mode.Draining? && i in s.cpus[c].mode.sources
                          && i < |s.cpus[c].incoming| && s.cpus[c].incoming[i] == []
    case Finish(c, next) => c < |s.cpus| && s.cpus[c].mode.Draining? && s.cpus[c].mode.sources == {}
                            && s.cpus[c].current < |s.threads|
                            && (next.Some? ==> next.value in s.cpus[c].runq && next.value < |s.threads| && s.cpus[c].mode.reschedule)
                            && (next.None? ==> !s.cpus[c].mode.reschedule || s.threads[s.cpus[c].current].status == Running)
    case Reap(c) => c < |s.cpus| && s.cpus[c].mode == Free && Reapable(s, c)
                    && s.cpus[c].terminating.Some? && s.cpus[c].terminating.value != s.cpus[c].current
  }

  predicate Reapable(s: State, c: nat)
    requires c < |s.cpus|
  {
    s.cpus[c].terminating.Some? ==> s.cpus[c].terminating.value < |s.threads|
  }

  function SetThread(s: State, t: nat, th: Thread): State
    requires t < |s.threads|
  {
    s.(threads := s.threads[t := th])
  }

  function SetCpu(s: State, c: nat, cpu: Cpu): State
    requires c < |s.cpus|
  {
    s.(cpus := s.cpus[c := cpu])
  }

  /** handle_incoming_wakeups() starts by taking and clearing the mask. */
  function Drain(cpu: Cpu, reschedule: bool): Cpu {
    cpu.(mask := {}, mode := Draining(cpu.mask, reschedule))
  }

  /** wake_impl(): only a waiting thread is woken. */
  function WakeStep(s: State, k: nat, t: nat): State
    requires k < |s.cpus| && t < |s.threads|
  {
    var th := s.threads[t];
    if th.status != Waiting then s
    else SetCpu(SetThread(s, t, th.(status := Waking, place := Flight(k))), k,
                s.cpus[k].(flight := s.cpus[k].flight + {t}))
  }

  function PushStep(s: State, k: nat, t: nat): State
    requires Enabled(s, Push(k, t))
  {
    var th := s.threads[t];
    var c := th.cpu;
    var s := SetCpu(SetThread(s, t, th.(place := Incoming(k))), k,
                    s.cpus[k].(flight := s.cpus[k].flight - {t}, marks := s.cpus[k].marks + multiset{c}));
    SetCpu(s, c, s.cpus[c].(incoming := s.cpus[c].incoming[k := s.cpus[c].incoming[k] + [t]]))
  }

  function MarkStep(s: State, k: nat, c: nat): State
    requires k < |s.cpus| && c < |s.cpus|
  {
    var s := SetCpu(s, k, s.cpus[k].(marks := s.cpus[k].marks - multiset{c}));
    SetCpu(s, c, s.cpus[c].(mask := s.cpus[c].mask + {k}))
  }

  function StopWaitStep(s: State, c: nat): State
    requires Enabled(s, StopWait(c))
  {
    var t := s.cpus[c].current;
    var th := s.threads[t];
    SetThread(s, t, if th.status == Waiting then th.(status := Running, pc := Normal) else th.(pc := StopLoop))
  }

  function StopTurnStep(s: State, c: nat): State
    requires Enabled(s, StopTurn(c))
  {
    var t := s.cpus[c].current;
    var th := s.threads[t];
    if th.status == Waking then SetCpu(s, c, Drain(s.cpus[c], true)) else SetThread(s, t, th.(pc := Normal))
  }

  /** A thread ends; one that ended here before is now out of the way. */
  function ExitStep(s: State, c: nat): State
    requires Enabled(s, Exit(c))
  {
    var t := s.cpus[c].current;
    var gone := s.cpus[c].terminating;
    var s := SetThread(s, t, s.threads[t].(status := Terminating, pc := Exiting));
    var s := if gone.Some? then SetThread(s, gone.value, s.threads[gone.value].(status := Terminated)) else s;
    SetCpu(s, c, s.cpus[c].(terminating := Some(t)))
  }

  /** One turn of the loop over an incoming queue. */
  function PopStep(s: State, c: nat, i: nat): State
    requires Enabled(s, Pop(c, i))
  {
    var cpu := s.cpus[c];
    var t := cpu.incoming[i][0];
    var cpu := cpu.(incoming := cpu.incoming[i := cpu.incoming[i][1..]]);
    if t == cpu.current then SetCpu(SetThread(s, t, s.threads[t].(status := Running, place := Off)), c, cpu)
    else SetCpu(SetThread(s, t, s.threads[t].(status := Queued, place := Off)), c, cpu.(runq := cpu.runq + {t}))
  }

  /** The end of reschedule_from_interrupt(): stay, or switch to the thread `next`. */
  function FinishStep(s: State, c: nat, next: Option<nat>): State
    requires Enabled(s, Finish(c, next))
  {
    var cpu := s.cpus[c];
    if next == None then SetCpu(s, c, cpu.(mode := Free))
    else
      var p, n := cpu.current, next.value;
      var preempted := s.threads[p].status == Running;
      var s := if preempted then SetThread(s, p, s.threads[p].(status := Queued)) else s;
      var s := SetThread(s, n, s.threads[n].(status := Running));
      SetCpu(s, c, cpu.(current := n, mode := Free, runq := cpu.runq - {n} + (if preempted then {p} else {})))
  }

  function Next(s: State, a: Action): State
    requires Enabled(s, a)
  {
    match a
    case Wake(k, t) => WakeStep(s, k, t)
    case Push(k, t) => PushStep(s, k, t)
    case Mark(k, c) => MarkStep(s, k, c)
    case Start(t, c) => SetThread(s, t, s.threads[t].(status := Waiting, cpu := c))
    case PrepareWait(c) =>
      var t := s.cpus[c].current;
      SetThread(s, t, s.threads[t].(status := Waiting, pc := Prepared))
    case CallWait(c) =>
      var t := s.cpus[c].current;
      SetCpu(SetThread(s, t, s.threads[t].(pc := InWait)), c, Drain(s.cpus[c], true))
    case StopWait(c) => StopWaitStep(s, c)
    case StopTurn(c) => StopTurnStep(s, c)
    case Preempt(c) => SetCpu(s, c, Drain(s.cpus[c], true))
    case Exit(c) => ExitStep(s, c)
    case Again(c) => SetCpu(s, c, Drain(s.cpus[c], true))
    case Poll(c) => SetCpu(s, c, Drain(s.cpus[c], false))
    case Pop(c, i) => PopStep(s, c, i)
    case Drained(c, i) =>
      var cpu := s.cpus[c];
      SetCpu(s, c, cpu.(mode := Draining(cpu.mode.sources - {i}, cpu.mode.reschedule)))
    case Finish(c, next) => FinishStep(s, c, next)
    case Reap(c) =>
      var u := s.cpus[c].terminating.value;
      SetCpu(SetThread(s, u, s.threads[u].(status := Terminated)), c, s.cpus[c].(terminating := None))
  }

  ghost predicate Follows(s: State, s': State) {
    exists a: Action :: Enabled(s, a) && s' == Next(s, a)
  }

  ghost predicate IsRun(n: nat, m: nat, run: seq<State>) {
    && |run| > 0 && run[0] == Init(n, m)
    && forall i :: 0 < i < |run| ==> Follows(run[i - 1], run[i])
  }
}
