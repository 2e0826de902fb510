/**
  RCU grace periods of core/rcu.cc as a step system over a fixed, arbitrary
  number of CPUs.  Each CPU has a quiescent-state thread, a double buffer of
  deferred callbacks and at most one open read section, which keeps every
  other thread of that CPU from running.
 */
module Rcu {

  datatype Option<T> = None | Some(value: T)

  /** Room for callbacks in one buffer. */
  const QUEUE_SIZE: nat := 2000

  /** A deferred function, with the read section open on each CPU when it was queued. */
  datatype Callback = Callback(func: nat, open: seq<Option<nat>>)

  /** Why a thread waits: to clean up at a generation, or for something to do. */
  type Goal = Option<nat>

  datatype Pc =
    | Top
    | Alloc
    | Announce(g: nat)
    | Ask(g: nat, k: nat)               // request(g) on the CPUs from k on
    | AskSwap(g: nat, k: nat, seen: nat)
    | AskWake(g: nat, k: nat)
    | Publish(g: nat)
    | Tell(goal: Goal, k: nat)          // the wake loop of set_generation()
    | TellWake(goal: Goal, k: nat)
    | Prep(goal: Goal)                  // wait_until()
    | Check(goal: Goal)
    | Scan(g: nat, k: nat)              // all_at_generation()
    | Sleep(goal: Goal, miss: nat)      // `miss` is the CPU found behind
    | Serve(goal: Goal, reached: bool)  // wait_until() returned
    | SetGeneration(goal: Goal, r: nat)
    | Done
    | Take
    | Run(todo: seq<Callback>)

  datatype Cpu = Cpu(
    pc: Pc,
    buf: bool,
    callbacks0: seq<Callback>,
    callbacks1: seq<Callback>,
    generation: nat,
    request: nat,
    requested: bool,
    woken: bool,
    section: Option<nat>,               // the open read section
    // bookkeeping: everything deferred and everything run here, in order,
    // and who raised the request but has not yet woken this CPU's thread
    deferred: seq<Callback>,
    ran: seq<Callback>,
    asker: Option<nat>
  ) {
    function Front(): seq<Callback> { if buf then callbacks1 else callbacks0 }
    function Back(): seq<Callback> { if buf then callbacks0 else callbacks1 }
    function ClearBack(): Cpu { if buf then this.(callbacks0 := []) else this.(callbacks1 := []) }
    function Add(cb: Callback): Cpu {
      if buf then this.(callbacks1 := callbacks1 + [cb], deferred := deferred + [cb])
      else this.(callbacks0 := callbacks0 + [cb], deferred := deferred + [cb])
    }
  }

  datatype State = State(cpus: seq<Cpu>, nextGeneration: nat, nextSection: nat)

  function Init(n: nat): State {
    State(seq(n, _ => Cpu(Top, false, [], [], 0, 0, false, false, None, [], [], None)), 0, 0)
  }

  datatype Action =
    | Step                              // of the CPU's quiescent-state thread
    | WeakFail                          // its compare-and-swap fails for no reason
    | Defer(func: nat)                  // rcu_defer() on this CPU
    | ReadBegin
    | ReadEnd
    | Wake                              // somebody wakes the quiescent-state thread

  predicate Enabled(s: State, i: nat, a: Action) {
    i < |s.cpus| &&
    var c := s.cpus[i];
    match a
    case Step => c.section == None && (c.pc.Sleep? ==> c.woken)
    case WeakFail => c.section == None && c.pc.AskSwap? && c.pc.seen < c.pc.g && c.pc.k < |s.cpus|
    case Defer(_) => |c.Front()| < QUEUE_SIZE
    case ReadBegin => c.section == None
    case ReadEnd => c.section.Some?
    case Wake => true
  }

  function Goto(s: State, i: nat, pc: Pc): State
    requires i < |s.cpus|
  {
    s.(cpus := s.cpus[i := s.cpus[i].(pc := pc)])
  }

  /** Whether there is something to clean up; if so the buffers change roles. */
  function TopStep(s: State, i: nat): State
    requires i < |s.cpus|
  {
    var c := s.cpus[i];
    if c.Front() != [] then s.(cpus := s.cpus[i := c.(buf := !c.buf, pc := Alloc)]) else Goto(s, i, Prep(None))
  }

  function AllocStep(s: State, i: nat): State
    requires i < |s.cpus|
  {
    Goto(s, i, Announce(s.nextGeneration + 1)).(nextGeneration := s.nextGeneration + 1)
  }

  function AskStep(s: State, i: nat, g: nat, k: nat): State
    requires i < |s.cpus|
  {
    Goto(s, i, if k >= |s.cpus| then Publish(g)
               else if k == i then Ask(g, k + 1)
               else AskSwap(g, k, s.cpus[k].request))
  }

  function AskSwapStep(s: State, i: nat, g: nat, k: nat, seen: nat): State
    requires i < |s.cpus|
  {
    if g <= seen || k >= |s.cpus| then Goto(s, i, AskWake(g, k))
    else if s.cpus[k].request == seen then
      var s' := s.(cpus := s.cpus[k := s.cpus[k].(request := g, asker := Some(i))]);
      Goto(s', i, AskWake(g, k))
    else Goto(s, i, AskSwap(g, k, s.cpus[k].request))
  }

  function AskWakeStep(s: State, i: nat, g: nat, k: nat): State
    requires i < |s.cpus|
  {
    var s' := if k >= |s.cpus| then s
              else
                var c := s.cpus[k];
                s.(cpus := s.cpus[k := c.(woken := true, asker := if c.asker == Some(i) then None else c.asker)]);
    Goto(s', i, Ask(g, k + 1))
  }

  function PublishStep(s: State, i: nat, goal: Goal, g: nat): State
    requires i < |s.cpus|
  {
    s.(cpus := s.cpus[i := s.cpus[i].(generation := g, pc := Tell(goal, 0))])
  }

  function TellStep(s: State, i: nat, goal: Goal, k: nat): State
    requires i < |s.cpus|
  {
    Goto(s, i, if k >= |s.cpus| then (if goal.Some? then Prep(goal) else Top)
               else if k != i && s.cpus[k].requested then TellWake(goal, k)
               else Tell(goal, k + 1))
  }

  function TellWakeStep(s: State, i: nat, goal: Goal, k: nat): State
    requires i < |s.cpus|
  {
    var s' := if k >= |s.cpus| then s else s.(cpus := s.cpus[k := s.cpus[k].(woken := true)]);
    Goto(s', i, Tell(goal, k + 1))
  }

  function CheckStep(s: State, i: nat, goal: Goal): State
    requires i < |s.cpus|
  {
    var c := s.cpus[i];
    Goto(s, i, if c.generation < c.request then Serve(goal, false)
               else if goal.Some? then Scan(goal.value, 0)
               else if c.Front() != [] then Serve(goal, false)
               else Sleep(goal, i))
  }

  function ScanStep(s: State, i: nat, g: nat, k: nat): State
    requires i < |s.cpus|
  {
    Goto(s, i, if k >= |s.cpus| then Serve(Some(g), true)
               else if s.cpus[k].generation >= g then Scan(g, k + 1)
               else Sleep(Some(g), k))
  }

  function ServeStep(s: State, i: nat, goal: Goal): State
    requires i < |s.cpus|
  {
    var c := s.cpus[i];
    Goto(s, i, if c.generation < c.request then SetGeneration(goal, c.request)
               else if goal.Some? then Done
               else Top)
  }

  function TakeStep(s: State, i: nat): State
    requires i < |s.cpus|
  {
    var c := s.cpus[i];
    s.(cpus := s.cpus[i := c.ClearBack().(pc := Run(c.Back()))])
  }

  function RunStep(s: State, i: nat, todo: seq<Callback>): State
    requires i < |s.cpus|
  {
    if todo == [] then Goto(s, i, Top)
    else s.(cpus := s.cpus[i := s.cpus[i].(pc := Run(todo[1..]), ran := s.cpus[i].ran + [todo[0]])])
  }

  function StepThread(s: State, i: nat): State
    requires i < |s.cpus|
  {
    match s.cpus[i].pc
    case Top => TopStep(s, i)
    case Alloc => AllocStep(s, i)
    case Announce(g) => s.(cpus := s.cpus[i := s.cpus[i].(requested := true, pc := Ask(g, 0))])
    case Ask(g, k) => AskStep(s, i, g, k)
    case AskSwap(g, k, seen) => AskSwapStep(s, i, g, k, seen)
    case AskWake(g, k) => AskWakeStep(s, i, g, k)
    case Publish(g) => PublishStep(s, i, Some(g), g)
    case Tell(goal, k) => TellStep(s, i, goal, k)
    case TellWake(goal, k) => TellWakeStep(s, i, goal, k)
    case Prep(goal) => s.(cpus := s.cpus[i := s.cpus[i].(woken := false, pc := Check(goal))])
    case Check(goal) => CheckStep(s, i, goal)
    case Scan(g, k) => ScanStep(s, i, g, k)
    case Sleep(goal, _) => Goto(s, i, Prep(goal))
    case Serve(goal, _) => ServeStep(s, i, goal)
    case SetGeneration(goal, r) => PublishStep(s, i, goal, r)
    case Done => s.(cpus := s.cpus[i := s.cpus[i].(requested := false, pc := Take)])
    case Take => TakeStep(s, i)
    case Run(todo) => RunStep(s, i, todo)
  }

  function OpenSections(s: State): seq<Option<nat>> {
    seq(|s.cpus|, i requires 0 <= i < |s.cpus| => s.cpus[i].section)
  }

  function Next(s: State, i: nat, a: Action): State
    requires Enabled(s, i, a)
  {
    var c := s.cpus[i];
    match a
    case Step => StepThread(s, i)
    case WeakFail => Goto(s, i, AskSwap(c.pc.g, c.pc.k, s.cpus[c.pc.k].request))
    case Defer(func) => s.(cpus := s.cpus[i := c.Add(Callback(func, OpenSections(s)))])
    case ReadBegin =>
      s.(cpus := s.cpus[i := c.(section := Some(s.nextSection))], nextSection := s.nextSection + 1)
    case ReadEnd => s.(cpus := s.cpus[i := c.(section := None)])
    case Wake => s.(cpus := s.cpus[i := c.(woken := true)])
  }

  ghost predicate Follows(s: State, s': State) {
    exists i: nat, a: Action :: Enabled(s, i, a) && s' == Next(s, i, a)
  }

  /** A run: states of `n` CPUs linked by enabled actions, in any interleaving. */
  ghost predicate IsRun(n: nat, run: seq<State>) {
    && |run| > 0 && run[0] == Init(n)
    && forall i :: 0 < i < |run| ==> Follows(run[i - 1], run[i])
  }
}
