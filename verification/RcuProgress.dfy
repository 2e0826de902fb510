/**
  A grace period that has begun always comes to its end: once the open read
  sections end, steps of the quiescent-state threads alone bring every CPU to
  the generation that is waited for, and the callbacks run.
 */
module RcuProgress {
  import opened Rcu
  import opened RcuProof

  datatype Move = Move(cpu: nat, a: Action)

  /** Steps of quiescent-state threads and ends of read sections, in turn. */
  predicate Leads(s: State, ms: seq<Move>, s': State)
    decreases |ms|
  {
    if ms == [] then s' == s
    else
      && (ms[0].a == Step || ms[0].a == ReadEnd) && Enabled(s, ms[0].cpu, ms[0].a)
      && Leads(Next(s, ms[0].cpu, ms[0].a), ms[1..], s')
  }

  lemma {:induction false} LeadsConcat(s: State, a: seq<Move>, s1: State, b: seq<Move>, s2: State)
    requires Leads(s, a, s1) && Leads(s1, b, s2)
    ensures Leads(s, a + b, s2)
    decreases |a|
  {
    hide Next, Enabled;
    if a == [] {
      assert a + b == b;
    } else {
      LeadsConcat(Next(s, a[0].cpu, a[0].a), a[1..], s1, b, s2);
      assert (a + b)[0] == a[0] && (a + b)[1..] == a[1..] + b;
    }
  }

  lemma LeadsFirst(s: State, m: Move, ms: seq<Move>, s': State)
    requires (m.a == Step || m.a == ReadEnd) && Enabled(s, m.cpu, m.a) && Leads(Next(s, m.cpu, m.a), ms, s')
    ensures Leads(s, [m] + ms, s')
  {
    hide Next, Enabled;
    assert ([m] + ms)[0] == m && ([m] + ms)[1..] == ms;
  }

  /** No read section is open. */
  ghost predicate Quiet(s: State) {
    forall k :: 0 <= k < |s.cpus| ==> s.cpus[k].section == None
  }

  // ------------------------------------------------- ends of read sections

  predicate QuietBelow(s: State, k: nat) {
    k <= |s.cpus| && forall x :: 0 <= x < k ==> s.cpus[x].section == None
  }

  /** The same CPUs, but for sections that have ended. */
  predicate Ended(s: State, s': State) {
    |s'.cpus| == |s.cpus| && forall x :: 0 <= x < |s.cpus| ==> s'.cpus[x].(section := None) == s.cpus[x].(section := None)
  }

  lemma EndOne(s: State, k: nat)
    requires Inv(s) && QuietBelow(s, k) && k < |s.cpus| && s.cpus[k].section.Some?
    ensures var s' := Next(s, k, ReadEnd); Inv(s') && QuietBelow(s', k + 1) && Ended(s, s')
  {
    hide Inv;
    NextInv(s, k, ReadEnd);
  }

  lemma {:induction false} EndSections(s: State, k: nat) returns (ms: seq<Move>, s': State)
    requires Inv(s) && QuietBelow(s, k)
    ensures Leads(s, ms, s') && Inv(s') && Quiet(s') && Ended(s, s')
    decreases |s.cpus| - k
  {
    hide Inv, Next;
    if k == |s.cpus| {
      return [], s;
    }
    if s.cpus[k].section == None {
      ms, s' := EndSections(s, k + 1);
    } else {
      EndOne(s, k);
      ms, s' := EndSections(Next(s, k, ReadEnd), k + 1);
      LeadsFirst(s, Move(k, ReadEnd), ms, s');
      ms := [Move(k, ReadEnd)] + ms;
    }
  }

  // -------------------------------------------------- steps of the threads

  /** What other threads may do to a CPU: ask it and wake it. */
  predicate Same(c: Cpu, c': Cpu) {
    c' == c.(request := c'.request, woken := c'.woken, asker := c'.asker) && c.request <= c'.request
  }

  ghost predicate OthersSame(s: State, s': State, t: nat) {
    |s'.cpus| == |s.cpus| && forall k :: 0 <= k < |s.cpus| && k != t ==> Same(s.cpus[k], s'.cpus[k])
  }

  lemma StepSection(s: State, t: nat)
    requires t < |s.cpus|
    ensures StepThread(s, t).nextSection == s.nextSection
  {}

  lemma StepKeeps(s: State, t: nat)
    requires Inv(s) && Quiet(s) && Enabled(s, t, Step)
    ensures var s' := StepThread(s, t); Inv(s') && Quiet(s') && OthersSame(s, s', t)
  {
    hide Inv, StepThread, LocalOk, PairOk;
    NextInv(s, t, Step);
    ActionOk(s, t, Step, t);
    StepSection(s, t);
  }

  /** The CPUs that thread i may still have to wait for. */
  function Behind(s: State, g: nat, i: nat): set<nat> {
    set j | 0 <= j < |s.cpus| && j != i && (s.cpus[j].generation < g || WillTell(s.cpus[j].pc, i))
  }

  function Left(n: nat, k: nat): nat {
    if k <= n then n - k else 0
  }

  /** Steps left in the loops of request() and set_generation(), and of the scan. */
  function Minor(s: State, c: Cpu): nat {
    var n := |s.cpus|;
    match c.pc
    case Ask(_, k) => 4 * Left(n, k) + 3
    case AskSwap(_, k, seen) => 4 * Left(n, k) + (if k < n && s.cpus[k].request == seen then 1 else 2)
    case AskWake(_, k) => 4 * Left(n, k)
    case Tell(_, k) => 2 * Left(n, k) + 1
    case TellWake(_, k) => 2 * Left(n, k)
    case Scan(_, k) => Left(n, k)
    case Sleep(_, _) => if c.woken then 0 else 1
    case Run(todo) => |todo|
    case _ => 0
  }

  // ------------------------------------------------ bringing one CPU along

  /** How far a thread is from being at generation g. */
  function Far(c: Cpu, g: nat): nat {
    if c.generation >= g then 0
    else match c.pc
      case Done => 17
      case Take => 16
      case Run(_) => 15
      case SetGeneration(goal, r) => if r >= g then 1 else if goal.Some? then 7 else 14
      case Tell(goal, _) => if goal.Some? then 6 else 13
      case TellWake(goal, _) => if goal.Some? then 6 else 13
      case Top => 12
      case Alloc => 11
      case Announce(_) => 10
      case Ask(_, _) => 9
      case AskSwap(_, _, _) => 9
      case AskWake(_, _) => 9
      case Publish(_) => 8
      case Scan(_, _) => 7
      case Sleep(_, _) => 5
      case Prep(_) => 4
      case Check(_) => 3
      case Serve(_, _) => 2
  }

  /** CPU j is at generation g and has told CPU i, if it was going to. */
  predicate Told(s: State, j: nat, g: nat, i: nat)
    requires j < |s.cpus|
  {
    s.cpus[j].generation >= g && !WillTell(s.cpus[j].pc, i)
  }

  predicate Closer(s: State, s': State, j: nat, g: nat)
    requires j < |s.cpus| && |s'.cpus| == |s.cpus|
  {
    var c, c' := s.cpus[j], s'.cpus[j];
    Far(c', g) < Far(c, g) || (Far(c', g) == Far(c, g) && Minor(s', c') < Minor(s, c))
  }

  /** The part of the invariant that a step's progress rests on. */
  predicate Sound(s: State, i: nat)
    requires i < |s.cpus|
  {
    var c := s.cpus[i];
    && ((c.pc.AskSwap? || c.pc.AskWake? || c.pc.TellWake?) ==> c.pc.k < |s.cpus| && c.pc.k != i)
    && (c.pc.SetGeneration? ==> c.generation < c.pc.r)
    && (c.pc.Publish? ==> c.generation < c.pc.g)
    && (c.pc.Serve? && c.pc.goal.Some? && !c.pc.reached ==> c.generation < c.request)
  }

  lemma IsSound(s: State, i: nat)
    requires i < |s.cpus| && LocalOk(s, i)
    ensures Sound(s, i)
  {
    hide ListsOk;
  }

  /** The parts of the thread's loop: asking, telling, waiting, and the rest. */
  datatype Part = Asks | Tells | WaitsUntil | Rest

  function PartOf(pc: Pc): Part {
    if pc.Ask? || pc.AskSwap? || pc.AskWake? then Asks
    else if pc.Tell? || pc.TellWake? then Tells
    else if pc.Prep? || pc.Check? || pc.Scan? || pc.Sleep? || pc.Serve? then WaitsUntil
    else Rest
  }

  lemma AskCloser(s: State, j: nat, g: nat, i: nat)
    requires j < |s.cpus| && i < |s.cpus| && Sound(s, j) && PartOf(s.cpus[j].pc) == Asks && !Told(s, j, g, i)
    ensures |StepThread(s, j).cpus| == |s.cpus| && Closer(s, StepThread(s, j), j, g)
    ensures StepThread(s, j).cpus[j].request == s.cpus[j].request
  {}

  lemma TellCloser(s: State, j: nat, g: nat, i: nat)
    requires j < |s.cpus| && i < |s.cpus| && Sound(s, j) && PartOf(s.cpus[j].pc) == Tells && !Told(s, j, g, i)
    ensures |StepThread(s, j).cpus| == |s.cpus| && Closer(s, StepThread(s, j), j, g)
    ensures StepThread(s, j).cpus[j].request == s.cpus[j].request
  {}

  lemma WaitCloser(s: State, j: nat, g: nat, i: nat)
    requires j < |s.cpus| && i < |s.cpus| && Sound(s, j) && PartOf(s.cpus[j].pc) == WaitsUntil && !Told(s, j, g, i)
    requires s.cpus[j].request >= g && !Asleep(s.cpus[j])
    ensures |StepThread(s, j).cpus| == |s.cpus| && Closer(s, StepThread(s, j), j, g)
    ensures StepThread(s, j).cpus[j].request == s.cpus[j].request
  {}

  lemma RestCloser(s: State, j: nat, g: nat, i: nat)
    requires j < |s.cpus| && i < |s.cpus| && Sound(s, j) && PartOf(s.cpus[j].pc) == Rest && !Told(s, j, g, i)
    ensures |StepThread(s, j).cpus| == |s.cpus| && Closer(s, StepThread(s, j), j, g)
    ensures StepThread(s, j).cpus[j].request == s.cpus[j].request
  {}

  lemma CatchUpStep(s: State, j: nat, g: nat, i: nat)
    requires j < |s.cpus| && LocalOk(s, j) && i < |s.cpus| && s.cpus[j].request >= g
    requires !Told(s, j, g, i) && !Asleep(s.cpus[j])
    ensures |StepThread(s, j).cpus| == |s.cpus| && Closer(s, StepThread(s, j), j, g)
    ensures StepThread(s, j).cpus[j].request == s.cpus[j].request
  {
    hide LocalOk, StepThread, Closer, Sound, Told, PartOf;
    IsSound(s, j);
    match PartOf(s.cpus[j].pc)
    case Asks => AskCloser(s, j, g, i);
    case Tells => TellCloser(s, j, g, i);
    case WaitsUntil => WaitCloser(s, j, g, i);
    case Rest => RestCloser(s, j, g, i);
  }

  /** Whoever raised the request of a sleeping thread wakes it with the next step. */
  lemma AskerStep(s: State, j: nat, g: nat, a: nat)
    requires j < |s.cpus| && a < |s.cpus| && a != j && s.cpus[a].pc.AskWake? && s.cpus[a].pc.k == j
    requires Asleep(s.cpus[j]) && s.cpus[j].generation < g
    ensures var s' := StepThread(s, a);
            && |s'.cpus| == |s.cpus| && Closer(s, s', j, g) && s'.cpus[j].request == s.cpus[j].request
            && s'.cpus[a].generation == s.cpus[a].generation && s'.cpus[a].pc.Ask?
  {}

  lemma AskerOf(s: State, j: nat, g: nat) returns (a: nat)
    requires Inv(s) && j < |s.cpus| && Asleep(s.cpus[j]) && s.cpus[j].generation < g <= s.cpus[j].request
    ensures a < |s.cpus| && a != j && s.cpus[a].pc.AskWake? && s.cpus[a].pc.k == j
  {
    hide ListsOk, AllClosed;
    assert LocalOk(s, j);
    a := s.cpus[j].asker.value;
    assert LocalOk(s, a) && PairOk(s, j, a);
  }

  /** None but CPU j has come to be behind. */
  ghost predicate NoneAdded(s: State, s': State, j: nat, g: nat, i: nat) {
    forall k :: k in Behind(s', g, i) && k != j ==> k in Behind(s, g, i)
  }

  lemma StepAdds(s: State, s': State, t: nat, j: nat, g: nat, i: nat)
    requires OthersSame(s, s', t) && t < |s.cpus|
    requires t == j || (s'.cpus[t].generation == s.cpus[t].generation && s'.cpus[t].pc.Ask?)
    ensures NoneAdded(s, s', j, g, i)
  {
    forall k | k in Behind(s', g, i) && k != j ensures k in Behind(s, g, i) {
      assert k != t ==> Same(s.cpus[k], s'.cpus[k]);
    }
  }

  lemma SameTwice(s: State, s1: State, s2: State, i: nat)
    requires i < |s.cpus| == |s1.cpus| == |s2.cpus| && Same(s.cpus[i], s1.cpus[i]) && Same(s1.cpus[i], s2.cpus[i])
    ensures Same(s.cpus[i], s2.cpus[i])
  {}

  /** The next to step so that CPU j comes to generation g: its own thread, or the one that wakes it. */
  lemma NextMover(s: State, j: nat, g: nat, i: nat) returns (t: nat)
    requires Inv(s) && Quiet(s) && i < |s.cpus| && j < |s.cpus| && i != j
    requires s.cpus[i].pc.Sleep? && s.cpus[j].request >= g && !Told(s, j, g, i)
    ensures t != i && Enabled(s, t, Step)
    ensures var s' := StepThread(s, t);
            && |s'.cpus| == |s.cpus| && Closer(s, s', j, g) && s'.cpus[j].request == s.cpus[j].request
            && (t == j || (s'.cpus[t].generation == s.cpus[t].generation && s'.cpus[t].pc.Ask?))
  {
    hide LocalOk, PairOk, StepThread, Closer;
    assert LocalOk(s, j) by { Views(s, j, j); }
    if Asleep(s.cpus[j]) {
      t := AskerOf(s, j, g);
      AskerStep(s, j, g, t);
    } else {
      t := j;
      CatchUpStep(s, j, g, i);
    }
  }

  /** CPU j comes to generation g without a step of the waiting thread i, which is told. */
  lemma {:induction false} CatchUp(s: State, j: nat, g: nat, i: nat) returns (ms: seq<Move>, s': State)
    requires Inv(s) && Quiet(s) && i < |s.cpus| && j < |s.cpus| && i != j
    requires s.cpus[i].pc.Sleep? && s.cpus[j].request >= g
    ensures Leads(s, ms, s') && Inv(s') && Quiet(s') && |s'.cpus| == |s.cpus|
    ensures Same(s.cpus[i], s'.cpus[i]) && Told(s', j, g, i) && NoneAdded(s, s', j, g, i)
    decreases Far(s.cpus[j], g), Minor(s, s.cpus[j])
  {
    hide Inv, StepThread, Far, Minor, WillTell, Behind, Quiet;
    if Told(s, j, g, i) {
      return [], s;
    }
    var t := NextMover(s, j, g, i);
    var s1 := StepThread(s, t);
    StepKeeps(s, t);
    StepAdds(s, s1, t, j, g, i);
    ms, s' := CatchUp(s1, j, g, i);
    SameTwice(s, s1, s', i);
    LeadsFirst(s, Move(t, Step), ms, s');
    ms := [Move(t, Step)] + ms;
  }

  // ------------------------------------------------------- the waiting thread

  /** The thread is past the flip of its buffers and has not run all callbacks. */
  predicate Waits(pc: Pc, g: nat) {
    Target(pc) == Some(g) || pc == Done || pc == Take || pc.Run?
  }

  function Lag(c: Cpu): nat { if c.generation < c.request then 1 else 0 }

  function Woke(c: Cpu): nat { if c.woken then 1 else 0 }

  /** How far a waiting thread is from the end, or from sleep. */
  function Phase(c: Cpu): nat {
    match c.pc
    case Announce(_) => 20
    case Ask(_, _) => 19
    case AskSwap(_, _, _) => 19
    case AskWake(_, _) => 19
    case Publish(_) => 18
    case SetGeneration(_, r) => if r == c.request then 11 else 17
    case Tell(_, _) => 16
    case TellWake(_, _) => 16
    case Prep(_) => if c.woken then 6 else 15
    case Check(_) => 14
    case Scan(_, _) => 13
    case Serve(_, _) => 12
    case Done => 10
    case Take => 9
    case Run(_) => 8
    case Sleep(_, _) => if c.woken then 7 else 0
    case _ => 21
  }

  predicate Nearer(s: State, s': State, i: nat)
    requires i < |s.cpus| && |s'.cpus| == |s.cpus|
  {
    var c, c' := s.cpus[i], s'.cpus[i];
    || Lag(c') < Lag(c)
    || (Lag(c') == Lag(c) && Woke(c') < Woke(c))
    || (Lag(c') == Lag(c) && Woke(c') == Woke(c) && Phase(c') < Phase(c))
    || (Lag(c') == Lag(c) && Woke(c') == Woke(c) && Phase(c') == Phase(c) && Minor(s', c') < Minor(s, c))
  }

  predicate Advances(s: State, s': State, i: nat, g: nat)
    requires i < |s.cpus|
  {
    |s'.cpus| == |s.cpus| && Nearer(s, s', i) && Waits(s'.cpus[i].pc, g)
    && s'.cpus[i].deferred == s.cpus[i].deferred && s'.cpus[i].Front() == s.cpus[i].Front()
  }

  lemma AskGoto(s: State, i: nat, g: nat)
    requires i < |s.cpus| && Sound(s, i) && PartOf(s.cpus[i].pc) == Asks && Waits(s.cpus[i].pc, g)
    ensures var c, s' := s.cpus[i], StepThread(s, i);
            && |s'.cpus| == |s.cpus| && s'.cpus[i] == c.(pc := s'.cpus[i].pc) && Target(s'.cpus[i].pc) == Some(g)
            && (s'.cpus[i].pc.Publish? || (PartOf(s'.cpus[i].pc) == Asks && Minor(s', s'.cpus[i]) < Minor(s, c)))
  {}

  lemma AskNearer(s: State, i: nat, g: nat)
    requires i < |s.cpus| && Sound(s, i) && PartOf(s.cpus[i].pc) == Asks && Waits(s.cpus[i].pc, g)
    ensures Advances(s, StepThread(s, i), i, g)
  {
    hide StepThread, Minor, Sound, Target;
    AskGoto(s, i, g);
  }

  lemma TellNearer(s: State, i: nat, g: nat)
    requires i < |s.cpus| && Sound(s, i) && PartOf(s.cpus[i].pc) == Tells && Waits(s.cpus[i].pc, g)
    ensures Advances(s, StepThread(s, i), i, g)
  {}

  lemma PrepNearer(s: State, i: nat, g: nat)
    requires i < |s.cpus| && s.cpus[i].pc.Prep? && Waits(s.cpus[i].pc, g)
    ensures Advances(s, StepThread(s, i), i, g)
  {}

  /** A step within wait_until() moves the thread on and changes nothing else. */
  lemma WaitGoto(s: State, i: nat, g: nat)
    requires i < |s.cpus| && Sound(s, i) && PartOf(s.cpus[i].pc) == WaitsUntil && Waits(s.cpus[i].pc, g)
    requires !Asleep(s.cpus[i]) && !s.cpus[i].pc.Prep?
    ensures var c, s' := s.cpus[i], StepThread(s, i);
            && |s'.cpus| == |s.cpus| && s'.cpus[i] == c.(pc := s'.cpus[i].pc) && Waits(s'.cpus[i].pc, g)
            && (Phase(s'.cpus[i]) < Phase(c) || (Phase(s'.cpus[i]) == Phase(c) && Minor(s', s'.cpus[i]) < Minor(s, c)))
  {}

  lemma WaitNearer(s: State, i: nat, g: nat)
    requires i < |s.cpus| && Sound(s, i) && PartOf(s.cpus[i].pc) == WaitsUntil && Waits(s.cpus[i].pc, g)
    requires !Asleep(s.cpus[i])
    ensures Advances(s, StepThread(s, i), i, g)
  {
    hide StepThread, Phase, Minor, Waits, Sound;
    if s.cpus[i].pc.Prep? {
      PrepNearer(s, i, g);
    } else {
      WaitGoto(s, i, g);
    }
  }

  lemma RestNearer(s: State, i: nat, g: nat)
    requires i < |s.cpus| && Sound(s, i) && PartOf(s.cpus[i].pc) == Rest && Waits(s.cpus[i].pc, g) && s.cpus[i].pc != Run([])
    ensures Advances(s, StepThread(s, i), i, g)
  {}

  /** A step of the waiting thread brings it nearer to its callbacks and loses none of them. */
  lemma WaiterStep(s: State, i: nat, g: nat)
    requires i < |s.cpus| && LocalOk(s, i) && Waits(s.cpus[i].pc, g)
    requires !Asleep(s.cpus[i]) && s.cpus[i].pc != Run([])
    ensures |StepThread(s, i).cpus| == |s.cpus| && Nearer(s, StepThread(s, i), i)
    ensures Waits(StepThread(s, i).cpus[i].pc, g)
    ensures var c, c' := s.cpus[i], StepThread(s, i).cpus[i]; c'.deferred == c.deferred && c'.Front() == c.Front()
  {
    hide LocalOk, StepThread, Nearer, Sound, PartOf, Waits;
    IsSound(s, i);
    match PartOf(s.cpus[i].pc)
    case Asks => AskNearer(s, i, g);
    case Tells => TellNearer(s, i, g);
    case WaitsUntil => WaitNearer(s, i, g);
    case Rest => RestNearer(s, i, g);
  }

  /** A sleeping waiter was asked for by itself: the CPU it found behind has been asked, and is in the set. */
  lemma MissIsBehind(s: State, i: nat, g: nat)
    requires Inv(s) && i < |s.cpus| && Waits(s.cpus[i].pc, g) && Asleep(s.cpus[i])
    ensures var m := s.cpus[i].pc.miss; m < |s.cpus| && m != i && m in Behind(s, g, i) && s.cpus[m].request >= g
  {
    hide ListsOk, AllClosed;
    assert LocalOk(s, i);
    var m := s.cpus[i].pc.miss;
    assert PairOk(s, i, m);
  }

  lemma BehindSame(s: State, s': State, i: nat, g: nat)
    requires OthersSame(s, s', i)
    ensures Behind(s', g, i) == Behind(s, g, i)
  {
    forall k | 0 <= k < |s.cpus| && k != i ensures k in Behind(s', g, i) <==> k in Behind(s, g, i) {
      assert Same(s.cpus[k], s'.cpus[k]);
    }
  }

  lemma BehindLess(s: State, s': State, j: nat, g: nat, i: nat)
    requires |s'.cpus| == |s.cpus| && j < |s.cpus| && j in Behind(s, g, i)
    requires NoneAdded(s, s', j, g, i) && Told(s', j, g, i)
    ensures Behind(s', g, i) < Behind(s, g, i)
  {
    assert j !in Behind(s', g, i);
  }

  /** From a quiet state the waiting thread gets to run all that it waits to run. */
  lemma {:induction false} Finish(s: State, i: nat, g: nat) returns (ms: seq<Move>, s': State)
    requires Inv(s) && Quiet(s) && i < |s.cpus| && Waits(s.cpus[i].pc, g)
    ensures Leads(s, ms, s') && Inv(s') && Quiet(s') && i < |s'.cpus| && s'.cpus[i].pc == Run([])
    ensures s'.cpus[i].deferred == s.cpus[i].deferred && s'.cpus[i].Front() == s.cpus[i].Front()
    decreases Behind(s, g, i), Lag(s.cpus[i]), Woke(s.cpus[i]), Phase(s.cpus[i]), Minor(s, s.cpus[i])
  {
    hide Inv, StepThread, Phase, Minor, Lag, Woke, Behind, WillTell, Target, Quiet;
    var c := s.cpus[i];
    if c.pc == Run([]) {
      return [], s;
    }
    if Asleep(c) {
      MissIsBehind(s, i, g);
      var ms1, s1 := CatchUp(s, c.pc.miss, g, i);
      BehindLess(s, s1, c.pc.miss, g, i);
      ms, s' := Finish(s1, i, g);
      LeadsConcat(s, ms1, s1, ms, s');
      ms := ms1 + ms;
    } else {
      assert LocalOk(s, i) by { Views(s, i, i); }
      QuietAt(s, i);
      WaiterStep(s, i, g);
      StepKeeps(s, i);
      var s1 := StepThread(s, i);
      BehindSame(s, s1, i, g);
      ms, s' := Finish(s1, i, g);
      LeadsFirst(s, Move(i, Step), ms, s');
      ms := [Move(i, Step)] + ms;
    }
  }

  lemma QuietAt(s: State, k: nat)
    requires Quiet(s) && k < |s.cpus|
    ensures s.cpus[k].section == None
  {}

  // ---------------------------------------------------------------- theorem

  lemma AllocThenFinish(s: State, i: nat) returns (ms: seq<Move>, s': State)
    requires Inv(s) && Quiet(s) && i < |s.cpus| && (Cleaning(s.cpus[i].pc) || s.cpus[i].pc.Run?)
    ensures Leads(s, ms, s') && Inv(s') && Quiet(s') && i < |s'.cpus| && s'.cpus[i].pc == Run([])
    ensures s'.cpus[i].deferred == s.cpus[i].deferred && s'.cpus[i].Front() == s.cpus[i].Front()
  {
    hide Inv, Quiet;
    if s.cpus[i].pc == Alloc {
      QuietAt(s, i);
      StepKeeps(s, i);
      ms, s' := Finish(StepThread(s, i), i, s.nextGeneration + 1);
      LeadsFirst(s, Move(i, Step), ms, s');
      ms := [Move(i, Step)] + ms;
    } else {
      ms, s' := Finish(s, i, if Target(s.cpus[i].pc).Some? then Target(s.cpus[i].pc).value else 0);
    }
  }

  lemma AllRan(s: State, i: nat)
    requires Inv(s) && i < |s.cpus| && s.cpus[i].pc == Run([])
    ensures s.cpus[i].ran + s.cpus[i].Front() == s.cpus[i].deferred
  {
    hide Proper;
    assert LocalOk(s, i);
    assert s.cpus[i].ran + [] + [] == s.cpus[i].ran;
  }

  lemma Cancel<T>(a: seq<T>, b: seq<T>, c: seq<T>)
    requires a + c == b + c
    ensures a == b
  {
    assert a == (a + c)[..|a|] && b == (b + c)[..|b|];
  }

  /**
    From every state of every run in which a quiescent-state thread has begun a
    grace period, ends of read sections and steps of these threads alone lead to
    a state in which all callbacks that wait for it have run.
   */
  lemma GracePeriodEnds(n: nat, run: seq<State>, x: nat, i: nat) returns (ms: seq<Move>, s': State)
    requires IsRun(n, run) && x < |run| && i < |run[x].cpus|
    requires Cleaning(run[x].cpus[i].pc) || run[x].cpus[i].pc.Run?
    ensures Leads(run[x], ms, s') && i < |s'.cpus| && s'.cpus[i].pc == Run([])
    ensures var c := run[x].cpus[i]; s'.cpus[i].ran == c.ran + Todo(c.pc) + c.Back()
  {
    hide Inv;
    var s := run[x];
    RunInv(n, run, x);
    var ms1, s1 := EndSections(s, 0);
    var c := s.cpus[i];
    assert s1.cpus[i].(section := None) == c.(section := None);
    assert s1.cpus[i].pc == c.pc && s1.cpus[i].Front() == c.Front() && s1.cpus[i].deferred == c.deferred;
    ms, s' := AllocThenFinish(s1, i);
    LeadsConcat(s, ms1, s1, ms, s');
    ms := ms1 + ms;
    AllRan(s', i);
    ExactlyOnceInOrder(n, run, x, i);
    Cancel(s'.cpus[i].ran, c.ran + Todo(c.pc) + c.Back(), c.Front());
  }
}
