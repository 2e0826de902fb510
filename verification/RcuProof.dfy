/**
  A deferred callback runs only after every read section that was open when it
  was queued has ended; it runs exactly once and in order; and the threads that
  wait for each other's generations never all sleep.
 */
module RcuProof {
  import opened Rcu

  // --------------------------------------------------------------- invariant

  /** The generation that this clean-up must see on every CPU. */
  function Target(pc: Pc): Option<nat> {
    match pc
    case Announce(g) => Some(g)
    case Ask(g, _) => Some(g)
    case AskSwap(g, _, _) => Some(g)
    case AskWake(g, _) => Some(g)
    case Publish(g) => Some(g)
    case Scan(g, _) => Some(g)
    case Tell(goal, _) => goal
    case TellWake(goal, _) => goal
    case Prep(goal) => goal
    case Check(goal) => goal
    case Sleep(goal, _) => goal
    case Serve(goal, _) => goal
    case SetGeneration(goal, _) => goal
    case _ => None
  }

  /** The target is not yet this CPU's own generation. */
  predicate Asking(pc: Pc) {
    pc.Announce? || pc.Ask? || pc.AskSwap? || pc.AskWake? || pc.Publish?
  }

  predicate Cleaning(pc: Pc) {
    pc == Alloc || Target(pc).Some? || pc == Done || pc == Take
  }

  function Todo(pc: Pc): seq<Callback> {
    if pc.Run? then pc.todo else []
  }

  /** The callback was queued by now, on a machine of n CPUs. */
  ghost predicate Dated(cb: Callback, n: nat, nextSection: nat) {
    |cb.open| == n && forall j :: 0 <= j < n && cb.open[j].Some? ==> cb.open[j].value < nextSection
  }

  ghost predicate Proper(cbs: seq<Callback>, n: nat, nextSection: nat) {
    forall x :: 0 <= x < |cbs| ==> Dated(cbs[x], n, nextSection)
  }

  ghost predicate LocalOk(s: State, i: nat)
    requires i < |s.cpus|
  {
    var c := s.cpus[i];
    && c.generation <= s.nextGeneration && c.request <= s.nextGeneration
    && (c.section.Some? ==> c.section.value < s.nextSection)
    && (Target(c.pc).Some? ==>
          if Asking(c.pc) then c.generation < Target(c.pc).value <= s.nextGeneration
          else Target(c.pc).value <= c.generation)
    && (c.pc.SetGeneration? ==> c.generation < c.pc.r <= s.nextGeneration)
    && (c.pc.Serve? && c.pc.goal.Some? && !c.pc.reached ==> c.generation < c.request)
    && (Target(c.pc).Some? && !c.pc.Announce? ==> c.requested)
    && ((c.pc.AskSwap? || c.pc.AskWake? || c.pc.TellWake?) ==> c.pc.k < |s.cpus| && c.pc.k != i)
    && (c.pc.Sleep? && c.pc.goal.Some? ==> c.pc.miss < |s.cpus| && c.pc.miss != i)
    && ((c.pc.Scan? || c.pc.Sleep?) && !c.woken && c.generation < c.request ==> c.asker.Some?)
    && (c.asker.Some? ==> c.asker.value < |s.cpus|)
    && (!Cleaning(c.pc) ==> c.Back() == [])
    && ListsOk(c, |s.cpus|, s.nextSection)
  }

  /** Nothing deferred on this CPU is lost, run twice or out of order. */
  ghost predicate ListsOk(c: Cpu, n: nat, nextSection: nat) {
    && |c.Front()| <= QUEUE_SIZE
    && c.ran + Todo(c.pc) + c.Back() + c.Front() == c.deferred
    && Proper(Todo(c.pc), n, nextSection) && Proper(c.Back(), n, nextSection) && Proper(c.Front(), n, nextSection)
  }

  /** The cleaner has already asked CPU j. */
  predicate Asked(pc: Pc, j: nat) {
    Target(pc).Some? && !pc.Announce? &&
    if pc.Ask? || pc.AskSwap? then j < pc.k else if pc.AskWake? then j <= pc.k else true
  }

  /** The cleaner has seen CPU j at its target. */
  predicate Reached(pc: Pc, j: nat) {
    (pc.Scan? && j < pc.k) || (pc.Serve? && pc.goal.Some? && pc.reached)
  }

  /** The thread is still going to tell CPU i about its new generation. */
  predicate WillTell(pc: Pc, i: nat) {
    (pc.Tell? || pc.TellWake?) && pc.k <= i
  }

  /** None of the read sections seen by the callbacks on CPU j is this one. */
  ghost predicate AllClosed(cbs: seq<Callback>, j: nat, section: Option<nat>) {
    forall x :: 0 <= x < |cbs| ==> (j < |cbs[x].open| && section.Some? ==> cbs[x].open[j] != section)
  }

  ghost predicate PairOk(s: State, i: nat, j: nat)
    requires i < |s.cpus| && j < |s.cpus|
  {
    var c, d := s.cpus[i], s.cpus[j];
    && (i != j && Asked(c.pc, j) ==> d.request >= Target(c.pc).value)
    && (c.pc.AskSwap? && c.pc.k == j ==> c.pc.seen <= d.request)
    && (Reached(c.pc, j) ==> d.generation >= Target(c.pc).value)
    && ((Target(c.pc).Some? && d.generation >= Target(c.pc).value) || c.pc == Done || c.pc == Take ==>
          AllClosed(c.Back(), j, d.section))
    && AllClosed(Todo(c.pc), j, d.section)
    && (c.pc.Sleep? && c.pc.goal.Some? && c.pc.miss == j && !c.woken ==>
          d.generation < c.pc.goal.value || WillTell(d.pc, i))
    && (c.asker == Some(j) ==> d.pc.AskWake? && d.pc.k == i)
  }

  ghost predicate Inv(s: State) {
    && (forall i :: 0 <= i < |s.cpus| ==> LocalOk(s, i))
    && (forall i, j :: 0 <= i < |s.cpus| && 0 <= j < |s.cpus| ==> PairOk(s, i, j))
  }

  // ---------------------------------------------------- the effect of one step

  /** How an action of CPU t's thread changes another CPU: it asks or wakes it. */
  predicate Nudged(c: Cpu, c': Cpu, t: nat, asks: bool, next: nat) {
    && c' == c.(request := c'.request, woken := c'.woken, asker := c'.asker)
    && c.request <= c'.request && (c'.request > c.request ==> c'.asker == Some(t) && c'.request <= next)
    && (c.woken ==> c'.woken)
    && (|| c'.asker == c.asker
        || (c'.asker == Some(t) && asks)
        || (c'.asker == None && c.asker == Some(t) && c'.woken))
  }

  /** What an action of CPU t does to everything the other CPUs rely on. */
  ghost predicate Effect(s: State, s': State, t: nat, o: nat) {
    && |s'.cpus| == |s.cpus| && t < |s.cpus| && o < |s.cpus|
    && s.nextGeneration <= s'.nextGeneration && s.nextSection <= s'.nextSection
    && (forall k :: 0 <= k < |s.cpus| && k != t && k != o ==> s'.cpus[k] == s.cpus[k])
    && var c, c' := s.cpus[t], s'.cpus[t];
    && (o != t ==> Nudged(s.cpus[o], s'.cpus[o], t, c'.pc.AskWake? && c'.pc.k == o, s'.nextGeneration))
    && c.generation <= c'.generation && c.request <= c'.request
    && (c'.generation > c.generation ==> c'.section == None && c'.pc.Tell? && c'.pc.k == 0)
    && (c'.section == c.section || c'.section == None ||
        (c'.section == Some(s.nextSection) && s.nextSection < s'.nextSection))
    && (c.requested ==> c'.requested || c'.pc == Take)
    && (c.pc.Tell? && c.pc.k < |s.cpus| && c'.pc != c.pc ==>
          (c'.pc.TellWake? && c'.pc.k == c.pc.k) ||
          (c'.pc.Tell? && c'.pc.k == c.pc.k + 1 && (c.pc.k == t || !s.cpus[c.pc.k].requested)))
    && (c.pc.TellWake? && c'.pc != c.pc ==>
          c'.pc.Tell? && c'.pc.k == c.pc.k + 1 && (o == c.pc.k ==> s'.cpus[o].woken) && o == c.pc.k)
    && (c.pc.AskWake? && c'.pc != c.pc ==> o == c.pc.k && (o != t ==> s'.cpus[o].asker != Some(t)))
  }

  /** A step that leaves the lists of callbacks alone. */
  lemma SameLists(c: Cpu, c': Cpu, n: nat, nextSection: nat)
    requires ListsOk(c, n, nextSection) && Todo(c'.pc) == Todo(c.pc) && c'.buf == c.buf
    requires c'.callbacks0 == c.callbacks0 && c'.callbacks1 == c.callbacks1
    requires c'.ran == c.ran && c'.deferred == c.deferred
    ensures ListsOk(c', n, nextSection)
  {}

  lemma FreshSection(cbs: seq<Callback>, j: nat, n: nat, section: nat)
    requires Proper(cbs, n, section) && j < n
    ensures AllClosed(cbs, j, Some(section))
  {
    forall x | 0 <= x < |cbs| ensures cbs[x].open[j] != Some(section) {
      assert Dated(cbs[x], n, section);
    }
  }

  lemma ProperLater(cbs: seq<Callback>, n: nat, a: nat, b: nat)
    requires Proper(cbs, n, a) && a <= b
    ensures Proper(cbs, n, b)
  {
    forall x | 0 <= x < |cbs| ensures Dated(cbs[x], n, b) {
      assert Dated(cbs[x], n, a);
    }
  }

  /** Another CPU's section changed: still closed for callbacks queued before. */
  lemma StillClosed(s: State, s': State, t: nat, o: nat, cbs: seq<Callback>, j: nat)
    requires Effect(s, s', t, o) && j < |s.cpus| && Proper(cbs, |s.cpus|, s.nextSection)
    requires AllClosed(cbs, j, s.cpus[j].section)
    ensures AllClosed(cbs, j, s'.cpus[j].section)
  {
    if j == t && s'.cpus[t].section == Some(s.nextSection) {
      FreshSection(cbs, j, |s.cpus|, s.nextSection);
    }
  }

  lemma OtherPair(s: State, s': State, t: nat, o: nat, i: nat, j: nat)
    requires Effect(s, s', t, o) && i < |s.cpus| && j < |s.cpus| && i != t
    requires LocalOk(s, i) && PairOk(s, i, j) && PairOk(s, i, t)
    ensures PairOk(s', i, j)
  {
    hide AllClosed, Proper;
    var c, c' := s.cpus[i], s'.cpus[i];
    assert c'.pc == c.pc && c'.Back() == c.Back() && c'.requested == c.requested;
    if AllClosed(c.Back(), j, s.cpus[j].section) {
      StillClosed(s, s', t, o, c.Back(), j);
    }
    StillClosed(s, s', t, o, Todo(c.pc), j);
    NothingOpen(c.Back(), j);
  }

  lemma NothingOpen(cbs: seq<Callback>, j: nat)
    ensures AllClosed(cbs, j, None)
  {}

  lemma OtherLocal(s: State, s': State, t: nat, o: nat, i: nat)
    requires Effect(s, s', t, o) && i < |s.cpus| && i != t && LocalOk(s, i)
    ensures LocalOk(s', i)
  {
    var c, c' := s.cpus[i], s'.cpus[i];
    assert c'.pc == c.pc && c'.Back() == c.Back() && c'.Front() == c.Front();
    ProperLater(Todo(c.pc), |s.cpus|, s.nextSection, s'.nextSection);
    ProperLater(c.Back(), |s.cpus|, s.nextSection, s'.nextSection);
    ProperLater(c.Front(), |s.cpus|, s.nextSection, s'.nextSection);
  }

  lemma Kept(s: State, s': State, t: nat, o: nat)
    requires Inv(s) && |s'.cpus| == |s.cpus| && t < |s.cpus| && o < |s.cpus|
    requires Effect(s, s', t, o) && LocalOk(s', t)
    requires forall j :: 0 <= j < |s.cpus| ==> PairOk(s', t, j)
    ensures Inv(s')
  {
    hide Effect, LocalOk, PairOk;
    forall i | 0 <= i < |s'.cpus| ensures LocalOk(s', i) {
      if i != t { OtherLocal(s, s', t, o, i); }
    }
    forall i, j | 0 <= i < |s'.cpus| && 0 <= j < |s'.cpus| ensures PairOk(s', i, j) {
      if i != t { OtherPair(s, s', t, o, i, j); }
    }
  }

  // ------------------------------------------------- each step pays its dues

  /** All that one step owes: to itself, to CPU j, and to everybody else. */
  ghost predicate StepOk(s: State, s': State, t: nat, o: nat, j: nat) {
    && |s'.cpus| == |s.cpus| && t < |s.cpus| && o < |s.cpus| && j < |s.cpus|
    && Effect(s, s', t, o) && LocalOk(s', t) && PairOk(s', t, j)
  }

  ghost predicate View(s: State, t: nat, j: nat) {
    && t < |s.cpus| && j < |s.cpus| && LocalOk(s, t) && PairOk(s, t, j)
    && s.cpus[j].generation <= s.nextGeneration
  }

  lemma TopOk(s: State, t: nat, j: nat)
    requires View(s, t, j) && s.cpus[t].section == None && s.cpus[t].pc == Top
    ensures StepOk(s, TopStep(s, t), t, t, j)
  {
    var c := s.cpus[t];
    assert c.ran + [] + c.Front() + [] == c.ran + [] + [] + c.Front();
    if c.Front() != [] {
      var c' := TopStep(s, t).cpus[t];
      assert c'.Back() == c.Front() && c'.Front() == [];
    }
  }

  lemma AllocOk(s: State, t: nat, j: nat)
    requires View(s, t, j) && s.cpus[t].section == None && s.cpus[t].pc == Alloc
    ensures StepOk(s, AllocStep(s, t), t, t, j)
  {
    hide ListsOk, AllClosed;
    SameLists(s.cpus[t], AllocStep(s, t).cpus[t], |s.cpus|, s.nextSection);
  }

  lemma AnnounceOk(s: State, t: nat, j: nat, g: nat)
    requires View(s, t, j) && s.cpus[t].section == None && s.cpus[t].pc == Announce(g)
    ensures StepOk(s, s.(cpus := s.cpus[t := s.cpus[t].(requested := true, pc := Ask(g, 0))]), t, t, j)
  {
    hide ListsOk, AllClosed;
    SameLists(s.cpus[t], s.(cpus := s.cpus[t := s.cpus[t].(requested := true, pc := Ask(g, 0))]).cpus[t], |s.cpus|, s.nextSection);
  }

  lemma AskOk(s: State, t: nat, j: nat, g: nat, k: nat)
    requires View(s, t, j) && s.cpus[t].section == None && s.cpus[t].pc == Ask(g, k)
    ensures StepOk(s, AskStep(s, t, g, k), t, t, j)
  {
    hide ListsOk, AllClosed;
    SameLists(s.cpus[t], AskStep(s, t, g, k).cpus[t], |s.cpus|, s.nextSection);
  }

  /** The request of CPU k becomes g, and t has yet to wake k's thread. */
  lemma AskRaiseOk(s: State, t: nat, j: nat, g: nat, k: nat)
    requires View(s, t, j) && s.cpus[t].section == None && s.cpus[t].pc.AskSwap?
    requires k < |s.cpus| && s.cpus[t].pc == AskSwap(g, k, s.cpus[k].request) && g > s.cpus[k].request
    ensures StepOk(s, AskSwapStep(s, t, g, k, s.cpus[k].request), t, k, j)
  {
    var s' := AskSwapStep(s, t, g, k, s.cpus[k].request);
    assert s'.cpus[t] == s.cpus[t].(pc := AskWake(g, k));
    assert s'.cpus[k] == s.cpus[k].(request := g, asker := Some(t));
  }

  lemma AskMoveOk(s: State, t: nat, j: nat, pc: Pc)
    requires View(s, t, j) && s.cpus[t].section == None && s.cpus[t].pc.AskSwap?
    requires var p := s.cpus[t].pc;
             pc == AskSwap(p.g, p.k, s.cpus[p.k].request) || (pc == AskWake(p.g, p.k) && p.g <= p.seen)
    ensures StepOk(s, Goto(s, t, pc), t, t, j)
  {
    hide ListsOk, AllClosed;
    SameLists(s.cpus[t], Goto(s, t, pc).cpus[t], |s.cpus|, s.nextSection);
  }

  lemma AskWakeOk(s: State, t: nat, j: nat, g: nat, k: nat)
    requires View(s, t, j) && s.cpus[t].section == None && s.cpus[t].pc == AskWake(g, k)
    ensures StepOk(s, AskWakeStep(s, t, g, k), t, k, j)
  {
    hide ListsOk, AllClosed;
    SameLists(s.cpus[t], AskWakeStep(s, t, g, k).cpus[t], |s.cpus|, s.nextSection);
  }

  lemma PublishOk(s: State, t: nat, j: nat, g: nat)
    requires View(s, t, j) && s.cpus[t].section == None && s.cpus[t].pc == Publish(g)
    ensures StepOk(s, PublishStep(s, t, Some(g), g), t, t, j)
  {
    hide ListsOk;
    SameLists(s.cpus[t], PublishStep(s, t, Some(g), g).cpus[t], |s.cpus|, s.nextSection);
  }

  lemma TellOk(s: State, t: nat, j: nat, goal: Goal, k: nat)
    requires View(s, t, j) && s.cpus[t].section == None && s.cpus[t].pc == Tell(goal, k)
    ensures StepOk(s, TellStep(s, t, goal, k), t, t, j)
  {
    hide ListsOk, AllClosed;
    SameLists(s.cpus[t], TellStep(s, t, goal, k).cpus[t], |s.cpus|, s.nextSection);
  }

  lemma TellWakeOk(s: State, t: nat, j: nat, goal: Goal, k: nat)
    requires View(s, t, j) && s.cpus[t].section == None && s.cpus[t].pc == TellWake(goal, k)
    ensures StepOk(s, TellWakeStep(s, t, goal, k), t, k, j)
  {
    hide ListsOk, AllClosed;
    SameLists(s.cpus[t], TellWakeStep(s, t, goal, k).cpus[t], |s.cpus|, s.nextSection);
  }

  lemma PrepOk(s: State, t: nat, j: nat, goal: Goal)
    requires View(s, t, j) && s.cpus[t].section == None && s.cpus[t].pc == Prep(goal)
    ensures StepOk(s, s.(cpus := s.cpus[t := s.cpus[t].(woken := false, pc := Check(goal))]), t, t, j)
  {
    hide ListsOk, AllClosed;
    SameLists(s.cpus[t], s.(cpus := s.cpus[t := s.cpus[t].(woken := false, pc := Check(goal))]).cpus[t], |s.cpus|, s.nextSection);
  }

  lemma CheckOk(s: State, t: nat, j: nat, goal: Goal)
    requires View(s, t, j) && s.cpus[t].section == None && s.cpus[t].pc == Check(goal)
    ensures StepOk(s, CheckStep(s, t, goal), t, t, j)
  {
    hide ListsOk, AllClosed;
    SameLists(s.cpus[t], CheckStep(s, t, goal).cpus[t], |s.cpus|, s.nextSection);
  }

  lemma ScanOk(s: State, t: nat, j: nat, g: nat, k: nat)
    requires View(s, t, j) && s.cpus[t].section == None && s.cpus[t].pc == Scan(g, k)
    ensures StepOk(s, ScanStep(s, t, g, k), t, t, j)
  {
    hide ListsOk, AllClosed;
    SameLists(s.cpus[t], ScanStep(s, t, g, k).cpus[t], |s.cpus|, s.nextSection);
  }

  lemma SleepOk(s: State, t: nat, j: nat, goal: Goal, miss: nat)
    requires View(s, t, j) && s.cpus[t].section == None && s.cpus[t].pc == Sleep(goal, miss)
    ensures StepOk(s, Goto(s, t, Prep(goal)), t, t, j)
  {
    hide ListsOk, AllClosed;
    SameLists(s.cpus[t], Goto(s, t, Prep(goal)).cpus[t], |s.cpus|, s.nextSection);
  }

  lemma ServeOk(s: State, t: nat, j: nat, goal: Goal, reached: bool)
    requires View(s, t, j) && s.cpus[t].section == None && s.cpus[t].pc == Serve(goal, reached)
    ensures StepOk(s, ServeStep(s, t, goal), t, t, j)
  {
    hide ListsOk, AllClosed;
    SameLists(s.cpus[t], ServeStep(s, t, goal).cpus[t], |s.cpus|, s.nextSection);
  }

  lemma SetGenerationOk(s: State, t: nat, j: nat, goal: Goal, r: nat)
    requires View(s, t, j) && s.cpus[t].section == None && s.cpus[t].pc == SetGeneration(goal, r)
    ensures StepOk(s, PublishStep(s, t, goal, r), t, t, j)
  {
    hide ListsOk, AllClosed;
    SameLists(s.cpus[t], PublishStep(s, t, goal, r).cpus[t], |s.cpus|, s.nextSection);
  }

  lemma DoneOk(s: State, t: nat, j: nat)
    requires View(s, t, j) && s.cpus[t].section == None && s.cpus[t].pc == Done
    ensures StepOk(s, s.(cpus := s.cpus[t := s.cpus[t].(requested := false, pc := Take)]), t, t, j)
  {
    hide ListsOk, AllClosed;
    SameLists(s.cpus[t], s.(cpus := s.cpus[t := s.cpus[t].(requested := false, pc := Take)]).cpus[t], |s.cpus|, s.nextSection);
  }

  lemma TakeLists(c: Cpu, n: nat, nextSection: nat)
    requires ListsOk(c, n, nextSection) && c.pc == Take
    ensures var c' := c.ClearBack().(pc := Run(c.Back()));
            ListsOk(c', n, nextSection) && c'.Back() == [] && Todo(c'.pc) == c.Back()
  {
    var c' := c.ClearBack().(pc := Run(c.Back()));
    assert c'.Front() == c.Front() && c'.Back() == [];
    assert c.ran + [] + c.Back() + c.Front() == c.ran + c.Back() + [] + c.Front();
  }

  lemma TakeOk(s: State, t: nat, j: nat)
    requires View(s, t, j) && s.cpus[t].section == None && s.cpus[t].pc == Take
    ensures StepOk(s, TakeStep(s, t), t, t, j)
  {
    hide ListsOk, AllClosed;
    TakeLists(s.cpus[t], |s.cpus|, s.nextSection);
    assert Todo(s.cpus[t].pc) == [];
  }

  lemma TailOk(cbs: seq<Callback>, n: nat, nextSection: nat, j: nat, section: Option<nat>)
    requires cbs != [] && Proper(cbs, n, nextSection) && AllClosed(cbs, j, section)
    ensures Proper(cbs[1..], n, nextSection) && AllClosed(cbs[1..], j, section)
  {}

  lemma FifoRun(ran: seq<Callback>, todo: seq<Callback>, rest: seq<Callback>)
    requires todo != []
    ensures ran + [todo[0]] + todo[1..] + rest == ran + todo + rest
  {
    assert [todo[0]] + todo[1..] == todo;
  }

  lemma RunNextOk(s: State, t: nat, j: nat, todo: seq<Callback>)
    requires View(s, t, j) && s.cpus[t].section == None && s.cpus[t].pc == Run(todo) && todo != []
    ensures StepOk(s, RunStep(s, t, todo), t, t, j)
  {
    var c, c' := s.cpus[t], RunStep(s, t, todo).cpus[t];
    TailOk(todo, |s.cpus|, s.nextSection, j, s.cpus[j].section);
    FifoRun(c.ran, todo, []);
    assert c.ran + todo + [] == c.ran + todo;
    assert c'.Back() == c.Back() == [] && c'.Front() == c.Front() && c'.ran + Todo(c'.pc) == c.ran + todo;
    hide Proper, AllClosed;
  }

  lemma RunDoneOk(s: State, t: nat, j: nat)
    requires View(s, t, j) && s.cpus[t].section == None && s.cpus[t].pc == Run([])
    ensures StepOk(s, Goto(s, t, Top), t, t, j)
  {
    hide ListsOk, AllClosed;
    SameLists(s.cpus[t], Goto(s, t, Top).cpus[t], |s.cpus|, s.nextSection);
  }

  lemma AddLists(c: Cpu, cb: Callback, n: nat, nextSection: nat)
    requires ListsOk(c, n, nextSection) && |c.Front()| < QUEUE_SIZE && Dated(cb, n, nextSection)
    ensures ListsOk(c.Add(cb), n, nextSection) && c.Add(cb).Back() == c.Back()
  {
    hide Dated;
    var c' := c.Add(cb);
    assert c'.Back() == c.Back() && c'.Front() == c.Front() + [cb];
    assert c.ran + Todo(c.pc) + c.Back() + (c.Front() + [cb]) == c.ran + Todo(c.pc) + c.Back() + c.Front() + [cb];
  }

  lemma DeferOk(s: State, t: nat, j: nat, func: nat)
    requires View(s, t, j) && |s.cpus[t].Front()| < QUEUE_SIZE
    requires forall k :: 0 <= k < |s.cpus| && s.cpus[k].section.Some? ==> s.cpus[k].section.value < s.nextSection
    ensures StepOk(s, s.(cpus := s.cpus[t := s.cpus[t].Add(Callback(func, OpenSections(s)))]), t, t, j)
  {
    hide ListsOk, AllClosed;
    var cb := Callback(func, OpenSections(s));
    assert Dated(cb, |s.cpus|, s.nextSection);
    AddLists(s.cpus[t], cb, |s.cpus|, s.nextSection);
  }

  lemma ReadBeginOk(s: State, t: nat, j: nat)
    requires View(s, t, j) && s.cpus[t].section == None
    ensures StepOk(s, s.(cpus := s.cpus[t := s.cpus[t].(section := Some(s.nextSection))],
                         nextSection := s.nextSection + 1), t, t, j)
  {
    var c := s.cpus[t];
    ProperLater(Todo(c.pc), |s.cpus|, s.nextSection, s.nextSection + 1);
    ProperLater(c.Back(), |s.cpus|, s.nextSection, s.nextSection + 1);
    ProperLater(c.Front(), |s.cpus|, s.nextSection, s.nextSection + 1);
    FreshSection(Todo(c.pc), j, |s.cpus|, s.nextSection);
    FreshSection(c.Back(), j, |s.cpus|, s.nextSection);
    hide Proper, AllClosed;
  }

  lemma ReadEndOk(s: State, t: nat, j: nat)
    requires View(s, t, j)
    ensures StepOk(s, s.(cpus := s.cpus[t := s.cpus[t].(section := None)]), t, t, j)
  {
    hide ListsOk;
    SameLists(s.cpus[t], s.(cpus := s.cpus[t := s.cpus[t].(section := None)]).cpus[t], |s.cpus|, s.nextSection);
  }

  lemma WakeOk(s: State, t: nat, j: nat)
    requires View(s, t, j)
    ensures StepOk(s, s.(cpus := s.cpus[t := s.cpus[t].(woken := true)]), t, t, j)
  {
    hide ListsOk, AllClosed;
    SameLists(s.cpus[t], s.(cpus := s.cpus[t := s.cpus[t].(woken := true)]).cpus[t], |s.cpus|, s.nextSection);
  }

  // ------------------------------------------------------------ all the steps

  lemma InitInv(n: nat)
    ensures Inv(Init(n))
  {}

  lemma Views(s: State, t: nat, j: nat)
    requires Inv(s) && t < |s.cpus| && j < |s.cpus|
    ensures View(s, t, j)
  {
    assert LocalOk(s, t) && LocalOk(s, j) && PairOk(s, t, j);
  }

  /** The CPU that the next step of t's thread touches besides its own. */
  function Other(s: State, t: nat): nat
    requires t < |s.cpus|
  {
    var pc := s.cpus[t].pc;
    if pc.AskWake? || pc.TellWake? || (pc.AskSwap? && pc.k < |s.cpus| && s.cpus[pc.k].request == pc.seen < pc.g)
    then pc.k else t
  }

  lemma StepThreadOk(s: State, t: nat, j: nat)
    requires View(s, t, j) && s.cpus[t].section == None
    ensures StepOk(s, StepThread(s, t), t, Other(s, t), j)
  {
    hide StepOk, Effect, PairOk, TopStep, AllocStep, AskStep, AskWakeStep, PublishStep, TellStep, TellWakeStep,
         CheckStep, ScanStep, ServeStep, TakeStep;
    match s.cpus[t].pc
    case Top => TopOk(s, t, j);
    case Alloc => AllocOk(s, t, j);
    case Announce(g) => AnnounceOk(s, t, j, g);
    case Ask(g, k) => AskOk(s, t, j, g, k);
    case AskSwap(g, k, seen) =>
      if g <= seen { AskMoveOk(s, t, j, AskWake(g, k)); }
      else if s.cpus[k].request == seen { AskRaiseOk(s, t, j, g, k); }
      else { AskMoveOk(s, t, j, AskSwap(g, k, s.cpus[k].request)); }
    case AskWake(g, k) => AskWakeOk(s, t, j, g, k);
    case Publish(g) => PublishOk(s, t, j, g);
    case Tell(goal, k) => TellOk(s, t, j, goal, k);
    case TellWake(goal, k) => TellWakeOk(s, t, j, goal, k);
    case Prep(goal) => PrepOk(s, t, j, goal);
    case Check(goal) => CheckOk(s, t, j, goal);
    case Scan(g, k) => ScanOk(s, t, j, g, k);
    case Sleep(goal, miss) => SleepOk(s, t, j, goal, miss);
    case Serve(goal, reached) => ServeOk(s, t, j, goal, reached);
    case SetGeneration(goal, r) => SetGenerationOk(s, t, j, goal, r);
    case Done => DoneOk(s, t, j);
    case Take => TakeOk(s, t, j);
    case Run(todo) => if todo == [] { RunDoneOk(s, t, j); } else { RunNextOk(s, t, j, todo); }
  }

  lemma SectionsKnown(s: State, k: nat)
    requires Inv(s) && k < |s.cpus|
    ensures s.cpus[k].section.Some? ==> s.cpus[k].section.value < s.nextSection
  {
    assert LocalOk(s, k);
  }

  lemma ActionOk(s: State, t: nat, a: Action, j: nat)
    requires Inv(s) && Enabled(s, t, a) && j < |s.cpus|
    ensures StepOk(s, Next(s, t, a), t, if a == Step then Other(s, t) else t, j)
  {
    hide Inv, View, StepOk, StepThread;
    Views(s, t, j);
    match a
    case Step => StepThreadOk(s, t, j);
    case WeakFail => AskMoveOk(s, t, j, AskSwap(s.cpus[t].pc.g, s.cpus[t].pc.k, s.cpus[s.cpus[t].pc.k].request));
    case Defer(func) =>
      forall k | 0 <= k < |s.cpus| ensures s.cpus[k].section.Some? ==> s.cpus[k].section.value < s.nextSection {
        SectionsKnown(s, k);
      }
      DeferOk(s, t, j, func);
    case ReadBegin => ReadBeginOk(s, t, j);
    case ReadEnd => ReadEndOk(s, t, j);
    case Wake => WakeOk(s, t, j);
  }

  /** Every action on every CPU keeps the invariant. */
  lemma NextInv(s: State, t: nat, a: Action)
    requires Inv(s) && Enabled(s, t, a)
    ensures Inv(Next(s, t, a))
  {
    hide Inv, Effect, LocalOk, PairOk, Next;
    var s', o := Next(s, t, a), if a == Step then Other(s, t) else t;
    ActionOk(s, t, a, t);
    forall j | 0 <= j < |s.cpus| ensures PairOk(s', t, j) {
      ActionOk(s, t, a, j);
    }
    Kept(s, s', t, o);
  }

  lemma {:induction false} RunInv(n: nat, run: seq<State>, i: nat)
    requires IsRun(n, run) && i < |run|
    ensures Inv(run[i]) && |run[i].cpus| == n
  {
    hide Inv;
    if i == 0 {
      InitInv(n);
    } else {
      RunInv(n, run, i - 1);
      assert Follows(run[i - 1], run[i]);
      var t: nat, a :| Enabled(run[i - 1], t, a) && run[i] == Next(run[i - 1], t, a);
      NextInv(run[i - 1], t, a);
      ActionOk(run[i - 1], t, a, t);
    }
  }

  // ---------------------------------------------------------------- theorems

  /**
    A callback about to run: every read section that was open on any CPU when
    the callback was queued has ended.
   */
  lemma GracePeriod(n: nat, run: seq<State>, i: nat, c: nat, j: nat)
    requires IsRun(n, run) && i < |run| && c < |run[i].cpus| && j < |run[i].cpus|
    requires run[i].cpus[c].pc.Run? && run[i].cpus[c].pc.todo != []
    ensures var cb := run[i].cpus[c].pc.todo[0];
            |cb.open| == |run[i].cpus| && (cb.open[j].Some? ==> run[i].cpus[j].section != cb.open[j])
  {
    RunInv(n, run, i);
    var s := run[i];
    var cb := s.cpus[c].pc.todo[0];
    assert LocalOk(s, c) && PairOk(s, c, j);
    assert Dated(cb, n, s.nextSection);
  }

  /** Each CPU runs what was deferred on it exactly once and in order; nothing is lost. */
  lemma ExactlyOnceInOrder(n: nat, run: seq<State>, i: nat, c: nat)
    requires IsRun(n, run) && i < |run| && c < |run[i].cpus|
    ensures var cpu := run[i].cpus[c];
            cpu.deferred == cpu.ran + Todo(cpu.pc) + cpu.Back() + cpu.Front()
  {
    RunInv(n, run, i);
    assert LocalOk(run[i], c);
  }

  /** The buffer that becomes the front one is empty, and neither ever overflows. */
  lemma FlipsToEmptyBuffer(n: nat, run: seq<State>, i: nat, c: nat)
    requires IsRun(n, run) && i < |run| && c < |run[i].cpus|
    ensures run[i].cpus[c].pc == Top ==> run[i].cpus[c].Back() == []
    ensures |run[i].cpus[c].Front()| <= QUEUE_SIZE
  {
    RunInv(n, run, i);
    assert LocalOk(run[i], c);
  }

  predicate Asleep(c: Cpu) {
    c.pc.Sleep? && !c.woken
  }

  /** A thread that is behind somebody's target has been asked, and will be woken. */
  lemma BehindIsAsked(n: nat, run: seq<State>, i: nat, c: nat, j: nat)
    requires IsRun(n, run) && i < |run| && c < |run[i].cpus| && j < |run[i].cpus|
    requires run[i].cpus[c].pc.Sleep? && run[i].cpus[c].pc.goal.Some?
    requires run[i].cpus[j].generation < run[i].cpus[c].pc.goal.value
    ensures run[i].cpus[j].generation < run[i].cpus[j].request
    ensures Asleep(run[i].cpus[j]) ==>
              exists k :: 0 <= k < |run[i].cpus| && run[i].cpus[k].pc.AskWake? && run[i].cpus[k].pc.k == j
  {
    RunInv(n, run, i);
    var s := run[i];
    assert LocalOk(s, c) && LocalOk(s, j) && PairOk(s, c, j);
    if Asleep(s.cpus[j]) {
      assert PairOk(s, j, s.cpus[j].asker.value);
    }
  }

  /** While a thread sleeps until a grace period ends, the CPU it found behind is awake, or somebody about to wake it. */
  lemma NeverAllAsleep(n: nat, run: seq<State>, i: nat, c: nat)
    requires IsRun(n, run) && i < |run| && c < |run[i].cpus|
    requires run[i].cpus[c].pc.Sleep? && run[i].cpus[c].pc.goal.Some?
    ensures var s := run[i]; var m := s.cpus[c].pc.miss;
            Asleep(s.cpus[c]) ==>
              exists k :: 0 <= k < |s.cpus| && !Asleep(s.cpus[k]) && (k == m || (s.cpus[k].pc.AskWake? && s.cpus[k].pc.k == m))
  {
    RunInv(n, run, i);
    var s := run[i];
    if Asleep(s.cpus[c]) {
      var m := s.cpus[c].pc.miss;
      assert LocalOk(s, c) && PairOk(s, c, m);
      if s.cpus[m].generation < s.cpus[c].pc.goal.value {
        BehindIsAsked(n, run, i, c, m);
      }
    }
  }
}
