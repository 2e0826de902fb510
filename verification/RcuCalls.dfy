/**
  What rcu_defer() comes to: the callback is queued with the read sections of
  that moment, does not run while one of them stays open, and runs, once and
  after all that was queued before it, when they have ended.
 */
module RcuCalls {
  import opened Rcu
  import opened RcuProof
  import opened RcuProgress

  /** All callbacks that a CPU has run, is running or holds, in order. */
  function Known(c: Cpu): seq<Callback> {
    c.ran + Todo(c.pc) + c.Back() + c.Front()
  }

  /** rcu_defer() adds one callback to the front buffer, with the sections open on each CPU, and changes nothing else. */
  lemma DeferQueues(n: nat, run: seq<State>, x: nat, i: nat, func: nat) returns (cb: Callback)
    requires IsRun(n, run) && x < |run| && Enabled(run[x], i, Defer(func))
    ensures cb.func == func && |cb.open| == |run[x].cpus|
    ensures forall j :: 0 <= j < |run[x].cpus| ==> cb.open[j] == run[x].cpus[j].section
    ensures var s, s' := run[x], Next(run[x], i, Defer(func));
            && |s'.cpus| == |s.cpus| && (forall j :: 0 <= j < |s.cpus| && j != i ==> s'.cpus[j] == s.cpus[j])
            && s'.nextGeneration == s.nextGeneration && s'.nextSection == s.nextSection
            && var c, c' := s.cpus[i], s'.cpus[i];
            && c'.Front() == c.Front() + [cb] && c'.Back() == c.Back() && Known(c') == Known(c) + [cb]
            && c'.pc == c.pc && c'.ran == c.ran && c'.section == c.section && c'.woken == c.woken && c'.generation == c.generation
            && c'.request == c.request && c'.requested == c.requested
  {
    var s := run[x];
    cb := Callback(func, OpenSections(s));
    var c, c' := s.cpus[i], Next(s, i, Defer(func)).cpus[i];
    assert c'.Front() == c.Front() + [cb];
    assert Known(c') == Known(c) + [cb];
  }

  // --------------------------------------------------- the callback does run

  /** The thread has no callbacks in hand: it is about to look for some. */
  predicate Loose(pc: Pc) {
    !Cleaning(pc) && !pc.Run?
  }

  function ToGo(pc: Pc): nat {
    match pc
    case Sleep(_, _) => 6
    case Prep(_) => 5
    case Check(_) => 4
    case Serve(_, _) => 3
    case SetGeneration(_, _) => 2
    case Tell(_, _) => 1
    case TellWake(_, _) => 1
    case _ => 0
  }

  /** With something in the front buffer the thread gets to the top of its loop. */
  predicate Nearing(s: State, s': State, i: nat) {
    && i < |s.cpus| == |s'.cpus| && var c, c' := s.cpus[i], s'.cpus[i];
    && Loose(c'.pc) && !Asleep(c') && c'.Front() == c.Front() && c'.deferred == c.deferred
    && (ToGo(c'.pc) < ToGo(c.pc) || (ToGo(c'.pc) == ToGo(c.pc) && Minor(s', c') < Minor(s, c)))
  }

  lemma TellNearing(s: State, i: nat)
    requires i < |s.cpus| && Sound(s, i) && Loose(s.cpus[i].pc) && PartOf(s.cpus[i].pc) == Tells
    ensures Nearing(s, StepThread(s, i), i)
  {}

  lemma LookNearing(s: State, i: nat)
    requires i < |s.cpus| && Loose(s.cpus[i].pc) && (s.cpus[i].pc.Prep? || s.cpus[i].pc.Check?) && s.cpus[i].Front() != []
    ensures Nearing(s, StepThread(s, i), i)
  {}

  lemma RestNearing(s: State, i: nat)
    requires i < |s.cpus| && Loose(s.cpus[i].pc) && PartOf(s.cpus[i].pc) != Tells && s.cpus[i].pc != Top
    requires !s.cpus[i].pc.Prep? && !s.cpus[i].pc.Check? && !Asleep(s.cpus[i])
    ensures Nearing(s, StepThread(s, i), i)
  {}

  lemma {:induction false} ToTop(s: State, i: nat) returns (ms: seq<Move>, s': State)
    requires Inv(s) && Quiet(s) && i < |s.cpus| && Loose(s.cpus[i].pc) && !Asleep(s.cpus[i]) && s.cpus[i].Front() != []
    ensures Leads(s, ms, s') && Inv(s') && Quiet(s') && i < |s'.cpus| && s'.cpus[i].pc == Top
    ensures s'.cpus[i].Front() == s.cpus[i].Front() && s'.cpus[i].deferred == s.cpus[i].deferred
    decreases ToGo(s.cpus[i].pc), Minor(s, s.cpus[i])
  {
    hide Inv, StepThread, Minor, Quiet, Loose, LocalOk, Sound;
    if s.cpus[i].pc == Top {
      return [], s;
    }
    assert LocalOk(s, i) by { Views(s, i, i); }
    IsSound(s, i);
    QuietAt(s, i);
    if PartOf(s.cpus[i].pc) == Tells { TellNearing(s, i); }
    else if s.cpus[i].pc.Prep? || s.cpus[i].pc.Check? { LookNearing(s, i); }
    else { RestNearing(s, i); }
    StepKeeps(s, i);
    ms, s' := ToTop(StepThread(s, i), i);
    LeadsFirst(s, Move(i, Step), ms, s');
    ms := [Move(i, Step)] + ms;
  }

  lemma Flip(s: State, i: nat)
    requires i < |s.cpus| && LocalOk(s, i) && s.cpus[i].pc == Top && s.cpus[i].Front() != []
    ensures var s' := StepThread(s, i);
            |s'.cpus| == |s.cpus| && s'.cpus[i].pc == Alloc && s'.cpus[i].Front() == [] && s'.cpus[i].deferred == s.cpus[i].deferred
  {
    hide ListsOk;
  }

  /** From the top of its loop the thread runs all that is queued. */
  lemma RunsAll(s: State, i: nat) returns (ms: seq<Move>, s': State)
    requires Inv(s) && Quiet(s) && i < |s.cpus| && s.cpus[i].pc == Top && s.cpus[i].Front() != []
    ensures Leads(s, ms, s') && i < |s'.cpus| && s'.cpus[i].ran == s.cpus[i].deferred
  {
    hide Inv, StepThread, Quiet, LocalOk;
    assert LocalOk(s, i) by { Views(s, i, i); }
    QuietAt(s, i);
    Flip(s, i);
    StepKeeps(s, i);
    ms, s' := AllocThenFinish(StepThread(s, i), i);
    LeadsFirst(s, Move(i, Step), ms, s');
    ms := [Move(i, Step)] + ms;
    AllRan(s', i);
    assert s'.cpus[i].ran + [] == s'.cpus[i].ran;
  }

  lemma RunDone(s: State, i: nat)
    requires i < |s.cpus| && s.cpus[i].pc == Run([])
    ensures var s' := StepThread(s, i);
            |s'.cpus| == |s.cpus| && s'.cpus[i].pc == Top && s'.cpus[i].Front() == s.cpus[i].Front() && s'.cpus[i].deferred == s.cpus[i].deferred
  {}

  /** Whatever the thread is doing it comes to the top of its loop. */
  lemma Comes(s: State, i: nat) returns (ms: seq<Move>, s': State)
    requires Inv(s) && Quiet(s) && i < |s.cpus| && (Loose(s.cpus[i].pc) ==> !Asleep(s.cpus[i])) && s.cpus[i].Front() != []
    ensures Leads(s, ms, s') && Inv(s') && Quiet(s') && i < |s'.cpus| && s'.cpus[i].pc == Top
    ensures s'.cpus[i].Front() == s.cpus[i].Front() && s'.cpus[i].deferred == s.cpus[i].deferred
  {
    hide Inv, StepThread, Quiet, Leads;
    if Loose(s.cpus[i].pc) {
      ms, s' := ToTop(s, i);
    } else {
      var ms1, s1 := AllocThenFinish(s, i);
      QuietAt(s1, i);
      RunDone(s1, i);
      StepKeeps(s1, i);
      s' := StepThread(s1, i);
      LeadsNone(s');
      LeadsFirst(s1, Move(i, Step), [], s');
      LeadsConcat(s, ms1, s1, [Move(i, Step)] + [], s');
      ms := ms1 + ([Move(i, Step)] + []);
    }
  }

  lemma LeadsNone(s: State)
    ensures Leads(s, [], s)
  {}

  /**
    From every state of every run: once a function is deferred on a CPU, a wake
    of its quiescent-state thread, ends of read sections and steps of these
    threads lead to a state in which that CPU has run all that was queued there
    before, in order, and then this function.
   */
  lemma DeferredRuns(n: nat, run: seq<State>, x: nat, i: nat, func: nat)
    returns (cb: Callback, ms: seq<Move>, s': State)
    requires IsRun(n, run) && x < |run| && Enabled(run[x], i, Defer(func))
    ensures cb.func == func
    ensures Leads(Next(Next(run[x], i, Defer(func)), i, Wake), ms, s') && i < |s'.cpus|
    ensures s'.cpus[i].ran == Known(run[x].cpus[i]) + [cb]
  {
    hide Inv, Quiet, Leads, IsRun;
    var s := run[x];
    RunInv(n, run, x);
    cb := DeferQueues(n, run, x, i, func);
    NextInv(s, i, Defer(func));
    var s1 := Next(s, i, Defer(func));
    NextInv(s1, i, Wake);
    var s2 := Next(s1, i, Wake);
    AllKnown(s1, i);
    var ms1, s3 := EndSections(s2, 0);
    assert s3.cpus[i].(section := None) == s2.cpus[i].(section := None);
    assert s3.cpus[i].woken && s3.cpus[i].Front() == s1.cpus[i].Front() && s3.cpus[i].deferred == s1.cpus[i].deferred;
    var ms2, s4 := Comes(s3, i);
    var ms3, s5 := RunsAll(s4, i);
    LeadsConcat(s2, ms1, s3, ms2, s4);
    LeadsConcat(s2, ms1 + ms2, s4, ms3, s5);
    ms, s' := ms1 + ms2 + ms3, s5;
  }

  /** From every state a wake of the thread of a CPU and the same moves lead to room in its front buffer. */
  lemma RoomComes(n: nat, run: seq<State>, x: nat, i: nat) returns (ms: seq<Move>, s': State)
    requires IsRun(n, run) && x < |run| && i < |run[x].cpus|
    ensures Leads(Next(run[x], i, Wake), ms, s') && i < |s'.cpus| && s'.cpus[i].Front() == []
  {
    hide Inv, Quiet, Leads, IsRun, StepThread, LocalOk;
    var s := run[x];
    RunInv(n, run, x);
    NextInv(s, i, Wake);
    var s2 := Next(s, i, Wake);
    if s.cpus[i].Front() == [] {
      LeadsNone(s2);
      return [], s2;
    }
    var ms1, s3 := EndSections(s2, 0);
    assert s3.cpus[i].(section := None) == s2.cpus[i].(section := None);
    var ms2, s4 := Comes(s3, i);
    assert LocalOk(s4, i) by { Views(s4, i, i); }
    QuietAt(s4, i);
    Flip(s4, i);
    s' := StepThread(s4, i);
    LeadsNone(s');
    LeadsFirst(s4, Move(i, Step), [], s');
    LeadsConcat(s2, ms1, s3, ms2, s4);
    LeadsConcat(s2, ms1 + ms2, s4, [Move(i, Step)] + [], s');
    ms := ms1 + ms2 + ([Move(i, Step)] + []);
  }

  lemma AllKnown(s: State, i: nat)
    requires Inv(s) && i < |s.cpus|
    ensures Known(s.cpus[i]) == s.cpus[i].deferred
  {
    assert LocalOk(s, i);
  }

  // ------------------------------------------------ and not before its time

  /** A read section that begins is open, and one that ends is not; nothing else changes but the next name. */
  lemma SectionsOpenAndClose(n: nat, run: seq<State>, x: nat, i: nat)
    requires IsRun(n, run) && x < |run| && i < |run[x].cpus|
    ensures var s := run[x];
            if s.cpus[i].section == None
            then
              && Enabled(s, i, ReadBegin) && var s' := Next(s, i, ReadBegin);
              && s'.cpus[i].section.Some? && s'.cpus == s.cpus[i := s.cpus[i].(section := s'.cpus[i].section)]
              && (forall j :: 0 <= j < |s.cpus| ==> s.cpus[j].section != s'.cpus[i].section)
              && s'.nextGeneration == s.nextGeneration
            else Enabled(s, i, ReadEnd) && Next(s, i, ReadEnd) == s.(cpus := s.cpus[i := s.cpus[i].(section := None)])
  {
    hide IsRun;
    var s := run[x];
    RunInv(n, run, x);
    forall j | 0 <= j < |s.cpus| ensures s.cpus[j].section.Some? ==> s.cpus[j].section.value < s.nextSection {
      assert LocalOk(s, j);
    }
  }

  /** What has run is never taken back, and grows by the callback in hand. */
  predicate Grows(c: Cpu, c': Cpu) {
    && c.deferred <= c'.deferred
    && (c'.ran == c.ran || (c.pc.Run? && c.pc.todo != [] && c'.ran == c.ran + [c.pc.todo[0]]))
  }

  lemma AskGrows(s: State, i: nat)
    requires i < |s.cpus| && Sound(s, i) && PartOf(s.cpus[i].pc) == Asks
    ensures |StepThread(s, i).cpus| == |s.cpus| && Grows(s.cpus[i], StepThread(s, i).cpus[i])
  {}

  lemma TellGrows(s: State, i: nat)
    requires i < |s.cpus| && Sound(s, i) && PartOf(s.cpus[i].pc) == Tells
    ensures |StepThread(s, i).cpus| == |s.cpus| && Grows(s.cpus[i], StepThread(s, i).cpus[i])
  {}

  lemma WaitGrows(s: State, i: nat)
    requires i < |s.cpus| && PartOf(s.cpus[i].pc) == WaitsUntil
    ensures |StepThread(s, i).cpus| == |s.cpus| && Grows(s.cpus[i], StepThread(s, i).cpus[i])
  {}

  lemma RestGrows(s: State, i: nat)
    requires i < |s.cpus| && PartOf(s.cpus[i].pc) == Rest
    ensures |StepThread(s, i).cpus| == |s.cpus| && Grows(s.cpus[i], StepThread(s, i).cpus[i])
  {}

  lemma OwnGrows(s: State, i: nat, a: Action)
    requires Enabled(s, i, a) && LocalOk(s, i)
    ensures |Next(s, i, a).cpus| == |s.cpus| && Grows(s.cpus[i], Next(s, i, a).cpus[i])
  {
    hide StepThread, LocalOk, Sound;
    IsSound(s, i);
    if a == Step {
      match PartOf(s.cpus[i].pc)
      case Asks => AskGrows(s, i);
      case Tells => TellGrows(s, i);
      case WaitsUntil => WaitGrows(s, i);
      case Rest => RestGrows(s, i);
    }
  }

  lemma RanGrows(s: State, t: nat, a: Action, i: nat)
    requires Inv(s) && Enabled(s, t, a) && i < |s.cpus|
    ensures |Next(s, t, a).cpus| == |s.cpus| && Grows(s.cpus[i], Next(s, t, a).cpus[i])
  {
    hide Inv, Next, LocalOk, PairOk;
    ActionOk(s, t, a, t);
    if t == i {
      assert LocalOk(s, i) by { Views(s, i, i); }
      OwnGrows(s, i, a);
    }
  }

  /** The callback in hand is the next of those deferred. */
  lemma InHand(s: State, i: nat)
    requires Inv(s) && i < |s.cpus| && s.cpus[i].pc.Run? && s.cpus[i].pc.todo != []
    ensures var c := s.cpus[i]; |c.ran| < |c.deferred| && c.deferred[|c.ran|] == c.pc.todo[0]
  {
    var c := s.cpus[i];
    AllKnown(s, i);
    assert Known(c)[|c.ran|] == c.pc.todo[0];
  }

  lemma {:induction false} NotYet(n: nat, run: seq<State>, x: nat, y: nat, i: nat, j: nat, cb: Callback, d: nat)
    requires IsRun(n, run) && x <= y < |run| && i < n && j < n
    requires i < |run[x].cpus| && |run[x].cpus[i].ran| <= d < |run[x].cpus[i].deferred| && run[x].cpus[i].deferred[d] == cb
    requires j < |cb.open| && cb.open[j].Some?
    requires forall k :: x <= k <= y ==> j < |run[k].cpus| && run[k].cpus[j].section == cb.open[j]
    ensures i < |run[y].cpus| && |run[y].cpus[i].ran| <= d < |run[y].cpus[i].deferred| && run[y].cpus[i].deferred[d] == cb
    decreases y
  {
    hide Inv, Next, Enabled;
    if x < y {
      var s := run[y - 1];
      NotYet(n, run, x, y - 1, i, j, cb, d);
      RunInv(n, run, y - 1);
      assert Follows(s, run[y]);
      var t: nat, a :| Enabled(s, t, a) && run[y] == Next(s, t, a);
      RanGrows(s, t, a, i);
      if s.cpus[i].pc.Run? && s.cpus[i].pc.todo != [] {
        InHand(s, i);
        GracePeriod(n, run, y - 1, i, j);
      }
    }
  }

  /**
    As long as a read section that was open on any CPU when a function was
    deferred stays open, the function does not run.
   */
  lemma ReaderIsProtected(n: nat, run: seq<State>, x: nat, y: nat, i: nat, j: nat, func: nat)
    requires IsRun(n, run) && x < y < |run| && Enabled(run[x], i, Defer(func)) && run[x + 1] == Next(run[x], i, Defer(func))
    requires j < n && forall k :: x <= k <= y ==> j < |run[k].cpus| && run[k].cpus[j].section.Some?
    requires forall k :: x <= k <= y ==> run[k].cpus[j].section == run[x].cpus[j].section
    ensures i < |run[x].cpus| && i < |run[y].cpus| && |run[y].cpus[i].ran| <= |Known(run[x].cpus[i])|
  {
    hide Inv, Next;
    RunInv(n, run, x);
    RunInv(n, run, x + 1);
    var cb := DeferQueues(n, run, x, i, func);
    var d := |Known(run[x].cpus[i])|;
    AllKnown(run[x + 1], i);
    assert Known(run[x + 1].cpus[i])[d] == cb;
    NotYet(n, run, x + 1, y, i, j, cb, d);
  }

  /** In every state of every run: a function can be deferred while there is room, and a section opened if none is. */
  lemma MayCall(n: nat, run: seq<State>, x: nat, i: nat, func: nat)
    requires IsRun(n, run) && x < |run| && i < n
    ensures |run[x].cpus| == n && (Enabled(run[x], i, Defer(func)) <==> |run[x].cpus[i].Front()| < 2000)
    ensures Enabled(run[x], i, ReadBegin) <==> run[x].cpus[i].section == None
    ensures Enabled(run[x], i, Wake)
  {
    hide IsRun, Inv;
    RunInv(n, run, x);
  }
}
