/**
  The multi-producer, single-consumer queue of include/lockfree/queue-mpsc.hh
  that holds the wait records of a mutex, as a step system: any number of
  pushes overlap each other and one pop at a time.  It behaves like a queue in
  which a push and a pop happen at once.
 */
module QueueMpsc {

  datatype Option<T> = None | Some(value: T)

  /** An item outside the queue, being pushed after `seen` was found in front, or in the queue. */
  datatype ItemState = Outside | Pushing(seen: Option<nat>) | Inside

  /** The one consumer: not in pop(), or reversing what it took off the pushlist. */
  datatype Consumer = Idle | Reversing(r: nat, local: Option<nat>)

  datatype State = State(
    next: seq<Option<nat>>,
    items: seq<ItemState>,
    pushlist: Option<nat>,
    poplist: Option<nat>,
    consumer: Consumer,
    // bookkeeping: the items on the pushlist, on the poplist or the list that
    // is becoming it, and those still to be reversed
    pushed: seq<nat>,
    popped: seq<nat>,
    rest: seq<nat>
  )

  datatype Action =
    | PushLoad(i: nat)
    | PushSwap(i: nat)
    | PushFail(i: nat)          // the weak compare-and-swap fails for no reason
    | Pop
    | Reverse

  function Init(n: nat): State {
    State(seq(n, _ => None), seq(n, _ => Outside), None, None, Idle, [], [], [])
  }

  predicate Enabled(s: State, a: Action) {
    match a
    case PushLoad(i) => i < |s.items| && i < |s.next| && s.items[i] == Outside
    case PushSwap(i) => i < |s.items| && i < |s.next| && s.items[i].Pushing?
    case PushFail(i) => i < |s.items| && i < |s.next| && s.items[i].Pushing?
    case Pop => s.consumer == Idle && (s.poplist.Some? ==> s.poplist.value < |s.next| && s.poplist.value < |s.items|)
    case Reverse => s.consumer.Reversing? && s.consumer.r < |s.next| && s.consumer.r < |s.items|
  }

  /** item->next = old, with the head of the pushlist as old. */
  function Link(s: State, i: nat): State
    requires i < |s.items| && i < |s.next|
  {
    s.(next := s.next[i := s.pushlist], items := s.items[i := Pushing(s.pushlist)])
  }

  function PushSwapStep(s: State, i: nat): State
    requires Enabled(s, PushSwap(i))
  {
    if s.pushlist == s.items[i].seen then
      s.(pushlist := Some(i), items := s.items[i := Inside], pushed := [i] + s.pushed)
    else Link(s, i)
  }

  function PopStep(s: State): State
    requires Enabled(s, Pop)
  {
    if s.poplist.Some? then
      s.(poplist := s.next[s.poplist.value], items := s.items[s.poplist.value := Outside],
         popped := if s.popped == [] then [] else s.popped[1..])
    else if s.pushlist.Some? then
      s.(pushlist := None, consumer := Reversing(s.pushlist.value, None), pushed := [], rest := s.pushed)
    else s
  }

  function ReverseStep(s: State): State
    requires Enabled(s, Reverse)
  {
    var r := s.consumer.r;
    if s.next[r].Some? then
      s.(next := s.next[r := s.consumer.local], consumer := Reversing(s.next[r].value, Some(r)),
         popped := [r] + s.popped, rest := if s.rest == [] then [] else s.rest[1..])
    else s.(poplist := s.consumer.local, consumer := Idle, items := s.items[r := Outside], rest := [])
  }

  function Next(s: State, a: Action): State
    requires Enabled(s, a)
  {
    match a
    case PushLoad(i) => Link(s, i)
    case PushSwap(i) => PushSwapStep(s, i)
    case PushFail(i) => Link(s, i)
    case Pop => PopStep(s)
    case Reverse => ReverseStep(s)
  }

  /** What pop() returns with this step, if it returns: nothing, or an item. */
  datatype Returned = NotYet | Null | Item(i: nat)

  function Result(s: State, a: Action): Returned
    requires Enabled(s, a)
  {
    match a
    case Pop => if s.poplist.Some? then Item(s.poplist.value) else if s.pushlist.Some? then NotYet else Null
    case Reverse => if s.next[s.consumer.r].Some? then NotYet else Item(s.consumer.r)
    case _ => NotYet
  }

  predicate Pushes(s: State, a: Action)
    requires Enabled(s, a)
  {
    a.PushSwap? && s.pushlist == s.items[a.i].seen
  }

  ghost predicate Follows(s: State, s': State) {
    exists a: Action :: Enabled(s, a) && s' == Next(s, a)
  }

  ghost predicate IsRun(n: nat, run: seq<State>) {
    && |run| > 0 && run[0] == Init(n)
    && forall i :: 0 < i < |run| ==> Follows(run[i - 1], run[i])
  }

  // --------------------------------------------------------------- invariant

  function Reversed(q: seq<nat>): seq<nat> {
    if q == [] then [] else Reversed(q[1..]) + [q[0]]
  }

  /** The queue, oldest item first. */
  function Contents(s: State): seq<nat> {
    Reversed(s.rest) + s.popped + Reversed(s.pushed)
  }

  /** The list of items that starts at head. */
  ghost predicate Chain(next: seq<Option<nat>>, head: Option<nat>, list: seq<nat>)
    decreases |list|
  {
    if list == [] then head == None
    else head == Some(list[0]) && list[0] < |next| && Chain(next, next[list[0]], list[1..])
  }

  ghost predicate AllIn(s: State, list: seq<nat>) {
    forall k :: 0 <= k < |list| ==> list[k] < |s.items| && s.items[list[k]] == Inside
  }

  ghost predicate Distinct(q: seq<nat>) {
    forall i, j :: 0 <= i < j < |q| ==> q[i] != q[j]
  }

  function Everything(s: State): seq<nat> { s.rest + s.popped + s.pushed }

  ghost predicate Inv(s: State) {
    && |s.next| == |s.items|
    && Chain(s.next, s.pushlist, s.pushed)
    && (match s.consumer
        case Idle => Chain(s.next, s.poplist, s.popped) && s.rest == []
        case Reversing(r, local) => s.poplist == None && Chain(s.next, local, s.popped) && Chain(s.next, Some(r), s.rest))
    && AllIn(s, Everything(s)) && Distinct(Everything(s))
    && (forall i: nat :: i < |s.items| && s.items[i].Pushing? ==> s.next[i] == s.items[i].seen)
  }

  /** A write to the link of an item elsewhere leaves a list as it was. */
  lemma {:induction false} ChainFrame(next: seq<Option<nat>>, next': seq<Option<nat>>, head: Option<nat>, list: seq<nat>)
    requires Chain(next, head, list) && |next'| == |next|
    requires forall k :: 0 <= k < |list| && list[k] < |next| ==> next'[list[k]] == next[list[k]]
    ensures Chain(next', head, list)
    decreases |list|
  {
    if list != [] {
      ChainFrame(next, next', next[list[0]], list[1..]);
    }
  }

  lemma InitInv(n: nat)
    ensures Inv(Init(n))
  {}

  /** An item not inside the queue is on none of its lists. */
  lemma NotListed(s: State, i: nat)
    requires AllIn(s, Everything(s)) && i < |s.items| && s.items[i] != Inside
    ensures i !in s.rest && i !in s.popped && i !in s.pushed
  {
    var all := Everything(s);
    forall k | 0 <= k < |all| ensures all[k] != i {
      assert s.items[all[k]] == Inside;
    }
    assert i !in all;
  }

  /** Writing the link of an item keeps the lists that it is not on. */
  lemma WriteLink(s: State, i: nat, v: Option<nat>, head: Option<nat>, list: seq<nat>)
    requires i < |s.next| && i !in list && Chain(s.next, head, list)
    ensures Chain(s.next[i := v], head, list)
  {
    ChainFrame(s.next, s.next[i := v], head, list);
  }

  lemma LinkOk(s: State, i: nat)
    requires Inv(s) && i < |s.items| && s.items[i] != Inside
    ensures Inv(Link(s, i)) && Contents(Link(s, i)) == Contents(s)
  {
    NotListed(s, i);
    WriteLink(s, i, s.pushlist, s.pushlist, s.pushed);
    match s.consumer
    case Idle => WriteLink(s, i, s.pushlist, s.poplist, s.popped);
    case Reversing(r, local) =>
      WriteLink(s, i, s.pushlist, local, s.popped);
      WriteLink(s, i, s.pushlist, Some(r), s.rest);
  }

  lemma PushOk(s: State, i: nat)
    requires Inv(s) && Enabled(s, PushSwap(i)) && Pushes(s, PushSwap(i))
    ensures Inv(Next(s, PushSwap(i))) && Contents(Next(s, PushSwap(i))) == Contents(s) + [i]
  {
    NotListed(s, i);
    var s' := Next(s, PushSwap(i));
    var all, all' := Everything(s), Everything(s');
    var m := |s.rest| + |s.popped|;
    assert all' == all[..m] + [i] + all[m..];
    assert s'.pushed[1..] == s.pushed;
    assert i !in all;
  }

  lemma TakeFirstOk(s: State)
    requires Inv(s) && Enabled(s, Pop) && s.poplist.Some?
    ensures Inv(Next(s, Pop)) && s.popped != [] && s.rest == []
    ensures Contents(s) == [s.poplist.value] + Contents(Next(s, Pop))
  {
    var s' := Next(s, Pop);
    var all, all' := Everything(s), Everything(s');
    assert all[0] == s.poplist.value && all' == all[1..];
  }

  lemma TakeAllOk(s: State)
    requires Inv(s) && Enabled(s, Pop) && s.poplist == None && s.pushlist.Some?
    ensures Inv(Next(s, Pop)) && Contents(Next(s, Pop)) == Contents(s)
  {
    var s' := Next(s, Pop);
    assert Everything(s') == Everything(s);
    assert Reversed([]) == [];
  }

  lemma Rotate(r: nat, a: seq<nat>, b: seq<nat>)
    requires Distinct([r] + a + b)
    ensures Distinct(a + [r] + b) && r !in a && r !in b
  {
    var q, q' := [r] + a + b, a + [r] + b;
    forall i, j | 0 <= i < j < |q'| ensures q'[i] != q'[j] {
      var x := if i < |a| then i + 1 else if i == |a| then 0 else i;
      var y := if j < |a| then j + 1 else if j == |a| then 0 else j;
      assert q'[i] == q[x] && q'[j] == q[y];
    }
    assert q[0] == r;
    forall k | 0 <= k < |a| ensures a[k] != r { assert q[k + 1] == a[k]; }
    forall k | 0 <= k < |b| ensures b[k] != r { assert q[|a| + 1 + k] == b[k]; }
  }

  /** The first of a list, and what follows it. */
  lemma ChainHead(next: seq<Option<nat>>, head: nat, list: seq<nat>)
    requires Chain(next, Some(head), list)
    ensures list != [] && list == [head] + list[1..] && head < |next| && Chain(next, next[head], list[1..])
  {}

  lemma ChainCons(next: seq<Option<nat>>, head: nat, list: seq<nat>)
    requires head < |next| && Chain(next, next[head], list)
    ensures Chain(next, Some(head), [head] + list)
  {
    assert ([head] + list)[1..] == list;
  }

  lemma ReverseOneOk(s: State)
    requires Inv(s) && Enabled(s, Reverse) && s.next[s.consumer.r].Some?
    ensures Inv(Next(s, Reverse)) && Contents(Next(s, Reverse)) == Contents(s)
  {
    hide Distinct, AllIn, Chain;
    var r, local := s.consumer.r, s.consumer.local;
    ChainHead(s.next, r, s.rest);
    var tail, others := s.rest[1..], s.popped + s.pushed;
    assert Everything(s) == [r] + tail + others;
    Rotate(r, tail, others);
    RotatedIn(s, r, tail, others);
    var s' := Next(s, Reverse);
    assert Everything(s') == tail + [r] + others;
    InItems(s, s', tail + [r] + others);
    WriteLink(s, r, local, local, s.popped);
    WriteLink(s, r, local, s.next[r], tail);
    WriteLink(s, r, local, s.pushlist, s.pushed);
    ChainCons(s'.next, r, s.popped);
    assert Reversed(s.rest) == Reversed(tail) + [r];
  }

  lemma InItems(s: State, s': State, list: seq<nat>)
    requires AllIn(s, list) && s'.items == s.items
    ensures AllIn(s', list)
  {}

  lemma RotatedIn(s: State, r: nat, a: seq<nat>, b: seq<nat>)
    requires AllIn(s, [r] + a + b)
    ensures AllIn(s, a + [r] + b) && r < |s.items| && s.items[r] == Inside
  {
    var q, q' := [r] + a + b, a + [r] + b;
    assert q[0] == r;
    forall i | 0 <= i < |q'| ensures q'[i] < |s.items| && s.items[q'[i]] == Inside {
      assert q'[i] == q[if i < |a| then i + 1 else if i == |a| then 0 else i];
    }
  }

  lemma FirstLeaves(s: State, s': State, r: nat, list: seq<nat>)
    requires AllIn(s, [r] + list) && Distinct([r] + list) && r < |s.items| && s'.items == s.items[r := Outside]
    ensures AllIn(s', list) && Distinct(list)
  {
    var q := [r] + list;
    assert q[1..] == list && q[0] == r;
    forall k | 0 <= k < |list| ensures list[k] < |s'.items| && s'.items[list[k]] == Inside {
      assert list[k] == q[k + 1];
    }
  }

  lemma ReverseLastOk(s: State)
    requires Inv(s) && Enabled(s, Reverse) && s.next[s.consumer.r] == None
    ensures Inv(Next(s, Reverse)) && Contents(s) == [s.consumer.r] + Contents(Next(s, Reverse))
  {
    hide Distinct, AllIn, Chain, Reversed;
    var r := s.consumer.r;
    ChainLast(s.next, r, s.rest);
    var s' := Next(s, Reverse);
    assert Everything(s) == [r] + (s.popped + s.pushed) && Everything(s') == s.popped + s.pushed;
    FirstLeaves(s, s', r, s.popped + s.pushed);
    ReversedShort(r);
    assert Contents(s) == [r] + s.popped + Reversed(s.pushed);
  }

  lemma ChainLast(next: seq<Option<nat>>, head: nat, list: seq<nat>)
    requires head < |next| && next[head] == None && Chain(next, Some(head), list)
    ensures list == [head]
  {
    assert Chain(next, None, list[1..]);
  }

  lemma ReversedShort(r: nat)
    ensures Reversed([r]) == [r] && Reversed([]) == []
  {
    assert [r][1..] == [];
  }

  /** Each step pushes one item at the end, takes the first one, or leaves the queue as it is. */
  lemma StepIsAtomic(s: State, a: Action)
    requires Inv(s) && Enabled(s, a)
    ensures Inv(Next(s, a))
    ensures match Result(s, a)
            case NotYet => Contents(Next(s, a)) == if Pushes(s, a) then Contents(s) + [a.i] else Contents(s)
            case Null => Contents(s) == [] && Next(s, a) == s
            case Item(i) => Contents(s) == [i] + Contents(Next(s, a))
  {
    hide Inv, Contents;
    match a
    case PushLoad(i) => LinkOk(s, i);
    case PushFail(i) => LinkOk(s, i);
    case PushSwap(i) => if Pushes(s, a) { PushOk(s, i); } else { LinkOk(s, i); }
    case Pop => if s.poplist.Some? { TakeFirstOk(s); } else if s.pushlist.Some? { TakeAllOk(s); } else { EmptyIff(s); }
    case Reverse => if s.next[s.consumer.r].Some? { ReverseOneOk(s); } else { ReverseLastOk(s); }
  }

  /** Between two pops, empty() tells whether the queue is empty. */
  lemma EmptyIff(s: State)
    requires Inv(s) && s.consumer == Idle
    ensures s.poplist == None && s.pushlist == None <==> Contents(s) == []
  {
    if s.pushed != [] {
      assert |Reversed(s.pushed)| > 0;
    }
  }

  lemma {:induction false} RunInv(n: nat, run: seq<State>, i: nat)
    requires IsRun(n, run) && i < |run|
    ensures Inv(run[i])
  {
    hide Inv, Next, Enabled;
    if i == 0 {
      InitInv(n);
    } else {
      RunInv(n, run, i - 1);
      assert Follows(run[i - 1], run[i]);
      var a :| Enabled(run[i - 1], a) && run[i] == Next(run[i - 1], a);
      StepIsAtomic(run[i - 1], a);
    }
  }

  /** The push of item x took effect: it was on its way into the queue, and is its last item now. */
  ghost predicate Enqueued(s: State, s': State, x: nat) {
    && x < |s.items| && x < |s'.items| && s.items[x].Pushing? && s'.items[x] == Inside
    && Contents(s') == Contents(s) + [x]
  }

  /** In every run the queue changes only by whole pushes and pops, first in first out. */
  lemma BehavesLikeQueue(n: nat, run: seq<State>, i: nat)
    requires IsRun(n, run) && i + 1 < |run|
    ensures var s, s' := run[i], run[i + 1];
            || Contents(s') == Contents(s)
            || (Contents(s) != [] && Contents(s') == Contents(s)[1..])
            || (exists x: nat :: Enqueued(s, s', x))
  {
    RunInv(n, run, i);
    assert Follows(run[i], run[i + 1]);
    var a :| Enabled(run[i], a) && run[i + 1] == Next(run[i], a);
    StepIsAtomic(run[i], a);
    if Pushes(run[i], a) {
      assert Enqueued(run[i], run[i + 1], a.i);
    }
  }

  // ------------------------------------------------------------ calls alone

  /** With no step of another thread in between, a push adds its item at the end. */
  lemma PushAlone(n: nat, run: seq<State>, x: nat, i: nat)
    requires IsRun(n, run) && x < |run| && Enabled(run[x], PushLoad(i))
    ensures var s1 := Next(run[x], PushLoad(i));
            && Enabled(s1, PushSwap(i)) && var s2 := Next(s1, PushSwap(i));
            && Contents(s2) == Contents(run[x]) + [i] && i < |s2.items| && s2.items[i] == Inside
  {
    hide IsRun, Inv, Contents;
    RunInv(n, run, x);
    StepIsAtomic(run[x], PushLoad(i));
    StepIsAtomic(Next(run[x], PushLoad(i)), PushSwap(i));
  }

  /** A push that met another one is through when it is not disturbed again. */
  lemma PushGoesOn(n: nat, run: seq<State>, x: nat, i: nat)
    requires IsRun(n, run) && x < |run| && Enabled(run[x], PushSwap(i))
    ensures var s1 := Next(run[x], PushSwap(i));
            || (Contents(s1) == Contents(run[x]) + [i] && s1.items[i] == Inside)
            || (Enabled(s1, PushSwap(i)) && var s2 := Next(s1, PushSwap(i));
                Contents(s2) == Contents(run[x]) + [i] && i < |s2.items| && s2.items[i] == Inside)
  {
    hide IsRun, Inv, Contents;
    RunInv(n, run, x);
    StepIsAtomic(run[x], PushSwap(i));
    if !Pushes(run[x], PushSwap(i)) {
      StepIsAtomic(Next(run[x], PushSwap(i)), PushSwap(i));
    }
  }

  /** k steps of the reversal. */
  function Reversals(s: State, k: nat): State
    decreases k
  {
    if k == 0 || !Enabled(s, Reverse) then s else Reversals(Next(s, Reverse), k - 1)
  }

  lemma ReverseGoesOn(s: State)
    requires Inv(s) && s.consumer.Reversing?
    ensures Enabled(s, Reverse) && s.rest != []
    ensures s.next[s.consumer.r].Some? ==> |Next(s, Reverse).rest| == |s.rest| - 1 && Next(s, Reverse).consumer.Reversing?
    ensures s.next[s.consumer.r] == None ==> Next(s, Reverse).consumer == Idle
  {
    ChainHead(s.next, s.consumer.r, s.rest);
    assert s.consumer.r < |s.items|;
  }

  /** A reversal takes one step for each item and returns the oldest. */
  lemma {:induction false} ReverseReturns(s: State)
    requires Inv(s) && s.consumer.Reversing?
    ensures var s' := Reversals(s, |s.rest|);
            && Inv(s') && s'.consumer == Idle && Contents(s) != [] && Contents(s') == Contents(s)[1..]
            && exists z: State :: Inv(z) && z.consumer.Reversing? && Enabled(z, Reverse) && Contents(z) == Contents(s)
                           && s' == Next(z, Reverse) && Result(z, Reverse) == Item(Contents(s)[0])
    decreases |s.rest|
  {
    hide Inv, Contents;
    ReverseGoesOn(s);
    StepIsAtomic(s, Reverse);
    var s1 := Next(s, Reverse);
    if s.next[s.consumer.r].Some? {
      ReverseReturns(s1);
      assert Reversals(s, |s.rest|) == Reversals(s1, |s1.rest|);
    } else {
      assert Reversals(s, |s.rest|) == s1;
    }
  }

  /**
    pop() returns nothing exactly if the queue is empty, and else its oldest
    item, which is all that leaves: at once, or with the last of a bounded
    number of steps.
   */
  lemma PopReturns(n: nat, run: seq<State>, x: nat)
    requires IsRun(n, run) && x < |run| && run[x].consumer == Idle
    ensures var s := run[x];
            && Enabled(s, Pop) && var s1 := Next(s, Pop);
            match Result(s, Pop)
            case Null => Contents(s) == [] && s1 == s
            case Item(i) => Contents(s) == [i] + Contents(s1) && s1.consumer == Idle
            case NotYet =>
              && s1.consumer.Reversing? && Contents(s) != []
              && var s' := Reversals(s1, |s1.rest|);
              && s'.consumer == Idle && Contents(s') == Contents(s)[1..]
              && exists z: State :: z.consumer.Reversing? && Enabled(z, Reverse) && s' == Next(z, Reverse) && Result(z, Reverse) == Item(Contents(s)[0])
  {
    hide IsRun, Inv, Contents;
    var s := run[x];
    RunInv(n, run, x);
    PopEnabled(s);
    StepIsAtomic(s, Pop);
    if Result(s, Pop) == NotYet {
      ReverseReturns(Next(s, Pop));
    }
  }

  lemma PopEnabled(s: State)
    requires Inv(s) && s.consumer == Idle
    ensures Enabled(s, Pop)
  {
    if s.poplist.Some? {
      ChainHead(s.next, s.poplist.value, s.popped);
    }
  }

  /** While a pop has not returned yet, empty() can say yes although an item is queued. */
  lemma EmptyDuringPop()
    ensures exists run: seq<State> :: IsRun(1, run) && var s := run[|run| - 1];
              s.poplist == None && s.pushlist == None && Contents(s) == [0]
  {
    var s0 := Init(1);
    var s1 := Next(s0, PushLoad(0));
    var s2 := Next(s1, PushSwap(0));
    var s3 := Next(s2, Pop);
    var run := [s0, s1, s2, s3];
    assert Enabled(s0, PushLoad(0)) && Enabled(s1, PushSwap(0)) && Enabled(s2, Pop);
    assert IsRun(1, run);
    assert s3.rest == [0];
    ReversedShort(0);
    assert run[|run| - 1] == s3;
  }
}
