/**
  The queue of waiters of a condition variable, core/condvar.cc: a linked list
  from the oldest to the newest wait record, and the order in which wake_all()
  hands a detached list of records to the mutex.
 */
module CondvarQueue {

  class WaitRecord {
    const cpu: nat              // of the waiting thread
    var next: WaitRecord?

    constructor (cpu: nat)
      ensures this.cpu == cpu && next == null
    {
      this.cpu := cpu;
      next := null;
    }
  }

  function First(list: seq<WaitRecord>): WaitRecord? {
    if list == [] then null else list[0]
  }

  function Last(list: seq<WaitRecord>): WaitRecord? {
    if list == [] then null else list[|list| - 1]
  }

  ghost predicate Distinct(list: seq<WaitRecord>) {
    forall i, j :: 0 <= i < j < |list| ==> list[i] != list[j]
  }

  function Successor(list: seq<WaitRecord>, i: nat): WaitRecord? {
    if i + 1 < |list| then list[i + 1] else null
  }

  /** The records are linked in this order. */
  ghost predicate Linked(list: seq<WaitRecord>)
    reads list
  {
    && Distinct(list)
    && forall i: nat :: i < |list| ==> list[i].next == Successor(list, i)
  }

  lemma NextInList(list: seq<WaitRecord>, k: nat)
    requires Linked(list) && k < |list|
    ensures list[k].next == First(list[k + 1..])
  {
    assert list[k].next == Successor(list, k);
  }

  lemma LinkedDistinct(list: seq<WaitRecord>)
    requires Linked(list)
    ensures Distinct(list)
  {}

  lemma DropDistinct(list: seq<WaitRecord>, k: nat)
    requires Distinct(list) && k < |list|
    ensures Distinct(list[..k] + list[k + 1..])
  {}

  lemma RecordsDiffer(list: seq<WaitRecord>, k: nat)
    requires Distinct(list) && k < |list|
    ensures forall i :: 0 <= i < |list| && i != k ==> list[i] != list[k]
  {}

  lemma TailLinked(list: seq<WaitRecord>)
    requires Linked(list) && list != []
    ensures Linked(list[1..]) && Last(list[1..]) == if |list| > 1 then Last(list) else null
  {
    forall i: nat | i < |list[1..]| ensures list[1..][i].next == Successor(list[1..], i) {
      assert list[i + 1].next == Successor(list, i + 1);
    }
  }

  /** The records other than wr, in order. */
  ghost function Without(list: seq<WaitRecord>, wr: WaitRecord): seq<WaitRecord> {
    if list == [] then [] else if list[0] == wr then Without(list[1..], wr) else [list[0]] + Without(list[1..], wr)
  }

  lemma {:induction false} WithoutAbsent(list: seq<WaitRecord>, wr: WaitRecord)
    requires wr !in list
    ensures Without(list, wr) == list
  {
    if list != [] {
      WithoutAbsent(list[1..], wr);
    }
  }

  lemma {:induction false} WithoutAt(list: seq<WaitRecord>, k: nat)
    requires Distinct(list) && k < |list|
    ensures Without(list, list[k]) == list[..k] + list[k + 1..]
  {
    if k == 0 {
      WithoutAbsent(list[1..], list[0]);
    } else {
      WithoutAt(list[1..], k - 1);
      assert list[..k] + list[k + 1..] == [list[0]] + (list[1..][..k - 1] + list[1..][k..]);
    }
  }

  /** Take the record after p out of a linked list. */
  method Bypass(p: WaitRecord, ghost list: seq<WaitRecord>, ghost k: nat)
    requires Linked(list) && k + 1 < |list| && p == list[k]
    modifies p
    ensures Linked(list[..k + 1] + list[k + 2..]) && p.next == First(list[k + 2..])
  {
    hide Distinct;
    DropDistinct(list, k + 1);
    RecordsDiffer(list, k);
    NextInList(list, k);
    NextInList(list, k + 1);
    p.next := p.next.next;
    ghost var rest := list[..k + 1] + list[k + 2..];
    forall i: nat | i < |rest| ensures rest[i].next == Successor(rest, i) {
      ghost var j := if i <= k then i else i + 1;
      assert rest[i] == list[j];
      assert i != k ==> old(list[j].next) == Successor(list, j);
    }
  }

  class Queue {
    var oldest: WaitRecord?
    var newest: WaitRecord?
    ghost var fifo: seq<WaitRecord>

    ghost predicate Valid()
      reads this, fifo
    {
      Linked(fifo) && oldest == First(fifo) && newest == Last(fifo)
    }

    constructor ()
      ensures Valid() && fifo == []
    {
      oldest, newest, fifo := null, null, [];
    }

    /** wait(): join the queue. */
    method Append(wr: WaitRecord)
      requires Valid() && wr !in fifo && wr.next == null
      modifies this, fifo
      ensures Valid() && fifo == old(fifo) + [wr]
    {
      if oldest == null {
        oldest := wr;
      } else {
        newest.next := wr;
      }
      newest := wr;
      fifo := fifo + [wr];
    }

    /** Take the record after p off the queue. */
    method Unlink(p: WaitRecord, ghost k: nat)
      requires Valid() && k + 1 < |fifo| && p == fifo[k]
      modifies this, p
      ensures Valid() && fifo == old(fifo)[..k + 1] + old(fifo)[k + 2..]
    {
      hide Linked;
      Bypass(p, fifo, k);
      if p.next == null {
        newest := p;
      }
      fifo := fifo[..k + 1] + fifo[k + 2..];
    }

    /** A waiter that timed out leaves, unless it has been taken off already. */
    method Remove(wr: WaitRecord) returns (found: bool)
      requires Valid()
      modifies this, fifo
      ensures Valid() && (found <==> wr in old(fifo)) && fifo == Without(old(fifo), wr)
    {
      hide Linked, Without, Distinct;
      LinkedDistinct(fifo);
      if wr == oldest {
        WithoutAt(fifo, 0);
        assert fifo[..0] + fifo[1..] == fifo[1..];
        var first := TakeOldest();
        found := true;
      } else {
        found := RemoveLater(wr);
      }
    }

    /** The search from the oldest record on. */
    method RemoveLater(wr: WaitRecord) returns (found: bool)
      requires Valid() && wr != oldest
      modifies this, fifo
      ensures Valid() && (found <==> wr in old(fifo)) && fifo == Without(old(fifo), wr)
    {
      hide Linked, Last;
      LinkedDistinct(fifo);
      var p := oldest;
      ghost var k := 0;
      while p != null
        invariant 0 <= k <= |fifo| && p == First(fifo[k..]) && Valid() && fifo == old(fifo)
        invariant wr !in fifo[..k] && wr != p
        decreases |fifo| - k
      {
        NextInList(fifo, k);
        if p.next == wr {
          WithoutAt(fifo, k + 1);
          Unlink(p, k);
          return true;
        }
        p := p.next;
        k := k + 1;
      }
      WithoutAbsent(fifo, wr);
      found := false;
    }

    /** wake_one(): the oldest waiter leaves; so does a timed-out one that is the oldest. */
    method TakeOldest() returns (wr: WaitRecord?)
      requires Valid()
      modifies this
      ensures Valid() && wr == First(old(fifo)) && fifo == if old(fifo) == [] then [] else old(fifo)[1..]
    {
      wr := oldest;
      if wr != null {
        NextInList(fifo, 0);
        TailLinked(fifo);
        oldest := wr.next;
        if wr.next == null {
          newest := null;
        }
        fifo := fifo[1..];
      }
    }

    /** wake_all(): all waiters leave, still linked to each other. */
    method TakeAll() returns (wr: WaitRecord?)
      requires Valid()
      modifies this
      ensures Valid() && fifo == [] && wr == First(old(fifo)) && Linked(old(fifo))
    {
      wr := oldest;
      oldest, newest, fifo := null, null, [];
    }
  }

  // -------------------------------------------------- the order of wake_all()

  /** The records of threads on one CPU, in order. */
  ghost function SameCpu(list: seq<WaitRecord>, cpu: nat): seq<WaitRecord> {
    if list == [] then []
    else SameCpu(list[..|list| - 1], cpu) + if list[|list| - 1].cpu == cpu then [list[|list| - 1]] else []
  }

  ghost function OtherCpu(list: seq<WaitRecord>, cpu: nat): seq<WaitRecord> {
    if list == [] then []
    else OtherCpu(list[..|list| - 1], cpu) + if list[|list| - 1].cpu != cpu then [list[|list| - 1]] else []
  }

  lemma {:induction false} OtherShorter(list: seq<WaitRecord>, cpu: nat)
    ensures |OtherCpu(list, cpu)| + |SameCpu(list, cpu)| == |list|
  {
    if list != [] {
      OtherShorter(list[..|list| - 1], cpu);
    }
  }

  lemma {:induction false} HeadOf(x: WaitRecord, list: seq<WaitRecord>, cpu: nat)
    ensures SameCpu([x] + list, cpu) == (if x.cpu == cpu then [x] else []) + SameCpu(list, cpu)
    ensures OtherCpu([x] + list, cpu) == (if x.cpu != cpu then [x] else []) + OtherCpu(list, cpu)
  {
    var all := [x] + list;
    if list == [] {
      assert all[..|all| - 1] == [];
    } else {
      assert all[..|all| - 1] == [x] + list[..|list| - 1];
      HeadOf(x, list[..|list| - 1], cpu);
    }
  }

  /** First all records of the oldest one's CPU, then the same again for the others. */
  ghost function Grouped(list: seq<WaitRecord>): seq<WaitRecord>
    decreases |list|
  {
    if list == [] then []
    else
      var cpu, rest := list[0].cpu, list[1..];
      OtherShorter(rest, cpu);
      [list[0]] + SameCpu(rest, cpu) + Grouped(OtherCpu(rest, cpu))
  }

  /** send_lock(): the record belongs to the mutex or to its woken thread now, and its link is anything. */
  method Send(r: WaitRecord)
    modifies r
  {
    r.next := *;
  }

  /** Where the records of a list stand once one of them, at k, is taken out. */
  function Later(k: nat, i: nat): nat {
    if i < k then i else i + 1
  }

  lemma WithoutRecord(kept: seq<WaitRecord>, r: WaitRecord, rest: seq<WaitRecord>, i: nat)
    requires Distinct(kept + [r] + rest) && i < |kept + rest|
    ensures (kept + rest)[i] == (kept + [r] + rest)[Later(|kept|, i)] != r
    ensures i + 1 == |kept| ==> Successor(kept + rest, i) == First(rest)
    ensures i + 1 != |kept| ==> Successor(kept + rest, i) == Successor(kept + [r] + rest, Later(|kept|, i))
    ensures i + 1 != |kept| ==> (kept + rest)[i] != Last(kept)
  {
    var links := kept + [r] + rest;
    assert links[|kept|] == r && Later(|kept|, i) != |kept|;
    assert kept != [] ==> links[|kept| - 1] == Last(kept);
  }

  lemma SplitLinks(kept: seq<WaitRecord>, r: WaitRecord, rest: seq<WaitRecord>)
    requires Linked(kept + [r] + rest)
    ensures Distinct(kept + rest) && r.next == First(rest) && r !in kept && r !in rest
    ensures r == First(kept + [r] + rest) <==> kept == []
    ensures forall i: nat :: i < |kept + rest| ==>
      var j := Later(|kept|, i); j < |kept + [r] + rest| && (kept + [r] + rest)[j].next == Successor(kept + [r] + rest, j)
  {
    var links := kept + [r] + rest;
    NextInList(links, |kept|);
    Apart(links, kept, r, rest);
    assert links[|kept| + 1..] == rest && links[..|kept|] + rest == kept + rest;
    DropDistinct(links, |kept|);
  }

  /** Send record r, which comes after the kept ones, and take it out of the list that starts at first. */
  method SendAndSkip(first: WaitRecord?, prev: WaitRecord?, r: WaitRecord, ghost kept: seq<WaitRecord>, ghost rest: seq<WaitRecord>)
    returns (next: WaitRecord?, nextR: WaitRecord?)
    requires Linked(kept + [r] + rest) && first == First(kept + [r] + rest) && prev == Last(kept)
    modifies r, if prev == null then {} else {prev}
    ensures Linked(kept + rest) && next == First(kept + rest) && nextR == First(rest)
  {
    hide Distinct, Successor, Later;
    ghost var links, list := kept + [r] + rest, kept + rest;
    SplitLinks(kept, r, rest);
    nextR := r.next;
    Send(r);
    next := first;
    if r == first {
      next := nextR;
    } else {
      prev.next := nextR;
    }
    forall i: nat | i < |list| ensures list[i].next == Successor(list, i) {
      WithoutRecord(kept, r, rest, i);
      assert list[i].next == if i + 1 == |kept| then First(rest) else old(links[Later(|kept|, i)].next);
    }
  }

  lemma Apart(links: seq<WaitRecord>, kept: seq<WaitRecord>, r: WaitRecord, rest: seq<WaitRecord>)
    requires links == kept + [r] + rest && Distinct(links)
    ensures r !in kept && r !in rest && (r == First(links) <==> kept == [])
  {
    forall i: nat | i < |kept| ensures kept[i] != r { assert links[i] == kept[i] && links[|kept|] == r; }
    forall i: nat | i < |rest| ensures rest[i] != r { assert links[|kept| + 1 + i] == rest[i] && links[|kept|] == r; }
  }

  /** The records kept so far, after one more. */
  function KeptWith(kept: seq<WaitRecord>, r: WaitRecord, cpu: nat): seq<WaitRecord> {
    if r.cpu == cpu then kept else kept + [r]
  }

  /** One turn of the inner loop of wake_all(), for record r; it may not be read once it is sent. */
  method SendTurn(first: WaitRecord?, prev: WaitRecord?, r: WaitRecord, cpu: nat,
                  ghost kept: seq<WaitRecord>, ghost rest: seq<WaitRecord>)
    returns (next: WaitRecord?, prev': WaitRecord?, nextR: WaitRecord?)
    requires Linked(kept + [r] + rest) && first == First(kept + [r] + rest) && prev == Last(kept)
    modifies r, if prev == null then {} else {prev}
    ensures nextR == First(rest) && Linked(KeptWith(kept, r, cpu) + rest)
    ensures next == First(KeptWith(kept, r, cpu) + rest) && prev' == Last(KeptWith(kept, r, cpu))
    ensures prev' == prev || prev' == r
  {
    hide Linked;
    if r.cpu == cpu {
      prev' := prev;
      next, nextR := SendAndSkip(first, prev, r, kept, rest);
    } else {
      NextInList(kept + [r] + rest, |kept|);
      assert (kept + [r] + rest)[|kept| + 1..] == rest;
      next, prev', nextR := first, r, r.next;
    }
  }

  /** The inner loop of wake_all(): send to the mutex what waits on this CPU, unlinking it. */
  method SendSameCpu(first: WaitRecord?, cpu: nat, ghost list: seq<WaitRecord>, ghost frame: set<WaitRecord>)
    returns (next: WaitRecord?, sent: seq<WaitRecord>)
    requires Linked(list) && first == First(list) && forall x :: x in list ==> x in frame
    modifies frame
    ensures sent == SameCpu(list, cpu)
    ensures next == First(OtherCpu(list, cpu)) && Linked(OtherCpu(list, cpu))
  {
    hide Linked, First, Last, SameCpu, OtherCpu, KeptWith;
    next, sent := first, [];
    var prev: WaitRecord? := null;
    var r := next;
    ghost var k := 0;
    assert list[k..] == list && [] + list == list;
    Nothing(list, cpu);
    while r != null
      invariant 0 <= k <= |list| && r == First(list[k..]) && sent == SameCpu(list[..k], cpu)
      invariant Linked(OtherCpu(list[..k], cpu) + list[k..]) && next == First(OtherCpu(list[..k], cpu) + list[k..])
      invariant prev == Last(OtherCpu(list[..k], cpu)) && (prev == null || prev in frame)
      decreases |list| - k
    {
      ghost var kept := OtherCpu(list[..k], cpu);
      AtFirst(list, k, kept);
      ghost var rest := list[k + 1..];
      OneMore(list, k, cpu);
      if r.cpu == cpu {
        sent := sent + [r];
      }
      next, prev, r := SendTurn(next, prev, r, cpu, kept, rest);
      k := k + 1;
    }
    AtFirst(list, k, []);
    assert list[..k] == list && OtherCpu(list, cpu) + list[k..] == OtherCpu(list, cpu);
  }

  lemma AtFirst(list: seq<WaitRecord>, k: nat, kept: seq<WaitRecord>)
    requires k <= |list|
    ensures First(list[k..]) == null <==> k == |list|
    ensures k < |list| ==> First(list[k..]) == list[k] && kept + list[k..] == kept + [list[k]] + list[k + 1..]
  {}

  lemma Nothing(list: seq<WaitRecord>, cpu: nat)
    ensures Last([]) == null && SameCpu(list[..0], cpu) == [] && OtherCpu(list[..0], cpu) == []
  {}

  lemma OneMore(list: seq<WaitRecord>, k: nat, cpu: nat)
    requires k < |list|
    ensures SameCpu(list[..k + 1], cpu) == SameCpu(list[..k], cpu) + if list[k].cpu == cpu then [list[k]] else []
    ensures OtherCpu(list[..k + 1], cpu) == KeptWith(OtherCpu(list[..k], cpu), list[k], cpu)
  {
    assert list[..k + 1][..k] == list[..k];
  }

  lemma {:induction false} OtherFrom(list: seq<WaitRecord>, cpu: nat, x: WaitRecord)
    ensures x in OtherCpu(list, cpu) <==> x in list && x.cpu != cpu
    ensures x in SameCpu(list, cpu) <==> x in list && x.cpu == cpu
  {
    if list != [] {
      OtherFrom(list[..|list| - 1], cpu, x);
      assert list == list[..|list| - 1] + [list[|list| - 1]];
    }
  }

  /** The loops of wake_all() over a detached list: the order in which the records are sent to the mutex. */
  method SendAll(first: WaitRecord?, ghost list: seq<WaitRecord>) returns (sent: seq<WaitRecord>)
    requires Linked(list) && first == First(list)
    modifies list
    ensures sent == Grouped(list)
  {
    hide Linked, SameCpu, OtherCpu;
    var wr := first;
    sent := [];
    ghost var rest, frame := list, set x | x in list;
    while wr != null
      invariant Linked(rest) && wr == First(rest) && forall x :: x in rest ==> x in frame && x in list
      invariant sent + Grouped(rest) == Grouped(list)
      decreases |rest|
    {
      ghost var tail := rest[1..];
      NextInList(rest, 0);
      TailLinked(rest);
      var next, cpu := wr.next, wr.cpu;
      sent := sent + [wr];
      assert rest == [] + [wr] + tail;
      LinkedDistinct(rest);
      Apart(rest, [], wr, tail);
      assert wr in rest && wr in list;
      Send(wr);
      var more;
      next, more := SendSameCpu(next, cpu, tail, frame);
      sent := sent + more;
      wr := next;
      OtherShorter(tail, cpu);
      forall x | x in OtherCpu(tail, cpu) ensures x in frame && x in list {
        OtherFrom(tail, cpu, x);
      }
      rest := OtherCpu(tail, cpu);
    }
  }

  lemma {:induction false} SplitPermutes(list: seq<WaitRecord>, cpu: nat)
    ensures multiset(SameCpu(list, cpu)) + multiset(OtherCpu(list, cpu)) == multiset(list)
  {
    if list != [] {
      var init, x := list[..|list| - 1], list[|list| - 1];
      SplitPermutes(init, cpu);
      assert list == init + [x];
      OneMorePermutes(init, x, SameCpu(init, cpu), OtherCpu(init, cpu));
    }
  }

  lemma OneMorePermutes(init: seq<WaitRecord>, x: WaitRecord, a: seq<WaitRecord>, b: seq<WaitRecord>)
    requires multiset(a) + multiset(b) == multiset(init)
    ensures multiset(a + [x]) + multiset(b + []) == multiset(init + [x])
    ensures multiset(a + []) + multiset(b + [x]) == multiset(init + [x])
  {
    assert a + [] == a && b + [] == b;
    assert multiset(a + [x]) == multiset(a) + multiset{x} && multiset(b + [x]) == multiset(b) + multiset{x};
    assert multiset(init + [x]) == multiset(init) + multiset{x};
  }

  lemma Assemble(x: WaitRecord, same: seq<WaitRecord>, others: seq<WaitRecord>, g: seq<WaitRecord>, rest: seq<WaitRecord>)
    requires multiset(same) + multiset(others) == multiset(rest) && multiset(g) == multiset(others)
    ensures multiset([x] + same + g) == multiset([x] + rest)
  {
    assert multiset([x] + same + g) == multiset([x]) + multiset(same) + multiset(g);
    assert multiset([x] + rest) == multiset([x]) + multiset(rest);
  }

  /** Every detached waiter is sent to the mutex exactly once. */
  lemma {:induction false} GroupedPermutes(list: seq<WaitRecord>)
    ensures multiset(Grouped(list)) == multiset(list)
    decreases |list|
  {
    hide SameCpu, OtherCpu;
    if list != [] {
      var cpu, rest := list[0].cpu, list[1..];
      OtherShorter(rest, cpu);
      var same, others := SameCpu(rest, cpu), OtherCpu(rest, cpu);
      GroupedPermutes(others);
      SplitPermutes(rest, cpu);
      Assemble(list[0], same, others, Grouped(others), rest);
      assert list == [list[0]] + rest;
    }
  }

  lemma {:induction false} SameCpuConcat(a: seq<WaitRecord>, b: seq<WaitRecord>, cpu: nat)
    ensures SameCpu(a + b, cpu) == SameCpu(a, cpu) + SameCpu(b, cpu)
  {
    if b == [] {
      assert a + b == a;
    } else {
      assert (a + b)[..|a + b| - 1] == a + b[..|b| - 1];
      SameCpuConcat(a, b[..|b| - 1], cpu);
    }
  }

  lemma {:induction false} SameOfSame(list: seq<WaitRecord>, cpu: nat, c: nat)
    ensures SameCpu(SameCpu(list, cpu), c) == if c == cpu then SameCpu(list, cpu) else []
    ensures SameCpu(OtherCpu(list, cpu), c) == if c == cpu then [] else SameCpu(list, c)
  {
    if list != [] {
      var init, last := list[..|list| - 1], list[|list| - 1];
      SameOfSame(init, cpu, c);
      SameCpuConcat(SameCpu(init, cpu), if last.cpu == cpu then [last] else [], c);
      SameCpuConcat(OtherCpu(init, cpu), if last.cpu != cpu then [last] else [], c);
      One(last, c);
    }
  }

  lemma One(x: WaitRecord, c: nat)
    ensures SameCpu([x], c) == if x.cpu == c then [x] else []
  {
    assert [x][..0] == [];
  }

  /** On each CPU they are sent in the order in which they began to wait. */
  lemma {:induction false} GroupedKeepsOrder(list: seq<WaitRecord>, c: nat)
    ensures SameCpu(Grouped(list), c) == SameCpu(list, c)
    decreases |list|
  {
    hide SameCpu, OtherCpu;
    if list != [] {
      var x, cpu, rest := list[0], list[0].cpu, list[1..];
      OtherShorter(rest, cpu);
      GroupedKeepsOrder(OtherCpu(rest, cpu), c);
      SameOfSame(rest, cpu, c);
      SameCpuConcat([x] + SameCpu(rest, cpu), Grouped(OtherCpu(rest, cpu)), c);
      SameCpuConcat([x], SameCpu(rest, cpu), c);
      One(x, c);
      HeadOf(x, rest, c);
      assert list == [x] + rest;
    }
  }

  /** Waiters on one CPU are sent one right after the other. */
  lemma {:induction false} GroupedTogether(list: seq<WaitRecord>, i: nat, j: nat, k: nat)
    requires i <= j <= k < |Grouped(list)| && Grouped(list)[i].cpu == Grouped(list)[k].cpu
    ensures Grouped(list)[j].cpu == Grouped(list)[i].cpu
    decreases |list|
  {
    if list != [] {
      var cpu, rest := list[0].cpu, list[1..];
      var others := OtherCpu(rest, cpu);
      OtherShorter(rest, cpu);
      var head := [list[0]] + SameCpu(rest, cpu);
      var g := Grouped(list);
      forall m | 0 <= m < |head| ensures g[m].cpu == cpu {
        if m > 0 { OtherFrom(rest, cpu, g[m]); }
      }
      forall m | |head| <= m < |g| ensures g[m].cpu != cpu {
        GroupedFrom(others, g[m]);
        OtherFrom(rest, cpu, g[m]);
      }
      if i >= |head| {
        GroupedTogether(others, i - |head|, j - |head|, k - |head|);
      }
    }
  }

  lemma GroupedFrom(list: seq<WaitRecord>, x: WaitRecord)
    ensures x in Grouped(list) <==> x in list
  {
    GroupedPermutes(list);
    assert x in multiset(Grouped(list)) <==> x in multiset(list);
  }
}
