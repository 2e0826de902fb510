/**
  The list of virtual memory areas and the set of all registered ranges of
  core/mmu.cc, and the operations that change both.
 */
module AddrSpace {
  import opened Holes
  import opened VmaList
  import opened TornAreas

  // ------------------------------------------------------ registered ranges

  function SpanOf(v: Vma): Span { Span(v.start, v.end) }

  function Spans(vmas: seq<Vma>): set<Span> {
    set i | 0 <= i < |vmas| :: SpanOf(vmas[i])
  }

  lemma SpansConcat(a: seq<Vma>, b: seq<Vma>)
    ensures Spans(a + b) == Spans(a) + Spans(b)
  {
    forall s ensures s in Spans(a + b) <==> s in Spans(a) || s in Spans(b) {
      if s in Spans(a) {
        var i :| 0 <= i < |a| && s == SpanOf(a[i]);
        assert (a + b)[i] == a[i];
      }
      if s in Spans(b) {
        var i :| 0 <= i < |b| && s == SpanOf(b[i]);
        assert (a + b)[|a| + i] == b[i];
      }
    }
  }

  /** A linear mapping and an area have no address and no start in common. */
  predicate Away(l: Span, v: Vma) {
    l.start <= l.end && l.start != v.start && (l.end <= v.start || v.end <= l.start)
  }

  ghost predicate Apart(linear: set<Span>, vmas: seq<Vma>) {
    forall l, i :: l in linear && 0 <= i < |vmas| ==> Away(l, vmas[i])
  }

  lemma ReplaceApart(linear: set<Span>, vmas: seq<Vma>, i: nat, pieces: seq<Vma>)
    requires Apart(linear, vmas) && i < |vmas| && Pieces(vmas[i], pieces)
    ensures Apart(linear, Replace(vmas, i, pieces))
  {
    hide InOrder;
    var r := Replace(vmas, i, pieces);
    forall l, k | l in linear && 0 <= k < |r| ensures Away(l, r[k]) {
      assert Away(l, vmas[i]);
      var m := i + |pieces|;
      assert k >= m ==> r[k] == vmas[k - m + i + 1];
      assert i <= k < m ==> r[k] == pieces[k - i];
    }
  }

  /** The ranges of the list are as before but for those of the area replaced. */
  lemma ReplaceSpans(linear: set<Span>, vmas: seq<Vma>, i: nat, pieces: seq<Vma>)
    requires InOrder(vmas) && Apart(linear, vmas) && i < |vmas|
    ensures linear + Spans(Replace(vmas, i, pieces)) ==
              (linear + Spans(vmas) - {SpanOf(vmas[i])}) + Spans(pieces)
  {
    var a, v, b := vmas[..i], vmas[i], vmas[i + 1..];
    assert vmas == a + [v] + b;
    SpansConcat(a + [v], b);
    SpansConcat(a, [v]);
    SpansConcat(a + pieces, b);
    SpansConcat(a, pieces);
    SpanOfOne(v);
    assert SpanOf(v) !in linear && SpanOf(v) !in Spans(a) && SpanOf(v) !in Spans(b);
  }

  lemma SpanOfOne(v: Vma)
    ensures Spans([v]) == {SpanOf(v)}
  {
    assert [v][0] == v;
  }

  /** Insertion into the set ordered by start: one with the same start stays. */
  function AddRange(ranges: set<Span>, s: Span): set<Span> {
    if exists r :: r in ranges && r.start == s.start then ranges else ranges + {s}
  }

  /** Removal by start. */
  function DropRange(ranges: set<Span>, start: nat): set<Span> {
    set r | r in ranges && r.start != start
  }

  /** An area in the set changes its end. */
  function SetEnd(ranges: set<Span>, s: Span, end: nat): set<Span> {
    if s in ranges then ranges - {s} + {Span(s.start, end)} else ranges
  }

  /** Removing by the start of an area removes its range and no other. */
  lemma DropsOne(linear: set<Span>, vmas: seq<Vma>, i: nat)
    requires InOrder(vmas) && Apart(linear, vmas) && i < |vmas|
    ensures DropRange(linear + Spans(vmas), vmas[i].start) == linear + Spans(vmas) - {SpanOf(vmas[i])}
  {
    forall r | r in linear + Spans(vmas) ensures r.start == vmas[i].start <==> r == SpanOf(vmas[i]) {
      if r in Spans(vmas) {
        var k: nat :| k < |vmas| && r == SpanOf(vmas[k]);
        SameStart(vmas, i, k);
      }
    }
  }

  lemma SameStart(vmas: seq<Vma>, i: nat, k: nat)
    requires InOrder(vmas) && i < |vmas| && k < |vmas|
    ensures vmas[i].start == vmas[k].start <==> i == k
    ensures !(vmas[i].start < vmas[k].start < vmas[i].end)
  {}

  /** A start strictly inside an area is new to the set. */
  lemma AddsOne(linear: set<Span>, vmas: seq<Vma>, i: nat, ranges: set<Span>, s: Span)
    requires InOrder(vmas) && Apart(linear, vmas) && i < |vmas|
    requires forall r :: r in ranges ==> r in linear + Spans(vmas) || r.start == vmas[i].start
    requires vmas[i].start < s.start < vmas[i].end
    ensures AddRange(ranges, s) == ranges + {s}
  {
    forall r | r in ranges ensures r.start != s.start {
      if r in Spans(vmas) {
        var k: nat :| k < |vmas| && r == SpanOf(vmas[k]);
        SameStart(vmas, i, k);
      }
    }
  }

  lemma InSpans(vmas: seq<Vma>, i: nat)
    requires i < |vmas|
    ensures SpanOf(vmas[i]) in Spans(vmas)
  {}

  lemma TwoSpans(v: Vma, w: Vma)
    ensures Spans([v, w]) == {SpanOf(v), SpanOf(w)}
  {
    assert [v, w][0] == v && [v, w][1] == w;
  }

  // ---------------------------------------------------- the set in order

  /** Ranges with distinct starts and without common addresses. */
  ghost predicate Disjoint(ranges: set<Span>) {
    && (forall a :: a in ranges ==> a.start <= a.end)
    && forall a, b :: a in ranges && b in ranges && a != b ==>
         a.start != b.start && (a.end <= b.start || b.end <= a.start)
  }

  lemma {:induction false} LeastStart(ranges: set<Span>) returns (m: Span)
    requires ranges != {}
    ensures m in ranges && forall r :: r in ranges ==> m.start <= r.start
  {
    m :| m in ranges;
    if r :| r in ranges && r.start < m.start {
      assert r in ranges - {m};
      var least := LeastStart(ranges - {m});
      assert least.start <= r.start;
      m := least;
    }
  }

  ghost predicate Before(s: seq<Span>, rest: set<Span>) {
    forall i, r :: 0 <= i < |s| && r in rest ==> s[i].start < r.start && s[i].end <= r.start
  }

  lemma LeastIsBefore(rest: set<Span>, m: Span, r: Span)
    requires Disjoint(rest) && m in rest && r in rest && m != r && m.start <= r.start
    ensures m.start < r.start && m.end <= r.start
  {}

  lemma AppendOrdered(s: seq<Span>, m: Span)
    requires Ordered(s) && m.start <= m.end
    requires forall i :: 0 <= i < |s| ==> s[i].start < m.start && s[i].end <= m.start
    ensures Ordered(s + [m])
  {}

  lemma DisjointSubset(ranges: set<Span>, m: Span)
    requires Disjoint(ranges) && m in ranges
    ensures Disjoint(ranges - {m}) && m.start <= m.end
  {}

  lemma AppendLeast(s: seq<Span>, rest: set<Span>, m: Span)
    requires Ordered(s) && Before(s, rest) && Disjoint(rest)
    requires m in rest && forall r :: r in rest ==> m.start <= r.start
    ensures Ordered(s + [m]) && Before(s + [m], rest - {m}) && Disjoint(rest - {m})
  {
    hide Ordered, Disjoint;
    DisjointSubset(rest, m);
    AppendOrdered(s, m);
    forall r | r in rest - {m} ensures m.start < r.start && m.end <= r.start {
      LeastIsBefore(rest, m, r);
    }
  }

  /** The set as its iterators run through it. */
  method InStartOrder(ranges: set<Span>) returns (s: seq<Span>)
    requires Disjoint(ranges)
    ensures Ordered(s) && forall r :: r in s <==> r in ranges
  {
    hide Ordered, Before, Disjoint;
    s := [];
    var rest := ranges;
    NothingBefore(rest);
    while rest != {}
      invariant Ordered(s) && Before(s, rest) && Disjoint(rest)
      invariant forall r :: r in ranges <==> r in s || r in rest
    {
      ghost var least := LeastStart(rest);
      var m :| m in rest && forall r :: r in rest ==> m.start <= r.start;
      AppendLeast(s, rest, m);
      s := s + [m];
      rest := rest - {m};
    }
  }

  lemma NothingBefore(rest: set<Span>)
    ensures Ordered([]) && Before([], rest)
  {}

  // --------------------------------------------------------- consistency

  /** The list is in order and mirrored in the set of ranges. */
  ghost predicate Consistent(vmas: seq<Vma>, ranges: set<Span>, linear: set<Span>) {
    ListOk(vmas) && Apart(linear, vmas) && ranges == linear + Spans(vmas)
  }

  /** Replacing an area that is no edge marker. */
  lemma ReplaceConsistent(vmas: seq<Vma>, ranges: set<Span>, linear: set<Span>, i: nat, pieces: seq<Vma>)
    requires Consistent(vmas, ranges, linear) && 0 < i < |vmas| - 1 && Pieces(vmas[i], pieces)
    ensures Consistent(Replace(vmas, i, pieces), (ranges - {SpanOf(vmas[i])}) + Spans(pieces), linear)
  {
    hide InOrder, NonEmpty, Apart, Spans, Pieces, NonEmpty;
    ReplaceInOrder(vmas, i, pieces);
    ReplaceNonEmpty(vmas, i, pieces);
    ReplaceApart(linear, vmas, i, pieces);
    ReplaceSpans(linear, vmas, i, pieces);
  }

  lemma ReplaceNonEmpty(vmas: seq<Vma>, i: nat, pieces: seq<Vma>)
    requires 0 < i < |vmas| - 1 && NonEmpty(vmas, 1, |vmas| - 1) && Pieces(vmas[i], pieces)
    ensures var r := Replace(vmas, i, pieces); NonEmpty(r, 1, |r| - 1)
  {
    hide InOrder;
    var r := Replace(vmas, i, pieces);
    forall k | 1 <= k < |r| - 1 ensures r[k].start < r[k].end {
      var m := i + |pieces|;
      assert k >= m ==> r[k] == vmas[k - m + i + 1];
      assert i <= k < m ==> r[k] == pieces[k - i];
    }
  }

  /** List and set agree after a split at a page boundary. */
  lemma SplitConsistent(vmas: seq<Vma>, ranges: set<Span>, linear: set<Span>, i: nat, edge: nat)
    requires Consistent(vmas, ranges, linear) && i < |vmas| && Aligned(edge) && Splits(vmas[i], edge)
    ensures var v := vmas[i]; var n := Vma(AlignDown(edge), AlignUp(v.end), v.perm, v.flags);
            Consistent(SplitAt(vmas, i, edge), AddRange(SetEnd(ranges, SpanOf(v), AlignUp(edge)), SpanOf(n)), linear)
  {
    hide InOrder, NonEmpty, Apart, Spans, Pieces, Aligned;
    SplitPieces(vmas, i, edge);
    AlignedEnds(vmas, i);
    AlignedFixed(edge);
    var v := vmas[i];
    var lo, hi := v.(end := edge), v.(start := edge);
    ReplaceConsistent(vmas, ranges, linear, i, [lo, hi]);
    TwoSpans(lo, hi);
    InSpans(vmas, i);
    AddsOne(linear, vmas, i, SetEnd(ranges, SpanOf(v), edge), SpanOf(hi));
  }

  lemma EraseConsistent(vmas: seq<Vma>, ranges: set<Span>, linear: set<Span>, i: nat)
    requires Consistent(vmas, ranges, linear) && 0 < i < |vmas| - 1
    ensures Consistent(Replace(vmas, i, []), DropRange(ranges, vmas[i].start), linear)
  {
    hide InOrder, NonEmpty, Apart, Spans, DropRange;
    NoPieces(vmas[i]);
    NoSpans();
    ReplaceConsistent(vmas, ranges, linear, i, []);
    DropsOne(linear, vmas, i);
  }

  lemma SetPermConsistent(vmas: seq<Vma>, ranges: set<Span>, linear: set<Span>, i: nat, perm: nat)
    requires Consistent(vmas, ranges, linear) && 0 < i < |vmas| - 1
    ensures Consistent(Replace(vmas, i, [vmas[i].(perm := perm)]), ranges, linear)
  {
    hide InOrder, NonEmpty, Apart, Spans;
    var v := vmas[i].(perm := perm);
    OnePiece(vmas, i, perm);
    ReplaceConsistent(vmas, ranges, linear, i, [v]);
    SpanOfOne(v);
    InSpans(vmas, i);
    assert (ranges - {SpanOf(vmas[i])}) + Spans([v]) == ranges;
  }

  lemma {:induction false} InsertGrows(vmas: seq<Vma>, v: Vma)
    ensures |InsertVma(vmas, v)| >= |vmas|
  {
    if vmas != [] {
      InsertGrows(vmas[1..], v);
    }
  }

  lemma SplitGrows(vmas: seq<Vma>, i: nat, edge: nat)
    requires i < |vmas|
    ensures |SplitAt(vmas, i, edge)| >= |vmas|
  {
    var v := vmas[i];
    InsertGrows(vmas[i := v.(start := AlignDown(v.start), end := AlignUp(edge))], Vma(AlignDown(edge), AlignUp(v.end), v.perm, v.flags));
  }

  // ----------------------------------------------------------- evacuation

  /** The area in hand is erased in this turn. */
  predicate Evacuates(vmas: seq<Vma>, i: nat, start: nat, end: nat)
    requires i < |vmas|
  {
    var r := SplitTwice(vmas, i, start, end);
    i < |r| && Contained(r[i], start, end)
  }

  /** One turn of the loop in evacuate(). */
  function EvacList(vmas: seq<Vma>, i: nat, start: nat, end: nat): seq<Vma>
    requires i < |vmas|
  {
    var r := SplitTwice(vmas, i, start, end);
    if i < |r| then Replace(r, i, Apply(r[i], start, end, Unmap)) else r
  }

  /** What holds in the loop; `done` once the upper edge marker is erased. */
  ghost predicate EvacInv(was: seq<Vma>, second: nat, start: nat, end: nat, vmas: seq<Vma>, i: nat, stop: nat, done: bool) {
    && start < end && start <= UPPER_VMA_LIMIT && Aligned(start) && Aligned(end) && second <= |was|
    && if done then
         && 0 < start && UPPER_VMA_LIMIT < end && i == stop == |vmas| && ListOk(vmas + [UPPER_EDGE])
         && ChangedUpTo(was, vmas, start, end, Unmap, UPPER_VMA_LIMIT) && Misses(vmas, start, end)
       else
         && ListOk(vmas) && i <= stop <= |vmas| && i < |vmas| && (stop == |vmas| <==> UPPER_VMA_LIMIT < end)
         && vmas[stop..] == was[second..] && Misses(was[second..], start, end) && (second < |was| ==> end <= was[second].start)
         && ChangedUpTo(was, vmas, start, end, Unmap, vmas[i].start) && Misses(vmas[..i], start, end)
         && (if start == 0 then i == 0 < stop && vmas == was else 0 < i)
  }

  lemma EvacStart(was: seq<Vma>, start: nat, end: nat)
    requires ListOk(was) && OnTheList(was, start, end) && Aligned(start) && Aligned(end)
    ensures var (first, second) := Intersecting(was, start, end);
            if first == second then
              && (start < end ==> end <= UPPER_VMA_LIMIT && 0 < start && Misses(was, start, end))
              && forall x: nat :: start <= x < end ==> Lookup(was, x) == None
            else EvacInv(was, second, start, end, was, first, second, false)
  {
    hide InOrder, NonEmpty, Aligned, ChangedUpTo, Intersecting, OnTheList;
    var (first, second) := Intersecting(was, start, end);
    OnTheListIff(was, start, end);
    FirstChanged(was, start, end, Unmap);
    SliceMisses(was, start, end);
    if first == second {
      if start < end {
        IntersectingExact(was, start, end, 0);
      }
      NothingThere(was, start, end);
    }
  }

  lemma NothingThere(was: seq<Vma>, start: nat, end: nat)
    requires ListOk(was) && ChangedUpTo(was, was, start, end, Unmap, UPPER_VMA_LIMIT) && (end <= start || end <= UPPER_VMA_LIMIT)
    ensures forall x: nat :: start <= x < end ==> Lookup(was, x) == None
  {}

  /** The list around the area in hand after a turn. */
  lemma EvacShape(vmas: seq<Vma>, i: nat, stop: nat, start: nat, end: nat)
    requires InOrder(vmas) && i < stop <= |vmas| && i + 1 < |vmas| && Aligned(start) && Aligned(end) && start < end
    ensures var now := SplitTwice(vmas, i, start, end); var r := EvacList(vmas, i, start, end);
            && |r| + 1 >= |vmas| && |now| >= |vmas| && i + 1 < |now| && r[..i] == vmas[..i] && r[stop + |r| - |vmas|..] == vmas[stop..]
            && vmas[i].start < now[i + 1].start
            && if Evacuates(vmas, i, start, end) then i < |r| && r[i] == now[i + 1]
               else i + 1 < |r| && r[i + 1] == now[i + 1] && !Meets(r[i], start, end)
  {
    hide Aligned, SplitTwice, InOrder, Meets, Replace;
    SplitTwiceFacts(vmas, i, start, end);
    var now := SplitTwice(vmas, i, start, end);
    AreaInOrder(now, i);
    if !Contained(now[i], start, end) {
      NotMet(now[i], start, end);
    }
    NextStarts(now, i);
    TailAfter(vmas, now, i, stop);
    EraseTail(now, i, stop + |now| - |vmas|);
    ReplaceItself(now, i);
  }

  lemma NotMet(v: Vma, start: nat, end: nat)
    requires v.start <= v.end && (v.end <= start || end <= v.start) && start < end && !Contained(v, start, end)
    ensures !Meets(v, start, end)
  {}

  lemma ReplaceItself(vmas: seq<Vma>, i: nat)
    requires i < |vmas|
    ensures Replace(vmas, i, [vmas[i]]) == vmas
  {}

  lemma TailAfter(vmas: seq<Vma>, now: seq<Vma>, i: nat, stop: nat)
    requires |now| >= |vmas| && i < stop <= |vmas| && now[i + 1 + |now| - |vmas|..] == vmas[i + 1..]
    ensures now[stop + |now| - |vmas|..] == vmas[stop..]
  {
    assert now[stop + |now| - |vmas|..] == now[i + 1 + |now| - |vmas|..][stop - i - 1..];
  }

  lemma EraseTail(now: seq<Vma>, i: nat, k: nat)
    requires i < k <= |now|
    ensures var r := Replace(now, i, []); |r| == |now| - 1 && r[k - 1..] == now[k..] && r[..i] == now[..i]
    ensures i + 1 < |now| ==> Replace(now, i, [])[i] == now[i + 1]
  {}

  lemma AreaInOrder(vmas: seq<Vma>, i: nat)
    requires InOrder(vmas) && i < |vmas|
    ensures vmas[i].start <= vmas[i].end
  {}

  /** A turn at an area that is no edge marker. */
  lemma EvacTurn(was: seq<Vma>, second: nat, start: nat, end: nat, vmas: seq<Vma>, i: nat, stop: nat)
    requires EvacInv(was, second, start, end, vmas, i, stop, false) && i < stop && 0 < i < |vmas| - 1
    ensures var r := EvacList(vmas, i, start, end); var i' := if Evacuates(vmas, i, start, end) then i else i + 1;
            && i' < |r| && |r| + 1 >= |vmas| && vmas[i].start < r[i'].start
            && (ListOk(r) ==> EvacInv(was, second, start, end, r, i', stop + |r| - |vmas|, false))
  {
    hide ListOk, Aligned, ChangedUpTo, SplitTwice, Meets, Evacuates;
    InTheList(vmas);
    TurnChanged(was, vmas, i, start, end, Unmap);
    EvacShape(vmas, i, stop, start, end);
    hide EvacList;
    var r := EvacList(vmas, i, start, end);
    if !Evacuates(vmas, i, start, end) {
      assert r[..i + 1] == r[..i] + [r[i]];
    }
  }

  lemma NextStarts(vmas: seq<Vma>, i: nat)
    requires InOrder(vmas) && i + 1 < |vmas|
    ensures vmas[i].start < vmas[i + 1].start
  {}

  /** Neither edge marker can be split, and both are inside as soon as the range reaches them. */
  lemma EvacMarker(vmas: seq<Vma>, i: nat, start: nat, end: nat)
    requires ListOk(vmas) && start < end && start <= UPPER_VMA_LIMIT
    requires (i == 0 && start == 0) || (i == |vmas| - 1 && UPPER_VMA_LIMIT < end)
    ensures Evacuates(vmas, i, start, end) && EvacList(vmas, i, start, end) == vmas[..i] + vmas[i + 1..]
  {
    hide SplitAt, InOrder, NonEmpty;
    NoSplit(vmas, i, end);
    NoSplit(vmas, i, start);
  }

  lemma WithoutUpper(was: seq<Vma>, vmas: seq<Vma>, start: nat, end: nat)
    requires ListOk(was) && ListOk(vmas) && ChangedUpTo(was, vmas, start, end, Unmap, UPPER_VMA_LIMIT)
    ensures var r := vmas[..|vmas| - 1]; ListOk(r + [UPPER_EDGE]) && ChangedUpTo(was, r, start, end, Unmap, UPPER_VMA_LIMIT)
  {
    hide InOrder, NonEmpty;
    var r := vmas[..|vmas| - 1];
    assert vmas == r + [UPPER_EDGE];
    forall x: nat ensures Lookup(r, x) == Lookup(vmas, x) {
      LookupConcat(r, [UPPER_EDGE], x);
    }
  }

  /** A turn of the loop, wherever it is. */
  lemma EvacTurnInv(was: seq<Vma>, second: nat, start: nat, end: nat, vmas: seq<Vma>, i: nat, stop: nat)
    requires ListOk(was) && EvacInv(was, second, start, end, vmas, i, stop, false) && i != stop
    ensures i < stop <= |vmas| && i < |vmas| && Aligned(start) && Aligned(end) && (start > 0 ==> i > 0)
    ensures var r := EvacList(vmas, i, start, end); var i' := i + if Evacuates(vmas, i, start, end) then 0 else 1;
            && |r| + 1 >= |vmas|
            && (start == 0 ==> i == i' == 0 && vmas == was && r == was[1..])
            && (start > 0 && i < |vmas| - 1 ==> 0 < i' < |r| && vmas[i].start < r[i'].start)
            && (start > 0 && i < |vmas| - 1 && ListOk(r) ==> EvacInv(was, second, start, end, r, i', stop + |r| - |vmas|, false))
            && (start > 0 && i == |vmas| - 1 ==> 0 < i' == stop + |r| - |vmas| && EvacInv(was, second, start, end, r, i', stop + |r| - |vmas|, true))
  {
    hide ListOk, Aligned, ChangedUpTo, SplitTwice, Meets, EvacList, Evacuates;
    ListHasEdges(vmas);
    if start == 0 {
      EvacMarker(vmas, 0, start, end);
    } else if i < |vmas| - 1 {
      EvacTurn(was, second, start, end, vmas, i, stop);
    } else {
      EvacMarker(vmas, i, start, end);
      UpperAtEnd(vmas);
      WithoutUpper(was, vmas, start, end);
      assert vmas[..i] + vmas[i + 1..] == vmas[..i];
    }
  }

  lemma EvacBounds(was: seq<Vma>, second: nat, start: nat, end: nat, vmas: seq<Vma>, i: nat, stop: nat)
    requires EvacInv(was, second, start, end, vmas, i, stop, false)
    ensures i < |vmas| && vmas[i].start <= UPPER_VMA_LIMIT && start < end && start <= UPPER_VMA_LIMIT && (i == stop ==> start > 0)
  {
    hide ChangedUpTo, Misses, Aligned, NonEmpty;
    if i < |vmas| - 1 {
      assert vmas[i].start < vmas[|vmas| - 1].start;
    }
  }

  lemma WithoutLower(vmas: seq<Vma>)
    requires ListOk(vmas)
    ensures !ListOk(vmas[1..])
  {
    assert vmas[0].start < vmas[1].start;
    assert vmas[1..][0] == vmas[1];
  }

  lemma UpperAtEnd(vmas: seq<Vma>)
    requires ListOk(vmas)
    ensures vmas[|vmas| - 1] == UPPER_EDGE
  {}

  lemma EvacEnd(was: seq<Vma>, second: nat, start: nat, end: nat, vmas: seq<Vma>, i: nat, done: bool)
    requires ListOk(was) && EvacInv(was, second, start, end, vmas, i, i, done) && start > 0
    ensures forall x: nat :: Lookup(vmas, x) == if start <= x < end then None else Lookup(was, x)
    ensures Misses(vmas, start, end) && (done <==> UPPER_VMA_LIMIT < end)
    ensures done ==> ListOk(vmas + [UPPER_EDGE]) && !ListOk(vmas)
  {
    hide Aligned, Meets, InOrder, NonEmpty;
    if done {
      forall x: nat ensures Lookup(vmas, x) == if start <= x < end then None else Lookup(was, x) {
        if Lookup(was, x).Some? {
          LookupBounds(was, x);
        }
      }
      OneUpper(vmas);
    } else {
      assert vmas[i] == vmas[i..][0] == was[second];
      AllChanged(was, vmas, start, end, Unmap, vmas[i].start);
      assert vmas == vmas[..i] + vmas[i..];
    }
  }

  lemma OneUpper(vmas: seq<Vma>)
    requires ListOk(vmas + [UPPER_EDGE])
    ensures !ListOk(vmas)
  {
    var full := vmas + [UPPER_EDGE];
    if vmas != [] {
      assert full[|vmas| - 1].start < full[|vmas|].start;
    }
  }

  // ------------------------------------------------------------ insertion

  /** An area that fits between the listed ones. */
  ghost predicate Fits(vmas: seq<Vma>, v: Vma) {
    && 0 < v.start < v.end <= UPPER_VMA_LIMIT && Aligned(v.start) && Aligned(v.end)
    && Misses(vmas, v.start, v.end)
  }

  /** An area away from all linear mappings. */
  ghost predicate AwayFromAll(linear: set<Span>, v: Vma) {
    forall l :: l in linear ==> Away(l, v)
  }

  function InsertedAt(vmas: seq<Vma>, k: nat, v: Vma): seq<Vma>
    requires k <= |vmas|
  {
    vmas[..k] + [v] + vmas[k..]
  }

  lemma FitsBetween(vmas: seq<Vma>, v: Vma, k: nat)
    requires ListOk(vmas) && Fits(vmas, v) && k == LowerBoundVma(vmas, v.start)
    ensures 0 < k < |vmas|
    ensures forall i :: 0 <= i < k ==> vmas[i].start < v.start && vmas[i].end <= v.start
    ensures forall i :: k <= i < |vmas| ==> v.start < vmas[i].start && v.end <= vmas[i].start
    ensures InsertVma(vmas, v) == InsertedAt(vmas, k, v)
  {
    forall i | 0 <= i < |vmas| ensures !Meets(vmas[i], v.start, v.end) {}
    InsertAt(vmas, v, k);
  }

  lemma InsertInOrder(vmas: seq<Vma>, v: Vma, k: nat)
    requires InOrder(vmas) && k <= |vmas| && v.start < v.end && Aligned(v.start) && Aligned(v.end)
    requires forall i :: 0 <= i < k ==> vmas[i].start < v.start && vmas[i].end <= v.start
    requires forall i :: k <= i < |vmas| ==> v.start < vmas[i].start && v.end <= vmas[i].start
    ensures InOrder(InsertedAt(vmas, k, v))
  {
    hide Aligned;
  }

  lemma InsertLookup(vmas: seq<Vma>, v: Vma, k: nat, x: nat)
    requires k <= |vmas| && InOrder(InsertedAt(vmas, k, v))
    ensures Lookup(InsertedAt(vmas, k, v), x) ==
              if v.start <= x < v.end then Some(Attr(v.perm, v.flags)) else Lookup(vmas, x)
  {
    var r := InsertedAt(vmas, k, v);
    assert r[k] == v;
    if v.start <= x < v.end {
      LookupIn(r, k, x);
    } else {
      LookupAround(vmas[..k], [v], vmas[k..], x);
      LookupConcat(vmas[..k], vmas[k..], x);
      assert vmas[..k] + vmas[k..] == vmas;
    }
  }

  lemma InsertSpans(vmas: seq<Vma>, v: Vma, k: nat)
    requires k <= |vmas|
    ensures Spans(InsertedAt(vmas, k, v)) == Spans(vmas) + {SpanOf(v)}
  {
    SpansConcat(vmas[..k] + [v], vmas[k..]);
    SpansConcat(vmas[..k], [v]);
    SpansConcat(vmas[..k], vmas[k..]);
    SpanOfOne(v);
    assert vmas[..k] + vmas[k..] == vmas;
  }

  lemma InsertApart(linear: set<Span>, vmas: seq<Vma>, v: Vma, k: nat)
    requires Apart(linear, vmas) && k <= |vmas|
    ensures Apart(linear, InsertedAt(vmas, k, v)) <==> AwayFromAll(linear, v)
  {
    assert InsertedAt(vmas, k, v)[k] == v;
  }

  /** No registered range starts where an area that fits does. */
  lemma NewRange(vmas: seq<Vma>, linear: set<Span>, v: Vma, r: Span)
    requires Fits(vmas, v) && AwayFromAll(linear, v) && r in linear + Spans(vmas)
    ensures r.start != v.start
  {
    if r in Spans(vmas) {
      var i :| 0 <= i < |vmas| && r == SpanOf(vmas[i]);
      assert !Meets(vmas[i], v.start, v.end);
    }
  }

  /** The list takes an area that fits, and its addresses with it. */
  lemma InsertListed(vmas: seq<Vma>, v: Vma)
    requires ListOk(vmas) && Fits(vmas, v)
    ensures ListOk(InsertVma(vmas, v))
    ensures forall x: nat :: Lookup(InsertVma(vmas, v), x) ==
              if v.start <= x < v.end then Some(Attr(v.perm, v.flags)) else Lookup(vmas, x)
  {
    hide InOrder, Aligned, Lookup, InsertVma, Misses;
    var k := LowerBoundVma(vmas, v.start);
    FitsBetween(vmas, v, k);
    InsertInOrder(vmas, v, k);
    forall x: nat ensures Lookup(InsertVma(vmas, v), x) ==
      if v.start <= x < v.end then Some(Attr(v.perm, v.flags)) else Lookup(vmas, x)
    {
      InsertLookup(vmas, v, k, x);
    }
  }

  /** List and set stay consistent exactly if the new area keeps away from the linear mappings. */
  lemma InsertConsistent(vmas: seq<Vma>, ranges: set<Span>, linear: set<Span>, v: Vma)
    requires Consistent(vmas, ranges, linear) && Fits(vmas, v)
    ensures Consistent(InsertVma(vmas, v), AddRange(ranges, SpanOf(v)), linear) <==> AwayFromAll(linear, v)
  {
    hide InOrder, NonEmpty, Apart, Spans, Away, Aligned, InsertVma, Misses, AwayFromAll, Lookup;
    var k := LowerBoundVma(vmas, v.start);
    FitsBetween(vmas, v, k);
    InsertListed(vmas, v);
    InsertApart(linear, vmas, v, k);
    InsertSpans(vmas, v, k);
    if AwayFromAll(linear, v) {
      forall r | r in ranges ensures r.start != v.start {
        NewRange(vmas, linear, v, r);
      }
    }
  }

  // ------------------------------------------------- mapping in a hole

  /** Linear mappings of whole pages without common addresses, one of them above all areas. */
  ghost predicate LinearOk(linear: set<Span>) {
    && Disjoint(linear)
    && (forall l :: l in linear ==> l.start < l.end && Aligned(l.start) && Aligned(l.end))
    && (exists l :: l in linear && l.start > UPPER_VMA_LIMIT)
  }

  lemma TwoAreas(vmas: seq<Vma>, i: nat, j: nat)
    requires InOrder(vmas) && i < |vmas| && j < |vmas| && SpanOf(vmas[i]) != SpanOf(vmas[j])
    ensures vmas[i].start != vmas[j].start && (vmas[i].end <= vmas[j].start || vmas[j].end <= vmas[i].start)
  {
    assert i < j || j < i;
  }

  lemma RangesDisjoint(vmas: seq<Vma>, ranges: set<Span>, linear: set<Span>)
    requires Consistent(vmas, ranges, linear) && LinearOk(linear)
    ensures Disjoint(ranges)
  {
    hide InOrder, NonEmpty;
    forall r | r in ranges ensures r.start <= r.end {
      if r in Spans(vmas) {
        var i: nat :| i < |vmas| && r == SpanOf(vmas[i]);
        AreaNotEmpty(vmas, i);
      }
    }
    forall a, b | a in ranges && b in ranges && a != b
      ensures a.start != b.start && (a.end <= b.start || b.end <= a.start)
    {
      if a in Spans(vmas) && b in Spans(vmas) {
        var i: nat :| i < |vmas| && a == SpanOf(vmas[i]);
        var j: nat :| j < |vmas| && b == SpanOf(vmas[j]);
        TwoAreas(vmas, i, j);
      }
    }
  }

  lemma RangesBounded(vmas: seq<Vma>, ranges: set<Span>, linear: set<Span>, s: seq<Span>)
    requires Consistent(vmas, ranges, linear) && LinearOk(linear)
    requires Ordered(s) && forall r :: r in s <==> r in ranges
    ensures Bounded(s) && UPPER_VMA_LIMIT < s[|s| - 1].start
  {
    hide InOrder, NonEmpty, Apart, Aligned, Disjoint;
    InSpans(vmas, 0);
    InSpans(vmas, |vmas| - 1);
    assert Span(0, 0) in s && Span(UPPER_VMA_LIMIT, UPPER_VMA_LIMIT) in s;
    var l :| l in linear && l.start > UPPER_VMA_LIMIT;
    assert l in s;
    var i :| 0 <= i < |s| && s[i] == Span(0, 0);
    assert s[0].start <= s[i].start;
  }

  /** A range of whole pages outside a hole is outside all its pages. */
  lemma PagesOfHole(r: Span, x: nat, size: nat)
    requires Aligned(r.start) && Aligned(r.end) && (r.end <= x || x + size <= r.start)
    ensures r.end <= AlignDown(x) || AlignUp(x + size) <= r.start
  {}

  lemma PageAbove(x: nat, size: nat)
    requires x >= PAGE_SIZE && size > 0 && x + size <= UPPER_VMA_LIMIT
    ensures 0 < AlignDown(x) < AlignUp(x + size) <= UPPER_VMA_LIMIT
    ensures Aligned(AlignDown(x)) && Aligned(AlignUp(x + size))
  {
    AlignedFixed(x);
    AlignedFixed(x + size);
  }

  lemma AreaAligned(vmas: seq<Vma>, i: nat)
    requires InOrder(vmas) && i < |vmas|
    ensures Aligned(vmas[i].start) && Aligned(vmas[i].end)
  {}

  /** The pages of a hole are free for a new area, unless they include page zero. */
  lemma HoleFits(vmas: seq<Vma>, ranges: set<Span>, linear: set<Span>, s: seq<Span>, x: nat, size: nat, v: Vma)
    requires Consistent(vmas, ranges, linear) && LinearOk(linear) && forall r :: r in s <==> r in ranges
    requires Clear(s, x, size) && x + size <= UPPER_VMA_LIMIT && size > 0 && x >= PAGE_SIZE
    requires v.start == AlignDown(x) && v.end == AlignUp(x + size)
    ensures Fits(vmas, v) && AwayFromAll(linear, v)
  {
    hide InOrder, NonEmpty, Apart, Disjoint, Aligned, AlignDown, AlignUp, Spans;
    PageAbove(x, size);
    forall r | r in ranges && Aligned(r.start) && Aligned(r.end) ensures r.end <= v.start || v.end <= r.start {
      assert r in s;
      PagesOfHole(r, x, size);
    }
    forall i: nat | i < |vmas| ensures !Meets(vmas[i], v.start, v.end) {
      InSpans(vmas, i);
      AreaAligned(vmas, i);
      assert SpanOf(vmas[i]) in ranges;
      AreaNotEmpty(vmas, i);
    }
  }

  lemma AreaNotEmpty(vmas: seq<Vma>, i: nat)
    requires ListOk(vmas) && i < |vmas|
    ensures vmas[i].start < vmas[i].end || vmas[i] == LOWER_EDGE || vmas[i] == UPPER_EDGE
  {}

  /** Where mappings without a hint go. */
  const DEFAULT_HINT: nat := 0x2000_0000_0000

  /** A hole among all registered ranges at or above the start, below the limit. */
  ghost predicate HoleAt(ranges: set<Span>, start: nat, size: nat, x: nat) {
    start <= x && x + size <= UPPER_VMA_LIMIT && forall r :: r in ranges ==> r.end <= x || x + size <= r.start
  }

  lemma HoleInOrder(s: seq<Span>, ranges: set<Span>, start: nat, size: nat, x: nat)
    requires forall r :: r in s <==> r in ranges
    ensures IsHole(s, start, size, x) <==> HoleAt(ranges, start, size, x)
  {
    forall i | 0 <= i < |s| ensures s[i] in ranges {
      assert s[i] in s;
    }
  }

  /**
    Which hole is taken when the hint is none: the lowest; for a large size the
    lowest on a huge page boundary, and without one the start of the last gap.
   */
  ghost predicate Preferred(ranges: set<Span>, start: nat, size: nat, x: nat) {
    if size < HUGE_PAGE_SIZE then forall y: nat :: HoleAt(ranges, start, size, y) ==> x <= y
    else if x % HUGE_PAGE_SIZE == 0 then forall y: nat :: HoleAt(ranges, start, size, y) && y % HUGE_PAGE_SIZE == 0 ==> x <= y
    else
      && (forall y: nat :: HoleAt(ranges, start, size, y) ==> y % HUGE_PAGE_SIZE != 0)
      && (exists r :: r in ranges && r.end == x)
      && (forall y: nat, r :: HoleAt(ranges, start, size, y) && x <= y && r in ranges ==> r.end <= x || y + size <= r.start)
  }

  lemma ChosenInOrder(s: seq<Span>, ranges: set<Span>, start: nat, size: nat, x: nat)
    requires (forall r :: r in s <==> r in ranges) && Chosen(s, start, size, x)
    ensures Preferred(ranges, start, size, x)
  {
    forall y: nat ensures IsHole(s, start, size, y) <==> HoleAt(ranges, start, size, y) {
      HoleInOrder(s, ranges, start, size, y);
    }
    hide IsHole, HoleAt;
    if size >= HUGE_PAGE_SIZE && x % HUGE_PAGE_SIZE != 0 {
      var g :| 0 <= g < |s| && s[g].end == x;
      assert s[g] in ranges;
      forall y: nat, r | HoleAt(ranges, start, size, y) && x <= y && r in ranges ensures r.end <= x || y + size <= r.start {
        assert IsHole(s, start, size, y);
        var i :| 0 <= i < |s| && s[i] == r;
        assert Clear(s, x, y + size - x);
      }
    }
  }

  /** How a call ends: as the source's error, or with a read past the end of the list. */
  datatype Outcome = NoError | EINVAL | ENOMEM | OffTheList

  datatype Answer = Yes | No | RanOff

  class AddressSpace {
    var vmas: seq<Vma>
    var ranges: set<Span>
    ghost var linear: set<Span>

    ghost predicate Valid()
      reads this
    {
      Consistent(vmas, ranges, linear)
    }

    /** Only the edge markers. */
    constructor ()
      ensures Valid() && linear == {} && forall x: nat :: Lookup(vmas, x) == None
    {
      vmas := [LOWER_EDGE, UPPER_EDGE];
      ranges := {Span(0, 0), Span(UPPER_VMA_LIMIT, UPPER_VMA_LIMIT)};
      linear := {};
      TwoSpans(LOWER_EDGE, UPPER_EDGE);
      forall x: nat ensures Lookup([LOWER_EDGE, UPPER_EDGE], x) == None {
        LookupNone([LOWER_EDGE, UPPER_EDGE], x);
      }
    }

    /** Split area i; set() rounds both parts to whole pages. */
    method Split(i: nat, edge: nat)
      requires i < |vmas|
      modifies `vmas, `ranges
      ensures vmas == SplitAt(old(vmas), i, edge)
      ensures old(Valid()) && (Aligned(edge) || !Splits(old(vmas)[i], edge)) ==> Valid()
    {
      hide InOrder, NonEmpty, Apart, Spans, Pieces, Aligned, Consistent;
      var v := vmas[i];
      if edge <= v.start || edge >= v.end {
        return;
      }
      var n := Vma(AlignDown(edge), AlignUp(v.end), v.perm, v.flags);
      if Valid() && Aligned(edge) {
        SplitConsistent(vmas, ranges, linear, i, edge);
      }
      vmas := vmas[i := v.(start := AlignDown(v.start), end := AlignUp(edge))];
      ranges := SetEnd(ranges, SpanOf(v), AlignUp(edge));
      vmas := InsertVma(vmas, n);
      ranges := AddRange(ranges, SpanOf(n));
    }

    /** Take area i off the list and its range out of the set. */
    method Erase(i: nat)
      requires i < |vmas|
      modifies `vmas, `ranges
      ensures vmas == Replace(old(vmas), i, [])
      ensures old(Valid()) && 0 < i < |old(vmas)| - 1 ==> Valid()
    {
      hide InOrder, NonEmpty, Apart, Spans, DropRange, Consistent;
      if Valid() && 0 < i < |vmas| - 1 {
        EraseConsistent(vmas, ranges, linear, i);
      }
      ranges := DropRange(ranges, vmas[i].start);
      vmas := vmas[..i] + vmas[i + 1..];
      assert vmas == Replace(old(vmas), i, []);
    }

    method SetPerm(i: nat, perm: nat)
      requires i < |vmas|
      modifies `vmas
      ensures vmas == Replace(old(vmas), i, [old(vmas)[i].(perm := perm)])
      ensures old(Valid()) && 0 < i < |old(vmas)| - 1 ==> Valid()
    {
      hide InOrder, NonEmpty, Apart, Spans, Consistent;
      if Valid() && 0 < i < |vmas| - 1 {
        SetPermConsistent(vmas, ranges, linear, i, perm);
      }
      vmas := vmas[i := vmas[i].(perm := perm)];
      assert vmas == Replace(old(vmas), i, [old(vmas)[i].(perm := perm)]);
    }

    /** Split area i at end and then at start. */
    method SplitBoth(i: nat, start: nat, end: nat)
      requires i < |vmas| && Aligned(start)
      modifies `vmas, `ranges
      ensures vmas == SplitTwice(old(vmas), i, start, end) && |vmas| >= |old(vmas)|
      ensures old(Valid()) && (Aligned(end) || !Splits(old(vmas)[i], end)) ==> Valid()
    {
      hide Consistent, SplitAt, Aligned;
      SplitGrows(vmas, i, end);
      Split(i, end);
      SplitGrows(vmas, i, start);
      Split(i, start);
    }

    /** One turn of the loop in evacuate(); `stop` moves with the area it stands for. */
    method EvacuateTurn(i: nat, stop: nat, start: nat, end: nat) returns (i': nat, stop': nat)
      requires i < stop <= |vmas| && Aligned(start)
      modifies `vmas, `ranges
      ensures vmas == EvacList(old(vmas), i, start, end)
      ensures i' == i + (if Evacuates(old(vmas), i, start, end) then 0 else 1) && stop' == stop + |vmas| - |old(vmas)|
      ensures old(Valid()) && 0 < i < |old(vmas)| - 1 && Aligned(end) ==> Valid()
    {
      hide Consistent, Aligned, SplitTwice;
      var before := |vmas|;
      i' := i;
      SplitBoth(i, start, end);
      if start <= vmas[i].start && vmas[i].end <= end {
        Erase(i);
      } else {
        assert Replace(vmas, i, [vmas[i]]) == vmas;
        i' := i + 1;
      }
      stop' := stop + |vmas| - before;
    }

    /**
      Unmap start .. end: areas are split at its edges and those inside erased.
      Erasing the first of all areas takes the iterator before the list.
     */
    method Evacuate(start: nat, end: nat) returns (r: Outcome)
      requires Valid() && Aligned(start) && Aligned(end)
      modifies `vmas, `ranges
      ensures r in {NoError, OffTheList} && (r == OffTheList <==> start < end && (start == 0 || start > UPPER_VMA_LIMIT))
      ensures Valid() <==> end <= start || start > UPPER_VMA_LIMIT || (0 < start && end <= UPPER_VMA_LIMIT)
      ensures r == NoError ==>
                forall x: nat :: Lookup(vmas, x) == if start <= x < end then None else Lookup(old(vmas), x)
      ensures r == NoError && start < end ==> Misses(vmas, start, end)
      ensures start == 0 < end ==> vmas == old(vmas)[1..]
      ensures start > UPPER_VMA_LIMIT || end <= start ==> vmas == old(vmas)
      ensures 0 < start <= UPPER_VMA_LIMIT < end ==> ListOk(vmas + [UPPER_EDGE])
    {
      hide InOrder, NonEmpty, Apart, Spans, Aligned, ChangedUpTo, Intersecting, Consistent, OnTheList, Evacuates, EvacList, EvacInv, ListOk;
      ListIsOk(vmas, ranges, linear);
      OnTheListIff(vmas, start, end);
      if !OnTheList(vmas, start, end) {
        return OffTheList;
      }
      var slice := Intersecting(vmas, start, end);
      var i: nat, second: nat := slice.0, slice.1;
      EvacStart(vmas, start, end);
      if i == second {
        return NoError;
      }
      var stop: nat := second;
      ghost var done := false;
      EvacBounds(vmas, second, start, end, vmas, i, stop);
      while i != stop
        invariant EvacInv(old(vmas), second, start, end, vmas, i, stop, done) && (done ==> i == stop) && (i != stop || start > 0)
        invariant !done ==> Valid() && i < |vmas| && vmas[i].start <= UPPER_VMA_LIMIT
        invariant start < end && start <= UPPER_VMA_LIMIT
        decreases if done then 0 else UPPER_VMA_LIMIT - vmas[i].start + 1
      {
        EvacTurnInv(old(vmas), second, start, end, vmas, i, stop);
        done := i == |vmas| - 1;
        i, stop := EvacuateTurn(i, stop, start, end);
        if i == 0 {
          WithoutLower(old(vmas));
          if Valid() {
            ListIsOk(vmas, ranges, linear);
          }
          return OffTheList;
        }
        if !done {
          ListIsOk(vmas, ranges, linear);
          EvacBounds(old(vmas), second, start, end, vmas, i, stop);
        }
      }
      EvacEnd(old(vmas), second, start, end, vmas, i, done);
      if Valid() {
        ListIsOk(vmas, ranges, linear);
      }
      r := NoError;
    }
    /** One turn of the loop in protect(). */
    method ProtectTurn(i: nat, stop: nat, start: nat, end: nat, perm: nat) returns (stop': nat)
      requires i < stop <= |vmas| && Aligned(start)
      modifies `vmas, `ranges
      ensures vmas == TurnList(old(vmas), i, start, end, perm) && |vmas| >= |old(vmas)| && stop' == stop + |vmas| - |old(vmas)|
      ensures old(Valid()) && 0 < i < |old(vmas)| - 1 && Neat(old(vmas)[i], end, perm) ==> Valid()
    {
      hide Consistent, Aligned, SplitTwice;
      var before := |vmas|;
      if vmas[i].perm == perm {
        return stop;
      }
      SplitBoth(i, start, end);
      if start <= vmas[i].start && vmas[i].end <= end {
        SetPerm(i, perm);
      } else {
        assert Replace(vmas, i, [vmas[i]]) == vmas;
      }
      stop' := stop + |vmas| - before;
    }

    /** Change the permission of what is mapped in start .. end, which need not end with a page. */
    method Protect(start: nat, end: nat, perm: nat)
      requires Valid() && Aligned(start) && 0 < start <= UPPER_VMA_LIMIT && end <= UPPER_VMA_LIMIT
      modifies `vmas, `ranges
      ensures forall x: nat :: Lookup(vmas, x) == AfterProtect(old(vmas), start, end, perm, x)
      ensures !IsTorn(old(vmas), start, end, perm) ==> Valid()
    {
      hide InOrder, NonEmpty, Apart, Spans, Aligned, Intersecting, Consistent, OnTheList, LoopInv, EndOk, TurnList, AfterProtect, IsTorn, ListOk, Neat;
      ListIsOk(vmas, ranges, linear);
      InTheList(vmas);
      OnTheListIff(vmas, start, end);
      var slice := Intersecting(vmas, start, end);
      var i: nat, second: nat := slice.0, slice.1;
      SliceStarts(vmas, start, end);
      if i == second {
        forall x: nat ensures Lookup(vmas, x) == AfterProtect(vmas, start, end, perm, x) {
          NothingToProtect(vmas, start, end, perm, x);
        }
        return;
      }
      ghost var e, tail := StartLoop(vmas, start, end, perm);
      var stop: nat := second;
      ghost var ph := Good;
      LoopBounds(vmas, second, start, end, perm, e, tail, vmas, i, stop, ph);
      while i != stop
        invariant LoopInv(old(vmas), second, start, end, perm, e, tail, vmas, i, stop, ph)
        invariant i <= stop <= |vmas| && (ph.Good? ==> i < |vmas| && vmas[i].start <= UPPER_VMA_LIMIT)
        invariant !ph.Tearing? ==> Valid()
        decreases if ph.Good? then UPPER_VMA_LIMIT - vmas[i].start + 1 else 0, stop - i
      {
        ghost var ph' := TurnInv(old(vmas), second, start, end, perm, e, tail, vmas, i, stop, ph);
        stop := ProtectTurn(i, stop, start, end, perm);
        i := i + 1;
        if !ph'.Tearing? {
          ListIsOk(vmas, ranges, linear);
        }
        ph := ph';
        LoopBounds(old(vmas), second, start, end, perm, e, tail, vmas, i, stop, ph);
      }
      LoopEnd(old(vmas), second, start, end, perm, e, tail, vmas, stop, ph);
    }

    /** Whether every address of a range is mapped; no for an empty range. */
    method IsMapped(start: nat, size: nat) returns (r: Answer)
      requires Valid() && start < TWO64 && size < TWO64
      ensures r == Yes <==> size > 0 && AllMapped(vmas, start, start + size)
      ensures r == RanOff <==> start > UPPER_VMA_LIMIT && size > 0 && start + size < TWO64
    {
      hide InOrder, NonEmpty, Apart, Spans, Intersecting, Consistent, AllMapped, OnTheList;
      ListIsOk(vmas, ranges, linear);
      var end := Add64(start, size);
      var cur := start;
      OnTheListIff(vmas, start, end);
      if !OnTheList(vmas, start, end) {
        NotAllMapped(vmas, start, start + size, start);
        return RanOff;
      }
      var (p, second) := Intersecting(vmas, start, end);
      if start + size >= TWO64 {
        NotAllMapped(vmas, start, start + size, start + size - 1);
      }
      SliceEdges(vmas, start, end);
      ghost var some := p < second;
      while p != second
        invariant p <= second <= |vmas| && start <= cur && (p < second ==> cur <= vmas[p].end)
        invariant !some ==> cur == start
        invariant some ==> cur < end && AllMapped(vmas, start, cur) && Below(vmas, p, cur)
      {
        if vmas[p].start > cur {
          NotMappedAt(vmas, p, cur);
          NotAllMapped(vmas, start, end, cur);
          return No;
        }
        MoreMapped(vmas, p, start, cur);
        NextBelow(vmas, p, cur);
        cur := vmas[p].end;
        if cur >= end {
          FewerMapped(vmas, start, end, cur);
          return Yes;
        }
        p := p + 1;
      }
      if start < end {
        if some {
          NotMappedAt(vmas, p, cur);
        }
        NotAllMapped(vmas, start, end, cur);
      }
      r := No;
    }

    method Munmap(addr: nat, length: nat) returns (r: Outcome)
      requires Valid() && Aligned(addr) && addr < TWO64 && length < TWO64
      modifies `vmas, `ranges
      ensures Valid() && r in {NoError, EINVAL, OffTheList}
      ensures r == NoError <==> length > 0 && AllMapped(old(vmas), addr, addr + AlignUp(length))
      ensures r == OffTheList <==> addr > UPPER_VMA_LIMIT && length > 0 && addr + AlignUp(length) < TWO64
      ensures r == NoError ==> forall x: nat ::
                Lookup(vmas, x) == if addr <= x < addr + AlignUp(length) then None else Lookup(old(vmas), x)
      ensures r != NoError ==> vmas == old(vmas) && ranges == old(ranges)
    {
      hide Consistent, AllMapped, Misses;
      AlignedFixed(length);
      RoundsToZero(length);
      ListIsOk(vmas, ranges, linear);
      ghost var exact := AlignUp(length);
      var len := AlignUp(length) % TWO64;
      if exact >= TWO64 {
        NotAllMapped(vmas, addr, addr + exact, addr + exact - 1);
      }
      var mapped := IsMapped(addr, len);
      if mapped != Yes {
        return if mapped == No then EINVAL else OffTheList;
      }
      MappedBounds(vmas, addr, addr + len);
      AlignedSum(addr, len);
      r := Evacuate(addr, addr + len);
    }

    /** The permission of exactly the range changes, unless the range ends inside a page of an area that should change. */
    method Mprotect(addr: nat, len: nat, perm: nat) returns (r: Outcome)
      requires Valid() && Aligned(addr) && addr < TWO64 && len < TWO64
      modifies `vmas, `ranges
      ensures r in {NoError, ENOMEM, OffTheList}
      ensures r == NoError <==> len > 0 && AllMapped(old(vmas), addr, addr + len)
      ensures r == OffTheList <==> addr > UPPER_VMA_LIMIT && len > 0 && addr + len < TWO64
      ensures r == NoError ==> forall x: nat :: Lookup(vmas, x) == AfterProtect(old(vmas), addr, addr + len, perm, x)
      ensures r == NoError ==>
                (ProtectExact(old(vmas), vmas, addr, addr + len, perm) <==>
                 Aligned(len) || Lookup(old(vmas), addr + len - 1).value.perm == perm)
      ensures r == NoError && ProtectExact(old(vmas), vmas, addr, addr + len, perm) ==> Valid()
      ensures r != NoError ==> vmas == old(vmas) && ranges == old(ranges)
    {
      hide Consistent, AllMapped, AfterProtect, ProtectExact, Lookup, Aligned;
      var mapped := IsMapped(addr, len);
      if mapped != Yes {
        return if mapped == No then ENOMEM else OffTheList;
      }
      ListIsOk(vmas, ranges, linear);
      InTheList(vmas);
      MappedBounds(vmas, addr, addr + len);
      LastMapped(vmas, addr, addr + len);
      AlignedEnd(addr, len);
      Protect(addr, addr + len, perm);
      ProtectExactIff(old(vmas), vmas, addr, addr + len, perm);
      r := NoError;
    }

    /** Map start .. start + size in place of whatever was there; a linear mapping there is not looked at. */
    method MapFixed(start: nat, size: nat, perm: nat, flags: nat) returns (r: Outcome)
      requires Valid() && Aligned(start) && Aligned(size) && start < TWO64 && 0 < size < TWO64
      modifies `vmas, `ranges
      ensures r in {NoError, OffTheList}
      ensures start + size < TWO64 ==> (r == OffTheList <==> start == 0 || start > UPPER_VMA_LIMIT)
      ensures start + size < TWO64 ==>
                (Valid() <==> start > UPPER_VMA_LIMIT || FixedOk(linear, Vma(start, start + size, perm, flags)))
      ensures start + size < TWO64 && r == NoError ==> forall x: nat ::
                Lookup(vmas, x) == if start <= x < start + size then Some(Attr(perm, flags)) else Lookup(old(vmas), x)
      ensures start + size >= TWO64 ==>
                r == NoError && vmas == InsertVma(old(vmas), Vma(start, start + size - TWO64, perm, flags))
    {
      hide Consistent, Lookup, AwayFromAll, ListOk, Misses;
      var end := Add64(start, size);
      AlignedSum(start, size);
      AlignedWrap(start + size);
      r := Evacuate(start, end);
      if r == OffTheList {
        return;
      }
      var v := Vma(start, end, perm, flags);
      if start < end && end <= UPPER_VMA_LIMIT {
        ListIsOk(vmas, ranges, linear);
        InsertListed(vmas, v);
        InsertConsistent(vmas, ranges, linear, v);
      } else if start < end {
        InsertOnTop(vmas, v);
      }
      vmas := InsertVma(vmas, v);
      ranges := AddRange(ranges, SpanOf(v));
      if Valid() {
        ListIsOk(vmas, ranges, linear);
      }
    }

    /** Map size bytes in a hole from the hint on, or from the usual address on without a hint. */
    method MapAnywhere(hint: nat, size: nat, perm: nat, flags: nat) returns (r: Found)
      requires Valid() && LinearOk(linear) && hint < TWO64 && 0 < size < TWO64
      modifies `vmas, `ranges
      ensures var start := Start(hint);
              && (r == OffTheSet <==> AllBelow(old(ranges), start))
              && (InWords(old(ranges), start, size) ==> Valid())
              && (InWords(old(ranges), start, size) && r == NoHole ==> forall x: nat :: !HoleAt(old(ranges), start, size, x))
              && (InWords(old(ranges), start, size) && r.Hole? ==> HoleAt(old(ranges), start, size, r.value))
              && (HoleAt(old(ranges), start, size, start) ==> r == Hole(start))
              && (start + size < TWO64 && r.Hole? && r.value != start ==> Preferred(old(ranges), start, size, r.value))
              && (!InWords(old(ranges), start, size) ==> r == Hole(start) && !HoleAt(old(ranges), start, size, start))
      ensures InWords(old(ranges), Start(hint), size) ==>
                (r.Hole? && r.value < PAGE_SIZE <==> 0 < hint < PAGE_SIZE && HoleAt(old(ranges), hint, size, hint))
      ensures InWords(old(ranges), Start(hint), size) && r.Hole? && r.value >= PAGE_SIZE ==> forall x: nat ::
                Lookup(vmas, x) == if AlignDown(r.value) <= x < AlignUp(r.value + size) then Some(Attr(perm, flags))
                                   else Lookup(old(vmas), x)
      ensures !InWords(old(ranges), Start(hint), size) && r.Hole? ==>
                vmas == InsertVma(old(vmas), Vma(AlignDown(r.value), AlignUp(r.value + size - TWO64), perm, flags))
      ensures !r.Hole? || r.value < PAGE_SIZE ==> vmas == old(vmas) && ranges == old(ranges)
    {
      hide Consistent, Lookup, LinearOk, Disjoint, Ordered, Bounded, IsHole, HoleAt, AlignDown, AlignUp, Sane,
           Covered, AboveAll, AllBelow, InWords, Chosen, Preferred;
      var start := Start(hint);
      RangesDisjoint(vmas, ranges, linear);
      var s := InStartOrder(ranges);
      RangesBounded(vmas, ranges, linear, s);
      SaneIff(s, ranges, start, size);
      if !InWords(ranges, start, size) {
        OutOfWords(s, ranges, start, size);
      }
      r := FindHole(s, start, size);
      forall x: nat ensures IsHole(s, start, size, x) <==> HoleAt(ranges, start, size, x) {
        HoleInOrder(s, ranges, start, size, x);
      }
      if start + size < TWO64 && r.Hole? && r.value != start {
        ChosenInOrder(s, ranges, start, size, r.value);
      }
      if r.Hole? {
        var v := Vma(AlignDown(r.value), AlignUp(Add64(r.value, size)), perm, flags);
        if r.value < PAGE_SIZE {
          if InWords(ranges, start, size) {
            HintInPageZero(vmas, ranges, linear, start, size, r.value);
          }
          EdgeTaken(vmas, ranges, linear, r.value, v);
        } else if InWords(ranges, start, size) {
          HoleIsClear(s, start, size, r.value);
          HoleFits(vmas, ranges, linear, s, r.value, size, v);
          ListIsOk(vmas, ranges, linear);
          InsertListed(vmas, v);
          InsertConsistent(vmas, ranges, linear, v);
        }
        vmas := InsertVma(vmas, v);
        ranges := AddRange(ranges, SpanOf(v));
      }
    }
  }

  function Start(hint: nat): nat {
    if hint == 0 then DEFAULT_HINT else hint
  }

  /** All registered ranges start below the address. */
  ghost predicate AllBelow(ranges: set<Span>, x: nat) {
    forall r :: r in ranges ==> r.start < x
  }

  /** No overflow of start plus size matters to the search. */
  ghost predicate InWords(ranges: set<Span>, start: nat, size: nat) {
    start + size < TWO64 || start > UPPER_VMA_LIMIT || exists r :: r in ranges && r.start < start < r.end
  }

  lemma SaneIff(s: seq<Span>, ranges: set<Span>, start: nat, size: nat)
    requires forall r :: r in s <==> r in ranges
    ensures AboveAll(s, start) <==> AllBelow(ranges, start)
    ensures Sane(s, start, size) <==> !AllBelow(ranges, start) && InWords(ranges, start, size)
  {
    forall i | 0 <= i < |s| ensures s[i] in ranges {
      assert s[i] in s;
    }
    if r :| r in ranges && r.start < start < r.end {
      assert r in s;
    }
  }

  /** When the sum overflows there is no hole, but still a range to stop at. */
  lemma OutOfWords(s: seq<Span>, ranges: set<Span>, start: nat, size: nat)
    requires Bounded(s) && !InWords(ranges, start, size)
    ensures NoHoles(s, start, size) && !AboveAll(s, start) && start + size >= TWO64
  {
    NoHugeHole(s, start, size);
    var i :| 0 <= i < |s| && s[i].start > UPPER_VMA_LIMIT;
  }

  /** All registered ranges end on a page boundary, so a hole in page zero reaches down to the hint. */
  lemma HintInPageZero(vmas: seq<Vma>, ranges: set<Span>, linear: set<Span>, start: nat, size: nat, x: nat)
    requires Consistent(vmas, ranges, linear) && LinearOk(linear) && HoleAt(ranges, start, size, x) && x < PAGE_SIZE
    ensures HoleAt(ranges, start, size, start)
  {
    hide InOrder, NonEmpty, Apart, Disjoint;
    forall r | r in ranges ensures r.end <= start || start + size <= r.start {
      if r in Spans(vmas) {
        var i: nat :| i < |vmas| && r == SpanOf(vmas[i]);
        AreaAligned(vmas, i);
      }
      assert Aligned(r.end);
    }
  }

  /** Nothing is ever mapped in page zero. */
  lemma PageZeroEmpty(vmas: seq<Vma>, x: nat)
    requires ListOk(vmas) && x < PAGE_SIZE
    ensures Lookup(vmas, x) == None
  {
    forall i: nat | i < |vmas| ensures !(vmas[i].start <= x < vmas[i].end) {
      assert i > 0 ==> vmas[0].start < vmas[i].start;
    }
    LookupNone(vmas, x);
  }

  /** A page asked for from the hint 0x800 on is said to be there, and is not mapped. */
  method HintInFirstPage(space: AddressSpace, perm: nat, flags: nat) returns (r: Found)
    requires space.Valid() && space.linear == {Span(0x6000_0000_0000, 0x6000_0000_1000)}
    requires space.vmas == [LOWER_EDGE, UPPER_EDGE]
    modifies space
    ensures r == Hole(0x800) && Lookup(space.vmas, 0x800) == None
  {
    var l := Span(0x6000_0000_0000, 0x6000_0000_1000);
    assert l in space.linear;
    TwoSpans(LOWER_EDGE, UPPER_EDGE);
    assert HoleAt(space.ranges, 0x800, 0x1000, 0x800);
    r := space.MapAnywhere(0x800, 0x1000, perm, flags);
    PageZeroEmpty(space.vmas, 0x800);
  }

  /** An edge marker is in the slice that evacuate() runs through, and erased, exactly if the range reaches it. */
  lemma EdgesErasedIff(vmas: seq<Vma>, start: nat, end: nat)
    requires ListOk(vmas) && start < end && start <= UPPER_VMA_LIMIT
    ensures OnTheList(vmas, start, end)
    ensures var (first, second) := Intersecting(vmas, start, end);
            && (first <= 0 < second && Evacuates(vmas, 0, start, end) <==> start == 0)
            && (first <= |vmas| - 1 < second && Evacuates(vmas, |vmas| - 1, start, end) <==> UPPER_VMA_LIMIT < end)
  {
    hide Evacuates, Intersecting;
    OnTheListIff(vmas, start, end);
    IntersectingExact(vmas, start, end, 0);
    IntersectingExact(vmas, start, end, |vmas| - 1);
    if start == 0 {
      EvacMarker(vmas, 0, start, end);
    }
    if UPPER_VMA_LIMIT < end {
      EvacMarker(vmas, |vmas| - 1, start, end);
    }
  }

  // ------------------------------------------------ inputs that go wrong

  const STACK: nat := 0x2000_0000_0000

  /** Only a stack of 64 KB is mapped. */
  function OneStack(perm: nat, flags: nat): seq<Vma> {
    [LOWER_EDGE, Vma(STACK, STACK + 0x1_0000, perm, flags), UPPER_EDGE]
  }

  /** What mprotect() makes of a stack whose guard is not whole pages. */
  ghost predicate GuardTears(vmas: seq<Vma>, guard: nat, perm: nat, flags: nat) {
    && (forall x: nat :: STACK <= x < STACK + AlignUp(guard) ==> Lookup(vmas, x) == Some(Attr(perm, flags)))
    && (forall x: nat :: STACK + AlignUp(guard) <= x ==> Lookup(vmas, x) == None)
  }

  lemma StackLookup(perm: nat, flags: nat, x: nat)
    ensures Lookup(OneStack(perm, flags), x) == if STACK <= x < STACK + 0x1_0000 then Some(Attr(perm, flags)) else None
  {
    hide Lookup;
    var v := Vma(STACK, STACK + 0x1_0000, perm, flags);
    assert OneStack(perm, flags) == [LOWER_EDGE] + [v] + [UPPER_EDGE];
    LookupAround([LOWER_EDGE], [v], [UPPER_EDGE], x);
    LookupOne(LOWER_EDGE, x);
    LookupOne(v, x);
    LookupOne(UPPER_EDGE, x);
  }

  lemma StackBelow(vmas: seq<Vma>, guard: nat)
    requires InOrder(vmas) && |vmas| == 3 && vmas[1].start == STACK && vmas[2] == UPPER_EDGE && 0 < guard < 0x1_0000
    ensures LowerBoundVma(vmas, STACK + guard) == 2
  {}

  lemma StackEnd(guard: nat)
    requires !Aligned(guard) && guard < 0x1_0000
    ensures !Aligned(STACK + guard) && AlignUp(STACK + guard) == STACK + AlignUp(guard) && guard < AlignUp(guard) <= 0x1_0000
  {}

  /** Nothing is protected, and the stack behind the page of the guard's end is not listed any more. */
  method StackGuard(space: AddressSpace, guard: nat, perm: nat, flags: nat) returns (r: Outcome)
    requires space.Valid() && space.vmas == OneStack(perm, flags) && perm != 0 && 0 < guard < 0x1_0000 && !Aligned(guard)
    modifies space
    ensures r == NoError && GuardTears(space.vmas, guard, perm, flags)
  {
    hide Lookup, AlignUp, InOrder, Consistent, OneStack, ProtectExact;
    ghost var was := space.vmas;
    forall x: nat ensures Lookup(was, x) == if STACK <= x < STACK + 0x1_0000 then Some(Attr(perm, flags)) else None {
      StackLookup(perm, flags, x);
    }
    ListIsOk(was, space.ranges, space.linear);
    StackIs(perm, flags);
    StackBelow(was, guard);
    StackEnd(guard);
    r := space.Mprotect(STACK, guard, 0);
  }

  lemma StackIs(perm: nat, flags: nat)
    ensures var vmas := OneStack(perm, flags);
            |vmas| == 3 && vmas[1] == Vma(STACK, STACK + 0x1_0000, perm, flags) && vmas[2] == UPPER_EDGE
  {}

  /** Two such guards: within the first page, and within the second. */
  method SmallGuards(a: AddressSpace, b: AddressSpace)
    requires a.Valid() && b.Valid() && a != b && a.vmas == OneStack(3, 0) && b.vmas == OneStack(3, 0)
    modifies a, b
    ensures Lookup(a.vmas, STACK) == Some(Attr(3, 0)) && Lookup(a.vmas, STACK + 0x1000) == None
    ensures Lookup(b.vmas, STACK) == Some(Attr(3, 0)) && Lookup(b.vmas, STACK + 0x2000) == None
  {
    hide Lookup, InOrder, Consistent;
    var r := StackGuard(a, 100, 3, 0);
    r := StackGuard(b, 5000, 3, 0);
  }

  /** Unmapping above the limit reads past the list. */
  method MunmapAbove(space: AddressSpace) returns (r: Outcome)
    requires space.Valid()
    modifies space
    ensures r == OffTheList
  {
    r := space.Munmap(0x5000_0000_0000, 0x1000);
  }

  method MprotectAbove(space: AddressSpace) returns (r: Outcome)
    requires space.Valid()
    modifies space
    ensures r == OffTheList
  {
    r := space.Mprotect(0x5000_0000_0000, 0x1000, 0);
  }

  /** A fixed mapping at address zero takes the lower edge marker off the list and the iterator before it. */
  method FixedAtZero(space: AddressSpace, perm: nat, flags: nat) returns (r: Outcome)
    requires space.Valid()
    modifies space
    ensures r == OffTheList && !space.Valid()
  {
    r := space.MapFixed(0, 0x1000, perm, flags);
  }

  /** One over the limit takes the upper edge marker off the list. */
  method FixedOverLimit(space: AddressSpace, perm: nat, flags: nat) returns (r: Outcome)
    requires space.Valid()
    modifies space
    ensures r == NoError && !space.Valid()
  {
    r := space.MapFixed(UPPER_VMA_LIMIT - 0x1000, 0x2000, perm, flags);
  }

  /** One over the kernel's own linear mapping is listed on top of it. */
  method FixedOverLinear(space: AddressSpace, perm: nat, flags: nat) returns (r: Outcome)
    requires space.Valid() && Span(0x4020_0000, 0x4080_0000) in space.linear
    modifies space
    ensures r == NoError && !space.Valid()
  {
    var v := Vma(0x4020_0000, 0x4020_1000, perm, flags);
    assert !Away(Span(0x4020_0000, 0x4080_0000), v);
    r := space.MapFixed(0x4020_0000, 0x1000, perm, flags);
  }

  lemma HoleIsClear(s: seq<Span>, start: nat, size: nat, x: nat)
    requires IsHole(s, start, size, x)
    ensures Clear(s, x, size) && x + size <= UPPER_VMA_LIMIT
  {}

  /** An area from page zero on does not get past the lower edge marker. */
  lemma EdgeTaken(vmas: seq<Vma>, ranges: set<Span>, linear: set<Span>, x: nat, v: Vma)
    requires Consistent(vmas, ranges, linear) && x < PAGE_SIZE && v.start == AlignDown(x)
    ensures InsertVma(vmas, v) == vmas && AddRange(ranges, SpanOf(v)) == ranges
  {
    InsertTaken(vmas, v, 0);
    InSpans(vmas, 0);
  }

  lemma MappedBounds(vmas: seq<Vma>, start: nat, end: nat)
    requires ListOk(vmas) && AllMapped(vmas, start, end) && start < end
    ensures 0 < start && end <= UPPER_VMA_LIMIT
  {
    LookupBounds(vmas, start);
    LookupBounds(vmas, end - 1);
  }

  /** A place for a fixed mapping: between the edge markers, and away from all linear mappings. */
  ghost predicate FixedOk(linear: set<Span>, v: Vma) {
    0 < v.start && v.end <= UPPER_VMA_LIMIT && AwayFromAll(linear, v)
  }

  /** An area that reaches beyond the limit becomes the last one, where the upper edge marker was. */
  lemma InsertOnTop(vmas: seq<Vma>, v: Vma)
    requires ListOk(vmas + [UPPER_EDGE]) && Misses(vmas, v.start, v.end) && v.start <= UPPER_VMA_LIMIT < v.end
    ensures !ListOk(InsertVma(vmas, v))
    ensures forall x: nat :: Lookup(InsertVma(vmas, v), x) ==
              if v.start <= x < v.end then Some(Attr(v.perm, v.flags)) else Lookup(vmas, x)
  {
    hide NonEmpty, Lookup;
    BelowTop(vmas, v);
    InsertAt(vmas, v, |vmas|);
    assert InsertVma(vmas, v) == vmas + [v];
    forall x: nat ensures Lookup(vmas + [v], x) == if v.start <= x < v.end then Some(Attr(v.perm, v.flags)) else Lookup(vmas, x) {
      LookupConcat(vmas, [v], x);
      LookupOne(v, x);
      if v.start <= x {
        LookupNone(vmas, x);
      }
    }
  }

  lemma LookupOne(v: Vma, x: nat)
    ensures Lookup([v], x) == if v.start <= x < v.end then Some(Attr(v.perm, v.flags)) else None
  {}

  lemma BelowTop(vmas: seq<Vma>, v: Vma)
    requires ListOk(vmas + [UPPER_EDGE]) && Misses(vmas, v.start, v.end) && v.start <= UPPER_VMA_LIMIT < v.end
    ensures forall i :: 0 <= i < |vmas| ==> vmas[i].start < v.start && vmas[i].end <= v.start
  {
    var full := vmas + [UPPER_EDGE];
    forall i | 0 <= i < |vmas| ensures vmas[i].start < v.start && vmas[i].end <= v.start {
      assert full[i].start < full[|vmas|].start && !Meets(vmas[i], v.start, v.end);
    }
  }

  lemma AlignedWrap(x: nat)
    requires Aligned(x)
    ensures Aligned(x % TWO64)
  {}

  lemma AlignedEnd(addr: nat, len: nat)
    requires Aligned(addr)
    ensures Aligned(addr + len) <==> Aligned(len)
  {}

  lemma LastMapped(vmas: seq<Vma>, start: nat, end: nat)
    requires AllMapped(vmas, start, end) && start < end
    ensures Lookup(vmas, end - 1).Some?
  {}

  /** Only an empty length, or one that overflows when rounded up, becomes zero. */
  lemma RoundsToZero(length: nat)
    requires length < TWO64
    ensures AlignUp(length) <= TWO64 && (AlignUp(length) == 0 <==> length == 0)
  {}

  lemma AlignedSum(a: nat, b: nat)
    requires Aligned(a) && Aligned(b)
    ensures Aligned(a + b)
  {}

  ghost predicate AllMapped(vmas: seq<Vma>, start: nat, end: nat) {
    forall x: nat :: start <= x < end ==> Lookup(vmas, x).Some?
  }

  lemma FewerMapped(vmas: seq<Vma>, start: nat, end: nat, cur: nat)
    requires AllMapped(vmas, start, cur) && end <= cur
    ensures AllMapped(vmas, start, end)
  {}

  lemma NotAllMapped(vmas: seq<Vma>, start: nat, end: nat, x: nat)
    requires start <= x < end && (Lookup(vmas, x) == None || (ListOk(vmas) && x >= UPPER_VMA_LIMIT))
    ensures !AllMapped(vmas, start, end)
  {
    if Lookup(vmas, x).Some? {
      LookupBounds(vmas, x);
    }
  }

  /** An area that starts where the mapped part ends extends it. */
  lemma MoreMapped(vmas: seq<Vma>, p: nat, start: nat, cur: nat)
    requires InOrder(vmas) && p < |vmas| && vmas[p].start <= cur && AllMapped(vmas, start, cur)
    ensures AllMapped(vmas, start, vmas[p].end)
  {
    forall x: nat | start <= x < vmas[p].end ensures Lookup(vmas, x).Some? {
      if cur <= x {
        LookupIn(vmas, p, x);
      }
    }
  }

  /** The first p areas end at or below x. */
  ghost predicate Below(vmas: seq<Vma>, p: nat, x: nat)
    requires p <= |vmas|
  {
    forall k :: 0 <= k < p ==> vmas[k].end <= x
  }

  lemma NotMappedAt(vmas: seq<Vma>, p: nat, x: nat)
    requires InOrder(vmas) && p <= |vmas| && Below(vmas, p, x) && (p < |vmas| ==> x < vmas[p].start)
    ensures Lookup(vmas, x) == None
  {
    LookupNone(vmas, x);
  }

  lemma NextBelow(vmas: seq<Vma>, p: nat, x: nat)
    requires InOrder(vmas) && p < |vmas| && Below(vmas, p, x) && x <= vmas[p].end
    ensures Below(vmas, p + 1, vmas[p].end) && (p + 1 < |vmas| ==> vmas[p].end <= vmas[p + 1].end)
  {}

  /** Areas below the slice end below the range, those above start above it; without a slice nothing is mapped. */
  lemma SliceEdges(vmas: seq<Vma>, start: nat, end: nat)
    requires ListOk(vmas) && OnTheList(vmas, start, end)
    ensures var (first, second) := Intersecting(vmas, start, end);
            && first <= second <= |vmas|
            && (first < second ==> start < end && Below(vmas, first, start) && start <= vmas[first].end)
            && (first < second < |vmas| ==> end <= vmas[second].start)
            && (start < end && first == second ==> Lookup(vmas, start) == None)
    ensures AllMapped(vmas, start, start)
  {
    hide Intersecting, NonEmpty;
    var (first, second) := Intersecting(vmas, start, end);
    SliceMisses(vmas, start, end);
    if first < second {
      IntersectingExact(vmas, start, end, first);
      forall k: nat | k < first ensures vmas[k].end <= start {
        IntersectingExact(vmas, start, end, k);
        assert vmas[k].start < vmas[first].start;
      }
      if second < |vmas| {
        IntersectingExact(vmas, start, end, second);
        assert vmas[first].start < vmas[second].start;
      }
    } else if start < end {
      LookupNone(vmas, start);
    }
  }

  /** Nothing is mapped at address zero or from the upper edge on. */
  lemma LookupBounds(vmas: seq<Vma>, x: nat)
    requires ListOk(vmas) && Lookup(vmas, x).Some?
    ensures 0 < x < UPPER_VMA_LIMIT
  {
    if x == 0 || x >= UPPER_VMA_LIMIT {
      LookupNone(vmas, x);
    }
  }

  /** None of the areas meets the range. */
  ghost predicate Misses(vmas: seq<Vma>, start: nat, end: nat) {
    forall i :: 0 <= i < |vmas| ==> !Meets(vmas[i], start, end)
  }

  /** The areas outside the slice miss the range. */
  lemma SliceMisses(vmas: seq<Vma>, start: nat, end: nat)
    requires ListOk(vmas) && OnTheList(vmas, start, end)
    ensures var (first, second) := Intersecting(vmas, start, end);
            && first <= second <= |vmas|
            && (start < end ==> Misses(vmas[..first], start, end) && Misses(vmas[second..], start, end))
            && (start < end && first == second ==> Misses(vmas, start, end))
  {
    hide Intersecting, ListOk;
    var (first, second) := Intersecting(vmas, start, end);
    ListHasEdges(vmas);
    IntersectingExact(vmas, start, end, 0);
    forall i: nat | i < |vmas| && start < end && !(first <= i < second) ensures !Meets(vmas[i], start, end) {
      IntersectingExact(vmas, start, end, i);
    }
  }

  lemma ListHasEdges(vmas: seq<Vma>)
    requires ListOk(vmas)
    ensures |vmas| >= 2
  {}

  lemma ListIsOk(vmas: seq<Vma>, ranges: set<Span>, linear: set<Span>)
    requires Consistent(vmas, ranges, linear)
    ensures ListOk(vmas)
  {}

  lemma NoPieces(v: Vma)
    ensures Pieces(v, [])
  {}

  lemma NoSpans()
    ensures Spans([]) == {}
  {}

  lemma OnePiece(vmas: seq<Vma>, i: nat, perm: nat)
    requires InOrder(vmas) && i < |vmas|
    ensures Pieces(vmas[i], [vmas[i].(perm := perm)])
  {}

  lemma AlignedEnds(vmas: seq<Vma>, i: nat)
    requires InOrder(vmas) && i < |vmas|
    ensures AlignDown(vmas[i].start) == vmas[i].start && AlignUp(vmas[i].end) == vmas[i].end
  {
    AlignedFixed(vmas[i].start);
    AlignedFixed(vmas[i].end);
  }
}
