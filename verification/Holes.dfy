/**
  The search for an unused range of addresses, find_hole() of core/mmu.cc, over
  the ordered set of all registered ranges.
 */
module Holes {

  const UPPER_VMA_LIMIT: nat := 0x4000_0000_0000
  const HUGE_PAGE_SIZE: nat := 0x20_0000
  const TWO64: nat := 0x1_0000_0000_0000_0000

  datatype Option<T> = None | Some(value: T)

  /** What the search comes to: an address, an error, or a read past the last range. */
  datatype Found = Hole(value: nat) | NoHole | OffTheSet

  /** A registered range of addresses, end exclusive. */
  datatype Span = Span(start: nat, end: nat)

  /** In order of their start, and one after the other. */
  ghost predicate Ordered(ranges: seq<Span>) {
    && (forall i :: 0 <= i < |ranges| ==> ranges[i].start <= ranges[i].end)
    && (forall i, j :: 0 <= i < j < |ranges| ==>
          ranges[i].start < ranges[j].start && ranges[i].end <= ranges[j].start)
  }

  /** The markers at both ends of the space for mappings, and something above it. */
  ghost predicate Bounded(ranges: seq<Span>) {
    && |ranges| > 0 && ranges[0] == Span(0, 0)
    && (exists i :: 0 <= i < |ranges| && ranges[i] == Span(UPPER_VMA_LIMIT, UPPER_VMA_LIMIT))
    && (exists i :: 0 <= i < |ranges| && ranges[i].start > UPPER_VMA_LIMIT)
  }

  /** Every registered range ends before the hole or starts after it. */
  ghost predicate Clear(ranges: seq<Span>, x: nat, size: nat) {
    forall i :: 0 <= i < |ranges| ==> ranges[i].end <= x || x + size <= ranges[i].start
  }

  /** A hole that find_hole() may return. */
  ghost predicate IsHole(ranges: seq<Span>, start: nat, size: nat, x: nat) {
    start <= x && x + size <= UPPER_VMA_LIMIT && Clear(ranges, x, size)
  }

  ghost predicate NoHoles(ranges: seq<Span>, start: nat, size: nat) {
    forall x: nat :: !IsHole(ranges, start, size, x)
  }

  /** Sum of two 64-bit words. */
  function Add64(a: nat, b: nat): nat {
    if a + b < TWO64 then a + b else (a + b) % TWO64
  }

  function AlignUpHuge(x: nat): (r: nat)
    ensures x <= r < x + HUGE_PAGE_SIZE && r % HUGE_PAGE_SIZE == 0
  {
    (x + HUGE_PAGE_SIZE - 1) / HUGE_PAGE_SIZE * HUGE_PAGE_SIZE
  }

  /** The number of ranges that start below x. */
  function LowerBound(ranges: seq<Span>, x: nat): (k: nat)
    requires Ordered(ranges)
    ensures k <= |ranges|
    ensures forall i :: 0 <= i < k ==> ranges[i].start < x
    ensures forall i :: k <= i < |ranges| ==> x <= ranges[i].start
  {
    if ranges == [] || x <= ranges[0].start then 0 else 1 + LowerBound(ranges[1..], x)
  }

  // ------------------------------------------------- looking at one gap

  /** The gap between ranges p and p + 1 has room at x. */
  predicate Room(ranges: seq<Span>, p: nat, size: nat, x: nat)
    requires p + 1 < |ranges|
  {
    ranges[p].end <= x && x + size <= ranges[p + 1].start
  }

  /** What fits between two consecutive ranges touches neither them nor any other. */
  lemma RoomIsHole(ranges: seq<Span>, start: nat, size: nat, p: nat, x: nat)
    requires Ordered(ranges) && p + 1 < |ranges| && Room(ranges, p, size, x)
    requires start <= x && ranges[p + 1].start <= UPPER_VMA_LIMIT
    ensures IsHole(ranges, start, size, x)
  {
    forall i | 0 <= i < |ranges| ensures ranges[i].end <= x || x + size <= ranges[i].start {
      assert i < p ==> ranges[i].end <= ranges[p].start;
      assert i > p + 1 ==> ranges[p + 1].end <= ranges[i].start;
    }
  }

  /** Where the search begins. */
  predicate First(ranges: seq<Span>, start: nat, p: nat) {
    p + 1 < |ranges| && start <= ranges[p + 1].start && (p == 0 || ranges[p].start < start)
  }

  /** All holes lie after range p. */
  ghost predicate HolesAfter(ranges: seq<Span>, start: nat, size: nat, p: nat)
    requires p < |ranges|
  {
    forall x: nat :: IsHole(ranges, start, size, x) ==>
      ranges[p].end <= x && (ranges[p].start < x + size || First(ranges, start, p))
  }

  lemma FirstGap(ranges: seq<Span>, start: nat, size: nat, p: nat)
    requires Ordered(ranges) && Bounded(ranges) && First(ranges, start, p)
    ensures HolesAfter(ranges, start, size, p)
  {}

  /** No room in this gap: all holes lie after the next range. */
  lemma NextGap(ranges: seq<Span>, start: nat, size: nat, p: nat)
    requires Ordered(ranges) && p + 1 < |ranges| && HolesAfter(ranges, start, size, p)
    requires !Room(ranges, p, size, start)
    requires !(ranges[p].end >= start && Room(ranges, p, size, ranges[p].end))
    ensures HolesAfter(ranges, start, size, p + 1)
  {
    forall x: nat | IsHole(ranges, start, size, x)
      ensures ranges[p + 1].end <= x && ranges[p + 1].start < x + size
    {
      assert ranges[p].end <= x;
      assert ranges[p + 1].end <= x;
    }
  }

  /** The hint is no hole if the first room is elsewhere. */
  lemma HintIsNoHole(ranges: seq<Span>, start: nat, size: nat, p: nat)
    requires Ordered(ranges) && p + 1 < |ranges| && HolesAfter(ranges, start, size, p)
    requires !Room(ranges, p, size, start) && ranges[p].end >= start && Room(ranges, p, size, ranges[p].end)
    ensures !IsHole(ranges, start, size, start)
  {}

  /** Nothing fits beyond the last gap below the limit. */
  lemma LastGap(ranges: seq<Span>, start: nat, size: nat, p: nat)
    requires Ordered(ranges) && Bounded(ranges) && p + 1 < |ranges|
    requires ranges[p + 1].start > UPPER_VMA_LIMIT && HolesAfter(ranges, start, size, p)
    ensures NoHoles(ranges, start, size)
  {
    var m :| 0 <= m < |ranges| && ranges[m] == Span(UPPER_VMA_LIMIT, UPPER_VMA_LIMIT);
    assert m <= p;
    forall x: nat ensures !IsHole(ranges, start, size, x) {
      assert m < p ==> ranges[m].end <= ranges[p].start;
    }
  }

  /** Between none of the first p pairs of ranges is there room from a huge page boundary on. */
  ghost predicate NoHugeRoom(ranges: seq<Span>, start: nat, size: nat, p: nat)
    requires p < |ranges|
  {
    forall q :: 0 <= q < p && start <= ranges[q].end ==> !Room(ranges, q, size, AlignUpHuge(ranges[q].end))
  }

  /** All holes on huge page boundaries lie after range p. */
  ghost predicate AlignedAfter(ranges: seq<Span>, start: nat, size: nat, p: nat)
    requires p < |ranges|
  {
    forall x: nat :: IsHole(ranges, start, size, x) && x % HUGE_PAGE_SIZE == 0 ==> ranges[p].end <= x
  }

  lemma AlignUpLeast(x: nat, y: nat)
    requires x <= y && y % HUGE_PAGE_SIZE == 0
    ensures AlignUpHuge(x) <= y
  {}

  /** No room from a huge page boundary on in this gap: all such holes lie after the next range. */
  lemma NextAligned(ranges: seq<Span>, start: nat, size: nat, p: nat)
    requires Ordered(ranges) && p + 1 < |ranges| && AlignedAfter(ranges, start, size, p)
    requires !Room(ranges, p, size, start)
    requires start <= ranges[p].end ==> !Room(ranges, p, size, AlignUpHuge(ranges[p].end))
    ensures AlignedAfter(ranges, start, size, p + 1)
  {
    forall x: nat | IsHole(ranges, start, size, x) && x % HUGE_PAGE_SIZE == 0 ensures ranges[p + 1].end <= x {
      AlignUpLeast(ranges[p].end, x);
    }
  }

  /** Holes lie up to the end of gap g, or after range p. */
  ghost predicate UpTo(ranges: seq<Span>, start: nat, size: nat, g: nat, p: nat)
    requires g + 1 < |ranges| && p < |ranges|
  {
    forall x: nat :: IsHole(ranges, start, size, x) ==> x + size <= ranges[g + 1].start || ranges[p].end <= x
  }

  /** Room anywhere in a gap from the hint on is room at the hint or at its beginning. */
  lemma NoRoomAbove(ranges: seq<Span>, start: nat, size: nat, p: nat, x: nat)
    requires p + 1 < |ranges| && start <= x && Room(ranges, p, size, x)
    ensures Room(ranges, p, size, start) || (ranges[p].end >= start && Room(ranges, p, size, ranges[p].end))
  {}

  lemma UpToNext(ranges: seq<Span>, start: nat, size: nat, g: nat, p: nat)
    requires Ordered(ranges) && g + 1 < |ranges| && p + 1 < |ranges| && UpTo(ranges, start, size, g, p)
    requires !Room(ranges, p, size, start) && !(ranges[p].end >= start && Room(ranges, p, size, ranges[p].end))
    ensures UpTo(ranges, start, size, g, p + 1)
  {
    forall x: nat | IsHole(ranges, start, size, x) ensures x + size <= ranges[g + 1].start || ranges[p + 1].end <= x {
      if ranges[p].end <= x && x + size <= ranges[p + 1].start {
        NoRoomAbove(ranges, start, size, p, x);
      }
    }
  }

  lemma UpToThis(ranges: seq<Span>, start: nat, size: nat, p: nat)
    requires Ordered(ranges) && p + 1 < |ranges|
    ensures UpTo(ranges, start, size, p, p + 1)
  {}

  /** The hole x begins at the end of a range, and no hole is beyond the range that follows it. */
  ghost predicate LastGapStart(ranges: seq<Span>, start: nat, size: nat, x: nat) {
    && (exists g :: 0 <= g < |ranges| && ranges[g].end == x)
    && (forall y: nat :: IsHole(ranges, start, size, y) && x <= y ==> Clear(ranges, x, y + size - x))
  }

  lemma NoneBeyond(ranges: seq<Span>, start: nat, size: nat, g: nat, p: nat)
    requires Ordered(ranges) && Bounded(ranges) && g + 1 < |ranges| && p + 1 < |ranges|
    requires ranges[p + 1].start > UPPER_VMA_LIMIT && UpTo(ranges, start, size, g, p) && g < p
    ensures size > 0 ==> LastGapStart(ranges, start, size, ranges[g].end)
  {
    var m :| 0 <= m < |ranges| && ranges[m] == Span(UPPER_VMA_LIMIT, UPPER_VMA_LIMIT);
    assert m <= p;
    forall y: nat | size > 0 && IsHole(ranges, start, size, y) && ranges[g].end <= y
      ensures Clear(ranges, ranges[g].end, y + size - ranges[g].end)
    {
      assert m < p ==> ranges[m].end <= ranges[p].start;
      assert y + size <= ranges[g + 1].start;
      RoomIsClear(ranges, g, ranges[g].end, y + size - ranges[g].end);
    }
  }

  lemma RoomIsClear(ranges: seq<Span>, p: nat, x: nat, size: nat)
    requires Ordered(ranges) && p + 1 < |ranges| && Room(ranges, p, size, x)
    ensures Clear(ranges, x, size)
  {
    forall i | 0 <= i < |ranges| ensures ranges[i].end <= x || x + size <= ranges[i].start {
      assert i < p ==> ranges[i].end <= ranges[p].start;
      assert i > p + 1 ==> ranges[p + 1].end <= ranges[i].start;
    }
  }

  // ---------------------------------------------------- sizes that overflow

  /** The address lies inside a registered range. */
  ghost predicate Covered(ranges: seq<Span>, x: nat) {
    exists i :: 0 <= i < |ranges| && ranges[i].start < x < ranges[i].end
  }

  lemma NotCovered(ranges: seq<Span>, x: nat, p: nat)
    requires Ordered(ranges) && p + 1 < |ranges| && ranges[p].end <= x <= ranges[p + 1].start
    ensures !Covered(ranges, x)
  {
    forall i | 0 <= i < |ranges| ensures !(ranges[i].start < x < ranges[i].end) {
      assert i < p ==> ranges[i].end <= ranges[p].start;
      assert i > p + 1 ==> ranges[p + 1].end <= ranges[i].start;
    }
  }

  // ------------------------------------------------------------- the search

  /** A hole is found exactly if there is one, and it is one. */
  ghost predicate Correct(ranges: seq<Span>, start: nat, size: nat, r: Found) {
    && (r.Hole? ==> IsHole(ranges, start, size, r.value))
    && (r.NoHole? ==> NoHoles(ranges, start, size))
    && !r.OffTheSet?
  }

  /** Every registered range starts below the address. */
  ghost predicate AboveAll(ranges: seq<Span>, x: nat) {
    forall i :: 0 <= i < |ranges| ==> ranges[i].start < x
  }

  /** There is a range to stop at, and the words start and size do not overflow or no gap is looked at with them. */
  ghost predicate Sane(ranges: seq<Span>, start: nat, size: nat) {
    !AboveAll(ranges, start) && (start + size < TWO64 || start > UPPER_VMA_LIMIT || Covered(ranges, start))
  }

  /** No hole is large enough for a size that overflows. */
  lemma NoHugeHole(ranges: seq<Span>, start: nat, size: nat)
    requires start + size >= TWO64
    ensures NoHoles(ranges, start, size)
  {}

  /**
    Which hole is taken when the hint is none: the lowest; for a large size the
    lowest on a huge page boundary, and without one the start of the last gap.
   */
  ghost predicate Chosen(ranges: seq<Span>, start: nat, size: nat, x: nat) {
    if size < HUGE_PAGE_SIZE then forall y: nat :: IsHole(ranges, start, size, y) ==> x <= y
    else if x % HUGE_PAGE_SIZE == 0 then forall y: nat :: IsHole(ranges, start, size, y) && y % HUGE_PAGE_SIZE == 0 ==> x <= y
    else
      && (forall y: nat :: IsHole(ranges, start, size, y) ==> y % HUGE_PAGE_SIZE != 0)
      && LastGapStart(ranges, start, size, x)
  }

  lemma LowestChosen(ranges: seq<Span>, start: nat, size: nat, p: nat, x: nat)
    requires p < |ranges|
    requires if size < HUGE_PAGE_SIZE then x == ranges[p].end && HolesAfter(ranges, start, size, p)
             else x == AlignUpHuge(ranges[p].end) && AlignedAfter(ranges, start, size, p)
    ensures Chosen(ranges, start, size, x)
  {
    if size >= HUGE_PAGE_SIZE {
      forall y: nat | IsHole(ranges, start, size, y) && y % HUGE_PAGE_SIZE == 0 ensures x <= y {
        AlignUpLeast(ranges[p].end, y);
      }
    }
  }

  lemma FirstAligned(ranges: seq<Span>, start: nat, size: nat, p: nat)
    requires p < |ranges| && HolesAfter(ranges, start, size, p)
    ensures AlignedAfter(ranges, start, size, p)
  {}

  lemma FallbackChosen(ranges: seq<Span>, start: nat, size: nat, g: nat, p: nat)
    requires Ordered(ranges) && Bounded(ranges) && g + 1 < |ranges| && g < p && p + 1 < |ranges| && size >= HUGE_PAGE_SIZE
    requires ranges[p + 1].start > UPPER_VMA_LIMIT && UpTo(ranges, start, size, g, p) && AlignedAfter(ranges, start, size, p)
    requires ranges[g].end % HUGE_PAGE_SIZE != 0
    ensures Chosen(ranges, start, size, ranges[g].end)
  {
    NoneBeyond(ranges, start, size, g, p);
    var m :| 0 <= m < |ranges| && ranges[m] == Span(UPPER_VMA_LIMIT, UPPER_VMA_LIMIT);
    assert m <= p && (m < p ==> ranges[m].end <= ranges[p].start);
  }

  /** One turn of the search: what to return, or a hole to fall back on. */
  method LookAt(ranges: seq<Span>, start: nat, size: nat, p: nat) returns (r: Option<nat>, good: nat)
    requires Ordered(ranges) && p + 1 < |ranges| && ranges[p + 1].start <= UPPER_VMA_LIMIT
    requires size < TWO64 && start <= ranges[p + 1].start
    ensures start + size >= TWO64 ==> good == 0 && r == if start >= ranges[p].end then Some(start) else None
    ensures start + size < TWO64 && r.Some? ==> IsHole(ranges, start, size, r.value)
    ensures good != 0 ==> IsHole(ranges, start, size, good)
    ensures start + size < TWO64 && r != Some(start) && HolesAfter(ranges, start, size, p) ==>
              && (good == 0 && r.None? ==> HolesAfter(ranges, start, size, p + 1))
              && (good != 0 || r.Some? ==> !IsHole(ranges, start, size, start))
    ensures r.None? && size >= HUGE_PAGE_SIZE && start <= ranges[p].end ==>
              !Room(ranges, p, size, AlignUpHuge(ranges[p].end))
    ensures r.Some? && r.value != start && size >= HUGE_PAGE_SIZE ==> r.value % HUGE_PAGE_SIZE == 0
    ensures r.Some? && r.value != start ==>
              ranges[p].end <= r.value && r.value == if size < HUGE_PAGE_SIZE then ranges[p].end else AlignUpHuge(ranges[p].end)
    ensures good != 0 ==> good == ranges[p].end
    ensures good != 0 && r.None? ==> size >= HUGE_PAGE_SIZE && good % HUGE_PAGE_SIZE != 0
    ensures start + size < TWO64 && r != Some(start) ==> !Room(ranges, p, size, start)
    ensures good == 0 && r.None? ==> !(ranges[p].end >= start && ranges[p].end > 0 && Room(ranges, p, size, ranges[p].end))
  {
    hide IsHole, HolesAfter, Ordered;
    r, good := None, 0;
    if start >= ranges[p].end && Add64(start, size) <= ranges[p + 1].start {
      if start + size < TWO64 {
        RoomIsHole(ranges, start, size, p, start);
      }
      return Some(start), 0;
    }
    if start + size < TWO64 && HolesAfter(ranges, start, size, p) {
      if ranges[p].end >= start && Room(ranges, p, size, ranges[p].end) {
        HintIsNoHole(ranges, start, size, p);
      } else {
        NextGap(ranges, start, size, p);
      }
    }
    GapNotNegative(ranges, p);
    if ranges[p].end >= start && ranges[p + 1].start - ranges[p].end >= size {
      good := ranges[p].end;
      RoomIsHole(ranges, start, size, p, good);
      if size < HUGE_PAGE_SIZE {
        return Some(good), good;
      }
      // less than a huge page is skipped and at least that much fits: no underflow
      var aligned := AlignUpHuge(good);
      assert aligned <= ranges[p + 1].start;
      if ranges[p + 1].start - aligned >= size {
        RoomIsHole(ranges, start, size, p, aligned);
        return Some(aligned), good;
      }
    }
  }

  lemma GapNotNegative(ranges: seq<Span>, p: nat)
    requires Ordered(ranges) && p + 1 < |ranges|
    ensures ranges[p].end <= ranges[p + 1].start
  {}

  /**
    The first fitting hole at or above the hint; for a large size one that can
    start on a huge page, if there is any.
   */
  method FindHole(ranges: seq<Span>, start: nat, size: nat) returns (r: Found)
    requires Ordered(ranges) && Bounded(ranges) && start < TWO64 && size < TWO64
    ensures Correct(ranges, start, size, r) <==> Sane(ranges, start, size)
    ensures r.OffTheSet? <==> AboveAll(ranges, start)
    ensures IsHole(ranges, start, size, start) ==> r == Hole(start)
    ensures start + size >= TWO64 && r.Hole? ==> r.value == start
    ensures r.Hole? && r.value != start && size >= HUGE_PAGE_SIZE && r.value % HUGE_PAGE_SIZE != 0 ==>
              exists p :: 0 <= p < |ranges| - 1 && ranges[p + 1].start > UPPER_VMA_LIMIT && NoHugeRoom(ranges, start, size, p)
    ensures start + size < TWO64 && r.Hole? && r.value != start ==> Chosen(ranges, start, size, r.value)
  {
    hide IsHole, HolesAfter, Covered, Room, Ordered, Bounded, Sane, AboveAll, AlignedAfter, UpTo, LastGapStart, Chosen;
    ghost var gap: nat := 0;
    var goodEnough: nat := 0;
    var p := LowerBound(ranges, start);
    OffIff(ranges, start, size, p);
    if p != 0 {
      p := p - 1;
    }
    if p + 1 == |ranges| {
      return OffTheSet;
    }
    ghost var p0 := p;
    FirstPair(ranges, start, p);
    FirstGap(ranges, start, size, p);
    if start + size >= TWO64 {
      NoHugeHole(ranges, start, size);
      SaneOverflow(ranges, start, size, p);
    } else {
      NoOverflow(ranges, start, size);
    }
    FirstAligned(ranges, start, size, p);
    while ranges[p + 1].start <= UPPER_VMA_LIMIT
      invariant p0 <= p && p + 1 < |ranges| && start <= ranges[p + 1].start
      invariant goodEnough != 0 ==> IsHole(ranges, start, size, goodEnough) && !IsHole(ranges, start, size, start)
      invariant goodEnough == 0 && start + size < TWO64 ==> HolesAfter(ranges, start, size, p)
      invariant start + size >= TWO64 ==> goodEnough == 0
      invariant start + size >= TWO64 && p > p0 ==> start < ranges[p0].end
      invariant size >= HUGE_PAGE_SIZE ==> NoHugeRoom(ranges, start, size, p)
      invariant goodEnough != 0 ==> size >= HUGE_PAGE_SIZE && gap < p && goodEnough == ranges[gap].end && goodEnough % HUGE_PAGE_SIZE != 0
      invariant goodEnough != 0 ==> UpTo(ranges, start, size, gap, p)
      invariant start + size < TWO64 && size >= HUGE_PAGE_SIZE ==> AlignedAfter(ranges, start, size, p)
      decreases |ranges| - p
    {
      NextPair(ranges, start, p0, p);
      var found, good := LookAt(ranges, start, size, p);
      if found.Some? {
        if start + size < TWO64 && found.value != start {
          LowestChosen(ranges, start, size, p, found.value);
        }
        return Hole(found.value);
      }
      if start + size < TWO64 {
        Onwards(ranges, start, size, gap, p, goodEnough, good);
      }
      if good != 0 {
        goodEnough, gap := good, p;
      }
      p := p + 1;
    }
    if goodEnough != 0 {
      FallbackChosen(ranges, start, size, gap, p);
      return Hole(goodEnough);
    }
    if start + size < TWO64 {
      LastGap(ranges, start, size, p);
    }
    r := NoHole;
  }

  /** What a gap without a result leaves known. */
  lemma Onwards(ranges: seq<Span>, start: nat, size: nat, gap: nat, p: nat, goodEnough: nat, good: nat)
    requires Ordered(ranges) && p + 1 < |ranges| && !Room(ranges, p, size, start)
    requires goodEnough != 0 ==> gap < p && UpTo(ranges, start, size, gap, p)
    requires good == 0 ==> !(ranges[p].end >= start && ranges[p].end > 0 && Room(ranges, p, size, ranges[p].end))
    requires size >= HUGE_PAGE_SIZE ==> AlignedAfter(ranges, start, size, p)
    requires size >= HUGE_PAGE_SIZE && start <= ranges[p].end ==> !Room(ranges, p, size, AlignUpHuge(ranges[p].end))
    ensures good != 0 ==> UpTo(ranges, start, size, p, p + 1)
    ensures good == 0 && goodEnough != 0 ==> UpTo(ranges, start, size, gap, p + 1)
    ensures size >= HUGE_PAGE_SIZE ==> AlignedAfter(ranges, start, size, p + 1)
  {
    UpToThis(ranges, start, size, p);
    if good == 0 && goodEnough != 0 {
      UpToNext(ranges, start, size, gap, p);
    }
    if size >= HUGE_PAGE_SIZE {
      NextAligned(ranges, start, size, p);
    }
  }

  /** The search runs off the set at once, or it stops at a range above the limit. */
  lemma OffIff(ranges: seq<Span>, start: nat, size: nat, k: nat)
    requires Ordered(ranges) && Bounded(ranges) && k == LowerBound(ranges, start)
    ensures |ranges| > 1 && k <= |ranges| && (k == |ranges| <==> AboveAll(ranges, start))
    ensures AboveAll(ranges, start) ==> !Sane(ranges, start, size) && NoHoles(ranges, start, size)
  {
    var m :| 0 <= m < |ranges| && ranges[m].start > UPPER_VMA_LIMIT;
  }

  /** When start plus size overflows, only a hint inside a range saves the search. */
  lemma SaneOverflow(ranges: seq<Span>, start: nat, size: nat, p: nat)
    requires Ordered(ranges) && Bounded(ranges) && First(ranges, start, p) && !AboveAll(ranges, start)
    requires start + size >= TWO64 > size
    ensures Sane(ranges, start, size) <==> ranges[p + 1].start > UPPER_VMA_LIMIT || start < ranges[p].end
  {
    if start >= ranges[p].end {
      NotCovered(ranges, start, p);
    }
    var m :| 0 <= m < |ranges| && ranges[m] == Span(UPPER_VMA_LIMIT, UPPER_VMA_LIMIT);
    assert m <= p ==> ranges[m].start <= ranges[p].start;
    assert m > p ==> ranges[p + 1].start <= ranges[m].start;
  }

  lemma NoOverflow(ranges: seq<Span>, start: nat, size: nat)
    requires start + size < TWO64 && !AboveAll(ranges, start)
    ensures Sane(ranges, start, size)
  {}

  lemma FirstPair(ranges: seq<Span>, start: nat, p: nat)
    requires Ordered(ranges) && Bounded(ranges) && LowerBound(ranges, start) < |ranges|
    requires var k := LowerBound(ranges, start); p == if k == 0 then 0 else k - 1
    ensures First(ranges, start, p)
    ensures forall size: nat :: NoHugeRoom(ranges, start, size, p)
  {}

  lemma NextPair(ranges: seq<Span>, start: nat, p0: nat, p: nat)
    requires Ordered(ranges) && Bounded(ranges) && p0 <= p && p + 1 < |ranges|
    requires start <= ranges[p + 1].start <= UPPER_VMA_LIMIT
    ensures p + 2 < |ranges| && start <= ranges[p + 2].start
    ensures p0 < p ==> ranges[p0].end <= ranges[p].end
  {
    var m :| 0 <= m < |ranges| && ranges[m].start > UPPER_VMA_LIMIT;
    assert m > p + 1;
  }

  /** Only the markers and memory mapped from base on. */
  function Sparse(base: nat): seq<Span> {
    [Span(0, 0), Span(UPPER_VMA_LIMIT, UPPER_VMA_LIMIT), Span(base, base + 0x1000)]
  }

  lemma SparseOk(base: nat)
    requires base > UPPER_VMA_LIMIT
    ensures Ordered(Sparse(base)) && Bounded(Sparse(base))
  {
    assert Sparse(base)[1] == Span(UPPER_VMA_LIMIT, UPPER_VMA_LIMIT);
    assert Sparse(base)[2].start > UPPER_VMA_LIMIT;
  }

  /** A size for which the search returns its hint although nothing fits anywhere. */
  method OverflowingSize() returns (r: Found)
    ensures r == Hole(0x2000_0000_0000)
    ensures NoHoles(Sparse(0x6000_0000_0000), 0x2000_0000_0000, TWO64 - 0x1000)
  {
    var ranges := Sparse(0x6000_0000_0000);
    SparseOk(0x6000_0000_0000);
    NoHugeHole(ranges, 0x2000_0000_0000, TWO64 - 0x1000);
    assert ranges[1].start >= 0x2000_0000_0000;
    r := FindHole(ranges, 0x2000_0000_0000, TWO64 - 0x1000);
    assert !Covered(ranges, 0x2000_0000_0000);
  }

  /** A hint above all registered ranges: the search reads past the last of them. */
  method HintAboveAll(size: nat) returns (r: Found)
    requires size < TWO64
    ensures r == OffTheSet
  {
    SparseOk(0x6000_0000_0000);
    r := FindHole(Sparse(0x6000_0000_0000), 0x7000_0000_0000, size);
  }
}
