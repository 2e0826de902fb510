/**
  page_range_allocator of core/mempool.cc: segregated free lists with boundary
  tags.  `free` and `cut` are bookkeeping: which pages are free, and at which
  page numbers a range that was handed out begins or ends.
 */
module PageRanges {
  import opened Log2
  import opened PageHeap
  import opened Division

  datatype Option<T> = None | Some(value: T)

  /** First page of the linear map of physical memory. */
  const PHYS_MEM: nat := 0x4_0000_0000

  // ----------------------------------------------------- trust in the bitmap

  /** The bits next to position c tell the truth about pages in use. */
  predicate Clean(bitmap: seq<bool>, free: seq<bool>, c: nat)
    requires |bitmap| == |free| && c <= |free|
  {
    && (c < |free| && !free[c] ==> !bitmap[c])
    && (c > 0 && !free[c - 1] ==> !bitmap[c - 1])
  }

  /** Bits are right at the cuts, and used and free pages meet only at cuts. */
  ghost predicate CutsOk(bitmap: seq<bool>, free: seq<bool>, cut: seq<bool>) {
    && |bitmap| == |free| && |cut| == |free| + 1
    && (forall c :: 0 <= c < |cut| && cut[c] ==> Clean(bitmap, free, c))
    && (forall c :: 0 < c < |free| && free[c - 1] != free[c] ==> cut[c])
  }

  /** Pages in use, from one cut to another: what may be freed as a range. */
  ghost predicate Held(free: seq<bool>, cut: seq<bool>, h: nat, n: nat) {
    |cut| == |free| + 1 && n > 0 && AllAre(free, h, n, false) && cut[h] && cut[h + n]
  }

  /** The cuts after handing out n pages at h, page by page if filled. */
  function Handed(cut: seq<bool>, h: nat, n: nat, fill: bool): seq<bool>
    requires h + n < |cut|
  {
    Fill(cut, h, n + 1, fill)[h := true][h + n := true]
  }

  /** What handing out a range does to the bitmap. */
  ghost predicate TookBits(bitmap: seq<bool>, bitmap': seq<bool>, free: seq<bool>, h: nat, n: nat, fill: bool) {
    && |bitmap'| == |bitmap| == |free| && n > 0 && h + n <= |free|
    && !bitmap'[h] && !bitmap'[h + n - 1]
    && (fill ==> AllAre(bitmap', h, n, false))
    && (forall p :: 0 <= p < |free| && !free[p] ==> bitmap'[p] == bitmap[p])
  }

  lemma TakeClean(bitmap: seq<bool>, bitmap': seq<bool>, free: seq<bool>, cut: seq<bool>, h: nat, n: nat, fill: bool, c: nat)
    requires CutsOk(bitmap, free, cut) && n > 0 && AllAre(free, h, n, true)
    requires TookBits(bitmap, bitmap', free, h, n, fill)
    requires c < |cut| && Handed(cut, h, n, fill)[c]
    ensures Clean(bitmap', Fill(free, h, n, false), c)
  {
    if c == h {
      assert h > 0 && !free[h - 1] ==> cut[h];
    } else if c == h + n {
      assert c < |free| && !free[c] ==> free[c - 1] && cut[c];
    }
  }

  lemma TakeCuts(bitmap: seq<bool>, bitmap': seq<bool>, free: seq<bool>, cut: seq<bool>, h: nat, n: nat, fill: bool)
    requires CutsOk(bitmap, free, cut) && n > 0 && AllAre(free, h, n, true)
    requires TookBits(bitmap, bitmap', free, h, n, fill)
    ensures CutsOk(bitmap', Fill(free, h, n, false), Handed(cut, h, n, fill))
  {
    hide Clean, TookBits;
    assert |bitmap'| == |bitmap| by { TookSameLength(bitmap, bitmap', free, h, n, fill); }
    forall c | 0 <= c < |cut| && Handed(cut, h, n, fill)[c] ensures Clean(bitmap', Fill(free, h, n, false), c) {
      TakeClean(bitmap, bitmap', free, cut, h, n, fill, c);
    }
  }

  lemma TookSameLength(bitmap: seq<bool>, bitmap': seq<bool>, free: seq<bool>, h: nat, n: nat, fill: bool)
    requires TookBits(bitmap, bitmap', free, h, n, fill)
    ensures |bitmap'| == |bitmap|
  {}

  lemma FreeCuts(bitmap: seq<bool>, bitmap': seq<bool>, free: seq<bool>, cut: seq<bool>, h: nat, n: nat)
    requires CutsOk(bitmap, free, cut) && Held(free, cut, h, n) && |bitmap'| == |bitmap|
    requires forall p :: 0 <= p < |free| && !free[p] && !(h <= p < h + n) ==> bitmap'[p] == bitmap[p]
    ensures CutsOk(bitmap', Fill(free, h, n, true), cut)
  {}

  /** Any part of a range that was taken off its list can be listed by itself. */
  lemma PartIsolated(free: seq<bool>, h: nat, s: nat, x: nat, m: nat)
    requires IsRange(free, h, s) && h <= x && x + m <= h + s
    ensures AllAre(Fill(free, h, s, false), x, m, false) && Isolated(Fill(free, h, s, false), x, m)
  {}

  /** Taking a range and giving back all but its first n pages. */
  lemma GiveBackHigh(free: seq<bool>, h: nat, s: nat, n: nat)
    requires IsRange(free, h, s) && n <= s
    ensures Fill(Fill(free, h, s, false), h + n, s - n, true) == Fill(free, h, n, false)
  {}

  /** Listing the ends of a range taken off its list, all but the n pages in between. */
  lemma GiveBackEnds(free: seq<bool>, h: nat, low: nat, n: nat, high: nat)
    requires n > 0 && IsRange(free, h, low + n + high)
    ensures var taken := Fill(Fill(free, h, low + n + high, false), h + low + n, high, true);
            && AllAre(taken, h, low, false) && Isolated(taken, h, low)
            && !taken[h + low]
            && Fill(taken, h, low, true) == Fill(free, h + low, n, false)
    ensures AllAre(free, h + low, n, true)
  {}

  /** Only bits of pages within the range differ. */
  ghost predicate BitsWithin(bitmap: seq<bool>, bitmap': seq<bool>, h: nat, n: nat) {
    |bitmap'| == |bitmap| && forall p :: 0 <= p < |bitmap| && !(h <= p < h + n) ==> bitmap'[p] == bitmap[p]
  }

  lemma RangeParts(a: Heap, free: seq<bool>, h: nat)
    requires |a.bitmap| == |a.size| == |a.back| == |free|
    requires Block(a, free, h)
    ensures h < |free| && IsRange(free, h, a.size[h]) && h + a.size[h] <= |free|
  {}

  /** The bit below a range in use tells whether a free range ends there, and its last word where that starts. */
  lemma LowNeighbour(a: Heap, free: seq<bool>, cut: seq<bool>, h: nat)
    requires Describes(a, free) && CutsOk(a.bitmap, free, cut)
    requires 0 < h < |free| && !free[h] && cut[h]
    ensures a.bitmap[h - 1] <==> free[h - 1]
    ensures free[h - 1] ==> a.back[h - 1] < h && Starts(free, a.back[h - 1])
                            && a.back[h - 1] + a.size[a.back[h - 1]] == h
  {
    if free[h - 1] {
      CoversPages(a, free, h - 1, 1);
    }
  }

  /** The bit above it tells whether a free range starts there. */
  lemma HighNeighbour(a: Heap, free: seq<bool>, cut: seq<bool>, h: nat, n: nat)
    requires Describes(a, free) && CutsOk(a.bitmap, free, cut)
    requires Held(free, cut, h, n) && h + n < |free|
    ensures a.bitmap[h + n] <==> free[h + n]
  {
    if free[h + n] {
      StartIsBlock(a, free, h + n);
    }
  }

  lemma MergedLow(free: seq<bool>, h: nat, low: nat, n: nat)
    requires AllAre(free, h, low, true) && AllAre(free, h + low, n, false)
    ensures AllAre(Fill(free, h, low, false), h, low + n, false)
    ensures h + low + n < |free| ==> Fill(free, h, low, false)[h + low + n] == free[h + low + n]
  {}

  /** Taking the free ranges next to used pages and freeing it all: only the used pages change. */
  lemma MergedHigh(free: seq<bool>, free1: seq<bool>, free2: seq<bool>, h: nat, low: nat, n: nat, high: nat)
    requires AllAre(free, h, low, true) && (h > 0 ==> !free[h - 1]) && AllAre(free, h + low, n, false)
    requires free1 == Fill(free, h, low, false) && n > 0
    requires AllAre(free1, h + low + n, high, true)
    requires h + low + n + high < |free1| ==> !free1[h + low + n + high]
    requires free2 == Fill(free1, h + low + n, high, false)
    ensures AllAre(free, h + low + n, high, true)
    ensures AllAre(free2, h, low + n + high, false) && Isolated(free2, h, low + n + high)
    ensures Fill(free2, h, low + n + high, true) == Fill(free, h + low, n, true)
  {}

  lemma MergedBits(bitmap: seq<bool>, free: seq<bool>, cut: seq<bool>, h: nat, low: nat, n: nat, high: nat)
    requires h + low + n + high <= |free| && CutsOk(bitmap, free, cut) && Held(free, cut, h + low, n)
    requires AllAre(free, h, low, true) && AllAre(free, h + low + n, high, true)
    ensures CutsOk(bitmap[h := true][h + low + n + high - 1 := true], Fill(free, h + low, n, true), cut)
  {
    var bitmap' := bitmap[h := true][h + low + n + high - 1 := true];
    FreeCuts(bitmap, bitmap', free, cut, h + low, n);
  }

  lemma HeldFits(free: seq<bool>, cut: seq<bool>, h: nat, n: nat)
    requires Held(free, cut, h, n)
    ensures h + n <= |free|
  {}

  // --------------------------------------------------------- finding a list

  /** The lowest bit set from o on; the number of bits if there is none. */
  function FirstSet(bits: seq<bool>, o: nat): (r: nat)
    requires o <= |bits|
    ensures o <= r <= |bits| && (r < |bits| ==> bits[r])
    ensures forall k :: o <= k < r ==> !bits[k]
    decreases |bits| - o
  {
    if o == |bits| || bits[o] then o else FirstSet(bits, o + 1)
  }

  function ExactOrder(n: nat): nat {
    if Ilog2Roundup(n) > MAX_ORDER then MAX_ORDER else Ilog2Roundup(n)
  }

  /** Pages that a range must have for every range of its order to suffice. */
  function RoundedUp(n: nat): (r: nat)
    ensures n <= r
  {
    if n > Pow2(ExactOrder(n)) then n else Pow2(ExactOrder(n))
  }

  /** Every range on a list of at least the exact order, below the huge ones, is large enough. */
  lemma LargeOrder(n: nat, s: nat)
    requires 0 < n && 0 < s && ExactOrder(n) <= Order(s)
    ensures Order(s) < MAX_ORDER ==> n <= s
    ensures n <= s ==> RoundedUp(n) <= s
  {
    RoundupBounds(n);
    Ilog2Bounds(s);
    Pow2Monotone(ExactOrder(n), Ilog2(s));
  }

  /** A range that is large enough is at most one order below the exact one. */
  lemma SmallOrder(n: nat, s: nat)
    requires 0 < n <= s
    ensures ExactOrder(n) <= Order(s) + 1
    ensures RoundedUp(n) <= s ==> ExactOrder(n) <= Order(s)
    ensures Order(s) < MAX_ORDER ==> Ilog2Roundup(n) <= MAX_ORDER
  {
    RoundupBounds(n);
    Ilog2Monotone(n, s);
    if RoundedUp(n) <= s && ExactOrder(n) > Ilog2(s) {
      Ilog2Bounds(s);
      Pow2Monotone(Ilog2(s) + 1, ExactOrder(n));
    }
  }

  /** Some n pages in a row are free. */
  ghost predicate Serves(free: seq<bool>, n: nat) {
    exists x: nat :: AllAre(free, x, n, true)
  }

  /** Free pages in a row are in some listed range. */
  lemma Holder(a: Heap, free: seq<bool>, n: nat) returns (o: nat, i: nat)
    requires Describes(a, free) && n > 0 && Serves(free, n)
    ensures o <= MAX_ORDER && i < |a.lists[o]| && InOrder(a, free, o, a.lists[o][i])
    ensures a.size[a.lists[o][i]] >= n && a.notEmpty[o]
  {
    var x: nat :| AllAre(free, x, n, true);
    CoversPages(a, free, x, n);
    var h := RangeStart(free, x);
    o := Order(a.size[h]);
    i :| i < |a.lists[o]| && a.lists[o][i] == h;
    assert InOrder(a, free, o, a.lists[o][i]);
  }

  lemma Enough(a: Heap, free: seq<bool>, h: nat, n: nat)
    requires |a.bitmap| == |a.size| == |a.back| == |free|
    requires Block(a, free, h) && n <= a.size[h]
    ensures Serves(free, n)
  {
    assert AllAre(free, h, n, true);
  }

  lemma DescribedShape(a: Heap, free: seq<bool>)
    requires Describes(a, free)
    ensures Shape(a, free) && forall o: nat :: o <= MAX_ORDER ==> (a.notEmpty[o] <==> a.lists[o] != [])
  {}

  lemma ListedBlock(a: Heap, free: seq<bool>, o: nat, i: nat)
    requires Describes(a, free) && o <= MAX_ORDER && i < |a.lists[o]|
    ensures Block(a, free, a.lists[o][i]) && Order(a.size[a.lists[o][i]]) == o
    ensures a.lists[o][i] < |a.size| && 0 < a.size[a.lists[o][i]]
  {
    assert InOrder(a, free, o, a.lists[o][i]);
  }

  ghost predicate AllBelow(list: seq<nat>, size: seq<nat>, n: nat) {
    forall i :: 0 <= i < |list| && list[i] < |size| ==> size[list[i]] < n
  }

  /** No list of the exact order or above: only the one below it can help. */
  lemma NoList(a: Heap, free: seq<bool>, n: nat)
    requires Describes(a, free) && n > 0 && FirstSet(a.notEmpty, ExactOrder(n)) > MAX_ORDER
    ensures !Serves(free, RoundedUp(n))
    ensures ExactOrder(n) == 0 || AllBelow(a.lists[ExactOrder(n) - 1], a.size, n) ==> !Serves(free, n)
  {
    if Serves(free, RoundedUp(n)) {
      var o, i := Holder(a, free, RoundedUp(n));
      SmallOrder(n, a.size[a.lists[o][i]]);
      assert false;
    }
    if (ExactOrder(n) == 0 || AllBelow(a.lists[ExactOrder(n) - 1], a.size, n)) && Serves(free, n) {
      var o, i := Holder(a, free, n);
      SmallOrder(n, a.size[a.lists[o][i]]);
      assert false;
    }
  }

  /** Only huge ranges are left and the largest of them is too small. */
  lemma HugeTooSmall(a: Heap, free: seq<bool>, n: nat, m: nat)
    requires Describes(a, free) && m >= n > 0 && a.lists[MAX_ORDER] != []
    requires var last := a.lists[MAX_ORDER][|a.lists[MAX_ORDER]| - 1]; last < |a.size| && a.size[last] < n
    ensures !Serves(free, m)
  {
    if Serves(free, m) {
      var k := |a.lists[MAX_ORDER]| - 1;
      var last := a.lists[MAX_ORDER][k];
      assert InOrder(a, free, MAX_ORDER, a.lists[MAX_ORDER][k]);
      var o, i := Holder(a, free, m);
      var h := a.lists[o][i];
      Ilog2Monotone(a.size[last], a.size[h]);
      assert false;
    }
  }

  /**
    Which range alloc() takes its pages from, by size: one of the least order
    that surely suffices, of the huge ones the largest, and one of a lower order
    only if there is no other.
   */
  ghost predicate BestOrder(free: seq<bool>, n: nat, s: nat) {
    && (forall x: nat, m: nat :: IsRange(free, x, m) && ExactOrder(n) <= Order(m) ==> ExactOrder(n) <= Order(s) <= Order(m))
    && (Order(s) == MAX_ORDER ==> forall x: nat, m: nat :: IsRange(free, x, m) ==> m <= s)
  }

  /** A maximal range is on the list of its order. */
  lemma RangeIsListed(a: Heap, free: seq<bool>, x: nat, m: nat)
    requires Describes(a, free) && IsRange(free, x, m)
    ensures x < |a.size| && a.size[x] == m && x in a.lists[Order(m)] && a.notEmpty[Order(m)]
  {
    assert Starts(free, x);
    StartIsBlock(a, free, x);
    SameRange(free, x, m, a.size[x]);
  }

  lemma SameRange(free: seq<bool>, x: nat, m: nat, k: nat)
    requires IsRange(free, x, m) && IsRange(free, x, k)
    ensures m == k
  {}

  lemma HugestOfAll(a: Heap, free: seq<bool>, h: nat, x: nat, m: nat)
    requires Describes(a, free) && a.lists[MAX_ORDER] != [] && h == a.lists[MAX_ORDER][|a.lists[MAX_ORDER]| - 1]
    requires IsRange(free, x, m)
    ensures h < |a.size| && m <= a.size[h]
  {
    hide IsRange;
    var list := a.lists[MAX_ORDER];
    ListedBlock(a, free, MAX_ORDER, |list| - 1);
    RangeIsListed(a, free, x, m);
    if m > a.size[h] {
      Ilog2Monotone(a.size[h], m);
      var i :| 0 <= i < |list| && list[i] == x;
      InSizeOrder(a, free, i);
    }
  }

  lemma InSizeOrder(a: Heap, free: seq<bool>, i: nat)
    requires Describes(a, free) && i < |a.lists[MAX_ORDER]|
    ensures var list := a.lists[MAX_ORDER];
            forall j :: i <= j < |list| ==> list[i] < |a.size| && list[j] < |a.size| && a.size[list[i]] <= a.size[list[j]]
  {}

  /** The first list from the exact order on that has any range. */
  lemma BestOfOrder(a: Heap, free: seq<bool>, n: nat, h: nat)
    requires Describes(a, free) && FirstSet(a.notEmpty, ExactOrder(n)) <= MAX_ORDER
    requires var o := FirstSet(a.notEmpty, ExactOrder(n));
             && h < |a.size| && Order(a.size[h]) == o && a.lists[o] != []
             && (o == MAX_ORDER ==> h == a.lists[o][|a.lists[o]| - 1])
    ensures BestOrder(free, n, a.size[h])
  {
    hide Describes, IsRange;
    forall x: nat, m: nat | IsRange(free, x, m) && ExactOrder(n) <= Order(m)
      ensures ExactOrder(n) <= Order(a.size[h]) <= Order(m)
    {
      RangeIsListed(a, free, x, m);
    }
    if Order(a.size[h]) == MAX_ORDER {
      forall x: nat, m: nat | IsRange(free, x, m) ensures m <= a.size[h] {
        HugestOfAll(a, free, h, x, m);
      }
    }
  }

  /** No such list: no range has the exact order. */
  lemma BestBelow(a: Heap, free: seq<bool>, n: nat, s: nat)
    requires Describes(a, free) && FirstSet(a.notEmpty, ExactOrder(n)) > MAX_ORDER && Order(s) < MAX_ORDER
    ensures BestOrder(free, n, s)
  {
    hide Describes, IsRange;
    forall x: nat, m: nat | IsRange(free, x, m) ensures Order(m) < ExactOrder(n) {
      RangeIsListed(a, free, x, m);
    }
  }

  // ------------------------------------------------------------ ownership

  /** What was handed out may be freed: as a whole, or in any pieces if it was filled. */
  lemma HandedIsHeld(free: seq<bool>, cut: seq<bool>, h: nat, n: nat, fill: bool, x: nat, m: nat)
    requires |cut| == |free| + 1 && h + n <= |free|
    requires h <= x && 0 < m && x + m <= h + n && (fill || (x == h && m == n))
    ensures Held(Fill(free, h, n, false), Handed(cut, h, n, fill), x, m)
  {}

  /** What was held before an allocation is still held, and apart from the new range. */
  lemma AllocKeepsHeld(free: seq<bool>, cut: seq<bool>, h: nat, n: nat, fill: bool, x: nat, m: nat)
    requires |cut| == |free| + 1 && n > 0 && AllAre(free, h, n, true) && Held(free, cut, x, m)
    ensures x + m <= h || h + n <= x
    ensures Held(Fill(free, h, n, false), Handed(cut, h, n, fill), x, m)
  {
    assert free[h] && !free[x];
  }

  /** Freeing one range leaves every other holding alone. */
  lemma FreeKeepsHeld(free: seq<bool>, cut: seq<bool>, h: nat, n: nat, x: nat, m: nat)
    requires Held(free, cut, h, n) && Held(free, cut, x, m) && (x + m <= h || h + n <= x)
    ensures Held(Fill(free, h, n, true), cut, x, m)
  {}

  // -------------------------------------------------------- aligned ranges

  /** Page x plus the offset lies on the wanted boundary. */
  predicate Aligned(x: int, offset: nat, alignment: nat)
    requires alignment > 0
  {
    (PHYS_MEM + x + offset) % alignment == 0
  }

  /** How far the highest placement in the range at h must move down. */
  function Shift(h: nat, s: nat, n: nat, offset: nat, alignment: nat): nat
    requires alignment > 0
  {
    (PHYS_MEM + h + s - n + offset) % alignment
  }

  /** A range has an aligned placement exactly if it still fits after the shift, and that is the highest. */
  lemma HighestPlacement(h: nat, s: nat, n: nat, offset: nat, alignment: nat, x: int)
    requires alignment > 0
    ensures h <= x <= h + s - n && Aligned(x, offset, alignment) ==>
              x <= h + s - n - Shift(h, s, n, offset, alignment)
    ensures Aligned(h + s - n - Shift(h, s, n, offset, alignment), offset, alignment)
  {
    var e := PHYS_MEM + h + s - n + offset;
    ModDown(e, if x <= h + s - n then h + s - n - x else 0, alignment);
    assert x <= h + s - n ==> PHYS_MEM + x + offset == e - (h + s - n - x);
  }

  predicate Fits(size: seq<nat>, h: nat, n: nat, offset: nat, alignment: nat)
    requires alignment > 0 && h < |size|
  {
    size[h] >= n + Shift(h, size[h], n, offset, alignment)
  }

  /** Some n pages in a row are free and aligned as wanted. */
  ghost predicate ServesAligned(free: seq<bool>, n: nat, offset: nat, alignment: nat)
    requires alignment > 0
  {
    exists x: nat :: AllAre(free, x, n, true) && Aligned(x, offset, alignment)
  }

  /** Ranges on lists below this order are never large enough. */
  function MinOrder(n: nat): nat {
    if Ilog2(n) > 1 then Ilog2(n) - 1 else 0
  }

  ghost predicate NoneFits(list: seq<nat>, size: seq<nat>, n: nat, offset: nat, alignment: nat)
    requires alignment > 0
  {
    forall i :: 0 <= i < |list| && list[i] < |size| ==> !Fits(size, list[i], n, offset, alignment)
  }

  /** Free aligned pages lie in a listed range that fits, on one of the lists looked at. */
  lemma AlignedHolder(a: Heap, free: seq<bool>, n: nat, offset: nat, alignment: nat) returns (o: nat, i: nat)
    requires Describes(a, free) && n > 0 && alignment > 0 && ServesAligned(free, n, offset, alignment)
    ensures o <= MAX_ORDER && (o == MAX_ORDER || MinOrder(n) <= o)
    ensures i < |a.lists[o]| && a.lists[o][i] < |a.size| && Fits(a.size, a.lists[o][i], n, offset, alignment)
  {
    var x: nat :| AllAre(free, x, n, true) && Aligned(x, offset, alignment);
    CoversPages(a, free, x, n);
    var h := RangeStart(free, x);
    o := Order(a.size[h]);
    i :| i < |a.lists[o]| && a.lists[o][i] == h;
    HighestPlacement(h, a.size[h], n, offset, alignment, x);
    Ilog2Monotone(n, a.size[h]);
  }

  lemma NoAligned(a: Heap, free: seq<bool>, n: nat, offset: nat, alignment: nat)
    requires Describes(a, free) && n > 0 && alignment > 0
    requires forall o: nat :: o <= MAX_ORDER && (o == MAX_ORDER || MinOrder(n) <= o) ==>
               NoneFits(a.lists[o], a.size, n, offset, alignment)
    ensures !ServesAligned(free, n, offset, alignment)
  {
    if ServesAligned(free, n, offset, alignment) {
      var o, i := AlignedHolder(a, free, n, offset, alignment);
      assert false;
    }
  }

  lemma StartOfRange(free: seq<bool>, h: nat, s: nat)
    requires IsRange(free, h, s)
    ensures Starts(free, h)
  {}

  /** The m pages from y on have an aligned placement. */
  ghost predicate HasPlacement(y: nat, m: nat, n: nat, offset: nat, alignment: nat)
    requires alignment > 0
  {
    exists x: nat :: y <= x && x + n <= y + m && Aligned(x, offset, alignment)
  }

  /** A range of s pages comes first: those with a placement are of no higher order, and no smaller if they are huge. */
  ghost predicate FirstInTurn(free: seq<bool>, s: nat, n: nat, offset: nat, alignment: nat)
    requires alignment > 0
  {
    forall y: nat, m: nat :: IsRange(free, y, m) && HasPlacement(y, m, n, offset, alignment) ==>
      Order(m) <= Order(s) && (Order(m) == MAX_ORDER ==> s <= m)
  }

  lemma PlacementFits(a: Heap, free: seq<bool>, y: nat, m: nat, n: nat, offset: nat, alignment: nat)
    requires Describes(a, free) && n > 0 && alignment > 0 && IsRange(free, y, m) && HasPlacement(y, m, n, offset, alignment)
    ensures y < |a.size| && a.size[y] == m && y in a.lists[Order(m)] && Fits(a.size, y, n, offset, alignment)
    ensures Order(m) == MAX_ORDER || MinOrder(n) <= Order(m)
  {
    RangeIsListed(a, free, y, m);
    var x: nat :| y <= x && x + n <= y + m && Aligned(x, offset, alignment);
    HighestPlacement(y, m, n, offset, alignment, x);
    Ilog2Monotone(n, m);
  }

  /** A range that fits is not among those looked at before. */
  lemma NotBefore(list: seq<nat>, size: seq<nat>, n: nat, offset: nat, alignment: nat, i: nat, j: nat)
    requires alignment > 0 && i <= |list| && j < |list| && list[j] < |size| && Fits(size, list[j], n, offset, alignment)
    requires NoneFits(list[..i], size, n, offset, alignment)
    ensures i <= j
  {
    hide NoneFits;
    if j < i {
      OneFits(list[..i], size, n, offset, alignment, j);
    }
  }

  lemma OneFits(list: seq<nat>, size: seq<nat>, n: nat, offset: nat, alignment: nat, j: nat)
    requires alignment > 0 && j < |list| && list[j] < |size| && Fits(size, list[j], n, offset, alignment)
    ensures !NoneFits(list, size, n, offset, alignment)
  {}

  lemma TurnOk(a: Heap, free: seq<bool>, n: nat, offset: nat, alignment: nat, o: nat, i: nat)
    requires Describes(a, free) && n > 0 && alignment > 0 && o <= MAX_ORDER && i < |a.lists[o]| && a.lists[o][i] < |a.size|
    requires Order(a.size[a.lists[o][i]]) == o
    requires forall k: nat :: o < k <= MAX_ORDER ==> NoneFits(a.lists[k], a.size, n, offset, alignment)
    requires NoneFits(a.lists[o][..i], a.size, n, offset, alignment)
    ensures FirstInTurn(free, a.size[a.lists[o][i]], n, offset, alignment)
  {
    DescribedShape(a, free);
    hide Describes, IsRange, HasPlacement, Fits;
    var s := a.size[a.lists[o][i]];
    forall y: nat, m: nat | IsRange(free, y, m) && HasPlacement(y, m, n, offset, alignment)
      ensures Order(m) <= Order(s) && (Order(m) == MAX_ORDER ==> s <= m)
    {
      PlacementFits(a, free, y, m, n, offset, alignment);
      var j :| 0 <= j < |a.lists[Order(m)]| && a.lists[Order(m)][j] == y;
      if Order(m) == MAX_ORDER {
        NotBefore(a.lists[o], a.size, n, offset, alignment, i, j);
        InSizeOrder(a, free, i);
      }
    }
  }

  /** The pages are the highest aligned placement in a maximal range that comes first. */
  ghost predicate Placed(free: seq<bool>, h: nat, n: nat, offset: nat, alignment: nat)
    requires alignment > 0
  {
    exists y: nat, s: nat ::
      && IsRange(free, y, s) && y <= h && h + n <= y + s && FirstInTurn(free, s, n, offset, alignment)
      && forall x: nat :: h < x && x + n <= y + s ==> !Aligned(x, offset, alignment)
  }

  lemma IsPlaced(free: seq<bool>, y: nat, s: nat, n: nat, offset: nat, alignment: nat)
    requires alignment > 0 && n > 0 && IsRange(free, y, s) && FirstInTurn(free, s, n, offset, alignment)
    requires s >= n + Shift(y, s, n, offset, alignment)
    ensures Placed(free, y + s - n - Shift(y, s, n, offset, alignment), n, offset, alignment)
  {
    var h := y + s - n - Shift(y, s, n, offset, alignment);
    forall x: nat | h < x && x + n <= y + s ensures !Aligned(x, offset, alignment) {
      HighestPlacement(y, s, n, offset, alignment, x);
    }
  }

  // ----------------------------------------------------------- the allocator

  class PageRangeAllocator {
    var bitmap: seq<bool>
    var size: seq<nat>
    var back: seq<nat>
    var lists: seq<seq<nat>>
    var notEmpty: seq<bool>
    ghost var free: seq<bool>
    ghost var cut: seq<bool>

    ghost function View(): Heap
      reads this
    {
      Heap(bitmap, size, back, lists, notEmpty)
    }

    ghost predicate Valid()
      reads this
    {
      Describes(View(), free) && CutsOk(bitmap, free, cut)
    }

    /** Memory of n pages, all of it in use; boot code frees what it does not need. */
    constructor (n: nat)
      ensures Valid() && free == seq(n, _ => false) && cut == seq(n + 1, _ => true)
    {
      bitmap := seq(n, _ => false);
      size := seq(n, _ => 0);
      back := seq(n, _ => 0);
      lists := seq(MAX_ORDER + 1, _ => []);
      notEmpty := seq(MAX_ORDER + 1, _ => false);
      free := seq(n, _ => false);
      cut := seq(n + 1, _ => true);
    }

    /** The owner of a page writes whatever it likes there. */
    method ClientWrite(p: nat, header: nat, end: nat)
      requires Valid() && p < |free| && !free[p]
      modifies `size, `back
      ensures Valid()
    {
      ghost var a := View();
      size := size[p := header];
      back := back[p := end];
      UsedPagesIgnored(a, View(), free);
    }

    method SetBits(h: nat, value: bool, fill: bool)
      requires |bitmap| == |size| && h < |size| && 0 < size[h] <= |size| - h
      modifies `bitmap
      ensures fill ==> bitmap == Fill(old(bitmap), h, size[h], value)
      ensures !fill ==> bitmap == old(bitmap)[h := value][h + size[h] - 1 := value]
    {
      var end := size[h] - 1;
      if fill {
        var i := 0;
        while i <= end
          invariant i <= end + 1
          invariant bitmap == Fill(old(bitmap), h, i, value)
        {
          bitmap := bitmap[h + i := value];
          i := i + 1;
        }
      } else {
        bitmap := bitmap[h := value];
        bitmap := bitmap[h + end := value];
      }
    }

    method Insert(h: nat)
      requires Describes(View(), free) && CanInsert(View(), free, h)
      modifies `bitmap, `back, `lists, `notEmpty, `free
      ensures free == Fill(old(free), h, size[h], true) && Describes(View(), free)
      ensures bitmap == old(bitmap)[h := true][h + size[h] - 1 := true]
    {
      hide ListedIsFree, FreeIsListed, ListsOk, Isolated;
      ghost var a := View();
      InsertKeeps(a, free, h);
      back := back[h + size[h] - 1 := h];
      var order := Ilog2(size[h]);
      if order >= MAX_ORDER {
        lists := lists[MAX_ORDER := Place(lists[MAX_ORDER], size, h)];
        notEmpty := notEmpty[MAX_ORDER := true];
      } else {
        lists := lists[order := [h] + lists[order]];
        notEmpty := notEmpty[order := true];
      }
      SetBits(h, true, false);
      free := Fill(free, h, size[h], true);
      assert View() == Inserted(a, h);
    }

    method RemoveFrom(order: nat, h: nat)
      requires Describes(View(), free) && order <= MAX_ORDER && h in lists[order]
      modifies `lists, `notEmpty, `free
      ensures Block(old(View()), old(free), h)
      ensures free == Fill(old(free), h, size[h], false) && Describes(View(), free)
    {
      hide ListedIsFree, FreeIsListed, ListsOk;
      ghost var a := View();
      var i: nat :| i < |lists[order]| && lists[order][i] == h;
      RemoveKeeps(a, free, order, i);
      lists := lists[order := lists[order][..i] + lists[order][i + 1..]];
      if lists[order] == [] {
        notEmpty := notEmpty[order := false];
      }
      free := Fill(free, h, size[h], false);
      assert View() == Removed(a, order, i);
    }

    method Remove(h: nat)
      requires Describes(View(), free) && Starts(free, h)
      modifies `lists, `notEmpty, `free
      ensures Block(old(View()), old(free), h)
      ensures free == Fill(old(free), h, size[h], false) && Describes(View(), free)
    {
      StartIsBlock(View(), free, h);
      var order := Ilog2(size[h]);
      if order >= MAX_ORDER {
        RemoveFrom(MAX_ORDER, h);
      } else {
        RemoveFrom(order, h);
      }
    }

    /** Write the header of a range that is being made out of pages in use. */
    method WriteHeader(h: nat, n: nat)
      requires Describes(View(), free) && h < |free| && !free[h]
      modifies `size
      ensures size == old(size)[h := n] && Describes(View(), free)
    {
      ghost var a := View();
      size := size[h := n];
      UsedPagesIgnored(a, View(), free);
    }

    /** Clear the bits of a range that is being handed out. */
    method ClearBits(h: nat, fill: bool)
      requires Describes(View(), free) && h < |free| && 0 < size[h] <= |free| - h
      requires AllAre(free, h, size[h], false)
      modifies `bitmap
      ensures Describes(View(), free)
      ensures fill ==> bitmap == Fill(old(bitmap), h, size[h], false)
      ensures !fill ==> bitmap == old(bitmap)[h := false][h + size[h] - 1 := false]
    {
      ghost var a := View();
      SetBits(h, false, fill);
      UsedPagesIgnored(a, View(), free);
    }

    /** Hand out the range at h, already unlisted; `was` and `bits` are from before. */
    method HandOut(h: nat, fill: bool, ghost was: seq<bool>, ghost bits: seq<bool>)
      requires Describes(View(), free) && CutsOk(bits, was, cut)
      requires h < |size| && 0 < size[h] <= |was| - h && AllAre(was, h, size[h], true)
      requires free == Fill(was, h, size[h], false)
      requires |bitmap| == |bits| && forall p :: 0 <= p < |was| && !was[p] ==> bitmap[p] == bits[p]
      modifies `bitmap, `cut
      ensures Valid() && |old(cut)| == |free| + 1 && cut == Handed(old(cut), h, size[h], fill)
    {
      hide ListedIsFree, FreeIsListed, ListsOk, Clean;
      ClearBits(h, fill);
      TakeCuts(bits, bitmap, was, cut, h, size[h], fill);
      cut := Handed(cut, h, size[h], fill);
    }

    /** Make a range of n pages in use and list it. */
    method InsertNew(h: nat, n: nat)
      requires Describes(View(), free) && n > 0 && AllAre(free, h, n, false) && Isolated(free, h, n)
      modifies `bitmap, `size, `back, `lists, `notEmpty, `free
      ensures free == Fill(old(free), h, n, true) && Describes(View(), free)
      ensures |old(bitmap)| == |old(free)| && bitmap == old(bitmap)[h := true][h + n - 1 := true]
      ensures |old(size)| == |old(free)| && size == old(size)[h := n]
    {
      hide ListedIsFree, FreeIsListed, ListsOk;
      WriteHeader(h, n);
      Insert(h);
    }

    /** The low n pages of a listed range; the rest of it is listed again. */
    method TakeLow(order: nat, h: nat, n: nat)
      requires Valid() && order <= MAX_ORDER && h in lists[order]
      requires h < |size| && 0 < n <= size[h]
      modifies this
      ensures AllAre(old(free), h, n, true) && Starts(old(free), h)
      ensures Valid() && free == Fill(old(free), h, n, false)
      ensures size[h] == n && |old(cut)| == |free| + 1 && cut == Handed(old(cut), h, n, false)
    {
      hide ListedIsFree, FreeIsListed, ListsOk, CutsOk, Block, Fill, Handed;
      RemoveFrom(order, h);
      RangeParts(old(View()), old(free), h);
      ghost var s := size[h];
      GiveBackHigh(old(free), h, s, n);
      if size[h] > n {
        PartIsolated(old(free), h, s, h + n, s - n);
        InsertNew(h + n, size[h] - n);
        WriteHeader(h, n);
      }
      HandOut(h, false, old(free), old(bitmap));
    }

    /** Join the range in use at h with the free range that ends below it, if any. */
    method MergeLow(pr: nat) returns (h: nat)
      requires Valid() && pr < |size| && Held(free, cut, pr, size[pr])
      modifies `size, `lists, `notEmpty, `free
      ensures h <= pr && AllAre(old(free), h, pr - h, true) && (h > 0 ==> !old(free)[h - 1])
      ensures Describes(View(), free) && free == Fill(old(free), h, pr - h, false)
      ensures size[h] == pr - h + old(size[pr])
    {
      hide ListedIsFree, FreeIsListed, ListsOk, CutsOk, Fill;
      h := pr;
      if h > 0 {
        LowNeighbour(View(), free, cut, h);
      }
      if h > 0 && bitmap[h - 1] {
        var h2 := back[h - 1];
        Remove(h2);
        WriteHeader(h2, size[h2] + size[pr]);
        h := h2;
      } else {
        assert free == Fill(free, h, 0, false);
      }
    }

    /** Join the range in use at h with the free range that starts above it, if any. */
    method MergeHigh(h: nat)
      requires Describes(View(), free) && h < |size| && 0 < size[h] <= |size| - h && AllAre(free, h, size[h], false)
      requires h + size[h] < |free| ==> bitmap[h + size[h]] == free[h + size[h]]
      modifies `size, `lists, `notEmpty, `free
      ensures |size| == |old(free)| && old(size[h]) <= size[h] <= |old(free)| - h
      ensures var e, m := h + old(size[h]), size[h] - old(size[h]);
              && AllAre(old(free), e, m, true) && (e + m < |old(free)| ==> !old(free)[e + m])
              && Describes(View(), free) && free == Fill(old(free), e, m, false)
    {
      hide ListedIsFree, FreeIsListed, ListsOk, Fill;
      var next := h + size[h];
      if next < |bitmap| && bitmap[next] {
        Remove(next);
        WriteHeader(h, size[h] + size[next]);
      } else {
        assert free == Fill(free, next, 0, false);
      }
    }

    /** Join the range in use at pr with both its free neighbours. */
    method Merge(pr: nat) returns (h: nat)
      requires Valid() && pr < |size| && Held(free, cut, pr, size[pr])
      modifies `size, `lists, `notEmpty, `free
      ensures Describes(View(), free) && |size| == |old(free)|
      ensures h <= pr && pr + old(size[pr]) <= h + size[h] <= |old(free)|
      ensures var e := pr + old(size[pr]);
              AllAre(old(free), h, pr - h, true) && AllAre(old(free), e, h + size[h] - e, true)
      ensures AllAre(free, h, size[h], false) && Isolated(free, h, size[h])
      ensures Fill(free, h, size[h], true) == Fill(old(free), pr, old(size[pr]), true)
    {
      hide ListedIsFree, FreeIsListed, ListsOk, CutsOk, Fill, Isolated, AllAre;
      ghost var n, e := size[pr], pr + size[pr];
      HeldFits(free, cut, pr, n);
      if e < |free| {
        HighNeighbour(View(), free, cut, pr, n);
      }
      h := MergeLow(pr);
      MergedLow(old(free), h, pr - h, n);
      ghost var free1 := free;
      MergeHigh(h);
      MergedHigh(old(free), free1, free, h, pr - h, n, size[h] - (pr - h) - n);
    }

    /** Free a range in use; it and its free neighbours become one range. */
    method Free(pr: nat)
      requires Valid() && pr < |size| && Held(free, cut, pr, size[pr])
      modifies `bitmap, `size, `back, `lists, `notEmpty, `free
      ensures Valid() && free == Fill(old(free), pr, old(size[pr]), true)
    {
      hide ListedIsFree, FreeIsListed, ListsOk, CutsOk, Fill, Isolated;
      var h := Merge(pr);
      ghost var n := old(size[pr]);
      MergedBits(old(bitmap), old(free), cut, h, pr - h, n, h + size[h] - pr - n);
      Insert(h);
    }

    /** The range that alloc() takes pages from, and the list it is on. */
    method Choose(n: nat, contiguous: bool) returns (order: nat, r: Option<nat>)
      requires Describes(View(), free) && n > 0
      ensures r.Some? ==> order <= MAX_ORDER && r.value in lists[order] && r.value < |size| && n <= size[r.value]
      ensures r.Some? <==> Serves(free, if contiguous then n else RoundedUp(n))
      ensures r.Some? ==> IsRange(free, r.value, size[r.value]) && BestOrder(free, n, size[r.value])
    {
      hide FreeIsListed, RoundedUp, Describes, Serves, Block, BestOrder, IsRange;
      DescribedShape(View(), free);
      var exactOrder := Ilog2Roundup(n);
      if exactOrder > MAX_ORDER {
        exactOrder := MAX_ORDER;
      }
      order := FirstSet(notEmpty, exactOrder);
      if order > MAX_ORDER {
        NoList(View(), free, n);
        if !contiguous || exactOrder == 0 || lists[exactOrder - 1] == [] {
          return order, None;
        }
        order := exactOrder - 1;
        var list, i := lists[order], 0;
        while i < |list|
          invariant i <= |list| && AllBelow(list[..i], size, n)
        {
          ListedBlock(View(), free, order, i);
          if size[list[i]] >= n {
            Enough(View(), free, list[i], n);
            RangeParts(View(), free, list[i]);
            BestBelow(View(), free, n, size[list[i]]);
            return order, Some(list[i]);
          }
          i := i + 1;
        }
        assert list[..i] == list;
        r := None;
      } else if order == MAX_ORDER {
        var last := |lists[MAX_ORDER]| - 1;
        ListedBlock(View(), free, MAX_ORDER, last);
        var h := lists[MAX_ORDER][last];
        if size[h] < n {
          HugeTooSmall(View(), free, n, n);
          HugeTooSmall(View(), free, n, RoundedUp(n));
          r := None;
        } else {
          LargeOrder(n, size[h]);
          Enough(View(), free, h, n);
          Enough(View(), free, h, RoundedUp(n));
          RangeParts(View(), free, h);
          BestOfOrder(View(), free, n, h);
          r := Some(h);
        }
      } else {
        ListedBlock(View(), free, order, 0);
        var h := lists[order][0];
        LargeOrder(n, size[h]);
        Enough(View(), free, h, n);
        Enough(View(), free, h, RoundedUp(n));
        RangeParts(View(), free, h);
        BestOfOrder(View(), free, n, h);
        r := Some(h);
      }
    }

    /** n pages; null exactly if there are no n free pages in a row. */
    method Alloc(n: nat, contiguous: bool) returns (r: Option<nat>)
      requires Valid() && n > 0
      modifies this
      ensures Valid()
      ensures r.Some? <==> Serves(old(free), if contiguous then n else RoundedUp(n))
      ensures r.None? ==> free == old(free) && cut == old(cut)
      ensures r.Some? ==>
                var h := r.value;
                && AllAre(old(free), h, n, true) && Starts(old(free), h) && free == Fill(old(free), h, n, false)
                && size[h] == n && |old(cut)| == |free| + 1 && cut == Handed(old(cut), h, n, false)
      ensures r.Some? ==> exists s: nat :: IsRange(old(free), r.value, s) && BestOrder(old(free), n, s)
    {
      hide Describes, CutsOk, Serves, RoundedUp, BestOrder, IsRange;
      var order;
      order, r := Choose(n, contiguous);
      if r.Some? {
        TakeLow(order, r.value, n);
      }
    }

    /** List the last m pages of the unlisted range at h by themselves. */
    method TrimHigh(h: nat, m: nat)
      requires Describes(View(), free) && h < |size| && m < size[h] <= |size| - h
      requires AllAre(free, h, size[h], false) && Isolated(free, h, size[h])
      modifies `bitmap, `size, `back, `lists, `notEmpty, `free
      ensures Describes(View(), free) && |size| == |old(free)| && size[h] == old(size[h]) - m
      ensures free == Fill(old(free), h + old(size[h]) - m, m, true)
      ensures BitsWithin(old(bitmap), bitmap, h, old(size[h]))
    {
      hide ListedIsFree, FreeIsListed, ListsOk;
      if m > 0 {
        InsertNew(h + size[h] - m, m);
        WriteHeader(h, size[h] - m);
      } else {
        assert free == Fill(free, h + size[h], 0, true);
      }
    }

    /** List all but the last n pages of the unlisted range at h, and make those a range. */
    method TrimLow(h: nat, n: nat) returns (r: nat)
      requires Describes(View(), free) && h < |size| && 0 < n <= size[h] <= |size| - h
      requires AllAre(free, h, size[h] - n, false) && Isolated(free, h, size[h] - n) && !free[h + size[h] - n]
      modifies `bitmap, `size, `back, `lists, `notEmpty, `free
      ensures r == h + old(size[h]) - n < |size| == |old(free)|
      ensures Describes(View(), free) && size[r] == n && free == Fill(old(free), h, r - h, true)
      ensures BitsWithin(old(bitmap), bitmap, h, old(size[h]))
    {
      hide ListedIsFree, FreeIsListed, ListsOk, Isolated;
      if size[h] == n {
        r := h;
        assert free == Fill(free, h, 0, true);
      } else {
        InsertNew(h, size[h] - n);
        r := h + size[h];
        WriteHeader(r, n);
      }
    }

    /** n pages of a listed range, `shift` pages below its end; both sides are listed again. */
    method Carve(h: nat, n: nat, shift: nat, fill: bool) returns (r: nat)
      requires Valid() && Starts(free, h) && h < |size| && 0 < n && n + shift <= size[h]
      modifies this
      ensures r == h + old(size[h]) - shift - n && AllAre(old(free), r, n, true)
      ensures Valid() && free == Fill(old(free), r, n, false)
      ensures size[r] == n && |old(cut)| == |free| + 1 && cut == Handed(old(cut), r, n, fill)
    {
      hide ListedIsFree, FreeIsListed, ListsOk, CutsOk, Fill, Isolated, Block, Handed;
      ghost var low := size[h] - n - shift;
      Remove(h);
      RangeParts(old(View()), old(free), h);
      GiveBackEnds(old(free), h, low, n, shift);
      PartIsolated(old(free), h, size[h], h, size[h]);
      TrimHigh(h, shift);
      r := TrimLow(h, n);
      HandOut(r, fill, old(free), old(bitmap));
    }

    /** The first range in for_each() order that has an aligned placement. */
    method FindAligned(n: nat, offset: nat, alignment: nat) returns (r: Option<nat>)
      requires Describes(View(), free) && n > 0 && alignment > 0
      ensures r.Some? ==> Starts(free, r.value) && r.value < |size| && Fits(size, r.value, n, offset, alignment)
      ensures r.None? ==> !ServesAligned(free, n, offset, alignment)
      ensures r.Some? ==> IsRange(free, r.value, size[r.value]) && FirstInTurn(free, size[r.value], n, offset, alignment)
    {
      hide Describes, Fits, ServesAligned, FirstInTurn, IsRange;
      DescribedShape(View(), free);
      var minOrder := if Ilog2(n) > 1 then Ilog2(n) - 1 else 0;
      var o := MAX_ORDER + 1;
      while o > MAX_ORDER || o > minOrder
        invariant o <= MAX_ORDER + 1
        invariant forall k: nat :: o <= k <= MAX_ORDER ==> NoneFits(lists[k], size, n, offset, alignment)
        decreases o
      {
        o := o - 1;
        var list, i := lists[o], 0;
        while i < |list|
          invariant i <= |list| && NoneFits(list[..i], size, n, offset, alignment)
        {
          ListedBlock(View(), free, o, i);
          if Fits(size, list[i], n, offset, alignment) {
            RangeParts(View(), free, list[i]);
            StartOfRange(free, list[i], size[list[i]]);
            TurnOk(View(), free, n, offset, alignment, o, i);
            return Some(list[i]);
          }
          i := i + 1;
        }
        assert list[..i] == list;
      }
      NoAligned(View(), free, n, offset, alignment);
      r := None;
    }

    /** n aligned pages; null exactly if no free pages in a row are aligned as wanted. */
    method AllocAligned(n: nat, offset: nat, alignment: nat, fill: bool) returns (r: Option<nat>)
      requires Valid() && n > 0 && IsPow2(alignment)
      modifies this
      ensures Valid()
      ensures r.Some? <==> ServesAligned(old(free), n, offset, alignment)
      ensures r.None? ==> free == old(free) && cut == old(cut)
      ensures r.Some? ==>
                var h := r.value;
                && Aligned(h, offset, alignment) && AllAre(old(free), h, n, true)
                && free == Fill(old(free), h, n, false)
                && size[h] == n && |old(cut)| == |free| + 1 && cut == Handed(old(cut), h, n, fill)
                && Placed(old(free), h, n, offset, alignment)
    {
      hide CutsOk, Describes, Fill, Handed, Placed, FirstInTurn, IsRange;
      r := FindAligned(n, offset, alignment);
      if r.Some? {
        var header := r.value;
        var shift := (PHYS_MEM + header + size[header] - n + offset) % alignment;
        HighestPlacement(header, size[header], n, offset, alignment, 0);
        IsPlaced(free, header, size[header], n, offset, alignment);
        var x := Carve(header, n, shift, fill);
        r := Some(x);
      }
    }
  }
}
