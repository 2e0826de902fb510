/**
  The data that page_range_allocator of core/mempool.cc keeps about physical
  memory, in units of pages counted from the start of the linear map, and what
  it means for that data to describe a given set of free pages.
 */
module PageHeap {
  import opened Log2

  const MAX_ORDER: nat := 16

  /**
    One bit, one header and one word at the end for every page.  A header holds
    the size of the range that starts at its page; the word at the end of a
    page points back to the header of the range that ends there.  Of these only
    the ones at the edges of free ranges mean anything.  Entry MAX_ORDER of
    `lists` is the tree of huge ranges, ordered by size.
   */
  datatype Heap = Heap(
    bitmap: seq<bool>,
    size: seq<nat>,
    back: seq<nat>,
    lists: seq<seq<nat>>,
    notEmpty: seq<bool>
  )

  /** The list for ranges of this many pages. */
  function Order(n: nat): (o: nat)
    ensures o <= MAX_ORDER
  {
    if Ilog2(n) >= MAX_ORDER then MAX_ORDER else Ilog2(n)
  }

  // ---------------------------------------------------------- sets of pages

  /** The pages h .. h + n marked as given, all others as before. */
  function Fill(s: seq<bool>, h: nat, n: nat, value: bool): (r: seq<bool>)
    requires h + n <= |s|
    ensures |r| == |s|
    ensures forall p :: 0 <= p < |s| ==> r[p] == if h <= p < h + n then value else s[p]
  {
    s[..h] + seq(n, _ => value) + s[h + n..]
  }

  ghost predicate AllAre(s: seq<bool>, h: nat, n: nat, value: bool) {
    h + n <= |s| && forall p :: h <= p < h + n ==> s[p] == value
  }

  /** No page next to h .. h + n is free. */
  predicate Isolated(free: seq<bool>, h: nat, n: nat)
    requires h + n <= |free|
  {
    (h > 0 ==> !free[h - 1]) && (h + n < |free| ==> !free[h + n])
  }

  /** A maximal range of free pages. */
  ghost predicate IsRange(free: seq<bool>, h: nat, n: nat) {
    n > 0 && AllAre(free, h, n, true) && Isolated(free, h, n)
  }

  predicate Starts(free: seq<bool>, p: nat) {
    p < |free| && free[p] && (p > 0 ==> !free[p - 1])
  }

  // ------------------------------------------------------------- invariant

  /** A listed range: edge bits set, back-pointer at its end. */
  ghost predicate Block(a: Heap, free: seq<bool>, h: nat)
    requires |a.bitmap| == |a.size| == |a.back| == |free|
  {
    h < |free| && IsRange(free, h, a.size[h]) &&
    var last := h + a.size[h] - 1;
    a.bitmap[h] && a.bitmap[last] && a.back[last] == h
  }

  ghost predicate InOrder(a: Heap, free: seq<bool>, o: nat, h: nat)
    requires |a.bitmap| == |a.size| == |a.back| == |free|
  {
    Block(a, free, h) && Order(a.size[h]) == o
  }

  ghost predicate Distinct(list: seq<nat>) {
    forall i, j :: 0 <= i < j < |list| ==> list[i] != list[j]
  }

  predicate Within(list: seq<nat>, n: nat) {
    forall i :: 0 <= i < |list| ==> list[i] < n
  }

  ghost predicate BySize(list: seq<nat>, size: seq<nat>) {
    && Within(list, |size|)
    && forall i, j :: 0 <= i < j < |list| ==> size[list[i]] <= size[list[j]]
  }

  ghost predicate Shape(a: Heap, free: seq<bool>) {
    && |a.bitmap| == |a.size| == |a.back| == |free|
    && |a.lists| == |a.notEmpty| == MAX_ORDER + 1
  }

  /** What is listed is a free range, in the list of its order. */
  ghost predicate ListedIsFree(a: Heap, free: seq<bool>)
    requires Shape(a, free)
  {
    forall o: nat, i: nat :: o <= MAX_ORDER && i < |a.lists[o]| ==> InOrder(a, free, o, a.lists[o][i])
  }

  /** Every free range is listed. */
  ghost predicate FreeIsListed(a: Heap, free: seq<bool>)
    requires Shape(a, free)
  {
    forall p: nat :: Starts(free, p) ==> p in a.lists[Order(a.size[p])]
  }

  ghost predicate ListsOk(a: Heap)
    requires |a.lists| == |a.notEmpty| == MAX_ORDER + 1
  {
    && (forall o: nat :: o <= MAX_ORDER ==> Distinct(a.lists[o]) && (a.notEmpty[o] <==> a.lists[o] != []))
    && BySize(a.lists[MAX_ORDER], a.size)
  }

  ghost predicate Describes(a: Heap, free: seq<bool>) {
    Shape(a, free) && ListedIsFree(a, free) && FreeIsListed(a, free) && ListsOk(a)
  }

  // ------------------------------------------------------ insert and remove

  /** Insertion into a multiset ordered by size: after the ranges no larger. */
  function Place(list: seq<nat>, size: seq<nat>, h: nat): seq<nat>
    requires h < |size| && Within(list, |size|)
  {
    if list == [] || size[h] < size[list[0]] then [h] + list
    else [list[0]] + Place(list[1..], size, h)
  }

  function AddTo(list: seq<nat>, o: nat, size: seq<nat>, h: nat): seq<nat>
    requires h < |size| && Within(list, |size|)
  {
    if o >= MAX_ORDER then Place(list, size, h) else [h] + list
  }

  lemma {:induction false} PlaceMembers(list: seq<nat>, size: seq<nat>, h: nat, x: nat)
    requires h < |size| && Within(list, |size|)
    ensures x in Place(list, size, h) <==> x == h || x in list
  {
    if !(list == [] || size[h] < size[list[0]]) {
      PlaceMembers(list[1..], size, h, x);
      assert list == [list[0]] + list[1..];
    }
  }

  lemma {:induction false} PlaceDistinct(list: seq<nat>, size: seq<nat>, h: nat)
    requires h < |size| && Within(list, |size|)
    requires h !in list && Distinct(list)
    ensures Distinct(Place(list, size, h))
  {
    if !(list == [] || size[h] < size[list[0]]) {
      PlaceDistinct(list[1..], size, h);
      PlaceMembers(list[1..], size, h, list[0]);
    }
  }

  lemma {:induction false} PlaceSorted(list: seq<nat>, size: seq<nat>, h: nat)
    requires h < |size| && BySize(list, size)
    ensures BySize(Place(list, size, h), size)
  {
    if !(list == [] || size[h] < size[list[0]]) {
      PlaceSorted(list[1..], size, h);
      var rest := Place(list[1..], size, h);
      assert Within(rest, |size|);
      forall j | 0 <= j < |rest| ensures size[list[0]] <= size[rest[j]] {
        PlaceMembers(list[1..], size, h, rest[j]);
      }
    }
  }

  /** A list without its i-th element. */
  function DropAt(list: seq<nat>, i: nat): seq<nat>
    requires i < |list|
  {
    list[..i] + list[i + 1..]
  }

  lemma DropMembers(list: seq<nat>, i: nat, x: nat)
    requires i < |list| && Distinct(list)
    ensures x in DropAt(list, i) <==> x != list[i] && x in list
  {
    if x in list {
      var k :| 0 <= k < |list| && list[k] == x;
      if k < i { assert DropAt(list, i)[k] == x; }
      if k > i { assert DropAt(list, i)[k - 1] == x; }
    }
  }

  /** insert(): list the range that starts at h, mark its end and its edge bits. */
  function Inserted(a: Heap, h: nat): Heap
    requires |a.bitmap| == |a.size| == |a.back| && |a.lists| == |a.notEmpty| == MAX_ORDER + 1
    requires h < |a.size| && 0 < a.size[h] <= |a.size| - h
    requires forall o: nat :: o <= MAX_ORDER ==> Within(a.lists[o], |a.size|)
  {
    var last, o := h + a.size[h] - 1, Order(a.size[h]);
    Heap(a.bitmap[h := true][last := true], a.size, a.back[last := h],
         a.lists[o := AddTo(a.lists[o], o, a.size, h)], a.notEmpty[o := true])
  }

  /** remove(): unlist entry i of list o. */
  function Removed(a: Heap, o: nat, i: nat): Heap
    requires |a.lists| == |a.notEmpty| == MAX_ORDER + 1
    requires o <= MAX_ORDER && i < |a.lists[o]|
  {
    var rest := DropAt(a.lists[o], i);
    a.(lists := a.lists[o := rest], notEmpty := if rest == [] then a.notEmpty[o := false] else a.notEmpty)
  }

  /** Pages that are in use, between pages in use, with their header written. */
  ghost predicate CanInsert(a: Heap, free: seq<bool>, h: nat) {
    && |a.size| == |free| && h < |free| && 0 < a.size[h] <= |free| - h
    && AllAre(free, h, a.size[h], false) && Isolated(free, h, a.size[h])
  }

  lemma AddToFacts(list: seq<nat>, o: nat, size: seq<nat>, h: nat, x: nat)
    requires h < |size| && Within(list, |size|)
    ensures x in AddTo(list, o, size, h) <==> x == h || x in list
    ensures h !in list && Distinct(list) ==> Distinct(AddTo(list, o, size, h))
    ensures o >= MAX_ORDER && BySize(list, size) ==> BySize(AddTo(list, o, size, h), size)
    ensures AddTo(list, o, size, h) != []
  {
    PlaceMembers(list, size, h, x);
    if h !in list && Distinct(list) { PlaceDistinct(list, size, h); }
    if BySize(list, size) { PlaceSorted(list, size, h); }
  }

  lemma ListsWithin(a: Heap, free: seq<bool>)
    requires Shape(a, free) && ListedIsFree(a, free)
    ensures forall o: nat :: o <= MAX_ORDER ==> Within(a.lists[o], |a.size|)
  {
    forall o: nat, i: nat | o <= MAX_ORDER && i < |a.lists[o]| ensures a.lists[o][i] < |a.size| {
      assert InOrder(a, free, o, a.lists[o][i]);
    }
  }

  /** Freeing an isolated range leaves the other free ranges maximal. */
  lemma OtherRange(free: seq<bool>, h: nat, n: nat, g: nat, m: nat)
    requires n > 0 && AllAre(free, h, n, false) && Isolated(free, h, n)
    requires IsRange(free, g, m)
    ensures IsRange(Fill(free, h, n, true), g, m)
    ensures g + m <= h || h + n <= g
  {
    assert free[g] && !free[h];
  }

  lemma BlockAfterInsert(a: Heap, free: seq<bool>, h: nat, g: nat)
    requires Shape(a, free) && ListedIsFree(a, free) && CanInsert(a, free, h)
    requires forall o: nat :: o <= MAX_ORDER ==> Within(a.lists[o], |a.size|)
    requires g == h || Block(a, free, g)
    ensures Block(Inserted(a, h), Fill(free, h, a.size[h], true), g)
  {
    if g != h {
      OtherRange(free, h, a.size[h], g, a.size[g]);
    }
  }

  lemma InsertListed(a: Heap, free: seq<bool>, h: nat)
    requires Shape(a, free) && ListedIsFree(a, free) && CanInsert(a, free, h)
    requires forall o: nat :: o <= MAX_ORDER ==> Within(a.lists[o], |a.size|)
    ensures ListedIsFree(Inserted(a, h), Fill(free, h, a.size[h], true))
  {
    hide Block;
    var b, free' := Inserted(a, h), Fill(free, h, a.size[h], true);
    var o' := Order(a.size[h]);
    forall o: nat, i: nat | o <= MAX_ORDER && i < |b.lists[o]| ensures InOrder(b, free', o, b.lists[o][i]) {
      var g := b.lists[o][i];
      AddToFacts(a.lists[o'], o', a.size, h, g);
      if g != h || o != o' {
        assert g in a.lists[o];
        assert InOrder(a, free, o, g);
      }
      BlockAfterInsert(a, free, h, g);
    }
  }

  lemma InsertStarts(a: Heap, free: seq<bool>, h: nat)
    requires Shape(a, free) && FreeIsListed(a, free) && CanInsert(a, free, h)
    requires forall o: nat :: o <= MAX_ORDER ==> Within(a.lists[o], |a.size|)
    ensures FreeIsListed(Inserted(a, h), Fill(free, h, a.size[h], true))
  {
    var b, free', o' := Inserted(a, h), Fill(free, h, a.size[h], true), Order(a.size[h]);
    forall p: nat | Starts(free', p) ensures p in b.lists[Order(b.size[p])] {
      AddToFacts(a.lists[o'], o', a.size, h, p);
      assert p == h || Starts(free, p);
    }
  }

  lemma NotListed(a: Heap, free: seq<bool>, o: nat, h: nat)
    requires Shape(a, free) && ListedIsFree(a, free) && o <= MAX_ORDER
    requires h < |free| && !free[h]
    ensures h !in a.lists[o]
  {
    forall i: nat | i < |a.lists[o]| ensures a.lists[o][i] != h {
      assert InOrder(a, free, o, a.lists[o][i]);
      assert free[a.lists[o][i]];
    }
  }

  /** Listing an isolated range adds exactly its pages to the free ones. */
  lemma InsertKeeps(a: Heap, free: seq<bool>, h: nat)
    requires Describes(a, free) && CanInsert(a, free, h)
    ensures forall o: nat :: o <= MAX_ORDER ==> Within(a.lists[o], |a.size|)
    ensures Describes(Inserted(a, h), Fill(free, h, a.size[h], true))
  {
    hide ListedIsFree, FreeIsListed, Distinct, BySize;
    ListsWithin(a, free);
    InsertListed(a, free, h);
    InsertStarts(a, free, h);
    var o' := Order(a.size[h]);
    NotListed(a, free, o', h);
    AddToFacts(a.lists[o'], o', a.size, h, h);
  }

  lemma BlockAfterRemove(a: Heap, free: seq<bool>, h: nat, g: nat)
    requires |a.bitmap| == |a.size| == |a.back| == |free|
    requires Block(a, free, h) && Block(a, free, g) && g != h
    ensures Block(a, Fill(free, h, a.size[h], false), g)
  {}

  lemma RemoveListed(a: Heap, free: seq<bool>, o: nat, i: nat)
    requires Shape(a, free) && ListedIsFree(a, free) && ListsOk(a) && o <= MAX_ORDER && i < |a.lists[o]|
    ensures Block(a, free, a.lists[o][i])
    ensures var h := a.lists[o][i]; ListedIsFree(Removed(a, o, i), Fill(free, h, a.size[h], false))
  {
    hide Block, DropAt;
    var h := a.lists[o][i];
    assert InOrder(a, free, o, h);
    var b := Removed(a, o, i);
    assert Block(a, free, h);
    RangeFits(a, free, h);
    var free' := Fill(free, h, a.size[h], false);
    forall k: nat, x: nat | k <= MAX_ORDER && x < |b.lists[k]| ensures InOrder(b, free', k, b.lists[k][x]) {
      var g := b.lists[k][x];
      DropMembers(a.lists[o], i, g);
      assert g in a.lists[k];
      assert InOrder(a, free, k, g);
      BlockAfterRemove(a, free, h, g);
      BlockIgnoresLists(a, b, free', g);
    }
  }

  lemma BlockIgnoresLists(a: Heap, b: Heap, free: seq<bool>, g: nat)
    requires |a.bitmap| == |a.size| == |a.back| == |free|
    requires a.bitmap == b.bitmap && a.size == b.size && a.back == b.back
    ensures Block(a, free, g) <==> Block(b, free, g)
  {}

  lemma RangeFits(a: Heap, free: seq<bool>, h: nat)
    requires |a.bitmap| == |a.size| == |a.back| == |free|
    requires Block(a, free, h)
    ensures h < |free| && h + a.size[h] <= |free|
  {}

  lemma RemoveStarts(a: Heap, free: seq<bool>, o: nat, i: nat)
    requires Shape(a, free) && FreeIsListed(a, free) && ListsOk(a) && o <= MAX_ORDER && i < |a.lists[o]|
    requires Block(a, free, a.lists[o][i])
    ensures var h := a.lists[o][i]; FreeIsListed(Removed(a, o, i), Fill(free, h, a.size[h], false))
  {
    var h := a.lists[o][i];
    var b, free' := Removed(a, o, i), Fill(free, h, a.size[h], false);
    forall p: nat | Starts(free', p) ensures p in b.lists[Order(b.size[p])] {
      DropMembers(a.lists[o], i, p);
      assert Starts(free, p);
    }
  }

  lemma RemoveLists(a: Heap, o: nat, i: nat)
    requires |a.lists| == |a.notEmpty| == MAX_ORDER + 1 && ListsOk(a) && o <= MAX_ORDER && i < |a.lists[o]|
    ensures ListsOk(Removed(a, o, i))
  {
    var b := Removed(a, o, i);
    DropDistinct(a.lists[o], i);
    if o == MAX_ORDER {
      DropBySize(a.lists[o], a.size, i);
    }
  }

  lemma DropDistinct(list: seq<nat>, i: nat)
    requires Distinct(list) && i < |list|
    ensures Distinct(DropAt(list, i))
  {}

  lemma DropBySize(list: seq<nat>, size: seq<nat>, i: nat)
    requires BySize(list, size) && i < |list|
    ensures BySize(DropAt(list, i), size)
  {}

  /** Unlisting a range takes exactly its pages from the free ones. */
  lemma RemoveKeeps(a: Heap, free: seq<bool>, o: nat, i: nat)
    requires Describes(a, free) && o <= MAX_ORDER && i < |a.lists[o]|
    ensures Block(a, free, a.lists[o][i])
    ensures var h := a.lists[o][i]; Describes(Removed(a, o, i), Fill(free, h, a.size[h], false))
  {
    hide ListedIsFree, FreeIsListed, Block, ListsOk;
    RemoveLists(a, o, i);
    RemoveListed(a, free, o, i);
    RangeFits(a, free, a.lists[o][i]);
    RemoveStarts(a, free, o, i);
  }

  // ------------------------------------------------- pages that are in use

  /** The two heaps agree on everything but the pages in use. */
  ghost predicate SameFree(a: Heap, b: Heap, free: seq<bool>) {
    && |b.bitmap| == |b.size| == |b.back| == |a.bitmap| == |a.size| == |a.back| == |free|
    && a.lists == b.lists && a.notEmpty == b.notEmpty
    && forall p :: 0 <= p < |free| && free[p] ==>
         a.bitmap[p] == b.bitmap[p] && a.size[p] == b.size[p] && a.back[p] == b.back[p]
  }

  /** Nothing the allocator relies on lives in a page that is in use. */
  lemma UsedPagesIgnored(a: Heap, b: Heap, free: seq<bool>)
    requires Describes(a, free) && SameFree(a, b, free)
    ensures Describes(b, free)
  {
    forall o: nat, i: nat | o <= MAX_ORDER && i < |b.lists[o]| ensures InOrder(b, free, o, b.lists[o][i]) {
      assert InOrder(a, free, o, a.lists[o][i]);
    }
    forall i: nat | i < |b.lists[MAX_ORDER]|
      ensures var h := b.lists[MAX_ORDER][i]; h < |b.size| && b.size[h] == a.size[h]
    {
      assert InOrder(a, free, MAX_ORDER, a.lists[MAX_ORDER][i]);
    }
  }

  // ----------------------------------------------------- the range of a page

  ghost function RangeStart(free: seq<bool>, p: nat): (h: nat)
    requires p < |free| && free[p]
    ensures h <= p && Starts(free, h) && AllAre(free, h, p - h + 1, true)
  {
    if p > 0 && free[p - 1] then RangeStart(free, p - 1) else p
  }

  lemma StartIsBlock(a: Heap, free: seq<bool>, h: nat)
    requires Describes(a, free) && Starts(free, h)
    ensures Block(a, free, h) && h in a.lists[Order(a.size[h])]
  {
    var o := Order(a.size[h]);
    var i: nat :| i < |a.lists[o]| && a.lists[o][i] == h;
    assert InOrder(a, free, o, a.lists[o][i]);
  }

  /** Free pages in a row lie in one listed range. */
  lemma CoversPages(a: Heap, free: seq<bool>, x: nat, n: nat)
    requires Describes(a, free) && n > 0 && AllAre(free, x, n, true)
    ensures var h := RangeStart(free, x);
            Block(a, free, h) && h in a.lists[Order(a.size[h])] && x + n <= h + a.size[h]
  {
    var h := RangeStart(free, x);
    StartIsBlock(a, free, h);
    var e := h + a.size[h];
    assert e < |free| ==> !free[e];
  }

  // ------------------------------------------------------------ statistics

  /** The pages of the ranges on one list. */
  function ListPages(list: seq<nat>, size: seq<nat>): nat
    requires Within(list, |size|)
  {
    if list == [] then 0 else size[list[0]] + ListPages(list[1..], size)
  }

  /** The pages that the statistics report for the orders below k. */
  function ListedPages(a: Heap, k: nat): nat
    requires k <= |a.lists| && forall o :: 0 <= o < |a.lists| ==> Within(a.lists[o], |a.size|)
  {
    if k == 0 then 0 else ListedPages(a, k - 1) + ListPages(a.lists[k - 1], a.size)
  }

  function Count(free: seq<bool>): nat {
    if free == [] then 0 else (if free[0] then 1 else 0) + Count(free[1..])
  }

  lemma {:induction false} CountFill(free: seq<bool>, h: nat, n: nat)
    requires AllAre(free, h, n, true)
    ensures Count(free) == Count(Fill(free, h, n, false)) + n
  {
    var free' := Fill(free, h, n, false);
    if free == [] {
    } else if h > 0 {
      CountFill(free[1..], h - 1, n);
      assert free'[1..] == Fill(free[1..], h - 1, n, false);
    } else if n > 0 {
      CountFill(free[1..], 0, n - 1);
      assert free'[1..] == Fill(free[1..], 0, n - 1, false);
    } else {
      assert free' == free;
    }
  }

  lemma {:induction false} CountNone(free: seq<bool>)
    requires forall p :: 0 <= p < |free| ==> !free[p]
    ensures Count(free) == 0
  {
    if free != [] {
      CountNone(free[1..]);
    }
  }

  lemma {:induction false} ListPagesDrop(list: seq<nat>, size: seq<nat>, i: nat)
    requires Within(list, |size|) && i < |list|
    ensures Within(DropAt(list, i), |size|)
    ensures ListPages(list, size) == ListPages(DropAt(list, i), size) + size[list[i]]
  {
    if i == 0 {
      assert DropAt(list, i) == list[1..];
    } else {
      ListPagesDrop(list[1..], size, i - 1);
      assert DropAt(list, i)[1..] == DropAt(list[1..], i - 1);
    }
  }

  lemma {:induction false} ListedPagesRemoved(a: Heap, o: nat, i: nat, k: nat)
    requires |a.lists| == |a.notEmpty| == MAX_ORDER + 1 && o <= MAX_ORDER && i < |a.lists[o]| && k <= |a.lists|
    requires forall o :: 0 <= o < |a.lists| ==> Within(a.lists[o], |a.size|)
    ensures forall x :: 0 <= x < |a.lists| ==> Within(Removed(a, o, i).lists[x], |a.size|)
    ensures ListedPages(a, k) == ListedPages(Removed(a, o, i), k) + if o < k then a.size[a.lists[o][i]] else 0
  {
    ListPagesDrop(a.lists[o], a.size, i);
    if k > 0 {
      ListedPagesRemoved(a, o, i, k - 1);
    }
  }

  lemma {:induction false} NothingListed(a: Heap, k: nat)
    requires k <= |a.lists| && forall o :: 0 <= o < |a.lists| ==> Within(a.lists[o], |a.size|)
    requires forall o :: 0 <= o < k ==> a.lists[o] == []
    ensures ListedPages(a, k) == 0
  {
    if k > 0 {
      NothingListed(a, k - 1);
    }
  }

  /** The number of ranges on the lists below k. */
  function Entries(lists: seq<seq<nat>>): nat {
    if lists == [] then 0 else |lists[0]| + Entries(lists[1..])
  }

  lemma {:induction false} EntriesDrop(lists: seq<seq<nat>>, o: nat, list: seq<nat>)
    requires o < |lists|
    ensures Entries(lists[o := list]) == Entries(lists) - |lists[o]| + |list|
    ensures |lists[o]| <= Entries(lists)
  {
    if o == 0 {
      assert lists[o := list][1..] == lists[1..];
    } else {
      EntriesDrop(lists[1..], o - 1, list);
      assert lists[o := list][1..] == lists[1..][o - 1 := list];
    }
  }

  /** The sizes of the listed ranges add up to the number of free pages. */
  lemma {:induction false} ListedPagesAreFree(a: Heap, free: seq<bool>)
    requires Describes(a, free)
    ensures forall o :: 0 <= o < |a.lists| ==> Within(a.lists[o], |a.size|)
    ensures ListedPages(a, |a.lists|) == Count(free)
    decreases Entries(a.lists)
  {
    hide Describes, Count, ListedPages, Entries;
    DescribedLists(a, free);
    if o: nat :| o <= MAX_ORDER && a.lists[o] != [] {
      RemoveKeeps(a, free, o, 0);
      var h := a.lists[o][0];
      RangeFits(a, free, h);
      var rest := Fill(free, h, a.size[h], false);
      EntriesDrop(a.lists, o, DropAt(a.lists[o], 0));
      ListedPagesAreFree(Removed(a, o, 0), rest);
      CountFill(free, h, a.size[h]);
      ListedPagesRemoved(a, o, 0, |a.lists|);
    } else {
      NothingListed(a, |a.lists|);
      NothingFree(a, free);
      CountNone(free);
    }
  }

  lemma DescribedLists(a: Heap, free: seq<bool>)
    requires Describes(a, free)
    ensures |a.bitmap| == |a.size| == |a.back| == |free| && |a.lists| == |a.notEmpty| == MAX_ORDER + 1
    ensures forall o :: 0 <= o < |a.lists| ==> Within(a.lists[o], |a.size|)
  {
    ListsWithin(a, free);
  }

  lemma NothingFree(a: Heap, free: seq<bool>)
    requires Describes(a, free) && forall o: nat :: o <= MAX_ORDER ==> a.lists[o] == []
    ensures forall p :: 0 <= p < |free| ==> !free[p]
  {
    forall p | 0 <= p < |free| ensures !free[p] {
      if free[p] {
        var h := RangeStart(free, p);
        assert false;
      }
    }
  }
}
