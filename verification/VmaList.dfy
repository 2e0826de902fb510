/**
  Lists of virtual memory areas as core/mmu.cc keeps them, and what they say
  about each address.
 */
module VmaList {
  import opened Holes

  const PAGE_SIZE: nat := 0x1000

  datatype Vma = Vma(start: nat, end: nat, perm: nat, flags: nat)

  /** What a mapping says about an address in it. */
  datatype Attr = Attr(perm: nat, flags: nat)

  function AlignDown(x: nat): nat { x - x % PAGE_SIZE }

  function AlignUp(x: nat): nat { (x + PAGE_SIZE - 1) / PAGE_SIZE * PAGE_SIZE }

  predicate Aligned(x: nat) { x % PAGE_SIZE == 0 }

  lemma AlignedFixed(x: nat)
    ensures Aligned(x) <==> AlignDown(x) == x
    ensures Aligned(x) <==> AlignUp(x) == x
    ensures AlignDown(x) <= x <= AlignUp(x)
    ensures !Aligned(x) ==> AlignUp(x) == AlignDown(x) + PAGE_SIZE
    ensures Aligned(AlignDown(x)) && Aligned(AlignUp(x))
  {}

  // ------------------------------------------------------------ address map

  /** The attributes of an address, if it is mapped. */
  function Lookup(vmas: seq<Vma>, x: nat): Option<Attr> {
    if vmas == [] then None
    else if vmas[0].start <= x < vmas[0].end then Some(Attr(vmas[0].perm, vmas[0].flags))
    else Lookup(vmas[1..], x)
  }

  lemma {:induction false} LookupConcat(a: seq<Vma>, b: seq<Vma>, x: nat)
    ensures Lookup(a + b, x) == if Lookup(a, x).Some? then Lookup(a, x) else Lookup(b, x)
  {
    if a == [] {
      assert a + b == b;
    } else {
      LookupConcat(a[1..], b, x);
      assert (a + b)[1..] == a[1..] + b;
    }
  }

  lemma {:induction false} LookupNone(vmas: seq<Vma>, x: nat)
    requires forall i :: 0 <= i < |vmas| ==> !(vmas[i].start <= x < vmas[i].end)
    ensures Lookup(vmas, x) == None
  {
    if vmas != [] {
      LookupNone(vmas[1..], x);
    }
  }

  /** Looking an address up in a list around one of its entries. */
  lemma LookupAround(a: seq<Vma>, v: seq<Vma>, b: seq<Vma>, x: nat)
    ensures Lookup(a + v + b, x) == if Lookup(a, x).Some? then Lookup(a, x)
                                    else if Lookup(v, x).Some? then Lookup(v, x)
                                    else Lookup(b, x)
  {
    LookupConcat(a + v, b, x);
    LookupConcat(a, v, x);
  }

  // -------------------------------------------------------------- the list

  ghost predicate InOrder(vmas: seq<Vma>) {
    && (forall i :: 0 <= i < |vmas| ==> vmas[i].start <= vmas[i].end && Aligned(vmas[i].start) && Aligned(vmas[i].end))
    && (forall i, j :: 0 <= i < j < |vmas| ==> vmas[i].start < vmas[j].start && vmas[i].end <= vmas[j].start)
  }

  const LOWER_EDGE := Vma(0, 0, 0, 0)
  const UPPER_EDGE := Vma(UPPER_VMA_LIMIT, UPPER_VMA_LIMIT, 0, 0)

  /** Disjoint areas in order, none of them empty, between the two edge markers. */
  ghost predicate ListOk(vmas: seq<Vma>) {
    && InOrder(vmas) && |vmas| >= 2 && vmas[0] == LOWER_EDGE && vmas[|vmas| - 1] == UPPER_EDGE
    && NonEmpty(vmas, 1, |vmas| - 1)
  }

  ghost predicate NonEmpty(vmas: seq<Vma>, lo: nat, hi: nat)
    requires lo <= hi <= |vmas|
  {
    forall i :: lo <= i < hi ==> vmas[i].start < vmas[i].end
  }

  /** lower_bound(): the number of areas that start below x. */
  function LowerBoundVma(vmas: seq<Vma>, x: nat): (k: nat)
    requires InOrder(vmas)
    ensures k <= |vmas|
    ensures forall i :: 0 <= i < k ==> vmas[i].start < x
    ensures forall i :: k <= i < |vmas| ==> x <= vmas[i].start
  {
    if vmas == [] || x <= vmas[0].start then 0 else 1 + LowerBoundVma(vmas[1..], x)
  }

  /** Insertion into a set ordered by start; one with the same start stays. */
  function InsertVma(vmas: seq<Vma>, v: Vma): seq<Vma> {
    if vmas == [] || v.start < vmas[0].start then [v] + vmas
    else if v.start == vmas[0].start then vmas
    else [vmas[0]] + InsertVma(vmas[1..], v)
  }

  lemma {:induction false} InsertAt(vmas: seq<Vma>, v: Vma, k: nat)
    requires k <= |vmas|
    requires forall i :: 0 <= i < k ==> vmas[i].start < v.start
    requires k < |vmas| ==> v.start < vmas[k].start
    ensures InsertVma(vmas, v) == vmas[..k] + [v] + vmas[k..]
  {
    if k > 0 {
      InsertAt(vmas[1..], v, k - 1);
      assert vmas[..k] + [v] + vmas[k..] == [vmas[0]] + (vmas[1..][..k - 1] + [v] + vmas[1..][k - 1..]);
    }
  }

  // ------------------------------------------------------------ splitting

  /** anon_vma::split() of area i. */
  function SplitAt(vmas: seq<Vma>, i: nat, edge: nat): seq<Vma>
    requires i < |vmas|
  {
    var v := vmas[i];
    if edge <= v.start || edge >= v.end then vmas
    else
      var n := Vma(AlignDown(edge), AlignUp(v.end), v.perm, v.flags);
      InsertVma(vmas[i := v.(start := AlignDown(v.start), end := AlignUp(edge))], n)
  }

  predicate Splits(v: Vma, edge: nat) {
    v.start < edge < v.end
  }

  /** At a page boundary the area becomes two, one after the other. */
  lemma SplitAligned(vmas: seq<Vma>, i: nat, edge: nat)
    requires InOrder(vmas) && i < |vmas| && Aligned(edge) && Splits(vmas[i], edge)
    ensures var v := vmas[i];
            SplitAt(vmas, i, edge) == vmas[..i] + [v.(end := edge), v.(start := edge)] + vmas[i + 1..]
  {
    var v := vmas[i];
    AlignedFixed(edge);
    AlignedFixed(v.start);
    AlignedFixed(v.end);
    var cut := vmas[i := v.(end := edge)];
    InsertAt(cut, v.(start := edge), i + 1);
    assert cut[..i + 1] + [v.(start := edge)] + cut[i + 1..]
           == vmas[..i] + [v.(end := edge), v.(start := edge)] + vmas[i + 1..];
  }

  /** Areas that may take the place of v in a list. */
  ghost predicate Pieces(v: Vma, pieces: seq<Vma>) {
    InOrder(pieces) && forall k :: 0 <= k < |pieces| ==>
      && (v.start < v.end ==> pieces[k].start < pieces[k].end)
      && v.start <= pieces[k].start && pieces[k].end <= v.end && (pieces[k].start == v.start || pieces[k].start < v.end)
  }

  /** The list with area i replaced. */
  function Replace(vmas: seq<Vma>, i: nat, pieces: seq<Vma>): seq<Vma>
    requires i < |vmas|
  {
    vmas[..i] + pieces + vmas[i + 1..]
  }

  lemma ReplaceInOrder(vmas: seq<Vma>, i: nat, pieces: seq<Vma>)
    requires InOrder(vmas) && i < |vmas| && Pieces(vmas[i], pieces)
    ensures InOrder(Replace(vmas, i, pieces))
  {
    hide Aligned;
    var r := Replace(vmas, i, pieces);
    var m := i + |pieces|;
    forall k | 0 <= k < |r| ensures r[k].start <= r[k].end && Aligned(r[k].start) && Aligned(r[k].end) {
      assert k >= m ==> r[k] == vmas[k - m + i + 1];
    }
    forall j, k | 0 <= j < k < |r| ensures r[j].start < r[k].start && r[j].end <= r[k].start {
      assert k >= m ==> r[k] == vmas[k - m + i + 1];
      assert j >= m ==> r[j] == vmas[j - m + i + 1];
      assert i <= k < m ==> r[k] == pieces[k - i];
      assert i <= j < m ==> r[j] == pieces[j - i];
    }
  }

  lemma LookupOutside(vmas: seq<Vma>, lo: nat, hi: nat, x: nat)
    requires lo <= hi <= |vmas|
    requires forall k :: lo <= k < hi ==> !(vmas[k].start <= x < vmas[k].end)
    ensures Lookup(vmas[lo..hi], x) == None
  {
    LookupNone(vmas[lo..hi], x);
  }

  /** Replacing an area changes only the addresses in it. */
  lemma ReplaceLookup(vmas: seq<Vma>, i: nat, pieces: seq<Vma>, x: nat)
    requires InOrder(vmas) && i < |vmas| && Pieces(vmas[i], pieces)
    ensures Lookup(Replace(vmas, i, pieces), x) ==
              if vmas[i].start <= x < vmas[i].end then Lookup(pieces, x) else Lookup(vmas, x)
  {
    hide InOrder;
    ReplaceWithin(vmas, i, pieces, x);
  }

  lemma ReplaceWithin(vmas: seq<Vma>, i: nat, pieces: seq<Vma>, x: nat)
    requires InOrder(vmas) && i < |vmas|
    requires forall k :: 0 <= k < |pieces| ==> vmas[i].start <= pieces[k].start && pieces[k].end <= vmas[i].end
    ensures Lookup(Replace(vmas, i, pieces), x) ==
              if vmas[i].start <= x < vmas[i].end then Lookup(pieces, x) else Lookup(vmas, x)
  {
    var v := vmas[i];
    LookupAround(vmas[..i], pieces, vmas[i + 1..], x);
    if v.start <= x < v.end {
      LookupOutside(vmas, 0, i, x);
      LookupOutside(vmas, i + 1, |vmas|, x);
      assert vmas[0..i] == vmas[..i] && vmas[i + 1..|vmas|] == vmas[i + 1..];
    } else {
      assert vmas == vmas[..i] + [v] + vmas[i + 1..];
      LookupAround(vmas[..i], [v], vmas[i + 1..], x);
      LookupNone(pieces, x);
    }
  }

  lemma SplitPieces(vmas: seq<Vma>, i: nat, edge: nat)
    requires InOrder(vmas) && i < |vmas| && Aligned(edge) && Splits(vmas[i], edge)
    ensures var v := vmas[i];
            Pieces(v, [v.(end := edge), v.(start := edge)])
            && SplitAt(vmas, i, edge) == Replace(vmas, i, [v.(end := edge), v.(start := edge)])
  {
    hide SplitAt, Aligned;
    SplitAligned(vmas, i, edge);
  }

  lemma SplitInOrder(vmas: seq<Vma>, i: nat, edge: nat)
    requires InOrder(vmas) && i < |vmas| && Aligned(edge)
    ensures InOrder(SplitAt(vmas, i, edge))
  {
    if Splits(vmas[i], edge) {
      var v := vmas[i];
      SplitPieces(vmas, i, edge);
      ReplaceInOrder(vmas, i, [v.(end := edge), v.(start := edge)]);
    }
  }

  /** Splitting at a page boundary changes nothing about any address. */
  lemma SplitLookup(vmas: seq<Vma>, i: nat, edge: nat, x: nat)
    requires InOrder(vmas) && i < |vmas| && Aligned(edge)
    ensures Lookup(SplitAt(vmas, i, edge), x) == Lookup(vmas, x)
  {
    hide Lookup, InOrder, Pieces, Aligned, InsertVma;
    var v := vmas[i];
    if Splits(v, edge) {
      SplitPieces(vmas, i, edge);
      ReplaceLookup(vmas, i, [v.(end := edge), v.(start := edge)], x);
      if v.start <= x < v.end {
        PiecesLookup(v, edge, x);
        LookupIn(vmas, i, x);
      }
    }
  }

  lemma PiecesLookup(v: Vma, edge: nat, x: nat)
    requires Splits(v, edge) && v.start <= x < v.end
    ensures Lookup([v.(end := edge), v.(start := edge)], x) == Some(Attr(v.perm, v.flags))
  {
    assert [v.(end := edge), v.(start := edge)][1..] == [v.(start := edge)];
  }

  // ------------------------------------------------- one turn of the loops

  /** contains(): the area lies within start .. end. */
  predicate Contained(v: Vma, start: nat, end: nat) {
    start <= v.start && v.end <= end
  }

  function SplitTwice(vmas: seq<Vma>, i: nat, start: nat, end: nat): seq<Vma>
    requires i < |vmas|
  {
    var once := SplitAt(vmas, i, end);
    if i < |once| then SplitAt(once, i, start) else once
  }

  /** After splitting at both edges the area in hand lies inside or outside, and starts where it did. */
  lemma SplitTwiceFacts(vmas: seq<Vma>, i: nat, start: nat, end: nat)
    requires InOrder(vmas) && i < |vmas| && Aligned(start) && Aligned(end) && start < end
    ensures var r := SplitTwice(vmas, i, start, end);
            && InOrder(r) && |r| >= |vmas| && r[i].start == vmas[i].start
            && (Contained(r[i], start, end) || r[i].end <= start || end <= r[i].start)
            && r[..i] == vmas[..i] && r[i + 1 + |r| - |vmas|..] == vmas[i + 1..]
  {
    hide SplitAt, Aligned;
    SplitShape(vmas, i, end);
    var once := SplitAt(vmas, i, end);
    SplitShape(once, i, start);
  }

  lemma SplitShape(vmas: seq<Vma>, i: nat, edge: nat)
    requires InOrder(vmas) && i < |vmas| && Aligned(edge)
    ensures var r := SplitAt(vmas, i, edge); var v := vmas[i];
            && InOrder(r) && |r| == |vmas| + (if Splits(v, edge) then 1 else 0)
            && r[..i] == vmas[..i] && r[i + 1 + |r| - |vmas|..] == vmas[i + 1..]
            && r[i] == if Splits(v, edge) then v.(end := edge) else v
  {
    SplitInOrder(vmas, i, edge);
    if Splits(vmas[i], edge) {
      SplitAligned(vmas, i, edge);
    }
  }

  lemma SplitTwiceLookup(vmas: seq<Vma>, i: nat, start: nat, end: nat, x: nat)
    requires InOrder(vmas) && i < |vmas| && Aligned(start) && Aligned(end)
    ensures Lookup(SplitTwice(vmas, i, start, end), x) == Lookup(vmas, x)
  {
    hide SplitAt, Aligned;
    SplitShape(vmas, i, end);
    SplitLookup(vmas, i, end, x);
    SplitLookup(SplitAt(vmas, i, end), i, start, x);
  }

  /** How an operation on start .. end changes what is said about one address. */
  datatype Change = Unmap | Reprotect(perm: nat)

  function Changed(a: Option<Attr>, c: Change): Option<Attr> {
    match c
    case Unmap => None
    case Reprotect(perm) => if a.Some? then Some(a.value.(perm := perm)) else None
  }

  /** Below `upto` the addresses in start .. end have been changed, and nothing else. */
  ghost predicate ChangedUpTo(was: seq<Vma>, now: seq<Vma>, start: nat, end: nat, c: Change, upto: nat) {
    forall x: nat :: Lookup(now, x) ==
      if start <= x < end && x < upto then Changed(Lookup(was, x), c) else Lookup(was, x)
  }

  /** What is left of an area in hand after the splits. */
  function Apply(v: Vma, start: nat, end: nat, c: Change): seq<Vma> {
    if !Contained(v, start, end) then [v]
    else match c
      case Unmap => []
      case Reprotect(perm) => [v.(perm := perm)]
  }

  lemma ApplyPieces(v: Vma, start: nat, end: nat, c: Change)
    requires v.start <= v.end && Aligned(v.start) && Aligned(v.end)
    ensures Pieces(v, Apply(v, start, end, c))
  {}

  /** No area between two neighbours in the list. */
  lemma LookupGap(vmas: seq<Vma>, i: nat, x: nat)
    requires InOrder(vmas) && i + 1 < |vmas| && vmas[i].end <= x < vmas[i + 1].start
    ensures Lookup(vmas, x) == None
  {
    LookupNone(vmas, x);
  }

  lemma LookupIn(vmas: seq<Vma>, i: nat, x: nat)
    requires InOrder(vmas) && i < |vmas| && vmas[i].start <= x < vmas[i].end
    ensures Lookup(vmas, x) == Some(Attr(vmas[i].perm, vmas[i].flags))
  {
    LookupOutside(vmas, 0, i, x);
    LookupAround(vmas[..i], [vmas[i]], vmas[i + 1..], x);
    assert vmas[0..i] == vmas[..i] && vmas == vmas[..i] + [vmas[i]] + vmas[i + 1..];
  }

  /** One turn: the area in hand is split at both edges and the part inside is changed. */
  lemma TurnLookup(was: seq<Vma>, vmas: seq<Vma>, i: nat, start: nat, end: nat, c: Change, x: nat)
    requires InOrder(vmas) && i + 1 < |vmas| && Aligned(start) && Aligned(end) && start < end
    requires ChangedUpTo(was, vmas, start, end, c, vmas[i].start)
    ensures var r := SplitTwice(vmas, i, start, end);
            && i + 1 < |r| && (x < r[i + 1].start ==>
                 Lookup(Replace(r, i, Apply(r[i], start, end, c)), x) ==
                   if start <= x < end then Changed(Lookup(was, x), c) else Lookup(was, x))
            && (r[i + 1].start <= x ==>
                 Lookup(Replace(r, i, Apply(r[i], start, end, c)), x) == Lookup(was, x))
  {
    hide SplitTwice, Aligned;
    SplitTwiceFacts(vmas, i, start, end);
    SplitTwiceLookup(vmas, i, start, end, x);
    var r := SplitTwice(vmas, i, start, end);
    var v := r[i];
    ApplyPieces(v, start, end, c);
    ReplaceLookup(r, i, Apply(v, start, end, c), x);
    if v.start <= x < v.end {
      LookupIn(r, i, x);
    } else if v.end <= x < r[i + 1].start {
      LookupGap(r, i, x);
    }
  }

  lemma TurnChanged(was: seq<Vma>, vmas: seq<Vma>, i: nat, start: nat, end: nat, c: Change)
    requires InOrder(vmas) && i + 1 < |vmas| && Aligned(start) && Aligned(end) && start < end
    requires ChangedUpTo(was, vmas, start, end, c, vmas[i].start)
    ensures var r := SplitTwice(vmas, i, start, end);
            i + 1 < |r| && ChangedUpTo(was, Replace(r, i, Apply(r[i], start, end, c)), start, end, c, r[i + 1].start)
  {
    hide SplitTwice, Aligned, InOrder, ChangedUpTo, Apply, Replace;
    TurnLookup(was, vmas, i, start, end, c, 0);
    var r := SplitTwice(vmas, i, start, end);
    var next := Replace(r, i, Apply(r[i], start, end, c));
    forall x: nat ensures Lookup(next, x) ==
      if start <= x < end && x < r[i + 1].start then Changed(Lookup(was, x), c) else Lookup(was, x)
    {
      TurnLookup(was, vmas, i, start, end, c, x);
    }
    ChangedAll(was, next, start, end, c, r[i + 1].start);
  }

  lemma ChangedAll(was: seq<Vma>, now: seq<Vma>, start: nat, end: nat, c: Change, upto: nat)
    requires forall x: nat ::
               Lookup(now, x) == if start <= x < end && x < upto then Changed(Lookup(was, x), c) else Lookup(was, x)
    ensures ChangedUpTo(was, now, start, end, c, upto)
  {}

  /** An area that already has the permission needs no change. */
  lemma SkipChanged(was: seq<Vma>, vmas: seq<Vma>, i: nat, start: nat, end: nat, perm: nat)
    requires InOrder(vmas) && i + 1 < |vmas| && vmas[i].perm == perm
    requires ChangedUpTo(was, vmas, start, end, Reprotect(perm), vmas[i].start)
    ensures ChangedUpTo(was, vmas, start, end, Reprotect(perm), vmas[i + 1].start)
  {
    forall x: nat ensures Lookup(vmas, x) ==
      if start <= x < end && x < vmas[i + 1].start then Changed(Lookup(was, x), Reprotect(perm)) else Lookup(was, x)
    {
      if vmas[i].start <= x < vmas[i].end {
        LookupIn(vmas, i, x);
      } else if vmas[i].end <= x < vmas[i + 1].start {
        LookupGap(vmas, i, x);
      }
    }
  }

  // ------------------------------------------------------------- searching

  /** The area is one that find_intersecting_vmas() returns. */
  predicate Meets(v: Vma, start: nat, end: nat) {
    v.start < end && (start <= v.start || start < v.end)
  }

  /** An address from which the search for areas finds one in the list. */
  predicate OnTheList(vmas: seq<Vma>, start: nat, end: nat)
    requires InOrder(vmas)
  {
    end <= start || LowerBoundVma(vmas, start) < |vmas|
  }

  /** Only from above the upper edge marker does the search run off the list. */
  lemma OnTheListIff(vmas: seq<Vma>, start: nat, end: nat)
    requires ListOk(vmas)
    ensures OnTheList(vmas, start, end) <==> start <= UPPER_VMA_LIMIT || end <= start
  {
    assert vmas[|vmas| - 1].start == UPPER_VMA_LIMIT;
  }

  /** find_intersecting_vmas(): a slice of the list. */
  function Intersecting(vmas: seq<Vma>, start: nat, end: nat): (nat, nat)
    requires ListOk(vmas) && OnTheList(vmas, start, end)
  {
    if end <= start then (|vmas|, |vmas|)
    else
      var first := LowerBoundVma(vmas, start);
      var first' := if vmas[first].start > start && vmas[first - 1].end > start then first - 1 else first;
      if vmas[first'].start >= end then (|vmas|, |vmas|)
      else (first', LowerBoundVma(vmas, end))
  }

  /** The slice holds exactly the areas that meet the range. */
  lemma IntersectingExact(vmas: seq<Vma>, start: nat, end: nat, i: nat)
    requires ListOk(vmas) && OnTheList(vmas, start, end) && i < |vmas|
    ensures var (first, second) := Intersecting(vmas, start, end);
            && first <= second <= |vmas|
            && (first <= i < second <==> start < end && Meets(vmas[i], start, end))
  {
    if start < end {
      var first := LowerBoundVma(vmas, start);
      assert first > 0 ==> vmas[first - 1].end <= vmas[first].start;
      assert i + 1 < first ==> vmas[i].end <= vmas[first - 1].start;
    }
  }

  /** Up to the first area that meets the range there is nothing to change. */
  lemma FirstChanged(vmas: seq<Vma>, start: nat, end: nat, c: Change)
    requires ListOk(vmas) && OnTheList(vmas, start, end)
    ensures var (first, second) := Intersecting(vmas, start, end);
            if first == second then ChangedUpTo(vmas, vmas, start, end, c, UPPER_VMA_LIMIT) && (end <= start || end <= UPPER_VMA_LIMIT)
            else start < end && (start > 0 <==> first > 0) && first < second <= |vmas| && (second == |vmas| <==> UPPER_VMA_LIMIT < end)
                 && (second < |vmas| ==> vmas[second].start >= end)
                 && ChangedUpTo(vmas, vmas, start, end, c, vmas[first].start)
  {
    var (first, second) := Intersecting(vmas, start, end);
    IntersectingExact(vmas, start, end, 0);
    IntersectingExact(vmas, start, end, |vmas| - 1);
    if second < |vmas| {
      IntersectingExact(vmas, start, end, second);
    }
    forall x: nat | start <= x < end && (first < second ==> x < vmas[first].start)
      ensures Lookup(vmas, x) == None
    {
      forall i: nat | i < |vmas| ensures !(vmas[i].start <= x < vmas[i].end) {
        IntersectingExact(vmas, start, end, i);
      }
      LookupNone(vmas, x);
    }
  }

  lemma AllChanged(was: seq<Vma>, now: seq<Vma>, start: nat, end: nat, c: Change, upto: nat)
    requires ChangedUpTo(was, now, start, end, c, upto) && end <= upto
    ensures forall x: nat :: Lookup(now, x) == if start <= x < end then Changed(Lookup(was, x), c) else Lookup(was, x)
  {}

  // ------------------------------------------------- edges inside a page

  lemma {:induction false} InsertTaken(vmas: seq<Vma>, v: Vma, k: nat)
    requires k < |vmas| && vmas[k].start == v.start
    requires forall i :: 0 <= i < k ==> vmas[i].start < v.start
    ensures InsertVma(vmas, v) == vmas
  {
    if k > 0 {
      InsertTaken(vmas[1..], v, k - 1);
      assert vmas == [vmas[0]] + vmas[1..];
    }
  }

  /** Splitting keeps the list in order and every address as it was. */
  ghost predicate SplitExact(vmas: seq<Vma>, i: nat, edge: nat)
    requires i < |vmas|
  {
    var r := SplitAt(vmas, i, edge);
    InOrder(r) && forall x: nat :: Lookup(r, x) == Lookup(vmas, x)
  }

  /** An edge in the first page of several: the rest of the area is lost. */
  lemma SplitLoses(vmas: seq<Vma>, i: nat, edge: nat)
    requires InOrder(vmas) && i < |vmas| && Splits(vmas[i], edge) && !Aligned(edge)
    requires AlignDown(edge) == vmas[i].start && AlignUp(edge) < vmas[i].end
    ensures Lookup(SplitAt(vmas, i, edge), AlignUp(edge)) == None != Lookup(vmas, AlignUp(edge))
  {
    var v, x := vmas[i], AlignUp(edge);
    AlignedFixed(v.start);
    AlignedFixed(edge);
    var cut := vmas[i := v.(end := x)];
    InsertTaken(cut, Vma(AlignDown(edge), AlignUp(v.end), v.perm, v.flags), i);
    LookupIn(vmas, i, x);
    LookupNone(cut, x);
  }

  /** An edge in a later page: both parts hold that page. */
  lemma SplitOverlaps(vmas: seq<Vma>, i: nat, edge: nat)
    requires InOrder(vmas) && i < |vmas| && Splits(vmas[i], edge) && !Aligned(edge)
    requires AlignDown(edge) > vmas[i].start
    ensures !InOrder(SplitAt(vmas, i, edge))
  {
    var v := vmas[i];
    AlignedFixed(v.start);
    AlignedFixed(edge);
    var cut := vmas[i := v.(end := AlignUp(edge))];
    var n := Vma(AlignDown(edge), AlignUp(v.end), v.perm, v.flags);
    InsertAt(cut, n, i + 1);
    var r := SplitAt(vmas, i, edge);
    assert r[i] == cut[i] && r[i + 1] == n;
  }

  /** Splitting inside an area is exact only at a page boundary, or for a single page that stays whole. */
  lemma SplitExactIff(vmas: seq<Vma>, i: nat, edge: nat)
    requires InOrder(vmas) && i < |vmas| && Splits(vmas[i], edge)
    ensures SplitExact(vmas, i, edge) <==> Aligned(edge) || vmas[i].end == vmas[i].start + PAGE_SIZE
  {
    var v := vmas[i];
    AlignedFixed(edge);
    AlignedFixed(v.start);
    AlignedFixed(v.end);
    PageBounds(v.start, edge, v.end);
    if Aligned(edge) {
      SplitInOrder(vmas, i, edge);
      forall x: nat ensures Lookup(SplitAt(vmas, i, edge), x) == Lookup(vmas, x) {
        SplitLookup(vmas, i, edge, x);
      }
    } else if v.end == v.start + PAGE_SIZE {
      assert vmas[i := v] == vmas;
      InsertTaken(vmas, Vma(AlignDown(edge), AlignUp(v.end), v.perm, v.flags), i);
    } else if AlignDown(edge) == v.start {
      SplitLoses(vmas, i, edge);
    } else {
      SplitOverlaps(vmas, i, edge);
    }
  }

  /** The page of an address between two page boundaries lies between them. */
  lemma PageBounds(start: nat, x: nat, end: nat)
    requires Aligned(start) && Aligned(end) && start < x < end
    ensures start <= AlignDown(x) && AlignUp(x) <= end
    ensures end == start + PAGE_SIZE ==> AlignDown(x) == start && AlignUp(x) == end
    ensures end != start + PAGE_SIZE && AlignDown(x) == start ==> AlignUp(x) < end
  {}
}
