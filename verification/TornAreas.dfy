/**
  What protect() of core/mmu.cc does with an end inside a page: the last area of
  the range is split where it can not be, loses what lies behind that page, and
  keeps its permission.
 */
module TornAreas {
  import opened Holes
  import opened VmaList

  /** One turn of the loop in protect(). */
  function TurnList(vmas: seq<Vma>, i: nat, start: nat, end: nat, perm: nat): seq<Vma>
    requires i < |vmas|
  {
    if vmas[i].perm == perm then vmas
    else
      var r := SplitTwice(vmas, i, start, end);
      if i < |r| then Replace(r, i, Apply(r[i], start, end, Reprotect(perm))) else r
  }

  // ------------------------------------------------ splitting in any list

  ghost predicate StartsRise(vmas: seq<Vma>) {
    forall i, j :: 0 <= i < j < |vmas| ==> vmas[i].start < vmas[j].start
  }

  /** The second part has the start of a listed area and gets lost. */
  lemma SplitIgnored(vmas: seq<Vma>, i: nat, edge: nat, k: nat)
    requires StartsRise(vmas) && i < |vmas| && k < |vmas| && Splits(vmas[i], edge) && Aligned(vmas[i].start)
    requires vmas[k].start == AlignDown(edge)
    ensures SplitAt(vmas, i, edge) == vmas[i := vmas[i].(end := AlignUp(edge))]
  {
    var v := vmas[i];
    AlignedFixed(v.start);
    var cut := vmas[i := v.(end := AlignUp(edge))];
    InsertTaken(cut, Vma(AlignDown(edge), AlignUp(v.end), v.perm, v.flags), k);
  }

  /** The second part is listed right after the first. */
  lemma SplitListed(vmas: seq<Vma>, i: nat, edge: nat)
    requires StartsRise(vmas) && i + 1 < |vmas| && Splits(vmas[i], edge) && Aligned(vmas[i].start) && Aligned(vmas[i].end)
    requires vmas[i].start < AlignDown(edge) < vmas[i + 1].start
    ensures var v := vmas[i];
            SplitAt(vmas, i, edge) == Replace(vmas, i, [v.(end := AlignUp(edge)), v.(start := AlignDown(edge))])
  {
    var v := vmas[i];
    AlignedFixed(v.start);
    AlignedFixed(v.end);
    var cut := vmas[i := v.(end := AlignUp(edge))];
    InsertAt(cut, v.(start := AlignDown(edge)), i + 1);
    assert cut[..i + 1] + [v.(start := AlignDown(edge))] + cut[i + 1..]
           == Replace(vmas, i, [v.(end := AlignUp(edge)), v.(start := AlignDown(edge))]);
  }

  // --------------------------------------------------------- the torn area

  /** An end inside a page of the area, and a start on a page boundary below it. */
  predicate Tears(v: Vma, start: nat, end: nat) {
    v.start < end < v.end && !Aligned(end) && Aligned(start) && start < end && Aligned(v.start) && Aligned(v.end)
  }

  lemma TearBounds(v: Vma, start: nat, end: nat)
    requires Tears(v, start, end)
    ensures v.start <= AlignDown(end) < end < AlignUp(end) <= v.end && start <= AlignDown(end)
    ensures AlignUp(end) == AlignDown(end) + PAGE_SIZE && Aligned(AlignDown(end)) && Aligned(AlignUp(end))
  {
    AlignedFixed(end);
    PageBounds(v.start, end, v.end);
  }

  /** What becomes of the area: the part below start, the part from there to the page of end, and that page, up to `upto`. */
  function Torn(v: Vma, start: nat, end: nat, upto: nat): seq<Vma> {
    var from := if v.start < start then start else v.start;
    (if v.start < start then [v.(end := start)] else [])
    + (if from < AlignDown(end) then [v.(start := from, end := AlignUp(end))] else [])
    + [v.(start := AlignDown(end), end := upto)]
  }

  /** How far the last part reaches until the loop comes to it. */
  function FirstUpto(v: Vma, end: nat): nat {
    if v.start == AlignDown(end) then AlignUp(end) else v.end
  }

  lemma ReplaceStarts(vmas: seq<Vma>, i: nat, pieces: seq<Vma>)
    requires StartsRise(vmas) && i < |vmas| && StartsRise(pieces)
    requires forall k :: 0 <= k < |pieces| ==> vmas[i].start <= pieces[k].start && (i + 1 < |vmas| ==> pieces[k].start < vmas[i + 1].start)
    ensures StartsRise(Replace(vmas, i, pieces))
  {
    var r, m := Replace(vmas, i, pieces), i + |pieces|;
    forall j, k | 0 <= j < k < |r| ensures r[j].start < r[k].start {
      assert k >= m ==> r[k] == vmas[k - m + i + 1];
      assert j >= m ==> r[j] == vmas[j - m + i + 1];
      assert i <= k < m ==> r[k] == pieces[k - i];
      assert i <= j < m ==> r[j] == pieces[j - i];
    }
  }

  lemma TornStarts(v: Vma, start: nat, end: nat, upto: nat)
    requires Tears(v, start, end)
    ensures StartsRise(Torn(v, start, end, upto)) && 1 <= |Torn(v, start, end, upto)| <= 3
    ensures forall k :: 0 <= k < |Torn(v, start, end, upto)| ==> v.start <= Torn(v, start, end, upto)[k].start < end
    ensures v.start == AlignDown(end) ==> |Torn(v, start, end, upto)| == 1
    ensures v.start < AlignDown(end) ==> |Torn(v, start, end, upto)| >= 2
  {
    TearBounds(v, start, end);
  }

  lemma InOrderRises(vmas: seq<Vma>)
    requires InOrder(vmas)
    ensures StartsRise(vmas)
  {}

  /** The turn in which the loop comes to the area. */
  lemma TearFirst(vmas: seq<Vma>, i: nat, start: nat, end: nat, perm: nat)
    requires InOrder(vmas) && i + 1 < |vmas| && Tears(vmas[i], start, end) && vmas[i].perm != perm
    ensures var v := vmas[i]; TurnList(vmas, i, start, end, perm) == Replace(vmas, i, Torn(v, start, end, FirstUpto(v, end)))
  {
    hide SplitAt, Aligned, AlignDown, AlignUp, InOrder;
    var v := vmas[i];
    TearBounds(v, start, end);
    InOrderRises(vmas);
    NextAfter(vmas, i);
    AlignedFixed(start);
    if v.start == AlignDown(end) {
      SplitIgnored(vmas, i, end, i);
      NoSplit(vmas[i := v.(end := AlignUp(end))], i, start);
    } else {
      SplitListed(vmas, i, end);
      TearSecond(vmas, i, start, end);
    }
  }

  lemma NextAfter(vmas: seq<Vma>, i: nat)
    requires InOrder(vmas) && i + 1 < |vmas|
    ensures vmas[i].end <= vmas[i + 1].start
  {}

  lemma NoSplit(vmas: seq<Vma>, i: nat, edge: nat)
    requires i < |vmas| && !Splits(vmas[i], edge)
    ensures SplitAt(vmas, i, edge) == vmas
  {}

  /** The split at start, after the one at end has listed two overlapping parts. */
  lemma TearSecond(vmas: seq<Vma>, i: nat, start: nat, end: nat)
    requires StartsRise(vmas) && i + 1 < |vmas| && Tears(vmas[i], start, end)
    requires vmas[i].start < AlignDown(end) && vmas[i].end <= vmas[i + 1].start
    ensures var v := vmas[i];
            var once := Replace(vmas, i, [v.(end := AlignUp(end)), v.(start := AlignDown(end))]);
            SplitAt(once, i, start) == Replace(vmas, i, Torn(v, start, end, v.end))
  {
    hide SplitAt, Aligned, AlignDown, AlignUp;
    var v := vmas[i];
    TearBounds(v, start, end);
    AlignedFixed(start);
    var lo, hi := v.(end := AlignUp(end)), v.(start := AlignDown(end));
    var once := Replace(vmas, i, [lo, hi]);
    ReplaceStarts(vmas, i, [lo, hi]);
    assert once[i] == lo && once[i + 1] == hi;
    if start <= v.start {
      NoSplit(once, i, start);
      assert Torn(v, start, end, v.end) == [lo, hi];
    } else if start == AlignDown(end) {
      SplitIgnored(once, i, start, i + 1);
      assert Torn(v, start, end, v.end) == [v.(end := start), hi];
    } else {
      SplitListed(once, i, start);
      assert Torn(v, start, end, v.end) == [v.(end := start), v.(start := start, end := AlignUp(end)), hi];
      assert Replace(once, i, [lo.(end := start), lo.(start := start)]) == Replace(vmas, i, Torn(v, start, end, v.end));
    }
  }

  /** The turn at the middle part of three finds that its rest is listed already. */
  lemma TearMiddle(vmas: seq<Vma>, i: nat, start: nat, end: nat, perm: nat)
    requires InOrder(vmas) && i + 1 < |vmas| && Tears(vmas[i], start, end) && vmas[i].perm != perm
    requires |Torn(vmas[i], start, end, vmas[i].end)| == 3
    ensures var now := Replace(vmas, i, Torn(vmas[i], start, end, vmas[i].end)); TurnList(now, i + 1, start, end, perm) == now
  {
    hide SplitAt, Aligned, AlignDown, AlignUp, InOrder;
    var v := vmas[i];
    TearBounds(v, start, end);
    TornInList(vmas, i, start, end);
    var now := Replace(vmas, i, Torn(v, start, end, v.end));
    assert now[i + 1] == v.(start := start, end := AlignUp(end)) && now[i + 2].start == AlignDown(end);
    SplitIgnored(now, i + 1, end, i + 2);
    assert now[i + 1 := now[i + 1].(end := AlignUp(end))] == now;
    NoSplit(now, i + 1, start);
    assert Replace(now, i + 1, [now[i + 1]]) == now;
  }

  lemma TornInList(vmas: seq<Vma>, i: nat, start: nat, end: nat)
    requires InOrder(vmas) && i + 1 < |vmas| && Tears(vmas[i], start, end)
    ensures StartsRise(Replace(vmas, i, Torn(vmas[i], start, end, vmas[i].end)))
  {
    hide Torn;
    InOrderRises(vmas);
    NextAfter(vmas, i);
    TornStarts(vmas[i], start, end, vmas[i].end);
    ReplaceStarts(vmas, i, Torn(vmas[i], start, end, vmas[i].end));
  }

  /** The turn at the last part cuts it off behind the page of end. */
  lemma TearLast(vmas: seq<Vma>, i: nat, start: nat, end: nat, perm: nat)
    requires InOrder(vmas) && i + 1 < |vmas| && Tears(vmas[i], start, end) && vmas[i].perm != perm
    requires vmas[i].start < AlignDown(end)
    ensures var v := vmas[i]; var now := Replace(vmas, i, Torn(v, start, end, v.end));
            var k := i + |Torn(v, start, end, v.end)| - 1;
            k < |now| && TurnList(now, k, start, end, perm) == Replace(vmas, i, Torn(v, start, end, AlignUp(end)))
  {
    hide SplitAt, Aligned, AlignDown, AlignUp, InOrder;
    var v := vmas[i];
    TearBounds(v, start, end);
    TornInList(vmas, i, start, end);
    var torn := Torn(v, start, end, v.end);
    var now, k := Replace(vmas, i, torn), i + |torn| - 1;
    assert now[k] == torn[|torn| - 1] == v.(start := AlignDown(end));
    SplitIgnored(now, k, end, k);
    var cut := now[k := v.(start := AlignDown(end), end := AlignUp(end))];
    assert cut == Replace(vmas, i, Torn(v, start, end, AlignUp(end)));
    NoSplit(cut, k, start);
    assert Replace(cut, k, [cut[k]]) == cut;
  }

  // ------------------------------------------------- turns that tear nothing

  /** For this area an end at `end` is as good as one at e. */
  predicate SameEnd(v: Vma, end: nat, e: nat) {
    end == e || (!Splits(v, end) && !Splits(v, e) && (v.end <= end <==> v.end <= e))
  }

  lemma SameSplits(vmas: seq<Vma>, i: nat, start: nat, end: nat, e: nat)
    requires InOrder(vmas) && i < |vmas| && Aligned(start) && Aligned(e) && start < e && SameEnd(vmas[i], end, e)
    ensures var r := SplitTwice(vmas, i, start, e);
            SplitTwice(vmas, i, start, end) == r && i < |r| && (Contained(r[i], start, end) <==> Contained(r[i], start, e))
  {
    hide Aligned, InsertVma;
    SplitTwiceFacts(vmas, i, start, e);
    SplitShape(vmas, i, e);
    SplitShape(SplitAt(vmas, i, e), i, start);
  }

  /** A turn changes the area in hand within the range and leaves what comes after it. */
  lemma GoodTurn(was: seq<Vma>, vmas: seq<Vma>, i: nat, start: nat, end: nat, e: nat, perm: nat)
    requires InOrder(vmas) && i + 1 < |vmas| && Aligned(start) && Aligned(e) && start < e && SameEnd(vmas[i], end, e)
    requires ChangedUpTo(was, vmas, start, e, Reprotect(perm), vmas[i].start)
    ensures var r := TurnList(vmas, i, start, end, perm);
            && |r| >= |vmas| && vmas[i].start < r[i + 1].start && r[i + 1 + |r| - |vmas|..] == vmas[i + 1..]
            && ChangedUpTo(was, r, start, e, Reprotect(perm), r[i + 1].start)
  {
    hide Aligned, SplitTwice, ChangedUpTo, SameEnd, Lookup;
    InOrderRises(vmas);
    if vmas[i].perm == perm {
      SkipChanged(was, vmas, i, start, e, perm);
    } else {
      TurnChanged(was, vmas, i, start, e, Reprotect(perm));
      SplitTwiceFacts(vmas, i, start, e);
      SameSplits(vmas, i, start, end, e);
      var r := SplitTwice(vmas, i, start, e);
      var now := Replace(r, i, Apply(r[i], start, e, Reprotect(perm)));
      assert Apply(r[i], start, end, Reprotect(perm)) == Apply(r[i], start, e, Reprotect(perm));
      assert now[i + 1..] == r[i + 1..];
      assert r[i + 1..][|r| - |vmas|..] == r[i + 1 + |r| - |vmas|..];
      InOrderRises(r);
    }
  }

  // ---------------------------------------------------------- the whole loop

  /** The last address of the range is in an area with another permission, and the range ends inside a page. */
  predicate IsTorn(was: seq<Vma>, start: nat, end: nat, perm: nat) {
    start < end && !Aligned(end) && Lookup(was, end - 1).Some? && Lookup(was, end - 1).value.perm != perm
  }

  /** What protect() makes of the attributes of an address. */
  function AfterProtect(was: seq<Vma>, start: nat, end: nat, perm: nat, x: nat): Option<Attr>
    requires InOrder(was)
  {
    var k := LowerBoundVma(was, end);
    if IsTorn(was, start, end, perm) && k > 0 then
      if start <= x < was[k - 1].start then Changed(Lookup(was, x), Reprotect(perm))
      else if AlignUp(end) <= x < was[k - 1].end then None
      else Lookup(was, x)
    else if start <= x < end then Changed(Lookup(was, x), Reprotect(perm))
    else Lookup(was, x)
  }

  /** Exactly the mapped addresses of the range have the permission now. */
  ghost predicate ProtectExact(was: seq<Vma>, now: seq<Vma>, start: nat, end: nat, perm: nat) {
    forall x: nat :: Lookup(now, x) == if start <= x < end then Changed(Lookup(was, x), Reprotect(perm)) else Lookup(was, x)
  }

  /** The area of an address inside a page. */
  lemma AreaOf(was: seq<Vma>, end: nat)
    requires InOrder(was) && !Aligned(end)
    ensures var k := LowerBoundVma(was, end);
            && (Lookup(was, end - 1).Some? ==> k > 0 && Splits(was[k - 1], end))
            && (k > 0 && Splits(was[k - 1], end) ==> Lookup(was, end - 1) == Some(Attr(was[k - 1].perm, was[k - 1].flags)))
            && (Lookup(was, end - 1).None? ==> Lookup(was, AlignDown(end)).None?)
  {
    var k := LowerBoundVma(was, end);
    AlignedFixed(end);
    if k > 0 && Splits(was[k - 1], end) {
      LookupIn(was, k - 1, end - 1);
    } else {
      forall x: nat | AlignDown(end) <= x < end ensures Lookup(was, x).None? {
        forall i: nat | i < |was| ensures !(was[i].start <= x < was[i].end) {
          InPage(was, i, end, x);
        }
        LookupNone(was, x);
      }
    }
  }

  lemma InPage(was: seq<Vma>, i: nat, end: nat, x: nat)
    requires InOrder(was) && i < |was| && !Aligned(end) && AlignDown(end) <= x < end
    requires var k := LowerBoundVma(was, end); k == 0 || !Splits(was[k - 1], end)
    ensures !(was[i].start <= x < was[i].end)
  {
    if was[i].start <= x < was[i].end {
      SamePage(was[i].start, was[i].end, end, x);
    }
  }

  lemma SamePage(start: nat, stop: nat, end: nat, x: nat)
    requires Aligned(start) && Aligned(stop) && AlignDown(end) <= x < end && start <= x < stop && !Aligned(end)
    ensures start < end < stop
  {}

  /** Exact, unless the last area is torn. */
  lemma ProtectExactIff(was: seq<Vma>, now: seq<Vma>, start: nat, end: nat, perm: nat)
    requires InOrder(was) && forall x: nat :: Lookup(now, x) == AfterProtect(was, start, end, perm, x)
    ensures ProtectExact(was, now, start, end, perm) <==> !IsTorn(was, start, end, perm)
  {
    if IsTorn(was, start, end, perm) {
      hide Lookup;
      AreaOf(was, end);
      AlignedFixed(end);
      var x := end - 1;
      assert Lookup(now, x) == AfterProtect(was, start, end, perm, x) == Lookup(was, x);
    }
  }

  lemma TornLookup(v: Vma, start: nat, end: nat, x: nat)
    requires Tears(v, start, end) && v.start <= x < v.end
    ensures Lookup(Torn(v, start, end, AlignUp(end)), x) == if x < AlignUp(end) then Some(Attr(v.perm, v.flags)) else None
  {
    hide Aligned, AlignDown, AlignUp;
    TearBounds(v, start, end);
    var torn := Torn(v, start, end, AlignUp(end));
    var last := torn[|torn| - 1];
    assert torn == torn[..|torn| - 1] + [last];
    LookupConcat(torn[..|torn| - 1], [last], x);
    if AlignUp(end) <= x {
      LookupNone(torn, x);
    } else {
      var from := if v.start < start then start else v.start;
      var a := if v.start < start then [v.(end := start)] else [];
      var b := if from < AlignDown(end) then [v.(start := from, end := AlignUp(end))] else [];
      assert torn == a + b + [last];
      LookupAround(a, b, [last], x);
      assert b == [] ==> from == AlignDown(end);
    }
  }

  /** Where the loop is: nothing torn, past a last area that needs no change, or at the parts of area b of `base`. */
  datatype Phase = Good | Passed | Tearing(base: seq<Vma>, b: nat)

  /** The loop runs as if the range ended at e, on a page boundary, up to the last `tail` areas of the slice. */
  ghost predicate EndOk(was: seq<Vma>, second: nat, start: nat, end: nat, e: nat, tail: nat) {
    && Aligned(start) && Aligned(e) && start < end && tail <= 1 && tail < second < |was|
    && (tail == 0 ==>
          && start < e <= was[second].start
          && (e == end || (!Aligned(end) && e == AlignUp(end) && Lookup(was, AlignDown(end)) == None)))
    && (tail == 1 ==> was[second - 1].start == e && Tears(was[second - 1], start, end))
  }

  ghost predicate LoopInv(was: seq<Vma>, second: nat, start: nat, end: nat, perm: nat, e: nat, tail: nat,
                          vmas: seq<Vma>, i: nat, stop: nat, ph: Phase) {
    match ph
    case Good =>
      && ListOk(vmas) && 0 < i <= stop - tail && stop < |vmas| && tail <= second <= |was|
      && vmas[stop - tail..] == was[second - tail..] && (start < e || i == stop - tail)
      && ChangedUpTo(was, vmas, start, e, Reprotect(perm), vmas[i].start)
    case Passed =>
      && tail == 1 && ListOk(vmas) && i == stop < |vmas| && ChangedUpTo(was, vmas, start, e, Reprotect(perm), e)
      && 1 <= second <= |was| && was[second - 1].perm == perm
    case Tearing(base, b) =>
      && tail == 1 && ListOk(base) && b + 1 < |base| && 1 <= second <= |was| && base[b] == was[second - 1] && base[b].perm != perm
      && Tears(base[b], start, end) && ChangedUpTo(was, base, start, e, Reprotect(perm), e)
      && b < i <= stop == b + |Torn(base[b], start, end, FirstUpto(base[b], end))|
      && vmas == Replace(base, b, Torn(base[b], start, end, if i < stop then FirstUpto(base[b], end) else AlignUp(end)))
  }

  /** The turn at this area keeps the list in order. */
  predicate Neat(v: Vma, end: nat, perm: nat) {
    Aligned(end) || !Splits(v, end) || v.perm == perm
  }

  lemma SameEndBelow(was: seq<Vma>, vmas: seq<Vma>, i: nat, start: nat, end: nat, e: nat, perm: nat)
    requires ListOk(vmas) && 0 < i < |vmas| - 1 && !Aligned(end) && e == AlignUp(end)
    requires Lookup(was, AlignDown(end)) == None && ChangedUpTo(was, vmas, start, e, Reprotect(perm), vmas[i].start)
    ensures SameEnd(vmas[i], end, e)
  {
    hide InOrder;
    var v, d := vmas[i], AlignDown(end);
    assert Lookup(vmas, d) == None;
    AlignedFixed(end);
    AreaOk(vmas, i);
    if v.start <= d < v.end {
      LookupIn(vmas, i, d);
    }
    NotInPage(v.start, v.end, end);
  }

  lemma AreaOk(vmas: seq<Vma>, i: nat)
    requires ListOk(vmas) && 0 < i < |vmas| - 1
    ensures vmas[i].start < vmas[i].end && Aligned(vmas[i].start) && Aligned(vmas[i].end)
  {}

  lemma NotInPage(start: nat, stop: nat, end: nat)
    requires Aligned(start) && Aligned(stop) && start < stop && !Aligned(end) && !(start <= AlignDown(end) < stop)
    ensures !(start < end < stop) && !(start < AlignUp(end) < stop) && (stop <= end <==> stop <= AlignUp(end))
  {}

  /** A turn at an area before the last one of the slice, or at that one if nothing tears. */
  lemma GoodTurnInv(was: seq<Vma>, second: nat, start: nat, end: nat, perm: nat, e: nat, tail: nat,
                    vmas: seq<Vma>, i: nat, stop: nat)
    requires EndOk(was, second, start, end, e, tail)
    requires LoopInv(was, second, start, end, perm, e, tail, vmas, i, stop, Good) && i < stop - tail
    ensures Neat(vmas[i], end, perm)
    ensures var r := TurnList(vmas, i, start, end, perm);
            && |r| >= |vmas| && i + 1 < |r| && vmas[i].start < r[i + 1].start
            && (ListOk(r) ==> LoopInv(was, second, start, end, perm, e, tail, r, i + 1, stop + |r| - |vmas|, Good))
  {
    hide ListOk, ChangedUpTo, TurnList, Aligned, AlignUp, AlignDown, Lookup;
    InTheList(vmas);
    if tail == 1 {
      assert vmas[stop - 1] == vmas[stop - 1..][0] == was[second - 1];
      BeforeLast(vmas, i, stop - 1);
      assert SameEnd(vmas[i], end, e);
    } else if e != end {
      SameEndBelow(was, vmas, i, start, end, e, perm);
    }
    GoodTurn(was, vmas, i, start, end, e, perm);
    var r := TurnList(vmas, i, start, end, perm);
    assert r[stop - tail + |r| - |vmas|..] == r[i + 1 + |r| - |vmas|..][stop - tail - i - 1..] == vmas[i + 1..][stop - tail - i - 1..] == vmas[stop - tail..];
  }

  lemma InTheList(vmas: seq<Vma>)
    requires ListOk(vmas)
    ensures InOrder(vmas)
  {}

  lemma BeforeLast(vmas: seq<Vma>, i: nat, j: nat)
    requires InOrder(vmas) && i < j < |vmas|
    ensures vmas[i].end <= vmas[j].start
  {}

  /** The turn at the last area of the slice, in which the range ends inside a page. */
  lemma LastTurnInv(was: seq<Vma>, second: nat, start: nat, end: nat, perm: nat, e: nat, vmas: seq<Vma>, stop: nat) returns (ph: Phase)
    requires EndOk(was, second, start, end, e, 1) && stop > 0
    requires LoopInv(was, second, start, end, perm, e, 1, vmas, stop - 1, stop, Good)
    ensures var r := TurnList(vmas, stop - 1, start, end, perm);
            && |r| >= |vmas| && LoopInv(was, second, start, end, perm, e, 1, r, stop, stop + |r| - |vmas|, ph) && !ph.Good?
            && (ph.Passed? ==> Neat(vmas[stop - 1], end, perm))
  {
    hide ListOk, ChangedUpTo, Aligned, AlignUp, AlignDown, Lookup, Torn;
    InTheList(vmas);
    assert vmas[stop - 1] == vmas[stop - 1..][0] == was[second - 1];
    if vmas[stop - 1].perm == perm {
      ph := Passed;
    } else {
      ph := Tearing(vmas, stop - 1);
      TearFirst(vmas, stop - 1, start, end, perm);
      TornStarts(vmas[stop - 1], start, end, FirstUpto(vmas[stop - 1], end));
      TearBounds(vmas[stop - 1], start, end);
    }
  }

  /** A turn at one of the torn parts. */
  lemma TornTurnInv(was: seq<Vma>, second: nat, start: nat, end: nat, perm: nat, e: nat,
                    vmas: seq<Vma>, i: nat, stop: nat, ph: Phase)
    requires LoopInv(was, second, start, end, perm, e, 1, vmas, i, stop, ph) && ph.Tearing? && i < stop
    ensures i < |vmas|
    ensures var r := TurnList(vmas, i, start, end, perm);
            && |r| == |vmas| && LoopInv(was, second, start, end, perm, e, 1, r, i + 1, stop, ph)
  {
    hide ListOk, ChangedUpTo, Aligned, AlignUp, AlignDown, Lookup, TurnList;
    var base, b := ph.base, ph.b;
    var v := base[b];
    InTheList(base);
    TornStarts(v, start, end, FirstUpto(v, end));
    TearBounds(v, start, end);
    if i + 1 < stop {
      TearMiddle(base, b, start, end, perm);
    } else {
      TearLast(base, b, start, end, perm);
    }
  }

  /** A turn of the loop, wherever it is. */
  lemma TurnInv(was: seq<Vma>, second: nat, start: nat, end: nat, perm: nat, e: nat, tail: nat,
                vmas: seq<Vma>, i: nat, stop: nat, ph: Phase) returns (ph': Phase)
    requires EndOk(was, second, start, end, e, tail)
    requires LoopInv(was, second, start, end, perm, e, tail, vmas, i, stop, ph) && i != stop
    ensures i < stop <= |vmas|
    ensures var r := TurnList(vmas, i, start, end, perm);
            && |r| >= |vmas| && i + 1 <= |r| && (ph'.Good? ==> ph.Good? && i + 1 < |r| && vmas[i].start < r[i + 1].start)
            && ((ph'.Tearing? || ListOk(r)) ==> LoopInv(was, second, start, end, perm, e, tail, r, i + 1, stop + |r| - |vmas|, ph'))
    ensures !ph.Passed? && (ph.Tearing? ==> |TurnList(vmas, i, start, end, perm)| == |vmas|)
    ensures !ph'.Tearing? ==> !ph.Tearing? && 0 < i < |vmas| - 1 && Neat(vmas[i], end, perm)
  {
    hide ListOk, ChangedUpTo, TurnList, Torn, Neat, Aligned, Lookup, AlignUp, AlignDown;
    if ph.Good? && i < stop - tail {
      GoodTurnInv(was, second, start, end, perm, e, tail, vmas, i, stop);
      ph' := Good;
    } else if ph.Good? {
      ph' := LastTurnInv(was, second, start, end, perm, e, vmas, stop);
    } else {
      TornTurnInv(was, second, start, end, perm, e, vmas, i, stop, ph);
      ph' := ph;
    }
  }

  lemma LoopBounds(was: seq<Vma>, second: nat, start: nat, end: nat, perm: nat, e: nat, tail: nat,
                   vmas: seq<Vma>, i: nat, stop: nat, ph: Phase)
    requires LoopInv(was, second, start, end, perm, e, tail, vmas, i, stop, ph)
    ensures i <= stop <= |vmas| && (ph.Good? ==> i < |vmas| && vmas[i].start <= UPPER_VMA_LIMIT)
  {
    hide ChangedUpTo, NonEmpty, Aligned;
    if ph.Good? && i < |vmas| - 1 {
      assert vmas[i].start < vmas[|vmas| - 1].start;
    }
  }

  // ------------------------------------------- where it begins and ends

  /** A page of which one address is not mapped. */
  lemma EmptyPage(was: seq<Vma>, end: nat, x: nat)
    requires InOrder(was) && !Aligned(end) && Lookup(was, AlignDown(end)) == None && AlignDown(end) <= x < AlignUp(end)
    ensures Lookup(was, x) == None
  {
    forall i: nat | i < |was| ensures !(was[i].start <= x < was[i].end) {
      if was[i].start <= x < was[i].end {
        InSamePage(was[i].start, was[i].end, end, x);
        LookupIn(was, i, AlignDown(end));
      }
    }
    LookupNone(was, x);
  }

  lemma InSamePage(start: nat, stop: nat, end: nat, x: nat)
    requires Aligned(start) && Aligned(stop) && AlignDown(end) <= x < AlignUp(end) && start <= x < stop
    ensures start <= AlignDown(end) < stop
  {}

  lemma SliceStarts(was: seq<Vma>, start: nat, end: nat)
    requires ListOk(was) && OnTheList(was, start, end)
    ensures var (first, second) := Intersecting(was, start, end);
            && first <= second
            && (first < second ==>
              && second == LowerBoundVma(was, end) && was[first].start < end && was[second - 1].start < end
              && (first < second - 1 ==> start < was[second - 1].start))
  {
    var (first, second) := Intersecting(was, start, end);
    IntersectingExact(was, start, end, 0);
    if first < second {
      IntersectingExact(was, start, end, first);
      IntersectingExact(was, start, end, second - 1);
    }
  }

  lemma ChangedNothing(was: seq<Vma>, start: nat, end: nat, e: nat, c: Change, upto: nat)
    requires ChangedUpTo(was, was, start, end, c, upto) && upto < end
    ensures ChangedUpTo(was, was, start, e, c, upto)
  {}

  lemma StartLoop(was: seq<Vma>, start: nat, end: nat, perm: nat) returns (e: nat, tail: nat)
    requires ListOk(was) && OnTheList(was, start, end) && Aligned(start) && 0 < start && end <= UPPER_VMA_LIMIT
    requires Intersecting(was, start, end).0 < Intersecting(was, start, end).1
    ensures var (first, second) := Intersecting(was, start, end);
            EndOk(was, second, start, end, e, tail) && LoopInv(was, second, start, end, perm, e, tail, was, first, second, Good)
  {
    hide ListOk, InOrder, ChangedUpTo, Aligned, AlignUp, AlignDown, Lookup, Intersecting;
    var (first, second) := Intersecting(was, start, end);
    FirstChanged(was, start, end, Reprotect(perm));
    SliceStarts(was, start, end);
    InTheList(was);
    var v := was[second - 1];
    AreaOk(was, second - 1);
    AlignedFixed(end);
    if Aligned(end) {
      e, tail := end, 0;
    } else {
      AreaOf(was, end);
      if Splits(v, end) {
        e, tail := v.start, 1;
      } else {
        e, tail := AlignUp(end), 0;
        AboveEnd(was, second, end);
      }
    }
    ChangedNothing(was, start, end, e, Reprotect(perm), was[first].start);
  }

  lemma AboveEnd(was: seq<Vma>, k: nat, end: nat)
    requires InOrder(was) && k < |was| && end <= was[k].start
    ensures AlignUp(end) <= was[k].start
  {}

  lemma NothingToProtect(was: seq<Vma>, start: nat, end: nat, perm: nat, x: nat)
    requires ListOk(was) && OnTheList(was, start, end) && end <= UPPER_VMA_LIMIT
    requires Intersecting(was, start, end).0 == Intersecting(was, start, end).1
    ensures Lookup(was, x) == AfterProtect(was, start, end, perm, x) && !IsTorn(was, start, end, perm)
  {
    hide ListOk, Lookup, Intersecting, Aligned;
    FirstChanged(was, start, end, Reprotect(perm));
    InTheList(was);
    assert start < end ==> Lookup(was, end - 1) == Changed(Lookup(was, end - 1), Reprotect(perm));
  }

  lemma GoodEnd(was: seq<Vma>, second: nat, start: nat, end: nat, perm: nat, e: nat, vmas: seq<Vma>, stop: nat, x: nat)
    requires InOrder(was) && EndOk(was, second, start, end, e, 0)
    requires LoopInv(was, second, start, end, perm, e, 0, vmas, stop, stop, Good)
    ensures Lookup(vmas, x) == AfterProtect(was, start, end, perm, x) && !IsTorn(was, start, end, perm)
  {
    hide InOrder, Lookup, Aligned, AlignUp, AlignDown, ListOk;
    assert vmas[stop] == vmas[stop..][0] == was[second];
    AllChanged(was, vmas, start, e, Reprotect(perm), vmas[stop].start);
    AlignedFixed(end);
    if e != end {
      EmptyPage(was, end, end - 1);
      if end <= x < e {
        EmptyPage(was, end, x);
      }
    }
  }

  lemma PassedEnd(was: seq<Vma>, second: nat, start: nat, end: nat, perm: nat, e: nat, vmas: seq<Vma>, stop: nat, x: nat)
    requires InOrder(was) && EndOk(was, second, start, end, e, 1) && second == LowerBoundVma(was, end)
    requires LoopInv(was, second, start, end, perm, e, 1, vmas, stop, stop, Passed)
    ensures Lookup(vmas, x) == AfterProtect(was, start, end, perm, x) && !IsTorn(was, start, end, perm)
  {
    hide InOrder, Lookup, Aligned, AlignUp, AlignDown, ListOk;
    AllChanged(was, vmas, start, e, Reprotect(perm), e);
    AreaOf(was, end);
    if e <= x < end {
      LookupIn(was, second - 1, x);
    }
  }

  lemma TornEnd(was: seq<Vma>, second: nat, start: nat, end: nat, perm: nat, e: nat, vmas: seq<Vma>, stop: nat, ph: Phase, x: nat)
    requires InOrder(was) && EndOk(was, second, start, end, e, 1) && second == LowerBoundVma(was, end)
    requires LoopInv(was, second, start, end, perm, e, 1, vmas, stop, stop, ph) && ph.Tearing?
    ensures Lookup(vmas, x) == AfterProtect(was, start, end, perm, x) && IsTorn(was, start, end, perm)
  {
    hide InOrder, Lookup, Aligned, AlignUp, AlignDown, ListOk, Torn;
    var base, b := ph.base, ph.b;
    var v := base[b];
    AllChanged(was, base, start, e, Reprotect(perm), e);
    AreaOf(was, end);
    InTheList(base);
    TornWithin(v, start, end);
    TearBounds(v, start, end);
    ReplaceWithin(base, b, Torn(v, start, end, AlignUp(end)), x);
    if v.start <= x < v.end {
      TornLookup(v, start, end, x);
      LookupIn(was, second - 1, x);
    }
  }

  lemma TornWithin(v: Vma, start: nat, end: nat)
    requires Tears(v, start, end)
    ensures var torn := Torn(v, start, end, AlignUp(end));
            forall k :: 0 <= k < |torn| ==> v.start <= torn[k].start && torn[k].end <= v.end
  {
    TearBounds(v, start, end);
  }

  /** When the loop has ended, each address is as protect() makes it. */
  lemma LoopEnd(was: seq<Vma>, second: nat, start: nat, end: nat, perm: nat, e: nat, tail: nat, vmas: seq<Vma>, stop: nat, ph: Phase)
    requires ListOk(was) && EndOk(was, second, start, end, e, tail) && second == LowerBoundVma(was, end)
    requires LoopInv(was, second, start, end, perm, e, tail, vmas, stop, stop, ph)
    ensures forall x: nat :: Lookup(vmas, x) == AfterProtect(was, start, end, perm, x)
    ensures ph.Tearing? <==> IsTorn(was, start, end, perm)
  {
    hide Lookup, AfterProtect, IsTorn, EndOk, ChangedUpTo, Torn;
    forall x: nat ensures Lookup(vmas, x) == AfterProtect(was, start, end, perm, x) && (ph.Tearing? <==> IsTorn(was, start, end, perm)) {
      match ph
      case Good => GoodEnd(was, second, start, end, perm, e, vmas, stop, x);
      case Passed => PassedEnd(was, second, start, end, perm, e, vmas, stop, x);
      case Tearing(_, _) => TornEnd(was, second, start, end, perm, e, vmas, stop, ph, x);
    }
    assert Lookup(vmas, 0) == AfterProtect(was, start, end, perm, 0);
  }
}
