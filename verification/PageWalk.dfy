/**
  The page-table walker map_level of core/mmu.cc with the operations that map a
  linear range, populate a range and unpopulate it.  Pages are numbered from
  address zero; only addresses below the 47-bit limit are walked.
 */
module PageWalk {
  import opened Division
  import opened PageTable

  /** A page-table operation with what its allocations return, by offset. */
  datatype Op =
    | Linear(start: nat)
    | Populate(huge: nat -> Option<nat>, small: nat -> Option<nat>)
    | Unpopulate

  /** Where a walk takes place and what it does. */
  datatype Walk = Walk(vmaStart: nat, op: Op, sizes: nat)

  /** One call of page(). */
  datatype Call = Call(level: nat, base: nat, offset: nat)

  predicate Allocates(op: Op) { !op.Unpopulate? }
  predicate SkipsEmpty(op: Op) { op.Unpopulate? }
  predicate Descends(op: Op) { !op.Linear? }

  ghost predicate OpOk(op: Op) {
    op.Populate? ==> forall o: nat :: op.huge(o).Some? ==> op.huge(o).value % ENTRIES == 0
  }

  function HugeDown(x: nat): nat { x - x % ENTRIES }

  /** What page() writes, or none if it fails. */
  function Page(op: Op, level: nat, offset: nat, e: Entry): Option<Entry> {
    match op
    case Linear(start) => Some(Leaf(if level == 1 then HugeDown(start + offset) else start + offset))
    case Populate(huge, small) =>
      if e != Empty then Some(e)
      else
        var got := if level == 1 then huge(offset) else small(offset);
        if got.Some? then Some(Leaf(got.value)) else None
    case Unpopulate => Some(Empty)
  }

  // ------------------------------------------------------ what a walk means

  /** The aligned block of a huge page around this page lies in lo .. hi. */
  predicate HugeInside(page: nat, lo: nat, hi: nat) {
    lo <= HugeDown(page) && HugeDown(page) + ENTRIES - 1 <= hi
  }

  function LinearTarget(w: Walk, page: nat, lo: nat, hi: nat): nat
    requires w.op.Linear? && w.vmaStart <= lo <= page <= hi
  {
    if w.sizes > 1 && HugeInside(page, lo, hi) then HugeDown(w.op.start + HugeDown(page) - w.vmaStart) + page % ENTRIES
    else w.op.start + page - w.vmaStart
  }

  predicate Covers(c: Call, page: nat) {
    c.base <= page < c.base + Step(c.level)
  }

  /** What the allocation for one call of page() gave to this page. */
  function PopulateTarget(w: Walk, c: Call, page: nat): Option<nat>
    requires w.op.Populate? && c.base <= page
  {
    if c.level == 0 then w.op.small(c.offset)
    else
      var got := w.op.huge(c.offset);
      if got.Some? then Some(got.value + page - c.base) else None
  }

  /** A call for this page, or for its block if a huge page could be had, gave it what it has now. */
  ghost predicate Called(w: Walk, log: seq<Call>, page: nat, now: Option<nat>)
    requires w.op.Populate?
  {
    exists c :: c in log && Covers(c, page) && c.base == w.vmaStart + c.offset
                && now == PopulateTarget(w, c, page) && (c.level > 0 ==> c.level < w.sizes && now.Some?)
  }

  /** The allocation of a huge page for the whole block of this page is tried, and gives one. */
  predicate HugeGiven(w: Walk, page: nat, lo: nat, hi: nat)
    requires w.op.Populate? && w.vmaStart <= lo
  {
    w.sizes > 1 && HugeInside(page, lo, hi) && w.op.huge(HugeDown(page) - w.vmaStart).Some?
  }

  /** What populating gives to a page that was not mapped: a part of a huge page if its block is bare, or a page. */
  function Populated(w: Walk, page: nat, lo: nat, hi: nat, bare: bool): Option<nat>
    requires w.op.Populate? && w.vmaStart <= lo <= page
  {
    if bare && HugeGiven(w, page, lo, hi) then Some(w.op.huge(HugeDown(page) - w.vmaStart).value + page % ENTRIES)
    else w.op.small(page - w.vmaStart)
  }

  /** How a walk over lo .. hi with these calls of page() changes the translation of one page. */
  ghost predicate Effect(w: Walk, log: seq<Call>, page: nat, lo: nat, hi: nat, bare: bool,
                         was: Option<nat>, now: Option<nat>)
    requires w.vmaStart <= lo
  {
    if !(lo <= page <= hi) then now == was
    else match w.op
      case Linear(_) => now == Some(LinearTarget(w, page, lo, hi))
      case Populate(_, _) => if was.Some? then now == was
                              else now == Populated(w, page, lo, hi, bare) && Called(w, log, page, now)
      case Unpopulate => now == None
  }

  ghost predicate Mapped(w: Walk, log: seq<Call>, e: Entry, e': Entry, level: nat, base: nat, lo: nat, hi: nat)
    requires w.vmaStart <= lo
  {
    && WellFormed(e, level) && WellFormed(e', level)
    && forall p: nat :: p < Step(level) ==>
         Effect(w, log, base + p, lo, hi, Bare(e, level, p), Translate(e, level, p), Translate(e', level, p))
  }

  /** The calls cover first .. next one after the other, each page once, with the right offsets. */
  predicate Tiles(w: Walk, log: seq<Call>, first: nat, next: nat) {
    if log == [] then first == next
    else
      var c := log[0];
      && c.level < w.sizes && c.base == first && w.vmaStart <= first && c.offset == first - w.vmaStart
      && Tiles(w, log[1..], first + Step(c.level), next)
  }

  lemma {:induction false} TilesConcat(w: Walk, a: seq<Call>, b: seq<Call>, x: nat, y: nat, z: nat)
    requires Tiles(w, a, x, y) && Tiles(w, b, y, z)
    ensures Tiles(w, a + b, x, z)
  {
    if a == [] {
      assert a + b == b;
    } else {
      TilesConcat(w, a[1..], b, x + Step(a[0].level), y, z);
      assert (a + b)[1..] == a[1..] + b;
    }
  }

  // ----------------------------------------------------------- one entry

  function Max(a: nat, b: nat): nat { if a < b then b else a }
  function Min(a: int, b: int): int { if a < b then a else b }

  lemma HugeDownFacts(x: nat, base: nat)
    requires base % ENTRIES == 0
    ensures base <= x < base + ENTRIES ==> HugeDown(x) == base && x % ENTRIES == x - base
    ensures base <= x ==> base <= HugeDown(x)
    ensures x < base ==> HugeDown(x) + ENTRIES <= base
  {}

  /** page() on a whole entry does to its pages what the walk should. */
  lemma PageEffect(w: Walk, log: seq<Call>, e: Entry, level: nat, base: nat, p: nat)
    requires WellFormed(e, level) && level < w.sizes <= 2 && OpOk(w.op) && w.vmaStart <= base
    requires log == [Call(level, base, base - w.vmaStart)]
    requires level == 1 ==> base % ENTRIES == 0
    requires !(Descends(w.op) && e.Table?) && p < Step(level)
    ensures var n := Page(w.op, level, base - w.vmaStart, e);
            n.Some? ==> && WellFormed(n.value, level)
                        && Effect(w, log, base + p, base, base + Step(level) - 1, Bare(e, level, p), Translate(e, level, p), Translate(n.value, level, p))
  {
    if level == 1 {
      assert Step(1) == ENTRIES;
      HugeDownFacts(base + p, base);
    } else {
      assert Step(0) == 1;
    }
    assert Covers(log[0], base + p);
  }

  lemma PageMapped(w: Walk, log: seq<Call>, e: Entry, level: nat, base: nat, n: Entry)
    requires WellFormed(e, level) && level < w.sizes <= 2 && OpOk(w.op) && w.vmaStart <= base
    requires log == [Call(level, base, base - w.vmaStart)]
    requires level == 1 ==> base % ENTRIES == 0
    requires !(Descends(w.op) && e.Table?)
    requires Page(w.op, level, base - w.vmaStart, e) == Some(n)
    ensures Mapped(w, log, e, n, level, base, base, base + Step(level) - 1)
  {
    hide Effect, Page;
    PageEffect(w, log, e, level, base, 0);
    forall p: nat | p < Step(level)
      ensures Effect(w, log, base + p, base, base + Step(level) - 1, Bare(e, level, p), Translate(e, level, p), Translate(n, level, p))
    {
      PageEffect(w, log, e, level, base, p);
    }
  }

  /** An entry left alone: empty and to be unmapped, or out of memory. */
  lemma AloneMapped(w: Walk, log: seq<Call>, level: nat, base: nat, lo: nat, hi: nat)
    requires w.vmaStart <= lo && !w.op.Linear?
    requires w.op.Populate? ==> level == 0 && w.vmaStart <= base && log == [Call(0, base, base - w.vmaStart)]
                                && w.op.small(base - w.vmaStart) == None
    ensures Mapped(w, log, Empty, Empty, level, base, lo, hi)
  {
    if w.op.Populate? {
      assert Step(0) == 1;
      assert Covers(log[0], base);
    }
  }

  /** More calls elsewhere do not matter. */
  lemma MoreLog(w: Walk, log: seq<Call>, log': seq<Call>, e: Entry, e': Entry, level: nat, base: nat, lo: nat, hi: nat)
    requires w.vmaStart <= lo && Mapped(w, log, e, e', level, base, lo, hi) && forall c :: c in log ==> c in log'
    ensures Mapped(w, log', e, e', level, base, lo, hi)
  {
    forall p: nat | p < Step(level)
      ensures Effect(w, log', base + p, lo, hi, Bare(e, level, p), Translate(e, level, p), Translate(e', level, p))
    {
      assert Effect(w, log, base + p, lo, hi, Bare(e, level, p), Translate(e, level, p), Translate(e', level, p));
    }
  }

  /** Nothing of the region lies in the range. */
  lemma OutsideMapped(w: Walk, log: seq<Call>, e: Entry, level: nat, base: nat, lo: nat, hi: nat)
    requires WellFormed(e, level) && w.vmaStart <= lo && (lo > hi || base > hi || base + Step(level) <= lo)
    ensures Mapped(w, log, e, e, level, base, lo, hi)
  {}

  /** A change of structure before the walk does not matter. */
  lemma MappedFrom(w: Walk, log: seq<Call>, e: Entry, t: Entry, e': Entry, level: nat, base: nat, lo: nat, hi: nat)
    requires w.vmaStart <= lo && Mapped(w, log, t, e', level, base, lo, hi) && WellFormed(e, level)
    requires forall p: nat :: p < Step(level) ==> Translate(t, level, p) == Translate(e, level, p)
    requires forall p: nat :: p < Step(level) ==>
               (Bare(t, level, p) <==> Bare(e, level, p)) || (w.op.Populate? ==> !HugeGiven(w, base + p, lo, hi))
    ensures Mapped(w, log, e, e', level, base, lo, hi)
  {
    forall p: nat | p < Step(level)
      ensures Effect(w, log, base + p, lo, hi, Bare(e, level, p), Translate(e, level, p), Translate(e', level, p))
    {
      assert Effect(w, log, base + p, lo, hi, Bare(t, level, p), Translate(t, level, p), Translate(e', level, p));
    }
  }

  /** A table whose pages are all unmapped may go. */
  lemma UnmappedGone(w: Walk, log: seq<Call>, e: Entry, e': Entry, level: nat, base: nat)
    requires w.vmaStart <= base && w.op.Unpopulate? && Mapped(w, log, e, e', level, base, base, base + Step(level) - 1)
    ensures Mapped(w, log, e, Empty, level, base, base, base + Step(level) - 1)
  {}

  // ------------------------------------------------------------ one table

  /** What happened to a page of entry i is what should happen for the whole range. */
  lemma EffectWiden(w: Walk, log: seq<Call>, level: nat, base: nat, page: nat, lo: nat, hi: nat, bare: bool, was: Option<nat>, now: Option<nat>)
    requires w.vmaStart <= lo && base <= page < base + Step(level)
    requires if level > 0 then base % ENTRIES == 0 && Step(level) % ENTRIES == 0
             else !bare && (w.op.Linear? && w.sizes > 1 ==> !HugeInside(page, lo, hi))
    requires Effect(w, log, page, Max(lo, base), Min(hi, base + Step(level) - 1), bare, was, now)
    ensures Effect(w, log, page, lo, hi, bare, was, now)
  {
    if lo <= page <= hi && level > 0 {
      HugeDownFacts(page, base);
      HugeDownFacts(page, base + Step(level));
    }
  }

  /** The part of a range that lies in entry i of a table was walked. */
  ghost predicate EntryMapped(w: Walk, log: seq<Call>, e: Entry, e': Entry, level: nat, base: nat, lo: nat, hi: nat)
    requires w.vmaStart <= lo
  {
    Mapped(w, log, e, e', level, base, Max(lo, base), Min(hi, base + Step(level) - 1))
  }

  /** The range does not cover a whole huge page here, or those are not used. */
  predicate SmallOnly(w: Walk, base: nat, lo: nat, hi: nat) {
    w.op.Linear? && w.sizes > 1 ==> lo > base || hi < base + ENTRIES - 1
  }

  /** The same for the block of an entry without a table, unless there is no huge page to be had. */
  predicate NoHuge(w: Walk, base: nat, lo: nat, hi: nat)
  {
    w.op.Populate? && w.sizes > 1 && w.vmaStart <= lo <= base && base + ENTRIES - 1 <= hi ==>
      w.op.huge(base - w.vmaStart) == None
  }

  lemma NoHugeGiven(w: Walk, base: nat, lo: nat, hi: nat, p: nat)
    requires w.op.Populate? && w.vmaStart <= lo && NoHuge(w, base, lo, hi) && base % ENTRIES == 0 && p < ENTRIES
    ensures !HugeGiven(w, base + p, lo, hi)
  {
    HugeDownFacts(base + p, base);
  }

  lemma StepIsHuge(level: nat)
    requires level > 0
    ensures Step(level) % ENTRIES == 0
  {
    DivMod(ENTRIES, Step(level - 1), 0);
  }

  lemma RegionAligned(level: nat, k: nat)
    requires level > 0
    ensures (Step(level) * k) % ENTRIES == 0
  {
    assert Step(level) * k == ENTRIES * (Step(level - 1) * k);
    DivMod(ENTRIES, Step(level - 1) * k, 0);
  }

  lemma EntryAligned(level: nat, base: nat, i: nat)
    requires level > 0 && base % ENTRIES == 0
    ensures (base + Step(level) * i) % ENTRIES == 0 && Step(level) % ENTRIES == 0
  {
    StepIsHuge(level);
    RegionAligned(level, i);
    SumOfMultiples(base, Step(level) * i);
  }

  lemma SumOfMultiples(a: nat, b: nat)
    requires a % ENTRIES == 0 && b % ENTRIES == 0
    ensures (a + b) % ENTRIES == 0
  {}

  lemma PageInTable(w: Walk, log: seq<Call>, e: Entry, e': Entry, level: nat, base: nat, b: nat, lo: nat, hi: nat, r: nat)
    requires w.vmaStart <= lo && r < Step(level) && WellFormed(e, level) && EntryMapped(w, log, e, e', level, b, lo, hi)
    requires if level > 0 then b % ENTRIES == 0 && Step(level) % ENTRIES == 0
             else !Bare(e, level, r) && base % ENTRIES == 0 && base <= b < base + ENTRIES && SmallOnly(w, base, lo, hi)
    ensures Effect(w, log, b + r, lo, hi, Bare(e, level, r), Translate(e, level, r), Translate(e', level, r))
  {
    hide Effect, WellFormed, Translate, Bare;
    if level == 0 {
      HugeDownFacts(b, base);
      assert Step(0) == 1;
    }
    EffectWiden(w, log, level, b, b + r, lo, hi, Bare(e, level, r), Translate(e, level, r), Translate(e', level, r));
  }

  lemma PageMappedToo(w: Walk, log: seq<Call>, es: seq<Entry>, es': seq<Entry>, level: nat, base: nat, lo: nat, hi: nat, p: nat)
    requires w.vmaStart <= lo && |es| == |es'| == ENTRIES && base % ENTRIES == 0 && p < Step(level + 1)
    requires level == 0 ==> SmallOnly(w, base, lo, hi)
    requires WellFormed(Table(es), level + 1) && WellFormed(Table(es'), level + 1)
    requires forall i: nat :: i < ENTRIES ==> EntryMapped(w, log, es[i], es'[i], level, base + Step(level) * i, lo, hi)
    ensures Effect(w, log, base + p, lo, hi, Bare(Table(es), level + 1, p), Translate(Table(es), level + 1, p), Translate(Table(es'), level + 1, p))
  {
    hide Effect, Translate, EntryMapped, Bare;
    var i, r := PageOfEntry(level, p);
    TranslateEntry(es, level, i, r);
    TranslateEntry(es', level, i, r);
    if level > 0 {
      EntryAligned(level, base, i);
    }
    assert level == 0 ==> Step(level) * i == i;
    assert EntryMapped(w, log, es[i], es'[i], level, base + Step(level) * i, lo, hi);
    PageInTable(w, log, es[i], es'[i], level, base, base + Step(level) * i, lo, hi, r);
  }

  /** Walking each entry of a table for its part of the range walks the range. */
  lemma TableMapped(w: Walk, log: seq<Call>, es: seq<Entry>, es': seq<Entry>, level: nat, base: nat, lo: nat, hi: nat)
    requires w.vmaStart <= lo && |es| == |es'| == ENTRIES && base % ENTRIES == 0
    requires level == 0 ==> SmallOnly(w, base, lo, hi)
    requires forall i: nat :: i < ENTRIES ==> EntryMapped(w, log, es[i], es'[i], level, base + Step(level) * i, lo, hi)
    ensures Mapped(w, log, Table(es), Table(es'), level + 1, base, lo, hi)
  {
    hide Effect;
    var t, t', plevel := Table(es), Table(es'), level + 1;
    assert WellFormed(t, plevel) && WellFormed(t', plevel) by {
      forall i: nat | i < ENTRIES ensures WellFormed(es[i], level) && WellFormed(es'[i], level) {
        assert EntryMapped(w, log, es[i], es'[i], level, base + Step(level) * i, lo, hi);
      }
    }
    forall p: nat | p < Step(plevel) ensures Effect(w, log, base + p, lo, hi, Bare(t, plevel, p), Translate(t, plevel, p), Translate(t', plevel, p)) {
      PageMappedToo(w, log, es, es', level, base, lo, hi, p);
    }
  }

  // ------------------------------------------------------------- the walk

  /** The table that the walk descends to: a new one, one of small pages, or the one that is there. */
  function TableOf(parent: Entry): Entry {
    match parent
    case Empty => EmptyTable()
    case Leaf(phys) => SplitLarge(phys)
    case Table(_) => parent
  }

  lemma TableOfPage(parent: Entry, plevel: nat, p: nat)
    requires WellFormed(parent, plevel) && plevel > 0 && p < Step(plevel)
    ensures WellFormed(TableOf(parent), plevel)
    ensures Translate(TableOf(parent), plevel, p) == Translate(parent, plevel, p)
    ensures (parent == Empty && plevel == 1) || (Bare(TableOf(parent), plevel, p) <==> Bare(parent, plevel, p))
  {
    hide EmptyTable, SplitLarge;
    match parent
    case Empty => EmptyTableSame(plevel, p);
    case Leaf(phys) => SplitLargeSame(phys, p);
    case Table(_) =>
  }

  lemma TableOfSame(w: Walk, parent: Entry, plevel: nat, base: nat, lo: nat, hi: nat)
    requires WellFormed(parent, plevel) && plevel > 0 && w.vmaStart <= lo
    requires plevel == 1 && parent == Empty ==> base % ENTRIES == 0 && NoHuge(w, base, lo, hi)
    ensures WellFormed(TableOf(parent), plevel)
    ensures forall p: nat :: p < Step(plevel) ==> Translate(TableOf(parent), plevel, p) == Translate(parent, plevel, p)
    ensures forall p: nat :: p < Step(plevel) ==>
              (Bare(TableOf(parent), plevel, p) <==> Bare(parent, plevel, p)) || (w.op.Populate? ==> !HugeGiven(w, base + p, lo, hi))
  {
    hide TableOf, Translate, Bare, WellFormed, HugeGiven, NoHuge;
    TableOfPage(parent, plevel, 0);
    forall p: nat | p < Step(plevel)
      ensures Translate(TableOf(parent), plevel, p) == Translate(parent, plevel, p)
      ensures (Bare(TableOf(parent), plevel, p) <==> Bare(parent, plevel, p)) || (w.op.Populate? ==> !HugeGiven(w, base + p, lo, hi))
    {
      TableOfPage(parent, plevel, p);
      if plevel == 1 && parent == Empty && w.op.Populate? {
        assert Step(1) == ENTRIES;
        NoHugeGiven(w, base, lo, hi, p);
      }
    }
  }

  ghost predicate WalkOk(w: Walk, vcur: nat, vend: nat) {
    OpOk(w.op) && 1 <= w.sizes <= 2 && w.vmaStart <= vcur <= vend
  }

  /** map_level for the table behind an entry of level plevel, whose region starts at base. */
  method MapLevel(w: Walk, parent: Entry, plevel: nat, base: nat, ghost k: nat, vcur: nat, vend: nat)
    returns (e: Entry, log: seq<Call>)
    requires WalkOk(w, vcur, vend) && 1 <= plevel <= 4 && WellFormed(parent, plevel)
    requires base == Step(plevel) * k && base <= vcur && vend < base + Step(plevel)
    requires plevel == 1 ==> SmallOnly(w, base, vcur, vend) && (parent == Empty ==> NoHuge(w, base, vcur, vend))
    ensures Mapped(w, log, parent, e, plevel, base, vcur, vend)
    ensures Allocates(w.op) ==> Tiles(w, log, vcur, vend + 1)
    decreases plevel, 0
  {
    hide Mapped, WellFormed, EntryMapped, Tiles;
    if parent == Empty && !Allocates(w.op) {
      AloneMapped(w, [], plevel, base, vcur, vend);
      return parent, [];
    }
    var level := plevel - 1;
    RegionAligned(plevel, k);
    TableOfSame(w, parent, plevel, base, vcur, vend);
    TableEntries(TableOf(parent), plevel);
    var es := TableOf(parent).entries;
    var idx, eidx := PtIndex(vcur, level), PtIndex(vend, level);
    PtIndexOf(vcur, level, k);
    PtIndexOf(vend, level, k);
    IndexOrder(Step(level), base, vcur, vend, idx, eidx);
    var es', calls := MapEntries(w, es, level, base, k, vcur, vend, idx, eidx);
    e, log := Table(es'), calls;
    TableMapped(w, log, es, es', level, base, vcur, vend);
    MappedFrom(w, log, parent, TableOf(parent), e, plevel, base, vcur, vend);
  }

  /** The loop over the entries idx .. eidx of a table whose region starts at base. */
  method MapEntries(w: Walk, es: seq<Entry>, level: nat, base: nat, ghost k: nat, vcur: nat, vend: nat,
                    idx: nat, eidx: nat)
    returns (es': seq<Entry>, log: seq<Call>)
    requires WalkOk(w, vcur, vend) && level <= 3 && |es| == ENTRIES && idx <= eidx < ENTRIES
    requires forall i :: 0 <= i < ENTRIES ==> WellFormed(es[i], level)
    requires base == Step(level + 1) * k
    requires base + Step(level) * idx <= vcur < base + Step(level) * idx + Step(level)
    requires base + Step(level) * eidx <= vend < base + Step(level) * eidx + Step(level)
    ensures |es'| == ENTRIES
    ensures forall j: nat :: j < ENTRIES ==> EntryMapped(w, log, es[j], es'[j], level, base + Step(level) * j, vcur, vend)
    ensures Allocates(w.op) ==> Tiles(w, log, vcur, vend + 1)
    decreases level, 2
  {
    hide Mapped, WellFormed, EntryMapped, Tiles, Step, Max, Min, OpOk, Walked, WalkedTo;
    var step := Step(level);
    var i := idx;
    es', log := es, [];
    WalkedNone(w, es, level, base, vcur, vend, idx, eidx);
    while i <= eidx
      invariant idx <= i <= eidx + 1 && |es'| == ENTRIES
      invariant Walked(w, log, es, es', level, base, vcur, vend, idx, i)
      invariant Allocates(w.op) ==> Tiles(w, log, vcur, WalkedTo(step, base, idx, i, vcur, vend))
    {
      EntryBounds(step, base, vcur, vend, idx, eidx, i);
      EntryBase(level, k, i);
      var n, calls := MapEntry(w, es[i], level, base + step * i, ENTRIES * k + i, vcur, vend);
      if Allocates(w.op) {
        TilesConcat(w, log, calls, vcur, WalkedTo(step, base, idx, i, vcur, vend), WalkedTo(step, base, idx, i + 1, vcur, vend));
      }
      WalkedMore(w, log, calls, es, es', n, level, base, vcur, vend, idx, i);
      es', log := es'[i := n], log + calls;
      i := i + 1;
    }
    EntryBounds(step, base, vcur, vend, idx, eidx, eidx);
    WalkedAll(w, log, es, es', level, base, vcur, vend, idx, eidx);
  }

  /** The entries idx .. i of a table have been walked, and no other. */
  ghost predicate Walked(w: Walk, log: seq<Call>, es: seq<Entry>, es': seq<Entry>, level: nat, base: nat,
                         vcur: nat, vend: nat, idx: nat, i: nat)
    requires |es| == |es'| == ENTRIES && w.vmaStart <= vcur
  {
    forall j: nat :: j < ENTRIES ==>
      if idx <= j < i then EntryMapped(w, log, es[j], es'[j], level, base + Step(level) * j, vcur, vend)
      else es'[j] == es[j]
  }

  lemma WalkedNone(w: Walk, es: seq<Entry>, level: nat, base: nat, vcur: nat, vend: nat, idx: nat, eidx: nat)
    requires |es| == ENTRIES && w.vmaStart <= vcur
    ensures Walked(w, [], es, es, level, base, vcur, vend, idx, idx)
    ensures Tiles(w, [], vcur, WalkedTo(Step(level), base, idx, idx, vcur, vend))
  {}

  lemma WalkedMore(w: Walk, log: seq<Call>, calls: seq<Call>, es: seq<Entry>, es': seq<Entry>, n: Entry,
                   level: nat, base: nat, vcur: nat, vend: nat, idx: nat, i: nat)
    requires |es| == |es'| == ENTRIES && w.vmaStart <= vcur && idx <= i < ENTRIES
    requires Walked(w, log, es, es', level, base, vcur, vend, idx, i)
    requires EntryMapped(w, calls, es[i], n, level, base + Step(level) * i, vcur, vend)
    ensures Walked(w, log + calls, es, es'[i := n], level, base, vcur, vend, idx, i + 1)
  {
    hide EntryMapped;
    var next := es'[i := n];
    forall j: nat | j < ENTRIES && idx <= j < i + 1
      ensures EntryMapped(w, log + calls, es[j], next[j], level, base + Step(level) * j, vcur, vend)
    {
      MoreEntryLog(w, if j < i then log else calls, log + calls, es[j], next[j], level, base + Step(level) * j, vcur, vend);
    }
  }

  lemma MoreEntryLog(w: Walk, log: seq<Call>, log': seq<Call>, e: Entry, e': Entry, level: nat, base: nat, lo: nat, hi: nat)
    requires w.vmaStart <= lo && EntryMapped(w, log, e, e', level, base, lo, hi) && forall c :: c in log ==> c in log'
    ensures EntryMapped(w, log', e, e', level, base, lo, hi)
  {
    hide Mapped, Step;
    MoreLog(w, log, log', e, e', level, base, Max(lo, base), Min(hi, base + Step(level) - 1));
  }

  lemma WalkedAll(w: Walk, log: seq<Call>, es: seq<Entry>, es': seq<Entry>, level: nat, base: nat,
                  vcur: nat, vend: nat, idx: nat, eidx: nat)
    requires |es| == |es'| == ENTRIES && w.vmaStart <= vcur && eidx < ENTRIES
    requires forall i :: 0 <= i < ENTRIES ==> WellFormed(es[i], level)
    requires Walked(w, log, es, es', level, base, vcur, vend, idx, eidx + 1)
    requires base + Step(level) * idx <= vcur && vend < base + Step(level) * eidx + Step(level)
    ensures forall j: nat :: j < ENTRIES ==> EntryMapped(w, log, es[j], es'[j], level, base + Step(level) * j, vcur, vend)
  {
    hide EntryMapped, WellFormed;
    forall j: nat | j < ENTRIES ensures EntryMapped(w, log, es[j], es'[j], level, base + Step(level) * j, vcur, vend) {
      if !(idx <= j <= eidx) {
        EntryOutside(w, log, es[j], level, base, vcur, vend, idx, eidx, j);
      }
    }
  }

  lemma TableEntries(t: Entry, plevel: nat)
    requires WellFormed(t, plevel) && t.Table?
    ensures plevel > 0 && |t.entries| == ENTRIES && forall i :: 0 <= i < ENTRIES ==> WellFormed(t.entries[i], plevel - 1)
  {}

  /** The first page not walked after the entries idx .. i. */
  function WalkedTo(step: nat, base: nat, idx: nat, i: nat, vcur: nat, vend: nat): nat {
    if i <= idx then vcur else if base + step * i <= vend then base + step * i else vend + 1
  }

  lemma IndexOrder(step: nat, base: nat, vcur: nat, vend: nat, idx: nat, eidx: nat)
    requires vcur <= vend && base + step * idx <= vcur && vend < base + step * eidx + step
    ensures idx <= eidx
  {
    assert step * (eidx + 1) == step * eidx + step;
    if eidx < idx {
      MulMonotone(step, eidx + 1, idx);
    }
  }

  /** Entry i of idx .. eidx meets the range and takes the walk from one boundary to the next. */
  lemma EntryBounds(step: nat, base: nat, vcur: nat, vend: nat, idx: nat, eidx: nat, i: nat)
    requires step > 0 && vcur <= vend && idx <= i <= eidx
    requires base + step * idx <= vcur < base + step * idx + step
    requires base + step * eidx <= vend < base + step * eidx + step
    ensures base + step * i <= vend && vcur < base + step * i + step
    ensures WalkedTo(step, base, idx, i, vcur, vend) == Max(vcur, base + step * i)
    ensures WalkedTo(step, base, idx, i + 1, vcur, vend) == Min(vend, base + step * i + step - 1) + 1
    ensures i == eidx ==> WalkedTo(step, base, idx, i + 1, vcur, vend) == vend + 1
  {
    MulMonotone(step, i, eidx);
    MulMonotone(step, idx, i);
    assert step * (i + 1) == step * i + step;
    if idx < i {
      MulMonotone(step, idx + 1, i);
      assert step * (idx + 1) == step * idx + step;
    }
  }

  lemma EntryBase(level: nat, k: nat, i: nat)
    ensures Step(level + 1) * k + Step(level) * i == Step(level) * (ENTRIES * k + i)
  {
    assert Step(level + 1) * k == Step(level) * (ENTRIES * k);
  }

  lemma Apart(step: nat, base: nat, vcur: nat, vend: nat, idx: nat, eidx: nat, j: nat)
    requires j < idx || eidx < j
    requires base + step * idx <= vcur && vend < base + step * eidx + step
    ensures base + step * j + step <= vcur || vend < base + step * j
  {
    assert step * (j + 1) == step * j + step && step * (eidx + 1) == step * eidx + step;
    if j < idx {
      MulMonotone(step, j + 1, idx);
    } else {
      MulMonotone(step, eidx + 1, j);
    }
  }

  lemma EntryOutside(w: Walk, log: seq<Call>, e: Entry, level: nat, base: nat, vcur: nat, vend: nat, idx: nat, eidx: nat, j: nat)
    requires WellFormed(e, level) && w.vmaStart <= vcur && (j < idx || eidx < j)
    requires base + Step(level) * idx <= vcur && vend < base + Step(level) * eidx + Step(level)
    ensures EntryMapped(w, log, e, e, level, base + Step(level) * j, vcur, vend)
  {
    hide Mapped, Step;
    Apart(Step(level), base, vcur, vend, idx, eidx, j);
    var b := base + Step(level) * j;
    OutsideMapped(w, log, e, level, b, Max(vcur, b), Min(vend, b + Step(level) - 1));
  }

  /** One turn of its loop: entry e of the given level, whose region starts at base. */
  method MapEntry(w: Walk, e: Entry, level: nat, base: nat, ghost k: nat, vcur: nat, vend: nat)
    returns (e': Entry, log: seq<Call>)
    requires WalkOk(w, vcur, vend) && level <= 3 && WellFormed(e, level)
    requires base == Step(level) * k && base <= vend && vcur < base + Step(level)
    ensures EntryMapped(w, log, e, e', level, base, vcur, vend)
    ensures Allocates(w.op) ==> Tiles(w, log, Max(vcur, base), Min(vend, base + Step(level) - 1) + 1)
    decreases level, 1
  {
    hide Mapped, WellFormed, Page;
    var step := Step(level);
    var vstart1, vend1 := Max(vcur, base), Min(vend, base + step - 1);
    if level < w.sizes && vstart1 == base && vend1 == base + step - 1 {
      var offset := base - w.vmaStart;
      if SkipsEmpty(w.op) && e == Empty {
        AloneMapped(w, [], level, base, vstart1, vend1);
        return e, [];
      }
      if level > 0 {
        RegionAligned(level, k);
        var n := if Descends(w.op) && e.Table? then None else Page(w.op, level, offset, e);
        if n.None? {
          PageFails(w, level, offset, e);
          e', log := MapLevel(w, e, level, base, k, vstart1, vend1);
          if w.op.Unpopulate? {
            UnmappedGone(w, log, e, e', level, base);
            e' := Empty;
          }
        } else {
          e', log := n.value, [Call(level, base, offset)];
          PageMapped(w, log, e, level, base, n.value);
        }
      } else {
        SmallEntry(w, e, offset);
        var n := Page(w.op, level, offset, e);
        log := [Call(level, base, offset)];
        if n.Some? {
          PageMapped(w, log, e, level, base, n.value);
          e' := n.value;
        } else {
          AloneMapped(w, log, level, base, vstart1, vend1);
          e' := e;
        }
      }
    } else {
      e', log := MapLevel(w, e, level, base, k, vstart1, vend1);
    }
  }

  /** A small page is never a table, and page() on it fails only for lack of memory. */
  lemma SmallEntry(w: Walk, e: Entry, offset: nat)
    requires WellFormed(e, 0)
    ensures !e.Table? && (Page(w.op, 0, offset, e) == None ==> e == Empty && w.op.Populate? && w.op.small(offset) == None)
  {}

  lemma PageFails(w: Walk, level: nat, offset: nat, e: Entry)
    requires (Descends(w.op) && e.Table?) || Page(w.op, level, offset, e) == None
    ensures !w.op.Linear? && (level == 1 && w.op.Populate? && e == Empty ==> w.op.huge(offset) == None)
  {}

  /** Pages below the 47-bit limit, whose table addresses are not sign-extended. */
  const WALKED_PAGES: nat := 0x8_0000_0000

  lemma RootSize()
    ensures Step(4) == 2 * WALKED_PAGES
  {
    assert Step(1) == 512 && Step(2) == 512 * 512 && Step(3) == 512 * 512 * 512;
  }

  /** Walk n pages from vstart on, from the root of the tables. */
  method MapRange(w: Walk, root: Entry, vstart: nat, n: nat) returns (root': Entry, log: seq<Call>)
    requires WellFormed(root, 4) && OpOk(w.op) && 1 <= w.sizes <= 2
    requires w.vmaStart <= vstart && 0 < n && vstart + n <= WALKED_PAGES
    ensures WellFormed(root', 4)
    ensures forall page: nat :: page < Step(4) ==>
              Effect(w, log, page, vstart, vstart + n - 1, Bare(root, 4, page), Translate(root, 4, page), Translate(root', 4, page))
    ensures Allocates(w.op) ==> Tiles(w, log, vstart, vstart + n)
    ensures w.op.Populate? && (forall o: nat :: w.op.small(o).Some?) ==>
              forall page: nat :: vstart <= page < vstart + n && page < Step(4) ==> Translate(root', 4, page).Some?
  {
    hide Effect, Translate, Tiles, Step;
    RootSize();
    root', log := MapLevel(w, root, 4, 0, 0, vstart, vstart + n - 1);
    forall page: nat | page < Step(4)
      ensures Effect(w, log, page, vstart, vstart + n - 1, Bare(root, 4, page), Translate(root, 4, page), Translate(root', 4, page))
      ensures w.op.Populate? && (forall o: nat :: w.op.small(o).Some?) && vstart <= page < vstart + n ==> Translate(root', 4, page).Some?
    {
      assert Effect(w, log, 0 + page, vstart, vstart + n - 1, Bare(root, 4, page), Translate(root, 4, page), Translate(root', 4, page));
      if w.op.Populate? && vstart <= page < vstart + n {
        AllPopulated(w, log, vstart, vstart + n - 1, page, Bare(root, 4, page), Translate(root, 4, page), Translate(root', 4, page));
      }
    }
  }

  // ---------------------------------------------------------- consequences

  /** Calls that cover a range call page() for each of its pages once, and for no other. */
  lemma {:induction false} EachPageOnce(w: Walk, log: seq<Call>, first: nat, next: nat, page: nat)
    requires Tiles(w, log, first, next)
    ensures first <= next
    ensures first <= page < next <==> exists i :: 0 <= i < |log| && Covers(log[i], page)
    ensures forall i, j :: 0 <= i < j < |log| && Covers(log[i], page) ==> !Covers(log[j], page)
    ensures forall i :: 0 <= i < |log| ==> log[i].base >= w.vmaStart && log[i].offset == log[i].base - w.vmaStart
  {
    if log != [] {
      EachPageOnce(w, log[1..], first + Step(log[0].level), next, page);
      if i :| 0 <= i < |log[1..]| && Covers(log[1..][i], page) {
        assert Covers(log[i + 1], page);
      }
      forall j | 0 < j < |log| && Covers(log[j], page) ensures first + Step(log[0].level) <= page < next {
        assert Covers(log[1..][j - 1], page);
      }
    }
  }

  /** Each page that was not mapped has what the one call that covers it got. */
  lemma PopulatedByItsCall(w: Walk, log: seq<Call>, lo: nat, hi: nat, i: nat, page: nat, bare: bool, was: Option<nat>, now: Option<nat>)
    requires w.op.Populate? && w.vmaStart <= lo <= page <= hi && Tiles(w, log, lo, hi + 1)
    requires Effect(w, log, page, lo, hi, bare, was, now) && was == None
    requires i < |log| && Covers(log[i], page)
    ensures now == PopulateTarget(w, log[i], page)
  {
    EachPageOnce(w, log, lo, hi + 1, page);
    var c :| c in log && Covers(c, page) && now == PopulateTarget(w, c, page);
    var j :| 0 <= j < |log| && log[j] == c;
    assert i == j;
  }

  /** Unless memory runs out, every page of a populated range is mapped. */
  lemma AllPopulated(w: Walk, log: seq<Call>, lo: nat, hi: nat, page: nat, bare: bool, was: Option<nat>, now: Option<nat>)
    requires w.op.Populate? && w.vmaStart <= lo <= page <= hi && Effect(w, log, page, lo, hi, bare, was, now)
    ensures now == None <==> was == None && w.op.small(page - w.vmaStart) == None && !(bare && HugeGiven(w, page, lo, hi))
  {}

  /** Some block of a huge page lies in lo .. hi. */
  ghost predicate HasHugeBlock(lo: nat, hi: nat) {
    exists page: nat :: lo <= page <= hi && HugeInside(page, lo, hi)
  }

  lemma BlockExact(start: nat, vmaStart: nat, page: nat)
    requires vmaStart <= HugeDown(page)
    ensures HugeDown(start + HugeDown(page) - vmaStart) + page % ENTRIES == start + page - vmaStart <==>
            (start - vmaStart) % ENTRIES == 0
  {
    var x := start + HugeDown(page) - vmaStart;
    assert HugeDown(x) == x <==> x % ENTRIES == 0;
    assert x % ENTRIES == (start - vmaStart) % ENTRIES;
  }

  lemma TargetExact(w: Walk, page: nat, lo: nat, hi: nat)
    requires w.op.Linear? && w.vmaStart <= lo <= page <= hi
    ensures LinearTarget(w, page, lo, hi) == w.op.start + page - w.vmaStart <==>
            w.sizes <= 1 || (w.op.start - w.vmaStart) % ENTRIES == 0 || !HugeInside(page, lo, hi)
  {
    hide HugeDown;
    if w.sizes > 1 && HugeInside(page, lo, hi) {
      BlockExact(w.op.start, w.vmaStart, page);
    }
  }

  /** A linear range is mapped page by page to the right places exactly if no huge page is misplaced. */
  lemma LinearExactIff(w: Walk, lo: nat, hi: nat)
    requires w.op.Linear? && w.vmaStart <= lo
    ensures (forall page: nat :: lo <= page <= hi ==> LinearTarget(w, page, lo, hi) == w.op.start + page - w.vmaStart) <==>
            w.sizes <= 1 || (w.op.start - w.vmaStart) % ENTRIES == 0 || !HasHugeBlock(lo, hi)
  {
    hide LinearTarget, HugeInside;
    forall page: nat | lo <= page <= hi
      ensures LinearTarget(w, page, lo, hi) == w.op.start + page - w.vmaStart <==>
              w.sizes <= 1 || (w.op.start - w.vmaStart) % ENTRIES == 0 || !HugeInside(page, lo, hi)
    {
      TargetExact(w, page, lo, hi);
    }
  }

  /** One page off: the first of the 512 pages of a huge page goes to 0 instead of 1. */
  method LinearMisplaced() returns (root: Entry)
    ensures WellFormed(root, 4) && Translate(root, 4, 0) == Some(0)
  {
    hide Translate, Step;
    RootSize();
    var w := Walk(0, Linear(1), 2);
    var log;
    root, log := MapRange(w, Empty, 0, ENTRIES);
    assert LinearTarget(w, 0, 0, ENTRIES - 1) == 0;
    assert Effect(w, log, 0, 0, ENTRIES - 1, Bare(Empty, 4, 0), Translate(Empty, 4, 0), Translate(root, 4, 0));
  }
}
