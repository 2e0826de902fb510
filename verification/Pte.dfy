/**
  Page-table entries of AArch64, arch/aarch64/arch-mmu.hh, as 64-bit words,
  and the split of a 2 MB entry into 4 KB entries by core/mmu.cc.
 */
module Pte {

  const PTE_PER_PAGE: nat := 512

  /** The address bits of an entry: 12 to 47, of a large one 21 to 47. */
  const ADDR_BITS: bv64 := 0x0000_ffff_ffff_f000
  const LARGE_ADDR_BITS: bv64 := 0x0000_ffff_ffe0_0000

  const PERM_WRITE: bv64 := 2
  const PERM_EXEC: bv64 := 4

  const VALID: bv64 := 0x1
  const NOT_LARGE: bv64 := 0x2
  const USER: bv64 := 0x40
  const READ_ONLY: bv64 := 0x80
  const SHARED: bv64 := 0x300
  const ACCESSED: bv64 := 0x400
  const ATTR_INDEX: bv64 := 0x1c
  const EXECUTE_NEVER: bv64 := 0x20_0000_0000_0000
  const DIRTY: bv64 := 0x80_0000_0000_0000

  function SetBit(x: bv64, bit: bv64, v: bool): bv64 {
    if v then x | bit else x & !bit
  }

  // --------------------------------------------------------------- getters

  predicate Valid(x: bv64) { x & VALID != 0 }
  predicate Writable(x: bv64) { x & READ_ONLY == 0 }
  predicate Executable(x: bv64) { x & EXECUTE_NEVER == 0 }
  predicate Dirty(x: bv64) { x & DIRTY != 0 }

  /** Only entries of level one can be large. */
  predicate Large(x: bv64, level: nat) { level == 1 && x & 3 == 1 }

  function Addr(x: bv64, level: nat): bv64 {
    if Large(x, level) then x & LARGE_ADDR_BITS else x & ADDR_BITS
  }

  // --------------------------------------------------------------- setters

  function SetLarge(x: bv64, v: bool): bv64 { SetBit(x, NOT_LARGE, !v) }

  function SetAddr(x: bv64, addr: bv64, large: bool): bv64 {
    var mask: bv64 := if large then 0xffff_0000_001f_ffff else 0xffff_0000_0000_0fff;
    (x & mask) | (addr & !mask) | (if large then 1 else 3)
  }

  function SetShare(x: bv64, v: bool): bv64 {
    if v then (x & !SHARED) | SHARED else x & !SHARED
  }

  function SetAttrIdx(x: bv64, c: bv64): bv64
    requires c <= 7
  {
    (x & !ATTR_INDEX) | (c << 2)
  }

  /** make_pte(): an entry for a page, a large page or a table, one setter after the other. */
  function MakePte(addr: bv64, large: bool, perm: bv64, device: bool): bv64 {
    var x := SetBit(0, VALID, perm != 0);
    var x := SetBit(x, READ_ONLY, perm & PERM_WRITE == 0);
    var x := SetBit(x, EXECUTE_NEVER, perm & PERM_EXEC == 0);
    var x := SetBit(x, DIRTY, true);
    var x := SetLarge(x, large);
    var x := SetAddr(x, addr, large);
    var x := SetBit(x, USER, false);
    var x := SetBit(x, ACCESSED, true);
    var x := SetShare(x, true);
    SetAttrIdx(x, if device then 0 else 4)
  }

  /** No setter undoes another, except that setting the address makes every entry valid. */
  lemma MakePtePermissions(addr: bv64, large: bool, perm: bv64, device: bool)
    ensures var x := MakePte(addr, large, perm, device);
            && Valid(x) && (Writable(x) <==> perm & PERM_WRITE != 0) && (Executable(x) <==> perm & PERM_EXEC != 0)
            && Dirty(x) && x & USER == 0 && x & ACCESSED != 0
            && x & SHARED == SHARED && x & ATTR_INDEX == if device then 0 else 0x10
  {
  }

  /** All other bits of the entry are zero. */
  lemma MakePteNothingElse(addr: bv64, large: bool, perm: bv64, device: bool)
    ensures MakePte(addr, large, perm, device)
            & !(ADDR_BITS | VALID | NOT_LARGE | USER | READ_ONLY | SHARED | ACCESSED | ATTR_INDEX | EXECUTE_NEVER | DIRTY) == 0
  {}

  lemma MakePteType(addr: bv64, large: bool, perm: bv64, device: bool)
    ensures MakePte(addr, large, perm, device) & 3 == if large then 1 else 3
  {}

  lemma MakePteBits(addr: bv64, large: bool, perm: bv64, device: bool)
    ensures large ==> MakePte(addr, large, perm, device) & LARGE_ADDR_BITS == addr & LARGE_ADDR_BITS
    ensures !large ==> MakePte(addr, large, perm, device) & ADDR_BITS == addr & ADDR_BITS
  {}

  /** An entry is large as asked for, and its address comes back. */
  lemma MakePteAddress(addr: bv64, large: bool, perm: bv64, device: bool, level: nat)
    requires large ==> level == 1
    ensures var x := MakePte(addr, large, perm, device);
            && (Large(x, level) <==> large)
            && Addr(x, level) == addr & (if large then LARGE_ADDR_BITS else ADDR_BITS)
  {
    hide MakePte;
    MakePteType(addr, large, perm, device);
    MakePteBits(addr, large, perm, device);
  }

  // ------------------------------------------------------ lookup and split

  /** The offset of an address within what an entry maps, pte_level_mask(). */
  function OffsetIn(v: bv64, level: nat): bv64
    requires level <= 1
  {
    if level == 0 then v & 0xfff else v & 0x1f_ffff
  }

  /** virt_to_phys_map: the physical address behind v, given its leaf entry. */
  function PhysOf(x: bv64, level: nat, v: bv64): bv64
    requires level <= 1
  {
    Addr(x, level) | OffsetIn(v, level)
  }

  /** The index of v in a table of 4 KB entries. */
  function Index(v: bv64): bv64 { (v >> 12) & 0x1ff }

  function WithIndex(base: bv64, i: bv64): bv64 { base | (i << 12) }

  /** Entry i of the table that takes the place of a large entry. */
  function SplitEntry(org: bv64, i: bv64): bv64 {
    var tmp := SetLarge(org, false);
    SetAddr(tmp, WithIndex(Addr(tmp, 1), i), false)
  }

  /** A large leaf as set_addr() leaves it: aligned to 2 MB. */
  predicate LargeLeaf(x: bv64) {
    Large(x, 1) && x & 0x1f_f000 == 0
  }

  /** A large leaf from its address and its flags. */
  function LargeWord(a: bv64, flags: bv64): bv64 {
    LargeBase(a) | (flags & 0xffff_0000_0000_0ffc) | 1
  }

  function LargeBase(a: bv64): bv64 { a & LARGE_ADDR_BITS }

  function SmallBase(a: bv64, v: bv64): bv64 { WithIndex(LargeBase(a), Index(v)) }

  lemma LargeLeafWord(x: bv64)
    requires LargeLeaf(x)
    ensures x == LargeWord(x, x)
  {}

  /** The word while it is being turned into a small one. */
  function Temp(a: bv64, flags: bv64): bv64 { SetLarge(LargeWord(a, flags), false) }

  lemma WordTypes(a: bv64, flags: bv64)
    ensures LargeWord(a, flags) & 3 == 1 && Temp(a, flags) & 3 == 3
  {}

  lemma WordBases(a: bv64, flags: bv64)
    ensures LargeWord(a, flags) & LARGE_ADDR_BITS == LargeBase(a)
    ensures Temp(a, flags) & ADDR_BITS == LargeBase(a)
  {}

  lemma WordAddr(a: bv64, flags: bv64)
    ensures Addr(LargeWord(a, flags), 1) == LargeBase(a) && Addr(Temp(a, flags), 1) == LargeBase(a)
  {
    hide LargeWord, Temp, LargeBase;
    WordTypes(a, flags);
    WordBases(a, flags);
  }

  lemma SetSmallAddr(x: bv64, a: bv64, v: bv64)
    ensures SetAddr(x, SmallBase(a, v), false) & ADDR_BITS == SmallBase(a, v)
  {}

  lemma SplitIsSet(a: bv64, flags: bv64, v: bv64)
    ensures SplitEntry(LargeWord(a, flags), Index(v)) == SetAddr(Temp(a, flags), SmallBase(a, v), false)
  {
    hide Addr, LargeWord, LargeBase, SetAddr, Index, SetLarge, WithIndex;
    WordAddr(a, flags);
  }

  lemma SmallAddr(x: bv64)
    ensures Addr(x, 0) == x & ADDR_BITS
  {}

  lemma SplitAddr(a: bv64, flags: bv64, v: bv64)
    ensures Addr(SplitEntry(LargeWord(a, flags), Index(v)), 0) == SmallBase(a, v)
  {
    hide Addr, SplitEntry, LargeWord, SetAddr, Index, SmallBase, Temp;
    SplitIsSet(a, flags, v);
    SmallAddr(SplitEntry(LargeWord(a, flags), Index(v)));
    SetSmallAddr(Temp(a, flags), a, v);
  }

  lemma IndexBits(a: bv64, v: bv64)
    ensures SmallBase(a, v) | OffsetIn(v, 0) == LargeBase(a) | OffsetIn(v, 1)
  {}

  /** The split changes no translation: each small entry maps what the large one mapped there. */
  lemma SplitKeepsPhys(org: bv64, v: bv64)
    requires LargeLeaf(org)
    ensures PhysOf(SplitEntry(org, Index(v)), 0, v) == PhysOf(org, 1, v)
  {
    hide Addr, SplitEntry, LargeWord, LargeBase, SmallBase, OffsetIn, Index, LargeLeaf;
    LargeLeafWord(org);
    WordAddr(org, org);
    SplitAddr(org, org, v);
    IndexBits(org, v);
  }

  lemma SplitFlags(a: bv64, flags: bv64, i: bv64)
    ensures var org := LargeWord(a, flags); SplitEntry(org, i) & !ADDR_BITS == (org & !ADDR_BITS) | NOT_LARGE
  {}

  lemma SplitGetters(a: bv64, flags: bv64, i: bv64)
    ensures var org := LargeWord(a, flags); var x := SplitEntry(org, i);
            && (Valid(x) <==> Valid(org)) && (Writable(x) <==> Writable(org))
            && (Executable(x) <==> Executable(org)) && (Dirty(x) <==> Dirty(org))
  {}

  /** Nor does it change any other bit, except that a small entry has another type. */
  lemma SplitKeepsAttributes(org: bv64, i: bv64)
    requires LargeLeaf(org)
    ensures SplitEntry(org, i) & !ADDR_BITS == (org & !ADDR_BITS) | NOT_LARGE
    ensures var x := SplitEntry(org, i);
            && (Valid(x) <==> Valid(org)) && (Writable(x) <==> Writable(org))
            && (Executable(x) <==> Executable(org)) && (Dirty(x) <==> Dirty(org))
  {
    hide SplitEntry, LargeWord, LargeLeaf, Valid, Writable, Executable, Dirty;
    LargeLeafWord(org);
    SplitFlags(org, org, i);
    SplitGetters(org, org, i);
  }

  /** A large leaf made by make_pte() can be split: its address is aligned. */
  lemma MadeLargeLeaf(addr: bv64, perm: bv64, device: bool)
    ensures LargeLeaf(MakePte(addr, true, perm, device))
  {}

  /** allocate_intermediate_level(): the table of small entries. */
  method SplitLargePage(org: bv64) returns (pt: array<bv64>)
    requires LargeLeaf(org)
    ensures fresh(pt) && pt.Length == PTE_PER_PAGE
    ensures forall i: nat :: i < PTE_PER_PAGE ==> pt[i] == SplitEntry(org, i as bv64)
  {
    hide SplitEntry;
    pt := new bv64[PTE_PER_PAGE];
    var i := 0;
    while i < PTE_PER_PAGE
      invariant i <= PTE_PER_PAGE
      invariant forall j: nat :: j < i ==> pt[j] == SplitEntry(org, j as bv64)
    {
      pt[i] := SplitEntry(org, i as bv64);
      i := i + 1;
    }
  }
}
