/**
  Page tables of four levels as trees, and what they say about each page.
  Addresses are counted in pages of 4096 bytes.
 */
module PageTable {
  import opened Division

  const ENTRIES: nat := 512

  datatype Option<T> = None | Some(value: T)

  /** An entry of some level; a leaf at level one is a huge page. */
  datatype Entry = Empty | Leaf(phys: nat) | Table(entries: seq<Entry>)

  /** The pages that an entry of this level stands for. */
  function Step(level: nat): (s: nat)
    ensures s > 0
  {
    if level == 0 then 1 else ENTRIES * Step(level - 1)
  }

  ghost predicate WellFormed(e: Entry, level: nat) {
    match e
    case Empty => true
    case Leaf(phys) => level == 0 || (level == 1 && phys % ENTRIES == 0)
    case Table(es) => level > 0 && |es| == ENTRIES && forall i :: 0 <= i < ENTRIES ==> WellFormed(es[i], level - 1)
  }

  /** The physical page behind page p of the region of an entry. */
  ghost function Translate(e: Entry, level: nat, p: nat): Option<nat>
    requires WellFormed(e, level) && p < Step(level)
  {
    match e
    case Empty => None
    case Leaf(phys) => Some(phys + p)
    case Table(es) =>
      DivLess(p, level);
      Translate(es[p / Step(level - 1)], level - 1, p % Step(level - 1))
  }

  /** No table of small pages has been made for the huge block around page p. */
  ghost predicate Bare(e: Entry, level: nat, p: nat)
    requires WellFormed(e, level) && p < Step(level)
  {
    match e
    case Empty => level > 0
    case Leaf(_) => false
    case Table(es) =>
      DivLess(p, level);
      level > 1 && Bare(es[p / Step(level - 1)], level - 1, p % Step(level - 1))
  }

  lemma DivLess(p: nat, level: nat)
    requires level > 0 && p < Step(level)
    ensures 0 <= p / Step(level - 1) < ENTRIES
  {
    var s := Step(level - 1);
    var q := p / s;
    assert p == s * q + p % s;
    if q >= ENTRIES {
      MulMonotone(s, ENTRIES, q);
    }
  }

  /** Entry i of a table translates the pages of its own region. */
  lemma TranslateEntry(es: seq<Entry>, level: nat, i: nat, r: nat)
    requires WellFormed(Table(es), level + 1) && i < ENTRIES && r < Step(level)
    ensures Step(level) * i + r < Step(level + 1)
    ensures Translate(Table(es), level + 1, Step(level) * i + r) == Translate(es[i], level, r)
    ensures Bare(Table(es), level + 1, Step(level) * i + r) <==> Bare(es[i], level, r)
    ensures level == 0 ==> !Bare(es[i], level, r)
  {
    MulMonotone(Step(level), i + 1, ENTRIES);
    assert Step(level) * (i + 1) == Step(level) * i + Step(level);
    DivMod(Step(level), i, r);
  }

  /** Every page of a table belongs to one entry. */
  lemma PageOfEntry(level: nat, p: nat) returns (i: nat, r: nat)
    requires p < Step(level + 1)
    ensures i < ENTRIES && r < Step(level) && p == Step(level) * i + r
  {
    DivLess(p, level + 1);
    i, r := p / Step(level), p % Step(level);
  }

  // --------------------------------------------------- changes of structure

  /** A new table of empty entries. */
  function EmptyTable(): Entry {
    Table(seq(ENTRIES, _ => Empty))
  }

  /** split_large_page(): small pages in place of a huge one. */
  function SplitLarge(phys: nat): Entry {
    Table(seq(ENTRIES, i requires 0 <= i < ENTRIES => Leaf(phys + i)))
  }

  lemma EmptyTableSame(level: nat, p: nat)
    requires level > 0 && p < Step(level)
    ensures WellFormed(EmptyTable(), level) && Translate(EmptyTable(), level, p) == None
    ensures Bare(EmptyTable(), level, p) <==> level > 1
  {
    var i, r := PageOfEntry(level - 1, p);
    TranslateEntry(EmptyTable().entries, level - 1, i, r);
  }

  lemma SplitLargeSame(phys: nat, p: nat)
    requires phys % ENTRIES == 0 && p < Step(1)
    ensures WellFormed(SplitLarge(phys), 1) && Translate(SplitLarge(phys), 1, p) == Translate(Leaf(phys), 1, p)
    ensures !Bare(SplitLarge(phys), 1, p)
  {
    var i, r := PageOfEntry(0, p);
    TranslateEntry(SplitLarge(phys).entries, 0, i, r);
  }

  /** pt_index(): the entry of a table that a page belongs to. */
  function PtIndex(v: nat, level: nat): nat {
    v / Step(level) % ENTRIES
  }

  lemma PtIndexOf(v: nat, level: nat, k: nat)
    requires Step(level + 1) * k <= v < Step(level + 1) * k + Step(level + 1)
    ensures var i := PtIndex(v, level);
            i < ENTRIES && Step(level + 1) * k + Step(level) * i <= v < Step(level + 1) * k + Step(level) * i + Step(level)
  {
    var s, r := Step(level), v - Step(level + 1) * k;
    var i, t := PageOfEntry(level, r);
    assert Step(level + 1) * k == s * (ENTRIES * k) by { assert Step(level + 1) == s * ENTRIES; }
    assert s * (ENTRIES * k) + s * i == s * (ENTRIES * k + i);
    DivMod(s, ENTRIES * k + i, t);
    DivMod(ENTRIES, k, i);
  }
}
