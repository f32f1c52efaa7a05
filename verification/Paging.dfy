/** Four-level page tables as a radix tree in physical memory, and the flat map from pages to
    entries they stand for (kern/arch/x86_64/mmu.c; section 4.5 of the Intel 64 and IA-32
    Software Developer's Manual, volume 3A). */
module Paging {

  type Word = bv64

  /** The physical address of a page, and an index into a table. */
  datatype Page = Page(addr: Word)
  datatype Index = Index(n: Word)

  // ----- Entries and indices -----

  const PTE_PRESENT: Word := 1
  const PTE_WRITE: Word := 2
  const PTE_USER: Word := 4

  /** PTE_ADDR of an entry or of a root. */
  function PageOf(e: Word): Page { Page(e & 0x000F_FFFF_FFFF_F000) }
  predicate Present(e: Word) { e & 1 != 0 }

  /** The index of `va` into a table of level 4 (PML4), 3, 2 or 1. */
  function Idx(va: Word, level: nat): Index
  {
    if level == 4 then Index((va >> 39) & 0x1FF)
    else if level == 3 then Index((va >> 30) & 0x1FF)
    else if level == 2 then Index((va >> 21) & 0x1FF)
    else Index((va >> 12) & 0x1FF)
  }

  /** An entry made of a page address and flags, as `page | flags`. */
  function MakeEntry(page: Page, flags: Word): Word { page.addr | flags }

  predicate PageAddress(p: Page) { PageOf(p.addr) == p }
  predicate GoodFlags(f: Word) { f & 0x000F_FFFF_FFFF_F000 == 0 && f & 1 == 1 }

  lemma EntryParts(page: Page, flags: Word)
    requires PageAddress(page) && GoodFlags(flags)
    ensures Present(MakeEntry(page, flags)) && PageOf(MakeEntry(page, flags)) == page
  {
  }

  /** The four indices of an address, which name its page. */
  datatype Key = Key(i4: Index, i3: Index, i2: Index, i1: Index)

  function KeyOf(va: Word): Key { Key(Idx(va, 4), Idx(va, 3), Idx(va, 2), Idx(va, 1)) }

  function PageNumber(va: Word): Word { va >> 12 }

  /** The bits of a page number above the top index, and one of the four nine-bit groups. */
  function Top(x: Word): Word { x >> 35 }
  function Group(x: Word, n: nat): Word
  {
    if n == 4 then (x >> 27) & 0x1FF
    else if n == 3 then (x >> 18) & 0x1FF
    else if n == 2 then (x >> 9) & 0x1FF
    else x & 0x1FF
  }

  /** Bits 47 to 63 agree. */
  predicate Canonical(va: Word) { Top(PageNumber(va)) == 0 || Top(PageNumber(va)) == 0x1FFFF }

  lemma IdxOfPage(va: Word)
    ensures var x := PageNumber(va);
            && Idx(va, 4) == Index(Group(x, 4)) && Idx(va, 3) == Index(Group(x, 3))
            && Idx(va, 2) == Index(Group(x, 2)) && Idx(va, 1) == Index(Group(x, 1))
  {
  }

  function Assemble(top: Word, i4: Word, i3: Word, i2: Word, i1: Word): Word
  {
    (top << 35) | (i4 << 27) | (i3 << 18) | (i2 << 9) | i1
  }

  lemma PageFromGroups(x: Word)
    ensures x == Assemble(Top(x), Group(x, 4), Group(x, 3), Group(x, 2), Group(x, 1))
  {
  }

  lemma SameHalf(x: Word, y: Word)
    requires (Top(x) == 0 || Top(x) == 0x1FFFF) && (Top(y) == 0 || Top(y) == 0x1FFFF) && Group(x, 4) == Group(y, 4)
    ensures Top(x) == Top(y)
  {
  }

  /** Canonical addresses have the same indices exactly when they lie in the same page. */
  lemma KeyNamesPage(va: Word, vb: Word)
    requires Canonical(va) && Canonical(vb)
    ensures KeyOf(va) == KeyOf(vb) <==> PageNumber(va) == PageNumber(vb)
  {
    hide Idx, Assemble, Group, Top, PageNumber;
    var x, y := PageNumber(va), PageNumber(vb);
    IdxOfPage(va);
    IdxOfPage(vb);
    if KeyOf(va) == KeyOf(vb) {
      SameHalf(x, y);
      PageFromGroups(x);
      PageFromGroups(y);
    }
  }

  // ----- Memory and walks -----

  /** The entries of a table that are not zero; physical memory that holds tables. */
  type Table = map<Index, Word>
  type Mem = map<Page, Table>

  function Entry(m: Mem, p: Page, i: Index): Word
  {
    if p in m && i in m[p] then m[p][i] else 0
  }

  function SetEntry(m: Mem, p: Page, i: Index, e: Word): Mem
  {
    m[p := (if p in m then m[p] else map[])[i := e]]
  }

  /** The last-level entry for `va`, zero if a table on the way is missing. */
  function Walk(m: Mem, p: Page, level: nat, va: Word): Word
    requires level >= 1
    decreases level
  {
    var e := Entry(m, p, Idx(va, level));
    if level == 1 then e else if !Present(e) then 0 else Walk(m, PageOf(e), level - 1, va)
  }

  /** resolve_vm_mapping. */
  function Resolve(m: Mem, root: Word, va: Word): Word
  {
    Translate(Walk(m, PageOf(root), 4, va), va)
  }

  /** Within a page, only the offset counts. */
  lemma InPageParts(page: Page, va: Word)
    requires PageAddress(page)
    ensures InPage(page, va) & 0xFFF == va & 0xFFF && PageOf(InPage(page, va)) == page
  {
  }

  /** A page address with the offset of `va`. */
  function InPage(page: Page, va: Word): Word { page.addr | (va & 0xFFF) }

  function Translate(e: Word, va: Word): Word
  {
    if Present(e) then InPage(PageOf(e), va) else 0
  }

  /** The walk for `va` from table `q` reads the entry `i` of table `p`. */
  ghost predicate Visits(m: Mem, q: Page, level: nat, va: Word, p: Page, i: Index)
    requires level >= 1
    decreases level
  {
    || (q == p && Idx(va, level) == i)
    || (level > 1 && Present(Entry(m, q, Idx(va, level))) && Visits(m, PageOf(Entry(m, q, Idx(va, level))), level - 1, va, p, i))
  }

  /** A write that a walk does not visit does not change it. */
  lemma {:induction false} WalkFrame(m: Mem, m': Mem, q: Page, level: nat, va: Word, p: Page, i: Index)
    requires level >= 1 && !Visits(m, q, level, va, p, i)
    requires forall r: Page, j: Index :: r != p || j != i ==> Entry(m', r, j) == Entry(m, r, j)
    ensures Walk(m', q, level, va) == Walk(m, q, level, va)
    decreases level
  {
    hide Present, PageOf, Idx;
    if level > 1 && Present(Entry(m, q, Idx(va, level))) {
      WalkFrame(m, m', PageOf(Entry(m, q, Idx(va, level))), level - 1, va, p, i);
    }
  }

  // ----- Trees -----

  /** The shape of a tree: the level of each of its tables and the entry that points at it. */
  datatype Shape = Shape(level: map<Page, nat>, up: map<Page, (Page, Index)>)

  /** With `userOnly`, the kernel half of the top table, which address spaces share, is not looked at. */
  predicate Covered(userOnly: bool, level: nat, i: Index)
  {
    !userOnly || level != 4 || i.n < 256
  }

  /** A present entry of a table above level 1 leads to a table one level down that hangs only there. */
  ghost predicate Hangs(m: Mem, t: Shape, p: Page, i: Index)
    requires p in t.level && t.level[p] > 1
  {
    var q := PageOf(Entry(m, p, i));
    q in t.level && t.level[q] == t.level[p] - 1 && q in t.up && t.up[q] == (p, i)
  }

  /** The tables form a tree without sharing and without large pages. */
  ghost predicate Tree(m: Mem, root: Page, t: Shape, userOnly: bool)
  {
    && root in t.level && t.level[root] == 4
    && (forall p :: p in t.level ==> 1 <= t.level[p] <= 4 && PageAddress(p) && (t.level[p] == 4 ==> p == root))
    && (forall p, i {:trigger Hangs(m, t, p, i)} ::
          p in t.level && t.level[p] > 1 && Covered(userOnly, t.level[p], i) && Present(Entry(m, p, i)) ==> Hangs(m, t, p, i))
  }

  /** A walk that visits an entry of the tree agrees on the indices above with every other such walk. */
  lemma {:induction false} VisitorsAgree(m: Mem, root: Page, t: Shape, u: bool, q: Page, level: nat, va: Word, p: Page, i: Index)
    requires Tree(m, root, t, u) && q in t.level && t.level[q] == level
    requires Covered(u, 4, Idx(va, 4)) && p in t.level && Visits(m, q, level, va, p, i)
    ensures t.level[p] <= level && Idx(va, t.level[p]) == i && (t.level[p] == level ==> p == q)
    ensures t.level[p] < level ==>
              && p in t.up && t.up[p].0 in t.level && t.level[t.up[p].0] == t.level[p] + 1
              && Visits(m, q, level, va, t.up[p].0, t.up[p].1)
    decreases level
  {
    hide Present, PageOf, Idx, PageAddress;
    if !(q == p && Idx(va, level) == i) {
      var j := Idx(va, level);
      assert Hangs(m, t, q, j);
      var c := PageOf(Entry(m, q, j));
      VisitorsAgree(m, root, t, u, c, level - 1, va, p, i);
      if t.level[p] == level - 1 {
        assert Visits(m, q, level, va, q, j);
      }
    }
  }

  /** Two walks that read the same entry of the tree have the same indices from there up. */
  lemma {:induction false} VisitorsShareIndices(m: Mem, root: Page, t: Shape, u: bool, va: Word, vb: Word, p: Page, i: Index, l: nat)
    requires Tree(m, root, t, u) && p in t.level && t.level[p] <= l <= 4
    requires Covered(u, 4, Idx(va, 4)) && Covered(u, 4, Idx(vb, 4))
    requires Visits(m, root, 4, va, p, i) && Visits(m, root, 4, vb, p, i)
    ensures Idx(va, l) == Idx(vb, l)
    decreases 4 - t.level[p]
  {
    hide Present, PageOf, Idx, PageAddress, Visits;
    VisitorsAgree(m, root, t, u, root, 4, va, p, i);
    VisitorsAgree(m, root, t, u, root, 4, vb, p, i);
    if t.level[p] < l {
      VisitorsShareIndices(m, root, t, u, va, vb, t.up[p].0, t.up[p].1, l);
    }
  }

  /** Walks with equal indices read the same entries. */
  lemma {:induction false} SameIndicesVisit(m: Mem, q: Page, level: nat, va: Word, vb: Word, p: Page, i: Index)
    requires 1 <= level <= 4 && KeyOf(va) == KeyOf(vb) && Visits(m, q, level, va, p, i)
    ensures Visits(m, q, level, vb, p, i)
    decreases level
  {
    hide Present, PageOf, Idx;
    assert Idx(va, level) == Idx(vb, level) by { SameIdx(va, vb, level); }
    if !(q == p && Idx(va, level) == i) {
      SameIndicesVisit(m, PageOf(Entry(m, q, Idx(va, level))), level - 1, va, vb, p, i);
    }
  }

  lemma SameIdx(va: Word, vb: Word, level: nat)
    requires 1 <= level <= 4 && KeyOf(va) == KeyOf(vb)
    ensures Idx(va, level) == Idx(vb, level)
  {
  }

  // ----- Adding a table -----

  /** Zero the page `page` and point the entry `i` of table `p` at it. */
  function Attach(m: Mem, p: Page, i: Index, e: Word, page: Page): Mem
  {
    SetEntry(m[page := map[]], p, i, e)
  }

  function Grow(t: Shape, p: Page, i: Index, page: Page): Shape
    requires p in t.level && t.level[p] > 1
  {
    Shape(t.level[page := t.level[p] - 1], t.up[page := (p, i)])
  }

  lemma ZeroEntry()
    ensures !Present(0)
  {
  }

  /** A page can be attached at an entry that is not present. */
  ghost predicate Attachable(m: Mem, root: Page, t: Shape, u: bool, p: Page, i: Index, e: Word, page: Page)
  {
    && Tree(m, root, t, u) && p in t.level && t.level[p] > 1
    && !Present(Entry(m, p, i)) && page !in t.level && PageAddress(page) && Present(e) && PageOf(e) == page
  }

  lemma AttachEntries(m: Mem, p: Page, i: Index, e: Word, page: Page)
    requires p != page
    ensures var m' := Attach(m, p, i, e, page);
            && Entry(m', p, i) == e && (forall j: Index :: Entry(m', page, j) == 0)
            && (forall q: Page, j: Index :: q != page && (q != p || j != i) ==> Entry(m', q, j) == Entry(m, q, j))
  {
  }

  /** A zeroed table leads nowhere. */
  lemma ZeroTableWalk(m: Mem, p: Page, level: nat, va: Word)
    requires level >= 1 && forall j: Index :: Entry(m, p, j) == 0
    ensures Walk(m, p, level, va) == 0
  {
    hide Present, PageOf, Idx;
    ZeroEntry();
  }

  lemma WalkStep(m: Mem, q: Page, level: nat, va: Word)
    requires level > 1
    ensures var e := Entry(m, q, Idx(va, level));
            Walk(m, q, level, va) == if Present(e) then Walk(m, PageOf(e), level - 1, va) else 0
  {
    hide Present, PageOf, Idx;
  }

  /** A present entry of a tree leads one level down inside the tree. */
  lemma Child(m: Mem, root: Page, t: Shape, u: bool, q: Page, j: Index)
    requires Tree(m, root, t, u) && q in t.level && t.level[q] > 1 && Covered(u, t.level[q], j) && Present(Entry(m, q, j))
    ensures PageOf(Entry(m, q, j)) in t.level && t.level[PageOf(Entry(m, q, j))] == t.level[q] - 1
  {
    hide Present, PageOf;
    assert Hangs(m, t, q, j);
  }

  lemma {:induction false} AttachKeepsWalk(m: Mem, root: Page, t: Shape, u: bool, p: Page, i: Index, e: Word, page: Page,
                                           q: Page, level: nat, va: Word)
    requires Attachable(m, root, t, u, p, i, e, page) && Covered(u, 4, Idx(va, 4))
    requires 1 <= level <= 4 && q in t.level && t.level[q] == level
    ensures Walk(Attach(m, p, i, e, page), q, level, va) == Walk(m, q, level, va)
    decreases level
  {
    hide Present, PageOf, Idx, PageAddress, Attach, Tree;
    AttachEntries(m, p, i, e, page);
    var m', j := Attach(m, p, i, e, page), Idx(va, level);
    if level > 1 {
      WalkStep(m, q, level, va);
      WalkStep(m', q, level, va);
      hide Walk;
      if q == p && j == i {
        ZeroTableWalk(m', page, level - 1, va);
      } else if Present(Entry(m, q, j)) {
        Child(m, root, t, u, q, j);
        AttachKeepsWalk(m, root, t, u, p, i, e, page, PageOf(Entry(m, q, j)), level - 1, va);
      }
    }
  }

  lemma HangsStill(m: Mem, m': Mem, t: Shape, p: Page, i: Index, page: Page, q: Page, j: Index)
    requires p in t.level && t.level[p] > 1 && page !in t.level && q in t.level && t.level[q] > 1
    requires Entry(m', q, j) == Entry(m, q, j) && Hangs(m, t, q, j)
    ensures Hangs(m', Grow(t, p, i, page), q, j)
  {
    hide PageOf, Entry;
  }

  lemma AttachKeepsTree(m: Mem, root: Page, t: Shape, u: bool, p: Page, i: Index, e: Word, page: Page)
    requires Attachable(m, root, t, u, p, i, e, page)
    ensures Tree(Attach(m, p, i, e, page), root, Grow(t, p, i, page), u)
  {
    hide Present, PageOf, PageAddress, Attach, Entry;
    AttachEntries(m, p, i, e, page);
    ZeroEntry();
    var m', t' := Attach(m, p, i, e, page), Grow(t, p, i, page);
    forall q, j | q in t'.level && t'.level[q] > 1 && Covered(u, t'.level[q], j) && Present(Entry(m', q, j))
      ensures Hangs(m', t', q, j)
    {
      if !(q == p && j == i) {
        assert q != page;
        assert Hangs(m, t, q, j);
        HangsStill(m, m', t, p, i, page, q, j);
      }
    }
  }

  // ----- Setting a last-level entry -----

  lemma SetEntries(m: Mem, p: Page, i: Index, e: Word)
    ensures var m' := SetEntry(m, p, i, e);
            Entry(m', p, i) == e && forall q: Page, j: Index :: q != p || j != i ==> Entry(m', q, j) == Entry(m, q, j)
  {
  }

  lemma SetLeafKeepsTree(m: Mem, root: Page, t: Shape, u: bool, p: Page, i: Index, e: Word)
    requires Tree(m, root, t, u) && p in t.level && t.level[p] == 1
    ensures Tree(SetEntry(m, p, i, e), root, t, u)
  {
    hide Present, PageOf, PageAddress, SetEntry;
    SetEntries(m, p, i, e);
    var m' := SetEntry(m, p, i, e);
    forall q, j | q in t.level && t.level[q] > 1 && Covered(u, t.level[q], j) && Present(Entry(m', q, j))
      ensures Hangs(m', t, q, j)
    {
      assert Hangs(m, t, q, j);
    }
  }

  /** The walk that reads the new entry returns it. */
  lemma {:induction false} SetLeafSeen(m: Mem, root: Page, t: Shape, u: bool, p: Page, i: Index, e: Word, q: Page, level: nat, va: Word)
    requires Tree(m, root, t, u) && p in t.level && t.level[p] == 1 && q in t.level && t.level[q] == level
    requires Covered(u, 4, Idx(va, 4)) && Visits(m, q, level, va, p, i)
    ensures Walk(SetEntry(m, p, i, e), q, level, va) == e
    decreases level
  {
    hide Present, PageOf, Idx, PageAddress, SetEntry;
    SetEntries(m, p, i, e);
    if level > 1 {
      var j := Idx(va, level);
      assert Hangs(m, t, q, j);
      SetLeafSeen(m, root, t, u, p, i, e, PageOf(Entry(m, q, j)), level - 1, va);
    }
  }

  /** Setting the last-level entry that the walk for `va` reads changes the page of `va` and no other. */
  lemma SetLeafChangesOnePage(m: Mem, root: Page, t: Shape, u: bool, p: Page, i: Index, e: Word, va: Word, vb: Word)
    requires Tree(m, root, t, u) && p in t.level && t.level[p] == 1
    requires Covered(u, 4, Idx(va, 4)) && Covered(u, 4, Idx(vb, 4)) && Visits(m, root, 4, va, p, i)
    ensures Walk(SetEntry(m, p, i, e), root, 4, vb) == if KeyOf(vb) == KeyOf(va) then e else Walk(m, root, 4, vb)
  {
    hide Present, PageOf, Idx, PageAddress, SetEntry, Visits, Walk, Covered;
    if Visits(m, root, 4, vb, p, i) {
      forall l | 1 <= l <= 4
        ensures Idx(va, l) == Idx(vb, l)
      {
        VisitorsShareIndices(m, root, t, u, va, vb, p, i, l);
      }
      SetLeafSeen(m, root, t, u, p, i, e, root, 4, vb);
    } else {
      if KeyOf(vb) == KeyOf(va) {
        SameIndicesVisit(m, root, 4, va, vb, p, i);
      }
      SetEntries(m, p, i, e);
      WalkFrame(m, SetEntry(m, p, i, e), root, 4, vb, p, i);
    }
  }
}
