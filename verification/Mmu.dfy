/** Building and reading page tables (kern/arch/x86_64/mmu.c, kern/arch/x86_64/obj/page.c)
    and the user-level loop that supplies missing tables (lib/lib.c). */
module Mmu {
  import opened Paging
  import opened Perms

  // ----- Following one walk down -----

  /** Below a present entry that the walk reads, the walk reads the next table. */
  lemma {:induction false} VisitsDown(m: Mem, root: Page, t: Shape, u: bool, q: Page, level: nat, va: Word, p: Page)
    requires Tree(m, root, t, u) && q in t.level && t.level[q] == level && p in t.level && t.level[p] > 1
    requires Covered(u, 4, Idx(va, 4)) && Visits(m, q, level, va, p, Idx(va, t.level[p]))
    requires Present(Entry(m, p, Idx(va, t.level[p])))
    ensures var c := PageOf(Entry(m, p, Idx(va, t.level[p])));
            c in t.level && t.level[c] == t.level[p] - 1 && Visits(m, q, level, va, c, Idx(va, t.level[c]))
    decreases level
  {
    hide Present, PageOf, Idx, PageAddress;
    VisitorsAgree(m, root, t, u, q, level, va, p, Idx(va, t.level[p]));
    if q != p {
      var j := Idx(va, level);
      assert Hangs(m, t, q, j);
      VisitsDown(m, root, t, u, PageOf(Entry(m, q, j)), level - 1, va, p);
    } else {
      assert Hangs(m, t, p, Idx(va, t.level[p]));
    }
  }

  /** A walk that reaches an entry still reaches it after a table has been attached there. */
  lemma {:induction false} AttachKeepsVisit(m: Mem, root: Page, t: Shape, u: bool, p: Page, e: Word, page: Page, q: Page, level: nat, va: Word)
    requires p in t.level && Attachable(m, root, t, u, p, Idx(va, t.level[p]), e, page) && Covered(u, 4, Idx(va, 4))
    requires q in t.level && t.level[q] == level && Visits(m, q, level, va, p, Idx(va, t.level[p]))
    ensures Visits(Attach(m, p, Idx(va, t.level[p]), e, page), q, level, va, p, Idx(va, t.level[p]))
    decreases level
  {
    hide Present, PageOf, Idx, PageAddress, Attach;
    var i := Idx(va, t.level[p]);
    AttachEntries(m, p, i, e, page);
    VisitorsAgree(m, root, t, u, q, level, va, p, i);
    if q != p {
      var j := Idx(va, level);
      assert Hangs(m, t, q, j);
      AttachKeepsVisit(m, root, t, u, p, e, page, PageOf(Entry(m, q, j)), level - 1, va);
    }
  }

  /** The level of the first table that the walk misses, zero if it reaches the last level. */
  function Missing(m: Mem, p: Page, level: nat, va: Word): nat
    requires level >= 1
    decreases level
  {
    var e := Entry(m, p, Idx(va, level));
    if level == 1 then 0 else if !Present(e) then level - 1 else Missing(m, PageOf(e), level - 1, va)
  }

  /** What a walk finds can be read off from any table on its way. */
  lemma {:induction false} Descend(m: Mem, root: Page, t: Shape, u: bool, q: Page, level: nat, va: Word, p: Page)
    requires Tree(m, root, t, u) && q in t.level && t.level[q] == level && p in t.level
    requires Covered(u, 4, Idx(va, 4)) && Visits(m, q, level, va, p, Idx(va, t.level[p]))
    ensures Missing(m, q, level, va) == Missing(m, p, t.level[p], va)
    ensures Walk(m, q, level, va) == Walk(m, p, t.level[p], va)
    decreases level
  {
    hide Present, PageOf, Idx, PageAddress;
    VisitorsAgree(m, root, t, u, q, level, va, p, Idx(va, t.level[p]));
    if q != p {
      assert Hangs(m, t, q, Idx(va, level));
      Descend(m, root, t, u, PageOf(Entry(m, q, Idx(va, level))), level - 1, va, p);
    }
  }

  /** Below a zeroed table the walk misses the next one. */
  lemma MissingBelowZero(m: Mem, p: Page, level: nat, va: Word)
    requires 1 <= level <= 4 && p in m && m[p] == map[]
    ensures Missing(m, p, level, va) == level - 1
  {
    hide Present, PageOf, Idx;
    ZeroEntry();
  }

  /** A walk in the user half does not read the kernel half of the top table. */
  lemma KernelEntryUnseen(m: Mem, root: Page, t: Shape, i: Index, va: Word)
    requires Tree(m, root, t, true) && !Covered(true, 4, i) && Covered(true, 4, Idx(va, 4))
    ensures !Visits(m, root, 4, va, root, i)
  {
    hide Present, PageOf, Idx, PageAddress, Visits;
    if Visits(m, root, 4, va, root, i) {
      VisitorsAgree(m, root, t, true, root, 4, va, root, i);
    }
  }

  lemma {:induction false} MissingFrame(m: Mem, m': Mem, q: Page, level: nat, va: Word, p: Page, i: Index)
    requires level >= 1 && !Visits(m, q, level, va, p, i)
    requires forall r: Page, j: Index :: r != p || j != i ==> Entry(m', r, j) == Entry(m, r, j)
    ensures Missing(m', q, level, va) == Missing(m, q, level, va)
    decreases level
  {
    hide Present, PageOf, Idx;
    if level > 1 && Present(Entry(m, q, Idx(va, level))) {
      MissingFrame(m, m', PageOf(Entry(m, q, Idx(va, level))), level - 1, va, p, i);
    }
  }

  lemma KernelEntryKeeps(m: Mem, root: Page, t: Shape, i: Index, e: Word, flat: map<Key, Word>, va: Word)
    requires Tree(m, root, t, true) && !Covered(true, 4, i) && Refines(m, root, flat, true) && Covered(true, 4, Idx(va, 4))
    ensures var m' := SetEntry(m, root, i, e);
            Tree(m', root, t, true) && Refines(m', root, flat, true) && Missing(m', root, 4, va) == Missing(m, root, 4, va)
            && SameUpper(m, m', root, true)
  {
    hide Present, PageOf, PageAddress, Visits, Walk, Idx, SetEntry, FlatEntry, Missing, Upper;
    var m' := SetEntry(m, root, i, e);
    SetEntries(m, root, i, e);
    forall q, j | q in t.level && t.level[q] > 1 && Covered(true, t.level[q], j) && Present(Entry(m', q, j))
      ensures Hangs(m', t, q, j)
    {
      assert Hangs(m, t, q, j);
    }
    forall vb: Word | Covered(true, 4, Idx(vb, 4))
      ensures Walk(m', root, 4, vb) == FlatEntry(flat, vb)
    {
      KernelEntryUnseen(m, root, t, i, vb);
      WalkFrame(m, m', root, 4, vb, root, i);
    }
    forall vb: Word | Covered(true, 4, Idx(vb, 4))
      ensures Upper(m', root, 4, vb) == Upper(m, root, 4, vb)
    {
      KernelEntryUnseen(m, root, t, i, vb);
      UpperFrame(m, m', root, 4, vb, root, i);
    }
    KernelEntryUnseen(m, root, t, i, va);
    MissingFrame(m, m', root, 4, va, root, i);
  }

  /** The entries of the kernel half below `i`. */
  predicate Before(j: Index, i: Word) { 256 <= j.n < i }

  lemma BeforeStep(j: Index, i: Word)
    requires 256 <= i < 512
    ensures Before(j, i + 1) <==> Before(j, i) || j == Index(i)
  {
  }

  lemma BeforeSelf(i: Word)
    ensures !Before(Index(i), i)
  {
  }

  lemma BeforeEdges(j: Index)
    ensures !Before(j, 256) && (Before(j, 512) ==> !Covered(true, 4, j))
  {
  }

  ghost predicate SamePage(m: Mem, n: Mem, q: Page)
  {
    (q in m <==> q in n) && (q in m ==> m[q] == n[q])
  }

  lemma SetElsewhere(m: Mem, p: Page, i: Index, e: Word)
    ensures forall q: Page :: q != p ==> SamePage(SetEntry(m, p, i, e), m, q)
  {
  }

  // ----- Zeroing a page outside the tree -----

  lemma ZeroKeepsTree(m: Mem, root: Page, t: Shape, u: bool, page: Page)
    requires Tree(m, root, t, u) && page !in t.level
    ensures Tree(m[page := map[]], root, t, u)
  {
    hide Present, PageOf, PageAddress;
    var m' := m[page := map[]];
    forall q, j | q in t.level && t.level[q] > 1 && Covered(u, t.level[q], j) && Present(Entry(m', q, j))
      ensures Hangs(m', t, q, j)
    {
      assert Hangs(m, t, q, j);
    }
  }

  lemma {:induction false} ZeroKeepsWalk(m: Mem, root: Page, t: Shape, u: bool, page: Page, q: Page, level: nat, va: Word)
    requires Tree(m, root, t, u) && page !in t.level && q in t.level && t.level[q] == level && Covered(u, 4, Idx(va, 4))
    ensures Walk(m[page := map[]], q, level, va) == Walk(m, q, level, va)
    ensures Missing(m[page := map[]], q, level, va) == Missing(m, q, level, va)
    decreases level
  {
    hide Present, PageOf, Idx, PageAddress;
    var j := Idx(va, level);
    assert Entry(m[page := map[]], q, j) == Entry(m, q, j);
    if level > 1 && Present(Entry(m, q, j)) {
      assert Hangs(m, t, q, j);
      ZeroKeepsWalk(m, root, t, u, page, PageOf(Entry(m, q, j)), level - 1, va);
    }
  }

  // ----- Mapping operations -----

  const MAP_ATTR: Word := 7

  lemma FullAttr()
    ensures Perm(true, PermOf(MAP_ATTR).write) == FULL
  {
  }

  lemma MapAttr()
    ensures PTE_PRESENT | PTE_USER | MAP_ATTR == MAP_ATTR
  {
  }

  lemma MissingBound(m: Mem, p: Page, va: Word)
    ensures Missing(m, p, 4, va) <= 3
    ensures Missing(m, p, 4, va) > 0 ==> !Present(Walk(m, p, 4, va))
  {
    hide Present, PageOf, Idx;
    ZeroEntry();
  }

  // An address without its low bits. Aligning to what a table spans keeps the indices that
  // lead to the table.

  function Align39(va: Word): Word { va & 0xFFFF_FF80_0000_0000 }

  lemma Shift39By39(va: Word)
    ensures Align39(va) >> 39 == va >> 39
  {
  }

  lemma Align39Keeps(va: Word)
    ensures Idx(Align39(va), 4) == Idx(va, 4)
  {
    hide Align39;
    Shift39By39(va);
  }

  function Align30(va: Word): Word { va & 0xFFFF_FFFF_C000_0000 }

  lemma Shift30By39(va: Word)
    ensures Align30(va) >> 39 == va >> 39
  {
  }

  lemma Shift30By30(va: Word)
    ensures Align30(va) >> 30 == va >> 30
  {
  }

  lemma Align30Keeps(va: Word)
    ensures Idx(Align30(va), 4) == Idx(va, 4)
    ensures Idx(Align30(va), 3) == Idx(va, 3)
  {
    hide Align30;
    Shift30By39(va);
    Shift30By30(va);
  }

  function Align21(va: Word): Word { va & 0xFFFF_FFFF_FFE0_0000 }

  lemma Shift21By39(va: Word)
    ensures Align21(va) >> 39 == va >> 39
  {
  }

  lemma Shift21By30(va: Word)
    ensures Align21(va) >> 30 == va >> 30
  {
  }

  lemma Shift21By21(va: Word)
    ensures Align21(va) >> 21 == va >> 21
  {
  }

  lemma Align21Keeps(va: Word)
    ensures Idx(Align21(va), 4) == Idx(va, 4)
    ensures Idx(Align21(va), 3) == Idx(va, 3)
    ensures Idx(Align21(va), 2) == Idx(va, 2)
  {
    hide Align21;
    Shift21By39(va);
    Shift21By30(va);
    Shift21By21(va);
  }

  lemma MissesBelow(m: Mem, p: Page, va: Word)
    requires Present(Entry(m, p, Idx(va, 4)))
    ensures Missing(m, p, 4, va) < 3
  {
    hide Present, PageOf, Idx;
  }

  datatype Reply = NoError | FailedLookup(level: nat) | DeleteFirst

  /** How mapping a table of a level (zero for a page) is answered when the walk misses `missing`. */
  function TableReply(missing: nat, level: nat): Reply
  {
    if missing > level then FailedLookup(missing) else if missing == level then NoError else DeleteFirst
  }

  // ----- The flat map -----

  function FlatEntry(flat: map<Key, Word>, va: Word): Word
  {
    if KeyOf(va) in flat then flat[KeyOf(va)] else 0
  }

  /** The tree and the flat map give every address the same last-level entry. */
  ghost predicate Refines(m: Mem, root: Page, flat: map<Key, Word>, u: bool)
  {
    forall va: Word {:trigger Walk(m, root, 4, va)} ::
      Covered(u, 4, Idx(va, 4)) ==> Walk(m, root, 4, va) == FlatEntry(flat, va)
  }

  lemma AttachKeepsRefinement(m: Mem, root: Page, t: Shape, u: bool, flat: map<Key, Word>, p: Page, i: Index, e: Word, page: Page)
    requires Attachable(m, root, t, u, p, i, e, page) && Refines(m, root, flat, u)
    ensures Refines(Attach(m, p, i, e, page), root, flat, u)
  {
    hide Present, PageOf, Idx, Attach, FlatEntry, Walk;
    var m' := Attach(m, p, i, e, page);
    forall va: Word | Covered(u, 4, Idx(va, 4))
      ensures Walk(m', root, 4, va) == FlatEntry(flat, va)
    {
      AttachKeepsWalk(m, root, t, u, p, i, e, page, root, 4, va);
    }
  }

  /** One add changes exactly the page of `va`. */
  lemma SetLeafRefines(m: Mem, root: Page, t: Shape, u: bool, flat: map<Key, Word>, p: Page, e: Word, va: Word)
    requires Tree(m, root, t, u) && p in t.level && t.level[p] == 1 && Refines(m, root, flat, u)
    requires Covered(u, 4, Idx(va, 4)) && Visits(m, root, 4, va, p, Idx(va, 1))
    ensures Refines(SetEntry(m, p, Idx(va, 1), e), root, flat[KeyOf(va) := e], u)
  {
    hide Present, PageOf, Idx, SetEntry, Walk, Visits, Tree;
    var m' := SetEntry(m, p, Idx(va, 1), e);
    forall vb: Word | Covered(u, 4, Idx(vb, 4))
      ensures Walk(m', root, 4, vb) == FlatEntry(flat[KeyOf(va) := e], vb)
    {
      SetLeafChangesOnePage(m, root, t, u, p, Idx(va, 1), e, va, vb);
      assert Walk(m, root, 4, vb) == FlatEntry(flat, vb);
    }
  }

  lemma ResolveIsFlat(m: Mem, root: Page, t: Shape, u: bool, flat: map<Key, Word>, va: Word)
    requires Tree(m, root, t, u) && Refines(m, root, flat, u) && Covered(u, 4, Idx(va, 4))
    ensures Resolve(m, root.addr, va) == Translate(FlatEntry(flat, va), va)
  {
    hide Present, PageOf, Idx, FlatEntry;
  }

  /** A mapped frame is what its page resolves to; every other page resolves as before. */
  lemma MappedResolves(flat: map<Key, Word>, va: Word, frame: Page, flags: Word, vb: Word)
    requires Canonical(va) && Canonical(vb) && PageAddress(frame) && GoodFlags(flags)
    ensures Translate(FlatEntry(flat[KeyOf(va) := MakeEntry(frame, flags)], vb), vb) ==
            if PageNumber(va) == PageNumber(vb) then InPage(frame, vb) else Translate(FlatEntry(flat, vb), vb)
  {
    hide Present, PageOf, Idx, PageNumber, GoodFlags, Canonical, MakeEntry, InPage;
    ZeroEntry();
    KeyNamesPage(va, vb);
    EntryParts(frame, flags);
  }

  datatype Call = Call(va: Word, phys: Page, flags: Word)

  /** The flat map after a sequence of add_vm_mapping calls. */
  function AfterCalls(flat: map<Key, Word>, calls: seq<Call>): map<Key, Word>
  {
    if calls == [] then flat else
      var c := calls[|calls| - 1];
      AfterCalls(flat, calls[..|calls| - 1])[KeyOf(c.va) := MakeEntry(c.phys, c.flags)]
  }

  function NthPage(va: Word, k: nat): Word
  {
    if k == 0 then va else NthPage(va, k - 1) + 0x1000
  }

  /** The flat map after the first `n` frames have been mapped from `va` on. */
  function WithFrames(flat: map<Key, Word>, frames: seq<Page>, va: Word, n: nat): map<Key, Word>
    requires n <= |frames|
  {
    if n == 0 then flat else
      WithFrames(flat, frames, va, n - 1)[KeyOf(NthPage(va, n - 1)) := MakeEntry(frames[n - 1], MAP_ATTR)]
  }

  /** Pages that alloc_page may hand out: page addresses outside the tree, each once. */
  ghost predicate Unused(free: seq<Page>, t: Shape)
  {
    && (forall k :: 0 <= k < |free| ==> PageAddress(free[k]) && free[k] !in t.level)
    && (forall j, k :: 0 <= j < k < |free| ==> free[j] != free[k])
  }

  lemma EmptyTree(top: Page, u: bool)
    requires PageAddress(top)
    ensures Tree(map[top := map[]], top, Shape(map[top := 4], map[]), u) && Refines(map[top := map[]], top, map[], u)
  {
    hide Present, PageOf, Idx, PageAddress;
    ZeroEntry();
    var m: Mem := map[top := map[]];
    assert forall p: Page, j: Index :: Entry(m, p, j) == 0;
    forall va: Word
      ensures Walk(m, top, 4, va) == 0
    {
      assert !Present(Entry(m, top, Idx(va, 4)));
    }
  }

  /** The first `k` pages of a supply have been handed out. */
  predicate Taken(before: seq<Page>, now: seq<Page>, k: int) { 0 <= k <= |before| && now == before[k..] }

  lemma TakeNone(before: seq<Page>)
    ensures Taken(before, before, 0)
  {
  }

  lemma TakeOne(before: seq<Page>, now: seq<Page>, k: int)
    requires Taken(before, now, k)
    ensures |now| == |before| - k && (now != [] ==> Taken(before, now[1..], k + 1))
  {
  }

  lemma RootIsPage(m: Mem, root: Page, t: Shape, u: bool)
    requires Tree(m, root, t, u)
    ensures PageOf(root.addr) == root
  {
  }

  lemma RootOnPath(m: Mem, root: Page, t: Shape, u: bool, va: Word)
    requires Tree(m, root, t, u)
    ensures root in t.level && t.level[root] == 4 && Visits(m, root, 4, va, root, Idx(va, 4))
  {
  }

  lemma {:induction false} SetLeafKeepsVisit(m: Mem, root: Page, t: Shape, u: bool, p: Page, e: Word, q: Page, level: nat, va: Word)
    requires Tree(m, root, t, u) && p in t.level && t.level[p] == 1 && q in t.level && t.level[q] == level
    requires Covered(u, 4, Idx(va, 4)) && Visits(m, q, level, va, p, Idx(va, 1))
    ensures Visits(SetEntry(m, p, Idx(va, 1), e), q, level, va, p, Idx(va, 1))
    decreases level
  {
    hide Present, PageOf, Idx, PageAddress, SetEntry;
    SetEntries(m, p, Idx(va, 1), e);
    if level > 1 {
      var j := Idx(va, level);
      assert Hangs(m, t, q, j);
      SetLeafKeepsVisit(m, root, t, u, p, e, PageOf(Entry(m, q, j)), level - 1, va);
    }
  }

  /** Flags given by a caller that touch no address bit. */
  predicate GoodAttr(f: Word) { f & 0x000F_FFFF_FFFF_F000 == 0 }

  lemma FlagsGood(attr: Word)
    requires GoodAttr(attr)
    ensures GoodFlags(PTE_PRESENT | attr | PTE_USER)
  {
  }

  lemma TableFlagsGood(flags: Word)
    ensures GoodFlags(PTE_PRESENT | PTE_WRITE | (flags & PTE_USER))
  {
  }

  lemma AttachRestricts(m: Mem, root: Page, t: Shape, u: bool, p: Page, i: Index, e: Word, page: Page)
    requires Attachable(m, root, t, u, p, i, e, page)
    ensures AllRestricted(m, Attach(m, p, i, e, page), root, u, PermOf(e))
  {
    hide Attach, Restricted, PermOf;
    forall va: Word | Covered(u, 4, Idx(va, 4))
      ensures Restricted(m, Attach(m, p, i, e, page), root, 4, va, PermOf(e))
    {
      AttachUpper(m, root, t, u, p, i, e, page, root, 4, va);
    }
  }

  lemma AttachIs(m: Mem, p: Page, i: Index, e: Word, page: Page)
    requires p != page
    ensures var m' := Attach(m, p, i, e, page); m' == SetEntry(m[page := map[]], p, i, e) && page in m' && m'[page] == map[]
  {
  }

  /** All that attaching a table where a walk misses one keeps and gives. */
  lemma AttachKeeps(m: Mem, root: Page, t: Shape, u: bool, flat: map<Key, Word>, p: Page, e: Word, page: Page, va: Word)
    requires p in t.level && t.level[p] > 1 && Tree(m, root, t, u) && Refines(m, root, flat, u) && Covered(u, 4, Idx(va, 4))
    requires Visits(m, root, 4, va, p, Idx(va, t.level[p])) && !Present(Entry(m, p, Idx(va, t.level[p])))
    requires page !in t.level && PageAddress(page) && Present(e) && PageOf(e) == page
    ensures var i := Idx(va, t.level[p]);
            var m', t' := Attach(m, p, i, e, page), Grow(t, p, i, page);
            && Tree(m', root, t', u) && Refines(m', root, flat, u) && AllRestricted(m, m', root, u, PermOf(e))
            && Visits(m', root, 4, va, p, i) && Visits(m', root, 4, va, page, Idx(va, t.level[p] - 1))
  {
    var i := Idx(va, t.level[p]);
    RootIs(m, root, t, u);
    assert Attachable(m, root, t, u, p, i, e, page);
    hide Present, PageOf, Idx, PageAddress, Visits, Walk, Refines, AllRestricted, PermOf, Tree, Attach;
    AttachKeepsTree(m, root, t, u, p, i, e, page);
    AttachKeepsRefinement(m, root, t, u, flat, p, i, e, page);
    AttachKeepsVisit(m, root, t, u, p, e, page, root, 4, va);
    AttachEntries(m, p, i, e, page);
    AttachRestricts(m, root, t, u, p, i, e, page);
    VisitsDown(Attach(m, p, i, e, page), root, Grow(t, p, i, page), u, root, 4, va, p);
  }

  lemma RootIs(m: Mem, root: Page, t: Shape, u: bool)
    requires Tree(m, root, t, u)
    ensures root in t.level && t.level[root] == 4
  {
  }

  lemma LeafSameUpper(m: Mem, root: Page, t: Shape, u: bool, p: Page, i: Index, e: Word)
    requires Tree(m, root, t, u) && p in t.level && t.level[p] == 1
    ensures SameUpper(m, SetEntry(m, p, i, e), root, u)
  {
    hide SetEntry, Upper;
    forall va: Word | Covered(u, 4, Idx(va, 4))
      ensures Upper(SetEntry(m, p, i, e), root, 4, va) == Upper(m, root, 4, va)
    {
      LeafUpper(m, root, t, u, p, i, e, root, 4, va);
    }
  }

  /** Both memories show the same flat map, so walks find the same. */
  lemma SameFlatWalks(m: Mem, m': Mem, root: Page, flat: map<Key, Word>, u: bool)
    requires Refines(m, root, flat, u) && Refines(m', root, flat, u)
    ensures forall va: Word {:trigger Walk(m', root, 4, va)} :: Covered(u, 4, Idx(va, 4)) ==> Walk(m', root, 4, va) == Walk(m, root, 4, va)
  {
    hide Walk, Covered, Idx, FlatEntry;
    forall va: Word | Covered(u, 4, Idx(va, 4))
      ensures Walk(m', root, 4, va) == Walk(m, root, 4, va)
    {
      assert Walk(m, root, 4, va) == FlatEntry(flat, va);
    }
  }

  /** One page has got the entry `e`, under the tables that were there on the way and perhaps others made for it;
      then its permissions are what those tables and `e` allow, and no other page's permissions have changed. */
  lemma GrantedAfter(m: Mem, m': Mem, root: Page, flat: map<Key, Word>, u: bool, va: Word, e: Word, limit: Perm, vb: Word)
    requires Refines(m, root, flat, u) && Refines(m', root, flat[KeyOf(va) := e], u) && AllRestricted(m, m', root, u, limit)
    requires Covered(u, 4, Idx(va, 4)) && Covered(u, 4, Idx(vb, 4)) && Meet(limit, PermOf(e)) == PermOf(e)
    ensures Present(e) ==> Granted(m', root, 4, va) == Meet(Upper(m, root, 4, va), PermOf(e))
    ensures KeyOf(vb) != KeyOf(va) && Present(FlatEntry(flat, vb)) ==> Granted(m', root, 4, vb) == Granted(m, root, 4, vb)
  {
    hide Walk, Idx, Upper, Granted, Present, PermOf, Covered;
    assert Walk(m', root, 4, va) == e;
    assert Restricted(m, m', root, 4, va, limit);
    if Present(e) {
      GrantedIs(m', root, 4, va);
    }
    if KeyOf(vb) != KeyOf(va) && Present(FlatEntry(flat, vb)) {
      assert Restricted(m, m', root, 4, vb, limit);
      assert Walk(m, root, 4, vb) == FlatEntry(flat, vb) == Walk(m', root, 4, vb);
      GrantedIs(m, root, 4, vb);
      GrantedIs(m', root, 4, vb);
    }
  }

  class AddressSpace {
    const root: Page
    ghost const userOnly: bool
    var mem: Mem
    var free: seq<Page>
    ghost var t: Shape
    ghost var flat: map<Key, Word>

    ghost predicate Valid()
      reads this
    {
      Tree(mem, root, t, userOnly) && Unused(free, t) && Refines(mem, root, flat, userOnly)
    }

    /** The walk for `va` reads table `p` at `level`. */
    ghost predicate OnPath(p: Page, level: nat, va: Word)
      reads this
    {
      p in t.level && t.level[p] == level && Visits(mem, root, 4, va, p, Idx(va, level))
    }

    /** An address space with an empty top table. */
    constructor (top: Page, supply: seq<Page>, users: bool)
      requires PageAddress(top) && Unused([top] + supply, Shape(map[], map[]))
      ensures Valid() && Open() && root == top && free == supply && userOnly == users && flat == map[]
    {
      root, userOnly, mem, free := top, users, map[top := map[]], supply;
      t, flat := Shape(map[top := 4], map[]), map[];
      new;
      hide Present, PageOf, Idx, PageAddress;
      hide Tree, Refines, Upper;
      EmptyTree(top, users);
      forall va: Word
        ensures Upper(mem, root, 4, va) == FULL
      {
        ZeroUpper(mem, root, 4, va);
      }
      forall k | 0 <= k < |supply|
        ensures PageAddress(supply[k]) && supply[k] != top
      {
        assert supply[k] == ([top] + supply)[k + 1] && top == ([top] + supply)[0];
      }
      forall j, k | 0 <= j < k < |supply|
        ensures supply[j] != supply[k]
      {
        assert supply[j] == ([top] + supply)[j + 1] && supply[k] == ([top] + supply)[k + 1];
      }
    }

    /** alloc_table: a zeroed page. */
    method AllocTable() returns (page: Page)
      requires |free| > 0
      modifies this`free, this`mem
      ensures page == old(free)[0] && free == old(free)[1..] && mem == old(mem)[page := map[]]
    {
      page := free[0];
      free := free[1..];
      mem := mem[page := map[]];
    }

    /** Point the entry for `va` of the table `p`, which is not present, at the zeroed page `page`. */
    method Install(p: Page, level: nat, va: Word, page: Page, tableFlags: Word, ghost before: Mem)
      requires Tree(before, root, t, userOnly) && Refines(before, root, flat, userOnly) && mem == before[page := map[]]
      requires 1 < level <= 4 && p in t.level && t.level[p] == level && Visits(before, root, 4, va, p, Idx(va, level))
      requires Covered(userOnly, 4, Idx(va, 4)) && !Present(Entry(before, p, Idx(va, level)))
      requires PageAddress(page) && page !in t.level && Unused(free, t) && page !in free && GoodFlags(tableFlags)
      modifies this`mem, this`t
      ensures Valid() && OnPath(p, level, va) && OnPath(page, level - 1, va)
      ensures page in mem && mem[page] == map[] && Entry(mem, p, Idx(va, level)) == MakeEntry(page, tableFlags)
      ensures forall q: Page, j: Index :: q != page && (q != p || j != Idx(va, level)) ==> Entry(mem, q, j) == Entry(before, q, j)
      ensures t == Grow(old(t), p, Idx(va, level), page) && AllRestricted(before, mem, root, userOnly, PermOf(tableFlags))
    {
      EntryParts(page, tableFlags);
      EntryFlags(page, tableFlags);
      hide Present, PageOf, Idx, PageAddress, GoodFlags, Visits, Walk, Refines, MakeEntry, AllRestricted, PermOf, Upper, Tree, Attach;
      var i := Idx(va, level);
      var e := MakeEntry(page, tableFlags);
      AttachKeeps(before, root, t, userOnly, flat, p, e, page, va);
      AttachEntries(before, p, i, e, page);
      AttachIs(before, p, i, e, page);
      mem := SetEntry(mem, p, i, e);
      t := Grow(t, p, i, page);
    }

    /** One level of add_vm_mapping: the next table down for `va`, allocated if missing. */
    method NextTable(p: Page, level: nat, va: Word, tableFlags: Word) returns (q: Page)
      requires Valid() && 1 < level <= 4 && OnPath(p, level, va) && Covered(userOnly, 4, Idx(va, 4))
      requires |free| > 0 && GoodFlags(tableFlags)
      modifies this`free, this`mem, this`t
      ensures Valid() && OnPath(q, level - 1, va)
      ensures free == old(free) || free == old(free)[1..]
      ensures AllRestricted(old(mem), mem, root, userOnly, PermOf(tableFlags))
    {
      hide Present, PageOf, Idx, PageAddress, GoodFlags, Visits, Walk, Refines, MakeEntry, AllRestricted, PermOf;
      NotRestricted(mem, root, userOnly, PermOf(tableFlags));
      var e := Entry(mem, p, Idx(va, level));
      if !Present(e) {
        ghost var before := mem;
        q := AllocTable();
        Install(p, level, va, q, tableFlags, before);
      } else {
        VisitsDown(mem, root, t, userOnly, root, 4, va, p);
        q := PageOf(e);
      }
    }

    /** add_vm_mapping: the tree changes as one entry of the flat map.  The page gets the permissions of `flags`
        as far as the tables that were there allow, and no other page's permissions change. */
    method AddVmMapping(va: Word, phys: Page, flags: Word)
      requires Valid() && |free| >= 3 && Covered(userOnly, 4, Idx(va, 4))
      modifies this`free, this`mem, this`t, this`flat
      ensures Valid() && flat == old(flat)[KeyOf(va) := MakeEntry(phys, flags)]
      ensures |old(free)| - 3 <= |free| <= |old(free)| && free == old(free)[|old(free)| - |free|..]
      ensures PageAddress(phys) && Present(flags) ==> Granted(mem, root, 4, va) == Meet(old(Upper(mem, root, 4, va)), PermOf(flags))
      ensures PageAddress(phys) ==> OthersKeep(old(mem), mem, old(flat), va)
      ensures PermOf(flags).user ==> SameUpper(old(mem), mem, root, userOnly)
    {
      hide Present, PageOf, Idx, PageAddress, GoodFlags, Walk, Tree, Refines, MakeEntry, Unused, AllRestricted, SameUpper, PermOf, Upper, Granted;
      TableFlagsGood(flags);
      TablePerm(flags);
      ghost var before := mem;
      var pt := Tables(va, PTE_PRESENT | PTE_WRITE | (flags & PTE_USER));
      ghost var after := mem;
      SetLeaf(pt, va, MakeEntry(phys, flags));
      RestrictedThenSame(before, after, mem, root, userOnly, Perm(PermOf(flags).user, true));
      if PageAddress(phys) {
        EntryFlags(phys, flags);
        PresentFlags(phys, flags);
        Allowed(before, old(flat), va, MakeEntry(phys, flags), Perm(PermOf(flags).user, true));
      }
      if PermOf(flags).user {
        FullRestrictsNothing(before, mem, root, userOnly);
      }
    }

    /** The three tables on the way to the last-level entry for `va`, made if missing. */
    method Tables(va: Word, tableFlags: Word) returns (pt: Page)
      requires Valid() && |free| >= 3 && Covered(userOnly, 4, Idx(va, 4)) && GoodFlags(tableFlags)
      modifies this`free, this`mem, this`t
      ensures Valid() && OnPath(pt, 1, va) && AllRestricted(old(mem), mem, root, userOnly, PermOf(tableFlags))
      ensures |old(free)| - 3 <= |free| <= |old(free)| && free == old(free)[|old(free)| - |free|..]
    {
      hide Present, PageOf, Idx, PageAddress, GoodFlags, Walk, Tree, Refines, MakeEntry, Unused, AllRestricted, PermOf;
      RootOnPath(mem, root, t, userOnly, va);
      assert OnPath(root, 4, va);
      hide OnPath, Visits, Covered;
      ghost var m0 := mem;
      var pdp := NextTable(root, 4, va, tableFlags);
      ghost var m1 := mem;
      var pd := NextTable(pdp, 3, va, tableFlags);
      ghost var m2 := mem;
      pt := NextTable(pd, 2, va, tableFlags);
      SameFlatWalks(m0, m1, root, flat, userOnly);
      SameFlatWalks(m0, m2, root, flat, userOnly);
      RestrictedTrans(m0, m1, m2, root, userOnly, PermOf(tableFlags));
      RestrictedTrans(m0, m2, mem, root, userOnly, PermOf(tableFlags));
    }

    /** No page that was mapped, but that of `va`, has other permissions than before. */
    ghost predicate OthersKeep(before: Mem, now: Mem, mapped: map<Key, Word>, va: Word)
    {
      forall vb: Word {:trigger Granted(now, root, 4, vb)} :: Covered(userOnly, 4, Idx(vb, 4)) && KeyOf(vb) != KeyOf(va) && Present(FlatEntry(mapped, vb)) ==>
        Granted(now, root, 4, vb) == Granted(before, root, 4, vb)
    }

    lemma Allowed(before: Mem, flat0: map<Key, Word>, va: Word, e: Word, limit: Perm)
      requires Refines(before, root, flat0, userOnly) && Refines(mem, root, flat0[KeyOf(va) := e], userOnly)
      requires AllRestricted(before, mem, root, userOnly, limit) && Covered(userOnly, 4, Idx(va, 4)) && Meet(limit, PermOf(e)) == PermOf(e)
      ensures Present(e) ==> Granted(mem, root, 4, va) == Meet(Upper(before, root, 4, va), PermOf(e))
      ensures OthersKeep(before, mem, flat0, va)
    {
      hide Present, Idx, Refines, AllRestricted, PermOf, Upper, Granted, FlatEntry, Covered, Meet;
      GrantedAfter(before, mem, root, flat0, userOnly, va, e, limit, va);
      forall vb: Word | Covered(userOnly, 4, Idx(vb, 4)) && KeyOf(vb) != KeyOf(va) && Present(FlatEntry(flat0, vb))
        ensures Granted(mem, root, 4, vb) == Granted(before, root, 4, vb)
      {
        GrantedAfter(before, mem, root, flat0, userOnly, va, e, limit, vb);
      }
    }

    /** Write the last-level entry for `va`. */
    method SetLeaf(pt: Page, va: Word, e: Word)
      requires Valid() && OnPath(pt, 1, va) && Covered(userOnly, 4, Idx(va, 4))
      modifies this`mem, this`flat
      ensures Valid() && OnPath(pt, 1, va) && flat == old(flat)[KeyOf(va) := e] && SameUpper(old(mem), mem, root, userOnly)
    {
      hide Present, PageOf, Idx, PageAddress, Visits, Walk, Refines, SameUpper;
      LeafSameUpper(mem, root, t, userOnly, pt, Idx(va, 1), e);
      SetLeafRefines(mem, root, t, userOnly, flat, pt, e, va);
      SetLeafKeepsTree(mem, root, t, userOnly, pt, Idx(va, 1), e);
      SetLeafKeepsVisit(mem, root, t, userOnly, pt, e, root, 4, va);
      mem := SetEntry(mem, pt, Idx(va, 1), e);
      flat := flat[KeyOf(va) := e];
    }

    /** Copy the kernel half of the current top table. */
    method CopyKernelHalf(current: Page, ghost va: Word)
      requires Valid() && userOnly && Covered(true, 4, Idx(va, 4))
      modifies this`mem
      ensures Valid() && Missing(mem, root, 4, va) == old(Missing(mem, root, 4, va))
      ensures forall j: Index {:trigger Before(j, 512)} ::
                Entry(mem, root, j) == if Before(j, 512) then old(Entry(mem, current, j)) else old(Entry(mem, root, j))
      ensures forall q: Page :: q != root ==> SamePage(mem, old(mem), q)
      ensures SameUpper(old(mem), mem, root, userOnly)
    {
      hide Present, PageOf, Idx, PageAddress, Walk, Tree, Refines, Unused, Missing, Before, Covered, SetEntry, Upper;
      var i: Word := 256;
      forall j: Index
        ensures !Before(j, 256)
      {
        BeforeEdges(j);
      }
      while i < 512
        invariant 256 <= i <= 512 && Valid() && Missing(mem, root, 4, va) == old(Missing(mem, root, 4, va))
        invariant forall j: Index {:trigger Before(j, i)} ::
                    Entry(mem, root, j) == if Before(j, i) then old(Entry(mem, current, j)) else old(Entry(mem, root, j))
        invariant forall q: Page :: q != root ==> SamePage(mem, old(mem), q)
        invariant SameUpper(old(mem), mem, root, userOnly)
        decreases 512 - i
      {
        ghost var m := mem;
        CopyEntry(current, i, va, old(mem));
        SameUpperTrans(old(mem), m, mem, root, userOnly);
        i := i + 1;
      }
    }

    method CopyEntry(current: Page, i: Word, ghost va: Word, ghost before: Mem)
      requires Valid() && userOnly && Covered(true, 4, Idx(va, 4)) && 256 <= i < 512
      requires forall j: Index {:trigger Before(j, i)} ::
                 Entry(mem, root, j) == if Before(j, i) then Entry(before, current, j) else Entry(before, root, j)
      requires forall q: Page :: q != root ==> SamePage(mem, before, q)
      modifies this`mem
      ensures Valid() && Missing(mem, root, 4, va) == old(Missing(mem, root, 4, va))
      ensures forall j: Index {:trigger Before(j, i + 1)} ::
                Entry(mem, root, j) == if Before(j, i + 1) then Entry(before, current, j) else Entry(before, root, j)
      ensures forall q: Page :: q != root ==> SamePage(mem, before, q)
      ensures SameUpper(old(mem), mem, root, userOnly)
    {
      hide Present, PageOf, Idx, PageAddress, Walk, Tree, Refines, Unused, Missing, Before, SetEntry, SameUpper;
      ghost var m := mem;
      var e := Entry(mem, current, Index(i));
      assert current != root ==> SamePage(mem, before, current);
      assert !Before(Index(i), i) by { BeforeSelf(i); }
      KernelEntryKeeps(mem, root, t, Index(i), e, flat, va);
      SetEntries(mem, root, Index(i), e);
      SetElsewhere(mem, root, Index(i), e);
      mem := SetEntry(mem, root, Index(i), e);
      forall j: Index
        ensures Entry(mem, root, j) == if Before(j, i + 1) then Entry(before, current, j) else Entry(before, root, j)
      {
        BeforeStep(j, i);
      }
      forall q: Page | q != root
        ensures SamePage(mem, before, q)
      {
        assert SamePage(mem, m, q) && SamePage(m, before, q);
      }
    }

    /** A zeroed page outside the tree that is not going to be handed out again. */
    ghost predicate Spare(table: Page)
      reads this
    {
      PageAddress(table) && table !in t.level && table !in free && table in mem && mem[table] == map[]
    }

    /** x86_64_pdpt_map, in slot 0 of the top table. */
    method PdptMap(current: Page, table: Page, va: Word) returns (r: Reply)
      requires Valid() && userOnly && Idx(va, 4) == Index(0) && Spare(table)
      modifies this`mem, this`t
      ensures Valid() && r == TableReply(old(Missing(mem, root, 4, va)), 3)
      ensures Missing(mem, root, 4, va) == if r == NoError then 2 else old(Missing(mem, root, 4, va))
      ensures t == if r == NoError then Grow(old(t), root, Idx(va, 4), table) else old(t)
      ensures forall j: Index {:trigger Before(j, 512)} :: Before(j, 512) ==> Entry(mem, root, j) == old(Entry(mem, current, j))
      ensures SameUpper(old(mem), mem, root, userOnly)
    {
      hide Present, PageOf, Idx, PageAddress, Visits, Walk, Refines, GoodFlags, Before, Align39, SameUpper;
      Align39Keeps(va);
      BeforeEdges(Index(0));
      CopyKernelHalf(current, va);
      assert SamePage(mem, old(mem), table);
      if Present(Entry(mem, root, Idx(Align39(va), 4))) {
        MissesBelow(mem, root, va);
        return DeleteFirst;
      }
      RootOnPath(mem, root, t, userOnly, va);
      ghost var m := mem;
      Link(root, 4, va, table);
      SameUpperTrans(old(mem), m, mem, root, userOnly);
      r := NoError;
    }

    /** x86_64_pd_map. */
    method PdMap(table: Page, va: Word) returns (r: Reply)
      requires Valid() && Covered(userOnly, 4, Idx(va, 4)) && Spare(table)
      modifies this`mem, this`t
      ensures Valid() && r == TableReply(old(Missing(mem, root, 4, va)), 2)
      ensures r == NoError ==> Missing(mem, root, 4, va) == 1 && table in t.level && t.level[table] == 2
      ensures r == NoError ==> forall q :: q in t.level && q != table ==> q in old(t).level
      ensures r != NoError ==> mem == old(mem) && t == old(t)
      ensures SameUpper(old(mem), mem, root, userOnly)
    {
      hide SameUpper;
      SameUpperRefl(mem, root, userOnly);
      hide Present, PageOf, Idx, PageAddress, Visits, Walk, Refines, GoodFlags, Align30, Tree, Unused;
      Align30Keeps(va);
      var v := Align30(va);
      RootOnPath(mem, root, t, userOnly, va);
      var pml4e := Entry(mem, root, Idx(v, 4));
      if !Present(pml4e) {
        return FailedLookup(3);
      }
      VisitsDown(mem, root, t, userOnly, root, 4, va, root);
      var pdpte := Entry(mem, PageOf(pml4e), Idx(v, 3));
      if Present(pdpte) {
        return DeleteFirst;
      }
      Link(PageOf(pml4e), 3, va, table);
      r := NoError;
    }

    /** x86_64_pt_map. */
    method PtMap(table: Page, va: Word) returns (r: Reply)
      requires Valid() && Covered(userOnly, 4, Idx(va, 4)) && Spare(table)
      modifies this`mem, this`t
      ensures Valid() && r == TableReply(old(Missing(mem, root, 4, va)), 1)
      ensures r == NoError ==> Missing(mem, root, 4, va) == 0 && table in t.level && t.level[table] == 1
      ensures r == NoError ==> forall q :: q in t.level && q != table ==> q in old(t).level
      ensures r != NoError ==> mem == old(mem) && t == old(t)
      ensures SameUpper(old(mem), mem, root, userOnly)
    {
      hide SameUpper;
      SameUpperRefl(mem, root, userOnly);
      hide Present, PageOf, Idx, PageAddress, Visits, Walk, Refines, GoodFlags, Align21, Tree, Unused;
      Align21Keeps(va);
      var v := Align21(va);
      RootOnPath(mem, root, t, userOnly, va);
      var pml4e := Entry(mem, root, Idx(v, 4));
      if !Present(pml4e) {
        return FailedLookup(3);
      }
      VisitsDown(mem, root, t, userOnly, root, 4, va, root);
      var pdpte := Entry(mem, PageOf(pml4e), Idx(v, 3));
      if !Present(pdpte) {
        return FailedLookup(2);
      }
      VisitsDown(mem, root, t, userOnly, root, 4, va, PageOf(pml4e));
      var pde := Entry(mem, PageOf(pdpte), Idx(v, 2));
      if Present(pde) {
        return DeleteFirst;
      }
      Link(PageOf(pdpte), 2, va, table);
      r := NoError;
    }

    /** x86_64_page_map. */
    method PageMap(frame: Page, va: Word, attr: Word) returns (r: Reply)
      requires Valid() && Covered(userOnly, 4, Idx(va, 4))
      modifies this`mem, this`flat
      ensures Valid()
      ensures var missing := old(Missing(mem, root, 4, va));
              r == if missing == 0 && Present(FlatEntry(old(flat), va)) then DeleteFirst else TableReply(missing, 0)
      ensures r == NoError ==> flat == old(flat)[KeyOf(va) := MakeEntry(frame, PTE_PRESENT | PTE_USER | attr)]
      ensures r != NoError ==> mem == old(mem) && flat == old(flat)
      ensures SameUpper(old(mem), mem, root, userOnly)
      ensures r == NoError && PageAddress(frame) ==>
                Granted(mem, root, 4, va) == Meet(old(Upper(mem, root, 4, va)), Perm(true, PermOf(attr).write))
                && OthersKeep(old(mem), mem, old(flat), va)
    {
      hide Present, PageOf, Idx, PageAddress, Visits, MakeEntry, Tree, Unused, FlatEntry, SameUpper;
      SameUpperRefl(mem, root, userOnly);
      RootOnPath(mem, root, t, userOnly, va);
      var pml4e := Entry(mem, root, Idx(va, 4));
      if !Present(pml4e) {
        return FailedLookup(3);
      }
      VisitsDown(mem, root, t, userOnly, root, 4, va, root);
      var pdpte := Entry(mem, PageOf(pml4e), Idx(va, 3));
      if !Present(pdpte) {
        return FailedLookup(2);
      }
      VisitsDown(mem, root, t, userOnly, root, 4, va, PageOf(pml4e));
      var pde := Entry(mem, PageOf(pdpte), Idx(va, 2));
      if !Present(pde) {
        return FailedLookup(1);
      }
      VisitsDown(mem, root, t, userOnly, root, 4, va, PageOf(pdpte));
      var pte := Entry(mem, PageOf(pde), Idx(va, 1));
      assert Walk(mem, root, 4, va) == pte;
      if Present(pte) {
        return DeleteFirst;
      }
      ghost var before := mem;
      SetLeaf(PageOf(pde), va, MakeEntry(frame, PTE_PRESENT | PTE_USER | attr));
      r := NoError;
      if PageAddress(frame) {
        FrameAllowed(before, old(flat), va, frame, attr);
      }
    }

    /** map_page: the loop that supplies the missing tables. */
    method MapPage(current: Page, frame: Page, va: Word) returns (r: Reply)
      requires Valid() && userOnly && Idx(va, 4) == Index(0) && |free| >= 3
      modifies this`mem, this`t, this`flat, this`free
      ensures Valid() && Taken(old(free), free, old(Missing(mem, root, 4, va)))
      ensures r == if Present(FlatEntry(old(flat), va)) then DeleteFirst else NoError
      ensures flat == if r == NoError then old(flat)[KeyOf(va) := MakeEntry(frame, MAP_ATTR)] else old(flat)
      ensures SameUpper(old(mem), mem, root, userOnly)
      ensures r == NoError && PageAddress(frame) ==>
                Granted(mem, root, 4, va) == old(Upper(mem, root, 4, va)) && OthersKeep(old(mem), mem, old(flat), va)
    {
      hide Present, PageOf, Idx, PageAddress, Visits, Walk, Tree, Refines, MakeEntry, Unused, FlatEntry, Missing, SameUpper, Upper, Granted, OthersKeep;
      ghost var start, before := Missing(mem, root, 4, va), mem;
      MissingBound(mem, root, va);
      MapAttr();
      SameUpperRefl(mem, root, userOnly);
      TakeNone(free);
      hide Taken, Before, Grow, Entry, Spare;
      while true
        invariant Valid() && flat == old(flat) && Missing(mem, root, 4, va) <= start <= 3
        invariant Taken(old(free), free, start - Missing(mem, root, 4, va))
        invariant SameUpper(before, mem, root, userOnly)
        decreases Missing(mem, root, 4, va)
      {
        ghost var m := mem;
        r := PageMap(frame, va, MAP_ATTR);
        SameUpperTrans(before, m, mem, root, userOnly);
        if !r.FailedLookup? {
          if r == NoError && PageAddress(frame) {
            FrameAllowed(before, old(flat), va, frame, MAP_ATTR);
            FullAttr();
          }
          return;
        }
        m := mem;
        TakeOne(old(free), free, start - Missing(mem, root, 4, va));
        Supply(current, r.level, va);
        SameUpperTrans(before, m, mem, root, userOnly);
      }
    }

    /** Make the table that a page was reported to be missing. */
    method Supply(current: Page, level: nat, va: Word)
      requires Valid() && userOnly && Idx(va, 4) == Index(0) && |free| > 0 && 1 <= level <= 3 && Missing(mem, root, 4, va) == level
      modifies this`mem, this`t, this`free
      ensures Valid() && free == old(free)[1..] && Missing(mem, root, 4, va) == level - 1 && SameUpper(old(mem), mem, root, userOnly)
    {
      hide Present, PageOf, Idx, PageAddress, Visits, Walk, Tree, Refines, Unused, Missing, SameUpper, Upper, Before, Grow, Entry, Spare;
      ghost var before := mem;
      var table := Allocate();
      ghost var m := mem;
      var ok;
      if level == 3 {
        ok := PdptMap(current, table, va);
      } else if level == 2 {
        ok := PdMap(table, va);
      } else {
        ok := PtMap(table, va);
      }
      assert ok == NoError;
      SameUpperTrans(before, m, mem, root, userOnly);
    }

    /** The page just mapped for user mode is granted what the tables that were there allow. */
    lemma FrameAllowed(before: Mem, flat0: map<Key, Word>, va: Word, frame: Page, attr: Word)
      requires Refines(before, root, flat0, userOnly)
      requires Refines(mem, root, flat0[KeyOf(va) := MakeEntry(frame, PTE_PRESENT | PTE_USER | attr)], userOnly)
      requires SameUpper(before, mem, root, userOnly) && Covered(userOnly, 4, Idx(va, 4)) && PageAddress(frame)
      ensures Granted(mem, root, 4, va) == Meet(Upper(before, root, 4, va), Perm(true, PermOf(attr).write))
      ensures OthersKeep(before, mem, flat0, va)
    {
      AttrPerm(attr);
      PresentAttr(attr);
      EntryFlags(frame, PTE_PRESENT | PTE_USER | attr);
      PresentFlags(frame, PTE_PRESENT | PTE_USER | attr);
      hide Idx, Refines, AllRestricted, Upper, Granted, FlatEntry, Covered, SameUpper, PermOf, MakeEntry;
      SameRestricts(before, mem, root, userOnly, FULL);
      Allowed(before, flat0, va, MakeEntry(frame, PTE_PRESENT | PTE_USER | attr), FULL);
    }

    /** A zeroed table made from untyped memory. */
    method Allocate() returns (table: Page)
      requires Valid() && |free| > 0
      modifies this`free, this`mem
      ensures Valid() && table == old(free)[0] && free == old(free)[1..] && Spare(table)
      ensures forall va: Word :: Covered(userOnly, 4, Idx(va, 4)) ==> Missing(mem, root, 4, va) == old(Missing(mem, root, 4, va))
      ensures SameUpper(old(mem), mem, root, userOnly)
    {
      hide Present, PageOf, Idx, PageAddress, Visits, Walk, Missing, Upper;
      ghost var m := mem;
      table := AllocTable();
      ZeroKeepsTree(m, root, t, userOnly, table);
      forall va: Word | Covered(userOnly, 4, Idx(va, 4))
        ensures Upper(mem, root, 4, va) == Upper(m, root, 4, va)
      {
        ZeroKeepsUpper(m, root, t, userOnly, table, root, 4, va);
      }
      forall va: Word | Covered(userOnly, 4, Idx(va, 4))
        ensures Missing(mem, root, 4, va) == Missing(m, root, 4, va) && Walk(mem, root, 4, va) == Walk(m, root, 4, va)
      {
        ZeroKeepsWalk(m, root, t, userOnly, table, root, 4, va);
      }
    }

    /** map_buffer: the pages of a buffer one after another, up to the first that is taken. */
    method MapBuffer(current: Page, frames: seq<Page>, va: Word) returns (r: Reply, ghost done: nat)
      requires Valid() && userOnly && |free| >= 3 * |frames|
      requires forall k: nat :: k < |frames| ==> Idx(NthPage(va, k), 4) == Index(0)
      modifies this`mem, this`t, this`flat, this`free
      ensures Valid() && done <= |frames| && flat == WithFrames(old(flat), frames, va, done)
      ensures r == NoError <==> done == |frames|
      ensures r != NoError ==> r == DeleteFirst && Present(FlatEntry(flat, NthPage(va, done)))
      ensures forall k: nat :: k < done ==> !Present(FlatEntry(WithFrames(old(flat), frames, va, k), NthPage(va, k)))
    {
      hide Present, PageOf, Idx, PageAddress, Visits, Walk, Tree, Refines, MakeEntry, Unused, FlatEntry, Missing;
      done := 0;
      for i := 0 to |frames|
        invariant Valid() && done == i && |free| >= 3 * (|frames| - i) && flat == WithFrames(old(flat), frames, va, i)
        invariant forall k: nat :: k < i ==> !Present(FlatEntry(WithFrames(old(flat), frames, va, k), NthPage(va, k)))
      {
        MissingBound(mem, root, NthPage(va, i));
        r := MapPage(current, frames[i], NthPage(va, i));
        if r != NoError {
          return;
        }
        done := i + 1;
      }
      r := NoError;
    }

    /** resolve_vm_mapping. */
    method ResolveVmMapping(va: Word) returns (phys: Word)
      requires Valid() && Covered(userOnly, 4, Idx(va, 4))
      ensures phys == Resolve(mem, root.addr, va) == Translate(FlatEntry(flat, va), va)
    {
      hide Present, PageOf, Idx, FlatEntry, InPage, Tree, Unused, Refines;
      ResolveIsFlat(mem, root, t, userOnly, flat, va);
      RootIsPage(mem, root, t, userOnly);
      phys := 0;
      ZeroEntry();
      var pml4e := Entry(mem, root, Idx(va, 4));
      if Present(pml4e) {
        var pdpe := Entry(mem, PageOf(pml4e), Idx(va, 3));
        if Present(pdpe) {
          var pde := Entry(mem, PageOf(pdpe), Idx(va, 2));
          if Present(pde) {
            var pte := Entry(mem, PageOf(pde), Idx(va, 1));
            if Present(pte) {
              phys := InPage(PageOf(pte), va);
            }
          }
        }
      }
    }

    /** Any sequence of add_vm_mapping calls. */
    method AddAll(calls: seq<Call>)
      requires Valid() && |free| >= 3 * |calls| && forall k :: 0 <= k < |calls| ==> Covered(userOnly, 4, Idx(calls[k].va, 4))
      modifies this`free, this`mem, this`t, this`flat
      ensures Valid() && flat == AfterCalls(old(flat), calls)
      ensures forall va: Word :: Covered(userOnly, 4, Idx(va, 4)) ==>
                Resolve(mem, root.addr, va) == Translate(FlatEntry(AfterCalls(old(flat), calls), va), va)
      ensures old(Open()) && (forall k :: 0 <= k < |calls| ==> PermOf(calls[k].flags).user) ==> Open() && AsFlat()
    {
      hide Present, PageOf, Idx, PageAddress, Walk, Tree, Refines, MakeEntry, Unused, FlatEntry, Missing, Covered, Resolve, Translate,
           SameUpper, PermOf, Upper, Granted, OthersKeep, AsFlat;
      ghost var before := mem;
      SameUpperRefl(mem, root, userOnly);
      for i := 0 to |calls|
        invariant Valid() && |free| >= 3 * (|calls| - i) && flat == AfterCalls(old(flat), calls[..i])
        invariant (forall k :: 0 <= k < |calls| ==> PermOf(calls[k].flags).user) ==> SameUpper(before, mem, root, userOnly)
      {
        ghost var m := mem;
        AddVmMapping(calls[i].va, calls[i].phys, calls[i].flags);
        if forall k :: 0 <= k < |calls| ==> PermOf(calls[k].flags).user {
          SameUpperTrans(before, m, mem, root, userOnly);
        }
        assert calls[..i + 1][..i] == calls[..i];
      }
      assert calls[..|calls|] == calls;
      forall va: Word | Covered(userOnly, 4, Idx(va, 4))
        ensures Resolve(mem, root.addr, va) == Translate(FlatEntry(flat, va), va)
      {
        ResolveIsFlat(mem, root, t, userOnly, flat, va);
      }
      if old(Open()) && SameUpper(before, mem, root, userOnly) {
        StaysOpen(before);
      }
    }

    /** No table on any way takes a permission away. */
    ghost predicate Open()
      reads this
    {
      forall va: Word {:trigger Upper(mem, root, 4, va)} :: Covered(userOnly, 4, Idx(va, 4)) ==> Upper(mem, root, 4, va) == FULL
    }

    /** Every mapped page is granted what its own entry allows. */
    ghost predicate AsFlat()
      reads this
    {
      forall va: Word {:trigger Granted(mem, root, 4, va)} :: Covered(userOnly, 4, Idx(va, 4)) && Present(FlatEntry(flat, va)) ==>
        Granted(mem, root, 4, va) == PermOf(FlatEntry(flat, va))
    }

    lemma StaysOpen(before: Mem)
      requires Valid() && SameUpper(before, mem, root, userOnly)
      requires forall va: Word {:trigger Upper(before, root, 4, va)} :: Covered(userOnly, 4, Idx(va, 4)) ==> Upper(before, root, 4, va) == FULL
      ensures Open() && AsFlat()
    {
      hide Present, Idx, PermOf, Upper, Granted, FlatEntry, Covered, Tree, Walk, Unused;
      forall va: Word | Covered(userOnly, 4, Idx(va, 4))
        ensures Upper(mem, root, 4, va) == FULL
        ensures Present(FlatEntry(flat, va)) ==> Granted(mem, root, 4, va) == PermOf(FlatEntry(flat, va))
      {
        assert Upper(mem, root, 4, va) == Upper(before, root, 4, va);
        assert Walk(mem, root, 4, va) == FlatEntry(flat, va);
        if Present(FlatEntry(flat, va)) {
          GrantedIs(mem, root, 4, va);
        }
      }
    }

    /** Write a table entry of page.c. */
    method Link(p: Page, level: nat, va: Word, table: Page)
      requires Valid() && 1 < level <= 4 && OnPath(p, level, va) && Covered(userOnly, 4, Idx(va, 4))
      requires !Present(Entry(mem, p, Idx(va, level))) && Spare(table)
      modifies this`mem, this`t
      ensures Valid() && t == Grow(old(t), p, Idx(va, level), table)
      ensures old(Missing(mem, root, 4, va)) == level - 1 && Missing(mem, root, 4, va) == level - 2
      ensures forall q: Page, j: Index :: q != table && (q != p || j != Idx(va, level)) ==> Entry(mem, q, j) == old(Entry(mem, q, j))
      ensures SameUpper(old(mem), mem, root, userOnly)
    {
      hide Present, PageOf, Idx, PageAddress, Visits, Walk, Refines, GoodFlags, PermOf, AllRestricted, SameUpper, Upper;
      ghost var before := mem;
      Descend(mem, root, t, userOnly, root, 4, va, p);
      FlagsGood(PTE_WRITE);
      LinkPerm();
      assert mem == mem[table := map[]];
      Install(p, level, va, table, PTE_PRESENT | PTE_WRITE | PTE_USER, mem);
      FullRestrictsNothing(before, mem, root, userOnly);
      Descend(mem, root, t, userOnly, root, 4, va, table);
      MissingBelowZero(mem, table, level - 1, va);
    }
  }
}
