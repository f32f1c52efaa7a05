/** What user mode may do with a page: the permissions of all entries on the way to it
    (kern/arch/x86_64/mmu.c; section 4.6 of the Intel 64 and IA-32 Software Developer's Manual, volume 3A). */
module Perms {
  import opened Paging

  datatype Perm = Perm(user: bool, write: bool)

  const FULL := Perm(true, true)

  function Meet(a: Perm, b: Perm): Perm { Perm(a.user && b.user, a.write && b.write) }

  function PermOf(e: Word): Perm { Perm(e & 4 == 4, e & 2 == 2) }

  /** User mode may do with the page of `va` what every entry on the way allows. */
  function Granted(m: Mem, p: Page, level: nat, va: Word): Perm
    requires level >= 1
    decreases level
  {
    var e := Entry(m, p, Idx(va, level));
    if level == 1 then PermOf(e) else Meet(PermOf(e), Granted(m, PageOf(e), level - 1, va))
  }

  /** What the tables allow that are there already on the way to the last level. */
  function Upper(m: Mem, p: Page, level: nat, va: Word): Perm
    requires level >= 1
    decreases level
  {
    var e := Entry(m, p, Idx(va, level));
    if level == 1 || !Present(e) then FULL else Meet(PermOf(e), Upper(m, PageOf(e), level - 1, va))
  }

  /** A mapped page is granted what the tables and its own entry allow. */
  lemma {:induction false} GrantedIs(m: Mem, p: Page, level: nat, va: Word)
    requires level >= 1 && Present(Walk(m, p, level, va))
    ensures Granted(m, p, level, va) == Meet(Upper(m, p, level, va), PermOf(Walk(m, p, level, va)))
    decreases level
  {
    hide Present, PageOf, Idx, PermOf;
    ZeroEntry();
    if level > 1 {
      GrantedIs(m, PageOf(Entry(m, p, Idx(va, level))), level - 1, va);
    }
  }

  /** An entry has exactly the flags it is made with, outside the address bits. */
  lemma EntryFlags(page: Page, flags: Word)
    requires PageAddress(page)
    ensures MakeEntry(page, flags) & 0xFFF0_0000_0000_0FFF == flags & 0xFFF0_0000_0000_0FFF
    ensures PermOf(MakeEntry(page, flags)) == PermOf(flags)
  {
  }

  /** The flags of the tables that add_vm_mapping makes: writable, and for users if the page is. */
  lemma TablePerm(flags: Word)
    ensures PermOf(PTE_PRESENT | PTE_WRITE | (flags & PTE_USER)) == Perm(PermOf(flags).user, true)
  {
  }

  lemma LinkPerm()
    ensures PermOf(PTE_PRESENT | PTE_WRITE | PTE_USER) == FULL
  {
  }

  lemma AttrPerm(attr: Word)
    ensures PermOf(PTE_PRESENT | PTE_USER | attr) == Perm(true, PermOf(attr).write)
  {
  }

  lemma PresentAttr(attr: Word)
    ensures Present(PTE_PRESENT | PTE_USER | attr)
  {
  }

  // ----- What writes do to the upper tables -----

  lemma UpperStep(m: Mem, q: Page, level: nat, va: Word)
    requires level >= 1
    ensures var e := Entry(m, q, Idx(va, level));
            Upper(m, q, level, va) == if level == 1 || !Present(e) then FULL else Meet(PermOf(e), Upper(m, PageOf(e), level - 1, va))
  {
    hide Present, PageOf, Idx, PermOf;
  }

  lemma {:induction false} UpperFrame(m: Mem, m': Mem, q: Page, level: nat, va: Word, p: Page, i: Index)
    requires level >= 1 && !Visits(m, q, level, va, p, i)
    requires forall r: Page, j: Index :: r != p || j != i ==> Entry(m', r, j) == Entry(m, r, j)
    ensures Upper(m', q, level, va) == Upper(m, q, level, va)
    decreases level
  {
    hide Present, PageOf, Idx, PermOf;
    if level > 1 && Present(Entry(m, q, Idx(va, level))) {
      UpperFrame(m, m', PageOf(Entry(m, q, Idx(va, level))), level - 1, va, p, i);
    }
  }

  lemma ZeroUpper(m: Mem, p: Page, level: nat, va: Word)
    requires level >= 1 && forall j: Index :: Entry(m, p, j) == 0
    ensures Upper(m, p, level, va) == FULL
  {
    hide Present, PageOf, Idx, PermOf;
    ZeroEntry();
  }

  /** Hooking in a table with entry `e` restricts a walk at most to what `e` allows, and only one that
      leads to no page. */
  predicate Restricted(m: Mem, m': Mem, q: Page, level: nat, va: Word, limit: Perm)
    requires level >= 1
  {
    || Upper(m', q, level, va) == Upper(m, q, level, va)
    || (Upper(m', q, level, va) == Meet(Upper(m, q, level, va), limit) && !Present(Walk(m, q, level, va)))
  }

  lemma {:induction false} AttachUpper(m: Mem, root: Page, t: Shape, u: bool, p: Page, i: Index, e: Word, page: Page,
                                       q: Page, level: nat, va: Word)
    requires Attachable(m, root, t, u, p, i, e, page) && Covered(u, 4, Idx(va, 4))
    requires 1 <= level <= 4 && q in t.level && t.level[q] == level
    ensures Restricted(m, Attach(m, p, i, e, page), q, level, va, PermOf(e))
    decreases level
  {
    hide Present, PageOf, Idx, PageAddress, Attach, Tree, PermOf, Upper;
    AttachEntries(m, p, i, e, page);
    ZeroEntry();
    var m', j := Attach(m, p, i, e, page), Idx(va, level);
    UpperStep(m, q, level, va);
    UpperStep(m', q, level, va);
    if level > 1 {
      WalkStep(m, q, level, va);
      hide Walk;
      if q == p && j == i {
        ZeroUpper(m', page, level - 1, va);
      } else if Present(Entry(m, q, j)) {
        var x := Entry(m, q, j);
        Child(m, root, t, u, q, j);
        AttachUpper(m, root, t, u, p, i, e, page, PageOf(x), level - 1, va);
        MeetAssociates(PermOf(x), Upper(m, PageOf(x), level - 1, va), PermOf(e));
        hide Meet;
      }
    }
  }

  lemma MeetAssociates(a: Perm, b: Perm, c: Perm)
    ensures Meet(a, Meet(b, c)) == Meet(Meet(a, b), c)
  {
  }

  /** A last-level entry is none of the upper ones. */
  lemma {:induction false} LeafUpper(m: Mem, root: Page, t: Shape, u: bool, p: Page, i: Index, e: Word, q: Page, level: nat, va: Word)
    requires Tree(m, root, t, u) && p in t.level && t.level[p] == 1 && q in t.level && t.level[q] == level && Covered(u, 4, Idx(va, 4))
    ensures Upper(SetEntry(m, p, i, e), q, level, va) == Upper(m, q, level, va)
    decreases level
  {
    hide Present, PageOf, Idx, PageAddress, SetEntry, PermOf;
    SetEntries(m, p, i, e);
    if level > 1 && Present(Entry(m, q, Idx(va, level))) {
      Child(m, root, t, u, q, Idx(va, level));
      LeafUpper(m, root, t, u, p, i, e, PageOf(Entry(m, q, Idx(va, level))), level - 1, va);
    }
  }

  lemma {:induction false} ZeroKeepsUpper(m: Mem, root: Page, t: Shape, u: bool, page: Page, q: Page, level: nat, va: Word)
    requires Tree(m, root, t, u) && page !in t.level && q in t.level && t.level[q] == level >= 1 && Covered(u, 4, Idx(va, 4))
    ensures Upper(m[page := map[]], q, level, va) == Upper(m, q, level, va)
    decreases level
  {
    hide Present, PageOf, Idx, PageAddress, PermOf, Tree, Upper;
    var j := Idx(va, level);
    assert Entry(m[page := map[]], q, j) == Entry(m, q, j);
    UpperStep(m, q, level, va);
    UpperStep(m[page := map[]], q, level, va);
    if level > 1 && Present(Entry(m, q, j)) {
      Child(m, root, t, u, q, j);
      ZeroKeepsUpper(m, root, t, u, page, PageOf(Entry(m, q, j)), level - 1, va);
    }
  }

  // ----- All walks at once -----

  ghost predicate SameUpper(m: Mem, m': Mem, root: Page, u: bool)
  {
    forall va: Word {:trigger Upper(m', root, 4, va)} :: Covered(u, 4, Idx(va, 4)) ==> Upper(m', root, 4, va) == Upper(m, root, 4, va)
  }

  ghost predicate AllRestricted(m: Mem, m': Mem, root: Page, u: bool, limit: Perm)
  {
    forall va: Word {:trigger Restricted(m, m', root, 4, va, limit)} :: Covered(u, 4, Idx(va, 4)) ==> Restricted(m, m', root, 4, va, limit)
  }

  lemma SameUpperTrans(a: Mem, b: Mem, c: Mem, root: Page, u: bool)
    requires SameUpper(a, b, root, u) && SameUpper(b, c, root, u)
    ensures SameUpper(a, c, root, u)
  {
    hide Upper, Idx, Covered;
    forall va: Word | Covered(u, 4, Idx(va, 4))
      ensures Upper(c, root, 4, va) == Upper(a, root, 4, va)
    {
      assert Upper(c, root, 4, va) == Upper(b, root, 4, va);
      assert Upper(b, root, 4, va) == Upper(a, root, 4, va);
    }
  }

  /** A table that allows everything restricts nothing. */
  lemma FullRestrictsNothing(m: Mem, m': Mem, root: Page, u: bool)
    requires AllRestricted(m, m', root, u, FULL)
    ensures SameUpper(m, m', root, u)
  {
    hide Upper, Idx, Covered, Walk;
    forall va: Word | Covered(u, 4, Idx(va, 4))
      ensures Upper(m', root, 4, va) == Upper(m, root, 4, va)
    {
      assert Restricted(m, m', root, 4, va, FULL);
    }
  }

  lemma NotRestricted(m: Mem, root: Page, u: bool, limit: Perm)
    ensures AllRestricted(m, m, root, u, limit)
  {
  }

  /** Several tables with the same flags restrict no more than one. */
  lemma RestrictedTrans(a: Mem, b: Mem, c: Mem, root: Page, u: bool, limit: Perm)
    requires AllRestricted(a, b, root, u, limit) && AllRestricted(b, c, root, u, limit)
    requires forall va: Word {:trigger Walk(b, root, 4, va)} :: Covered(u, 4, Idx(va, 4)) ==> Walk(b, root, 4, va) == Walk(a, root, 4, va)
    ensures AllRestricted(a, c, root, u, limit)
  {
    hide Upper, Idx, Covered, Walk;
    forall va: Word | Covered(u, 4, Idx(va, 4))
      ensures Restricted(a, c, root, 4, va, limit)
    {
      assert Restricted(a, b, root, 4, va, limit) && Restricted(b, c, root, 4, va, limit);
      assert Walk(b, root, 4, va) == Walk(a, root, 4, va);
    }
  }

  lemma SameUpperRefl(m: Mem, root: Page, u: bool)
    ensures SameUpper(m, m, root, u)
  {
  }

  lemma SameRestricts(m: Mem, m': Mem, root: Page, u: bool, limit: Perm)
    requires SameUpper(m, m', root, u)
    ensures AllRestricted(m, m', root, u, limit)
  {
    hide Upper, Idx, Covered, Walk;
    forall va: Word | Covered(u, 4, Idx(va, 4))
      ensures Restricted(m, m', root, 4, va, limit)
    {
      assert Upper(m', root, 4, va) == Upper(m, root, 4, va);
    }
  }

  lemma RestrictedThenSame(a: Mem, b: Mem, c: Mem, root: Page, u: bool, limit: Perm)
    requires AllRestricted(a, b, root, u, limit) && SameUpper(b, c, root, u)
    ensures AllRestricted(a, c, root, u, limit)
  {
    hide Upper, Idx, Covered, Walk;
    forall va: Word | Covered(u, 4, Idx(va, 4))
      ensures Restricted(a, c, root, 4, va, limit)
    {
      assert Restricted(a, b, root, 4, va, limit) && Upper(c, root, 4, va) == Upper(b, root, 4, va);
    }
  }

  lemma PresentFlags(page: Page, flags: Word)
    requires PageAddress(page)
    ensures Present(MakeEntry(page, flags)) <==> Present(flags)
  {
  }
}
