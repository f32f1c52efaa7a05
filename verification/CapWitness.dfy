/** A run in which revoking an untyped capability deletes one outside its region, and one in which a copied
    untyped capability makes two objects of the same memory (kern/cdt.c, kern/obj/untyped.c). */
module CapWitness {
  import opened Arith
  import opened Caps
  import opened Cdt
  import opened CapList
  import opened Seqs
  import opened CapViews
  import opened UntypedMemory
  import opened CapSteps
  import opened CapMemory
  import opened CapSpace

  lemma Sizes()
    ensures Pow2(4) == 16 && Pow2(9) == 512 && Pow2(12) == 4096 && Pow2(13) == 8192
  {
    assert Pow2(4) == 16;
    assert Pow2(8) == 256;
  }

  /** What the three retypes compute: nothing wraps and everything fits. */
  lemma Fits(bits: nat, mark: nat, k: nat)
    requires ((k == 4 || k == 9) && mark == 0 && 12 <= bits < 64) || (k == 12 && mark == 16 && 13 <= bits < 64)
    ensures !Refuses(bits, mark, Pow2(k), 1) && Decides(bits, mark, k, 1)
    ensures Offset(mark, Pow2(k)) == (if mark == 0 then 0 else 4096) && Taken(k, 1) == Pow2(k)
  {
    Sizes();
    Pow2Mono(if k == 12 then 13 else 12, bits);
    Pow2Word(bits);
  }

  /** The effect of making one object. */
  lemma MakesOne(hhdm: nat, a: Snap, b: Snap, slot: Cte, dest: Cte, kind: ObjectType, sizeBits: nat)
    requires var op := Op.Retype(slot, kind, sizeBits, [dest], Found);
             Structured(a.v, a.rank) && Structured(b.v, b.rank) && Allowed(a.v, op) && Moves(hhdm, op, a, b)
    requires var c := a.v[slot].cap; !Refuses(c.sizeBits, c.badge, Pow2(ObjectBits(kind, sizeBits)), 1)
    ensures var c, k := a.v[slot].cap, ObjectBits(kind, sizeBits);
            OneMade(a, b, slot, dest, Fresh(kind, sizeBits, DirectMap(hhdm, c.ptr + Offset(c.badge, Pow2(k)))),
                    Offset(c.badge, Pow2(k)) + Taken(k, 1))
  {
    hide Structured, Behind, Refuses, Offset, Taken, Pow2, Carves, Deleted, Revoked, Handed, OneMade;
    var c, k := a.v[slot].cap, ObjectBits(kind, sizeBits);
    CarvesOne(a, b, slot, dest, Made(hhdm, kind, sizeBits, c.ptr + Offset(c.badge, Pow2(k)), Pow2(k), 1), Offset(c.badge, Pow2(k)) + Taken(k, 1));
  }

  /** The new capability is in `dest`, right behind `slot`, whose watermark is `mark`. */
  ghost predicate OneMade(a: Snap, b: Snap, slot: Cte, dest: Cte, cap: Cap, mark: nat)
    requires Structured(a.v, a.rank) && Structured(b.v, b.rank) && slot in a.v
  {
    && slot in b.v && dest in b.v && b.v.Keys == a.v.Keys
    && b.v[slot].cap == a.v[slot].cap.(badge := mark) && b.v[dest].cap == cap
    && (forall s :: s in a.v && s != slot && s != dest ==> b.v[s].cap == a.v[s].cap)
    && Behind(b.v, b.rank, slot) == [dest] + Behind(a.v, a.rank, slot)
  }

  lemma CarvesOne(a: Snap, b: Snap, slot: Cte, dest: Cte, made: seq<Cap>, mark: nat)
    requires Structured(a.v, a.rank) && Structured(b.v, b.rank) && slot in a.v && |made| == 1
    requires Carves(a, b, slot, [dest], made, mark)
    ensures OneMade(a, b, slot, dest, made[0], mark)
  {
    hide Structured, Behind;
    assert [dest][0] == dest;
    assert Reverse([dest]) == [dest];
  }

  /** What follows the first slot behind `c`. */
  lemma NextBehind(v: View, rank: map<Cte, real>, c: Cte, d: Cte, rest: seq<Cte>)
    requires Structured(v, rank) && c in v && Behind(v, rank, c) == [d] + rest
    ensures d in v && Behind(v, rank, d) == rest
  {
    assert Local(v, rank, c);
    assert Behind(v, rank, c)[0] == d && Behind(v, rank, c)[1..] == rest;
  }

  lemma NothingBehind(v: View, rank: map<Cte, real>, c: Cte)
    requires Structured(v, rank) && c in v && v[c].next == null
    ensures Behind(v, rank, c) == []
  {
  }

  /** Addresses in the direct map of the first two pages of a region do not wrap. */
  predicate Unwrapped(hhdm: nat, r: Cap)
  {
    if r.ptr < hhdm then r.ptr + 8192 <= hhdm && r.ptr + hhdm + 8192 < WORD_RANGE else r.ptr + 8192 < WORD_RANGE
  }

  /** Where the three objects come to lie. */
  lemma Places(hhdm: nat, r: Cap)
    requires Unwrapped(hhdm, r)
    ensures var page := DirectMap(hhdm, r.ptr + 4096);
            4096 <= page && page + 4096 < WORD_RANGE && DirectMap(hhdm, r.ptr) == page - 4096 && DirectMap(hhdm, page) == page
  {
  }

  /** Four different slots, the last three of which are empty; the first one is an unused, unlinked region
      of at least two pages. */
  predicate Ready(v: View, root: Cte, e1: Cte, c: Cte, e2: Cte)
  {
    && root in v && e1 in v && c in v && e2 in v
    && root != e1 && root != c && root != e2 && e1 != c && e1 != e2 && c != e2
    && v[root].cap.kind == Untyped && v[root].cap.badge == 0 && 13 <= v[root].cap.sizeBits < 64 && v[root].next == null
    && v[e1].cap.kind == v[c].cap.kind == v[e2].cap.kind == Null
  }

  /** An endpoint and a page of untyped memory `c` are made from `root`, and then an endpoint from `c`. */
  ghost predicate ThreeMade(hhdm: nat, a: Snap, b: Snap, root: Cte, e1: Cte, c: Cte, e2: Cte)
    requires Structured(b.v, b.rank) && root in a.v
  {
    var page := DirectMap(hhdm, a.v[root].cap.ptr + 4096);
    && c in b.v && e1 in b.v && e2 in b.v && Behind(b.v, b.rank, c) == [e2, e1] && page >= 4096
    && b.v[c].cap == Fresh(Untyped, 12, page).(badge := 16)
    && b.v[e2].cap == Fresh(Endpoint, 0, page) && b.v[e1].cap == Fresh(Endpoint, 0, page - 4096)
  }

  /** The run of children of `c` is `e2` alone, but the block that revoking `c` removes is both. */
  lemma Overruns(hhdm: nat, a: Snap, b: Snap, root: Cte, e1: Cte, c: Cte, e2: Cte)
    requires Structured(b.v, b.rank) && root in a.v && Unwrapped(hhdm, a.v[root].cap) && ThreeMade(hhdm, a, b, root, e1, c, e2)
    ensures c in b.v && e1 in b.v && e2 in b.v && Behind(b.v, b.rank, c) == [e2, e1] && b.v[e1].cap.kind == Endpoint
    ensures var caps := CapsOf(b.v, Behind(b.v, b.rank, c));
            |caps| == 2 && RunEnd(b.v[c].cap, caps, 0) == 1 && BlockEnd(b.v[c].cap, caps, 0) == 2 && !IsChild(b.v[e1].cap, b.v[c].cap)
  {
    hide Structured, Behind, BlockEnd, RunEnd, IsChild;
    Places(hhdm, a.v[root].cap);
    assert CapsOf(b.v, Behind(b.v, b.rank, c)) == [b.v[e2].cap, b.v[e1].cap];
    BlockOfTwo(b.v[c].cap, b.v[e2].cap, b.v[e1].cap);
  }

  lemma BlockOfTwo(c: Cap, inside: Cap, outside: Cap)
    requires c.isOriginal && c.kind == Untyped && c.sizeBits == 12 && 4096 <= c.ptr && c.ptr + 4096 < WORD_RANGE
    requires inside == Fresh(Endpoint, 0, c.ptr) && outside == Fresh(Endpoint, 0, c.ptr - 4096)
    ensures RunEnd(c, [inside, outside], 0) == 1 && BlockEnd(c, [inside, outside], 0) == 2 && !IsChild(outside, c)
  {
    Sizes();
    var caps := [inside, outside];
    assert IsChild(inside, c) && !IsChild(outside, c) && IsChild(outside, inside);
    assert BlockEnd(inside, caps, 1) == 2;
    assert RunEnd(c, caps, 1) == 1;
  }

  /** It can be reached from any sound space that has an unused region of two pages: `e1` is deleted
      although it is no child of the revoked `c`. */
  method Overrun(space: Space, root: Cte, e1: Cte, c: Cte, e2: Cte) returns (ghost before: Snap)
    requires space.Valid() && space.Sound() && Ready(space.Look(), root, e1, c, e2)
    modifies space, space.slots
    ensures space.Valid() && space.Sound() && Overran(space.hhdm, before, space.Now(), c, e1)
  {
    hide Overran, Structured, Moves, Traced, Memory, Logged, Behind, BlockEnd, RunEnd, IsChild, Unwrapped, ThreeMade, ViewOf, CapsOf, Grown;
    ghost var s0 := space.Now();
    RootRoom(space, root);
    MakeAll(space, root, e1, c, e2);
    before := space.Now();
    Overruns(space.hhdm, s0, before, root, e1, c, e2);
    space.Step(Op.Revoke(c));
    RevokesBoth(space.hhdm, before, space.Now(), e1, c, e2);
  }

  /** Revoking `c` has deleted the endpoint capability in `e`, which is no child of it. */
  ghost predicate Overran(hhdm: nat, a: Snap, b: Snap, c: Cte, e: Cte)
  {
    && Structured(a.v, a.rank) && Structured(b.v, b.rank) && c in a.v && e in a.v && e in b.v
    && Moves(hhdm, Op.Revoke(c), a, b)
    && a.v[e].cap.kind == Endpoint && !IsChild(a.v[e].cap, a.v[c].cap) && b.v[e].cap == NULL_CAP
  }

  /** The three retypes. */
  method MakeAll(space: Space, root: Cte, e1: Cte, c: Cte, e2: Cte)
    requires space.Valid() && space.Sound() && Ready(space.Look(), root, e1, c, e2) && Unwrapped(space.hhdm, space.Look()[root].cap)
    modifies space, space.slots
    ensures space.Valid() && space.Sound()
    ensures root in old(space.Now()).v && ThreeMade(space.hhdm, old(space.Now()), space.Now(), root, e1, c, e2)
  {
    hide Structured, Moves, Traced, Memory, Logged, Refuses, Offset, Taken, Decides, DirectMap, Behind, ThreeMade, Unwrapped, ViewOf;
    ghost var s0 := space.Now();
    MakeOne(space, root, e1, Endpoint, 0);
    ghost var s1 := space.Now();
    MakeOne(space, root, c, Untyped, 12);
    ghost var s2 := space.Now();
    MakeOne(space, c, e2, Endpoint, 0);
    Three(space.hhdm, s0, s1, s2, space.Now(), root, e1, c, e2);
  }

  /** Make one object, of 16 bytes from an unused region or a page from one that has given 16 bytes. */
  method MakeOne(space: Space, slot: Cte, dest: Cte, kind: ObjectType, sizeBits: nat)
    requires space.Valid() && space.Sound() && slot != dest && slot in space.Look() && dest in space.Look()
    requires space.Look()[slot].cap.kind == Untyped && space.Look()[dest].cap.kind == Null
    requires var c := space.Look()[slot].cap; 
             if kind == Endpoint then c.badge == 0 && 12 <= c.sizeBits < 64
             else kind == Untyped && sizeBits == 12 && c.badge == 16 && 13 <= c.sizeBits < 64
    modifies space, space.slots
    ensures space.Valid() && space.Sound()
    ensures var a := old(space.Now());
            slot in a.v && OneMade(a, space.Now(), slot, dest,
                                   Fresh(kind, sizeBits, DirectMap(space.hhdm, a.v[slot].cap.ptr + if kind == Endpoint then 0 else 4096)),
                                   if kind == Endpoint then 16 else 8192)
  {
    hide Structured, Moves, Traced, Memory, Logged, Refuses, Offset, Taken, Decides, DirectMap, Behind, OneMade;
    ghost var a := space.Now();
    Fits(a.v[slot].cap.sizeBits, a.v[slot].cap.badge, ObjectBits(kind, sizeBits));
    Sizes();
    hide Pow2;
    space.Step(Op.Retype(slot, kind, sizeBits, [dest], Found));
    MakesOne(space.hhdm, a, space.Now(), slot, dest, kind, sizeBits);
  }

  lemma Three(hhdm: nat, s0: Snap, s1: Snap, s2: Snap, s3: Snap, root: Cte, e1: Cte, c: Cte, e2: Cte)
    requires Structured(s0.v, s0.rank) && Structured(s1.v, s1.rank) && Structured(s2.v, s2.rank) && Structured(s3.v, s3.rank)
    requires Ready(s0.v, root, e1, c, e2) && root in s1.v && c in s2.v && Unwrapped(hhdm, s0.v[root].cap)
    requires OneMade(s0, s1, root, e1, Fresh(Endpoint, 0, DirectMap(hhdm, s0.v[root].cap.ptr)), 16)
    requires OneMade(s1, s2, root, c, Fresh(Untyped, 12, DirectMap(hhdm, s1.v[root].cap.ptr + 4096)), 8192)
    requires OneMade(s2, s3, c, e2, Fresh(Endpoint, 0, DirectMap(hhdm, s2.v[c].cap.ptr)), 16)
    ensures ThreeMade(hhdm, s0, s3, root, e1, c, e2)
  {
    hide Structured, Behind, DirectMap, Unwrapped;
    Places(hhdm, s0.v[root].cap);
    NothingBehind(s0.v, s0.rank, root);
    NextBehind(s2.v, s2.rank, root, c, [e1]);
  }

  /** A region that the history of memory accounts for does not wrap. */
  lemma RootRoom(space: Space, root: Cte)
    requires space.Sound() && root in space.Look() && space.Look()[root].cap.kind == Untyped && 13 <= space.Look()[root].cap.sizeBits
    ensures Unwrapped(space.hhdm, space.Look()[root].cap)
  {
    assert CapsIn(space.Look())[root] == root.cap;
    var o := space.objs[space.node[root]];
    assert Describes(space.hhdm, root.cap, o);
    Sizes();
    Pow2Mono(13, o.bits);
    hide InOrder, Later, Pow2;
  }

  lemma RevokesBoth(hhdm: nat, a: Snap, b: Snap, e1: Cte, c: Cte, e2: Cte)
    requires Structured(a.v, a.rank) && Structured(b.v, b.rank) && c in a.v && Moves(hhdm, Op.Revoke(c), a, b)
    requires Behind(a.v, a.rank, c) == [e2, e1]
    requires var caps := CapsOf(a.v, Behind(a.v, a.rank, c)); BlockEnd(a.v[c].cap, caps, 0) == 2
    requires e1 in a.v && a.v[e1].cap.kind == Endpoint && !IsChild(a.v[e1].cap, a.v[c].cap)
    ensures Overran(hhdm, a, b, c, e1)
  {
    hide Structured, Behind, BlockEnd, Hangs, IsChild;
    assert [e2, e1][1] == e1;
  }

  // ----- A copied untyped capability -----

  /** No account of memory has two untyped capabilities for the same unused region; so copying an untyped
      capability, which is let through while it is unused, always ends the account. */
  lemma CopiedUntypedEndsAccount(hhdm: nat, a: Snap, b: Snap, op: Op, objs: seq<Obj>, node: map<Cte, nat>)
    requires Structured(a.v, a.rank) && Structured(b.v, b.rank) && op.Copy? && Allowed(a.v, op) && Moves(hhdm, op, a, b) && b != a
    requires a.v[op.src].cap.kind == Untyped
    ensures !Memory(hhdm, b.v, b.rank, objs, node)
  {
    var c, d := op.src, op.dest;
    var x := a.v[c].cap;
    assert b.v[d].cap == Copied(x, op.mask) && b.v[c].cap == x && x.badge == 0 && c != d by { CopyStored(hhdm, a, b, op); }
    hide Structured, Moves, Memory;
    SameRegionTwice(hhdm, b.v, b.rank, objs, node, c, d);
  }

  lemma CopyStored(hhdm: nat, a: Snap, b: Snap, op: Op)
    requires Structured(a.v, a.rank) && Structured(b.v, b.rank) && op.Copy? && Allowed(a.v, op) && Moves(hhdm, op, a, b) && b != a
    requires a.v[op.src].cap.kind == Untyped
    ensures op.src in b.v && op.dest in b.v && op.src != op.dest && a.v[op.src].cap.badge == 0
    ensures b.v[op.dest].cap == Copied(a.v[op.src].cap, op.mask) && b.v[op.src].cap == a.v[op.src].cap
  {
    hide Structured, Behind;
  }

  lemma SameRegionTwice(hhdm: nat, v: View, rank: map<Cte, real>, objs: seq<Obj>, node: map<Cte, nat>, c: Cte, d: Cte)
    requires c in v && d in v && c != d && v[c].cap.kind == v[d].cap.kind == Untyped
    requires v[c].cap.ptr == v[d].cap.ptr && v[c].cap.sizeBits == v[d].cap.sizeBits && v[c].cap.badge == v[d].cap.badge == 0
    ensures !Memory(hhdm, v, rank, objs, node)
  {
    if Memory(hhdm, v, rank, objs, node) {
      assert CapsIn(v)[c] == v[c].cap && CapsIn(v)[d] == v[d].cap;
      var i, j := node[c], node[d];
      assert Describes(hhdm, v[c].cap, objs[i]) && Describes(hhdm, v[d].cap, objs[j]);
      assert objs[i].Size() >= 1;
      hide Pow2, Later;
      ApartOrBelow(objs, i, j);
    }
  }

  /** Two objects of different kinds that overlap. */
  predicate Clash(hhdm: nat, c: Cap, d: Cap)
  {
    IsObject(c.kind) && IsObject(d.kind) && c.kind != d.kind && !CapsApart(hhdm, c, d)
  }

  /** An unused untyped capability is copied, and an endpoint and a thread are made from the two: they share
      their memory. */
  method Overlap(space: Space, root: Cte, twin: Cte, e: Cte, t: Cte)
    requires space.Valid() && Ready(space.Look(), root, twin, e, t)
    modifies space, space.slots
    ensures space.Valid() && e in space.Look() && t in space.Look()
    ensures Typed(space.Look()[e].cap.kind) && Typed(space.Look()[t].cap.kind) && Clash(space.hhdm, space.Look()[e].cap, space.Look()[t].cap)
  {
    hide Structured, Moves, Traced, Memory, Logged, Behind, Refuses, Offset, Taken, Decides, DirectMap, ViewOf, OneMade, Handed, Clash;
    ghost var s0, r := space.Now(), space.Look()[root].cap;
    space.Step(Op.Copy(twin, root, RIGHTS_ALL));
    ghost var s1 := space.Now();
    CopyOfUnused(space.hhdm, s0, s1, twin, root);
    Sizes();
    Fits(r.sizeBits, 0, 4);
    Fits(r.sizeBits, 0, 9);
    hide Pow2;
    space.Step(Op.Retype(root, Endpoint, 0, [e], Found));
    ghost var s2 := space.Now();
    MakesOne(space.hhdm, s1, s2, root, e, Endpoint, 0);
    MakingSpares(s1, s2, root, e, twin, t);
    space.Step(Op.Retype(twin, Tcb, 0, [t], Found));
    MakesOne(space.hhdm, s2, space.Now(), twin, t, Tcb, 0);
    OverlapEnds(space.hhdm, s1, s2, space.Now(), root, twin, e, t);
  }

  lemma CopyOfUnused(hhdm: nat, a: Snap, b: Snap, dest: Cte, src: Cte)
    requires Structured(a.v, a.rank) && Structured(b.v, b.rank) && Allowed(a.v, Op.Copy(dest, src, RIGHTS_ALL))
    requires Moves(hhdm, Op.Copy(dest, src, RIGHTS_ALL), a, b) && a.v[dest].cap.kind == Null && a.v[src].cap.kind == Untyped && a.v[src].cap.badge == 0
    ensures b.v.Keys == a.v.Keys && b.v[dest].cap == a.v[src].cap.(rights := b.v[dest].cap.rights)
    ensures forall s :: s in a.v && s != dest ==> b.v[s].cap == a.v[s].cap
  {
    hide Structured, Behind;
  }

  lemma MakingSpares(a: Snap, b: Snap, slot: Cte, dest: Cte, x: Cte, y: Cte)
    requires Structured(a.v, a.rank) && Structured(b.v, b.rank) && slot in a.v && x in a.v && y in a.v
    requires exists cap, mark :: OneMade(a, b, slot, dest, cap, mark)
    requires x != slot && x != dest && y != slot && y != dest
    ensures x in b.v && y in b.v && b.v[x].cap == a.v[x].cap && b.v[y].cap == a.v[y].cap
  {
    hide Structured, Behind;
  }

  lemma OverlapEnds(hhdm: nat, s1: Snap, s2: Snap, s3: Snap, root: Cte, twin: Cte, e: Cte, t: Cte)
    requires Structured(s1.v, s1.rank) && Structured(s2.v, s2.rank) && Structured(s3.v, s3.rank)
    requires root in s1.v && twin in s1.v && twin in s2.v && e != twin && e != t && s2.v[twin].cap.ptr == s1.v[root].cap.ptr
    requires OneMade(s1, s2, root, e, Fresh(Endpoint, 0, DirectMap(hhdm, s1.v[root].cap.ptr + 0)), 16)
    requires OneMade(s2, s3, twin, t, Fresh(Tcb, 0, DirectMap(hhdm, s2.v[twin].cap.ptr + 0)), 512)
    ensures e in s3.v && t in s3.v && s3.v[e].cap.kind == Endpoint && s3.v[t].cap.kind == Tcb && Clash(hhdm, s3.v[e].cap, s3.v[t].cap)
  {
    hide Structured, Behind;
    assert Pow2(4) >= 1 && Pow2(9) >= 1;
    hide Pow2;
  }
}
