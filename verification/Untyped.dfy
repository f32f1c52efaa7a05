/** Untyped memory: the watermark allocator whose objects may be untyped again
    (kern/obj/untyped.c, include/kern/size.h, kern/arch/x86_64/phy_mem.c). */
module UntypedMemory {
  import opened Arith
  import opened Caps

  // ----- The allocation history -----

  /** An object carved out of memory: 2^bits bytes at `base`; for an untyped object `mark` bytes have
      been handed out; `parent` is the object it was carved from, -1 for the regions of boot. */
  datatype Obj = Obj(base: nat, bits: nat, mark: nat, parent: int, kind: ObjectType)
  {
    function Size(): nat { Pow2(bits) }
    function End(): nat { base + Size() }
  }

  predicate Inside(a: Obj, b: Obj) { b.base <= a.base && a.End() <= b.End() }
  predicate Apart(a: Obj, b: Obj) { a.End() <= b.base || b.End() <= a.base }

  /** The history is in order: naturally aligned objects inside the used part of their untyped parents,
      children of one parent apart from each other, and the same for the regions of boot. */
  ghost predicate InOrder(objs: seq<Obj>)
  {
    && (forall i :: 0 <= i < |objs| ==> -1 <= objs[i].parent < i)
    && (forall i :: 0 <= i < |objs| ==> objs[i].mark <= objs[i].Size() && Aligned(objs[i].base, objs[i].Size()))
    && (forall i :: 0 <= i < |objs| && objs[i].parent >= 0 ==>
          var p := objs[objs[i].parent]; p.kind == Untyped && p.base <= objs[i].base && objs[i].End() <= p.base + p.mark)
    && (forall i, j :: 0 <= i < j < |objs| && objs[i].parent == objs[j].parent ==> Apart(objs[i], objs[j]))
  }

  /** `i` is `j` or one of the objects `j` was carved from. */
  ghost predicate Ancestor(objs: seq<Obj>, i: nat, j: nat)
    requires InOrder(objs) && i < |objs| && j < |objs|
    decreases j
  {
    i == j || (objs[j].parent >= 0 && Ancestor(objs, i, objs[j].parent))
  }

  /** To any nesting depth, an object lies inside everything it was carved from. */
  lemma {:induction false} DescendantInside(objs: seq<Obj>, i: nat, j: nat)
    requires InOrder(objs) && i < |objs| && j < |objs| && Ancestor(objs, i, j)
    ensures Inside(objs[j], objs[i]) && i <= j
    decreases j
  {
    if i != j {
      DescendantInside(objs, i, objs[j].parent);
    }
  }

  /** The child of `p` on the way down to its strict descendant `i`. */
  lemma {:induction false} BranchBelow(objs: seq<Obj>, p: nat, i: nat) returns (q: nat)
    requires InOrder(objs) && p < |objs| && i < |objs| && Ancestor(objs, p, i) && p != i
    ensures q < |objs| && objs[q].parent == p && Ancestor(objs, q, i)
    decreases i
  {
    if objs[i].parent == p {
      q := i;
    } else {
      q := BranchBelow(objs, p, objs[i].parent);
    }
  }

  lemma {:induction false} RootOf(objs: seq<Obj>, i: nat) returns (q: nat)
    requires InOrder(objs) && i < |objs|
    ensures q < |objs| && objs[q].parent == -1 && Ancestor(objs, q, i)
    decreases i
  {
    if objs[i].parent == -1 {
      q := i;
    } else {
      q := RootOf(objs, objs[i].parent);
    }
  }

  /** Two objects overlap only if one was carved, directly or not, from the other. */
  lemma {:induction false} ApartUnlessNested(objs: seq<Obj>, i: nat, j: nat)
    requires InOrder(objs) && i < j < |objs| && !Ancestor(objs, i, j)
    ensures Apart(objs[i], objs[j])
    decreases i + j
  {
    var p := objs[j].parent;
    if p == -1 {
      var q := RootOf(objs, i);
      DescendantInside(objs, q, i);
      assert q != j;
    } else if p < i {
      if Ancestor(objs, p, i) {
        var q := BranchBelow(objs, p, i);
        DescendantInside(objs, q, i);
        assert q != j;
      } else {
        ApartUnlessNested(objs, p, i);
        DescendantInside(objs, p, j);
      }
    } else {
      assert i != p;
      ApartUnlessNested(objs, i, p);
      DescendantInside(objs, p, j);
    }
  }

  // ----- One retype -----

  const W: nat := WORD_RANGE

  /** size_t arithmetic. */
  function Sub64(a: nat, b: nat): nat
    requires a < W && b < W
  {
    (a + W - b) % W
  }

  /** What untyped_retype computes before it looks at the destination: the first offset it would use,
      and whether it refuses for lack of memory. */
  function Offset(mark: nat, objSize: nat): nat
    requires objSize > 0
  {
    AlignUp(mark, objSize) % W
  }

  predicate Refuses(bits: nat, mark: nat, objSize: nat, num: nat)
    requires bits < 64 && objSize > 0
  {
    Pow2Word(bits);
    Sub64(Pow2(bits), Offset(mark, objSize)) < (objSize * num) % W
  }

  lemma WordsExact(size: nat, offset: nat, total: nat)
    requires offset <= size < W && total < W
    ensures Sub64(size, offset % W) < total % W <==> offset + total > size
  {
  }

  /** For objects no larger than the region, the kernel's unsigned arithmetic decides exactly whether the
      objects fit above the watermark. */
  lemma RefusesIffNoRoom(bits: nat, mark: nat, k: nat, num: nat)
    requires bits < 64 && mark <= Pow2(bits) && k <= bits && Pow2(k) * num < W
    ensures AlignUp(mark, Pow2(k)) <= Pow2(bits)
    ensures Refuses(bits, mark, Pow2(k), num) <==> AlignUp(mark, Pow2(k)) + Pow2(k) * num > Pow2(bits)
  {
    hide AlignUp, Sub64;
    Pow2Word(bits);
    MultipleAligned(1, Pow2(bits));
    AlignedDown(Pow2(bits), k, bits);
    AlignUpLeast(mark, Pow2(k));
    WordsExact(Pow2(bits), AlignUp(mark, Pow2(k)), Pow2(k) * num);
  }

  /** The guard under which the comparison decides rightly: no object larger than the region unless the
      region is unused, and a product that does not wrap or wraps to something still too large. */
  predicate Decides(bits: nat, mark: nat, k: nat, num: nat)
  {
    && (k <= bits || mark == 0)
    && (Pow2(k) * num < W || AlignUp(mark, Pow2(k)) + (Pow2(k) * num) % W > Pow2(bits))
  }

  /** The offset does not pass the end of the region, unless an object larger than it meets a used one. */
  lemma OffsetInside(bits: nat, mark: nat, k: nat)
    requires bits < 64 && mark <= Pow2(bits)
    ensures k <= bits || mark == 0 ==> AlignUp(mark, Pow2(k)) <= Pow2(bits)
    ensures k > bits && mark > 0 ==> AlignUp(mark, Pow2(k)) == Pow2(k) > Pow2(bits)
  {
    hide AlignUp, Pow2;
    AlignUpLeast(mark, Pow2(k));
    if k <= bits {
      MultipleAligned(1, Pow2(bits));
      AlignedDown(Pow2(bits), k, bits);
    } else {
      Pow2Less(bits, k);
      MultipleAligned(1, Pow2(k));
      MultipleAligned(0, Pow2(k));
      if mark > 0 {
        Multiples(AlignUp(mark, Pow2(k)), Pow2(k));
      }
    }
  }

  /** A wrapped product of 2^k stays 2^k below the range. */
  lemma WrappedProduct(k: nat, num: nat)
    requires k < 64
    ensures (Pow2(k) * num) % W <= W - Pow2(k)
  {
    hide Pow2;
    var a := Pow2(k);
    Pow2Word(k);
    WordMultiple(k);
    var r, q := (a * num) % W, (a * num) / W;
    assert a * num == W * q + r;
    var c := W / a;
    assert W == a * c;
    MulAssoc(a, c, q);
    assert r == a * (num - c * q) by { Distributes(a, num, c * q, r); }
    if r > W - a {
      Between(a, num - c * q, c);
    }
  }

  /** The comparison decides exactly whether the objects fit above the watermark if and only if the
      guard holds; a caller controls both sizes. */
  lemma RefusesRightIff(bits: nat, mark: nat, k: nat, num: nat)
    requires bits < 64 && k < 64 && mark <= Pow2(bits)
    ensures (Refuses(bits, mark, Pow2(k), num) <==> AlignUp(mark, Pow2(k)) + Pow2(k) * num > Pow2(bits))
            <==> Decides(bits, mark, k, num)
  {
    hide AlignUp, Pow2;
    Pow2Word(bits);
    Pow2Word(k);
    OffsetInside(bits, mark, k);
    var offset, product, size := AlignUp(mark, Pow2(k)), Pow2(k) * num, Pow2(bits);
    if k <= bits || mark == 0 {
      Exact(size, offset, product);
      if product < W {
        InRange(product);
      }
    } else {
      InRange(offset);
      WrappedProduct(k, num);
      NeverRefused(size, offset, product % W);
    }
  }

  lemma Exact(size: nat, offset: nat, product: nat)
    requires offset <= size < W
    ensures Sub64(size, offset % W) < product % W <==> offset + product % W > size
  {
  }

  lemma NeverRefused(size: nat, offset: nat, total: nat)
    requires size < offset < W && total <= W - offset
    ensures !(Sub64(size, offset) < total)
  {
    assert Sub64(size, offset) == size + W - offset;
  }

  /** A product that wraps: 2^60 endpoints of 16 bytes need no memory at all. */
  lemma WrappedIsNotRefused()
    ensures !Refuses(12, 16, Pow2(4), Pow2(60)) && AlignUp(16, Pow2(4)) + Pow2(4) * Pow2(60) > Pow2(12)
  {
    assert Pow2(4) == 16;
    assert Pow2(8) == 256;
    assert Pow2(12) == 4096;
    RefusesRightIff(12, 16, 4, Pow2(60));
    hide Pow2, Refuses, AlignUp;
    assert AlignUp(16, 16) == 16 by { SixteenAligned(); }
    assert Pow2(4) * Pow2(60) == W by { Product(); }
  }

  lemma SixteenAligned()
    ensures AlignUp(16, 16) == 16
  {
  }

  lemma Product()
    ensures Pow2(4) * Pow2(60) == W
  {
    hide Pow2;
    Pow2Adds(4, 60);
    Pow2Adds(1, 63);
    Pow2Of63();
    assert Pow2(1) == 2 by { TwoToOne(); }
  }

  lemma TwoToOne()
    ensures Pow2(1) == 2
  {
  }

  /** Where untyped_retype starts to hand out memory and how much it takes, in size_t arithmetic. */
  function Taken(k: nat, num: nat): nat { (Pow2(k) * num) % W }

  /** The sizes untyped_retype compares. */
  method Measure(bits: nat, mark: nat, k: nat, num: nat) returns (available: nat, offset: nat, total: nat)
    requires bits < 64 && k < 64
    ensures available < total <==> Refuses(bits, mark, Pow2(k), num)
    ensures offset == Offset(mark, Pow2(k)) && total == Taken(k, num)
  {
    Pow2Word(bits);
    var size, objSize := Pow2(bits), Pow2(k);
    total, offset := (objSize * num) % W, AlignUp(mark, objSize) % W;
    available := Sub64(size, offset);
  }

  /** Under the guard, a request that is let through is measured without wrap-around. */
  lemma MeasuredExactly(bits: nat, mark: nat, k: nat, num: nat)
    requires bits < 64 && k < 64 && mark <= Pow2(bits) && Decides(bits, mark, k, num)
    ensures Refuses(bits, mark, Pow2(k), num) <==> AlignUp(mark, Pow2(k)) + Pow2(k) * num > Pow2(bits)
    ensures !Refuses(bits, mark, Pow2(k), num) ==> Offset(mark, Pow2(k)) == AlignUp(mark, Pow2(k)) && Taken(k, num) == Pow2(k) * num
  {
    hide AlignUp, Sub64, Pow2, Refuses, Decides;
    Pow2Word(bits);
    RefusesRightIff(bits, mark, k, num);
    if !Refuses(bits, mark, Pow2(k), num) {
      InRange(AlignUp(mark, Pow2(k)));
      InRange(Pow2(k) * num);
    }
  }

  /** Without that bound it does not: a 2^13-byte object is "carved" out of a 2^12-byte region whose first
      bytes are used. */
  lemma OversizeIsNotRefused()
    ensures !Refuses(12, 16, Pow2(13), 1) && AlignUp(16, Pow2(13)) + Pow2(13) > Pow2(12)
  {
    assert Pow2(12) == 4096 && Pow2(13) == 8192 by { assert Pow2(4) == 16; assert Pow2(8) == 256; }
  }

  /** The i-th place of size `a` from `start` on. */
  function Place(start: nat, a: nat, i: nat): nat { start + a * i }

  lemma Places(start: nat, a: nat, i: nat, j: nat)
    requires i < j
    ensures Place(start, a, i) + a <= Place(start, a, j) && start <= Place(start, a, i)
  {
    MulMono(a, i + 1, j);
    MulMono(a, 0, i);
    assert a * (i + 1) == a * i + a;
  }

  lemma PlaceAligned(start: nat, a: nat, i: nat)
    requires a > 0 && Aligned(start, a)
    ensures Aligned(Place(start, a, i), a)
  {
    MultipleAligned(i, a);
    assert i * a == a * i;
    AlignedSum(start, a * i, a);
  }

  /** The `num` objects of 2^k bytes that a retype at the object `p` adds to the history. */
  function Carved(p: Obj, parent: nat, kind: ObjectType, k: nat, num: nat): (objs: seq<Obj>)
    ensures |objs| == num
    ensures forall i :: 0 <= i < num ==>
              objs[i] == Obj(Place(p.base + AlignUp(p.mark, Pow2(k)), Pow2(k), i), k, 0, parent, kind)
  {
    seq(num, (i: nat) => Obj(Place(p.base + AlignUp(p.mark, Pow2(k)), Pow2(k), i), k, 0, parent, kind))
  }

  function NewMark(p: Obj, k: nat, num: nat): nat
  {
    AlignUp(p.mark, Pow2(k)) + Pow2(k) * num
  }

  function AfterRetype(objs: seq<Obj>, p: nat, kind: ObjectType, k: nat, num: nat): (r: seq<Obj>)
    requires p < |objs|
    ensures |r| == |objs| + num
  {
    objs[p := objs[p].(mark := NewMark(objs[p], k, num))] + Carved(objs[p], p, kind, k, num)
  }

  /** Objects that fit are no larger than the region. */
  lemma ObjectsFit(p: Obj, k: nat, num: nat)
    requires NewMark(p, k, num) <= p.Size()
    ensures num > 0 ==> k <= p.bits
  {
    if num > 0 && k > p.bits {
      Pow2Mono(p.bits + 1, k);
      MulMono(Pow2(k), 1, num);
    }
  }

  /** The new objects are aligned, above the old watermark, below the new one, and apart. */
  lemma CarvedFit(p: Obj, parent: nat, kind: ObjectType, k: nat, num: nat)
    requires Aligned(p.base, p.Size()) && (num > 0 ==> k <= p.bits)
    ensures var objs := Carved(p, parent, kind, k, num);
            && (forall i :: 0 <= i < num ==> Aligned(objs[i].base, objs[i].Size()))
            && (forall i :: 0 <= i < num ==> p.base + p.mark <= objs[i].base && objs[i].End() <= p.base + NewMark(p, k, num))
            && (forall i, j :: 0 <= i < j < num ==> objs[i].End() <= objs[j].base)
    ensures NewMark(p, k, num) >= p.mark
  {
    hide AlignUp, Pow2, Place;
    var a := Pow2(k);
    var start := p.base + AlignUp(p.mark, a);
    AlignUpLeast(p.mark, a);
    if num > 0 {
      AlignedDown(p.base, k, p.bits);
      AlignedSum(p.base, AlignUp(p.mark, a), a);
    }
    MulMono(a, 0, num);
    forall i, j | 0 <= i < j <= num
      ensures Place(start, a, i) + a <= Place(start, a, j) && start <= Place(start, a, i)
    {
      Places(start, a, i, j);
    }
    forall i | 0 <= i < num
      ensures Aligned(Place(start, a, i), a)
    {
      PlaceAligned(start, a, i);
    }
    PlaceIs(start, a, num);
  }

  lemma PlaceIs(start: nat, a: nat, i: nat)
    ensures Place(start, a, i) == start + a * i
  {
  }

  /** `objs'` is the history `objs` with a higher watermark at `p` and the objects `made` added. */
  ghost predicate Extends(objs: seq<Obj>, objs': seq<Obj>, p: nat, made: seq<Obj>)
    requires p < |objs|
  {
    && |objs'| == |objs| + |made| && objs[p].kind == Untyped
    && (forall i :: 0 <= i < |objs| && i != p ==> objs'[i] == objs[i])
    && objs'[p] == objs[p].(mark := objs'[p].mark) && objs[p].mark <= objs'[p].mark <= objs[p].Size()
    && (forall i :: |objs| <= i < |objs'| ==> objs'[i] == made[i - |objs|])
    && (forall i :: 0 <= i < |made| ==> made[i].parent == p && made[i].mark == 0 && Aligned(made[i].base, made[i].Size()))
    && (forall i :: 0 <= i < |made| ==>
          objs[p].base + objs[p].mark <= made[i].base && made[i].End() <= objs[p].base + objs'[p].mark)
    && (forall i, j :: 0 <= i < j < |made| ==> made[i].End() <= made[j].base)
  }

  lemma ExtendsKeepsSiblings(objs: seq<Obj>, objs': seq<Obj>, p: nat, made: seq<Obj>, i: nat, j: nat)
    requires InOrder(objs) && p < |objs| && Extends(objs, objs', p, made)
    requires i < j < |objs'| && objs'[i].parent == objs'[j].parent
    ensures Apart(objs'[i], objs'[j])
  {
    hide Pow2;
    if j < |objs| {
      assert Apart(objs[i], objs[j]);
    } else if i < |objs| {
      assert objs[i].End() <= objs[p].base + objs[p].mark <= made[j - |objs|].base;
    } else {
      assert made[i - |objs|].End() <= made[j - |objs|].base;
    }
  }

  lemma ExtendsKeepsOrder(objs: seq<Obj>, objs': seq<Obj>, p: nat, made: seq<Obj>)
    requires InOrder(objs) && p < |objs| && Extends(objs, objs', p, made)
    ensures InOrder(objs')
  {
    hide Pow2, Apart;
    forall i, j | 0 <= i < j < |objs'| && objs'[i].parent == objs'[j].parent
      ensures Apart(objs'[i], objs'[j])
    {
      ExtendsKeepsSiblings(objs, objs', p, made, i, j);
    }
  }

  /** A retype that is not refused keeps the history in order. */
  lemma RetypeKeepsOrder(objs: seq<Obj>, p: nat, kind: ObjectType, k: nat, num: nat)
    requires InOrder(objs) && p < |objs| && objs[p].kind == Untyped
    requires NewMark(objs[p], k, num) <= objs[p].Size()
    ensures InOrder(AfterRetype(objs, p, kind, k, num))
  {
    hide NewMark, Pow2, Place;
    var made := Carved(objs[p], p, kind, k, num);
    ObjectsFit(objs[p], k, num);
    CarvedFit(objs[p], p, kind, k, num);
    ExtendsKeepsOrder(objs, AfterRetype(objs, p, kind, k, num), p, made);
  }

  // ----- The slots -----

  /** direct_map_of and physical_of, for a direct map that starts at `hhdm` above all physical memory. */
  function DirectMap(hhdm: nat, a: nat): nat { if a < hhdm then a + hhdm else a }
  function Physical(hhdm: nat, a: nat): nat { if a < hhdm then a else a - hhdm }

  /** The untyped capability `c` describes the untyped object `o`. */
  predicate Describes(hhdm: nat, c: Cap, o: Obj)
  {
    o.kind == Untyped && Physical(hhdm, c.ptr) == o.base && c.sizeBits == o.bits && c.badge == o.mark
  }

  /** Slots and history agree: every untyped slot describes its own object. */
  ghost predicate Agree<S>(hhdm: nat, slots: map<S, Cap>, objs: seq<Obj>, node: map<S, nat>)
  {
    && InOrder(objs)
    && (forall i :: 0 <= i < |objs| ==> objs[i].bits < 64 && objs[i].End() <= hhdm)
    && (forall s :: s in slots && slots[s].kind == Untyped ==>
          s in node && node[s] < |objs| && Describes(hhdm, slots[s], objs[node[s]]))
    && (forall s, t :: s in slots && t in slots && s != t && slots[s].kind == slots[t].kind == Untyped ==>
          node[s] != node[t])
  }

  function IndexOf<S(==)>(xs: seq<S>, x: S): (i: nat)
    requires x in xs
    ensures i < |xs| && xs[i] == x
  {
    if xs[0] == x then 0 else 1 + IndexOf(xs[1..], x)
  }

  /** The object of each slot after a retype that appended its objects at position `n`. */
  ghost function Renode<S>(node: map<S, nat>, dests: seq<S>, n: nat): map<S, nat>
  {
    map s | s in node.Keys + (set d | d in dests) :: if s in dests then n + IndexOf(dests, s) else node[s]
  }

  /** The slots after a retype. */
  ghost predicate Retyped<S>(hhdm: nat, slots: map<S, Cap>, slots': map<S, Cap>, objs: seq<Obj>, node: map<S, nat>,
                             slot: S, kind: ObjectType, sizeBits: nat, dests: seq<S>)
    requires slot in slots && slot in node && node[slot] < |objs| && IsObject(kind)
  {
    var k := ObjectBits(kind, sizeBits);
    var objs' := AfterRetype(objs, node[slot], kind, k, |dests|);
    && slots'.Keys == slots.Keys + (set d | d in dests)
    && (forall s :: s in slots && s !in dests && s != slot ==> slots'[s] == slots[s])
    && slots'[slot] == slots[slot].(badge := NewMark(objs[node[slot]], k, |dests|))
    && (forall i :: 0 <= i < |dests| ==>
          && slots'[dests[i]] == Fresh(kind, sizeBits, slots'[dests[i]].ptr)
          && Physical(hhdm, slots'[dests[i]].ptr) == objs'[|objs| + i].base)
  }

  /** Old slots keep their objects, new slots get new ones, each its own. */
  lemma RenodeInjective<S>(node: map<S, nat>, dests: seq<S>, n: nat, s: S, t: S)
    requires s != t && (s in dests || s in node) && (t in dests || t in node)
    requires s !in dests ==> node[s] < n
    requires t !in dests ==> node[t] < n
    requires s !in dests && t !in dests ==> node[s] != node[t]
    ensures Renode(node, dests, n)[s] != Renode(node, dests, n)[t]
  {
  }

  lemma RetypeKeepsAgreement<S>(hhdm: nat, slots: map<S, Cap>, slots': map<S, Cap>, objs: seq<Obj>, node: map<S, nat>,
                                slot: S, kind: ObjectType, sizeBits: nat, dests: seq<S>)
    requires Agree(hhdm, slots, objs, node) && slot in slots && slots[slot].kind == Untyped && slot !in dests
    requires IsObject(kind)
    requires NewMark(objs[node[slot]], ObjectBits(kind, sizeBits), |dests|) <= objs[node[slot]].Size()
    requires Retyped(hhdm, slots, slots', objs, node, slot, kind, sizeBits, dests)
    ensures Agree(hhdm, slots', AfterRetype(objs, node[slot], kind, ObjectBits(kind, sizeBits), |dests|),
                  Renode(node, dests, |objs|))
  {
    hide NewMark, Pow2, Place, Physical, AfterRetype, InOrder, IndexOf, Describes, Renode;
    var p, k := node[slot], ObjectBits(kind, sizeBits);
    var objs', node' := AfterRetype(objs, p, kind, k, |dests|), Renode(node, dests, |objs|);
    DescribedUntyped(hhdm, slots[slot], objs[p]);
    RetypeKeepsOrder(objs, p, kind, k, |dests|);
    ObjectsFit(objs[p], k, |dests|);
    forall i | 0 <= i < |objs'|
      ensures objs'[i].bits < 64 && objs'[i].End() <= hhdm
    {
      RetypeAt(objs, p, kind, k, |dests|, i);
    }
    forall s | s in slots' && slots'[s].kind == Untyped
      ensures s in node' && node'[s] < |objs'| && Describes(hhdm, slots'[s], objs'[node'[s]])
    {
      RetypedDescribes(hhdm, slots, slots', objs, node, slot, kind, sizeBits, dests, s);
    }
    forall s, t | s in slots' && t in slots' && s != t && slots'[s].kind == slots'[t].kind == Untyped
      ensures node'[s] != node'[t]
    {
      RenodeInjective(node, dests, |objs|, s, t);
    }
  }

  lemma DescribedUntyped(hhdm: nat, c: Cap, o: Obj)
    requires Describes(hhdm, c, o)
    ensures o.kind == Untyped
  {
  }

  lemma RetypedDescribes<S>(hhdm: nat, slots: map<S, Cap>, slots': map<S, Cap>, objs: seq<Obj>, node: map<S, nat>,
                            slot: S, kind: ObjectType, sizeBits: nat, dests: seq<S>, s: S)
    requires Agree(hhdm, slots, objs, node) && slot in slots && slots[slot].kind == Untyped && slot !in dests
    requires IsObject(kind) && s in slots' && slots'[s].kind == Untyped
    requires NewMark(objs[node[slot]], ObjectBits(kind, sizeBits), |dests|) <= objs[node[slot]].Size()
    requires Retyped(hhdm, slots, slots', objs, node, slot, kind, sizeBits, dests)
    ensures var objs', node' := AfterRetype(objs, node[slot], kind, ObjectBits(kind, sizeBits), |dests|), Renode(node, dests, |objs|);
            s in node' && node'[s] < |objs'| && Describes(hhdm, slots'[s], objs'[node'[s]])
  {
    hide NewMark, Pow2, Place, Physical, AfterRetype, InOrder, IndexOf;
    var p, k := node[slot], ObjectBits(kind, sizeBits);
    if s in dests {
      RetypeAt(objs, p, kind, k, |dests|, |objs| + IndexOf(dests, s));
    } else {
      RetypeAt(objs, p, kind, k, |dests|, node[s]);
    }
  }

  lemma RetypeAt(objs: seq<Obj>, p: nat, kind: ObjectType, k: nat, num: nat, i: nat)
    requires InOrder(objs) && p < |objs| && NewMark(objs[p], k, num) <= objs[p].Size()
    requires i < |objs| + num
    ensures var objs' := AfterRetype(objs, p, kind, k, num);
            && |objs'| == |objs| + num
            && (i < |objs| && i != p ==> objs'[i] == objs[i])
            && (i == p ==> objs'[i] == objs[i].(mark := NewMark(objs[p], k, num)))
            && (i >= |objs| ==> objs'[i].kind == kind && objs'[i].bits == k && objs'[i].mark == 0 && objs'[i].End() <= objs[p].End())
  {
    hide Pow2, AlignUp, NewMark;
    ObjectsFit(objs[p], k, num);
    CarvedFit(objs[p], p, kind, k, num);
    assert i >= |objs| ==> AfterRetype(objs, p, kind, k, num)[i] == Carved(objs[p], p, kind, k, num)[i - |objs|];
  }

  /** The pointer create_objects stores for the i-th object from `usable` on. */
  function PtrAt(hhdm: nat, usable: nat, size: nat, i: nat): nat
  {
    DirectMap(hhdm, Place(usable, size, i))
  }

  /** The slots as untyped_retype leaves them: the watermark raised, the destinations filled. */
  ghost predicate Filled<S>(hhdm: nat, before: map<S, Cap>, slots: map<S, Cap>, o: Obj, slot: S, kind: ObjectType, sizeBits: nat,
                            dests: seq<S>)
    requires slot in before && IsObject(kind)
  {
    var k := ObjectBits(kind, sizeBits);
    && slots.Keys == before.Keys + (set d | d in dests)
    && (forall s :: s in before && s !in dests && s != slot ==> slots[s] == before[s])
    && slots[slot] == before[slot].(badge := NewMark(o, k, |dests|))
    && (forall i :: 0 <= i < |dests| ==>
          slots[dests[i]] == Fresh(kind, sizeBits, PtrAt(hhdm, before[slot].ptr + AlignUp(o.mark, Pow2(k)), Pow2(k), i)))
  }

  /** What create_objects wrote is what the history says. */
  lemma CarveIsRetyped<S>(hhdm: nat, before: map<S, Cap>, slots: map<S, Cap>, objs: seq<Obj>, node: map<S, nat>,
                          slot: S, kind: ObjectType, sizeBits: nat, dests: seq<S>)
    requires Agree(hhdm, before, objs, node) && slot in before && before[slot].kind == Untyped && slot !in dests
    requires IsObject(kind)
    requires NewMark(objs[node[slot]], ObjectBits(kind, sizeBits), |dests|) <= objs[node[slot]].Size()
    requires Filled(hhdm, before, slots, objs[node[slot]], slot, kind, sizeBits, dests)
    ensures Retyped(hhdm, before, slots, objs, node, slot, kind, sizeBits, dests)
  {
    hide AlignUp, Pow2, InOrder, AfterRetype, PtrAt, NewMark;
    var k, p := ObjectBits(kind, sizeBits), node[slot];
    forall i | 0 <= i < |dests|
      ensures Physical(hhdm, slots[dests[i]].ptr) == AfterRetype(objs, p, kind, k, |dests|)[|objs| + i].base
    {
      Mapped(hhdm, before[slot], objs, p, kind, k, |dests|, i);
    }
  }

  /** The pointers create_objects stores denote the objects of the history. */
  lemma Mapped(hhdm: nat, c: Cap, objs: seq<Obj>, p: nat, kind: ObjectType, k: nat, num: nat, i: nat)
    requires InOrder(objs) && p < |objs| && Describes(hhdm, c, objs[p]) && objs[p].End() <= hhdm
    requires NewMark(objs[p], k, num) <= objs[p].Size() && i < num
    ensures Physical(hhdm, PtrAt(hhdm, c.ptr + AlignUp(objs[p].mark, Pow2(k)), Pow2(k), i))
            == AfterRetype(objs, p, kind, k, num)[|objs| + i].base
  {
    hide Pow2, AlignUp, NewMark, InOrder;
    var o := objs[p];
    assert Aligned(o.base, o.Size()) by { OneInOrder(objs, p); }
    ObjectsFit(o, k, num);
    CarvedFit(o, p, kind, k, num);
    var made := Carved(o, p, kind, k, num);
    assert AfterRetype(objs, p, kind, k, num)[|objs| + i] == made[i] && made[i].End() <= o.base + o.Size();
  }

  lemma NewMarkIs(o: Obj, k: nat, num: nat)
    ensures NewMark(o, k, num) == AlignUp(o.mark, Pow2(k)) + Pow2(k) * num
  {
  }

  lemma OneInOrder(objs: seq<Obj>, p: nat)
    requires InOrder(objs) && p < |objs|
    ensures Aligned(objs[p].base, objs[p].Size()) && objs[p].mark <= objs[p].Size()
  {
  }

  lemma AgreesAt<S>(hhdm: nat, slots: map<S, Cap>, objs: seq<Obj>, node: map<S, nat>, s: S)
    requires Agree(hhdm, slots, objs, node) && s in slots && slots[s].kind == Untyped
    ensures s in node && node[s] < |objs| && objs[node[s]].bits == slots[s].sizeBits
    ensures Aligned(objs[node[s]].base, objs[node[s]].Size())
  {
  }

  /** A retype keeps every object where it is; only watermarks move, and only up. */
  lemma GrowsOnly(objs: seq<Obj>, p: nat, kind: ObjectType, k: nat, num: nat)
    requires p < |objs| && Aligned(objs[p].base, objs[p].Size()) && NewMark(objs[p], k, num) <= objs[p].Size()
    ensures var objs' := AfterRetype(objs, p, kind, k, num);
            forall i :: 0 <= i < |objs| ==> objs'[i] == objs[i].(mark := objs'[i].mark) && objs'[i].mark >= objs[i].mark
  {
    hide Pow2, NewMark;
    ObjectsFit(objs[p], k, num);
    CarvedFit(objs[p], p, kind, k, num);
  }
}
