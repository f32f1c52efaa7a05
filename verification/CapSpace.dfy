/** The capability space of the system over whole runs of copy, mint, retype, delete and revoke
    (kern/cdt.c, kern/obj/untyped.c). */
module CapSpace {
  import opened Arith
  import opened Caps
  import opened Cdt
  import opened CapList
  import opened Seqs
  import opened CapViews
  import opened CapSteps
  import opened CapMemory
  import opened UntypedMemory

  class Space {
    const slots: set<Cte>
    const hhdm: nat
    /** How many capabilities boot made other than untyped ones, and how many regions it gave out. */
    ghost const seeds: nat
    ghost const roots: nat
    ghost var rank: map<Cte, real>
    /** How each capability was handed out, and every capability that boot or a retype made. */
    ghost var path: map<Cte, seq<Cap>>
    ghost var born: seq<Cap>
    /** The history of memory, and the object of each untyped slot. */
    ghost var objs: seq<Obj>
    ghost var node: map<Cte, nat>

    constructor (slots: set<Cte>, hhdm: nat, ghost regions: seq<Obj>, ghost node: map<Cte, nat>, ghost seeds: seq<Cap>)
      requires BootView(hhdm, ViewOf(slots), regions, node, seeds)
      ensures this.slots == slots && this.hhdm == hhdm && born == seeds && objs == regions && Valid() && Sound()
      ensures this.seeds == |seeds| && this.roots == |regions|
    {
      hide Memory, Traced, Structured, BootView;
      this.slots, this.hhdm, this.seeds, roots := slots, hhdm, |seeds|, |regions|;
      rank := map c | c in slots :: 0.0;
      path := map c | c in slots :: [c.cap];
      born, objs, this.node := seeds, regions, node;
      new;
      BootIsStructured(hhdm, ViewOf(slots), rank, path, regions, node, seeds);
      BootIsSound(hhdm, ViewOf(slots), rank, regions, node, seeds);
    }

    function Look(): (v: View)
      reads slots
      ensures v.Keys == slots
    {
      ViewOf(slots)
    }

    /** Chains are in order and every typed capability has its history. */
    ghost predicate Valid()
      reads this, slots
    {
      Structured(Look(), rank) && Traced(Look(), path, born)
    }

    /** Memory is accounted for: untyped capabilities agree with its history, which goes together with the
        log of capabilities made.  A copy of an untyped one would end this. */
    ghost predicate Sound()
      reads this, slots
    {
      Memory(hhdm, Look(), rank, objs, node) && Logged(hhdm, born, objs, seeds, roots)
    }

    /** Every slot has the capability it had in `v`, or none. */
    ghost predicate OnlyEmptied(v: View)
      requires v.Keys == slots
      reads slots
    {
      forall s :: s in slots ==> s.cap == v[s].cap || s.cap == NULL_CAP
    }

    /** The heap after the pointer code has taken the first `r` nodes off the tail `all` of `p`,
        compared with the view `v` from before. */
    ghost predicate Severed(v: View, p: Cte?, all: seq<Cte>, r: nat)
      requires r <= |all| && Distinct(all) && v.Keys == slots
      requires forall j :: 0 <= j < |all| ==> all[j] in slots
      requires p != null ==> p in slots
      reads slots
    {
      && Tail(p, all, r)
      && (forall j :: 0 <= j < r ==> Blank(all[j]))
      && (forall j {:trigger all[j].cap} :: r <= j < |all| ==> all[j].cap == v[all[j]].cap)
      && (forall c :: c in slots && c !in After(all, 0) && c != p ==> v[c] == Node(c.cap, c.next, c.prev))
      && (p != null ==> p.cap == v[p].cap && p.prev == v[p].prev)
    }

    /** From the heap back to views: the block up to `r` is gone and the space is in order. */
    lemma SeenCut(v: View, p: Cte?, all: seq<Cte>, r: nat)
      requires v.Keys == slots && Structured(v, rank) && Distinct(all) && r <= |all|
      requires Hangs(v, p, all, 0) && p !in all && (p != null ==> p in slots)
      requires p != null && r < |all| ==> rank[p] < rank[all[r]]
      requires forall j :: 0 <= j < |all| ==> all[j] in slots
      requires Severed(v, p, all, r)
      ensures CutOff(v, Look(), p, all, r) && Structured(Look(), rank)
    {
      var v' := Look();
      SeenHangs(p, all, r);
      AfterWithin(all, 0);
      assert CutOff(v, v', p, all, r);
      CutKeepsStructure(v, v', rank, p, all, r);
    }

    lemma SeenHangs(p: Cte?, all: seq<Cte>, r: nat)
      requires r <= |all| && Distinct(all) && (p != null ==> p in slots)
      requires forall j :: 0 <= j < |all| ==> all[j] in slots
      requires Tail(p, all, r)
      ensures Hangs(Look(), p, all, r)
    {
    }

    /** What the pointer code needs to know about a tail, from the view. */
    lemma SeenTail(p: Cte?, all: seq<Cte>)
      requires Distinct(all) && Hangs(Look(), p, all, 0)
      ensures Tail(p, all, 0) && After(all, 0) <= slots
      ensures p !in all ==> p !in After(all, 0)
      ensures Stores(all, CapsOf(Look(), all), 0)
    {
      AfterWithin(all, 0);
      var v := Look();
      assert forall j :: 0 <= j < |all| ==> v[all[j]] == Node(all[j].cap, all[j].next, all[j].prev);
    }

    method SeverBehind(c: Cte, ghost v: View, ghost all: seq<Cte>) returns (ghost r: nat)
      requires v == Look() && Distinct(all) && c in slots && c !in After(all, 0) && After(all, 0) <= slots
      requires (forall j :: 0 <= j < |all| ==> all[j] in slots) && Tail(c, all, 0) && Stores(all, CapsOf(v, all), 0)
      modifies slots
      ensures r <= |all| && r == BlockEnd(v[c].cap, CapsOf(v, all), 0)
      ensures Severed(v, c, all, r)
    {
      hide BlockEnd, Distinct, Tail;
      ghost var caps := CapsOf(v, all);
      RevokeCap(c, all, caps, 0);
      r := BlockEnd(v[c].cap, caps, 0);
    }

    method SeverFrom(c: Cte, ghost p: Cte?, ghost v: View, ghost all: seq<Cte>) returns (ghost r: nat)
      requires v == Look() && Distinct(all) && p !in After(all, 0) && After(all, 0) <= slots
      requires (forall j :: 0 <= j < |all| ==> all[j] in slots) && Tail(p, all, 0) && Stores(all, CapsOf(v, all), 0)
      requires all != [] && all[0] == c && (p != null ==> p in slots)
      modifies slots
      ensures r <= |all| && r == BlockEnd(v[c].cap, CapsOf(v, all), 1)
      ensures Severed(v, p, all, r)
    {
      hide BlockEnd, Distinct, Tail;
      ghost var caps := CapsOf(v, all);
      DeleteCap(p, c, all, caps, 0);
      r := BlockEnd(v[c].cap, caps, 1);
    }

    method CutBehind(c: Cte, ghost v: View, ghost all: seq<Cte>) returns (ghost r: nat)
      requires v == Look() && Structured(v, rank) && Distinct(all) && c in slots && c !in all && Hangs(v, c, all, 0)
      requires forall j :: 0 <= j < |all| ==> all[j] in slots && c in rank && all[j] in rank && rank[c] < rank[all[j]]
      modifies slots
      ensures r <= |all| && r == BlockEnd(v[c].cap, CapsOf(v, all), 0)
      ensures CutOff(v, Look(), c, all, r) && Structured(Look(), rank)
    {
      hide CutOff, Hangs, Structured, Distinct, BlockEnd, Severed, Tail, Stores;
      SeenTail(c, all);
      r := SeverBehind(c, v, all);
      SeenCut(v, c, all, r);
    }

    method CutFrom(c: Cte, ghost p: Cte?, ghost v: View, ghost all: seq<Cte>) returns (ghost r: nat)
      requires v == Look() && Structured(v, rank) && Distinct(all) && p !in all && Hangs(v, p, all, 0)
      requires (p != null ==> p in slots) && all != [] && all[0] == c
      requires forall j :: 0 <= j < |all| ==> all[j] in slots && all[j] in rank && (p != null ==> p in rank && rank[p] < rank[all[j]])
      modifies slots
      ensures r <= |all| && r == BlockEnd(v[c].cap, CapsOf(v, all), 1)
      ensures CutOff(v, Look(), p, all, r) && Structured(Look(), rank)
    {
      hide CutOff, Hangs, Structured, Distinct, BlockEnd, Severed, Tail, Stores;
      SeenTail(p, all);
      r := SeverFrom(c, p, v, all);
      SeenCut(v, p, all, r);
    }

    /** What an emptied tail means for everything that is recorded. */
    lemma Settle(a: Snap, p: Cte?, all: seq<Cte>, r: nat)
      requires r <= |all| && Distinct(all) && a.v.Keys == slots <= rank.Keys && CutOff(a.v, Look(), p, all, r) && Hangs(a.v, p, all, 0)
      requires Now() == a.(v := Look())
      ensures Emptied(a, Now(), p, all, r) && (Traced(a.v, path, born) ==> Traced(Look(), path, born))
      ensures Memory(hhdm, a.v, rank, objs, node) && Logged(hhdm, born, objs, seeds, roots) ==> Sound()
      ensures OnlyEmptied(a.v)
    {
      hide CutOff, Hangs, Traced, Memory, Logged, Distinct, Emptied;
      CutSettles(a.v, p, all, r);
      EmptiedIs(a, Now(), p, all, r);
      CutKeepsCaps(a.v, Look(), p, all, r);
      SeenCaps(a.v);
    }

    /** Emptying slots keeps histories and memory. */
    lemma CutSettles(v: View, p: Cte?, all: seq<Cte>, r: nat)
      requires r <= |all| && Distinct(all) && v.Keys == slots <= rank.Keys && CutOff(v, Look(), p, all, r) && Hangs(v, p, all, 0)
      ensures Traced(v, path, born) ==> Traced(Look(), path, born)
      ensures Memory(hhdm, v, rank, objs, node) ==> Memory(hhdm, Look(), rank, objs, node)
    {
      hide Traced, Memory, CutOff, Hangs;
      CutKeepsCaps(v, Look(), p, all, r);
      if Traced(v, path, born) {
        FewerKeepTraces(v, Look(), path, born);
      }
      if Memory(hhdm, v, rank, objs, node) {
        FewerKeepMemory(hhdm, v, Look(), rank, rank, objs, node);
      }
    }

    /** revoke_cap empties the block right behind `c` that BlockEnd describes; nothing else changes. */
    method Revoke(c: Cte)
      requires Valid() && c in slots
      modifies slots
      ensures Valid() && (old(Sound()) ==> Sound())
      ensures Revoked(old(Now()), Now(), c) && OnlyEmptied(old(Look()))
    {
      assert slots <= rank.Keys;
      hide CutOff, Hangs, Structured, Behind, Traced, Memory, Logged, Distinct, BlockEnd, Emptied;
      ghost var a, v := Now(), Look();
      ghost var all := Behind(v, rank, c);
      BehindHangs(v, rank, c);
      ghost var r := CutBehind(c, v, all);
      Settle(a, c, all, r);
    }

    /** delete_cap empties the slot and the block that revoking it removes; nothing else changes. */
    method Delete(c: Cte)
      requires Valid() && c in slots
      modifies slots
      ensures Valid() && (old(Sound()) ==> Sound())
      ensures Deleted(old(Now()), Now(), c) && OnlyEmptied(old(Look()))
    {
      assert slots <= rank.Keys;
      hide CutOff, Hangs, Structured, Behind, Traced, Memory, Logged, Distinct, BlockEnd, Emptied;
      ghost var a, v := Now(), Look();
      ghost var all := From(v, rank, c);
      FromHangs(v, rank, c);
      ghost var r := CutFrom(c, c.prev, v, all);
      Settle(a, v[c].prev, all, r);
    }

    /** copy_cap, with its two refusals. */
    method Copy(dest: Cte, src: Cte, mask: Rights) returns (st: Status)
      requires Valid() && dest in slots && src in slots && src.cap.kind != Null
      modifies this, slots
      ensures Valid() && (old(Sound()) && old(src.cap.kind) != Untyped ==> Sound())
      ensures st == if old(dest.cap.kind) != Null then DeleteFirst
                    else if old(src.cap.kind) == Untyped && old(src.cap.badge) != 0 then RevokeFirst else Done
      ensures if st == Done then Handed(old(Now()), Now(), dest, src, Copied(old(src.cap), mask)) else Now() == old(Now())
    {
      hide Structured, Traced, HandedOut, Memory, Handed;
      if dest.cap.kind != Null {
        return DeleteFirst;
      }
      if src.cap.kind == Untyped && src.cap.badge != 0 {
        return RevokeFirst;
      }
      var cap := src.cap;
      if src.cap.kind != Untyped {
        cap := cap.(isOriginal := false);
      }
      cap := cap.(rights := src.cap.rights & mask);
      assert cap == Copied(src.cap, mask);
      CopyHandsOut(src.cap, mask);
      Place(dest, src, cap);
      return Done;
    }

    /** mint_cap, with its three refusals. */
    method Mint(dest: Cte, src: Cte, badge: nat, mask: Rights) returns (st: Status)
      requires Valid() && dest in slots && src in slots
      modifies this, slots
      ensures Valid() && (old(Sound()) ==> Sound())
      ensures st == if old(dest.cap.kind) != Null then DeleteFirst
                    else if !Mintable(old(src.cap)) then IllegalOperation else Done
      ensures if st == Done then Handed(old(Now()), Now(), dest, src, Minted(old(src.cap), badge, mask)) else Now() == old(Now())
    {
      hide Structured, Traced, HandedOut, Memory, Handed;
      if dest.cap.kind != Null {
        return DeleteFirst;
      }
      if src.cap.kind != Endpoint && src.cap.kind != Notification {
        return IllegalOperation;
      }
      if src.cap.badge != 0 {
        return IllegalOperation;
      }
      var cap := src.cap.(badge := badge);
      if src.cap.kind == Notification {
        cap := cap.(isOriginal := false);
      }
      cap := cap.(rights := src.cap.rights & mask);
      assert cap == Minted(src.cap, badge, mask);
      MintHandsOut(src.cap, badge, mask);
      Place(dest, src, cap);
      return Done;
    }

    /** Store a capability handed out from `after` in the empty slot `n` and link it in. */
    method Place(n: Cte, after: Cte, cap: Cap)
      requires Valid() && n in slots && after in slots && n.cap.kind == Null && after.cap.kind != Null
      requires HandedOut(after.cap, cap)
      modifies this`rank, this`path, slots
      ensures Valid() && Handed(old(Now()), Now(), n, after, cap) && (old(Sound()) && cap.kind != Untyped ==> Sound())
    {
      hide Structured, Traced, HandedOut, Memory, Inserted, Behind, Extended, RankBehind, IsChild;
      ghost var v := Look();
      Apart(n, after);
      HandedOutKind(after.cap, cap);
      Link(n, after, cap);
      InsertKeepsTraces(v, Look(), n, after, cap, path, born);
      InsertedBehind(v, Look(), rank, n, after, cap);
      ghost var rank' := rank[n := RankBehind(v, rank, after)];
      if Memory(hhdm, v, rank, objs, node) && cap.kind != Untyped {
        InsertKeepsMemory(v, n, after, cap, rank');
      }
      path := path[n := Extended(path, after, cap)];
      rank := rank';
    }

    lemma InsertKeepsMemory(v: View, n: Cte, after: Cte, cap: Cap, rank': map<Cte, real>)
      requires Memory(hhdm, v, rank, objs, node) && n in v && after in v && Inserted(v, Look(), n, after, cap) && cap.kind != Untyped
      requires v.Keys == slots <= rank.Keys && n in rank' && rank' == rank[n := rank'[n]] && n != after && v[after].next != n
      ensures Memory(hhdm, Look(), rank', objs, node)
    {
      hide Memory;
      FewerKeepMemory(hhdm, v, Look(), rank, rank', objs, node);
    }

    lemma HandedOutKind(src: Cap, c: Cap)
      requires HandedOut(src, c)
      ensures c.kind == src.kind
    {
      HandedOutAttenuates(src, c);
    }

    /** Write the capability and splice the slot in. */
    method Link(n: Cte, after: Cte, cap: Cap)
      requires n in slots && after in slots && (after.next != null ==> after.next in slots)
      requires n != after && n != after.next && after != after.next
      modifies slots
      ensures Inserted(old(Look()), Look(), n, after, cap)
    {
      n.cap := cap;
      InsertCteAfter(n, after);
    }

    /** An empty slot is not a neighbour of a live one. */
    lemma Apart(n: Cte, after: Cte)
      requires Valid() && n in slots && after in slots && n.cap.kind == Null && after.cap.kind != Null
      ensures n != after && n != after.next && after != after.next && n.next == null && n.prev == null
      ensures after.next != null ==> after.next in slots
      ensures slots <= rank.Keys
    {
      var v := Look();
      assert Local(v, rank, n) && Local(v, rank, after);
    }

    ghost function Now(): Snap
      reads this, slots
    {
      Snap(Look(), rank, path, born, objs, node)
    }

    /** The insertion step of create_objects: a fresh original capability behind its untyped. */
    method PlaceFresh(n: Cte, untyped: Cte, cap: Cap)
      requires Valid() && n in slots && untyped in slots && n.cap.kind == Null && untyped.cap.kind != Null
      requires cap.kind != Null
      modifies this`rank, this`path, this`born, slots
      ensures Valid() && n in rank && FreshBehind(old(Now()), Now(), n, untyped, cap)
    {
      hide Structured, Traced, Memory, Inserted, Behind, RankBehind, Relinked, ViewOf;
      ghost var v := Look();
      SeenCapsOf(v);
      Apart(n, untyped);
      Link(n, untyped, cap);
      InsertedCaps(v, Look(), n, untyped, cap);
      FreshKeepsTraces(v, Look(), n, untyped, cap, path, born);
      InsertedBehind(v, Look(), rank, n, untyped, cap);
      RankAbove(v, rank, untyped);
      path, born := path[n := [cap]], born + [cap];
      rank := rank[n := RankBehind(v, rank, untyped)];
    }

    lemma RankAbove(v: View, rank: map<Cte, real>, after: Cte)
      requires Structured(v, rank) && after in v
      ensures rank[after] < RankBehind(v, rank, after)
    {
      assert Local(v, rank, after);
    }

    /** create_objects: the slots `dests` receive original capabilities for consecutive objects from
        `usable` on, each linked right behind the untyped one. */
    method CreateObjects(slot: Cte, kind: ObjectType, sizeBits: nat, usable: nat, size: nat, dests: seq<Cte>)
      requires Valid() && slot in slots && slot.cap.kind == Untyped && kind != Null
      requires Distinct(dests) && forall j :: 0 <= j < |dests| ==> dests[j] in slots && dests[j].cap.kind == Null
      modifies this, slots
      ensures Valid() && objs == old(objs) && node == old(node)
      ensures Progress(old(Now()), Now(), slot, dests, Made(hhdm, kind, sizeBits, usable, size, |dests|), |dests|)
    {
      hide Structured, Traced, Progress, FreshBehind, PtrAt;
      ghost var a := Now();
      ghost var made := Made(hhdm, kind, sizeBits, usable, size, |dests|);
      ProgressStarts(a, slot, dests, made);
      for i := 0 to |dests|
        invariant Valid() && objs == old(objs) && node == old(node) && Progress(a, Now(), slot, dests, made, i)
      {
        ghost var b := Now();
        StillEmpty(a, b, slot, dests, made, i);
        assert b.v[slot].cap == slot.cap && b.v[dests[i]].cap == dests[i].cap;
        PlaceFresh(dests[i], slot, Fresh(kind, sizeBits, PtrAt(hhdm, usable, size, i)));
        ProgressStep(a, b, Now(), slot, dests, made, i);
      }
    }

    lemma ProgressStarts(a: Snap, slot: Cte, dests: seq<Cte>, made: seq<Cap>)
      requires Structured(a.v, a.rank) && slot in a.v && |dests| == |made| && forall j :: 0 <= j < |dests| ==> dests[j] in a.v
      ensures Progress(a, a, slot, dests, made, 0)
    {
      hide Structured, Behind;
    }

    lemma StillEmpty(a: Snap, b: Snap, slot: Cte, dests: seq<Cte>, made: seq<Cap>, i: nat)
      requires Structured(a.v, a.rank) && Structured(b.v, b.rank) && slot in a.v && i < |dests| == |made|
      requires Distinct(dests) && slot !in dests && Progress(a, b, slot, dests, made, i)
      ensures b.v.Keys == a.v.Keys && dests[i] in a.v && b.v[slot].cap == a.v[slot].cap && b.v[dests[i]].cap == a.v[dests[i]].cap
    {
      hide Structured, Behind;
      assert dests[i] !in dests[..i] && slot !in dests[..i];
    }

    /** The watermark of an untyped slot does not matter to chains and histories. */
    method RaiseMark(slot: Cte, mark: nat)
      requires Valid() && slot in slots && slot.cap.kind == Untyped
      modifies slot`cap
      ensures Valid() && slot.cap == old(slot.cap).(badge := mark)
      ensures slot in old(Look()) && Look() == old(Look())[slot := old(Look()[slot]).(cap := slot.cap)]
      ensures Behind(Look(), rank, slot) == old(Behind(Look(), rank, slot))
    {
      hide Structured, Traced;
      ghost var v := Look();
      slot.cap := slot.cap.(badge := mark);
      assert Look() == v[slot := v[slot].(cap := slot.cap)];
      NewMarkKeeps(v, Look(), rank, slot, path, born);
    }

    lemma NewMarkKeeps(v: View, v': View, rank: map<Cte, real>, slot: Cte, path: map<Cte, seq<Cap>>, born: seq<Cap>)
      requires Structured(v, rank) && Traced(v, path, born) && slot in v && v[slot].cap.kind == Untyped
      requires slot in v' && v' == v[slot := v[slot].(cap := v'[slot].cap)] && v'[slot].cap.kind == Untyped
      ensures Structured(v', rank) && Traced(v', path, born) && Behind(v', rank, slot) == Behind(v, rank, slot)
    {
      forall c | c in v'
        ensures Local(v', rank, c)
      {
        assert Local(v, rank, c);
      }
      forall c | c in v' && Typed(v'[c].cap.kind)
        ensures HasPath(v'[c].cap, c, path, born)
      {
        assert HasPath(v[c].cap, c, path, born);
      }
      BehindSame(v, v', rank, rank, slot);
    }

    /** The last part of untyped_retype: make the objects and raise the watermark. */
    method Fill(slot: Cte, kind: ObjectType, sizeBits: nat, dests: seq<Cte>, offset: nat, total: nat)
      requires Valid() && slot in slots && slot.cap.kind == Untyped && IsObject(kind)
      requires Distinct(dests) && forall j :: 0 <= j < |dests| ==> dests[j] in slots && dests[j].cap.kind == Null
      modifies this, slots
      ensures Valid() && objs == old(objs) && node == old(node)
      ensures var size := Pow2(ObjectBits(kind, sizeBits));
              Carves(old(Now()), Now(), slot, dests, Made(hhdm, kind, sizeBits, old(slot.cap.ptr) + offset, size, |dests|), offset + total)
      ensures slot in old(rank) && Reranked(old(Look()), old(rank), rank, slot, dests)
    {
      hide Structured, Traced, Pow2, Progress, Carves, PtrAt, Reranked;
      ghost var a, usable, size := Now(), slot.cap.ptr + offset, Pow2(ObjectBits(kind, sizeBits));
      CreateObjects(slot, kind, sizeBits, slot.cap.ptr + offset, Pow2(ObjectBits(kind, sizeBits)), dests);
      ghost var b, made := Now(), Made(hhdm, kind, sizeBits, usable, size, |dests|);
      FilledSlot(a, b, slot, dests, made);
      assert b.v[slot].cap == slot.cap;
      RaiseMark(slot, offset + total);
      AfterProgress(a, b, Now(), slot, dests, made, offset + total);
      RanksProgress(a, b, slot, dests, made);
    }

    /** untyped_retype: refused without any change, or the objects made, one per destination.  As long as
        memory is accounted for and the comparison decides rightly, it is refused exactly when the objects
        do not fit, and memory stays accounted for. */
    method Retype(slot: Cte, kind: ObjectType, sizeBits: nat, dests: seq<Cte>, found: Destination) returns (r: Outcome)
      requires Valid() && slot in slots && slot.cap.kind == Untyped && slot.cap.sizeBits < 64
      requires IsObject(kind) && ObjectBits(kind, sizeBits) < 64
      requires Distinct(dests) && forall j :: 0 <= j < |dests| ==> dests[j] in slots && dests[j].cap.kind == Null
      modifies this, slots
      ensures Valid()
      ensures var refused := Refuses(old(slot.cap.sizeBits), old(slot.cap.badge), Pow2(ObjectBits(kind, sizeBits)), |dests|);
              && (r.NotEnoughMemory? <==> refused)
              && (r == LookupFailed <==> !refused && found == NoSuchSlot)
              && (r == RangeError <==> !refused && found == TooSmall)
      ensures r != Success ==> Now() == old(Now())
      ensures r == Success ==>
                var k, c := ObjectBits(kind, sizeBits), old(slot.cap);
                Carves(old(Now()), Now(), slot, dests, Made(hhdm, kind, sizeBits, c.ptr + Offset(c.badge, Pow2(k)), Pow2(k), |dests|),
                       Offset(c.badge, Pow2(k)) + Taken(k, |dests|))
      ensures old(Sound()) && Decides(old(slot.cap.sizeBits), old(slot.cap.badge), ObjectBits(kind, sizeBits), |dests|) ==>
                Sound() && Accounted(old(objs), old(node), objs, slot, kind, ObjectBits(kind, sizeBits), |dests|, r)
    {
      hide Structured, Traced, Memory, Refuses, Decides, Offset, Taken, Pow2, Carves, NewMark, PtrAt, AfterRetype, Made;
      var k := ObjectBits(kind, sizeBits);
      ghost var careful := Sound() && Decides(slot.cap.sizeBits, slot.cap.badge, k, |dests|);
      if careful {
        RefusedIffFull(slot, kind, sizeBits, |dests|);
      }
      var available, offset, total := Measure(slot.cap.sizeBits, slot.cap.badge, k, |dests|);
      if available < total {
        return NotEnoughMemory(available);
      }
      if found == NoSuchSlot {
        return LookupFailed;
      }
      if found == TooSmall {
        return RangeError;
      }
      Commit(slot, kind, sizeBits, dests, offset, total, careful);
      return Success;
    }

    /** Make the objects and account for them. */
    method Commit(slot: Cte, kind: ObjectType, sizeBits: nat, dests: seq<Cte>, offset: nat, total: nat, ghost careful: bool)
      requires Valid() && slot in slots && slot.cap.kind == Untyped && IsObject(kind)
      requires Distinct(dests) && forall j :: 0 <= j < |dests| ==> dests[j] in slots && dests[j].cap.kind == Null
      requires careful ==>
                 && Sound() && slot in node && node[slot] < |objs|
                 && var k, o := ObjectBits(kind, sizeBits), objs[node[slot]];
                 && offset == AlignUp(o.mark, Pow2(k)) && offset + total == NewMark(o, k, |dests|) <= o.Size()
      modifies this, slots
      ensures Valid()
      ensures var size := Pow2(ObjectBits(kind, sizeBits));
              Carves(old(Now()), Now(), slot, dests, Made(hhdm, kind, sizeBits, old(slot.cap.ptr) + offset, size, |dests|), offset + total)
      ensures careful ==> Sound() && objs == AfterRetype(old(objs), old(node)[slot], kind, ObjectBits(kind, sizeBits), |dests|)
    {
      hide Structured, Traced, Memory, Pow2, Carves, NewMark, PtrAt, Reranked, Filled, AfterRetype, Made, AlignUp;
      ghost var a, usable, k := Now(), slot.cap.ptr + offset, ObjectBits(kind, sizeBits);
      Fill(slot, kind, sizeBits, dests, offset, total);
      if careful {
        ghost var b, made := Now(), Made(hhdm, kind, sizeBits, usable, Pow2(k), |dests|);
        CarvesMade(a, b, slot, dests, made, offset + total);
        CarvesFills(hhdm, a, b, slot, kind, sizeBits, dests, made, objs[node[slot]], offset + total, usable);
        Account(a, slot, kind, sizeBits, dests, made);
        CarvesForgets(a, b, Now(), slot, dests, made, offset + total);
      }
    }

    /** Under the guard the comparison is the right one. */
    lemma RefusedIffFull(slot: Cte, kind: ObjectType, sizeBits: nat, num: nat)
      requires Sound() && slot in slots && slot.cap.kind == Untyped && IsObject(kind) && ObjectBits(kind, sizeBits) < 64
      requires Decides(slot.cap.sizeBits, slot.cap.badge, ObjectBits(kind, sizeBits), num)
      ensures slot in node && node[slot] < |objs| && slot.cap.sizeBits < 64
      ensures var k, o := ObjectBits(kind, sizeBits), objs[node[slot]];
              && (Refuses(slot.cap.sizeBits, slot.cap.badge, Pow2(k), num) <==> NewMark(o, k, num) > o.Size())
              && (!Refuses(slot.cap.sizeBits, slot.cap.badge, Pow2(k), num) ==>
                    Offset(slot.cap.badge, Pow2(k)) == AlignUp(o.mark, Pow2(k))
                    && Offset(slot.cap.badge, Pow2(k)) + Taken(k, num) == NewMark(o, k, num))
    {
      hide Refuses, Decides, Offset, Taken, Pow2, InOrder, AlignUp, Later;
      assert CapsIn(Look())[slot] == slot.cap;
      var o, k := objs[node[slot]], ObjectBits(kind, sizeBits);
      assert Describes(hhdm, slot.cap, o);
      OneInOrder(objs, node[slot]);
      MeasuredExactly(o.bits, o.mark, k, num);
      NewMarkIs(o, k, num);
    }

    lemma FilledSlot(a: Snap, b: Snap, slot: Cte, dests: seq<Cte>, made: seq<Cap>)
      requires Structured(a.v, a.rank) && Structured(b.v, b.rank) && slot in a.v && |dests| == |made|
      requires slot !in dests && Progress(a, b, slot, dests, made, |dests|)
      ensures slot in b.v && b.v[slot].cap == a.v[slot].cap
    {
      hide Structured, Behind;
    }

    /** The new objects enter the history of memory. */
    ghost method Account(a: Snap, slot: Cte, kind: ObjectType, sizeBits: nat, dests: seq<Cte>, made: seq<Cap>)
      requires Memory(hhdm, a.v, a.rank, objs, node) && slot in a.v && a.v[slot].cap.kind == Untyped && slot !in dests
      requires Logged(hhdm, a.born, objs, seeds, roots) && born == a.born + made
      requires |made| == |dests| && forall j :: 0 <= j < |dests| ==> dests[j] in slots && Look()[dests[j]].cap == made[j]
      requires IsObject(kind) && a.v.Keys == slots
      requires slot in node && node[slot] < |objs|
      requires NewMark(objs[node[slot]], ObjectBits(kind, sizeBits), |dests|) <= objs[node[slot]].Size()
      requires Filled(hhdm, CapsIn(a.v), CapsIn(Look()), objs[node[slot]], slot, kind, sizeBits, dests)
      requires slot in a.rank && Reranked(a.v, a.rank, rank, slot, dests)
      modifies this`objs, this`node
      ensures Sound() && objs == AfterRetype(old(objs), old(node)[slot], kind, ObjectBits(kind, sizeBits), |dests|)
    {
      hide Memory, Filled, Reranked, NewMark, AfterRetype, Renode, Logged;
      AccountLog(a, slot, kind, sizeBits, dests, made);
      RetypeKeepsMemory(hhdm, a.v, Look(), a.rank, rank, objs, node, slot, kind, sizeBits, dests);
      var grown := AfterRetype(objs, node[slot], kind, ObjectBits(kind, sizeBits), |dests|);
      node, objs := Renode(node, dests, |objs|), grown;
    }

    lemma AccountLog(a: Snap, slot: Cte, kind: ObjectType, sizeBits: nat, dests: seq<Cte>, made: seq<Cap>)
      requires Memory(hhdm, a.v, a.rank, objs, node) && slot in a.v && a.v[slot].cap.kind == Untyped && slot !in dests
      requires Logged(hhdm, a.born, objs, seeds, roots) && born == a.born + made
      requires |made| == |dests| && forall j :: 0 <= j < |dests| ==> dests[j] in slots && Look()[dests[j]].cap == made[j]
      requires IsObject(kind) && slot in node && node[slot] < |objs|
      requires NewMark(objs[node[slot]], ObjectBits(kind, sizeBits), |dests|) <= objs[node[slot]].Size()
      requires Filled(hhdm, CapsIn(a.v), CapsIn(Look()), objs[node[slot]], slot, kind, sizeBits, dests)
      ensures Logged(hhdm, born, AfterRetype(objs, node[slot], kind, ObjectBits(kind, sizeBits), |dests|), seeds, roots)
    {
      hide Filled, NewMark, AfterRetype, Logged, InOrder, Later, Retyped;
      CarveIsRetyped(hhdm, CapsIn(a.v), CapsIn(Look()), objs, node, slot, kind, sizeBits, dests);
      RetypeKeepsLog(hhdm, CapsIn(a.v), CapsIn(Look()), a.born, made, objs, node, seeds, roots, slot, kind, sizeBits, dests);
    }

    /** One operation, as the relation Moves describes it. */
    method Step(op: Op)
      requires Valid() && Allowed(Look(), op)
      modifies this, slots
      ensures Valid() && Moves(hhdm, op, old(Now()), Now())
      ensures old(Sound()) && old(Harmless(Look(), op)) ==> Sound() && Grown(old(objs), objs)
    {
      hide Structured, Traced, Memory, Logged, Decides, Refuses, Offset, Taken, Carves, Made, Emptied, Inserted, Behind, From, BlockEnd, Accounted, Pow2;
      ghost var a := Now();
      SeenCapsOf(a.v);
      match op {
        case Copy(dest, src, mask) =>
          var _ := Copy(dest, src, mask);
        case Mint(dest, src, badge, mask) =>
          var _ := Mint(dest, src, badge, mask);
        case Retype(slot, kind, sizeBits, dests, found) =>
          StepRetype(slot, kind, sizeBits, dests, found);
        case Delete(c) =>
          Delete(c);
        case Revoke(c) =>
          Revoke(c);
      }
    }

    /** The capabilities in the view are those in the slots. */
    lemma SeenCapsOf(v: View)
      requires v == Look()
      ensures forall s :: s in slots ==> v[s] == Node(s.cap, s.next, s.prev)
    {
    }

    method StepRetype(slot: Cte, kind: ObjectType, sizeBits: nat, dests: seq<Cte>, found: Destination)
      requires Valid() && Allowed(Look(), Op.Retype(slot, kind, sizeBits, dests, found))
      modifies this, slots
      ensures Valid() && Moves(hhdm, Op.Retype(slot, kind, sizeBits, dests, found), old(Now()), Now())
      ensures old(Sound()) && old(Harmless(Look(), Op.Retype(slot, kind, sizeBits, dests, found))) ==> Sound() && Grown(old(objs), objs)
    {
      hide Structured, Traced, Memory, Logged, Decides, Refuses, Offset, Taken, Made, Behind, Pow2, AfterRetype, NewMark, Carves, PtrAt;
      ghost var careful := Sound() && Harmless(Look(), Op.Retype(slot, kind, sizeBits, dests, found));
      ghost var objs0, p := objs, if slot in node then node[slot] else 0;
      SeenCapsOf(Look());
      if careful {
        AlignedNode(slot);
      }
      var r := Retype(slot, kind, sizeBits, dests, found);
      if r == Success && careful {
        GrowsOnly(objs0, p, kind, ObjectBits(kind, sizeBits), |dests|);
      }
    }

    lemma AlignedNode(slot: Cte)
      requires Sound() && slot in slots && slot.cap.kind == Untyped
      ensures slot in node && node[slot] < |objs| && Aligned(objs[node[slot]].base, objs[node[slot]].Size())
    {
      assert CapsIn(Look())[slot] == slot.cap;
      AgreesAt(hhdm, CapsIn(Look()), objs, node, slot);
    }

    /** Any sequence of operations, leaving out those the kernel relies on not to be asked for.  Chains stay
        in order, and every typed capability ends a derivation path that starts at one boot made or one of
        the retypes, and is no more than that one; a slot that no operation fills keeps its capability while
        it is live.  A careful sequence also keeps memory accounted for, so that no two live capabilities
        clash. */
    method Run(ops: seq<Op>, careful: bool) returns (ghost trace: seq<Snap>)
      requires Valid()
      modifies this, slots
      ensures Valid() && IsRun(hhdm, ops, careful, trace) && trace[0] == old(Now()) && trace[|ops|] == Now()
      ensures old(born) <= born && forall i :: |old(born)| <= i < |born| ==> MadeBy(ops, born[i])
      ensures forall c :: c in slots && Typed(c.cap.kind) ==> HasPath(c.cap, c, path, born) && Attenuates(c.cap, path[c][0])
      ensures forall c :: c in slots && c.cap.kind != Null && (forall k :: 0 <= k < |ops| ==> !Names(ops[k], c)) ==>
                SameCap(old(c.cap), c.cap)
      ensures old(Sound()) && careful ==>
                Sound() && Grown(old(objs), objs) && seeds <= |born| && AllApart(hhdm, Look(), path, born, seeds)
                && forall i :: 0 <= i < |trace| ==> Settled(hhdm, trace[i])
    {
      hide Structured, Traced, Memory, Logged, Moves, Permitted, AllApart, Tracked;
      trace := [Now()];
      for i := 0 to |ops|
        invariant Valid() && |trace| == i + 1 && IsRun(hhdm, ops[..i], careful, trace) && trace[0] == old(Now()) && trace[i] == Now()
        invariant old(Sound()) && careful ==> Sound() && Grown(old(objs), objs) && forall k :: 0 <= k <= i ==> Settled(hhdm, trace[k])
      {
        ghost var a := Now();
        if Permitted(Look(), ops[i], careful) {
          PermittedIs(a.v, ops[i], careful);
          Step(ops[i]);
        }
        RunGrows(hhdm, ops, careful, trace, i, Now());
        trace := trace + [Now()];
      }
      assert ops[..|ops|] == ops;
      RunMakes(hhdm, ops, careful, trace);
      RunSpares(hhdm, ops, careful, trace);
      SeenTraces();
      SeenSpared(trace[0].v, ops);
      if Sound() {
        AllLiveApart(hhdm, Look(), rank, path, born, objs, node, seeds, roots);
      }
    }

    lemma SeenSpared(v: View, ops: seq<Op>)
      requires v.Keys == slots && Spared(ops, v, Look())
      ensures forall c :: c in slots && c.cap.kind != Null && (forall k :: 0 <= k < |ops| ==> !Names(ops[k], c)) ==> SameCap(v[c].cap, c.cap)
    {
      assert forall s :: s in slots ==> Look()[s] == Node(s.cap, s.next, s.prev);
    }

    lemma SeenTraces()
      requires Valid()
      ensures forall c :: c in slots && Typed(c.cap.kind) ==> HasPath(c.cap, c, path, born) && Attenuates(c.cap, path[c][0])
    {
      hide Attenuates;
      forall c | c in slots && Typed(c.cap.kind)
        ensures HasPath(c.cap, c, path, born) && Attenuates(c.cap, path[c][0])
      {
        assert Look()[c].cap == c.cap;
        PathAttenuates(path[c], |path[c]| - 1);
      }
    }

    lemma SeenCaps(v: View)
      requires v.Keys == slots && forall c :: c in v ==> Look()[c].cap == v[c].cap || Look()[c].cap == NULL_CAP
      ensures OnlyEmptied(v)
    {
      assert forall s :: s in slots ==> Look()[s] == Node(s.cap, s.next, s.prev);
    }
  }
}
