/** The capability derivation list (kern/cdt.c). */
module Cdt {
  import opened Arith
  import opened Caps

  // ----- Pure layer: what revocation removes -----

  predicate UntypedContains(untyped: Cap, c: Cap)
  {
    untyped.ptr <= c.ptr < (untyped.ptr + Pow2(untyped.sizeBits)) % WORD_RANGE
  }

  /** is_child_cap with a non-null first argument. */
  predicate IsChild(c: Cap, parent: Cap)
  {
    && parent.isOriginal
    && if parent.kind == Untyped then UntypedContains(parent, c)
       else c.kind == parent.kind
            && (parent.kind == Endpoint ==> parent.badge == c.badge || parent.badge == 0)
  }

  /** revoke_cap(c), standing before position `e` of the capabilities `caps` that follow `c`:
      while the capability at `e` is a child it is deleted, and deleting it first revokes it.
      The result is the position after the last capability deleted. */
  function BlockEnd(c: Cap, caps: seq<Cap>, e: nat): (r: nat)
    requires e <= |caps|
    ensures e <= r <= |caps|
    ensures r < |caps| ==> !IsChild(caps[r], c)
    decreases |caps| - e
  {
    if e == |caps| || !IsChild(caps[e], c) then e
    else BlockEnd(c, caps, BlockEnd(caps[e], caps, e + 1))
  }

  /** The end of the longest run of direct children of `c` that starts at `e`. */
  function RunEnd(c: Cap, caps: seq<Cap>, e: nat): (r: nat)
    requires e <= |caps|
    ensures e <= r <= |caps|
    ensures forall i :: e <= i < r ==> IsChild(caps[i], c)
    ensures r < |caps| ==> !IsChild(caps[r], c)
    decreases |caps| - e
  {
    if e == |caps| || !IsChild(caps[e], c) then e else RunEnd(c, caps, e + 1)
  }

  lemma ChildTransitive(c: Cap, d: Cap, e: Cap)
    requires c.kind != Untyped && IsChild(d, c) && IsChild(e, d)
    ensures IsChild(e, c)
  {
  }

  /** Nested deletes never overrun below a capability that is not untyped. */
  lemma {:induction false} BlockHoldsChildren(c: Cap, caps: seq<Cap>, e: nat)
    requires e <= |caps| && c.kind != Untyped
    ensures forall i :: e <= i < BlockEnd(c, caps, e) ==> IsChild(caps[i], c)
    decreases |caps| - e
  {
    if e < |caps| && IsChild(caps[e], c) {
      var m := BlockEnd(caps[e], caps, e + 1);
      BlockHoldsChildren(caps[e], caps, e + 1);
      BlockHoldsChildren(c, caps, m);
      forall i | e < i < m
        ensures IsChild(caps[i], c)
      {
        ChildTransitive(c, caps[e], caps[i]);
      }
    }
  }

  /** A run of children is determined by where it stops. */
  lemma {:induction false} RunEndUnique(c: Cap, caps: seq<Cap>, e: nat, r: nat)
    requires e <= r <= |caps| && (forall i :: e <= i < r ==> IsChild(caps[i], c))
    requires r < |caps| ==> !IsChild(caps[r], c)
    ensures RunEnd(c, caps, e) == r
    decreases r - e
  {
    if e < r {
      RunEndUnique(c, caps, e + 1, r);
    }
  }

  /** Revoking a typed capability removes exactly the longest run of its children. */
  lemma RevokeRemovesExactlyTheRun(c: Cap, caps: seq<Cap>, e: nat)
    requires e <= |caps| && c.kind != Untyped
    ensures BlockEnd(c, caps, e) == RunEnd(c, caps, e)
  {
    BlockHoldsChildren(c, caps, e);
    RunEndUnique(c, caps, e, BlockEnd(c, caps, e));
  }

  /** It spares capabilities of other kinds and, if it has a badge, endpoints with another one. */
  lemma RevokeSparesOthers(c: Cap, caps: seq<Cap>, e: nat, i: nat)
    requires e <= i < |caps| && c.kind != Untyped && i < BlockEnd(c, caps, e)
    ensures c.isOriginal && caps[i].kind == c.kind && (c.kind == Endpoint && c.badge != 0 ==> caps[i].badge == c.badge)
  {
    BlockHoldsChildren(c, caps, e);
  }

  /** The children of an original untyped capability are those in its region; a region that reaches the end of the
      word range has none at all. */
  lemma UntypedChildrenIff(c: Cap, x: Cap)
    requires c.kind == Untyped && c.isOriginal && c.ptr + Pow2(c.sizeBits) <= WORD_RANGE
    ensures (IsChild(x, c) <==> c.ptr <= x.ptr < c.ptr + Pow2(c.sizeBits))
            <==> c.ptr + Pow2(c.sizeBits) < WORD_RANGE || !(c.ptr <= x.ptr < WORD_RANGE)
  {
    hide Pow2;
  }

  /** Revoking the capability at `i` by itself would delete the one at `b`. */
  predicate Reaches(caps: seq<Cap>, i: nat, b: nat)
    requires i < b < |caps|
  {
    b < BlockEnd(caps[i], caps, i + 1)
  }

  /** Whatever is deleted in a block takes its own block with it. */
  lemma {:induction false} NestedBlocksStayInside(c: Cap, caps: seq<Cap>, e: nat, i: nat)
    requires e <= i < |caps| && i < BlockEnd(c, caps, e)
    ensures BlockEnd(caps[i], caps, i + 1) <= BlockEnd(c, caps, e)
    decreases |caps| - e
  {
    var m := BlockEnd(caps[e], caps, e + 1);
    if e < i < m {
      NestedBlocksStayInside(caps[e], caps, e + 1, i);
    } else if m <= i {
      NestedBlocksStayInside(c, caps, m, i);
    }
  }

  /** If `b` is deleted although it is no child of `c`, an earlier member of the block reaches it. */
  lemma {:induction false} OverrunHasACulprit(c: Cap, caps: seq<Cap>, e: nat, b: nat)
    requires e <= b < |caps| && b < BlockEnd(c, caps, e) && !IsChild(caps[b], c)
    ensures exists i :: e <= i < b && Reaches(caps, i, b)
    decreases |caps| - e
  {
    var m := BlockEnd(caps[e], caps, e + 1);
    if b < m {
      assert Reaches(caps, e, b);
    } else {
      OverrunHasACulprit(c, caps, m, b);
    }
  }

  /** For every capability, untyped ones included: the block is the run of children exactly
      when no member of that run, revoked by itself, would delete the first non-child. */
  lemma RevokeIsExactIff(c: Cap, caps: seq<Cap>, e: nat)
    requires e <= |caps|
    ensures var run := RunEnd(c, caps, e);
            && run <= BlockEnd(c, caps, e)
            && (BlockEnd(c, caps, e) == run <==>
                run == |caps| || forall i :: e <= i < run ==> !Reaches(caps, i, run))
  {
    var run, block := RunEnd(c, caps, e), BlockEnd(c, caps, e);
    if block < |caps| {
      assert IsChild(caps[block], c) ==> run <= block;
    }
    if run < block {
      OverrunHasACulprit(c, caps, e, run);
    } else if run < |caps| {
      forall i | e <= i < run
        ensures !Reaches(caps, i, run)
      {
        NestedBlocksStayInside(c, caps, e, i);
      }
    }
  }

  /** For a typed capability at `i`, reaching `b` is plain childhood of everything up to `b`. */
  lemma TypedReach(caps: seq<Cap>, i: nat, b: nat)
    requires i < b < |caps| && caps[i].kind != Untyped
    ensures Reaches(caps, i, b) <==> forall j :: i < j <= b ==> IsChild(caps[j], caps[i])
  {
    RevokeRemovesExactlyTheRun(caps[i], caps, i + 1);
  }

  /** A member of the run that reaches past it does so through a typed one, if untyped members only
      have children of `c`. */
  lemma {:induction false} TypedCulprit(c: Cap, caps: seq<Cap>, e: nat, i: nat) returns (t: nat)
    requires e <= |caps| && e <= i < RunEnd(c, caps, e) < |caps| && Reaches(caps, i, RunEnd(c, caps, e))
    requires forall m, x: Cap {:trigger IsChild(x, caps[m])} ::
               e <= m < RunEnd(c, caps, e) && caps[m].kind == Untyped && IsChild(x, caps[m]) ==> IsChild(x, c)
    ensures i <= t < RunEnd(c, caps, e) && caps[t].kind != Untyped && Reaches(caps, t, RunEnd(c, caps, e))
    decreases RunEnd(c, caps, e) - i
  {
    var run := RunEnd(c, caps, e);
    t := i;
    if caps[i].kind == Untyped {
      assert !IsChild(caps[run], caps[i]);
      OverrunHasACulprit(caps[i], caps, i + 1, run);
      var j :| i + 1 <= j < run && Reaches(caps, j, run);
      t := TypedCulprit(c, caps, e, j);
    }
  }

  /** The typed member `i` of a run that ends at `run` has everything up to there as its children. */
  predicate SpansTo(caps: seq<Cap>, i: nat, run: nat)
    requires i < run < |caps|
  {
    caps[i].kind != Untyped && forall j :: i < j <= run ==> IsChild(caps[j], caps[i])
  }

  /** When untyped members only have children of `c`, the block is the run of children exactly unless a
      typed member of the run spans past it. */
  lemma RevokeIsExactUnlessSpanned(c: Cap, caps: seq<Cap>, e: nat)
    requires e <= |caps|
    requires forall m, x: Cap {:trigger IsChild(x, caps[m])} ::
               e <= m < RunEnd(c, caps, e) && caps[m].kind == Untyped && IsChild(x, caps[m]) ==> IsChild(x, c)
    ensures var run := RunEnd(c, caps, e);
            BlockEnd(c, caps, e) == run <==> run == |caps| || forall i :: e <= i < run ==> !SpansTo(caps, i, run)
  {
    var run := RunEnd(c, caps, e);
    RevokeIsExactIff(c, caps, e);
    if run < |caps| {
      if i :| e <= i < run && Reaches(caps, i, run) {
        var t := TypedCulprit(c, caps, e, i);
        TypedReach(caps, t, run);
        assert SpansTo(caps, t, run);
      }
      if i :| e <= i < run && SpansTo(caps, i, run) {
        TypedReach(caps, i, run);
        assert Reaches(caps, i, run);
      }
    }
  }

  /** A concrete overrun: revoking an untyped capability deletes an endpoint capability
      outside its region, because an endpoint inside the region was taken for its parent. */
  lemma UntypedRevokeCanOverrun()
    ensures exists c: Cap, caps: seq<Cap> ::
              c.kind == Untyped && RunEnd(c, caps, 0) == 1 && BlockEnd(c, caps, 0) == 2
  {
    var c := Cap(true, false, 0x1000, 12, RIGHTS_ALL, Untyped, 0);
    var inside := Cap(true, false, 0x1000, 0, RIGHTS_ALL, Endpoint, 0);
    var outside := Cap(true, false, 0x8000, 0, RIGHTS_ALL, Endpoint, 0);
    var caps := [inside, outside];
    assert Pow2(12) == 4096 by { assert Pow2(4) == 16; assert Pow2(8) == 256; }
    assert BlockEnd(inside, caps, 1) == 2;
    assert BlockEnd(c, caps, 0) == 2;
    RunEndUnique(c, caps, 0, 1);
  }

  // ----- Pure layer: what copy and mint hand out -----

  /** The capability copy_cap stores in the destination. */
  function Copied(src: Cap, mask: Rights): Cap
  {
    src.(isOriginal := src.isOriginal && src.kind == Untyped, rights := src.rights & mask)
  }

  /** The capability mint_cap stores in the destination. */
  function Minted(src: Cap, badge: nat, mask: Rights): Cap
  {
    src.(badge := badge, isOriginal := src.isOriginal && src.kind != Notification,
         rights := src.rights & mask)
  }

  predicate Mintable(src: Cap)
  {
    (src.kind == Endpoint || src.kind == Notification) && src.badge == 0
  }

  /** A copy is the source but for two things: of a typed capability it is no original, and it grants what both
      the source and the mask grant. */
  lemma CopyFields(src: Cap, mask: Rights)
    ensures var c := Copied(src, mask);
            && c == src.(isOriginal := c.isOriginal, rights := c.rights)
            && (c.isOriginal <==> src.isOriginal && src.kind == Untyped)
            && forall x: Rights :: RightsWithin(x, c.rights) <==> RightsWithin(x, src.rights) && RightsWithin(x, mask)
  {
    MaskMeets(src.rights, mask);
  }

  /** A minted capability also has the new badge, and is an original if it is an endpoint of one. */
  lemma MintFields(src: Cap, badge: nat, mask: Rights)
    requires Mintable(src)
    ensures var c := Minted(src, badge, mask);
            && c == src.(isOriginal := c.isOriginal, rights := c.rights, badge := badge)
            && (c.isOriginal <==> src.isOriginal && src.kind == Endpoint)
            && forall x: Rights :: RightsWithin(x, c.rights) <==> RightsWithin(x, src.rights) && RightsWithin(x, mask)
  {
    MaskMeets(src.rights, mask);
  }

  lemma MaskMeets(r: Rights, mask: Rights)
    ensures forall x: Rights :: RightsWithin(x, r & mask) <==> RightsWithin(x, r) && RightsWithin(x, mask)
  {
    forall x: Rights
      ensures RightsWithin(x, r & mask) <==> RightsWithin(x, r) && RightsWithin(x, mask)
    {
      WithinBoth(x, r, mask);
    }
  }

  lemma WithinBoth(x: Rights, r: Rights, mask: Rights)
    ensures RightsWithin(x, r & mask) <==> RightsWithin(x, r) && RightsWithin(x, mask)
  {
  }

  /** Revoking a capability that is no original removes nothing, whatever follows it; so with every copy of a
      typed one. */
  lemma CopiesRevokeNothing(src: Cap, mask: Rights, caps: seq<Cap>, e: nat)
    requires e <= |caps| && src.kind != Untyped
    ensures BlockEnd(Copied(src, mask), caps, e) == e
  {
    NoOriginalNoBlock(Copied(src, mask), caps, e);
  }

  lemma NoOriginalNoBlock(c: Cap, caps: seq<Cap>, e: nat)
    requires e <= |caps| && !c.isOriginal
    ensures BlockEnd(c, caps, e) == e
  {
  }

  /** `c` was handed out from `src` by one copy or one mint. */
  ghost predicate HandedOut(src: Cap, c: Cap)
  {
    || (exists mask: Rights :: c == Copied(src, mask))
    || (Mintable(src) && exists badge: nat, mask: Rights :: c == Minted(src, badge, mask))
  }

  lemma CopyHandsOut(src: Cap, mask: Rights)
    ensures HandedOut(src, Copied(src, mask))
  {
  }

  lemma MintHandsOut(src: Cap, badge: nat, mask: Rights)
    requires Mintable(src)
    ensures HandedOut(src, Minted(src, badge, mask))
  {
  }

  /** `c` is no more than `root`: same object, fewer rights, and a badge that is still the
      one of `root` unless that was zero. */
  predicate Attenuates(c: Cap, root: Cap)
  {
    && c.kind == root.kind && c.ptr == root.ptr && c.sizeBits == root.sizeBits
    && RightsWithin(c.rights, root.rights)
    && (root.badge != 0 ==> c.badge == root.badge)
  }

  lemma HandedOutAttenuates(src: Cap, c: Cap)
    requires HandedOut(src, c)
    ensures Attenuates(c, src)
    ensures c.badge == src.badge || (Mintable(src) && c.badge != 0)
  {
    if exists mask: Rights :: c == Copied(src, mask) {
      var mask: Rights :| c == Copied(src, mask);
      MaskedRightsWithin(src.rights, mask);
    } else {
      var badge: nat, mask: Rights :| c == Minted(src, badge, mask);
      MaskedRightsWithin(src.rights, mask);
    }
  }

  lemma AttenuatesTransitive(a: Cap, b: Cap, c: Cap)
    requires Attenuates(a, b) && Attenuates(b, c)
    ensures Attenuates(a, c)
  {
    RightsWithinTransitive(a.rights, b.rights, c.rights);
  }

  /** Each capability on the path was handed out from the one before. */
  ghost predicate DerivationPath(path: seq<Cap>)
  {
    forall i {:trigger path[i]} :: 0 < i < |path| ==> HandedOut(path[i - 1], path[i])
  }

  /** On a derivation path of a typed capability only endpoints become originals, by being minted from one that
      is an original without a badge. */
  lemma OnlyMintsMakeOriginals(path: seq<Cap>, n: nat)
    requires 0 < n < |path| && DerivationPath(path) && path[n].isOriginal && path[n].kind != Untyped
    ensures path[n].kind == Endpoint && path[n - 1].isOriginal && path[n - 1].badge == 0
  {
    OriginalsAreMinted(path[n - 1], path[n]);
  }

  lemma OriginalsAreMinted(src: Cap, c: Cap)
    requires HandedOut(src, c) && c.isOriginal && c.kind != Untyped
    ensures c.kind == Endpoint && src.isOriginal && Mintable(src)
  {
    if !exists mask: Rights :: c == Copied(src, mask) {
      var badge: nat, mask: Rights :| c == Minted(src, badge, mask);
      MintFields(src, badge, mask);
    }
  }

  /** Along a derivation path authority only shrinks. */
  lemma {:induction false} PathAttenuates(path: seq<Cap>, n: nat)
    requires n < |path| && DerivationPath(path)
    ensures Attenuates(path[n], path[0])
  {
    if n > 0 {
      PathAttenuates(path, n - 1);
      HandedOutAttenuates(path[n - 1], path[n]);
      AttenuatesTransitive(path[n], path[n - 1], path[0]);
    }
  }

  /** Along a derivation path the badge changes at most once, from zero: up to position `n` it
      is zero before `k` and constant from `k` on. */
  lemma {:induction false} PathBadgeChangesOnce(path: seq<Cap>, n: nat) returns (k: nat)
    requires n < |path| && DerivationPath(path)
    ensures k <= n
    ensures forall i :: 0 <= i < k ==> path[i].badge == 0
    ensures forall i :: k <= i <= n ==> path[i].badge == path[n].badge
  {
    hide Attenuates, RightsWithin;
    k := n;
    if n > 0 {
      HandedOutAttenuates(path[n - 1], path[n]);
      hide HandedOut;
      var m := PathBadgeChangesOnce(path, n - 1);
      if path[n].badge == path[n - 1].badge {
        k := m;
      }
    }
  }
}
