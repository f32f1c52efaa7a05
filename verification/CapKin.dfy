/** Who was derived from whom over a run, and that revoking an original capability leaves nothing of what
    was derived from it (kern/cdt.c, kern/obj/untyped.c). */
module CapKin {
  import opened Arith
  import opened Caps
  import opened Cdt
  import opened CapList
  import opened Seqs
  import opened CapViews
  import opened UntypedMemory
  import opened CapSteps

  /** What fills a slot is named by the step that does so and the slot. */
  datatype Id = Id(step: nat, slot: Cte)

  /** For each slot the names of what it was derived from, oldest first, ending with its own. */
  type Trail = map<Cte, seq<Id>>

  /** The slots `dests` are filled from `slot` in step `i`. */
  ghost function Follow(t: Trail, slot: Cte, dests: seq<Cte>, i: nat): Trail
  {
    map s | s in t.Keys + (set d | d in dests) :: if s in dests then (if slot in t then t[slot] else []) + [Id(i, s)] else t[s]
  }

  ghost function TrailAfter(t: Trail, op: Op, a: Snap, b: Snap, i: nat): Trail
  {
    if b == a then t else
      match op
      case Copy(dest, src, _) => Follow(t, src, [dest], i)
      case Mint(dest, src, _, _) => Follow(t, src, [dest], i)
      case Retype(slot, _, _, dests, _) => Follow(t, slot, dests, i)
      case _ => t
  }

  /** The trails before step `i` of a run. */
  ghost function Trails(ops: seq<Op>, trace: seq<Snap>, i: nat): Trail
    requires i <= |ops| && |trace| == |ops| + 1
  {
    if i == 0 then map c | c in trace[0].v :: [Id(0, c)]
    else TrailAfter(Trails(ops, trace, i - 1), ops[i - 1], trace[i - 1], trace[i], i)
  }

  /** The capability in `n` was derived, by copies, mints and retypes, from the one that is in `c`, or is that one. */
  ghost predicate Derived(t: Trail, n: Cte, c: Cte)
  {
    c in t && n in t && t[c] != [] && t[c][|t[c]| - 1] in t[n]
  }

  ghost predicate Live(v: View, c: Cte) { c in v && v[c].cap.kind != Null }

  /** The trail of `c` ends with a name of its own, and its names are from steps up to `i`. */
  ghost predicate OwnName(t: Trail, i: nat, c: Cte)
  {
    c in t && t[c] != [] && t[c][|t[c]| - 1].slot == c && forall k :: 0 <= k < |t[c]| ==> t[c][k].step <= i
  }

  ghost predicate Named(v: View, t: Trail, i: nat)
  {
    forall c {:trigger OwnName(t, i, c)} :: c in v ==> OwnName(t, i, c)
  }

  /** What was derived from a live slot comes after it, and everything between them was too. */
  ghost predicate Follows(v: View, t: Trail)
  {
    forall c, n {:trigger Derived(t, n, c)} :: c in v && n in v && Live(v, c) && Live(v, n) && c != n && Derived(t, n, c) ==>
      v[n].prev != null && v[n].prev in v && Derived(t, v[n].prev, c)
  }

  predicate Parent(c: Cap, all: bool) { c.isOriginal && (all || c.kind != Untyped) }

  /** What was derived from an original capability is its child; from an untyped one, if `all` is set. */
  ghost predicate Children(v: View, t: Trail, all: bool)
  {
    forall c, n {:trigger Derived(t, n, c)} :: c in v && n in v && Live(v, c) && Live(v, n) && c != n && Derived(t, n, c) && Parent(v[c].cap, all) ==>
      IsChild(v[n].cap, v[c].cap)
  }

  // ----- Children of typed capabilities, without naming the relation -----

  /** Handing a capability on keeps it a child of a typed original. */
  lemma HandedOutChild(parent: Cap, src: Cap, c: Cap)
    requires parent.kind != Untyped && parent.isOriginal && HandedOut(src, c) && (src == parent || IsChild(src, parent))
    ensures IsChild(c, parent)
  {
    HandedOutAttenuates(src, c);
  }

  /** Every capability on a derivation path that starts at a typed original is a child of it. */
  lemma {:induction false} PathChildren(path: seq<Cap>, n: nat)
    requires 0 < n < |path| && DerivationPath(path) && path[0].isOriginal && path[0].kind != Untyped
    ensures IsChild(path[n], path[0])
  {
    hide HandedOut, IsChild;
    if n > 1 {
      PathChildren(path, n - 1);
    }
    HandedOutChild(path[0], path[n - 1], path[n]);
  }

  // ----- A step keeps the kinship -----

  /** The slots `dests` were empty, have been filled and come right behind the live `slot`. */
  ghost predicate Spliced(v: View, rank: map<Cte, real>, v': View, rank': map<Cte, real>, slot: Cte, dests: seq<Cte>)
  {
    && Structured(v, rank) && Structured(v', rank') && Live(v, slot) && v'.Keys == v.Keys && slot !in dests
    && (forall d :: d in dests ==> d in v && v[d].cap.kind == Null)
    && Behind(v', rank', slot) == Reverse(dests) + Behind(v, rank, slot)
    && Relinked(v, v', slot, dests)
    && (forall s :: s in v && s !in dests ==> SameCap(v[s].cap, v'[s].cap))
  }

  lemma ReverseMembers<T>(s: seq<T>, x: T)
    ensures x in Reverse(s) <==> x in s
  {
    if s != [] {
      ReverseMembers(s[1..], x);
    }
  }

  /** What stands before a new slot, or before the one that came first, is new or `slot` itself. */
  lemma SplicedPrev(v: View, rank: map<Cte, real>, v': View, rank': map<Cte, real>, slot: Cte, dests: seq<Cte>, x: Cte)
    requires Spliced(v, rank, v', rank', slot, dests) && x in v && (x in dests || x == v[slot].next)
    ensures v'[x].prev != null && (v'[x].prev == slot || v'[x].prev in dests)
  {
    hide Structured, Behind, Relinked;
    var all := Behind(v', rank', slot);
    BehindHangs(v', rank', slot);
    NextIsFirst(v, rank, slot);
    FirstOfReverse(dests);
    ReverseMembers(dests, x);
    var k: nat;
    if x in dests {
      k :| 0 <= k < |Reverse(dests)| && Reverse(dests)[k] == x;
    } else {
      k := |dests|;
    }
    assert all[k] == x;
    if k > 0 {
      assert all[k - 1] == Reverse(dests)[k - 1];
      ReverseMembers(dests, all[k - 1]);
    }
  }

  /** Derivation after `dests` have been filled from `slot`. */
  lemma FollowDerived(v: View, t: Trail, slot: Cte, dests: seq<Cte>, i: nat, n: Cte, c: Cte)
    requires Named(v, t, i) && slot in v && slot !in dests && n in v && c in v && (forall d :: d in dests ==> d in v)
    ensures var t' := Follow(t, slot, dests, i + 1);
            && (c !in dests ==> (Derived(t', n, c) <==> Derived(t, if n in dests then slot else n, c)))
            && (c in dests && n != c ==> !Derived(t', n, c))
  {
    var t': Trail := Follow(t, slot, dests, i + 1);
    assert OwnName(t, i, c) && OwnName(t, i, n) && OwnName(t, i, slot);
    assert t'[c][|t'[c]| - 1].slot == c;
  }

  lemma FollowNamed(v: View, v': View, t: Trail, slot: Cte, dests: seq<Cte>, i: nat)
    requires Named(v, t, i) && slot in v && v'.Keys == v.Keys
    ensures Named(v', Follow(t, slot, dests, i + 1), i + 1)
  {
    var t': Trail := Follow(t, slot, dests, i + 1);
    forall c | c in v'
      ensures OwnName(t', i + 1, c)
    {
      assert OwnName(t, i, c) && OwnName(t, i, slot);
    }
  }

  lemma SpliceFollows(v: View, rank: map<Cte, real>, v': View, rank': map<Cte, real>, t: Trail, slot: Cte, dests: seq<Cte>, i: nat)
    requires Spliced(v, rank, v', rank', slot, dests) && Named(v, t, i) && Follows(v, t)
    ensures Follows(v', Follow(t, slot, dests, i + 1))
  {
    var t': Trail := Follow(t, slot, dests, i + 1);
    forall c, n | c in v' && n in v' && Live(v', c) && Live(v', n) && c != n && Derived(t', n, c)
      ensures v'[n].prev != null && v'[n].prev in v' && Derived(t', v'[n].prev, c)
    {
      SpliceFollowsAt(v, rank, v', rank', t, slot, dests, i, c, n);
    }
  }

  lemma SpliceFollowsAt(v: View, rank: map<Cte, real>, v': View, rank': map<Cte, real>, t: Trail, slot: Cte, dests: seq<Cte>, i: nat, c: Cte, n: Cte)
    requires Spliced(v, rank, v', rank', slot, dests) && Named(v, t, i) && Follows(v, t)
    requires Live(v', c) && Live(v', n) && c != n && Derived(Follow(t, slot, dests, i + 1), n, c)
    ensures v'[n].prev != null && v'[n].prev in v' && Derived(Follow(t, slot, dests, i + 1), v'[n].prev, c)
  {
    FollowDerived(v, t, slot, dests, i, n, c);
    assert c !in dests && Live(v, c);
    SplicedKeeps(v, rank, v', rank', slot, dests);
    if n in dests || n == v[slot].next {
      SplicedPrev(v, rank, v', rank', slot, dests, n);
      if n !in dests {
        FollowsNext(v, rank, t, slot, c, n);
      }
    } else {
      assert Derived(t, n, c);
      assert v'[n].prev == v[n].prev;
    }
    hide Spliced, Follow, Derived, Follows;
    FollowDerived(v, t, slot, dests, i, v'[n].prev, c);
  }

  /** What follows `slot` directly and was derived from `c`, has `slot` derived from `c`. */
  lemma FollowsNext(v: View, rank: map<Cte, real>, t: Trail, slot: Cte, c: Cte, n: Cte)
    requires Structured(v, rank) && Follows(v, t) && slot in v && n == v[slot].next && Live(v, c) && Live(v, n) && c != n && Derived(t, n, c)
    ensures Derived(t, slot, c)
  {
    assert Local(v, rank, slot);
  }

  /** Slots that are not new have the kinds they had, and a live one has a live one before it. */
  lemma SplicedKeeps(v: View, rank: map<Cte, real>, v': View, rank': map<Cte, real>, slot: Cte, dests: seq<Cte>)
    requires Spliced(v, rank, v', rank', slot, dests)
    ensures forall s :: s in v && s !in dests ==> (Live(v', s) <==> Live(v, s))
    ensures forall s :: s in v && s !in dests && s != v[slot].next ==> v'[s].prev == v[s].prev
    ensures forall s :: s in v && Live(v, s) && v[s].prev != null ==> Live(v, v[s].prev)
  {
    hide Behind;
    forall s | s in v && Live(v, s) && v[s].prev != null
      ensures Live(v, v[s].prev)
    {
      assert Local(v, rank, s);
      assert Local(v, rank, v[s].prev);
    }
  }

  /** A watermark does not matter to who is a child. */
  lemma SameChild(x: Cap, x': Cap, p: Cap, p': Cap)
    requires SameCap(x, x') && SameCap(p, p') && IsChild(x, p)
    ensures IsChild(x', p')
  {
  }

  /** Whatever the source `slot` was derived from has the new capabilities as its children. */
  ghost predicate NewChildren(v: View, v': View, t: Trail, slot: Cte, dests: seq<Cte>, all: bool)
    requires v'.Keys == v.Keys
  {
    forall c, d :: c in v && d in v && d in dests && Live(v, c) && Derived(t, slot, c) && Parent(v[c].cap, all) ==> IsChild(v'[d].cap, v[c].cap)
  }

  lemma SpliceChildren(v: View, rank: map<Cte, real>, v': View, rank': map<Cte, real>, t: Trail, slot: Cte, dests: seq<Cte>, i: nat, all: bool)
    requires Spliced(v, rank, v', rank', slot, dests) && Named(v, t, i) && Children(v, t, all)
    requires NewChildren(v, v', t, slot, dests, all)
    ensures Children(v', Follow(t, slot, dests, i + 1), all)
  {
    var t': Trail := Follow(t, slot, dests, i + 1);
    SplicedKeeps(v, rank, v', rank', slot, dests);
    forall c, n | c in v' && n in v' && Live(v', c) && Live(v', n) && c != n && Derived(t', n, c) && Parent(v'[c].cap, all)
      ensures IsChild(v'[n].cap, v'[c].cap)
    {
      hide IsChild, Structured, Behind, Relinked, Derived, Follow;
      FollowDerived(v, t, slot, dests, i, n, c);
      assert SameCap(v[c].cap, v'[c].cap);
      if n in dests {
        SameChild(v'[n].cap, v'[n].cap, v[c].cap, v'[c].cap);
      } else {
        SameChild(v[n].cap, v'[n].cap, v[c].cap, v'[c].cap);
      }
    }
  }

  // ----- Emptying slots -----

  /** Going back along an emptied front, everything was derived from a slot that is still live. */
  lemma {:induction false} BackToFront(v: View, t: Trail, p: Cte?, all: seq<Cte>, k: nat, c: Cte)
    requires Follows(v, t) && k < |all| && Hangs(v, p, all, 0) && Live(v, c) && Derived(t, all[k], c)
    requires forall j :: 0 <= j <= k ==> Live(v, all[j]) && all[j] != c
    ensures p != null && p in v && Derived(t, p, c)
  {
    if k > 0 {
      assert v[all[k]].prev == all[k - 1];
      BackToFront(v, t, p, all, k - 1, c);
    } else {
      assert v[all[0]].prev == p;
    }
  }

  lemma CutFollows(v: View, rank: map<Cte, real>, v': View, p: Cte?, all: seq<Cte>, r: nat, t: Trail)
    requires Structured(v, rank) && Distinct(all) && r <= |all| && Hangs(v, p, all, 0) && CutOff(v, v', p, all, r) && Follows(v, t)
    requires forall j :: 0 <= j < |all| ==> Live(v, all[j])
    ensures Follows(v', t)
  {
    CutKeepsCaps(v, v', p, all, r);
    AfterWithin(all, 0);
    forall c, n | c in v' && n in v' && Live(v', c) && Live(v', n) && c != n && Derived(t, n, c)
      ensures v'[n].prev != null && v'[n].prev in v' && Derived(t, v'[n].prev, c)
    {
      assert Live(v, c) && Live(v, n);
      if r < |all| && n == all[r] {
        assert forall j :: 0 <= j < r ==> v'[all[j]] == Node(NULL_CAP, null, null);
        BackToFront(v, t, p, all, r, c);
      } else {
        CutPrev(v, v', p, all, r, n);
      }
    }
  }

  /** Only the first slot that is left has another one before it. */
  lemma CutPrev(v: View, v': View, p: Cte?, all: seq<Cte>, r: nat, n: Cte)
    requires Distinct(all) && r <= |all| && Hangs(v, p, all, 0) && CutOff(v, v', p, all, r)
    requires n in v && Live(v', n) && (r < |all| ==> n != all[r])
    ensures v'[n].prev == v[n].prev
  {
    AfterWithin(all, 0);
    if n in After(all, 0) {
      var j :| 0 <= j < |all| && all[j] == n;
      assert j > r;
    }
  }

  lemma CutChildren(v: View, v': View, p: Cte?, all: seq<Cte>, r: nat, t: Trail, every: bool)
    requires Distinct(all) && r <= |all| && Hangs(v, p, all, 0) && CutOff(v, v', p, all, r) && Children(v, t, every)
    ensures Children(v', t, every)
  {
    CutKeepsCaps(v, v', p, all, r);
    hide IsChild, CutOff, Hangs;
    forall c, n | c in v' && n in v' && Live(v', c) && Live(v', n) && c != n && Derived(t, n, c) && Parent(v'[c].cap, every)
      ensures IsChild(v'[n].cap, v'[c].cap)
    {
      assert v'[c].cap == v[c].cap && v'[n].cap == v[n].cap;
    }
  }

  // ----- Everything derived is in the block -----

  ghost function Under(v: View, rank: map<Cte, real>, n: Cte): set<Cte>
    requires n in v && v.Keys <= rank.Keys
  {
    set s | s in v && rank[s] < rank[n]
  }

  lemma LivePrev(v: View, rank: map<Cte, real>, n: Cte)
    requires Structured(v, rank) && n in v && v[n].prev != null
    ensures Live(v, v[n].prev) && rank[v[n].prev] < rank[n] && Under(v, rank, v[n].prev) < Under(v, rank, n)
  {
    assert Local(v, rank, n);
    assert Local(v, rank, v[n].prev);
    assert v[n].prev in Under(v, rank, n) && v[n].prev !in Under(v, rank, v[n].prev);
  }

  /** What was derived from `c` is behind it, and so is everything up to there. */
  lemma {:induction false} DerivedIsBehind(v: View, rank: map<Cte, real>, t: Trail, c: Cte, n: Cte) returns (j: nat)
    requires Structured(v, rank) && Follows(v, t) && Live(v, c) && Live(v, n) && c != n && Derived(t, n, c)
    ensures var all := Behind(v, rank, c);
            j < |all| && all[j] == n && rank[c] < rank[n] && forall k :: 0 <= k <= j ==> Live(v, all[k]) && all[k] != c && Derived(t, all[k], c)
    decreases Under(v, rank, n)
  {
    var p := v[n].prev;
    LivePrev(v, rank, n);
    BehindHangs(v, rank, c);
    assert Local(v, rank, n);
    hide Structured, Behind;
    var all := Behind(v, rank, c);
    if p == c {
      j := 0;
    } else {
      var k := DerivedIsBehind(v, rank, t, c, p);
      assert v[all[k]].next == n;
      j := k + 1;
    }
  }

  /** All of it lies within the block that revoking `c` removes. */
  lemma DerivedInBlock(v: View, rank: map<Cte, real>, t: Trail, all: bool, c: Cte, n: Cte) returns (j: nat)
    requires Structured(v, rank) && Follows(v, t) && Children(v, t, all) && Live(v, c) && Live(v, n) && c != n && Derived(t, n, c)
    requires Parent(v[c].cap, all)
    ensures var tail := Behind(v, rank, c);
            j < |tail| && tail[j] == n && j < BlockEnd(v[c].cap, CapsOf(v, tail), 0)
  {
    hide Structured, Behind, IsChild, Derived, BlockEnd, RunEnd;
    j := DerivedIsBehind(v, rank, t, c, n);
    var tail := Behind(v, rank, c);
    var caps := CapsOf(v, tail);
    forall k | 0 <= k <= j
      ensures IsChild(caps[k], v[c].cap)
    {
      assert Derived(t, tail[k], c);
    }
    RevokeIsExactIff(v[c].cap, caps, 0);
  }

  // ----- Along a run -----

  /** What a run keeps about derivation. */
  ghost predicate Kin(v: View, t: Trail, i: nat, all: bool) { Named(v, t, i) && Follows(v, t) && Children(v, t, all) }

  lemma SpliceKin(v: View, rank: map<Cte, real>, v': View, rank': map<Cte, real>, t: Trail, slot: Cte, dests: seq<Cte>, i: nat, all: bool)
    requires Spliced(v, rank, v', rank', slot, dests) && Kin(v, t, i, all) && NewChildren(v, v', t, slot, dests, all)
    ensures Kin(v', Follow(t, slot, dests, i + 1), i + 1, all)
  {
    hide Spliced, Named, Follows, Children, NewChildren, Follow;
    SplicedSlot(v, rank, v', rank', slot, dests);
    FollowNamed(v, v', t, slot, dests, i);
    SpliceFollows(v, rank, v', rank', t, slot, dests, i);
    SpliceChildren(v, rank, v', rank', t, slot, dests, i, all);
  }

  lemma SplicedSlot(v: View, rank: map<Cte, real>, v': View, rank': map<Cte, real>, slot: Cte, dests: seq<Cte>)
    requires Spliced(v, rank, v', rank', slot, dests)
    ensures slot in v && v'.Keys == v.Keys
  {
  }

  lemma HandedSplices(a: Snap, b: Snap, n: Cte, after: Cte, cap: Cap)
    requires Structured(a.v, a.rank) && Structured(b.v, b.rank) && n in a.v && a.v[n].cap.kind == Null && Live(a.v, after) && cap.kind != Null
    requires Handed(a, b, n, after, cap)
    ensures Spliced(a.v, a.rank, b.v, b.rank, after, [n]) && b.v[n].cap == cap
  {
    assert Local(a.v, a.rank, n) && Local(a.v, a.rank, after);
    hide Structured, Behind;
    InsertedCaps(a.v, b.v, n, after, cap);
    hide Inserted;
    assert Reverse([n]) == [n];
  }

  /** A copy or a mint. */
  lemma HandedKin(a: Snap, b: Snap, n: Cte, after: Cte, cap: Cap, t: Trail, i: nat, all: bool)
    requires Structured(a.v, a.rank) && Structured(b.v, b.rank) && n in a.v && a.v[n].cap.kind == Null && Live(a.v, after)
    requires Handed(a, b, n, after, cap) && HandedOut(a.v[after].cap, cap) && Kin(a.v, t, i, all)
    requires all ==> cap.kind != Untyped
    ensures Kin(b.v, Follow(t, after, [n], i + 1), i + 1, all)
  {
    hide Structured, Handed, HandedOut;
    HandedOutAttenuates(a.v[after].cap, cap);
    HandedSplices(a, b, n, after, cap);
    hide Spliced;
    forall c, d | c in a.v && d in a.v && d in [n] && Live(a.v, c) && Derived(t, after, c) && Parent(a.v[c].cap, all)
      ensures IsChild(b.v[d].cap, a.v[c].cap)
    {
      if a.v[c].cap.kind != Untyped {
        HandedOutChild(a.v[c].cap, a.v[after].cap, cap);
      }
    }
    hide Kin;
    SpliceKin(a.v, a.rank, b.v, b.rank, t, after, [n], i, all);
  }

  lemma CutKin(a: Snap, b: Snap, p: Cte?, all: seq<Cte>, r: nat, t: Trail, i: nat, every: bool)
    requires Structured(a.v, a.rank) && Emptied(a, b, p, all, r) && Hangs(a.v, p, all, 0) && Kin(a.v, t, i, every)
    requires forall j :: 0 <= j < |all| ==> Live(a.v, all[j])
    ensures Kin(b.v, t, i + 1, every)
  {
    hide Structured, Hangs, CutOff, Follows, Children;
    CutKeepsCaps(a.v, b.v, p, all, r);
    CutFollows(a.v, a.rank, b.v, p, all, r, t);
    CutChildren(a.v, b.v, p, all, r, t, every);
    LaterNamed(a.v, b.v, t, i);
  }

  lemma LaterNamed(v: View, v': View, t: Trail, i: nat)
    requires Named(v, t, i) && v'.Keys == v.Keys
    ensures Named(v', t, i + 1)
  {
    forall c | c in v'
      ensures OwnName(t, i + 1, c)
    {
      assert OwnName(t, i, c);
    }
  }

  /** Everything in a chain is live. */
  lemma {:induction false} BehindLive(v: View, rank: map<Cte, real>, c: Cte)
    requires Structured(v, rank) && c in v
    ensures forall j :: 0 <= j < |Behind(v, rank, c)| ==> Live(v, Behind(v, rank, c)[j])
    decreases Above(v, rank, c)
  {
    assert Local(v, rank, c);
    var n := v[c].next;
    if n != null {
      assert Local(v, rank, n);
      assert n in Above(v, rank, c) && n !in Above(v, rank, n);
      BehindLive(v, rank, n);
    }
  }

  // ----- A retype -----

  /** The places carved out of an untyped capability in the direct map lie in its region. */
  lemma MadeInside(hhdm: nat, c: Cap, k: nat, num: nat, j: nat)
    requires c.sizeBits < 64 && k < 64 && c.badge <= Pow2(c.sizeBits) && Decides(c.sizeBits, c.badge, k, num) && j < num && c.ptr >= hhdm
    requires !Refuses(c.sizeBits, c.badge, Pow2(k), num)
    ensures var p := PtrAt(hhdm, c.ptr + Offset(c.badge, Pow2(k)), Pow2(k), j); c.ptr <= p < c.ptr + Pow2(c.sizeBits)
  {
    hide Decides, Refuses, Pow2, AlignUp, Offset, Taken;
    MeasuredExactly(c.sizeBits, c.badge, k, num);
    MulMono(Pow2(k), j + 1, num);
    assert Pow2(k) * (j + 1) == Pow2(k) * j + Pow2(k);
  }

  /** In the account of memory, the capability of an untyped slot fits its region and the word. */
  lemma RegionFacts(hhdm: nat, v: View, rank: map<Cte, real>, objs: seq<Obj>, node: map<Cte, nat>, c: Cte)
    requires Memory(hhdm, v, rank, objs, node) && c in v && v[c].cap.kind == Untyped
    ensures v[c].cap.sizeBits < 64 && v[c].cap.badge <= Pow2(v[c].cap.sizeBits)
    ensures v[c].cap.isOriginal ==> v[c].cap.ptr >= hhdm && v[c].cap.ptr + Pow2(v[c].cap.sizeBits) < WORD_RANGE
  {
    assert CapsIn(v)[c] == v[c].cap;
    assert Describes(hhdm, v[c].cap, objs[node[c]]);
    hide Pow2, Later, Ancestor;
  }

  /** What is made lies in the region of every original untyped capability that `slot` was derived from. */
  lemma RetypeChild(hhdm: nat, a: Snap, t: Trail, slot: Cte, k: nat, num: nat, j: nat, c: Cte)
    requires Structured(a.v, a.rank) && Settled(hhdm, a) && Follows(a.v, t) && Children(a.v, t, true)
    requires Live(a.v, slot) && Live(a.v, c) && a.v[slot].cap.kind == a.v[c].cap.kind == Untyped && a.v[c].cap.isOriginal && Derived(t, slot, c)
    requires var s := a.v[slot].cap; s.sizeBits < 64 && k < 64 && Decides(s.sizeBits, s.badge, k, num) && !Refuses(s.sizeBits, s.badge, Pow2(k), num)
    requires j < num
    ensures var s, x := a.v[slot].cap, a.v[c].cap;
            var p := PtrAt(hhdm, s.ptr + Offset(s.badge, Pow2(k)), Pow2(k), j); x.ptr <= p < x.ptr + Pow2(x.sizeBits) < WORD_RANGE
  {
    hide Structured, Memory, Decides, Refuses, Pow2, Offset, PtrAt, Derived;
    RegionFacts(hhdm, a.v, a.rank, a.objs, a.node, slot);
    RegionFacts(hhdm, a.v, a.rank, a.objs, a.node, c);
    if c != slot {
      var _ := DerivedIsBehind(a.v, a.rank, t, c, slot);
      RegionInside(hhdm, a.v, a.rank, a.objs, a.node, c, slot);
    }
    MadeInside(hhdm, a.v[slot].cap, k, num, j);
  }

  lemma CarvedSplices(a: Snap, b: Snap, slot: Cte, dests: seq<Cte>, made: seq<Cap>, mark: nat)
    requires Structured(a.v, a.rank) && Structured(b.v, b.rank) && slot in a.v && |dests| == |made| && Carves(a, b, slot, dests, made, mark)
    requires a.v[slot].cap.kind == Untyped && forall j :: 0 <= j < |dests| ==> dests[j] in a.v && a.v[dests[j]].cap.kind == Null
    ensures Spliced(a.v, a.rank, b.v, b.rank, slot, dests) && forall j :: 0 <= j < |dests| ==> b.v[dests[j]].cap == made[j]
  {
    hide Structured, Behind, Relinked;
  }

  /** The retype `op` that is not refused. */
  ghost predicate Makes(hhdm: nat, op: Op, a: Snap, b: Snap)
    requires Structured(a.v, a.rank) && Structured(b.v, b.rank) && op.Retype? && Allowed(a.v, op)
  {
    var c, k := a.v[op.slot].cap, ObjectBits(op.kind, op.sizeBits);
    && !Refuses(c.sizeBits, c.badge, Pow2(k), |op.dests|)
    && Carves(a, b, op.slot, op.dests, Making(hhdm, op, c), Offset(c.badge, Pow2(k)) + Taken(k, |op.dests|))
  }

  ghost function Making(hhdm: nat, op: Op, c: Cap): (made: seq<Cap>)
    requires op.Retype? && IsObject(op.kind)
    ensures |made| == |op.dests|
  {
    var k := ObjectBits(op.kind, op.sizeBits);
    Made(hhdm, op.kind, op.sizeBits, c.ptr + Offset(c.badge, Pow2(k)), Pow2(k), |op.dests|)
  }

  lemma RetypeKin(hhdm: nat, op: Op, a: Snap, b: Snap, t: Trail, i: nat, all: bool)
    requires Structured(a.v, a.rank) && Structured(b.v, b.rank) && op.Retype? && Allowed(a.v, op) && Makes(hhdm, op, a, b)
    requires Kin(a.v, t, i, all) && (all ==> Settled(hhdm, a) && Harmless(a.v, op))
    ensures Kin(b.v, Follow(t, op.slot, op.dests, i + 1), i + 1, all)
  {
    hide Structured, Decides, Refuses, Pow2, Offset, Taken, Carves, Spliced, Making, Settled, Derived, IsChild;
    var slot, dests, c := op.slot, op.dests, a.v[op.slot].cap;
    var k := ObjectBits(op.kind, op.sizeBits);
    CarvedSplices(a, b, slot, dests, Making(hhdm, op, c), Offset(c.badge, Pow2(k)) + Taken(k, |dests|));
    SplicedSlot(a.v, a.rank, b.v, b.rank, slot, dests);
    forall p, d | p in a.v && d in a.v && d in dests && Live(a.v, p) && Derived(t, slot, p) && Parent(a.v[p].cap, all)
      ensures IsChild(b.v[d].cap, a.v[p].cap)
    {
      if a.v[p].cap.kind == Untyped {
        var j :| 0 <= j < |dests| && dests[j] == d;
        MakingChild(hhdm, op, a, t, j, p);
      } else {
        TypedHasNoUntyped(a.v, t, all, slot, p);
        assert false;
      }
    }
    hide Kin;
    SpliceKin(a.v, a.rank, b.v, b.rank, t, slot, dests, i, all);
  }

  lemma MakingChild(hhdm: nat, op: Op, a: Snap, t: Trail, j: nat, p: Cte)
    requires Structured(a.v, a.rank) && op.Retype? && Allowed(a.v, op) && Settled(hhdm, a) && Follows(a.v, t) && Children(a.v, t, true)
    requires Harmless(a.v, op) && j < |op.dests| && Live(a.v, p) && a.v[p].cap.kind == Untyped && a.v[p].cap.isOriginal && Derived(t, op.slot, p)
    requires var c := a.v[op.slot].cap; !Refuses(c.sizeBits, c.badge, Pow2(ObjectBits(op.kind, op.sizeBits)), |op.dests|)
    ensures IsChild(Making(hhdm, op, a.v[op.slot].cap)[j], a.v[p].cap)
  {
    hide Structured, Decides, Refuses, Pow2, Offset, PtrAt, Settled, Derived, IsChild, Follows, Children;
    var k := ObjectBits(op.kind, op.sizeBits);
    RetypeChild(hhdm, a, t, op.slot, k, |op.dests|, j, p);
    PlaceIsChild(Making(hhdm, op, a.v[op.slot].cap)[j], a.v[p].cap);
  }

  /** Nothing untyped was derived from a typed capability. */
  lemma TypedHasNoUntyped(v: View, t: Trail, all: bool, slot: Cte, p: Cte)
    requires Children(v, t, all) && Live(v, slot) && Live(v, p) && v[slot].cap.kind == Untyped != v[p].cap.kind && Parent(v[p].cap, all)
    ensures !Derived(t, slot, p)
  {
  }

  lemma PlaceIsChild(c: Cap, u: Cap)
    requires u.isOriginal && u.kind == Untyped && u.ptr <= c.ptr < u.ptr + Pow2(u.sizeBits) < WORD_RANGE
    ensures IsChild(c, u)
  {
    hide Pow2;
  }

  // ----- Every step -----

  lemma MoveKin(hhdm: nat, op: Op, a: Snap, b: Snap, t: Trail, i: nat, all: bool)
    requires Structured(a.v, a.rank) && Structured(b.v, b.rank) && Allowed(a.v, op) && Moves(hhdm, op, a, b)
    requires Kin(a.v, t, i, all) && (all ==> Settled(hhdm, a) && Harmless(a.v, op))
    ensures Kin(b.v, TrailAfter(t, op, a, b, i + 1), i + 1, all)
  {
    hide Structured, Kin, Handed, HandedOut, Emptied, Behind, From, BlockEnd, Carves, Refuses, Settled;
    if b == a {
      LaterKin(a.v, t, i, all);
    } else {
      match op
      case Copy(dest, src, mask) =>
        CopyHandsOut(a.v[src].cap, mask);
        HandedKin(a, b, dest, src, Copied(a.v[src].cap, mask), t, i, all);
      case Mint(dest, src, badge, mask) =>
        MintHandsOut(a.v[src].cap, badge, mask);
        HandedKin(a, b, dest, src, Minted(a.v[src].cap, badge, mask), t, i, all);
      case Retype(_, _, _, _, _) =>
        assert Makes(hhdm, op, a, b);
        RetypeKin(hhdm, op, a, b, t, i, all);
      case Delete(c) => DeleteKin(a, b, c, t, i, all);
      case Revoke(c) => RevokeKin(a, b, c, t, i, all);
    }
  }

  lemma LaterKin(v: View, t: Trail, i: nat, all: bool)
    requires Kin(v, t, i, all)
    ensures Kin(v, t, i + 1, all)
  {
    hide Named;
    LaterNamed(v, v, t, i);
  }

  lemma RevokeKin(a: Snap, b: Snap, c: Cte, t: Trail, i: nat, all: bool)
    requires Structured(a.v, a.rank) && c in a.v && Revoked(a, b, c) && Kin(a.v, t, i, all)
    ensures Kin(b.v, t, i + 1, all)
  {
    hide Structured, Kin, Emptied, Behind, BlockEnd, Hangs;
    BehindHangs(a.v, a.rank, c);
    BehindLive(a.v, a.rank, c);
    CutKin(a, b, c, Behind(a.v, a.rank, c), BlockEnd(a.v[c].cap, CapsOf(a.v, Behind(a.v, a.rank, c)), 0), t, i, all);
  }

  lemma DeleteKin(a: Snap, b: Snap, c: Cte, t: Trail, i: nat, all: bool)
    requires Structured(a.v, a.rank) && c in a.v && Deleted(a, b, c) && Kin(a.v, t, i, all)
    ensures Kin(b.v, t, i + 1, all)
  {
    FromHangs(a.v, a.rank, c);
    BehindLive(a.v, a.rank, c);
    assert Local(a.v, a.rank, c);
    var tail, p := From(a.v, a.rank, c), a.v[c].prev;
    hide Structured, Kin, Emptied, Behind, BlockEnd, Hangs;
    if Live(a.v, c) {
      CutKin(a, b, p, tail, BlockEnd(a.v[c].cap, CapsOf(a.v, tail), 1), t, i, all);
    } else {
      EmptyDelete(a, b, c);
      LaterKin(a.v, t, i, all);
    }
  }

  /** Deleting an empty slot changes nothing. */
  lemma EmptyDelete(a: Snap, b: Snap, c: Cte)
    requires Structured(a.v, a.rank) && c in a.v && !Live(a.v, c) && Deleted(a, b, c)
    ensures b.v == a.v
  {
    assert Local(a.v, a.rank, c);
    assert From(a.v, a.rank, c) == [c];
    hide Structured, Behind, From;
    assert c in After([c], 0);
    assert After([c], 0) == {c};
  }

  lemma {:induction false} RunKin(hhdm: nat, ops: seq<Op>, careful: bool, trace: seq<Snap>, i: nat, all: bool)
    requires IsRun(hhdm, ops, careful, trace) && i <= |ops|
    requires all ==> careful && forall k :: 0 <= k < i ==> Settled(hhdm, trace[k])
    ensures Kin(trace[i].v, Trails(ops, trace, i), i, all)
  {
    hide Kin, Moves, Settled, Permitted, TrailAfter, Structured;
    if i == 0 {
      FirstKin(trace[0].v, all);
    } else {
      RunKin(hhdm, ops, careful, trace, i - 1, all);
      var a, b, op := trace[i - 1], trace[i], ops[i - 1];
      assert RunsFrom(hhdm, op, careful, a, b);
      PermittedIs(a.v, op, careful);
      if Permitted(a.v, op, careful) {
        MoveKin(hhdm, op, a, b, Trails(ops, trace, i - 1), i - 1, all);
      } else {
        Unmoved(Trails(ops, trace, i - 1), op, a, i);
        LaterKin(a.v, Trails(ops, trace, i - 1), i - 1, all);
      }
    }
  }

  lemma Unmoved(t: Trail, op: Op, a: Snap, i: nat)
    ensures TrailAfter(t, op, a, a, i) == t
  {
  }

  lemma FirstKin(v: View, all: bool)
    ensures Kin(v, map c | c in v :: [Id(0, c)], 0, all)
  {
  }

  /** In any run, revoking an original capability leaves nothing of what was derived from it in that run,
      by however many copies and mints; for an untyped one, when memory is accounted for, by retypes too. */
  lemma RevokeIsComplete(hhdm: nat, ops: seq<Op>, careful: bool, trace: seq<Snap>, i: nat, c: Cte)
    requires IsRun(hhdm, ops, careful, trace) && i < |ops| && ops[i] == Op.Revoke(c) && Permitted(trace[i].v, ops[i], careful)
    requires Live(trace[i].v, c) && trace[i].v[c].cap.isOriginal
    requires trace[i].v[c].cap.kind == Untyped ==> careful && forall k :: 0 <= k <= i ==> Settled(hhdm, trace[k])
    ensures forall d :: d in trace[i + 1].v && d != c && Live(trace[i + 1].v, d) ==> !Derived(Trails(ops, trace, i), d, c)
  {
    hide Kin, Settled, Permitted, Structured, Behind, BlockEnd, Trails;
    var a, b, all := trace[i], trace[i + 1], trace[i].v[c].cap.kind == Untyped;
    var t: Trail := Trails(ops, trace, i);
    RunKin(hhdm, ops, careful, trace, i, all);
    assert RunsFrom(hhdm, ops[i], careful, a, b);
    forall d | d in b.v && d != c && Live(b.v, d)
      ensures !Derived(t, d, c)
    {
      RevokedGone(a, b, t, i, all, c, d);
    }
  }

  lemma RevokedGone(a: Snap, b: Snap, t: Trail, i: nat, all: bool, c: Cte, d: Cte)
    requires Structured(a.v, a.rank) && Live(a.v, c) && Revoked(a, b, c) && Kin(a.v, t, i, all) && Parent(a.v[c].cap, all)
    requires d != c && Live(b.v, d)
    ensures d in a.v && !Derived(t, d, c)
  {
    hide Structured, Behind, BlockEnd, Hangs, Named, Follows, Children, Derived;
    BehindHangs(a.v, a.rank, c);
    var tail := Behind(a.v, a.rank, c);
    EmptiedSpares(a, b, c, tail, BlockEnd(a.v[c].cap, CapsOf(a.v, tail), 0));
    if Derived(t, d, c) {
      var j := DerivedInBlock(a.v, a.rank, t, all, c, d);
    }
  }

  lemma {:induction false} BlockShifts(c: Cap, x: Cap, caps: seq<Cap>, e: nat)
    requires e <= |caps|
    ensures BlockEnd(c, [x] + caps, e + 1) == BlockEnd(c, caps, e) + 1
    decreases |caps| - e
  {
    hide IsChild;
    if e < |caps| && IsChild(caps[e], c) {
      assert ([x] + caps)[e + 1] == caps[e];
      BlockShifts(caps[e], x, caps, e + 1);
      BlockShifts(c, x, caps, BlockEnd(caps[e], caps, e + 1));
    }
  }

  /** So does deleting it, and the capability itself is gone as well. */
  lemma DeleteIsComplete(hhdm: nat, ops: seq<Op>, careful: bool, trace: seq<Snap>, i: nat, c: Cte)
    requires IsRun(hhdm, ops, careful, trace) && i < |ops| && ops[i] == Op.Delete(c) && Permitted(trace[i].v, ops[i], careful)
    requires Live(trace[i].v, c) && trace[i].v[c].cap.isOriginal
    requires trace[i].v[c].cap.kind == Untyped ==> careful && forall k :: 0 <= k <= i ==> Settled(hhdm, trace[k])
    ensures forall d :: d in trace[i + 1].v && Live(trace[i + 1].v, d) ==> !Derived(Trails(ops, trace, i), d, c)
  {
    hide Kin, Settled, Permitted, Structured, Behind, From, BlockEnd, Trails;
    var a, b, all := trace[i], trace[i + 1], trace[i].v[c].cap.kind == Untyped;
    var t: Trail := Trails(ops, trace, i);
    RunKin(hhdm, ops, careful, trace, i, all);
    assert RunsFrom(hhdm, ops[i], careful, a, b);
    forall d | d in b.v && Live(b.v, d)
      ensures !Derived(t, d, c)
    {
      DeletedGone(a, b, t, i, all, c, d);
    }
  }

  lemma DeletedGone(a: Snap, b: Snap, t: Trail, i: nat, all: bool, c: Cte, d: Cte)
    requires Structured(a.v, a.rank) && Live(a.v, c) && Deleted(a, b, c) && Kin(a.v, t, i, all) && Parent(a.v[c].cap, all)
    requires Live(b.v, d)
    ensures d in a.v && !Derived(t, d, c)
  {
    hide Structured, Behind, From, BlockEnd, Hangs, Named, Follows, Children, Derived, Deleted;
    DeletedEmpties(a, b, c);
    if Derived(t, d, c) {
      var j := DerivedInBlock(a.v, a.rank, t, all, c, d);
    }
  }

  /** The slot and the block behind it are empty, and everything else has the capability it had. */
  lemma DeletedEmpties(a: Snap, b: Snap, c: Cte)
    requires Structured(a.v, a.rank) && c in a.v && Deleted(a, b, c)
    ensures b.v.Keys == a.v.Keys && !Live(b.v, c) && forall s :: s in a.v ==> b.v[s].cap == a.v[s].cap || b.v[s].cap == NULL_CAP
    ensures var behind := Behind(a.v, a.rank, c);
            forall j :: 0 <= j < BlockEnd(a.v[c].cap, CapsOf(a.v, behind), 0) ==> !Live(b.v, behind[j])
  {
    hide Structured, Behind, From, BlockEnd, Hangs, Emptied, CapsOf, Live;
    var tail, behind, p := From(a.v, a.rank, c), Behind(a.v, a.rank, c), a.v[c].prev;
    var r := BlockEnd(a.v[c].cap, CapsOf(a.v, tail), 1);
    FromHangs(a.v, a.rank, c);
    EmptiedSpares(a, b, p, tail, r);
    EmptiedFront(a, b, p, tail, r);
    FromIs(a.v, a.rank, c);
    ShiftedBlock(a.v, c, behind);
    FrontShifts(b.v, c, behind, r);
  }

  lemma FrontShifts(v: View, c: Cte, behind: seq<Cte>, r: nat)
    requires 0 < r <= |behind| + 1 && forall j :: 0 <= j < r ==> !Live(v, ([c] + behind)[j])
    ensures !Live(v, c) && forall j :: 0 <= j < r - 1 ==> !Live(v, behind[j])
  {
    hide Live;
    assert ([c] + behind)[0] == c;
    forall j | 0 <= j < r - 1
      ensures !Live(v, behind[j])
    {
      assert ([c] + behind)[j + 1] == behind[j];
    }
  }

  lemma ShiftedBlock(v: View, c: Cte, behind: seq<Cte>)
    requires c in v && forall j :: 0 <= j < |behind| ==> behind[j] in v
    ensures forall j :: 0 <= j < |[c] + behind| ==> ([c] + behind)[j] in v
    ensures BlockEnd(v[c].cap, CapsOf(v, [c] + behind), 1) == BlockEnd(v[c].cap, CapsOf(v, behind), 0) + 1
  {
    hide BlockEnd;
    assert CapsOf(v, [c] + behind) == [v[c].cap] + CapsOf(v, behind);
    BlockShifts(v[c].cap, v[c].cap, CapsOf(v, behind), 0);
  }

  lemma EmptiedFront(a: Snap, b: Snap, p: Cte?, all: seq<Cte>, r: nat)
    requires Emptied(a, b, p, all, r)
    ensures r <= |all| && forall j :: 0 <= j < r ==> !Live(b.v, all[j])
  {
    hide Hangs;
  }

  lemma FromIs(v: View, rank: map<Cte, real>, c: Cte)
    requires Structured(v, rank) && c in v
    ensures From(v, rank, c) == [c] + Behind(v, rank, c)
  {
  }

  /** Revoking a capability that is no original, such as a copy of a typed one, changes nothing at all. */
  lemma RevokeOfCopy(hhdm: nat, a: Snap, b: Snap, c: Cte)
    requires Structured(a.v, a.rank) && Structured(b.v, b.rank) && c in a.v && Moves(hhdm, Op.Revoke(c), a, b) && !a.v[c].cap.isOriginal
    ensures b == a
  {
    hide Structured, Behind, BlockEnd, Hangs, CutOff;
    var all := Behind(a.v, a.rank, c);
    BehindHangs(a.v, a.rank, c);
    NoOriginalNoBlock(a.v[c].cap, CapsOf(a.v, all), 0);
    NothingCut(a.v, b.v, c, all);
  }

  lemma NothingCut(v: View, v': View, p: Cte, all: seq<Cte>)
    requires Distinct(all) && Hangs(v, p, all, 0) && CutOff(v, v', p, all, 0) && p !in all
    ensures v' == v
  {
    AfterWithin(all, 0);
    forall s | s in v
      ensures v'[s] == v[s]
    {
      if s in After(all, 0) {
        var j :| 0 <= j < |all| && all[j] == s;
        assert v[all[j]] == v'[all[j]];
      }
    }
  }
}
