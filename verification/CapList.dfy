/** The derivation list as the kernel keeps it: slots linked through next and prev
    pointers that copy, mint, retype, delete and revoke splice in place (kern/cdt.c). */
module CapList {
  import opened Caps
  import opened Cdt
  import opened Seqs

  class Cte {
    var cap: Cap
    var next: Cte?
    var prev: Cte?

    constructor ()
      ensures cap == NULL_CAP && next == null && prev == null
    {
      cap, next, prev := NULL_CAP, null, null;
    }
  }

  /** From position `e` on, `caps` are the capabilities stored along `all`. */
  ghost predicate Stores(all: seq<Cte>, caps: seq<Cap>, e: nat)
    requires Distinct(all) && e <= |all|
    reads After(all, e)`cap
  {
    |caps| == |all| && forall i :: e <= i < |all| ==> all[i].cap == caps[i]
  }

  predicate Blank(c: Cte)
    reads c
  {
    c.cap == NULL_CAP && c.next == null && c.prev == null
  }

  /** The neighbours of a node, as sets, for frames. */
  function NextOf(c: Cte): set<Cte>
    reads c
  {
    if c.next == null then {} else {c.next}
  }

  function PrevOf(c: Cte): set<Cte>
    reads c
  {
    if c.prev == null then {} else {c.prev}
  }

  /** insert_cte_after, as two field updates on each side of the new node. */
  method InsertCteAfter(n: Cte, after: Cte)
    requires n != after && n != after.next && after != after.next
    modifies n`next, n`prev, after`next, NextOf(after)`prev
    ensures after.next == n && n.prev == after && n.next == old(after.next)
    ensures n.next != null ==> n.next.prev == n
  {
    var next := after.next;
    if next != null {
      next.prev := n;
    }
    after.next := n;
    n.next := next;
    n.prev := after;
  }

  method UnlinkCte(del: Cte)
    requires del.prev != del && del.next != del
    modifies del`next, del`prev, NextOf(del)`prev, PrevOf(del)`next
    ensures del.next == null && del.prev == null
    ensures old(del.prev) != null ==> old(del.prev).next == old(del.next)
    ensures old(del.next) != null ==> old(del.next).prev == old(del.prev)
  {
    if del.prev != null {
      del.prev.next := del.next;
    }
    if del.next != null {
      del.next.prev := del.prev;
    }
    del.next := null;
    del.prev := null;
  }

  function Maybe(p: Cte?): set<Cte>
  {
    if p == null then {} else {p}
  }

  /** The nodes from position `e` on, as a set, for frames. */
  ghost function After(all: seq<Cte>, e: nat): (s: set<Cte>)
    requires Distinct(all) && e <= |all|
    ensures forall j :: 0 <= j < |all| ==> (all[j] in s <==> e <= j)
    decreases |all| - e
  {
    if e == |all| then {} else {all[e]} + After(all, e + 1)
  }

  lemma {:induction false} AfterShrinks(all: seq<Cte>, e: nat, r: nat)
    requires Distinct(all) && e <= r <= |all|
    ensures After(all, r) <= After(all, e)
    decreases |all| - e
  {
    if e < r {
      AfterShrinks(all, e + 1, r);
    }
  }

  /** `all[e..]` is the rest of a chain, hanging off the node `p` (null: it is a whole chain). */
  ghost predicate Tail(p: Cte?, all: seq<Cte>, e: nat)
    requires Distinct(all) && e <= |all|
    reads Maybe(p)`next, all`next, all`prev
  {
    && (p != null ==> p.next == if e < |all| then all[e] else null)
    && (e < |all| ==> all[e].prev == p && all[|all| - 1].next == null)
    && (forall k {:trigger all[k].next} :: e <= k < |all| - 1 ==> all[k].next == all[k + 1])
    && (forall k {:trigger all[k].prev} :: e < k < |all| ==> all[k].prev == all[k - 1])
  }

  /** The last two steps of delete_cap, once the block up to `r` behind `c` is gone. */
  method Detach(ghost p: Cte?, c: Cte, ghost all: seq<Cte>, ghost e: nat, ghost r: nat)
    requires Distinct(all) && e < r <= |all| && c == all[e] && p !in After(all, e)
    requires Tail(c, all, r) && c.prev == p && (p != null ==> p.next == c)
    requires forall j :: e < j < r ==> Blank(all[j])
    modifies c, NextOf(c)`prev, PrevOf(c)`next
    ensures Tail(p, all, r)
    ensures forall j :: e <= j < r ==> Blank(all[j])
  {
    UnlinkCte(c);
    c.cap := NULL_CAP;
  }

  /** delete_cap(all[e]), with `p` before it: the node goes together with the block that revoking
      it removes; those slots are emptied, and the rest of the chain hangs off `p`. */
  method DeleteCap(ghost p: Cte?, c: Cte, ghost all: seq<Cte>, ghost caps: seq<Cap>, ghost e: nat)
    requires Distinct(all) && e < |all| && c == all[e] && p !in After(all, e)
    requires Tail(p, all, e) && Stores(all, caps, e)
    modifies Maybe(p)`next, After(all, e)
    ensures var r := BlockEnd(caps[e], caps, e + 1);
            && Tail(p, all, r)
            && Stores(all, caps, r)
            && forall j :: e <= j < r ==> Blank(all[j])
    decreases |all| - e, 0
  {
    ghost var r := BlockEnd(caps[e], caps, e + 1);
    AfterShrinks(all, e, e + 1);
    AfterShrinks(all, e + 1, r);
    RevokeCap(c, all, caps, e + 1);
    Detach(p, c, all, e, r);
  }

  /** revoke_cap(c), with `all[e..]` following `c` in its chain: one contiguous block goes. */
  method RevokeCap(c: Cte, ghost all: seq<Cte>, ghost caps: seq<Cap>, ghost e: nat)
    requires Distinct(all) && e <= |all| && c !in After(all, e)
    requires Tail(c, all, e) && Stores(all, caps, e)
    modifies c`next, After(all, e)
    ensures var r := BlockEnd(old(c.cap), caps, e);
            && Tail(c, all, r)
            && Stores(all, caps, r)
            && forall j :: e <= j < r ==> Blank(all[j])
    ensures c.next != null ==> !IsChild(c.next.cap, old(c.cap))
    decreases |all| - e, 1
  {
    ghost var r := e;
    while c.next != null && IsChild(c.next.cap, c.cap)
      invariant e <= r <= |all|
      invariant Tail(c, all, r) && Stores(all, caps, r)
      invariant forall j :: e <= j < r ==> Blank(all[j])
      invariant BlockEnd(old(c.cap), caps, r) == BlockEnd(old(c.cap), caps, e)
      invariant c.cap == old(c.cap)
      decreases |all| - r
    {
      AfterShrinks(all, e, r);
      DeleteCap(c, c.next, all, caps, r);
      r := BlockEnd(caps[r], caps, r + 1);
    }
  }

  lemma {:induction false} AfterWithin(all: seq<Cte>, e: nat)
    requires Distinct(all) && e <= |all|
    ensures forall c :: c in After(all, e) ==> c in all
    decreases |all| - e
  {
    if e < |all| {
      AfterWithin(all, e + 1);
    }
  }
}
