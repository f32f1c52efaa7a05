/** All lists of the kernel in one heap: the run queue, the endpoint queues and the notification queues,
    as rings that share one pool of nodes (include/list.h). */
module KernelLists {
  import opened Seqs
  import opened ListRing

  datatype QueueId = Ready | Endpoint(e: nat) | Notification(n: nat)

  type Items = map<QueueId, seq<Link>>

  // ----- One list -----

  /** A list is a whole ring of its head and its items. */
  ghost predicate Whole(head: Link, items: seq<Link>)
    reads head, items
  {
    Ring([head] + items)
  }

  method Push(head: Link, ghost items: seq<Link>, x: Link)
    requires Whole(head, items) && x != head && x !in items
    modifies head, items, x
    ensures Whole(head, [x] + items)
  {
    ghost var r := AppendToList(x, head, [head] + items);
    assert r == [head] + ([x] + items);
  }

  method Take(head: Link, ghost items: seq<Link>) returns (x: Link)
    requires Whole(head, items) && items != []
    modifies head, items
    ensures x == items[0] && x.next == x && Whole(head, items[1..])
  {
    ghost var r;
    x, r := PopFromList(head, [head] + items);
    assert r == [head] + items[1..];
  }

  method Drop(ghost head: Link, ghost items: seq<Link>, x: Link, ghost i: nat)
    requires Whole(head, items) && i < |items| && items[i] == x
    modifies head, items
    ensures x.next == x && Whole(head, items[..i] + items[i + 1..])
  {
    ghost var r := RemoveFromList(x, [head] + items, i + 1);
    assert r == [head] + (items[..i] + items[i + 1..]);
  }

  lemma WholeDistinct(head: Link, items: seq<Link>)
    requires Whole(head, items)
    ensures Distinct(items) && head !in items
  {
    var r := [head] + items;
    forall i, j | 0 <= i < j < |items|
      ensures items[i] != items[j]
    {
      assert r[i + 1] != r[j + 1];
    }
    forall i | 0 <= i < |items|
      ensures items[i] != head
    {
      assert r[0] != r[i + 1];
    }
  }

  // ----- The links as values -----

  datatype Ends = Ends(next: Link?, prev: Link?)
  type Links = map<Link, Ends>

  ghost function LinksOf(s: set<Link>): (m: Links)
    reads s
    ensures m.Keys == s
  {
    map x | x in s :: Ends(x.next, x.prev)
  }

  /** Of the nodes in `pool`, only those of a list and the node `x` have had their links changed. */
  ghost predicate Only(m: Links, pool: set<Link>, head: Link, items: seq<Link>, x: Link)
    reads pool
  {
    m.Keys == pool && forall y :: y in pool && y != head && y !in items && y != x ==> m[y] == Ends(y.next, y.prev)
  }

  method PushIn(head: Link, ghost items: seq<Link>, x: Link, ghost m: Links, ghost pool: set<Link>)
    requires Whole(head, items) && x != head && x !in items && m == LinksOf(pool)
    modifies head, items, x
    ensures Whole(head, [x] + items) && Only(m, pool, head, items, x)
  {
    hide Whole;
    Push(head, items, x);
  }

  method TakeIn(head: Link, ghost items: seq<Link>, ghost m: Links, ghost pool: set<Link>) returns (x: Link)
    requires Whole(head, items) && items != [] && m == LinksOf(pool)
    modifies head, items
    ensures x == items[0] && x.next == x && Whole(head, items[1..]) && Only(m, pool, head, items, x)
  {
    hide Whole;
    x := Take(head, items);
  }

  method DropIn(ghost head: Link, ghost items: seq<Link>, x: Link, ghost i: nat, ghost m: Links, ghost pool: set<Link>)
    requires Whole(head, items) && i < |items| && items[i] == x && m == LinksOf(pool)
    modifies head, items
    ensures x.next == x && Whole(head, items[..i] + items[i + 1..]) && Only(m, pool, head, items, x)
  {
    hide Whole;
    Drop(head, items, x, i);
  }

  /** Whole, read off from the links as values. */
  ghost predicate WholeIn(m: Links, head: Link, items: seq<Link>)
  {
    var r := [head] + items;
    && (forall i :: 0 <= i < |r| ==> r[i] in m) && Distinct(r)
    && (forall i {:trigger m[r[i]]} :: 0 <= i < |r| ==>
          && m[r[i]].next == (if i + 1 < |r| then r[i + 1] else head)
          && m[r[i]].prev == (if i > 0 then r[i - 1] else r[|r| - 1]))
  }

  lemma WholeIff(s: set<Link>, head: Link, items: seq<Link>)
    requires head in s && forall x :: x in items ==> x in s
    ensures Whole(head, items) <==> WholeIn(LinksOf(s), head, items)
  {
    var r, m := [head] + items, LinksOf(s);
    assert forall i :: 0 <= i < |r| ==> r[i] in s;
    if Whole(head, items) {
      forall i | 0 <= i < |r|
        ensures m[r[i]].next == (if i + 1 < |r| then r[i + 1] else head)
        ensures m[r[i]].prev == (if i > 0 then r[i - 1] else r[|r| - 1])
      {
        assert i + 1 < |r| ==> r[i].next == r[i + 1];
        assert i > 0 ==> r[i].prev == r[i - 1];
      }
    }
    if WholeIn(m, head, items) {
      forall i | 0 <= i < |r|
        ensures r[i].next == m[r[i]].next && r[i].prev == m[r[i]].prev
      {
      }
    }
  }

  /** A list stays whole when no link of its nodes changes. */
  lemma StaysWhole(m: Links, m': Links, head: Link, items: seq<Link>)
    requires WholeIn(m, head, items) && m'.Keys == m.Keys && head in m && m'[head] == m[head]
    requires forall x :: x in items && x in m ==> m'[x] == m[x]
    ensures WholeIn(m', head, items)
  {
    var r := [head] + items;
    forall i | 0 <= i < |r|
      ensures m'[r[i]] == m[r[i]]
    {
      assert i > 0 ==> r[i] == items[i - 1] && r[i] in items;
    }
  }

  // ----- All lists -----

  /** No node is in two lists, and heads are no nodes. */
  ghost predicate Apart(heads: map<QueueId, Link>, nodes: set<Link>, items: Items)
  {
    && items.Keys == heads.Keys
    && (forall q :: q in heads ==> heads[q] !in nodes)
    && (forall p, q :: p in heads && q in heads && p != q ==> heads[p] != heads[q])
    && (forall q, x :: q in items && x in items[q] ==> x in nodes)
    && (forall p, q, x :: p in items && q in items && x in items[p] && x in items[q] ==> p == q)
  }

  /** A node that is in no list. */
  ghost predicate Free(nodes: set<Link>, items: Items, x: Link)
  {
    x in nodes && forall q :: q in items ==> x !in items[q]
  }

  lemma AppendApart(heads: map<QueueId, Link>, nodes: set<Link>, items: Items, q: QueueId, x: Link)
    requires Apart(heads, nodes, items) && q in heads && Free(nodes, items, x)
    ensures Apart(heads, nodes, items[q := [x] + items[q]])
    ensures forall y :: Free(nodes, items[q := [x] + items[q]], y) <==> Free(nodes, items, y) && y != x
  {
    var items' := items[q := [x] + items[q]];
    forall y | Free(nodes, items, y) && y != x
      ensures Free(nodes, items', y)
    {
    }
    forall y | Free(nodes, items', y)
      ensures Free(nodes, items, y) && y != x
    {
      assert y !in items'[q];
      forall p | p in items
        ensures y !in items[p]
      {
        assert p != q ==> items'[p] == items[p];
      }
    }
  }

  /** The items without the one at position `i`. */
  ghost function But(s: seq<Link>, i: nat): seq<Link>
    requires i < |s|
  {
    s[..i] + s[i + 1..]
  }

  lemma ButHas(s: seq<Link>, i: nat, y: Link)
    requires i < |s| && Distinct(s)
    ensures y in But(s, i) <==> y in s && y != s[i]
  {
    if y in s && y != s[i] {
      var j :| 0 <= j < |s| && s[j] == y;
      assert But(s, i)[if j < i then j else j - 1] == y;
    }
  }

  lemma RemoveApart(heads: map<QueueId, Link>, nodes: set<Link>, items: Items, q: QueueId, i: nat)
    requires Apart(heads, nodes, items) && q in heads && i < |items[q]| && Distinct(items[q])
    ensures Apart(heads, nodes, items[q := But(items[q], i)])
    ensures forall y :: Free(nodes, items[q := But(items[q], i)], y) <==> Free(nodes, items, y) || y == items[q][i]
  {
    var items' := items[q := But(items[q], i)];
    forall y
      ensures y in But(items[q], i) <==> y in items[q] && y != items[q][i]
    {
      ButHas(items[q], i, y);
    }
    forall y | Free(nodes, items', y)
      ensures Free(nodes, items, y) || y == items[q][i]
    {
      if y != items[q][i] {
        forall p | p in items
          ensures y !in items[p]
        {
          assert p != q ==> items'[p] == items[p];
          assert y !in items'[q];
        }
      }
    }
  }

  class Lists {
    const heads: map<QueueId, Link>
    ghost const nodes: set<Link>
    /** The nodes and the heads. */
    ghost const pool: set<Link>
    ghost var items: Items

    ghost predicate Pooled() { nodes <= pool && forall q :: q in heads ==> heads[q] in pool }

    ghost predicate Valid()
      reads this, pool
    {
      Pooled() && Apart(heads, nodes, items) && AllWhole()
    }

    ghost predicate AllWhole()
      requires Pooled() && Apart(heads, nodes, items)
      reads this, pool
    {
      forall q :: q in heads ==> Whole(heads[q], items[q])
    }

    /** The free nodes that are linked to themselves. */
    ghost function Selfs(): set<Link>
      reads this, pool
      requires Pooled()
    {
      set x | x in nodes && Free(nodes, items, x) && x.next == x
    }

    /** Heads of lists that have been initialised. */
    constructor (heads: map<QueueId, Link>, ghost nodes: set<Link>)
      requires forall q :: q in heads ==> Ring([heads[q]]) && heads[q] !in nodes
      requires forall p, q :: p in heads && q in heads && p != q ==> heads[p] != heads[q]
      ensures this.heads == heads && this.nodes == nodes && Valid() && items == map q | q in heads :: []
    {
      this.heads, this.nodes, pool := heads, nodes, nodes + set q | q in heads :: heads[q];
      items := map q | q in heads :: [];
      new;
      hide Ring;
      forall q | q in heads
        ensures Whole(heads[q], items[q])
      {
        assert [heads[q]] + [] == [heads[q]];
      }
    }

    /** Everything but list `q` stays whole when only links of its nodes and of `x` change. */
    lemma OthersStay(m: Links, was: Items, q: QueueId, x: Link)
      requires Pooled() && Apart(heads, nodes, was) && q in heads && x in nodes && forall p :: p in was && p != q ==> x !in was[p]
      requires m.Keys == pool && AllIn(m, was) && Only(m, pool, heads[q], was[q], x)
      ensures forall p :: p in heads && p != q ==> Whole(heads[p], was[p])
    {
      var m' := LinksOf(pool);
      forall p | p in heads && p != q
        ensures Whole(heads[p], was[p])
      {
        StaysWhole(m, m', heads[p], was[p]);
        WholeIff(pool, heads[p], was[p]);
      }
    }

    ghost predicate AllIn(m: Links, was: Items)
    {
      heads.Keys <= was.Keys && forall p :: p in heads ==> WholeIn(m, heads[p], was[p])
    }

    ghost function SelfsIn(m: Links, was: Items): set<Link>
      requires nodes <= m.Keys
    {
      set y | y in nodes && Free(nodes, was, y) && m[y].next == y
    }

    lemma AsLinks()
      requires Valid()
      ensures AllIn(LinksOf(pool), items) && Selfs() == SelfsIn(LinksOf(pool), items)
    {
      forall p | p in heads
        ensures WholeIn(LinksOf(pool), heads[p], items[p])
      {
        WholeIff(pool, heads[p], items[p]);
      }
      hide Free;
      assert forall y :: y in nodes ==> LinksOf(pool)[y] == Ends(y.next, y.prev);
    }

    /** What the three operations need to know before they touch list `q`. */
    lemma BeforeUse(q: QueueId)
      requires Valid() && q in heads
      ensures Whole(heads[q], items[q]) && Distinct(items[q]) && heads[q] !in items[q] && items.Keys == heads.Keys
      ensures forall x :: x in items[q] ==> x in nodes && forall p :: p in items && p != q ==> x !in items[p]
      ensures forall x :: Free(nodes, items, x) ==> x != heads[q] && x in nodes && forall p :: p in items ==> x !in items[p]
    {
      WholeDistinct(heads[q], items[q]);
      hide Whole;
    }

    lemma Reassembled(was: Items, q: QueueId)
      requires Pooled() && q in was && q in items && items == was[q := items[q]] && Apart(heads, nodes, items)
      requires q in heads && Whole(heads[q], items[q]) && forall p :: p in heads && p in was && p != q ==> Whole(heads[p], was[p])
      ensures Valid()
    {
      hide Whole;
      forall p | p in heads
        ensures Whole(heads[p], items[p])
      {
        assert p != q ==> items[p] == was[p];
      }
    }

    /** The free nodes linked to themselves, when links of list `q` and of `x` have changed. */
    lemma SelfsChange(m: Links, was: Items, q: QueueId, x: Link, selfs: set<Link>)
      requires Pooled() && m.Keys == pool && x in nodes && q in was && Apart(heads, nodes, was) && q in heads
      requires selfs == SelfsIn(m, was)
      requires Only(m, pool, heads[q], was[q], x)
      requires forall y :: y in nodes && y != x ==> (Free(nodes, items, y) <==> Free(nodes, was, y))
      ensures Selfs() == if Free(nodes, items, x) && x.next == x then selfs + {x} else selfs - {x}
    {
      forall y | y in nodes && y != x
        ensures y in Selfs() <==> y in selfs
      {
        if Free(nodes, was, y) {
          assert y !in was[q];
        }
      }
    }

    /** Everything known before the items of list `q` become `now` and the node `x` is linked or unlinked. */
    ghost predicate Prepared(was: Items, m: Links, selfs: set<Link>, q: QueueId, x: Link, now: seq<Link>)
    {
      && Pooled() && m.Keys == pool && q in heads && x in nodes && Apart(heads, nodes, was) && AllIn(m, was) && selfs == SelfsIn(m, was)
      && (forall p :: p in was && p != q ==> x !in was[p])
      && Apart(heads, nodes, was[q := now])
      && (forall y :: y in nodes && y != x ==> (Free(nodes, was[q := now], y) <==> Free(nodes, was, y)))
      && (Free(nodes, was[q := now], x) <==> x !in now)
    }

    lemma Finish(was: Items, m: Links, selfs: set<Link>, q: QueueId, x: Link, now: seq<Link>)
      requires Prepared(was, m, selfs, q, x, now) && items == was[q := now]
      requires Whole(heads[q], now) && Only(m, pool, heads[q], was[q], x)
      ensures Valid() && Selfs() == if x !in now && x.next == x then selfs + {x} else selfs - {x}
    {
      hide Whole, Free, Only, AllIn, SelfsIn, Selfs, WholeIn;
      OthersStay(m, was, q, x);
      Reassembled(was, q);
      SelfsChange(m, was, q, x, selfs);
    }

    lemma PrepareAppend(q: QueueId, x: Link)
      requires Valid() && q in heads && Free(nodes, items, x)
      ensures Prepared(items, LinksOf(pool), Selfs(), q, x, [x] + items[q])
      ensures Whole(heads[q], items[q]) && x != heads[q] && x !in items[q] && x in pool
    {
      hide Whole, AllIn, SelfsIn, Selfs, LinksOf;
      AsLinks();
      BeforeUse(q);
      AppendApart(heads, nodes, items, q, x);
    }

    lemma PrepareRemove(q: QueueId, i: nat)
      requires Valid() && q in heads && i < |items[q]|
      ensures Prepared(items, LinksOf(pool), Selfs(), q, items[q][i], But(items[q], i))
      ensures Whole(heads[q], items[q]) && items[q][i] !in But(items[q], i)
    {
      hide Whole, AllIn, SelfsIn, Selfs, LinksOf;
      AsLinks();
      BeforeUse(q);
      RemoveApart(heads, nodes, items, q, i);
      ButHas(items[q], i, items[q][i]);
    }

    /** The nodes an operation on list `q` may touch. */
    lemma InPool(q: QueueId)
      requires Valid() && q in heads
      ensures Pooled() && q in items && heads[q] in pool && nodes <= pool && forall y :: y in items[q] ==> y in pool
    {
    }

    /** append_to_list. */
    method Append(q: QueueId, x: Link)
      requires Valid() && q in heads && Free(nodes, items, x)
      modifies this`items, pool
      ensures Valid() && items == old(items)[q := [x] + old(items)[q]]
      ensures Selfs() == old(Selfs()) - {x}
    {
      hide *;
      InPool(q);
      ghost var was, m, selfs, now := items, LinksOf(pool), Selfs(), [x] + items[q];
      PrepareAppend(q, x);
      PushIn(heads[q], items[q], x, m, pool);
      items := items[q := now];
      Finish(was, m, selfs, q, x, now);
    }

    /** pop_from_list: the item appended last. */
    method Pop(q: QueueId) returns (x: Link)
      requires Valid() && q in heads && items[q] != []
      modifies this`items, pool
      ensures x == old(items)[q][0] && Valid() && items == old(items)[q := old(items)[q][1..]]
      ensures Selfs() == old(Selfs()) + {x}
    {
      hide *;
      InPool(q);
      ghost var was, m, selfs, now := items, LinksOf(pool), Selfs(), items[q][1..];
      PrepareRemove(q, 0);
      ButFirst(items[q]);
      x := TakeIn(heads[q], items[q], m, pool);
      items := items[q := now];
      Finish(was, m, selfs, q, x, now);
    }

    lemma ButFirst(s: seq<Link>)
      requires s != []
      ensures But(s, 0) == s[1..]
    {
    }

    lemma ButIs(s: seq<Link>, i: nat)
      requires i < |s|
      ensures But(s, i) == s[..i] + s[i + 1..]
    {
    }

    /** remove_from_list, of the item at position `i` of list `q`. */
    method Remove(x: Link, ghost q: QueueId, ghost i: nat)
      requires Valid() && q in heads && i < |items[q]| && items[q][i] == x
      modifies this`items, pool
      ensures Valid() && items == old(items)[q := But(old(items)[q], i)]
      ensures Selfs() == old(Selfs()) + {x}
    {
      hide *;
      InPool(q);
      ghost var was, m, selfs, now := items, LinksOf(pool), Selfs(), But(items[q], i);
      PrepareRemove(q, i);
      ButIs(items[q], i);
      DropIn(heads[q], items[q], x, i, m, pool);
      items := items[q := now];
      Finish(was, m, selfs, q, x, now);
    }

    /** is_list_empty. */
    method Empty(q: QueueId) returns (empty: bool)
      requires Valid() && q in heads
      ensures empty <==> items[q] == []
    {
      empty := IsListEmpty(heads[q], [heads[q]] + items[q]);
      assert ([heads[q]] + items[q])[1..] == items[q];
    }

    /** first_item. */
    method First(q: QueueId) returns (x: Link)
      requires Valid() && q in heads && items[q] != []
      ensures x == items[q][0]
    {
      ghost var r := [heads[q]] + items[q];
      assert Ring(r) && r[0].next == r[1];
      x := heads[q].next;
    }

    /** A node is linked to itself exactly if it is free and has been linked before. */
    lemma SelfIff(x: Link)
      requires Valid() && x in nodes
      ensures x.next == x <==> x in Selfs()
    {
      if !Free(nodes, items, x) {
        var q :| q in items && x in items[q];
        var i :| 0 <= i < |items[q]| && items[q][i] == x;
        NotSelf(heads[q], items[q], i);
      }
    }

    lemma NotSelf(head: Link, s: seq<Link>, i: nat)
      requires Whole(head, s) && i < |s|
      ensures s[i].next != s[i]
    {
      var r := [head] + s;
      assert r[i + 1] == s[i];
      assert i + 2 < |r| ==> r[i + 1].next == r[i + 2];
    }
  }
}
