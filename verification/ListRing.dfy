/** The intrusive circular doubly linked list behind every kernel queue (include/list.h).
    A list is its head followed by its items; the pointer code refines operations on that
    sequence, and append and pop work at the same end. */
module ListRing {
  import opened Seqs

  /** A node, embedded in the object with number `owner`; CONTAINER_OF leads back to it. */
  class Link {
    const owner: nat
    var next: Link?
    var prev: Link?

    constructor (owner: nat)
      ensures next == null && prev == null && this.owner == owner
    {
      this.owner := owner;
      next, prev := null, null;
    }
  }

  /** `r` is a whole ring; `r[0]` is the head and `r[1..]` are the items, first one first. */
  ghost predicate Ring(r: seq<Link>)
    reads r
  {
    && |r| > 0 && Distinct(r)
    && (forall i {:trigger r[i].next} :: 0 <= i < |r| - 1 ==> r[i].next == r[i + 1])
    && (forall i {:trigger r[i].prev} :: 0 < i < |r| ==> r[i].prev == r[i - 1])
    && r[|r| - 1].next == r[0] && r[0].prev == r[|r| - 1]
  }

  lemma InsertDistinct(r: seq<Link>, x: Link, i: nat)
    requires Distinct(r) && x !in r && i <= |r|
    ensures Distinct(r[..i] + [x] + r[i..])
  {
  }

  lemma RemoveDistinct(r: seq<Link>, i: nat)
    requires Distinct(r) && i < |r|
    ensures Distinct(r[..i] + r[i + 1..])
  {
  }

  method InitList(head: Link)
    modifies head
    ensures Ring([head])
  {
    head.next := head;
    head.prev := head;
  }

  /** Splice `n` in between the neighbours at positions i and i + 1 of the ring. */
  method InsertListInternal(n: Link, prev: Link, next: Link, ghost r: seq<Link>, ghost i: nat)
    requires Ring(r) && n !in r && i < |r| && prev == r[i] && next == (if i + 1 < |r| then r[i + 1] else r[0])
    modifies n, r
    ensures Ring(r[..i + 1] + [n] + r[i + 1..])
  {
    n.next := next;
    n.prev := prev;
    prev.next := n;
    next.prev := n;
    ghost var r' := r[..i + 1] + [n] + r[i + 1..];
    InsertDistinct(r, n, i + 1);
    forall j | 0 <= j < |r'| - 1
      ensures r'[j].next == r'[j + 1] && r'[j + 1].prev == r'[j]
    {
      if j < i {
        assert r'[j] == r[j] && r'[j + 1] == r[j + 1];
      } else if j > i + 1 {
        assert r'[j] == r[j - 1] && r'[j + 1] == r[j];
      }
    }
  }

  /** append_to_list puts the new item first. */
  method AppendToList(n: Link, head: Link, ghost r: seq<Link>) returns (ghost r': seq<Link>)
    requires Ring(r) && head == r[0] && n !in r
    modifies n, r
    ensures r' == [head, n] + r[1..] && Ring(r')
  {
    assert |r| > 1 ==> r[0].next == r[1];
    InsertListInternal(n, head, head.next, r, 0);
    r' := [head, n] + r[1..];
    assert r' == r[..1] + [n] + r[1..];
  }

  /** prepend_to_list puts the new item last. */
  method PrependToList(n: Link, head: Link, ghost r: seq<Link>) returns (ghost r': seq<Link>)
    requires Ring(r) && head == r[0] && n !in r
    modifies n, r
    ensures r' == r + [n] && Ring(r')
  {
    InsertListInternal(n, head.prev, head, r, |r| - 1);
    r' := r + [n];
    assert r' == r[..|r|] + [n] + r[|r|..];
  }

  /** remove_from_list takes an item out of whichever ring holds it and leaves it linked to itself. */
  method RemoveFromList(entry: Link, ghost r: seq<Link>, ghost i: nat) returns (ghost r': seq<Link>)
    requires Ring(r) && 0 < i < |r| && entry == r[i]
    modifies r
    ensures r' == r[..i] + r[i + 1..] && Ring(r') && Ring([entry])
  {
    assert r[i].prev == r[i - 1] && r[i].next == if i + 1 < |r| then r[i + 1] else r[0];
    entry.prev.next := entry.next;
    entry.next.prev := entry.prev;
    InitList(entry);
    r' := r[..i] + r[i + 1..];
    RemoveDistinct(r, i);
    forall j | 0 <= j < |r'| - 1
      ensures r'[j].next == r'[j + 1] && r'[j + 1].prev == r'[j]
    {
      if j < i - 1 {
        assert r'[j] == r[j] && r'[j + 1] == r[j + 1];
      } else if j >= i {
        assert r'[j] == r[j + 1] && r'[j + 1] == r[j + 2];
      }
    }
  }

  /** pop_from_list takes the first item: the one appended last. */
  method PopFromList(head: Link, ghost r: seq<Link>) returns (x: Link, ghost r': seq<Link>)
    requires Ring(r) && head == r[0] && |r| > 1
    modifies r
    ensures x == r[1] && r' == [head] + r[2..] && Ring(r') && Ring([x])
  {
    assert r[0].next == r[1];
    x := head.next;
    r' := RemoveFromList(x, r, 1);
    assert r' == [head] + r[2..];
  }

  method IsListEmpty(head: Link, ghost r: seq<Link>) returns (empty: bool)
    requires Ring(r) && head == r[0]
    ensures empty <==> r[1..] == []
  {
    assert |r| > 1 ==> r[0].next == r[1];
    empty := head.next == head;
  }
}
