/** All capability slots at once, as values: chains, what inserting and cutting do to them, where
    capabilities come from, and the memory they stand for (kern/cdt.c, kern/obj/untyped.c). */
module CapViews {
  import opened Arith
  import opened Caps
  import opened Cdt
  import opened CapList
  import opened Seqs
  import opened UntypedMemory

  /** One slot as a value, and all slots of the system: the abstract view of the heap. */
  datatype Node = Node(cap: Cap, next: Cte?, prev: Cte?)
  type View = map<Cte, Node>

  /** Links are mutually inverse at `c`, next climbs in rank, and an empty slot is unlinked. */
  ghost predicate Local(v: View, rank: map<Cte, real>, c: Cte)
    requires c in v && v.Keys <= rank.Keys
  {
    var n := v[c];
    && (n.next != null ==> n.next in v && v[n.next].prev == c && rank[c] < rank[n.next])
    && (n.prev != null ==> n.prev in v && v[n.prev].next == c)
    && (n.cap.kind == Null ==> n == Node(NULL_CAP, null, null))
  }

  /** The slots form disjoint, acyclic, doubly linked chains. */
  ghost predicate Structured(v: View, rank: map<Cte, real>)
  {
    v.Keys <= rank.Keys && forall c {:trigger Local(v, rank, c)} :: c in v ==> Local(v, rank, c)
  }

  /** From position `r` on, the nodes `all` hang off `p` and end the chain. */
  ghost predicate Hangs(v: View, p: Cte?, all: seq<Cte>, r: nat)
    requires r <= |all|
  {
    && (p != null ==> p in v && v[p].next == if r < |all| then all[r] else null)
    && (forall j :: 0 <= j < |all| ==> all[j] in v)
    && (forall j {:trigger v[all[j]]} :: r <= j < |all| ==>
          && v[all[j]].prev == (if j == r then p else all[j - 1])
          && v[all[j]].next == (if j + 1 < |all| then all[j + 1] else null))
  }

  ghost function Above(v: View, rank: map<Cte, real>, c: Cte): set<Cte>
    requires c in v && v.Keys <= rank.Keys
  {
    set s | s in v && rank[c] < rank[s]
  }

  /** What follows `c` in its chain, read off the next pointers. */
  ghost function Behind(v: View, rank: map<Cte, real>, c: Cte): (all: seq<Cte>)
    requires Structured(v, rank) && c in v
    ensures forall j :: 0 <= j < |all| ==> all[j] in v && rank[c] < rank[all[j]]
    ensures forall i, j :: 0 <= i < j < |all| ==> rank[all[i]] < rank[all[j]]
    decreases Above(v, rank, c)
  {
    var n := v[c].next;
    if n == null then [] else
      assert Local(v, rank, c) && n in Above(v, rank, c) && n !in Above(v, rank, n);
      [n] + Behind(v, rank, n)
  }

  lemma {:induction false} BehindHangs(v: View, rank: map<Cte, real>, c: Cte)
    requires Structured(v, rank) && c in v
    ensures Distinct(Behind(v, rank, c)) && Hangs(v, c, Behind(v, rank, c), 0) && c !in Behind(v, rank, c)
    decreases Above(v, rank, c)
  {
    assert Local(v, rank, c);
    var n := v[c].next;
    if n != null {
      assert n in Above(v, rank, c) && n !in Above(v, rank, n);
      BehindHangs(v, rank, n);
      var rest, all := Behind(v, rank, n), Behind(v, rank, c);
      forall j | 0 < j < |all|
        ensures v[all[j]].prev == all[j - 1] && v[all[j]].next == if j + 1 < |all| then all[j + 1] else null
      {
        assert all[j] == rest[j - 1];
      }
    }
  }

  /** `c` together with what follows it. */
  ghost function From(v: View, rank: map<Cte, real>, c: Cte): (all: seq<Cte>)
    requires Structured(v, rank) && c in v
    ensures |all| > 0 && all[0] == c && forall j :: 0 <= j < |all| ==> all[j] in v
    ensures forall j :: 0 < j < |all| ==> rank[c] < rank[all[j]]
    ensures v[c].prev != null && v[c].prev in v && v[v[c].prev].next == c ==> all == Behind(v, rank, v[c].prev)
  {
    [c] + Behind(v, rank, c)
  }

  lemma HeadHangs(v: View, c: Cte, rest: seq<Cte>)
    requires c in v && v[c].prev == null && c !in rest && Distinct(rest) && Hangs(v, c, rest, 0)
    ensures Distinct([c] + rest) && Hangs(v, null, [c] + rest, 0)
  {
    var all := [c] + rest;
    forall j | 0 < j < |all|
      ensures v[all[j]].prev == all[j - 1] && v[all[j]].next == if j + 1 < |all| then all[j + 1] else null
    {
      assert all[j] == rest[j - 1];
    }
  }

  /** The part of a chain from `c` on hangs off what precedes `c`. */
  lemma FromHangs(v: View, rank: map<Cte, real>, c: Cte)
    requires Structured(v, rank) && c in v
    ensures var p, all := v[c].prev, From(v, rank, c);
            && Distinct(all) && Hangs(v, p, all, 0) && p !in all && (p != null ==> p in v)
            && (forall j :: 0 <= j < |all| ==> p != null ==> rank[p] < rank[all[j]])
  {
    assert Local(v, rank, c);
    var p := v[c].prev;
    if p == null {
      BehindHangs(v, rank, c);
      HeadHangs(v, c, Behind(v, rank, c));
    } else {
      assert Local(v, rank, p);
      BehindHangs(v, rank, p);
    }
  }

  /** The first `r` nodes of the tail `all` of `p` have been emptied and unhooked. */
  ghost predicate CutOff(v: View, v': View, p: Cte?, all: seq<Cte>, r: nat)
    requires r <= |all| && Distinct(all)
  {
    && v'.Keys == v.Keys
    && Hangs(v', p, all, r)
    && (forall j :: 0 <= j < r ==> v'[all[j]] == Node(NULL_CAP, null, null))
    && (forall j {:trigger v[all[j]]} :: r <= j < |all| ==> v'[all[j]].cap == v[all[j]].cap)
    && (forall c :: c in v && c !in After(all, 0) && c != p ==> v'[c] == v[c])
    && (p != null ==> v'[p] == v[p].(next := v'[p].next))
  }

  lemma OutsidersStayLocal(v: View, v': View, rank: map<Cte, real>, p: Cte?, all: seq<Cte>, r: nat, c: Cte)
    requires Structured(v, rank) && r <= |all| && Distinct(all) && Hangs(v, p, all, 0) && p !in After(all, 0) && CutOff(v, v', p, all, r)
    requires c in v && c !in After(all, 0) && c != p
    ensures Local(v', rank, c)
  {
    assert Local(v, rank, c);
    AfterWithin(all, 0);
    assert forall j :: 0 <= j < |all| ==> v[all[j]].prev != c && v[all[j]].next != c;
  }

  lemma ParentStaysLocal(v: View, v': View, rank: map<Cte, real>, p: Cte, all: seq<Cte>, r: nat)
    requires Structured(v, rank) && r <= |all| && Distinct(all) && Hangs(v, p, all, 0) && p !in After(all, 0) && CutOff(v, v', p, all, r)
    requires r < |all| ==> rank[p] < rank[all[r]]
    ensures Local(v', rank, p)
  {
    assert Local(v, rank, p);
    var m := v[p].prev;
    AfterWithin(all, 0);
    assert forall j :: 0 <= j < |all| ==> v[all[j]].next != p;
    assert m != null ==> m != p && v'[m] == v[m];
    assert r < |all| ==> v'[all[r]].prev == p;
  }

  lemma InsidersStayLocal(v: View, v': View, rank: map<Cte, real>, p: Cte?, all: seq<Cte>, r: nat, j: nat)
    requires Structured(v, rank) && r <= |all| && Distinct(all) && Hangs(v, p, all, 0) && p !in After(all, 0) && CutOff(v, v', p, all, r)
    requires j < |all|
    requires p != null && r < |all| ==> rank[p] < rank[all[r]]
    ensures Local(v', rank, all[j])
  {
    assert Local(v, rank, all[j]);
    if r <= j {
      assert j + 1 < |all| ==> v'[all[j + 1]].prev == all[j] && v[all[j]].next == all[j + 1];
      assert j > r ==> v'[all[j - 1]].next == all[j];
    }
  }

  /** Emptying the front of a tail keeps the whole space in order. */
  lemma CutKeepsStructure(v: View, v': View, rank: map<Cte, real>, p: Cte?, all: seq<Cte>, r: nat)
    requires Structured(v, rank) && r <= |all| && Distinct(all) && Hangs(v, p, all, 0) && p !in After(all, 0) && CutOff(v, v', p, all, r)
    requires p != null && r < |all| ==> rank[p] < rank[all[r]]
    ensures Structured(v', rank)
  {
    forall c | c in v
      ensures Local(v', rank, c)
    {
      if c in After(all, 0) {
        AfterWithin(all, 0);
        var j :| 0 <= j < |all| && all[j] == c;
        InsidersStayLocal(v, v', rank, p, all, r, j);
      } else if c != p {
        OutsidersStayLocal(v, v', rank, p, all, r, c);
      } else {
        ParentStaysLocal(v, v', rank, c, all, r);
      }
    }
  }

  function CapsOf(v: View, all: seq<Cte>): (caps: seq<Cap>)
    requires forall j :: 0 <= j < |all| ==> all[j] in v
    ensures |caps| == |all| && forall j :: 0 <= j < |all| ==> caps[j] == v[all[j]].cap
  {
    seq(|all|, j requires 0 <= j < |all| => v[all[j]].cap)
  }

  /** `n`, an empty slot, has received `cap` and stands right behind `after`. */
  ghost predicate Inserted(v: View, v': View, n: Cte, after: Cte, cap: Cap)
    requires n in v && after in v
  {
    var next := v[after].next;
    && v'.Keys == v.Keys
    && v'[n] == Node(cap, next, after)
    && v'[after] == v[after].(next := n)
    && (next != null && next in v ==> v'[next] == v[next].(prev := n))
    && (forall c :: c in v && c != n && c != after && c != next ==> v'[c] == v[c])
  }

  /** A rank for a slot inserted behind `after`: half way to what followed. */
  ghost function RankBehind(v: View, rank: map<Cte, real>, after: Cte): real
    requires Structured(v, rank) && after in v
  {
    assert Local(v, rank, after);
    if v[after].next == null then rank[after] + 1.0 else (rank[after] + rank[v[after].next]) / 2.0
  }

  lemma InsertKeepsStructure(v: View, v': View, rank: map<Cte, real>, n: Cte, after: Cte, cap: Cap)
    requires Structured(v, rank) && n in v && after in v && n != after && cap.kind != Null
    requires v[n].cap.kind == Null && v[after].cap.kind != Null && Inserted(v, v', n, after, cap)
    ensures Structured(v', rank[n := RankBehind(v, rank, after)])
  {
    var rank' := rank[n := RankBehind(v, rank, after)];
    assert Local(v, rank, n) && Local(v, rank, after);
    forall c | c in v
      ensures Local(v', rank', c)
    {
      assert Local(v, rank, c);
    }
  }

  // ----- What follows a slot, after an insertion -----

  /** Nodes whose next pointers have not changed are followed by the same nodes. */
  lemma {:induction false} BehindSame(v: View, v': View, rank: map<Cte, real>, rank': map<Cte, real>, c: Cte)
    requires Structured(v, rank) && Structured(v', rank') && c in v && v.Keys == v'.Keys
    requires v'[c].next == v[c].next && forall d :: d in Behind(v, rank, c) ==> v'[d].next == v[d].next
    ensures Behind(v', rank', c) == Behind(v, rank, c)
    decreases Above(v, rank, c)
  {
    var n := v[c].next;
    if n != null {
      assert Local(v, rank, c) && Local(v', rank', c);
      assert n in Above(v, rank, c) && n !in Above(v, rank, n);
      assert Behind(v, rank, c) == [n] + Behind(v, rank, n);
      BehindSame(v, v', rank, rank', n);
    }
  }

  /** The new node comes first behind the one it was inserted after, and the rest follows. */
  lemma InsertedBehind(v: View, v': View, rank: map<Cte, real>, n: Cte, after: Cte, cap: Cap)
    requires Structured(v, rank) && n in v && after in v && n != after && cap.kind != Null
    requires v[n].cap.kind == Null && v[after].cap.kind != Null && Inserted(v, v', n, after, cap)
    ensures var rank' := rank[n := RankBehind(v, rank, after)];
            Structured(v', rank') && Behind(v', rank', after) == [n] + Behind(v, rank, after)
  {
    var rank' := rank[n := RankBehind(v, rank, after)];
    InsertKeepsStructure(v, v', rank, n, after, cap);
    assert Local(v, rank, n) && Local(v, rank, after) && Local(v', rank', n) && Local(v', rank', after);
    BehindHangs(v, rank, after);
    EmptyIsAlone(v, rank, n, after);
    var next := v[after].next;
    if next != null {
      assert Local(v, rank, next);
      assert Behind(v, rank, after) == [next] + Behind(v, rank, next);
      BehindSame(v, v', rank, rank', next);
      assert Behind(v', rank', n) == [next] + Behind(v', rank', next);
    }
    assert Behind(v', rank', after) == [n] + Behind(v', rank', n);
  }

  /** An empty slot is in no chain of a live one. */
  lemma {:induction false} EmptyIsAlone(v: View, rank: map<Cte, real>, n: Cte, c: Cte)
    requires Structured(v, rank) && n in v && c in v && v[n].cap.kind == Null && v[c].cap.kind != Null
    ensures n !in Behind(v, rank, c)
    decreases Above(v, rank, c)
  {
    assert Local(v, rank, n) && Local(v, rank, c);
    var m := v[c].next;
    if m != null {
      assert Local(v, rank, m);
      assert m in Above(v, rank, c) && m !in Above(v, rank, m);
      EmptyIsAlone(v, rank, n, m);
    }
  }

  // ----- Where capabilities come from -----

  predicate Typed(kind: ObjectType) { kind != Null && kind != Untyped }

  /** The capability in slot `c` ends a derivation path that starts at a capability made by retype. */
  ghost predicate HasPath(cap: Cap, c: Cte, path: map<Cte, seq<Cap>>, born: seq<Cap>)
  {
    && c in path && path[c] != [] && path[c][0] in born && path[c][|path[c]| - 1] == cap
    && DerivationPath(path[c])
  }

  ghost predicate Traced(v: View, path: map<Cte, seq<Cap>>, born: seq<Cap>)
  {
    forall c {:trigger v[c]} :: c in v && Typed(v[c].cap.kind) ==> HasPath(v[c].cap, c, path, born)
  }

  /** The path of a capability handed out from slot `src`. */
  ghost function Extended(path: map<Cte, seq<Cap>>, src: Cte, cap: Cap): seq<Cap>
  {
    (if src in path then path[src] else []) + [cap]
  }

  lemma InsertKeepsTraces(v: View, v': View, n: Cte, after: Cte, cap: Cap, path: map<Cte, seq<Cap>>, born: seq<Cap>)
    requires n in v && after in v && n != after && Inserted(v, v', n, after, cap) && Traced(v, path, born)
    requires v[after].next != n && HandedOut(v[after].cap, cap)
    ensures Traced(v', path[n := Extended(path, after, cap)], born)
  {
    HandedOutAttenuates(v[after].cap, cap);
    hide HandedOut;
    var path' := path[n := Extended(path, after, cap)];
    if Typed(cap.kind) {
      assert HasPath(v[after].cap, after, path, born);
      var p := path[after];
      assert DerivationPath(p + [cap]);
      assert HasPath(cap, n, path', born);
    }
    forall c | c in v' && c != n && Typed(v'[c].cap.kind)
      ensures HasPath(v'[c].cap, c, path', born)
    {
      assert v'[c].cap == v[c].cap && HasPath(v[c].cap, c, path, born);
    }
  }

  lemma FreshKeepsTraces(v: View, v': View, n: Cte, after: Cte, cap: Cap, path: map<Cte, seq<Cap>>, born: seq<Cap>)
    requires n in v && after in v && n != after && Inserted(v, v', n, after, cap) && Traced(v, path, born)
    requires v[after].next != n
    ensures Traced(v', path[n := [cap]], born + [cap])
  {
    forall c | c in v' && Typed(v'[c].cap.kind)
      ensures HasPath(v'[c].cap, c, path[n := [cap]], born + [cap])
    {
      if c != n {
        assert v'[c].cap == v[c].cap && HasPath(v[c].cap, c, path, born);
      } else {
        assert (born + [cap])[|born|] == cap;
      }
    }
  }

  /** Emptied slots aside, capabilities are where they were. */
  lemma CutKeepsCaps(v: View, v': View, p: Cte?, all: seq<Cte>, r: nat)
    requires r <= |all| && Distinct(all) && CutOff(v, v', p, all, r) && Hangs(v, p, all, 0)
    ensures v'.Keys == v.Keys && forall c :: c in v ==> v'[c].cap == v[c].cap || v'[c].cap == NULL_CAP
  {
    AfterWithin(all, 0);
    forall c | c in v
      ensures v'[c].cap == v[c].cap || v'[c].cap == NULL_CAP
    {
      if c in After(all, 0) {
        var j :| 0 <= j < |all| && all[j] == c;
        assert v[all[j]].cap == v[c].cap;
      }
    }
  }

  lemma FewerKeepTraces(v: View, v': View, path: map<Cte, seq<Cap>>, born: seq<Cap>)
    requires Traced(v, path, born) && v'.Keys == v.Keys
    requires forall c :: c in v ==> v'[c].cap == v[c].cap || v'[c].cap == NULL_CAP
    ensures Traced(v', path, born)
  {
    forall c | c in v' && Typed(v'[c].cap.kind)
      ensures HasPath(v'[c].cap, c, path, born)
    {
      assert HasPath(v[c].cap, c, path, born);
    }
  }

  // ----- The memory behind untyped capabilities -----

  ghost function CapsIn(v: View): (m: map<Cte, Cap>)
    ensures m.Keys == v.Keys && forall c :: c in v ==> m[c] == v[c].cap
  {
    map c | c in v :: v[c].cap
  }

  /** A slot whose object was carved, directly or not, from that of another live slot comes after it. */
  ghost predicate Later(v: View, rank: map<Cte, real>, objs: seq<Obj>, node: map<Cte, nat>, c: Cte, d: Cte)
    requires InOrder(objs) && c in v && d in v && v.Keys <= rank.Keys
  {
    v[c].cap.kind == v[d].cap.kind == Untyped && c in node && d in node
    && node[c] < |objs| && node[d] < |objs| && node[c] != node[d] && Ancestor(objs, node[c], node[d])
    ==> rank[c] < rank[d]
  }

  /** Untyped slots and the history of memory agree, original ones use the direct map, and chains
      follow the nesting of objects. */
  ghost predicate Memory(hhdm: nat, v: View, rank: map<Cte, real>, objs: seq<Obj>, node: map<Cte, nat>)
  {
    && v.Keys <= rank.Keys
    && Agree(hhdm, CapsIn(v), objs, node)
    && (forall i :: 0 <= i < |objs| ==> objs[i].End() + hhdm < WORD_RANGE)
    && (forall c {:trigger v[c]} :: c in v && v[c].cap.kind == Untyped && v[c].cap.isOriginal ==> v[c].cap.ptr >= hhdm)
    && (forall c, d {:trigger Later(v, rank, objs, node, c, d)} :: c in v && d in v ==> Later(v, rank, objs, node, c, d))
  }

  /** Slots may lose their capabilities or get typed ones, and only those may move. */
  lemma FewerKeepMemory(hhdm: nat, v: View, v': View, rank: map<Cte, real>, rank': map<Cte, real>, objs: seq<Obj>, node: map<Cte, nat>)
    requires Memory(hhdm, v, rank, objs, node) && v'.Keys == v.Keys <= rank'.Keys
    requires forall c :: c in v && v'[c].cap.kind == Untyped ==> v'[c].cap == v[c].cap && rank'[c] == rank[c]
    ensures Memory(hhdm, v', rank', objs, node)
  {
    hide InOrder, Describes;
    forall c, d | c in v' && d in v'
      ensures Later(v', rank', objs, node, c, d)
    {
      assert Later(v, rank, objs, node, c, d);
    }
  }

  // ----- A retype -----

  /** Carving appends; it does not change who was carved from whom. */
  lemma {:induction false} AncestorStays(objs: seq<Obj>, p: nat, kind: ObjectType, k: nat, num: nat, i: nat, j: nat)
    requires InOrder(objs) && p < |objs| && InOrder(AfterRetype(objs, p, kind, k, num)) && i < |objs| && j < |objs|
    ensures Ancestor(AfterRetype(objs, p, kind, k, num), i, j) <==> Ancestor(objs, i, j)
    decreases j
  {
    hide InOrder, NewMark, Carved;
    ParentStays(objs, p, kind, k, num, j);
    if objs[j].parent >= 0 {
      AncestorStays(objs, p, kind, k, num, i, objs[j].parent);
    }
  }

  lemma ParentStays(objs: seq<Obj>, p: nat, kind: ObjectType, k: nat, num: nat, j: nat)
    requires InOrder(objs) && p < |objs| && j < |objs|
    ensures AfterRetype(objs, p, kind, k, num)[j].parent == objs[j].parent < j
  {
  }

  /** The slots after a retype of `slot` into `dests`, with new ranks for the new slots only. */
  ghost predicate Reranked(v: View, rank: map<Cte, real>, rank': map<Cte, real>, slot: Cte, dests: seq<Cte>)
    requires slot in rank
  {
    && v.Keys <= rank'.Keys && v.Keys <= rank.Keys
    && (forall s :: s in v && s !in dests ==> rank'[s] == rank[s])
    && (forall d :: d in dests && d in v ==> rank[slot] < rank'[d])
  }

  lemma NewObjectsFollow(v: View, v': View, rank: map<Cte, real>, rank': map<Cte, real>, objs: seq<Obj>, node: map<Cte, nat>,
                         slot: Cte, kind: ObjectType, k: nat, dests: seq<Cte>, c: Cte, d: Cte)
    requires InOrder(objs) && v'.Keys == v.Keys && slot in v && slot in rank && slot in node && node[slot] < |objs| && slot !in dests
    requires Reranked(v, rank, rank', slot, dests) && InOrder(AfterRetype(objs, node[slot], kind, k, |dests|))
    requires c in v && d in v && v[slot].cap.kind == v'[slot].cap.kind == Untyped
    requires forall s :: s in v && s !in dests ==> v'[s].cap.kind == v[s].cap.kind
    requires forall s, t {:trigger Later(v, rank, objs, node, s, t)} :: s in v && t in v ==> Later(v, rank, objs, node, s, t)
    requires forall s :: s in v && s !in dests && v[s].cap.kind == Untyped ==> s in node && node[s] < |objs| && (s != slot ==> node[s] != node[slot])
    ensures Later(v', rank', AfterRetype(objs, node[slot], kind, k, |dests|), Renode(node, dests, |objs|), c, d)
  {
    hide InOrder, AfterRetype, IndexOf;
    var p, n := node[slot], |objs|;
    var objs', node' := AfterRetype(objs, p, kind, k, |dests|), Renode(node, dests, n);
    if v'[c].cap.kind == v'[d].cap.kind == Untyped && c in node' && d in node' && node'[c] < |objs'| && node'[d] < |objs'|
       && node'[c] != node'[d] && Ancestor(objs', node'[c], node'[d]) {
      DescendantInside(objs', node'[c], node'[d]);
      if d in dests {
        NewAncestors(objs, p, kind, k, |dests|, node'[c], node'[d]);
        assert c !in dests;
        assert Later(v, rank, objs, node, c, slot);
        AncestorStays(objs, p, kind, k, |dests|, node[c], p);
      } else {
        assert c !in dests;
        AncestorStays(objs, p, kind, k, |dests|, node[c], node[d]);
        assert Later(v, rank, objs, node, c, d);
      }
    }
  }

  /** The ancestors of a new object are its parent and the ancestors of that. */
  lemma NewAncestors(objs: seq<Obj>, p: nat, kind: ObjectType, k: nat, num: nat, i: nat, j: nat)
    requires InOrder(objs) && p < |objs| && InOrder(AfterRetype(objs, p, kind, k, num)) && |objs| <= j < |objs| + num && i < |objs| + num
    requires i != j && Ancestor(AfterRetype(objs, p, kind, k, num), i, j)
    ensures i <= p && Ancestor(AfterRetype(objs, p, kind, k, num), i, p)
  {
    var objs' := AfterRetype(objs, p, kind, k, num);
    assert objs'[j].parent == p;
    DescendantInside(objs', i, p);
  }

  /** A retype that fits keeps the account of memory. */
  lemma RetypeKeepsMemory(hhdm: nat, v: View, v': View, rank: map<Cte, real>, rank': map<Cte, real>, objs: seq<Obj>, node: map<Cte, nat>,
                          slot: Cte, kind: ObjectType, sizeBits: nat, dests: seq<Cte>)
    requires Memory(hhdm, v, rank, objs, node) && slot in v && v[slot].cap.kind == Untyped && slot !in dests && IsObject(kind)
    requires v'.Keys == v.Keys && forall d :: d in dests ==> d in v
    requires NewMark(objs[node[slot]], ObjectBits(kind, sizeBits), |dests|) <= objs[node[slot]].Size()
    requires Filled(hhdm, CapsIn(v), CapsIn(v'), objs[node[slot]], slot, kind, sizeBits, dests)
    requires Reranked(v, rank, rank', slot, dests)
    ensures Memory(hhdm, v', rank', AfterRetype(objs, node[slot], kind, ObjectBits(kind, sizeBits), |dests|), Renode(node, dests, |objs|))
  {
    hide NewMark, Pow2, AlignUp, AfterRetype, InOrder, Renode, PtrAt, Later, Ancestor, Filled, Retyped;
    var k, p := ObjectBits(kind, sizeBits), node[slot];
    var objs', node' := AfterRetype(objs, p, kind, k, |dests|), Renode(node, dests, |objs|);
    AgreesAt(hhdm, CapsIn(v), objs, node, slot);
    CarveIsRetyped(hhdm, CapsIn(v), CapsIn(v'), objs, node, slot, kind, sizeBits, dests);
    RetypeKeepsAgreement(hhdm, CapsIn(v), CapsIn(v'), objs, node, slot, kind, sizeBits, dests);
    hide Agree;
    RetypeStaysMapped(hhdm, v, v', rank, objs, node, slot, kind, sizeBits, dests);
    RetypeFollows(hhdm, v, v', rank, rank', objs, node, slot, kind, sizeBits, dests);
  }

  lemma RetypeStaysMapped(hhdm: nat, v: View, v': View, rank: map<Cte, real>, objs: seq<Obj>, node: map<Cte, nat>,
                          slot: Cte, kind: ObjectType, sizeBits: nat, dests: seq<Cte>)
    requires Memory(hhdm, v, rank, objs, node) && slot in v && v[slot].cap.kind == Untyped && slot !in dests && IsObject(kind)
    requires v'.Keys == v.Keys
    requires NewMark(objs[node[slot]], ObjectBits(kind, sizeBits), |dests|) <= objs[node[slot]].Size()
    requires Filled(hhdm, CapsIn(v), CapsIn(v'), objs[node[slot]], slot, kind, sizeBits, dests)
    ensures var objs' := AfterRetype(objs, node[slot], kind, ObjectBits(kind, sizeBits), |dests|);
            forall i :: 0 <= i < |objs'| ==> objs'[i].End() + hhdm < WORD_RANGE
    ensures forall c :: c in v' && v'[c].cap.kind == Untyped && v'[c].cap.isOriginal ==> v'[c].cap.ptr >= hhdm
  {
    hide NewMark, Pow2, AlignUp, AfterRetype, InOrder, PtrAt, Later;
    var k, p := ObjectBits(kind, sizeBits), node[slot];
    forall i | 0 <= i < |AfterRetype(objs, p, kind, k, |dests|)|
      ensures AfterRetype(objs, p, kind, k, |dests|)[i].End() + hhdm < WORD_RANGE
    {
      RetypeAt(objs, p, kind, k, |dests|, i);
    }
    PtrIsMapped(hhdm, v[slot].cap.ptr + AlignUp(objs[p].mark, Pow2(k)), Pow2(k));
    forall c | c in v' && v'[c].cap.kind == Untyped && v'[c].cap.isOriginal
      ensures v'[c].cap.ptr >= hhdm
    {
      assert CapsIn(v')[c] == v'[c].cap;
      if c in dests {
        var i :| 0 <= i < |dests| && dests[i] == c;
        assert CapsIn(v')[dests[i]].ptr >= hhdm;
      } else {
        assert CapsIn(v)[c] == v[c].cap;
      }
    }
  }

  lemma RetypeFollows(hhdm: nat, v: View, v': View, rank: map<Cte, real>, rank': map<Cte, real>, objs: seq<Obj>, node: map<Cte, nat>,
                      slot: Cte, kind: ObjectType, sizeBits: nat, dests: seq<Cte>)
    requires Memory(hhdm, v, rank, objs, node) && slot in v && v[slot].cap.kind == Untyped && slot !in dests && IsObject(kind)
    requires v'.Keys == v.Keys && Reranked(v, rank, rank', slot, dests)
    requires NewMark(objs[node[slot]], ObjectBits(kind, sizeBits), |dests|) <= objs[node[slot]].Size()
    requires Filled(hhdm, CapsIn(v), CapsIn(v'), objs[node[slot]], slot, kind, sizeBits, dests)
    ensures var objs', node' := AfterRetype(objs, node[slot], kind, ObjectBits(kind, sizeBits), |dests|), Renode(node, dests, |objs|);
            InOrder(objs') && forall c, d {:trigger Later(v', rank', objs', node', c, d)} ::
              c in v' && d in v' ==> Later(v', rank', objs', node', c, d)
  {
    assert v'.Keys <= rank'.Keys;
    hide NewMark, Pow2, AlignUp, AfterRetype, InOrder, Renode, PtrAt, Later, Reranked, Describes;
    var k, p := ObjectBits(kind, sizeBits), node[slot];
    RetypeKeepsOrder(objs, p, kind, k, |dests|);
    forall s | s in v
      ensures CapsIn(v)[s] == v[s].cap && CapsIn(v')[s] == v'[s].cap
    {
    }
    forall c, d | c in v' && d in v'
      ensures Later(v', rank', AfterRetype(objs, p, kind, k, |dests|), Renode(node, dests, |objs|), c, d)
    {
      NewObjectsFollow(v, v', rank, rank', objs, node, slot, kind, k, dests, c, d);
    }
  }

  lemma PtrIsMapped(hhdm: nat, usable: nat, size: nat)
    ensures forall i: nat :: PtrAt(hhdm, usable, size, i) >= hhdm
  {
  }

  // ----- What a revoke removes, given the memory behind it -----

  /** An untyped child of an untyped slot lies inside its region, which does not wrap. */
  lemma RegionInside(hhdm: nat, v: View, rank: map<Cte, real>, objs: seq<Obj>, node: map<Cte, nat>, c: Cte, d: Cte)
    requires Memory(hhdm, v, rank, objs, node) && c in v && d in v && rank[c] < rank[d]
    requires v[c].cap.kind == v[d].cap.kind == Untyped && IsChild(v[d].cap, v[c].cap)
    ensures var x, y := v[c].cap, v[d].cap;
            && x.ptr <= y.ptr && y.ptr + Pow2(y.sizeBits) <= x.ptr + Pow2(x.sizeBits) < WORD_RANGE && y.ptr >= hhdm
  {
    hide Pow2, InOrder, Ancestor;
    var i, j := node[c], node[d];
    assert CapsIn(v)[c] == v[c].cap && CapsIn(v)[d] == v[d].cap;
    assert Describes(hhdm, v[c].cap, objs[i]) && Describes(hhdm, v[d].cap, objs[j]);
    assert objs[j].base == v[d].cap.ptr - hhdm && objs[i].base == v[c].cap.ptr - hhdm;
    assert !Apart(objs[i], objs[j]) && i != j;
    assert Later(v, rank, objs, node, d, c);
    if i < j {
      if !Ancestor(objs, i, j) {
        ApartUnlessNested(objs, i, j);
      }
      DescendantInside(objs, i, j);
    } else {
      if !Ancestor(objs, j, i) {
        ApartUnlessNested(objs, j, i);
      }
    }
  }

  /** So do its own children. */
  lemma ChildrenInside(hhdm: nat, v: View, rank: map<Cte, real>, objs: seq<Obj>, node: map<Cte, nat>, c: Cte, d: Cte, x: Cap)
    requires Memory(hhdm, v, rank, objs, node) && c in v && d in v && rank[c] < rank[d]
    requires v[c].cap.kind == v[d].cap.kind == Untyped && IsChild(v[d].cap, v[c].cap) && IsChild(x, v[d].cap)
    ensures IsChild(x, v[c].cap)
  {
    hide Memory, Pow2;
    RegionInside(hhdm, v, rank, objs, node, c, d);
  }

  /** Revoking any slot removes exactly the run of its children behind it, unless a typed member of an
      untyped slot's run has everything up to the first non-child, that one included, as its children. */
  lemma RevokeExactIff(hhdm: nat, v: View, rank: map<Cte, real>, objs: seq<Obj>, node: map<Cte, nat>, c: Cte)
    requires Structured(v, rank) && Memory(hhdm, v, rank, objs, node) && c in v && v[c].cap.kind == Untyped
    ensures var caps := CapsOf(v, Behind(v, rank, c));
            var run := RunEnd(v[c].cap, caps, 0);
            BlockEnd(v[c].cap, caps, 0) == run <==> run == |caps| || forall i :: 0 <= i < run ==> !SpansTo(caps, i, run)
  {
    hide Memory, IsChild;
    var all := Behind(v, rank, c);
    var caps := CapsOf(v, all);
    forall m, x: Cap {:trigger IsChild(x, caps[m])} | 0 <= m < RunEnd(v[c].cap, caps, 0) && caps[m].kind == Untyped && IsChild(x, caps[m])
      ensures IsChild(x, v[c].cap)
    {
      ChildrenInside(hhdm, v, rank, objs, node, c, all[m], x);
    }
    RevokeIsExactUnlessSpanned(v[c].cap, caps, 0);
  }
}
