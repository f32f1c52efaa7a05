/** The objects that live capabilities denote: none overlaps another one, and none lies in memory that
    an untyped capability can still hand out (kern/obj/untyped.c, kern/cdt.c). */
module CapMemory {
  import opened Arith
  import opened Caps
  import opened Cdt
  import opened CapList
  import opened CapViews
  import opened UntypedMemory

  /** The capability `c` denotes the object `o`. */
  predicate Denotes(hhdm: nat, c: Cap, o: Obj)
  {
    && IsObject(c.kind) && o.kind == c.kind
    && Physical(hhdm, c.ptr) == o.base && o.bits == ObjectBits(c.kind, c.sizeBits)
  }

  /** After the `seeds` capabilities and the `roots` regions of boot, the log of capabilities made and the
      history of memory go together. */
  ghost predicate Logged(hhdm: nat, born: seq<Cap>, objs: seq<Obj>, seeds: nat, roots: nat)
  {
    && seeds <= |born| && roots <= |objs| && |born| - seeds == |objs| - roots
    && forall i {:trigger objs[i]} :: roots <= i < |objs| ==> Denotes(hhdm, born[seeds + i - roots], objs[i])
  }

  /** A retype adds as many capabilities to the log as objects to the history, one for one. */
  lemma RetypeKeepsLog(hhdm: nat, slots: map<Cte, Cap>, slots': map<Cte, Cap>, born: seq<Cap>, made: seq<Cap>, objs: seq<Obj>,
                       node: map<Cte, nat>, seeds: nat, roots: nat, slot: Cte, kind: ObjectType, sizeBits: nat, dests: seq<Cte>)
    requires Logged(hhdm, born, objs, seeds, roots) && InOrder(objs)
    requires slot in slots && slot in node && node[slot] < |objs| && IsObject(kind)
    requires NewMark(objs[node[slot]], ObjectBits(kind, sizeBits), |dests|) <= objs[node[slot]].Size()
    requires Retyped(hhdm, slots, slots', objs, node, slot, kind, sizeBits, dests)
    requires |made| == |dests| && forall j :: 0 <= j < |dests| ==> dests[j] in slots' && made[j] == slots'[dests[j]]
    ensures Logged(hhdm, born + made, AfterRetype(objs, node[slot], kind, ObjectBits(kind, sizeBits), |dests|), seeds, roots)
  {
    hide InOrder, NewMark, AfterRetype, Physical;
    var p, k := node[slot], ObjectBits(kind, sizeBits);
    var objs' := AfterRetype(objs, p, kind, k, |dests|);
    forall i | roots <= i < |objs'|
      ensures Denotes(hhdm, (born + made)[seeds + i - roots], objs'[i])
    {
      RetypeAt(objs, p, kind, k, |dests|, i);
      if i < |objs| {
        assert Denotes(hhdm, born[seeds + i - roots], objs[i]);
      } else {
        var j := i - |objs|;
        assert (born + made)[seeds + i - roots] == made[j] == slots'[dests[j]];
        assert slots'[dests[j]] == Fresh(kind, sizeBits, slots'[dests[j]].ptr);
      }
    }
  }

  /** The capability in slot `c` goes back to one that a retype made. */
  ghost predicate FromRetype(path: map<Cte, seq<Cap>>, born: seq<Cap>, seeds: nat, c: Cte)
    requires seeds <= |born|
  {
    c in path && path[c] != [] && path[c][0] in born[seeds..]
  }

  /** The live capability `c` denotes the object at `i` of the history. */
  ghost predicate LivesAt(hhdm: nat, c: Cap, objs: seq<Obj>, i: nat)
  {
    i < |objs| && Denotes(hhdm, c, objs[i]) && (c.kind == Untyped ==> c.badge == objs[i].mark)
  }

  /** Copies and mints denote the object that the retyped capability they come from was made for. */
  lemma CopiesShareTheObject(hhdm: nat, v: View, path: map<Cte, seq<Cap>>, born: seq<Cap>, objs: seq<Obj>, seeds: nat, roots: nat, c: Cte)
    returns (i: nat)
    requires Traced(v, path, born) && Logged(hhdm, born, objs, seeds, roots)
    requires c in v && Typed(v[c].cap.kind) && FromRetype(path, born, seeds, c)
    ensures roots <= i < |objs| && path[c][0] == born[seeds + i - roots]
    ensures Attenuates(v[c].cap, path[c][0]) && LivesAt(hhdm, v[c].cap, objs, i)
  {
    assert HasPath(v[c].cap, c, path, born);
    var k :| 0 <= k < |born[seeds..]| && born[seeds..][k] == path[c][0];
    i := roots + k;
    assert born[seeds + i - roots] == path[c][0];
    assert Denotes(hhdm, born[seeds + i - roots], objs[i]);
    PathAttenuates(path[c], |path[c]| - 1);
  }

  /** Of two objects, either they are apart, or one is untyped and the other in the part it has used up. */
  lemma ApartOrBelow(objs: seq<Obj>, i: nat, j: nat)
    requires InOrder(objs) && i < |objs| && j < |objs| && i != j
    ensures Apart(objs[i], objs[j]) || Below(objs[i], objs[j]) || Below(objs[j], objs[i])
  {
    if Ancestor(objs, i, j) {
      AncestorBelow(objs, i, j);
    } else if Ancestor(objs, j, i) {
      AncestorBelow(objs, j, i);
    } else if i < j {
      ApartUnlessNested(objs, i, j);
    } else {
      ApartUnlessNested(objs, j, i);
    }
  }

  /** `o` lies in the part of the untyped object `u` below its watermark. */
  predicate Below(o: Obj, u: Obj) { u.kind == Untyped && u.base <= o.base && o.End() <= u.base + u.mark }

  lemma AncestorBelow(objs: seq<Obj>, i: nat, j: nat)
    requires InOrder(objs) && i < |objs| && j < |objs| && i != j && Ancestor(objs, i, j)
    ensures Below(objs[j], objs[i])
  {
    var q := BranchBelow(objs, i, j);
    DescendantInside(objs, q, j);
  }

  // ----- The same, said of capabilities -----

  function Base(hhdm: nat, c: Cap): nat { Physical(hhdm, c.ptr) }
  function Bytes(c: Cap): nat
    requires IsObject(c.kind)
  {
    Pow2(ObjectBits(c.kind, c.sizeBits))
  }

  predicate CapsApart(hhdm: nat, c: Cap, d: Cap)
    requires IsObject(c.kind) && IsObject(d.kind)
  {
    Base(hhdm, c) + Bytes(c) <= Base(hhdm, d) || Base(hhdm, d) + Bytes(d) <= Base(hhdm, c)
  }

  predicate SameObject(hhdm: nat, c: Cap, d: Cap)
    requires IsObject(c.kind) && IsObject(d.kind)
  {
    c.kind == d.kind && Base(hhdm, c) == Base(hhdm, d) && Bytes(c) == Bytes(d)
  }

  /** The object of `c` lies in the part of the untyped `u` below its watermark. */
  predicate UsedUpBy(hhdm: nat, c: Cap, u: Cap)
    requires IsObject(c.kind)
  {
    u.kind == Untyped && Base(hhdm, u) <= Base(hhdm, c) && Base(hhdm, c) + Bytes(c) <= Base(hhdm, u) + u.badge
  }

  /** Two capabilities denote the same typed object, or objects apart, or one of them is untyped and has
      used up the memory of the other's object for it. */
  predicate NoClash(hhdm: nat, c: Cap, d: Cap)
  {
    && IsObject(c.kind) && IsObject(d.kind)
    && (CapsApart(hhdm, c, d) || (Typed(c.kind) && SameObject(hhdm, c, d)) || UsedUpBy(hhdm, c, d) || UsedUpBy(hhdm, d, c))
  }

  /** A slot whose capability's memory the history accounts for. */
  ghost predicate Tracked(v: View, path: map<Cte, seq<Cap>>, born: seq<Cap>, seeds: nat, c: Cte)
    requires seeds <= |born|
    requires c in v
  {
    v[c].cap.kind != Null && (v[c].cap.kind == Untyped || FromRetype(path, born, seeds, c))
  }

  lemma TrackedLives(hhdm: nat, v: View, rank: map<Cte, real>, path: map<Cte, seq<Cap>>, born: seq<Cap>, objs: seq<Obj>, node: map<Cte, nat>,
                     seeds: nat, roots: nat, c: Cte)
    returns (i: nat)
    requires Traced(v, path, born) && Memory(hhdm, v, rank, objs, node) && Logged(hhdm, born, objs, seeds, roots)
    requires c in v && Tracked(v, path, born, seeds, c)
    ensures LivesAt(hhdm, v[c].cap, objs, i) && (v[c].cap.kind == Untyped ==> c in node && i == node[c])
  {
    if v[c].cap.kind == Untyped {
      assert CapsIn(v)[c] == v[c].cap;
      hide InOrder, Physical;
      i := node[c];
    } else {
      hide Memory;
      i := CopiesShareTheObject(hhdm, v, path, born, objs, seeds, roots, c);
    }
  }

  /** Live capabilities do not clash. */
  lemma LiveObjectsApart(hhdm: nat, v: View, rank: map<Cte, real>, path: map<Cte, seq<Cap>>, born: seq<Cap>, objs: seq<Obj>,
                         node: map<Cte, nat>, seeds: nat, roots: nat, c: Cte, d: Cte)
    requires Traced(v, path, born) && Memory(hhdm, v, rank, objs, node) && Logged(hhdm, born, objs, seeds, roots)
    requires c in v && d in v && c != d && Tracked(v, path, born, seeds, c) && Tracked(v, path, born, seeds, d)
    ensures NoClash(hhdm, v[c].cap, v[d].cap)
  {
    hide Physical, Pow2;
    var i := TrackedLives(hhdm, v, rank, path, born, objs, node, seeds, roots, c);
    var j := TrackedLives(hhdm, v, rank, path, born, objs, node, seeds, roots, d);
    if i != j {
      InOrderIn(hhdm, v, rank, objs, node);
      hide InOrder, Memory;
      ApartOrBelow(objs, i, j);
    } else if v[c].cap.kind == Untyped {
      OwnNode(hhdm, v, rank, objs, node, c, d);
      assert false;
    }
  }

  lemma InOrderIn(hhdm: nat, v: View, rank: map<Cte, real>, objs: seq<Obj>, node: map<Cte, nat>)
    requires Memory(hhdm, v, rank, objs, node)
    ensures InOrder(objs)
  {
  }

  lemma OwnNode(hhdm: nat, v: View, rank: map<Cte, real>, objs: seq<Obj>, node: map<Cte, nat>, c: Cte, d: Cte)
    requires Memory(hhdm, v, rank, objs, node) && c in v && d in v && c != d && v[c].cap.kind == v[d].cap.kind == Untyped
    ensures c in node && d in node && node[c] != node[d]
  {
    assert CapsIn(v)[c] == v[c].cap && CapsIn(v)[d] == v[d].cap;
    hide InOrder;
  }

  ghost predicate AllApart(hhdm: nat, v: View, path: map<Cte, seq<Cap>>, born: seq<Cap>, seeds: nat)
    requires seeds <= |born|
  {
    forall c, d {:trigger Tracked(v, path, born, seeds, c), Tracked(v, path, born, seeds, d)} ::
      c in v && d in v && c != d && Tracked(v, path, born, seeds, c) && Tracked(v, path, born, seeds, d) ==> NoClash(hhdm, v[c].cap, v[d].cap)
  }

  lemma AllLiveApart(hhdm: nat, v: View, rank: map<Cte, real>, path: map<Cte, seq<Cap>>, born: seq<Cap>, objs: seq<Obj>,
                     node: map<Cte, nat>, seeds: nat, roots: nat)
    requires Traced(v, path, born) && Memory(hhdm, v, rank, objs, node) && Logged(hhdm, born, objs, seeds, roots)
    ensures seeds <= |born| && AllApart(hhdm, v, path, born, seeds)
  {
    assert seeds <= |born|;
    hide Memory, Traced, Logged, Tracked, NoClash;
    forall c, d | c in v && d in v && c != d && Tracked(v, path, born, seeds, c) && Tracked(v, path, born, seeds, d)
      ensures NoClash(hhdm, v[c].cap, v[d].cap)
    {
      LiveObjectsApart(hhdm, v, rank, path, born, objs, node, seeds, roots, c, d);
    }
  }

  /** The memory that an untyped capability has not yet handed out belongs to no other live object. */
  lemma FreeMemoryIsFree(hhdm: nat, v: View, rank: map<Cte, real>, path: map<Cte, seq<Cap>>, born: seq<Cap>, objs: seq<Obj>,
                         node: map<Cte, nat>, seeds: nat, roots: nat, u: Cte, c: Cte)
    requires Traced(v, path, born) && Memory(hhdm, v, rank, objs, node) && Logged(hhdm, born, objs, seeds, roots)
    requires u in v && c in v && Tracked(v, path, born, seeds, u) && Tracked(v, path, born, seeds, c)
    requires v[u].cap.kind == Untyped && Typed(v[c].cap.kind)
    ensures IsObject(v[c].cap.kind)
    ensures var x, y := v[u].cap, v[c].cap;
            Base(hhdm, y) + Bytes(y) <= Base(hhdm, x) + x.badge || Base(hhdm, x) + Bytes(x) <= Base(hhdm, y)
  {
    hide Memory, Traced, Logged, Physical, Pow2;
    LiveObjectsApart(hhdm, v, rank, path, born, objs, node, seeds, roots, u, c);
  }
}
