/** One operation on the capability space as a relation between the states before and after
    (kern/cdt.c, kern/obj/untyped.c). */
module CapSteps {
  import opened Arith
  import opened Caps
  import opened Cdt
  import opened CapList
  import opened Seqs
  import opened CapViews
  import opened UntypedMemory

  /** What a lookup of the destination finds, and how a retype ends. */
  datatype Destination = Found | NoSuchSlot | TooSmall
  datatype Outcome = Success | NotEnoughMemory(available: nat) | LookupFailed | RangeError

  datatype Status = Done | DeleteFirst | RevokeFirst | IllegalOperation

  datatype Op =
    | Copy(dest: Cte, src: Cte, mask: Rights)
    | Mint(dest: Cte, src: Cte, badge: nat, mask: Rights)
    | Retype(slot: Cte, kind: ObjectType, sizeBits: nat, dests: seq<Cte>, found: Destination)
    | Delete(c: Cte)
    | Revoke(c: Cte)

  /** The capabilities a retype makes, in order. */
  function Made(hhdm: nat, kind: ObjectType, sizeBits: nat, usable: nat, size: nat, num: nat): (caps: seq<Cap>)
    ensures |caps| == num && forall j :: 0 <= j < num ==> caps[j] == Fresh(kind, sizeBits, PtrAt(hhdm, usable, size, j))
  {
    seq(num, j requires 0 <= j < num => Fresh(kind, sizeBits, PtrAt(hhdm, usable, size, j)))
  }

  /** The slots that an operation may fill. */
  ghost predicate Names(op: Op, c: Cte)
  {
    match op
    case Copy(dest, _, _) => c == dest
    case Mint(dest, _, _, _) => c == dest
    case Retype(_, _, _, dests, _) => c in dests
    case Delete(_) => false
    case Revoke(_) => false
  }

  /** A capability may lose nothing but, if untyped, see its watermark move. */
  predicate SameCap(before: Cap, after: Cap)
  {
    if before.kind == Untyped then after == before.(badge := after.badge) else after == before
  }

  function ViewOf(slots: set<Cte>): (v: View)
    reads slots
    ensures v.Keys == slots
  {
    map c | c in slots :: Node(c.cap, c.next, c.prev)
  }

  /** Slots as boot leaves them: unlinked, with capabilities to unused regions of memory and of device
      registers by physical address, and typed ones from the list `seeds`. */
  ghost predicate BootView(hhdm: nat, v: View, regions: seq<Obj>, node: map<Cte, nat>, seeds: seq<Cap>)
  {
    && (forall c :: c in v ==> v[c].next == null && v[c].prev == null && (v[c].cap.kind == Null ==> v[c].cap == NULL_CAP))
    && (forall c :: c in v && Typed(v[c].cap.kind) ==> v[c].cap in seeds)
    && InOrder(regions)
    && (forall i :: 0 <= i < |regions| ==>
          regions[i].parent == -1 && regions[i].kind == Untyped && regions[i].mark == 0 && regions[i].bits < 64
          && regions[i].End() <= hhdm && regions[i].End() + hhdm < WORD_RANGE)
    && (forall c :: c in v && v[c].cap.kind == Untyped ==>
          c in node && node[c] < |regions|
          && v[c].cap == Cap(false, v[c].cap.isDevice, regions[node[c]].base, regions[node[c]].bits, 0, Untyped, 0))
    && (forall c, d :: c in v && d in v && c != d && v[c].cap.kind == v[d].cap.kind == Untyped ==> node[c] != node[d])
  }

  lemma BootIsStructured(hhdm: nat, v: View, rank: map<Cte, real>, path: map<Cte, seq<Cap>>, regions: seq<Obj>,
                         node: map<Cte, nat>, seeds: seq<Cap>)
    requires BootView(hhdm, v, regions, node, seeds) && v.Keys == rank.Keys == path.Keys && forall c :: c in v ==> path[c] == [v[c].cap]
    ensures Structured(v, rank) && Traced(v, path, seeds)
  {
    forall c | c in v
      ensures Local(v, rank, c)
    {
    }
    forall c | c in v && Typed(v[c].cap.kind)
      ensures HasPath(v[c].cap, c, path, seeds)
    {
    }
  }

  lemma BootIsSound(hhdm: nat, v: View, rank: map<Cte, real>, regions: seq<Obj>, node: map<Cte, nat>, seeds: seq<Cap>)
    requires BootView(hhdm, v, regions, node, seeds) && v.Keys == rank.Keys
    ensures Memory(hhdm, v, rank, regions, node)
  {
    hide InOrder, Pow2;
    forall c, d | c in v && d in v
      ensures Later(v, rank, regions, node, c, d)
    {
      if c in node && d in node && node[c] < |regions| && node[d] < |regions| && node[c] != node[d] {
        RootsApart(regions, node[c], node[d]);
      }
    }
    forall i | 0 <= i < |regions|
      ensures regions[i].base < hhdm
    {
      assert regions[i].Size() > 0;
    }
  }

  lemma RootsApart(objs: seq<Obj>, i: nat, j: nat)
    requires InOrder(objs) && i < |objs| && j < |objs| && i != j && objs[j].parent == -1
    ensures !Ancestor(objs, i, j)
  {
  }

  /** What a space records, at one moment. */
  datatype Snap = Snap(v: View, rank: map<Cte, real>, path: map<Cte, seq<Cap>>, born: seq<Cap>, objs: seq<Obj>, node: map<Cte, nat>)

  /** Slots other than `filled` keep their links, but for the one behind `slot`. */
  ghost predicate Relinked(v: View, v': View, slot: Cte, filled: seq<Cte>)
    requires slot in v && v'.Keys == v.Keys
  {
    forall s :: s in v && s !in filled ==>
      (s != slot ==> v'[s].next == v[s].next) && (s != v[slot].next ==> v'[s].prev == v[s].prev)
  }

  lemma InsertedCaps(v: View, v': View, n: Cte, after: Cte, cap: Cap)
    requires n in v && after in v && n != after && v[after].next != n && Inserted(v, v', n, after, cap)
    ensures v'.Keys == v.Keys && v'[n].cap == cap && forall s :: s in v && s != n ==> v'[s].cap == v[s].cap
    ensures Relinked(v, v', after, [n])
  {
  }

  /** A fresh original capability `cap` has been put right behind `slot`. */
  ghost predicate FreshBehind(b: Snap, c: Snap, n: Cte, slot: Cte, cap: Cap)
    requires Structured(b.v, b.rank) && Structured(c.v, c.rank) && slot in b.v && slot in c.v && n in b.v && n in c.rank
  {
    && c.v.Keys == b.v.Keys && c.v[n].cap == cap && (forall s :: s in b.v && s != n ==> c.v[s].cap == b.v[s].cap)
    && c.rank == b.rank[n := c.rank[n]] && b.rank[slot] < c.rank[n]
    && Behind(c.v, c.rank, slot) == [n] + Behind(b.v, b.rank, slot)
    && c.path == b.path[n := [cap]] && c.born == b.born + [cap]
    && Relinked(b.v, c.v, slot, [n])
  }

  /** The first `i` of the slots `dests` have been filled with the capabilities `made`. */
  ghost predicate Progress(a: Snap, b: Snap, slot: Cte, dests: seq<Cte>, made: seq<Cap>, i: nat)
    requires Structured(a.v, a.rank) && Structured(b.v, b.rank) && slot in a.v && i <= |dests| == |made|
  {
    && Stored(a, b, slot, dests, made, i) && Recorded(a, b, dests, made, i) && Relinked(a.v, b.v, slot, dests[..i])
    && Behind(b.v, b.rank, slot) == Reverse(dests[..i]) + Behind(a.v, a.rank, slot)
  }

  /** They are in the slots, which rank above `slot`, and all other slots are as they were. */
  ghost predicate Stored(a: Snap, b: Snap, slot: Cte, dests: seq<Cte>, made: seq<Cap>, i: nat)
    requires slot in a.v && i <= |dests| == |made| && a.v.Keys <= a.rank.Keys && b.v.Keys <= b.rank.Keys
  {
    && b.v.Keys == a.v.Keys && (forall j :: 0 <= j < |dests| ==> dests[j] in a.v)
    && (forall j :: 0 <= j < i ==> b.v[dests[j]].cap == made[j] && a.rank[slot] < b.rank[dests[j]])
    && (forall s :: s in a.v && s !in dests[..i] ==> b.v[s].cap == a.v[s].cap && b.rank[s] == a.rank[s])
  }

  /** Their histories have been recorded. */
  ghost predicate Recorded(a: Snap, b: Snap, dests: seq<Cte>, made: seq<Cap>, i: nat)
    requires i <= |dests| == |made|
  {
    && b.born == a.born + made[..i]
    && (forall j :: 0 <= j < i ==> dests[j] in b.path && b.path[dests[j]] == [made[j]])
    && (forall s :: s in a.path && s !in dests[..i] ==> s in b.path && b.path[s] == a.path[s])
  }

  lemma RecordedStep(a: Snap, b: Snap, c: Snap, dests: seq<Cte>, made: seq<Cap>, i: nat)
    requires i < |dests| == |made| && Distinct(dests) && Recorded(a, b, dests, made, i)
    requires c.path == b.path[dests[i] := [made[i]]] && c.born == b.born + [made[i]]
    ensures Recorded(a, c, dests, made, i + 1)
  {
    assert dests[..i + 1] == dests[..i] + [dests[i]] && made[..i + 1] == made[..i] + [made[i]];
  }

  lemma AllRanked(v: View, rank: map<Cte, real>)
    requires Structured(v, rank)
    ensures v.Keys <= rank.Keys
  {
  }

  lemma StoredStep(a: Snap, b: Snap, c: Snap, slot: Cte, dests: seq<Cte>, made: seq<Cap>, i: nat)
    requires slot in a.v && i < |dests| == |made| && slot !in dests && Distinct(dests)
    requires a.v.Keys <= a.rank.Keys && b.v.Keys <= b.rank.Keys && c.v.Keys <= c.rank.Keys && Stored(a, b, slot, dests, made, i)
    requires var n := dests[i];
             && n in b.v && n in c.rank && c.v.Keys == b.v.Keys && c.v[n].cap == made[i] && b.rank[slot] < c.rank[n]
             && (forall s :: s in b.v && s != n ==> c.v[s].cap == b.v[s].cap) && c.rank == b.rank[n := c.rank[n]]
    ensures Stored(a, c, slot, dests, made, i + 1)
  {
    assert dests[..i + 1] == dests[..i] + [dests[i]];
  }

  lemma NextIsFirst(v: View, rank: map<Cte, real>, c: Cte)
    requires Structured(v, rank) && c in v
    ensures v[c].next == if Behind(v, rank, c) == [] then null else Behind(v, rank, c)[0]
  {
  }

  lemma FirstOfReverse<T>(s: seq<T>)
    ensures |Reverse(s)| == |s| && (s != [] ==> Reverse(s)[0] == s[|s| - 1])
  {
    if s != [] {
      assert s == s[..|s| - 1] + [s[|s| - 1]];
      ReverseGrows(s[..|s| - 1], s[|s| - 1]);
      FirstOfReverse(s[1..]);
    }
  }

  /** What comes first behind `slot` after `i` insertions. */
  lemma NextFilled(a: View, aRank: map<Cte, real>, b: View, bRank: map<Cte, real>, slot: Cte, dests: seq<Cte>, i: nat)
    requires Structured(a, aRank) && Structured(b, bRank) && slot in a && slot in b && i <= |dests|
    requires Behind(b, bRank, slot) == Reverse(dests[..i]) + Behind(a, aRank, slot)
    ensures b[slot].next == if i == 0 then a[slot].next else dests[i - 1]
  {
    hide Structured, Behind;
    NextIsFirst(a, aRank, slot);
    NextIsFirst(b, bRank, slot);
    FirstOfReverse(dests[..i]);
    if i > 0 {
      assert Behind(b, bRank, slot)[0] == Reverse(dests[..i])[0];
    } else {
      assert Behind(b, bRank, slot) == Behind(a, aRank, slot);
    }
  }

  lemma RelinkedStep(a: View, b: View, c: View, slot: Cte, dests: seq<Cte>, i: nat)
    requires slot in a && a.Keys == b.Keys == c.Keys && i < |dests|
    requires Relinked(a, b, slot, dests[..i]) && Relinked(b, c, slot, [dests[i]])
    requires b[slot].next == if i == 0 then a[slot].next else dests[i - 1]
    ensures Relinked(a, c, slot, dests[..i + 1])
  {
    assert dests[..i + 1] == dests[..i] + [dests[i]];
    assert i > 0 ==> dests[i - 1] in dests[..i + 1];
  }

  lemma ProgressStep(a: Snap, b: Snap, c: Snap, slot: Cte, dests: seq<Cte>, made: seq<Cap>, i: nat)
    requires Structured(a.v, a.rank) && Structured(b.v, b.rank) && Structured(c.v, c.rank) && slot in a.v && i < |dests| == |made|
    requires Distinct(dests) && slot !in dests && Progress(a, b, slot, dests, made, i)
    requires slot in b.v && slot in c.v && dests[i] in b.v && dests[i] in c.rank && FreshBehind(b, c, dests[i], slot, made[i])
    ensures Progress(a, c, slot, dests, made, i + 1)
  {
    hide Structured, Behind, Recorded, Distinct, Reverse, Relinked;
    assert b.v.Keys == a.v.Keys;
    hide Stored;
    NextFilled(a.v, a.rank, b.v, b.rank, slot, dests, i);
    RelinkedStep(a.v, b.v, c.v, slot, dests, i);
    AllRanked(a.v, a.rank);
    AllRanked(b.v, b.rank);
    AllRanked(c.v, c.rank);
    RecordedStep(a, b, c, dests, made, i);
    StoredStep(a, b, c, slot, dests, made, i);
    ReverseStep(dests, i, Behind(a.v, a.rank, slot));
  }

  lemma ReverseStep<T>(s: seq<T>, i: nat, rest: seq<T>)
    requires i < |s|
    ensures [s[i]] + (Reverse(s[..i]) + rest) == Reverse(s[..i + 1]) + rest
  {
    hide Reverse;
    assert s[..i + 1] == s[..i] + [s[i]];
    ReverseGrows(s[..i], s[i]);
  }

  /** What a retype of `slot` into `dests` leaves: the watermark at `mark`, the capabilities `made` in the
      destinations and linked behind `slot` in reverse, each at the start of its own history. */
  ghost predicate Carves(a: Snap, b: Snap, slot: Cte, dests: seq<Cte>, made: seq<Cap>, mark: nat)
    requires Structured(a.v, a.rank) && Structured(b.v, b.rank) && slot in a.v && |dests| == |made|
  {
    && CarvesCaps(a.v, b.v, slot, dests, made, mark) && CarvesLog(a, b, dests, made)
    && Behind(b.v, b.rank, slot) == Reverse(dests) + Behind(a.v, a.rank, slot)
    && Relinked(a.v, b.v, slot, dests)
  }

  ghost predicate CarvesCaps(v: View, v': View, slot: Cte, dests: seq<Cte>, made: seq<Cap>, mark: nat)
    requires slot in v && |dests| == |made|
  {
    && v'.Keys == v.Keys && v'[slot].cap == v[slot].cap.(badge := mark)
    && (forall j :: 0 <= j < |dests| ==> dests[j] in v' && v'[dests[j]].cap == made[j])
    && (forall s :: s in v && s != slot && s !in dests ==> v'[s].cap == v[s].cap)
  }

  ghost predicate CarvesLog(a: Snap, b: Snap, dests: seq<Cte>, made: seq<Cap>)
    requires |dests| == |made|
  {
    && b.born == a.born + made
    && (forall j :: 0 <= j < |dests| ==> dests[j] in b.path && b.path[dests[j]] == [made[j]])
    && (forall s :: s in a.path && s !in dests ==> s in b.path && b.path[s] == a.path[s])
  }

  /** The slots have been filled, and then the watermark is raised. */
  lemma AfterProgress(a: Snap, b: Snap, c: Snap, slot: Cte, dests: seq<Cte>, made: seq<Cap>, mark: nat)
    requires Structured(a.v, a.rank) && Structured(b.v, b.rank) && Structured(c.v, c.rank) && slot in a.v && |dests| == |made|
    requires slot !in dests && Progress(a, b, slot, dests, made, |dests|) && slot in b.v
    requires c == b.(v := b.v[slot := b.v[slot].(cap := b.v[slot].cap.(badge := mark))])
    requires Behind(c.v, c.rank, slot) == Behind(b.v, b.rank, slot)
    ensures Carves(a, c, slot, dests, made, mark)
  {
    assert dests[..|dests|] == dests;
    hide Structured, Behind, Reverse, Relinked, Recorded, Stored, CarvesLog, CarvesCaps;
    RecordedAll(a, b, c, dests, made);
    AllRanked(a.v, a.rank);
    AllRanked(b.v, b.rank);
    StoredAll(a, b, slot, dests, made, c.v, mark);
    StillRelinked(a.v, b.v, c.v, slot, dests);
  }

  lemma RanksProgress(a: Snap, b: Snap, slot: Cte, dests: seq<Cte>, made: seq<Cap>)
    requires Structured(a.v, a.rank) && Structured(b.v, b.rank) && slot in a.v && |dests| == |made|
    requires Progress(a, b, slot, dests, made, |dests|)
    ensures slot in a.rank && Reranked(a.v, a.rank, b.rank, slot, dests)
  {
    hide Structured, Behind, Reverse, Reranked, Relinked, Recorded, Stored;
    AllRanked(a.v, a.rank);
    AllRanked(b.v, b.rank);
    StoredReranks(a, b, slot, dests, made);
  }

  lemma RecordedAll(a: Snap, b: Snap, c: Snap, dests: seq<Cte>, made: seq<Cap>)
    requires |dests| == |made| && Recorded(a, b, dests, made, |dests|) && c == b.(v := c.v)
    ensures CarvesLog(a, c, dests, made)
  {
    assert dests[..|dests|] == dests && made[..|dests|] == made;
  }

  lemma StoredAll(a: Snap, b: Snap, slot: Cte, dests: seq<Cte>, made: seq<Cap>, v: View, mark: nat)
    requires slot in a.v && |dests| == |made| && a.v.Keys <= a.rank.Keys && b.v.Keys <= b.rank.Keys && Stored(a, b, slot, dests, made, |dests|)
    requires slot !in dests && slot in b.v && v == b.v[slot := b.v[slot].(cap := b.v[slot].cap.(badge := mark))]
    ensures b.v.Keys == a.v.Keys && CarvesCaps(a.v, v, slot, dests, made, mark)
  {
    assert dests[..|dests|] == dests;
  }

  lemma StillRelinked(a: View, b: View, c: View, slot: Cte, dests: seq<Cte>)
    requires slot in a && a.Keys == b.Keys == c.Keys && Relinked(a, b, slot, dests)
    requires forall s :: s in b ==> c[s].next == b[s].next && c[s].prev == b[s].prev
    ensures Relinked(a, c, slot, dests)
  {
  }

  lemma StoredReranks(a: Snap, b: Snap, slot: Cte, dests: seq<Cte>, made: seq<Cap>)
    requires slot in a.v && |dests| == |made| && a.v.Keys <= a.rank.Keys && b.v.Keys <= b.rank.Keys && Stored(a, b, slot, dests, made, |dests|)
    ensures slot in a.rank && Reranked(a.v, a.rank, b.rank, slot, dests)
  {
    assert dests[..|dests|] == dests;
  }

  /** Objects stay where they are; only watermarks move, and only up. */
  ghost predicate Grown(objs: seq<Obj>, objs': seq<Obj>)
  {
    && |objs| <= |objs'|
    && forall i :: 0 <= i < |objs| ==> objs'[i] == objs[i].(mark := objs'[i].mark) && objs'[i].mark >= objs[i].mark
  }

  /** A retype of `slot` was refused exactly when `num` objects of 2^k bytes did not fit, and otherwise the
      history of memory grew by them. */
  ghost predicate Accounted(objs: seq<Obj>, node: map<Cte, nat>, objs': seq<Obj>, slot: Cte, kind: ObjectType, k: nat, num: nat, r: Outcome)
  {
    && slot in node && node[slot] < |objs|
    && (r.NotEnoughMemory? <==> NewMark(objs[node[slot]], k, num) > objs[node[slot]].Size())
    && objs' == if r == Success then AfterRetype(objs, node[slot], kind, k, num) else objs
  }

  /** What was made is what the history of memory says. */
  lemma CarvesFills(hhdm: nat, a: Snap, b: Snap, slot: Cte, kind: ObjectType, sizeBits: nat, dests: seq<Cte>, made: seq<Cap>, o: Obj,
                    mark: nat, usable: nat)
    requires Structured(a.v, a.rank) && Structured(b.v, b.rank) && slot in a.v && |dests| == |made| && IsObject(kind)
    requires Carves(a, b, slot, dests, made, mark) && forall d :: d in dests ==> d in a.v
    requires var k := ObjectBits(kind, sizeBits);
             && made == Made(hhdm, kind, sizeBits, usable, Pow2(k), |dests|)
             && usable == a.v[slot].cap.ptr + AlignUp(o.mark, Pow2(k)) && mark == NewMark(o, k, |dests|)
    ensures Filled(hhdm, CapsIn(a.v), CapsIn(b.v), o, slot, kind, sizeBits, dests)
  {
    hide Structured, Behind, Pow2, AlignUp, NewMark, PtrAt;
  }

  // ----- The operations as steps -----

  /** What the kernel relies on but does not check: copy wants a live source, retype a live untyped,
      a kind it can make, and empty, distinct destinations. */
  predicate Allowed(v: View, op: Op)
  {
    match op
    case Copy(dest, src, _) => dest in v && src in v && v[src].cap.kind != Null
    case Mint(dest, src, _, _) => dest in v && src in v
    case Retype(slot, kind, sizeBits, dests, _) =>
      && slot in v && v[slot].cap.kind == Untyped && v[slot].cap.sizeBits < 64
      && IsObject(kind) && ObjectBits(kind, sizeBits) < 64
      && Distinct(dests) && (forall j :: 0 <= j < |dests| ==> dests[j] in v && v[dests[j]].cap.kind == Null)
    case Delete(c) => c in v
    case Revoke(c) => c in v
  }

  /** What keeps memory accounted for besides: no copies of untyped capabilities, and no retype whose
      sizes the comparison does not decide rightly. */
  predicate Harmless(v: View, op: Op)
    requires Allowed(v, op)
  {
    match op
    case Copy(_, src, _) => v[src].cap.kind != Untyped
    case Retype(slot, kind, sizeBits, dests, _) => Decides(v[slot].cap.sizeBits, v[slot].cap.badge, ObjectBits(kind, sizeBits), |dests|)
    case _ => true
  }

  /** Slot `n` has received `cap`, handed out from slot `after`, and comes first behind it. */
  ghost predicate Handed(a: Snap, b: Snap, n: Cte, after: Cte, cap: Cap)
    requires Structured(a.v, a.rank) && Structured(b.v, b.rank) && n in a.v && after in a.v
  {
    && Inserted(a.v, b.v, n, after, cap)
    && Behind(b.v, b.rank, after) == [n] + Behind(a.v, a.rank, after)
    && b.path == a.path[n := Extended(a.path, after, cap)]
    && b.born == a.born && b.objs == a.objs && b.node == a.node
  }

  /** The first `r` nodes of the tail `all` of `p` have been emptied, and nothing else has changed. */
  ghost predicate Emptied(a: Snap, b: Snap, p: Cte?, all: seq<Cte>, r: nat)
  {
    Distinct(all) && r <= |all| && CutOff(a.v, b.v, p, all, r) && b == a.(v := b.v)
  }

  lemma EmptiedIs(a: Snap, b: Snap, p: Cte?, all: seq<Cte>, r: nat)
    requires Distinct(all) && r <= |all| && CutOff(a.v, b.v, p, all, r) && b == a.(v := b.v)
    ensures Emptied(a, b, p, all, r)
  {
  }

  /** Slot `c` and the block that revoking it removes have been emptied. */
  ghost predicate Deleted(a: Snap, b: Snap, c: Cte)
    requires Structured(a.v, a.rank) && c in a.v
  {
    var all := From(a.v, a.rank, c);
    Emptied(a, b, a.v[c].prev, all, BlockEnd(a.v[c].cap, CapsOf(a.v, all), 1))
  }

  /** The block right behind `c` that BlockEnd describes has been emptied. */
  ghost predicate Revoked(a: Snap, b: Snap, c: Cte)
    requires Structured(a.v, a.rank) && c in a.v
  {
    var all := Behind(a.v, a.rank, c);
    Emptied(a, b, c, all, BlockEnd(a.v[c].cap, CapsOf(a.v, all), 0))
  }

  /** One operation takes the state `a` to the state `b`. */
  ghost predicate Moves(hhdm: nat, op: Op, a: Snap, b: Snap)
    requires Structured(a.v, a.rank) && Structured(b.v, b.rank) && Allowed(a.v, op)
  {
    match op
    case Copy(dest, src, mask) =>
      var c := a.v[src].cap;
      if a.v[dest].cap.kind != Null || (c.kind == Untyped && c.badge != 0) then b == a
      else Handed(a, b, dest, src, Copied(c, mask))
    case Mint(dest, src, badge, mask) =>
      if a.v[dest].cap.kind != Null || !Mintable(a.v[src].cap) then b == a
      else Handed(a, b, dest, src, Minted(a.v[src].cap, badge, mask))
    case Retype(slot, kind, sizeBits, dests, found) =>
      var c, k := a.v[slot].cap, ObjectBits(kind, sizeBits);
      if Refuses(c.sizeBits, c.badge, Pow2(k), |dests|) || found != Found then b == a
      else
        Carves(a, b, slot, dests, Made(hhdm, kind, sizeBits, c.ptr + Offset(c.badge, Pow2(k)), Pow2(k), |dests|),
               Offset(c.badge, Pow2(k)) + Taken(k, |dests|))
    case Delete(c) => Deleted(a, b, c)
    case Revoke(c) => Revoked(a, b, c)
  }

  // ----- What a step leaves alone -----

  lemma MoveMakes(hhdm: nat, op: Op, a: Snap, b: Snap)
    requires Structured(a.v, a.rank) && Structured(b.v, b.rank) && Allowed(a.v, op) && Moves(hhdm, op, a, b)
    ensures a.born <= b.born && (op.Retype? || b.born == a.born)
    ensures op.Retype? ==> forall i :: |a.born| <= i < |b.born| ==> b.born[i] == Fresh(op.kind, op.sizeBits, b.born[i].ptr)
  {
    hide Structured, Behind, From, BlockEnd, CutOff, Inserted, Refuses, Offset, Taken, PtrAt, Pow2;
  }

  /** Slots that an operation does not fill keep their capability, but for the watermark, or lose it. */
  ghost predicate Spares(op: Op, v: View, v': View)
  {
    v'.Keys == v.Keys && forall c :: c in v ==> v'[c].cap.kind == Null || Names(op, c) || SameCap(v[c].cap, v'[c].cap)
  }

  lemma MoveSpares(hhdm: nat, op: Op, a: Snap, b: Snap)
    requires Structured(a.v, a.rank) && Structured(b.v, b.rank) && Allowed(a.v, op) && Moves(hhdm, op, a, b)
    ensures Spares(op, a.v, b.v)
  {
    hide Structured, Hangs, Behind, From, BlockEnd, CutOff, Inserted, Refuses, Offset, Taken, PtrAt, Pow2, Made, Carves;
    match op
    case Copy(dest, src, mask) => HandedSpares(a, b, dest, src, Copied(a.v[src].cap, mask));
    case Mint(dest, src, badge, mask) => HandedSpares(a, b, dest, src, Minted(a.v[src].cap, badge, mask));
    case Retype(slot, _, _, dests, _) =>
      if b != a {
        CarvesFrame(a, b, slot, dests);
      }
    case Delete(c) =>
      FromHangs(a.v, a.rank, c);
      EmptiedSpares(a, b, a.v[c].prev, From(a.v, a.rank, c), BlockEnd(a.v[c].cap, CapsOf(a.v, From(a.v, a.rank, c)), 1));
    case Revoke(c) =>
      BehindHangs(a.v, a.rank, c);
      EmptiedSpares(a, b, c, Behind(a.v, a.rank, c), BlockEnd(a.v[c].cap, CapsOf(a.v, Behind(a.v, a.rank, c)), 0));
  }

  lemma CarvesFrame(a: Snap, b: Snap, slot: Cte, dests: seq<Cte>)
    requires Structured(a.v, a.rank) && Structured(b.v, b.rank) && slot in a.v
    requires exists made: seq<Cap>, mark: nat :: |made| == |dests| && Carves(a, b, slot, dests, made, mark)
    ensures b.v.Keys == a.v.Keys && b.v[slot].cap == a.v[slot].cap.(badge := b.v[slot].cap.badge)
    ensures forall s :: s in a.v && s != slot && s !in dests ==> b.v[s].cap == a.v[s].cap
  {
    hide Structured, Behind;
  }

  /** The history of memory is kept apart from that. */
  lemma CarvesForgets(a: Snap, b: Snap, c: Snap, slot: Cte, dests: seq<Cte>, made: seq<Cap>, mark: nat)
    requires Structured(a.v, a.rank) && Structured(b.v, b.rank) && slot in a.v && |dests| == |made|
    requires Carves(a, b, slot, dests, made, mark) && c == b.(objs := c.objs, node := c.node)
    ensures Carves(a, c, slot, dests, made, mark)
  {
    hide Structured, Behind;
  }

  /** What was made is in the slots and in the log. */
  lemma CarvesMade(a: Snap, b: Snap, slot: Cte, dests: seq<Cte>, made: seq<Cap>, mark: nat)
    requires Structured(a.v, a.rank) && Structured(b.v, b.rank) && slot in a.v && |dests| == |made|
    requires Carves(a, b, slot, dests, made, mark)
    ensures b.born == a.born + made && forall j :: 0 <= j < |dests| ==> dests[j] in b.v && b.v[dests[j]].cap == made[j]
  {
    hide Structured, Behind;
  }

  lemma HandedSpares(a: Snap, b: Snap, n: Cte, after: Cte, cap: Cap)
    requires n in a.v && after in a.v
    ensures b == a || Inserted(a.v, b.v, n, after, cap) ==>
              b.v.Keys == a.v.Keys && forall c :: c in a.v && c != n ==> b.v[c].cap == a.v[c].cap
  {
  }

  lemma EmptiedSpares(a: Snap, b: Snap, p: Cte?, all: seq<Cte>, r: nat)
    requires Emptied(a, b, p, all, r) && Hangs(a.v, p, all, 0)
    ensures b.v.Keys == a.v.Keys && forall c :: c in a.v ==> b.v[c].cap == a.v[c].cap || b.v[c].cap == NULL_CAP
  {
    hide CutOff, Hangs;
    CutKeepsCaps(a.v, b.v, p, all, r);
  }

  // ----- Runs -----

  /** An operation that a run carries out. */
  predicate Permitted(v: View, op: Op, careful: bool) { Allowed(v, op) && (careful ==> Harmless(v, op)) }

  lemma PermittedIs(v: View, op: Op, careful: bool)
    ensures Permitted(v, op, careful) <==> Allowed(v, op) && (careful ==> Harmless(v, op))
  {
  }

  ghost predicate RunsFrom(hhdm: nat, op: Op, careful: bool, a: Snap, b: Snap)
  {
    && Structured(a.v, a.rank) && Structured(b.v, b.rank)
    && if Permitted(a.v, op, careful) then Moves(hhdm, op, a, b) else b == a
  }

  /** Memory is accounted for. */
  ghost predicate Settled(hhdm: nat, a: Snap) { Memory(hhdm, a.v, a.rank, a.objs, a.node) }

  /** The states of a run, one more than there are operations. */
  ghost predicate IsRun(hhdm: nat, ops: seq<Op>, careful: bool, trace: seq<Snap>)
  {
    |trace| == |ops| + 1 && forall i {:trigger ops[i]} :: 0 <= i < |ops| ==> RunsFrom(hhdm, ops[i], careful, trace[i], trace[i + 1])
  }

  lemma RunGrows(hhdm: nat, ops: seq<Op>, careful: bool, trace: seq<Snap>, i: nat, b: Snap)
    requires i < |ops| && IsRun(hhdm, ops[..i], careful, trace) && RunsFrom(hhdm, ops[i], careful, trace[i], b)
    ensures IsRun(hhdm, ops[..i + 1], careful, trace + [b])
  {
    hide RunsFrom;
    assert forall j :: 0 <= j < i ==> ops[..i][j] == ops[..i + 1][j];
    assert ops[..i + 1][i] == ops[i];
  }

  /** One of the operations is a retype for such a capability, an original with all rights and no badge. */
  ghost predicate MadeBy(ops: seq<Op>, cap: Cap)
  {
    exists k :: 0 <= k < |ops| && ops[k].Retype? && cap == Cap(true, false, cap.ptr, ops[k].sizeBits, RIGHTS_ALL, ops[k].kind, 0)
  }

  lemma {:induction false} RunMakes(hhdm: nat, ops: seq<Op>, careful: bool, trace: seq<Snap>)
    requires IsRun(hhdm, ops, careful, trace)
    ensures trace[0].born <= trace[|ops|].born
    ensures forall i :: |trace[0].born| <= i < |trace[|ops|].born| ==> MadeBy(ops, trace[|ops|].born[i])
  {
    if ops != [] {
      hide Moves, Permitted;
      var n := |ops| - 1;
      RunStops(hhdm, ops, careful, trace);
      RunMakes(hhdm, ops[..n], careful, trace[..n + 1]);
      var a, b := trace[n], trace[n + 1];
      assert RunsFrom(hhdm, ops[n], careful, a, b);
      PermittedIs(a.v, ops[n], careful);
      if Permitted(a.v, ops[n], careful) {
        MoveMakes(hhdm, ops[n], a, b);
      }
      forall i | |trace[0].born| <= i < |b.born|
        ensures MadeBy(ops, b.born[i])
      {
        if i < |a.born| {
          assert a.born[i] == b.born[i] && MadeBy(ops[..n], a.born[i]);
          var k :| 0 <= k < n && ops[..n][k].Retype? && a.born[i] == Cap(true, false, a.born[i].ptr, ops[..n][k].sizeBits, RIGHTS_ALL, ops[..n][k].kind, 0);
          assert ops[k].Retype?;
        }
      }
    }
  }

  lemma RunStops(hhdm: nat, ops: seq<Op>, careful: bool, trace: seq<Snap>)
    requires IsRun(hhdm, ops, careful, trace) && ops != []
    ensures var n := |ops| - 1;
            IsRun(hhdm, ops[..n], careful, trace[..n + 1]) && RunsFrom(hhdm, ops[n], careful, trace[n], trace[n + 1])
  {
    hide RunsFrom;
    var n := |ops| - 1;
    assert forall j :: 0 <= j < n ==> ops[..n][j] == ops[j];
  }

  /** A live slot that no operation may fill has the capability it had. */
  ghost predicate Spared(ops: seq<Op>, v: View, v': View)
  {
    v'.Keys == v.Keys && forall c :: c in v && v'[c].cap.kind != Null && (forall k :: 0 <= k < |ops| ==> !Names(ops[k], c)) ==>
                           SameCap(v[c].cap, v'[c].cap)
  }

  lemma {:induction false} RunSpares(hhdm: nat, ops: seq<Op>, careful: bool, trace: seq<Snap>)
    requires IsRun(hhdm, ops, careful, trace)
    ensures Spared(ops, trace[0].v, trace[|ops|].v)
  {
    if ops != [] {
      hide Moves, Permitted, Names;
      var n := |ops| - 1;
      RunStops(hhdm, ops, careful, trace);
      RunSpares(hhdm, ops[..n], careful, trace[..n + 1]);
      var v, a, b := trace[0].v, trace[n], trace[n + 1];
      PermittedIs(a.v, ops[n], careful);
      if Permitted(a.v, ops[n], careful) {
        MoveSpares(hhdm, ops[n], a, b);
      }
      forall c | c in v && b.v[c].cap.kind != Null && (forall k :: 0 <= k < |ops| ==> !Names(ops[k], c))
        ensures SameCap(v[c].cap, b.v[c].cap)
      {
        assert !Names(ops[n], c);
        assert SameCap(a.v[c].cap, b.v[c].cap) && a.v[c].cap.kind != Null;
        assert forall k :: 0 <= k < n ==> ops[..n][k] == ops[k];
        assert SameCap(v[c].cap, a.v[c].cap);
      }
    }
  }
}
