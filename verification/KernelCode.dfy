/** The kernel routines as the C code runs them: records updated field by field, threads linked into and
    out of lists through their nodes.  Each is proved to have its effect in KernelState, and to leave
    every list a whole ring that holds the nodes of exactly the threads of its queue
    (kern/obj/tcb.c, kern/obj/endpoint.c, kern/obj/notification.c, kern/syscall.c). */
module KernelCode {
  import opened Seqs
  import opened Wrappers
  import opened KernelState
  import opened KernelMemory
  import opened KernelLists
  import opened ListRing
  import opened KernelInv
  import Spec = KernelState

  predicate Refers(x: Option<Tid>, threads: set<Tid>) { x.Some? ==> x.value in threads }

  /** Every thread the state refers to is one of `threads`. */
  ghost predicate Known(s: State, threads: set<Tid>)
  {
    && Refers(s.current, threads) && Refers(s.returnTo, threads)
    && (forall t: Tid :: Refers(s.T(t).replyTo, threads)) && (forall n: Nid :: Refers(s.N(n).bound, threads))
  }

  /** The fields of the kernel's memory. */
  datatype Memory = Memory(tcbs: map<Tid, Record>, ntfns: map<Nid, Signals>, current: Option<Tid>, returnTo: Option<Tid>, panicked: bool)
  {
    function Get(t: Tid): Record { if t in tcbs then tcbs[t] else Real(ZERO_TCB) }
    function GetN(n: Nid): Signals { if n in ntfns then ntfns[n] else RealN(ZERO_NTFN) }
  }

  /** The memory holds the records of the state. */
  ghost predicate Records(m: Memory, s: State)
  {
    && (forall t: Tid :: m.Get(t) == Real(s.T(t))) && (forall n: Nid :: m.GetN(n) == RealN(s.N(n)))
    && m.current == s.current && m.returnTo == s.returnTo && m.panicked == s.panicked
  }

  /** Queues and links are the same. */
  ghost predicate SameQueues(s: State, s': State)
  {
    && s'.runq == s.runq && (forall e: Eid :: s'.E(e) == s.E(e)) && (forall n: Nid :: s'.N(n).queue == s.N(n).queue)
    && forall t: Tid :: s'.T(t).runLink == s.T(t).runLink && s'.T(t).sendLink == s.T(t).sendLink
  }

  /** A change of records keeps everything about them, and does not touch queues. */
  ghost predicate Recorded(m: Memory, s: State, m': Memory, s': State, threads: set<Tid>)
  {
    && (Records(m, s) ==> Records(m', s')) && (Known(s, threads) ==> Known(s', threads)) && SameQueues(s, s')
  }

  lemma PutRecorded(m: Memory, s: State, t: Tid, r: Record, c: Tcb, threads: set<Tid>)
    requires Refers(r.replyTo, threads) && Real(c) == r && c.runLink == s.T(t).runLink && c.sendLink == s.T(t).sendLink
    ensures Recorded(m, s, m.(tcbs := m.tcbs[t := r]), s.WithT(t, c), threads)
  {
    var s' := s.WithT(t, c);
    assert forall u: Tid :: s'.T(u) == if u == t then c else s.T(u);
    assert c.replyTo == r.replyTo && (forall n: Nid :: s'.N(n) == s.N(n)) && forall e: Eid :: s'.E(e) == s.E(e);
    hide Refers;
  }

  lemma PutNRecorded(m: Memory, s: State, n: Nid, r: Signals, threads: set<Tid>)
    requires Refers(r.bound, threads)
    ensures Recorded(m, s, m.(ntfns := m.ntfns[n := r]), s.WithN(n, OverN(s.N(n), r)), threads)
  {
    var s' := s.WithN(n, OverN(s.N(n), r));
    assert forall u: Nid :: s'.N(u) == if u == n then OverN(s.N(n), r) else s.N(u);
    assert (forall t: Tid :: s'.T(t) == s.T(t)) && forall e: Eid :: s'.E(e) == s.E(e);
    hide Refers;
  }

  lemma OweRecorded(m: Memory, s: State, t: Tid, to: Option<Tid>, threads: set<Tid>)
    ensures Recorded(m, s, m, s.WithT(t, s.T(t).(owes := to)), threads)
  {
    var s' := s.WithT(t, s.T(t).(owes := to));
    assert forall u: Tid :: s'.T(u) == if u == t then s.T(t).(owes := to) else s.T(u);
    assert (forall n: Nid :: s'.N(n) == s.N(n)) && forall e: Eid :: s'.E(e) == s.E(e);
    hide Refers;
  }

  lemma CpuRecorded(m: Memory, s: State, current: Option<Tid>, returnTo: Option<Tid>, panicked: bool, threads: set<Tid>)
    requires Refers(current, threads) && Refers(returnTo, threads)
    ensures Recorded(m, s, m.(current := current, returnTo := returnTo, panicked := panicked),
                     s.(current := current, returnTo := returnTo, panicked := panicked), threads)
  {
    var s' := s.(current := current, returnTo := returnTo, panicked := panicked);
    assert (forall u: Tid :: s'.T(u) == s.T(u)) && (forall n: Nid :: s'.N(n) == s.N(n)) && forall e: Eid :: s'.E(e) == s.E(e);
    hide Refers;
  }

  lemma Recoupled(s: State, s': State, nodes: Nodes, items: Items, selfs: set<Link>)
    requires SameQueues(s, s') && Coupled(s, nodes, items, selfs)
    ensures Coupled(s', nodes, items, selfs)
  {
    SameQueuesCoupled(s, s', nodes, items, selfs);
  }

  /** Linking and unlinking touches no record. */
  lemma LinkRecorded(m: Memory, s: State, s': State, threads: set<Tid>)
    requires Records(m, s) && Known(s, threads)
    requires (forall t: Tid :: Real(s'.T(t)) == Real(s.T(t))) && (forall n: Nid :: RealN(s'.N(n)) == RealN(s.N(n)))
    requires s'.current == s.current && s'.returnTo == s.returnTo && s'.panicked == s.panicked
    ensures Records(m, s') && Known(s', threads)
  {
    forall t: Tid
      ensures Refers(s'.T(t).replyTo, threads)
    {
      assert Real(s'.T(t)).replyTo == Real(s.T(t)).replyTo;
    }
    forall n: Nid
      ensures Refers(s'.N(n).bound, threads)
    {
      assert RealN(s'.N(n)).bound == RealN(s.N(n)).bound;
    }
  }

  lemma EnlistReal(s: State, q: QueueId, t: Tid)
    ensures var s' := Enlisted(s, q, t);
            && (forall u: Tid :: Real(s'.T(u)) == Real(s.T(u))) && (forall n: Nid :: RealN(s'.N(n)) == RealN(s.N(n)))
            && s'.current == s.current && s'.returnTo == s.returnTo && s'.panicked == s.panicked
  {
  }

  lemma DelistReal(s: State, q: QueueId, t: Tid, rest: seq<Tid>)
    ensures var s' := Delisted(s, q, t, rest);
            && (forall u: Tid :: Real(s'.T(u)) == Real(s.T(u))) && (forall n: Nid :: RealN(s'.N(n)) == RealN(s.N(n)))
            && s'.current == s.current && s'.returnTo == s.returnTo && s'.panicked == s.panicked
  {
  }

  /** The state before the first thread. */
  function Blank(): State { State(map[], [], map[], map[], None, None, false) }

  lemma BlankCoupled(nodes: Nodes, items: Items)
    requires Ready in items && forall q :: q in items ==> items[q] == []
    ensures Coupled(Blank(), nodes, items, {})
  {
    assert forall q :: QueueOf(Blank(), q) == [];
  }

  /** switch_tcb_actual up to the point where the old thread is dealt with. */
  function Parting(s: State): State
  {
    var s := if s.current.Some? then Spec.SaveTcb(s, s.current.value) else s;
    if s.current.Some? && s.T(s.current.value).state == Running then Spec.ScheduleTcb(s, s.current.value) else s
  }

  lemma SwitchIs(s: State, t: Tid)
    ensures var p := Parting(s.Assert(s.current != Some(t))).Assert(Parting(s.Assert(s.current != Some(t))).T(t).state == Runnable);
            Spec.SwitchTcbActual(s, t) == p.WithT(t, p.T(t).(state := Running)).(current := Some(t))
  {
  }

  /** A record changed is the thread changed in those fields. */
  lemma RecordIs(c: Tcb, c': Tcb)
    requires c'.runLink == c.runLink && c'.sendLink == c.sendLink && c'.owes == c.owes
    ensures Over(c, Real(c')) == c'
    ensures c' == c.(state := Runnable) ==> Real(c') == Real(c).(state := Runnable) && Real(c').replyTo == Real(c).replyTo == c.replyTo
  {
  }

  lemma ScheduleTcbIs(s: State, t: Tid)
    ensures var a := s.Assert(Real(s.T(t)).state != Dead);
            && a.T(t) == s.T(t) && Spec.ScheduleTcb(s, t) == Enlisted(a.WithT(t, s.T(t).(state := Runnable)), Ready, t)
            && a.WithT(t, s.T(t).(state := Runnable)).T(t).runLink == s.T(t).runLink
  {
    var a := s.Assert(Real(s.T(t)).state != Dead);
    var b := a.WithT(t, s.T(t).(state := Runnable));
    assert b.WithT(t, b.T(t).(runLink := Queued)).tcbs == a.tcbs[t := s.T(t).(state := Runnable, runLink := Queued)];
  }

  class Kernel {
    const lists: Lists
    const nodes: Nodes
    var tcbs: map<Tid, Record>
    var ntfns: map<Nid, Signals>
    var current: Option<Tid>
    var returnTo: Option<Tid>
    var panicked: bool
    /** The state that the memory stands for. */
    ghost var s: State

    /** Initialised heads, and threads in zeroed memory. */
    constructor (lists: Lists, nodes: Nodes)
      requires lists.Valid() && nodes.Ok(lists.nodes) && Ready in lists.heads && lists.Selfs() == {}
      requires forall q :: q in lists.items ==> lists.items[q] == []
      ensures Valid() && s == Blank() && this.lists == lists && this.nodes == nodes
    {
      hide Lists.Selfs, Coupled, Nodes.Ok;
      HeadsAreLists(lists);
      BlankCoupled(nodes, lists.items);
      hide Lists.Valid;
      this.lists, this.nodes := lists, nodes;
      tcbs, ntfns, current, returnTo, panicked := map[], map[], None, None, false;
      s := Blank();
    }

    function Fields(): Memory
      reads this
    {
      Memory(tcbs, ntfns, current, returnTo, panicked)
    }

    ghost predicate Valid()
      reads this, lists, lists.pool
    {
      && lists.Valid() && nodes.Ok(lists.nodes) && Records(Fields(), s) && Known(s, nodes.run.Keys)
      && Coupled(s, nodes, lists.items, lists.Selfs())
    }

    /** A thread's record. */
    function Get(t: Tid): (r: Record)
      requires Valid()
      reads this, lists, lists.pool
      ensures r == Real(s.T(t))
    {
      Fields().Get(t)
    }

    function GetN(n: Nid): (r: Signals)
      requires Valid()
      reads this, lists, lists.pool
      ensures r == RealN(s.N(n))
    {
      Fields().GetN(n)
    }

    function Current(): (t: Option<Tid>)
      requires Valid()
      reads this, lists, lists.pool
      ensures t == s.current
    {
      current
    }

    function ReturnTo(): (t: Option<Tid>)
      requires Valid()
      reads this, lists, lists.pool
      ensures t == s.returnTo
    {
      returnTo
    }

    lemma Knows()
      requires Valid()
      ensures Refers(s.current, nodes.run.Keys) && Refers(s.returnTo, nodes.run.Keys)
      ensures forall t: Tid :: Refers(s.T(t).replyTo, nodes.run.Keys)
      ensures forall n: Nid :: Refers(s.N(n).bound, nodes.run.Keys)
      ensures nodes.run.Keys == nodes.send.Keys && Ready in lists.heads && lists.items.Keys == lists.heads.Keys
      ensures forall q, t :: q in lists.heads && t in QueueOf(s, q) ==> t in nodes.run
    {
      HeadsAreLists(lists);
      forall q, t | q in lists.heads && t in QueueOf(s, q)
        ensures t in nodes.run
      {
        assert Named(lists.items[q], QueueOf(s, q), nodes.For(q));
      }
    }

    lemma Together()
      requires lists.Valid() && lists.Pooled() && nodes.Ok(lists.nodes) && Records(Fields(), s) && Known(s, nodes.run.Keys)
      requires Coupled(s, nodes, lists.items, lists.Selfs())
      ensures Valid()
    {
    }

    // ----- Records -----

    /** The records have changed from `m`, for the state `s0`, and the lists have not. */
    lemma Rewritten(m: Memory, s0: State)
      requires lists.Valid() && lists.Pooled() && nodes.Ok(lists.nodes) && Records(m, s0) && Known(s0, nodes.run.Keys)
      requires Coupled(s0, nodes, lists.items, lists.Selfs()) && Recorded(m, s0, Fields(), s, nodes.run.Keys)
      ensures Valid()
    {
      hide Lists.Valid, Lists.Selfs, Coupled, Records, Known, Nodes.Ok, SameQueues;
      Recoupled(s0, s, nodes, lists.items, lists.Selfs());
    }

    lemma Before()
      requires Valid()
      ensures lists.Valid() && lists.Pooled() && nodes.Ok(lists.nodes) && Records(Fields(), s) && Known(s, nodes.run.Keys)
      ensures Coupled(s, nodes, lists.items, lists.Selfs())
      ensures Refers(s.current, nodes.run.Keys) && Refers(s.returnTo, nodes.run.Keys)
      ensures current == s.current && returnTo == s.returnTo && panicked == s.panicked
    {
    }

    method Put(t: Tid, r: Record)
      requires Valid() && Refers(r.replyTo, nodes.run.Keys)
      modifies this`tcbs, this`s
      ensures Valid() && s == old(s).WithT(t, Over(old(s).T(t), r))
    {
      hide *;
      Before();
      FieldsAre();
      ghost var m, s0, c := Fields(), s, Over(s.T(t), r);
      OverReal(s.T(t), r);
      PutRecorded(m, s, t, r, c, nodes.run.Keys);
      tcbs := tcbs[t := r];
      s := s.WithT(t, c);
      FieldsAre();
      Rewritten(m, s0);
    }

    lemma FieldsAre()
      ensures Fields() == Memory(tcbs, ntfns, current, returnTo, panicked)
    {
    }

    method PutN(n: Nid, x: Signals)
      requires Valid() && Refers(x.bound, nodes.run.Keys)
      modifies this`ntfns, this`s
      ensures Valid() && s == old(s).WithN(n, OverN(old(s).N(n), x))
    {
      hide *;
      Before();
      FieldsAre();
      ghost var m, s0 := Fields(), s;
      PutNRecorded(m, s, n, x, nodes.run.Keys);
      ntfns := ntfns[n := x];
      s := s.WithN(n, OverN(s.N(n), x));
      FieldsAre();
      Rewritten(m, s0);
    }

    /** Book-keeping of debts, which no routine reads. */
    ghost method Owe(t: Tid, to: Option<Tid>)
      requires Valid()
      modifies this`s
      ensures Valid() && s == old(s).WithT(t, old(s).T(t).(owes := to))
    {
      hide *;
      Before();
      FieldsAre();
      var m, s0 := Fields(), s;
      OweRecorded(m, s, t, to, nodes.run.Keys);
      s := s.WithT(t, s.T(t).(owes := to));
      FieldsAre();
      Rewritten(m, s0);
    }

    method SetReturn(x: Option<Tid>)
      requires Valid() && Refers(x, nodes.run.Keys)
      modifies this`returnTo, this`s
      ensures Valid() && s == old(s).(returnTo := x)
    {
      hide *;
      Before();
      FieldsAre();
      ghost var m, s0 := Fields(), s;
      CpuRecorded(m, s, current, x, panicked, nodes.run.Keys);
      returnTo := x;
      s := s.(returnTo := x);
      FieldsAre();
      Rewritten(m, s0);
    }

    method SetCurrent(x: Option<Tid>)
      requires Valid() && Refers(x, nodes.run.Keys)
      modifies this`current, this`s
      ensures Valid() && s == old(s).(current := x)
    {
      hide *;
      Before();
      FieldsAre();
      ghost var m, s0 := Fields(), s;
      CpuRecorded(m, s, x, returnTo, panicked, nodes.run.Keys);
      current := x;
      s := s.(current := x);
      FieldsAre();
      Rewritten(m, s0);
    }

    /** assert: a failed one panics. */
    method Check(b: bool)
      requires Valid()
      modifies this`panicked, this`s
      ensures Valid() && s == old(s).Assert(b)
    {
      AssertIs(s, b);
      hide *;
      if !b {
        Before();
        FieldsAre();
        ghost var m, s0 := Fields(), s;
        CpuRecorded(m, s, current, returnTo, true, nodes.run.Keys);
        panicked := true;
        s := s.(panicked := true);
        FieldsAre();
        Rewritten(m, s0);
      }
    }

    // ----- Lists -----

    /** append_to_list of a thread's node for the queue. */
    method AddFirst(q: QueueId, t: Tid)
      requires Valid() && q in lists.heads && t in nodes.run
      requires if q == Ready then s.T(t).runLink != Queued else s.T(t).sendLink == Off
      modifies this`s, lists, lists.pool
      ensures Valid() && s == Enlisted(old(s), q, t)
    {
      hide *;
      PrepareAdd(q, t);
      FieldsAre();
      if q == Ready {
        lists.Append(q, nodes.run[t]);
      } else {
        lists.Append(q, nodes.send[t]);
      }
      s := Enlisted(s, q, t);
      FieldsAre();
      Together();
    }

    lemma PrepareAdd(q: QueueId, t: Tid)
      requires Valid() && q in lists.heads && t in nodes.run
      requires if q == Ready then s.T(t).runLink != Queued else s.T(t).sendLink == Off
      ensures lists.Valid() && lists.Pooled() && q in lists.items && nodes.run.Keys == nodes.send.Keys && nodes.Ok(lists.nodes)
      ensures var x := if q == Ready then nodes.run[t] else nodes.send[t];
              && Free(lists.nodes, lists.items, x)
              && Coupled(Enlisted(s, q, t), nodes, lists.items[q := [x] + lists.items[q]], lists.Selfs() - {x})
      ensures Records(Fields(), Enlisted(s, q, t)) && Known(Enlisted(s, q, t), nodes.run.Keys)
    {
      Before();
      HeadsAreLists(lists);
      hide Coupled, Known, Records, Lists.Valid, Lists.Selfs, Free, Enlisted;
      UnlinkedIsFree(s, nodes, lists.items, lists.Selfs(), lists.nodes, q, t);
      EnlistCoupled(s, nodes, lists.items, lists.Selfs(), lists.nodes, q, t);
      EnlistReal(s, q, t);
      LinkRecorded(Fields(), s, Enlisted(s, q, t), nodes.run.Keys);
    }

    /** pop_from_list and CONTAINER_OF: the first thread of a queue. */
    method TakeFirst(q: QueueId) returns (t: Tid)
      requires Valid() && q in lists.heads && QueueOf(s, q) != []
      modifies this`s, lists, lists.pool
      ensures Valid() && t == QueueOf(old(s), q)[0] && t in nodes.run && s == Delisted(old(s), q, t, QueueOf(old(s), q)[1..])
    {
      hide *;
      ghost var first := PrepareTake(q, 0);
      ghost var queue := QueueOf(s, q);
      assert queue[..0] + queue[0 + 1..] == queue[1..];
      FieldsAre();
      ghost var was := lists.items;
      var x := lists.Pop(q);
      ButFirst(was[q]);
      t := x.owner;
      s := Delisted(s, q, t, queue[1..]);
      FieldsAre();
      Together();
    }

    /** remove_from_list of a thread's send/receive node, from whichever list it is in. */
    method RemoveNode(t: Tid)
      requires Valid() && t in nodes.run && s.T(t).sendLink != Off
      modifies this`s, lists, lists.pool
      ensures Valid() && s == Spec.Unlink(old(s), t)
    {
      hide *;
      ghost var q, i := FindNode(t);
      ghost var first := PrepareTake(q, i);
      FieldsAre();
      lists.Remove(nodes.send[t], q, i);
      s := Spec.Unlink(s, t);
      FieldsAre();
      Together();
    }

    lemma FindNode(t: Tid) returns (q: QueueId, i: nat)
      requires Valid() && t in nodes.run && s.T(t).sendLink != Off
      ensures q in lists.heads && q != Ready && i < |QueueOf(s, q)| && QueueOf(s, q)[i] == t && t in nodes.send
      ensures Spec.Unlink(s, t) == Delisted(s, q, t, QueueOf(s, q)[..i] + QueueOf(s, q)[i + 1..])
    {
      HeadsAreLists(lists);
      q := Home(s.T(t).sendLink);
      assert Linked(s, q, t);
      assert t in QueueOf(s, q);
      i :| 0 <= i < |QueueOf(s, q)| && QueueOf(s, q)[i] == t;
      ListDistinct(q);
      QueueDistinct(s, nodes, lists.items, lists.Selfs(), q);
      UnlinkIsDelist(s, t, i);
    }

    lemma ListDistinct(q: QueueId)
      requires Valid() && q in lists.heads
      ensures q in lists.items && Distinct(lists.items[q])
    {
      HeadsAreLists(lists);
      WholeDistinct(lists.heads[q], lists.items[q]);
    }

    lemma PrepareTake(q: QueueId, i: nat) returns (t: Tid)
      requires Valid() && q in lists.heads && i < |QueueOf(s, q)|
      ensures lists.Valid() && lists.Pooled() && q in lists.items && nodes.run.Keys == nodes.send.Keys && nodes.Ok(lists.nodes)
      ensures i < |lists.items[q]| && t == QueueOf(s, q)[i] && t in nodes.run && lists.items[q][i].owner == t
      ensures lists.items[q][i] == if q == Ready then nodes.run[t] else nodes.send[t]
      ensures var s' := Delisted(s, q, t, QueueOf(s, q)[..i] + QueueOf(s, q)[i + 1..]);
              && Coupled(s', nodes, lists.items[q := But(lists.items[q], i)], lists.Selfs() + {lists.items[q][i]})
              && Records(Fields(), s') && Known(s', nodes.run.Keys)
    {
      Before();
      ListDistinct(q);
      QueueDistinct(s, nodes, lists.items, lists.Selfs(), q);
      hide Coupled, Known, Records, Lists.Valid, Lists.Selfs, Delisted, QueueOf, But;
      t := QueueOf(s, q)[i];
      var rest := QueueOf(s, q)[..i] + QueueOf(s, q)[i + 1..];
      DelistCoupled(s, nodes, lists.items, lists.Selfs(), lists.nodes, q, i);
      DelistReal(s, q, t, rest);
      LinkRecorded(Fields(), s, Delisted(s, q, t, rest), nodes.run.Keys);
    }

    /** is_list_empty. */
    method IsEmpty(q: QueueId) returns (empty: bool)
      requires Valid() && q in lists.heads
      ensures empty <==> QueueOf(s, q) == []
    {
      NamesQueue(q);
      hide *;
      empty := lists.Empty(q);
    }

    /** first_item and CONTAINER_OF. */
    method First(q: QueueId) returns (t: Tid)
      requires Valid() && q in lists.heads && QueueOf(s, q) != []
      ensures t == QueueOf(s, q)[0] && t in nodes.run
    {
      NamesQueue(q);
      hide *;
      var x := lists.First(q);
      t := x.owner;
    }

    lemma NamesQueue(q: QueueId)
      requires Valid() && q in lists.heads
      ensures lists.Valid() && q in lists.items && |lists.items[q]| == |QueueOf(s, q)|
      ensures QueueOf(s, q) != [] ==> lists.items[q][0].owner == QueueOf(s, q)[0] && QueueOf(s, q)[0] in nodes.run
    {
      HeadsAreLists(lists);
      assert Named(lists.items[q], QueueOf(s, q), nodes.For(q));
    }

    /** is_list_empty of a thread's runnable_tcbs node: it is linked to itself. */
    method RunsAlone(t: Tid) returns (alone: bool)
      requires Valid() && t in nodes.run
      ensures alone <==> s.T(t).runLink == Alone
    {
      AloneIff(t);
      hide *;
      alone := nodes.run[t].next == nodes.run[t];
    }

    lemma AloneIff(t: Tid)
      requires Valid() && t in nodes.run
      ensures nodes.run[t].next == nodes.run[t] <==> s.T(t).runLink == Alone
    {
      lists.SelfIff(nodes.run[t]);
    }

    // ----- tcb.c -----

    method ScheduleTcb(t: Tid)
      requires Valid() && t in nodes.run && s.T(t).runLink != Queued
      modifies this, lists, lists.pool
      ensures Valid() && s == Spec.ScheduleTcb(old(s), t)
    {
      hide *;
      Knows();
      ScheduleTcbIs(s, t);
      Check(Get(t).state != Dead);
      Knows();
      RecordIs(s.T(t), s.T(t).(state := Runnable));
      Put(t, Get(t).(state := Runnable));
      AddFirst(Ready, t);
    }

    method SwitchTcb(t: Tid)
      requires Valid() && t in nodes.run
      modifies this`tcbs, this`returnTo, this`s
      ensures Valid() && s == Spec.SwitchTcb(old(s), t)
    {
      hide Valid;
      Knows();
      Put(t, Get(t).(state := Runnable));
      SetReturn(Some(t));
    }

    /** pick_next_tcb: the thread that became ready last leaves the run queue. */
    method PickNextTcb() returns (next: Option<Tid>)
      requires Valid()
      modifies this`s, lists, lists.pool
      ensures Valid() && (next.None? <==> old(s).runq == [])
      ensures next.None? ==> s == old(s)
      ensures next.Some? ==>
                next.value == old(s).runq[0] && next.value in nodes.run && s == Delisted(old(s), Ready, next.value, old(s).runq[1..])
    {
      hide Valid;
      Knows();
      var empty := IsEmpty(Ready);
      if empty {
        return None;
      }
      var t := TakeFirst(Ready);
      return Some(t);
    }

    method Schedule()
      requires Valid()
      modifies this, lists, lists.pool
      ensures Valid() && s == Spec.Schedule(old(s))
    {
      hide Valid;
      var next := PickNextTcb();
      if next.None? && Current().Some? && Get(Current().value).state == Running {
        return;
      }
      if next.None? {
        SetReturn(None);
      } else {
        SwitchTcb(next.value);
      }
    }

    method KillTcb(t: Tid)
      requires Valid() && t in nodes.run
      modifies this`tcbs, this`panicked, this`s
      ensures Valid() && s == Spec.KillTcb(old(s), t)
    {
      hide Valid;
      Knows();
      Put(t, Get(t).(state := Dead));
      var alone := RunsAlone(t);
      Check(alone);
      Check(Get(t).state == Dead);
    }

    method SaveTcbState(t: Tid)
      requires Valid()
      modifies this`tcbs, this`s
      ensures Valid() && s == old(s).WithT(t, old(s).T(t).(saved := old(s).T(t).live))
    {
      hide Valid;
      Knows();
      Put(t, Get(t).(saved := Get(t).live));
    }

    /** The first part of switch_tcb_actual: the current thread is saved and, if it still runs, made ready. */
    method Part()
      requires Valid()
      requires s.current.Some? && s.T(s.current.value).state == Running ==> s.T(s.current.value).runLink != Queued
      modifies this, lists, lists.pool
      ensures Valid() && s == Parting(old(s))
    {
      hide Valid, Spec.ScheduleTcb;
      Knows();
      if Current().Some? && Get(Current().value).state != Dead {
        SaveTcbState(Current().value);
      }
      if Current().Some? && Get(Current().value).state == Running {
        ScheduleTcb(Current().value);
      }
    }

    method SwitchTcbActual(t: Tid)
      requires Valid() && t in nodes.run
      requires s.current.Some? && s.T(s.current.value).state == Running ==> s.T(s.current.value).runLink != Queued
      modifies this, lists, lists.pool
      ensures Valid() && s == Spec.SwitchTcbActual(old(s), t)
    {
      hide Valid, Parting;
      SwitchIs(s, t);
      Check(Current() != Some(t));
      Part();
      Check(Get(t).state == Runnable);
      SetCurrent(Some(t));
      Knows();
      Put(t, Get(t).(state := Running));
    }

    method ReturnFromKernelCode()
      requires Valid()
      requires s.current.Some? && s.T(s.current.value).state == Running ==> s.T(s.current.value).runLink != Queued
      requires s.returnTo.None? && s.current.None? ==> s.returnTo == s.current
      modifies this, lists, lists.pool
      ensures Valid() && s == Spec.ReturnFromKernel(old(s))
    {
      hide Valid, Spec.SwitchTcbActual;
      Knows();
      if ReturnTo() == Current() {
        return;
      } else if ReturnTo().Some? {
        SwitchTcbActual(ReturnTo().value);
      } else {
        if Current().Some? && Get(Current().value).state != Dead {
          SaveTcbState(Current().value);
        }
        SetCurrent(None);
      }
    }

    method TcbBindNotification(t: Tid, n: Nid) returns (tag: Tag)
      requires Valid() && t in nodes.run
      modifies this`tcbs, this`ntfns, this`s
      ensures Valid() && s == Spec.BindNotification(old(s), t, n)
      ensures tag == if old(s).N(n).bound.Some? then ILLEGAL_OPERATION_TAG else OK_TAG
    {
      hide Valid;
      Knows();
      if GetN(n).bound.Some? {
        return ILLEGAL_OPERATION_TAG;
      }
      Put(t, Get(t).(bound := Some(n)));
      PutN(n, GetN(n).(bound := Some(t)));
      return OK_TAG;
    }

    // ----- ipc.h -----

    method SetIpcResult(t: Tid, tag: Tag)
      requires Valid()
      modifies this`tcbs, this`s
      ensures Valid() && s == Spec.SetResult(old(s), t, tag)
    {
      hide Valid;
      Knows();
      if Current() == Some(t) {
        Put(t, Get(t).(live := Get(t).live.(result := tag)));
      } else {
        Put(t, Get(t).(saved := Get(t).saved.(result := tag)));
      }
    }

    // ----- endpoint.c -----

    method TransferMessage(sender: Tid, receiver: Tid, badge: Word, tag: Tag, capsOk: bool) returns (sent: Tag)
      requires Valid() && sender in nodes.run
      modifies this`tcbs, this`s
      ensures Valid() && s == Spec.TransferMessage(old(s), sender, receiver, badge, tag, capsOk)
      ensures sent == DeliveredTag(tag, capsOk)
    {
      hide Valid, CopyWords;
      Knows();
      var r := Get(receiver);
      r := r.(buf := r.buf.(msg := CopyWords(Get(sender).buf.msg, r.buf.msg, tag.length)));
      r := r.(buf := r.buf.(senderBadge := badge));
      sent := tag;
      if tag.extraCaps != 0 && !capsOk {
        sent := tag.(extraCaps := 0);
      }
      if Get(sender).expectsReply {
        r := r.(replyTo := Some(sender));
      }
      Put(receiver, r);
      SetIpcResult(receiver, sent);
    }

    /** pop_from_list on an endpoint. */
    method PopFromEndpoint(e: Eid) returns (t: Tid)
      requires Valid() && Endpoint(e) in lists.heads && s.E(e) != []
      modifies this`s, lists, lists.pool
      ensures Valid() && t == old(s).E(e)[0] && t in nodes.run && s == Spec.PopEndpoint(old(s), e)
    {
      hide Valid;
      t := TakeFirst(Endpoint(e));
    }

    /** append_to_list on an endpoint, and the new state. */
    method AppendToEndpoint(me: Tid, e: Eid, state: TaskState)
      requires Valid() && me in nodes.run && Endpoint(e) in lists.heads && s.T(me).sendLink == Off
      modifies this, lists, lists.pool
      ensures Valid() && s == Spec.QueueOnEndpoint(old(s), me, e, state)
    {
      hide Valid;
      QueueIs(s, me, e, state);
      AddFirst(Endpoint(e), me);
      Knows();
      Put(me, Get(me).(state := state));
    }

    /** recv_will_block and send_will_block. */
    method WillBlock(e: Eid, sending: bool) returns (block: bool)
      requires Valid() && Endpoint(e) in lists.heads
      ensures block == if sending then SendWillBlock(s, e) else RecvWillBlock(s, e)
    {
      hide Valid;
      block := IsEmpty(Endpoint(e));
      if !block {
        var t := First(Endpoint(e));
        block := if sending then Get(t).state == Sending || Get(t).state == Calling else Get(t).state == Receiving;
      }
    }

    method EndpointSend(me: Tid, e: Eid, badge: Word, isCall: bool, capsOk: bool)
      requires Valid() && me in nodes.run && Endpoint(e) in lists.heads && s.T(me).sendLink == Off
      modifies this, lists, lists.pool
      ensures Valid() && s == Spec.EndpointSend(old(s), me, e, badge, isCall, capsOk)
    {
      hide Valid, Spec.Schedule, Spec.TransferMessage, Spec.QueueOnEndpoint, Spec.PopEndpoint, SendWillBlock;
      var block := WillBlock(e, true);
      if block {
        AppendToEndpoint(me, e, if isCall then Calling else Sending);
        Knows();
        Put(me, Get(me).(endpointBadge := badge));
        Schedule();
      } else {
        var tag := Get(me).live.outgoing;
        NotEmpty(s, e);
        var r := PopFromEndpoint(e);
        var _ := TransferMessage(me, r, badge, tag, capsOk);
        if isCall {
          Owe(r, Some(me));
        }
        SwitchTcb(r);
      }
    }

    method InvokeEndpointSend(me: Tid, e: Eid, badge: Word, capsOk: bool)
      requires Valid() && me in nodes.run && Endpoint(e) in lists.heads && s.T(me).sendLink == Off
      modifies this, lists, lists.pool
      ensures Valid() && s == Spec.Send(old(s), me, e, badge, capsOk)
    {
      hide Valid, Spec.EndpointSend;
      Knows();
      Put(me, Get(me).(expectsReply := false));
      EndpointSend(me, e, badge, false, capsOk);
    }

    method InvokeEndpointCall(me: Tid, e: Eid, badge: Word, capsOk: bool)
      requires Valid() && me in nodes.run && Endpoint(e) in lists.heads && s.T(me).sendLink == Off
      modifies this, lists, lists.pool
      ensures Valid() && s == Spec.Call(old(s), me, e, badge, capsOk)
    {
      hide Valid, Spec.EndpointSend;
      Knows();
      Put(me, Get(me).(expectsReply := true, state := Calling));
      EndpointSend(me, e, badge, true, capsOk);
    }

    /** The first part of receive_message_from_blocked_sender: a sender is unlinked and its message copied. */
    method CopyFromBlockedSender(me: Tid, e: Eid, capsOk: bool) returns (x: Tid)
      requires Valid() && me in nodes.run && Endpoint(e) in lists.heads && s.E(e) != []
      modifies this, lists, lists.pool
      ensures Valid() && x == old(s).E(e)[0] && x in nodes.run && s == CopiedFrom(old(s), me, e, capsOk)
      ensures s.T(x).runLink == old(s).T(x).runLink
    {
      hide Valid, Spec.TransferMessage, Spec.PopEndpoint;
      PopLinks(s, e);
      x := PopFromEndpoint(e);
      var tag := if Current() == Some(x) then Get(x).live.outgoing else Get(x).saved.outgoing;
      assert tag == Pending(s, x);
      TransferLinks(s, x, me, Get(x).endpointBadge, tag, capsOk);
      var _ := TransferMessage(x, me, Get(x).endpointBadge, tag, capsOk);
    }

    /** receive_message_from_blocked_sender. */
    method ReceiveMessageFromBlockedSender(me: Tid, e: Eid, capsOk: bool)
      requires Valid() && me in nodes.run && Endpoint(e) in lists.heads && s.E(e) != [] && s.T(s.E(e)[0]).runLink != Queued
      modifies this, lists, lists.pool
      ensures Valid() && s == Spec.ReceiveFromBlocked(old(s), me, e, capsOk)
    {
      hide Valid, CopiedFrom, Spec.ScheduleTcb;
      ReceiveIs(s, me, e, capsOk);
      var x := CopyFromBlockedSender(me, e, capsOk);
      if Get(x).expectsReply {
        Put(me, Get(me).(replyTo := Some(x)));
        Owe(me, Some(x));
      } else {
        ScheduleTcb(x);
      }
    }

    /** handle_recv_with_pending_notification and the result msg_ok that follows it. */
    method HandleRecvWithPendingNotification(me: Tid) returns (handled: bool)
      requires Valid()
      modifies this`tcbs, this`ntfns, this`s
      ensures Valid() && handled == PendingNotification(old(s), me)
      ensures s == if handled then Spec.TakeNotification(old(s), me) else old(s)
    {
      hide Valid;
      Knows();
      if Get(me).bound.Some? && GetN(Get(me).bound.value).word != 0 {
        var n := Get(me).bound.value;
        Put(me, Get(me).(buf := Get(me).buf.(senderBadge := GetN(n).word)));
        PutN(n, GetN(n).(word := 0));
        SetIpcResult(me, OK_TAG);
        return true;
      }
      return false;
    }

    method InvokeEndpointRecv(me: Tid, e: Eid, capsOk: bool)
      requires Valid() && me in nodes.run && Endpoint(e) in lists.heads && s.T(me).sendLink == Off
      requires !RecvWillBlock(s, e) ==> s.T(s.E(e)[0]).runLink != Queued
      modifies this, lists, lists.pool
      ensures Valid() && s == Spec.Recv(old(s), me, e, capsOk)
    {
      hide Valid, Spec.Schedule, Spec.ReceiveFromBlocked, Spec.TakeNotification, Spec.QueueOnEndpoint, PendingNotification;
      var handled := HandleRecvWithPendingNotification(me);
      if handled {
        return;
      }
      var block := WillBlock(e, false);
      if block {
        AppendToEndpoint(me, e, Receiving);
        Schedule();
      } else {
        ReceiveMessageFromBlockedSender(me, e, capsOk);
      }
    }

    method InvokeEndpointNbRecv(me: Tid, e: Eid, capsOk: bool)
      requires Valid() && me in nodes.run && Endpoint(e) in lists.heads
      requires !RecvWillBlock(s, e) ==> s.T(s.E(e)[0]).runLink != Queued
      modifies this, lists, lists.pool
      ensures Valid() && s == Spec.NbRecv(old(s), me, e, capsOk)
    {
      hide Valid, Spec.SetResult, Spec.ReceiveFromBlocked, Spec.TakeNotification, PendingNotification;
      var handled := HandleRecvWithPendingNotification(me);
      if handled {
        return;
      }
      var block := WillBlock(e, false);
      if block {
        SetIpcResult(me, OK_TAG);
      } else {
        ReceiveMessageFromBlockedSender(me, e, capsOk);
      }
    }

    method InvokeReply(me: Tid, capsOk: bool)
      requires Valid() && me in nodes.run
      requires var target := s.T(me).replyTo; target.Some? && s.T(target.value).state == Calling ==> s.T(target.value).runLink != Queued
      modifies this, lists, lists.pool
      ensures Valid() && s == Spec.Reply(old(s), me, capsOk)
    {
      hide Valid, Spec.TransferMessage, Spec.ScheduleTcb;
      Knows();
      var receiver := Get(me).replyTo;
      if receiver.None? || Get(receiver.value).state != Calling {
        Check(false);
        return;
      }
      var tag := Get(me).live.outgoing;
      TransferLinks(s, me, receiver.value, 0, tag, capsOk);
      var _ := TransferMessage(me, receiver.value, 0, tag, capsOk);
      Owe(me, None);
      ScheduleTcb(receiver.value);
    }

    method InvokeReplyRecv(me: Tid, e: Eid, capsOk: bool, capsOk': bool)
      requires Valid() && me in nodes.run && Endpoint(e) in lists.heads && Inv(s) && s.current == Some(me)
      requires s.T(me).replyTo.Some? && Awaiting(s, s.T(me).replyTo.value)
      modifies this, lists, lists.pool
      ensures Valid() && s == Spec.ReplyRecv(old(s), me, e, capsOk, capsOk')
    {
      hide Valid, Inv, Awaiting, Spec.Reply, Spec.Recv, RecvWillBlock;
      WaitingNotReady(s, s.T(me).replyTo.value);
      ReplyKeeps(s, me, capsOk);
      InvokeReply(me, capsOk);
      SenderNotReady(s, e);
      Shapes(s, me);
      InvokeEndpointRecv(me, e, capsOk');
    }

    // ----- notification.c -----

    method SignalWaitingReceiver(r: Tid, badge: Word)
      requires Valid() && r in nodes.run
      modifies this`tcbs, this`returnTo, this`s
      ensures Valid() && s == Spec.WakeReceiver(old(s), r, badge)
    {
      hide Valid, Spec.SetResult, Spec.SwitchTcb;
      SetIpcResult(r, OK_TAG);
      Knows();
      Put(r, Get(r).(buf := Get(r).buf.(senderBadge := badge)));
      SwitchTcb(r);
    }

    /** A receiver is unlinked and woken with the word, which is cleared. */
    method HandOver(n: Nid, r: Tid, word: Word)
      requires Valid() && r in nodes.run && s.T(r).sendLink != Off
      modifies this, lists, lists.pool
      ensures Valid()
      ensures s == Spec.WakeReceiver(Spec.Unlink(old(s).WithN(n, old(s).N(n).(word := 0)), r), r, word)
    {
      hide Valid, Spec.Unlink, Spec.WakeReceiver;
      Knows();
      PutN(n, GetN(n).(word := 0));
      RemoveNode(r);
      SignalWaitingReceiver(r, word);
    }

    method NotificationSignal(n: Nid, badge: Word)
      requires Valid() && Notification(n) in lists.heads
      requires ReceiverOk(s, n)
      modifies this, lists, lists.pool
      ensures Valid() && s == Spec.Signal(old(s), n, badge)
    {
      hide Valid, Spec.Unlink, Spec.WakeReceiver, Or, Spec.Signal;
      Knows();
      SignalIs(s, n, badge);
      var word := Or(GetN(n).word, badge);
      PutN(n, GetN(n).(word := word));
      var empty := IsEmpty(Notification(n));
      Knows();
      if empty && GetN(n).bound.Some? && Get(GetN(n).bound.value).state == Receiving {
        HandOver(n, GetN(n).bound.value, word);
        return;
      }
      if empty {
        return;
      }
      var r := First(Notification(n));
      QueuedIsLinked(n);
      HandOver(n, r, word);
    }

    lemma QueuedIsLinked(n: Nid)
      requires Valid() && Notification(n) in lists.heads && s.N(n).queue != []
      ensures s.T(s.N(n).queue[0]).sendLink != Off
    {
      HeadsAreLists(lists);
      var t := s.N(n).queue[0];
      Knows();
      assert t in QueueOf(s, Notification(n));
      assert Linked(s, Notification(n), t);
    }

    /** A thread that waits on a notification bound to another one is killed, and goes on. */
    method KillIfForeign(me: Tid, n: Nid)
      requires Valid() && me in nodes.run
      modifies this, lists, lists.pool
      ensures Valid() && s.T(me).sendLink == old(s).T(me).sendLink
      ensures s == if old(s).N(n).bound.Some? && old(s).N(n).bound != Some(me) then Spec.Schedule(Spec.KillTcb(old(s), me)) else old(s)
    {
      hide Valid, Spec.Schedule, Spec.KillTcb;
      KillLinks(s, me);
      if GetN(n).bound.Some? && GetN(n).bound != Some(me) {
        KillTcb(me);
        Schedule();
      }
    }

    method InvokeNotificationRecv(me: Tid, n: Nid)
      requires Valid() && me in nodes.run && Notification(n) in lists.heads && s.T(me).sendLink == Off
      modifies this, lists, lists.pool
      ensures Valid() && s == Spec.Wait(old(s), me, n)
    {
      hide Valid, Spec.Schedule, Spec.KillTcb, Spec.SetResult, Enlisted;
      KillIfForeign(me, n);
      if GetN(n).word == 0 {
        WaitIs(s, me, n);
        AddFirst(Notification(n), me);
        Knows();
        Put(me, Get(me).(state := Receiving));
        Schedule();
      } else {
        Knows();
        PutN(n, GetN(n).(word := 0));
        SetIpcResult(me, OK_TAG);
      }
    }

    // ----- syscall.c and the entry code -----

    /** The objects a system call names exist. */
    ghost predicate InUse(act: Action)
    {
      match act
      case Exit => true
      case Yield => true
      case DoSend(e, _) => Endpoint(e) in lists.heads
      case DoCall(e, _) => Endpoint(e) in lists.heads
      case DoRecv(e) => Endpoint(e) in lists.heads
      case DoNbRecv(e) => Endpoint(e) in lists.heads
      case DoReply => true
      case DoReplyRecv(e) => Endpoint(e) in lists.heads
      case DoSignal(n, _) => Notification(n) in lists.heads
      case DoWait(n) => Notification(n) in lists.heads
      case Resume(t) => t in nodes.run
      case Bind(t, n) => t in nodes.run && Notification(n) in lists.heads
      case Irq(n, _) => Notification(n) in lists.heads
    }

    /** The methods of a thread's capability. */
    method DispatchMethod(me: Tid, st: Step)
      requires Valid() && InUse(st.act) && (st.act.Resume? || st.act.Bind?)
      requires st.act.Resume? ==> s.T(st.act.t).runLink != Queued
      modifies this, lists, lists.pool
      ensures Valid() && s == Spec.Act(old(s), me, st)
    {
      hide Valid, Spec.ScheduleTcb, Spec.BindNotification, Spec.SetResult;
      match st.act {
        case Resume(t) =>
          ScheduleTcb(t);
          SetIpcResult(me, OK_TAG);
        case Bind(t, n) =>
          var tag := TcbBindNotification(t, n);
          SetIpcResult(me, tag);
      }
    }

    /** The system calls that go through a capability. */
    method OpEndpoint(me: Tid, st: Step)
      requires Valid() && InUse(st.act) && Inv(s) && s.current == Some(me) && Sound(s, me, st.act)
      requires st.act.DoSend? || st.act.DoCall? || st.act.DoRecv? || st.act.DoNbRecv? || st.act.DoReplyRecv?
      modifies this, lists, lists.pool
      ensures Valid() && s == Spec.Act(old(s), me, st)
    {
      hide Valid, Inv, Spec.Send, Spec.Call, Spec.Recv, Spec.NbRecv, Spec.ReplyRecv, Spec.SetResult, Awaiting, RecvWillBlock;
      Knows();
      NodesAre(s, me);
      match st.act {
        case DoSend(e, badge) => InvokeEndpointSend(me, e, badge, st.capsOk);
        case DoCall(e, badge) => InvokeEndpointCall(me, e, badge, st.capsOk);
        case DoRecv(e) => InvokeEndpointRecv(me, e, st.capsOk);
        case DoNbRecv(e) => InvokeEndpointNbRecv(me, e, st.capsOk);
        case DoReplyRecv(e) => InvokeReplyRecv(me, e, st.capsOk, st.capsOk');
      }
    }

    method OpOther(me: Tid, st: Step)
      requires Valid() && InUse(st.act) && Inv(s) && s.current == Some(me) && Sound(s, me, st.act)
      requires st.act.DoSignal? || st.act.DoWait? || st.act.Resume? || st.act.Bind?
      modifies this, lists, lists.pool
      ensures Valid() && s == Spec.Act(old(s), me, st)
    {
      hide Valid, Inv, Spec.Signal, Spec.Wait, Spec.ScheduleTcb, Spec.BindNotification, Spec.SetResult, Awaiting, RecvWillBlock, ReceiverOk;
      Knows();
      NodesAre(s, me);
      match st.act {
        case DoSignal(n, badge) => NotificationSignal(n, badge);
        case DoWait(n) => InvokeNotificationRecv(me, n);
        case Resume(t) => DispatchMethod(me, st);
        case Bind(t, n) => DispatchMethod(me, st);
      }
    }

    method OpSyscall(me: Tid, st: Step)
      requires Valid() && InUse(st.act) && Inv(s) && s.current == Some(me) && Sound(s, me, st.act) && !st.act.Irq?
      modifies this, lists, lists.pool
      ensures Valid() && s == Spec.Act(old(s), me, st)
    {
      hide Valid, Inv, Spec.Schedule, Spec.KillTcb, Spec.Reply, Spec.SetResult, Awaiting, RecvWillBlock, ReceiverOk;
      Knows();
      NodesAre(s, me);
      if st.act.Exit? {
        KillTcb(me);
        Schedule();
      } else if st.act.Yield? {
        Schedule();
      } else if st.act.DoReply? {
        var tag := Get(me).live.outgoing;
        InvokeReply(me, st.capsOk);
        SetIpcResult(me, tag);
      } else {
        hide Spec.Act;
        if st.act.DoSignal? || st.act.DoWait? || st.act.Resume? || st.act.Bind? {
          OpOther(me, st);
        } else {
          OpEndpoint(me, st);
        }
      }
    }

    /** One kernel entry: save the user frame, serve the system call or interrupt, return.  The pointer code
        takes the step of the state machine, whose invariant holds again, and all lists are whole. */
    method KernelEntry(st: Step)
      requires Valid() && InUse(st.act) && Inv(s) && SoundStep(s, st)
      modifies this, lists, lists.pool
      ensures Valid() && s == Spec.Next(old(s), st) && Inv(s)
    {
      hide Valid, Inv, Spec.Act, Spec.Signal, Spec.ReturnFromKernel, Sound;
      NextKeeps(s, st);
      EnterKeeps(s, st);
      EnterSound(s, st);
      if Current().Some? {
        var t := Current().value;
        Knows();
        Put(t, Get(t).(live := st.user, buf := Get(t).buf.(msg := st.msg)));
      }
      assert s == Spec.Enter(old(s), st);
      if st.act.Irq? {
        ReceiverLinked(s, st.act.n);
        SignalKeeps(s, st.act.n, st.act.badge);
        NotificationSignal(st.act.n, st.act.badge);
        ReturnsWell(s);
        ReturnFromKernelCode();
      } else if Current().Some? {
        ActKeeps(s, Current().value, st);
        OpSyscall(Current().value, st);
        ReturnsWell(s);
        ReturnFromKernelCode();
      }
    }

    /** The first thread runs. */
    method BootThread(t: Tid)
      requires Valid() && s == Blank() && t in nodes.run
      modifies this, lists, lists.pool
      ensures Valid() && s == Boot(t) && Inv(s)
    {
      hide Valid, Inv, Spec.ScheduleTcb, Spec.Schedule, Spec.ReturnFromKernel;
      BootInv(t);
      ScheduleTcb(t);
      Schedule();
      ReturnFromKernelCode();
    }
  }

  // ----- What the invariant says about the nodes the routines link -----

  lemma Shapes(s: State, me: Tid)
    requires Inv(s) && s.current == Some(me)
    ensures s.T(me).sendLink == Off && s.T(me).runLink == Alone
  {
    assert Shape(s.T(me), true, false);
  }

  lemma SenderNotReady(s: State, e: Eid)
    requires Inv(s)
    ensures !RecvWillBlock(s, e) ==> s.T(s.E(e)[0]).runLink != Queued
  {
    if s.E(e) != [] {
      FirstIsBlocked(s, e);
    }
  }

  lemma WaitingNotReady(s: State, c: Tid)
    requires Inv(s) && Awaiting(s, c)
    ensures s.T(c).runLink != Queued
  {
    assert Shape(s.T(c), s.current == Some(c), s.returnTo == Some(c) && s.current != Some(c));
  }

  lemma ReceiverLinked(s: State, n: Nid)
    requires Inv(s)
    ensures ReceiverOk(s, n)
  {
    var x := s.N(n);
    if x.bound.Some? {
      var r := x.bound.value;
      assert Shape(s.T(r), s.current == Some(r), s.returnTo == Some(r) && s.current != Some(r));
    }
  }

  /** What the nodes of the current thread, of first senders, of callers and of bound receivers are. */
  lemma NodesAre(s: State, me: Tid)
    requires Inv(s) && s.current == Some(me)
    ensures s.T(me).sendLink == Off && s.T(me).runLink == Alone
    ensures forall e: Eid :: !RecvWillBlock(s, e) ==> s.T(s.E(e)[0]).runLink != Queued
    ensures forall c: Tid :: Awaiting(s, c) ==> s.T(c).runLink != Queued
    ensures forall n: Nid :: ReceiverOk(s, n)
  {
    hide Inv, Awaiting;
    Shapes(s, me);
    forall e: Eid
      ensures !RecvWillBlock(s, e) ==> s.T(s.E(e)[0]).runLink != Queued
    {
      SenderNotReady(s, e);
    }
    forall c: Tid | Awaiting(s, c)
      ensures s.T(c).runLink != Queued
    {
      WaitingNotReady(s, c);
    }
    forall n: Nid
      ensures ReceiverOk(s, n)
    {
      ReceiverLinked(s, n);
    }
  }

  /** A bound thread that receives is in some queue. */
  predicate ReceiverOk(s: State, n: Nid)
  {
    var x := s.N(n);
    x.bound.Some? && s.T(x.bound.value).state == Receiving ==> s.T(x.bound.value).sendLink != Off
  }

  lemma EnterSound(s: State, st: Step)
    requires Inv(s) && SoundStep(s, st)
    ensures SoundStep(Spec.Enter(s, st), st) && Spec.Enter(s, st).current == s.current
  {
  }

  /** A routine that has decided leaves the kernel without linking a linked node. */
  lemma ReturnsWell(s: State)
    requires Decided(s)
    ensures s.current.Some? && s.T(s.current.value).state == Running ==> s.T(s.current.value).runLink != Queued
    ensures s.returnTo.None? && s.current.None? ==> s.returnTo == s.current
  {
    if s.current.Some? {
      assert Shape(s.T(s.current.value), true, false);
    }
  }

  lemma KillLinks(s: State, me: Tid)
    ensures Spec.Schedule(Spec.KillTcb(s, me)).T(me).sendLink == s.T(me).sendLink
  {
  }

  lemma WaitIs(s: State, me: Tid, n: Nid)
    ensures var q := Enlisted(s, Notification(n), me);
            q.WithT(me, q.T(me).(state := Receiving)) ==
            s.WithN(n, s.N(n).(queue := [me] + s.N(n).queue)).WithT(me, s.T(me).(sendLink := OnNotification(n), state := Receiving))
  {
    var q := Enlisted(s, Notification(n), me);
    assert q.WithT(me, q.T(me).(state := Receiving)).tcbs == s.tcbs[me := s.T(me).(sendLink := OnNotification(n), state := Receiving)];
  }

  /** notification_signal writes the word before it clears it. */
  lemma SignalIs(s: State, n: Nid, badge: Word)
    ensures var word := Or(s.N(n).word, badge);
            var w := s.WithN(n, s.N(n).(word := word));
            w.WithN(n, w.N(n).(word := 0)) == s.WithN(n, s.N(n).(word := 0)) && w.N(n).queue == s.N(n).queue && w.N(n).bound == s.N(n).bound
            && forall t: Tid :: w.T(t) == s.T(t)
    ensures var x, word, s0 := s.N(n), Or(s.N(n).word, badge), s.WithN(n, s.N(n).(word := 0));
            Spec.Signal(s, n, badge) ==
              if x.queue == [] && x.bound.Some? && s.T(x.bound.value).state == Receiving then
                Spec.WakeReceiver(Spec.Unlink(s0, x.bound.value), x.bound.value, word)
              else if x.queue == [] then s.WithN(n, x.(word := word))
              else Spec.WakeReceiver(Spec.Unlink(s0, x.queue[0]), x.queue[0], word)
  {
    hide Or, Spec.Unlink, Spec.WakeReceiver;
    var w := s.WithN(n, s.N(n).(word := Or(s.N(n).word, badge)));
    assert w.WithN(n, w.N(n).(word := 0)).ntfns == s.ntfns[n := s.N(n).(word := 0)];
  }

  /** receive_message_from_blocked_sender after the message has been copied. */
  function CopiedFrom(s: State, me: Tid, e: Eid, capsOk: bool): State
    requires s.E(e) != []
  {
    var x := s.E(e)[0];
    var p := Spec.PopEndpoint(s, e);
    Spec.TransferMessage(p, x, me, p.T(x).endpointBadge, Pending(p, x), capsOk)
  }

  lemma ReceiveIs(s: State, me: Tid, e: Eid, capsOk: bool)
    requires s.E(e) != []
    ensures var x, c := s.E(e)[0], CopiedFrom(s, me, e, capsOk);
            Spec.ReceiveFromBlocked(s, me, e, capsOk) ==
            if c.T(x).expectsReply then c.WithT(me, c.T(me).(replyTo := Some(x))).WithT(me, c.T(me).(replyTo := Some(x), owes := Some(x)))
            else Spec.ScheduleTcb(c, x)
  {
    hide Spec.TransferMessage, Spec.ScheduleTcb, Pending;
    var x, c := s.E(e)[0], CopiedFrom(s, me, e, capsOk);
    var d := c.T(me).(replyTo := Some(x));
    assert c.WithT(me, d).WithT(me, d.(owes := Some(x))).tcbs == c.tcbs[me := d.(owes := Some(x))];
  }

  lemma QueueIs(s: State, me: Tid, e: Eid, state: TaskState)
    ensures var q := Enlisted(s, Endpoint(e), me);
            Spec.QueueOnEndpoint(s, me, e, state) == q.WithT(me, q.T(me).(state := state))
  {
    var q := Enlisted(s, Endpoint(e), me);
    assert q.WithT(me, q.T(me).(state := state)).tcbs == Spec.QueueOnEndpoint(s, me, e, state).tcbs;
  }

  lemma NotEmpty(s: State, e: Eid)
    requires !SendWillBlock(s, e)
    ensures s.E(e) != []
  {
  }

  lemma PopLinks(s: State, e: Eid)
    requires s.E(e) != []
    ensures forall t: Tid :: Spec.PopEndpoint(s, e).T(t).runLink == s.T(t).runLink
  {
  }

  lemma TransferLinks(s: State, sender: Tid, receiver: Tid, badge: Word, tag: Tag, capsOk: bool)
    ensures forall t: Tid :: Spec.TransferMessage(s, sender, receiver, badge, tag, capsOk).T(t).runLink == s.T(t).runLink
  {
    hide CopyWords, DeliveredTag;
  }

  lemma OverReal(c: Tcb, r: Record)
    ensures Real(Over(c, r)) == r && Over(c, r).runLink == c.runLink && Over(c, r).sendLink == c.sendLink
  {
  }

  lemma AssertIs(s: State, b: bool)
    ensures s.Assert(b) == if b then s else s.(panicked := true)
  {
  }

  lemma ButFirst(s: seq<Link>)
    requires s != []
    ensures But(s, 0) == s[1..]
  {
  }

  lemma HeadsAreLists(lists: Lists)
    requires lists.Valid()
    ensures lists.items.Keys == lists.heads.Keys
  {
  }
}
