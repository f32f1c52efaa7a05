/** The state of KernelState in memory: records without any queue in them, and nodes that are linked into
    lists (include/kern/obj/tcb.h, include/list.h). */
module KernelMemory {
  import opened Seqs
  import opened Wrappers
  import opened KernelState
  import opened KernelLists
  import opened ListRing

  /** A thread's record; what its two nodes are linked into is not in it. */
  datatype Record = Record(state: TaskState, expectsReply: bool, replyTo: Option<Tid>, endpointBadge: Word, bound: Option<Nid>,
                           saved: Frame, live: Frame, buf: Buffer)

  datatype Signals = Signals(word: Word, bound: Option<Tid>)

  function Real(c: Tcb): Record
  {
    Record(c.state, c.expectsReply, c.replyTo, c.endpointBadge, c.bound, c.saved, c.live, c.buf)
  }

  function Over(c: Tcb, r: Record): Tcb
  {
    c.(state := r.state, expectsReply := r.expectsReply, replyTo := r.replyTo, endpointBadge := r.endpointBadge, bound := r.bound,
       saved := r.saved, live := r.live, buf := r.buf)
  }

  function RealN(x: Ntfn): Signals { Signals(x.word, x.bound) }
  function OverN(x: Ntfn, r: Signals): Ntfn { x.(word := r.word, bound := r.bound) }

  // ----- Queues and nodes -----

  function QueueOf(s: State, q: QueueId): seq<Tid>
  {
    match q
    case Ready => s.runq
    case Endpoint(e) => s.E(e)
    case Notification(n) => s.N(n).queue
  }

  /** The link of a thread that is in a send/receive queue. */
  function LinkTo(q: QueueId): SendLink
  {
    match q
    case Ready => Off
    case Endpoint(e) => OnEndpoint(e)
    case Notification(n) => OnNotification(n)
  }

  /** The list a send/receive node is in; the run queue stands for none. */
  function Home(l: SendLink): QueueId
  {
    match l
    case Off => Ready
    case OnEndpoint(e) => Endpoint(e)
    case OnNotification(n) => Notification(n)
  }

  /** A thread put first in a queue it is not in. */
  function Enlisted(s: State, q: QueueId, t: Tid): State
  {
    match q
    case Ready => s.WithT(t, s.T(t).(runLink := Queued)).(runq := [t] + s.runq)
    case Endpoint(e) => s.WithE(e, [t] + s.E(e)).WithT(t, s.T(t).(sendLink := OnEndpoint(e)))
    case Notification(n) => s.WithN(n, s.N(n).(queue := [t] + s.N(n).queue)).WithT(t, s.T(t).(sendLink := OnNotification(n)))
  }

  /** A thread taken out of a queue, which becomes `rest`. */
  function Delisted(s: State, q: QueueId, t: Tid, rest: seq<Tid>): State
  {
    match q
    case Ready => s.WithT(t, s.T(t).(runLink := Alone)).(runq := rest)
    case Endpoint(e) => s.WithE(e, rest).WithT(t, s.T(t).(sendLink := Off))
    case Notification(n) => s.WithN(n, s.N(n).(queue := rest)).WithT(t, s.T(t).(sendLink := Off))
  }

  /** The nodes of every thread: all different, each leading back to its thread. */
  datatype Nodes = Nodes(run: map<Tid, Link>, send: map<Tid, Link>)
  {
    ghost predicate Ok(nodes: set<Link>)
    {
      && run.Keys == send.Keys
      && (forall t :: t in run ==> run[t] in nodes && send[t] in nodes && run[t].owner == t && send[t].owner == t)
      && (forall t, u :: t in run && u in run ==> run[t] != send[u])
    }

    function For(q: QueueId): map<Tid, Link> { if q == Ready then run else send }
  }

  /** The items of a list are the nodes of the threads in a queue. */
  ghost predicate Named(items: seq<Link>, queue: seq<Tid>, node: map<Tid, Link>)
  {
    |items| == |queue| && forall i :: 0 <= i < |queue| ==> queue[i] in node && items[i] == node[queue[i]]
  }

  /** The thread is in the queue exactly if its link says so. */
  ghost predicate Linked(s: State, q: QueueId, t: Tid)
  {
    t in QueueOf(s, q) <==> if q == Ready then s.T(t).runLink == Queued else s.T(t).sendLink == LinkTo(q)
  }

  ghost predicate Coupled(s: State, nodes: Nodes, items: Items, selfs: set<Link>)
  {
    && Ready in items
    && (forall q {:trigger QueueOf(s, q)} :: q in items ==> Named(items[q], QueueOf(s, q), nodes.For(q)))
    && (forall q, t {:trigger Linked(s, q, t)} :: q in items && t in nodes.run ==> Linked(s, q, t))
    && (forall t :: t in nodes.run ==> (s.T(t).runLink == Alone <==> nodes.run[t] in selfs))
    && (forall t :: t in nodes.run ==> Home(s.T(t).sendLink) in items)
  }

  /** A thread's node is in a list exactly if the thread is in the queue. */
  lemma NodeIn(items: seq<Link>, queue: seq<Tid>, node: map<Tid, Link>, t: Tid)
    requires Named(items, queue, node) && t in node && forall u :: u in node ==> node[u].owner == u
    ensures node[t] in items <==> t in queue
  {
    if node[t] in items {
      var i :| 0 <= i < |items| && items[i] == node[t];
      assert queue[i] == t;
    }
    if t in queue {
      var i :| 0 <= i < |queue| && queue[i] == t;
      assert items[i] == node[t];
    }
  }

  /** The node of an unlinked thread is free. */
  lemma UnlinkedIsFree(s: State, nodes: Nodes, items: Items, selfs: set<Link>, pool: set<Link>, q: QueueId, t: Tid)
    requires Coupled(s, nodes, items, selfs) && nodes.Ok(pool) && t in nodes.run
    requires if q == Ready then s.T(t).runLink != Queued else s.T(t).sendLink == Off
    ensures Free(pool, items, nodes.For(q)[t])
  {
    var x := nodes.For(q)[t];
    forall p | p in items
      ensures x !in items[p]
    {
      var queue := QueueOf(s, p);
      assert Named(items[p], queue, nodes.For(p));
      if nodes.For(p) == nodes.For(q) {
        assert Linked(s, p, t);
        NodeIn(items[p], queue, nodes.For(p), t);
      } else {
        forall i | 0 <= i < |items[p]|
          ensures items[p][i] != x
        {
          assert items[p][i] == nodes.For(p)[queue[i]] && queue[i] in nodes.run;
        }
      }
    }
  }

  /** From `s` to `s'` queue `q` became `now` and thread `t` became `c`; nothing else has changed. */
  ghost predicate Requeued(s: State, s': State, q: QueueId, now: seq<Tid>, t: Tid, c: Tcb)
  {
    && (forall p :: QueueOf(s', p) == if p == q then now else QueueOf(s, p))
    && (forall u: Tid :: u != t ==> s'.T(u) == s.T(u)) && s'.T(t) == c
  }

  lemma Enlists(s: State, q: QueueId, t: Tid)
    ensures Requeued(s, Enlisted(s, q, t), q, [t] + QueueOf(s, q), t,
                     if q == Ready then s.T(t).(runLink := Queued) else s.T(t).(sendLink := LinkTo(q)))
  {
  }

  lemma Delists(s: State, q: QueueId, t: Tid, rest: seq<Tid>)
    ensures Requeued(s, Delisted(s, q, t, rest), q, rest, t,
                     if q == Ready then s.T(t).(runLink := Alone) else s.T(t).(sendLink := Off))
  {
  }

  lemma NamedStill(s: State, s': State, q: QueueId, now: seq<Tid>, t: Tid, c: Tcb, nodes: Nodes, items: Items, selfs: set<Link>,
                   links: seq<Link>, p: QueueId)
    requires Requeued(s, s', q, now, t, c) && Coupled(s, nodes, items, selfs) && q in items && p in items
    requires Named(links, now, nodes.For(q))
    ensures Named(items[q := links][p], QueueOf(s', p), nodes.For(p))
  {
    hide QueueOf, Named;
    assert Named(items[p], QueueOf(s, p), nodes.For(p));
  }

  lemma LinkedStill(s: State, s': State, q: QueueId, now: seq<Tid>, t: Tid, c: Tcb, p: QueueId, u: Tid)
    requires Requeued(s, s', q, now, t, c) && Linked(s, p, u) && (p == q && u != t ==> (u in now <==> u in QueueOf(s, q)))
    requires if q == Ready then c.sendLink == s.T(t).sendLink && (t in now <==> c.runLink == Queued)
             else c.runLink == s.T(t).runLink && (t in now <==> c.sendLink == LinkTo(q)) && c.sendLink in {Off, LinkTo(q)}
    requires q != Ready && p != Ready && p != q && u == t ==> s.T(t).sendLink in {Off, LinkTo(q)}
    ensures Linked(s', p, u)
  {
    hide QueueOf;
  }

  lemma AllLinkedStill(s: State, s': State, q: QueueId, now: seq<Tid>, t: Tid, c: Tcb, nodes: Nodes, items: Items)
    requires Requeued(s, s', q, now, t, c) && forall p, u {:trigger Linked(s, p, u)} :: p in items && u in nodes.run ==> Linked(s, p, u)
    requires now == [t] + QueueOf(s, q)
    requires if q == Ready then c == s.T(t).(runLink := Queued) else c == s.T(t).(sendLink := LinkTo(q)) && s.T(t).sendLink == Off
    ensures forall p, u {:trigger Linked(s', p, u)} :: p in items && u in nodes.run ==> Linked(s', p, u)
  {
    hide Requeued, QueueOf, Linked;
    forall p, u | p in items && u in nodes.run
      ensures Linked(s', p, u)
    {
      assert Linked(s, p, u);
      LinkedStill(s, s', q, now, t, c, p, u);
    }
  }

  lemma NamedPush(items: seq<Link>, queue: seq<Tid>, node: map<Tid, Link>, t: Tid)
    requires Named(items, queue, node) && t in node
    ensures Named([node[t]] + items, [t] + queue, node)
  {
  }

  lemma EnlistCoupled(s: State, nodes: Nodes, items: Items, selfs: set<Link>, pool: set<Link>, q: QueueId, t: Tid)
    requires Coupled(s, nodes, items, selfs) && nodes.Ok(pool) && t in nodes.run && q in items
    requires if q == Ready then s.T(t).runLink != Queued else s.T(t).sendLink == Off
    ensures var x := nodes.For(q)[t];
            Coupled(Enlisted(s, q, t), nodes, items[q := [x] + items[q]], selfs - {x})
  {
    var x, s', now := nodes.For(q)[t], Enlisted(s, q, t), [t] + QueueOf(s, q);
    var items' := items[q := [x] + items[q]];
    var c := if q == Ready then s.T(t).(runLink := Queued) else s.T(t).(sendLink := LinkTo(q));
    Enlists(s, q, t);
    hide Enlisted, QueueOf, Named, Requeued, Linked;
    assert Named(items[q], QueueOf(s, q), nodes.For(q));
    NamedPush(items[q], QueueOf(s, q), nodes.For(q), t);
    forall p | p in items'
      ensures Named(items'[p], QueueOf(s', p), nodes.For(p))
    {
      NamedStill(s, s', q, now, t, c, nodes, items, selfs, [x] + items[q], p);
    }
    AllLinkedStill(s, s', q, now, t, c, nodes, items);
    AloneStill(s, s', q, now, t, c, nodes, pool, selfs, selfs - {x});
    HomeStill(s, s', q, now, t, c, nodes, items);
  }

  lemma HomeStill(s: State, s': State, q: QueueId, now: seq<Tid>, t: Tid, c: Tcb, nodes: Nodes, items: Items)
    requires Requeued(s, s', q, now, t, c) && forall u :: u in nodes.run ==> Home(s.T(u).sendLink) in items
    requires t in nodes.run && q in items && Ready in items && c.sendLink in {s.T(t).sendLink, Off, LinkTo(q)}
    ensures forall u :: u in nodes.run ==> Home(s'.T(u).sendLink) in items
  {
    hide QueueOf;
    forall u | u in nodes.run
      ensures Home(s'.T(u).sendLink) in items
    {
      assert Home(s.T(u).sendLink) in items;
    }
  }

  lemma AloneStill(s: State, s': State, q: QueueId, now: seq<Tid>, t: Tid, c: Tcb, nodes: Nodes, pool: set<Link>,
                   selfs: set<Link>, selfs': set<Link>)
    requires Requeued(s, s', q, now, t, c) && nodes.Ok(pool) && t in nodes.run
    requires forall u :: u in nodes.run ==> (s.T(u).runLink == Alone <==> nodes.run[u] in selfs)
    requires var x := nodes.For(q)[t]; selfs' - {x} == selfs - {x} && (q == Ready ==> (x in selfs' <==> c.runLink == Alone))
    requires q != Ready ==> c.runLink == s.T(t).runLink
    ensures forall u :: u in nodes.run ==> (s'.T(u).runLink == Alone <==> nodes.run[u] in selfs')
  {
    hide QueueOf;
    var x := nodes.For(q)[t];
    forall u | u in nodes.run
      ensures s'.T(u).runLink == Alone <==> nodes.run[u] in selfs'
    {
      assert nodes.run[u].owner == u && x.owner == t;
      assert nodes.run[u] != x ==> (nodes.run[u] in selfs' - {x} <==> nodes.run[u] in selfs - {x});
    }
  }

  lemma DelistCoupled(s: State, nodes: Nodes, items: Items, selfs: set<Link>, pool: set<Link>, q: QueueId, i: nat)
    requires Coupled(s, nodes, items, selfs) && nodes.Ok(pool) && q in items && i < |QueueOf(s, q)| == |items[q]|
    requires forall j, k :: 0 <= j < k < |QueueOf(s, q)| ==> QueueOf(s, q)[j] != QueueOf(s, q)[k]
    ensures var queue := QueueOf(s, q);
            && queue[i] in nodes.run && nodes.For(q)[queue[i]] == items[q][i]
            && Coupled(Delisted(s, q, queue[i], queue[..i] + queue[i + 1..]), nodes, items[q := But(items[q], i)], selfs + {items[q][i]})
  {
    var queue, x := QueueOf(s, q), items[q][i];
    var t, rest := queue[i], queue[..i] + queue[i + 1..];
    assert Named(items[q], queue, nodes.For(q));
    assert Named(But(items[q], i), rest, nodes.For(q));
    var s', items' := Delisted(s, q, t, rest), items[q := But(items[q], i)];
    var c := if q == Ready then s.T(t).(runLink := Alone) else s.T(t).(sendLink := Off);
    Delists(s, q, t, rest);
    assert Linked(s, q, t);
    assert q != Ready ==> s.T(t).sendLink == LinkTo(q);
    hide Delisted, QueueOf, Named, Requeued, Linked, But;
    forall p | p in items'
      ensures Named(items'[p], QueueOf(s', p), nodes.For(p))
    {
      NamedStill(s, s', q, rest, t, c, nodes, items, selfs, But(items[q], i), p);
    }
    forall p, u | p in items' && u in nodes.run
      ensures Linked(s', p, u)
    {
      assert Linked(s, p, u);
      RestHas(queue, i, u);
      RestHas(queue, i, t);
      LinkedStill(s, s', q, rest, t, c, p, u);
    }
    AloneStill(s, s', q, rest, t, c, nodes, pool, selfs, selfs + {x});
    HomeStill(s, s', q, rest, t, c, nodes, items);
  }

  lemma RestHas(queue: seq<Tid>, i: nat, u: Tid)
    requires i < |queue| && forall j, k :: 0 <= j < k < |queue| ==> queue[j] != queue[k]
    ensures u in queue[..i] + queue[i + 1..] <==> u in queue && u != queue[i]
  {
    var rest := queue[..i] + queue[i + 1..];
    if u in queue && u != queue[i] {
      var j :| 0 <= j < |queue| && queue[j] == u;
      assert rest[if j < i then j else j - 1] == u;
    }
  }

  /** Changes outside queues and links keep the coupling. */
  lemma SameQueuesCoupled(s: State, s': State, nodes: Nodes, items: Items, selfs: set<Link>)
    requires Coupled(s, nodes, items, selfs) && s'.runq == s.runq && (forall e: Eid :: s'.E(e) == s.E(e))
    requires (forall n: Nid :: s'.N(n).queue == s.N(n).queue)
    requires forall t: Tid :: s'.T(t).runLink == s.T(t).runLink && s'.T(t).sendLink == s.T(t).sendLink
    ensures Coupled(s', nodes, items, selfs)
  {
    forall q | q in items
      ensures QueueOf(s', q) == QueueOf(s, q)
    {
    }
    forall q, t | q in items && t in nodes.run
      ensures Linked(s', q, t)
    {
      assert Linked(s, q, t);
    }
  }

  /** A queue holds no thread twice, because its list holds no node twice. */
  lemma QueueDistinct(s: State, nodes: Nodes, items: Items, selfs: set<Link>, q: QueueId)
    requires Coupled(s, nodes, items, selfs) && q in items && Distinct(items[q])
    ensures |QueueOf(s, q)| == |items[q]|
    ensures forall j, k :: 0 <= j < k < |QueueOf(s, q)| ==> QueueOf(s, q)[j] != QueueOf(s, q)[k]
  {
    assert Named(items[q], QueueOf(s, q), nodes.For(q));
    hide QueueOf;
  }

  /** Taking a thread out of a queue without repetitions. */
  lemma {:induction false} WithoutAt(queue: seq<Tid>, i: nat)
    requires i < |queue| && forall j, k :: 0 <= j < k < |queue| ==> queue[j] != queue[k]
    ensures Without(queue, queue[i]) == queue[..i] + queue[i + 1..]
  {
    if i > 0 {
      WithoutAt(queue[1..], i - 1);
      assert queue[0] != queue[i];
      assert queue[1..][..i - 1] == queue[1..i] && queue[1..][i..] == queue[i + 1..];
    }
  }

  /** Unlinking a thread is taking it out of the queue its link names. */
  lemma UnlinkIsDelist(s: State, t: Tid, i: nat)
    requires s.T(t).sendLink != Off
    requires var queue := QueueOf(s, Home(s.T(t).sendLink));
             i < |queue| && queue[i] == t && forall j, k :: 0 <= j < k < |queue| ==> queue[j] != queue[k]
    ensures var q := Home(s.T(t).sendLink);
            Unlink(s, t) == Delisted(s, q, t, QueueOf(s, q)[..i] + QueueOf(s, q)[i + 1..])
  {
    WithoutAt(QueueOf(s, Home(s.T(t).sendLink)), i);
    hide Without;
    var off := s.WithT(t, s.T(t).(sendLink := Off));
    match s.T(t).sendLink
    case Off =>
    case OnEndpoint(e) => assert off.WithE(e, Without(s.E(e), t)).tcbs == off.tcbs;
    case OnNotification(n) => assert off.WithN(n, s.N(n).(queue := Without(s.N(n).queue, t))).tcbs == off.tcbs;
  }
}
