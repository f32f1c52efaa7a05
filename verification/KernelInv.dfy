/** Thread conservation: over every run each thread is in exactly one place. */
module KernelInv {
  import opened Seqs
  import opened Wrappers
  import opened KernelState

  ghost predicate RunQueueOk(s: State)
  {
    Distinct(s.runq) && forall t: Tid :: t in s.runq <==> s.T(t).runLink == Queued
  }

  /** The queue holds exactly the threads linked into it, and only receivers or only senders. */
  ghost predicate EndpointOk(s: State, e: Eid)
  {
    && Distinct(s.E(e))
    && (forall t: Tid :: t in s.E(e) <==> s.T(t).sendLink == OnEndpoint(e))
    && (forall t: Tid, u: Tid :: t in s.E(e) && u in s.E(e) ==> (s.T(t).state == Receiving <==> s.T(u).state == Receiving))
  }

  ghost predicate NotificationOk(s: State, n: Nid)
  {
    && Distinct(s.N(n).queue)
    && (forall t: Tid :: t in s.N(n).queue <==> s.T(t).sendLink == OnNotification(n))
  }

  ghost predicate QueuesOk(s: State)
  {
    (forall e: Eid :: EndpointOk(s, e)) && (forall n: Nid :: NotificationOk(s, n))
  }

  /** A thread's links agree with its state.  `current`: it is this CPU's current thread;
      `handed`: it is the thread the CPU is about to switch to. */
  predicate Shape(c: Tcb, current: bool, handed: bool)
  {
    match c.state
    case Running => current && c.runLink == Alone && c.sendLink == Off
    case Runnable => !current && c.sendLink == Off && (handed <==> c.runLink == Alone)
    case Dead => !handed && c.runLink == Alone && c.sendLink == Off
    case Sending => !handed && c.runLink == Alone && c.sendLink.OnEndpoint? && !c.expectsReply
    case Receiving => !handed && c.runLink == Alone && !c.sendLink.Off?
    case Calling => !handed && c.runLink == Alone && !c.sendLink.OnNotification? && c.expectsReply
    case Suspended => false
  }

  ghost predicate ShapesOk(s: State)
  {
    forall t: Tid :: Shape(s.T(t), s.current == Some(t), s.returnTo == Some(t) && s.current != Some(t))
  }

  /** What holds when a kernel routine has decided where to go, before it returns. */
  ghost predicate Decided(s: State)
  {
    && !s.panicked && RunQueueOk(s) && QueuesOk(s) && ShapesOk(s)
    && (s.returnTo.None? ==> s.runq == [])
    && (s.current.Some? ==> (s.T(s.current.value).state == Running ==> s.returnTo.Some?))
    && (s.returnTo == s.current && s.current.Some? ==> s.T(s.current.value).state == Running)
  }

  /** What holds between kernel entries. */
  ghost predicate Inv(s: State)
  {
    Decided(s) && s.returnTo == s.current
  }

  // ----- Effects of single updates on the queues -----

  /** Nothing the queues depend on has changed. */
  ghost predicate SameLinks(s: State, s': State)
  {
    && (forall e: Eid :: s'.E(e) == s.E(e))
    && (forall n: Nid :: s'.N(n).queue == s.N(n).queue)
    && (forall t: Tid :: s'.T(t).sendLink == s.T(t).sendLink)
    && (forall t: Tid :: s.T(t).sendLink.OnEndpoint? ==> s'.T(t).state == s.T(t).state)
  }

  lemma KeepQueues(s: State, s': State)
    requires QueuesOk(s) && SameLinks(s, s')
    ensures QueuesOk(s')
  {
    forall e: Eid
      ensures EndpointOk(s', e)
    {
      assert EndpointOk(s, e);
    }
    forall n: Nid
      ensures NotificationOk(s', n)
    {
      assert NotificationOk(s, n);
    }
  }

  lemma KeepRuns(s: State, s': State)
    requires RunQueueOk(s) && s'.runq == s.runq && forall t: Tid :: s'.T(t).runLink == s.T(t).runLink
    ensures RunQueueOk(s')
  {
  }

  /** schedule() takes the first runnable thread, thread by thread. */
  lemma Picked(s: State)
    requires s.runq != []
    ensures var s', x := Schedule(s), s.runq[0];
            && s'.eps == s.eps && s'.ntfns == s.ntfns && s'.panicked == s.panicked && s'.current == s.current
            && s'.returnTo == Some(x) && s'.runq == s.runq[1..]
            && s'.T(x) == s.T(x).(state := Runnable, runLink := Alone)
            && forall t: Tid :: t != x ==> s'.T(t) == s.T(t)
  {
  }

  /** A thread that holds the CPU and calls schedule(): it may still be running, or have just
      blocked or died. */
  ghost predicate Leaving(s: State)
  {
    && !s.panicked && RunQueueOk(s) && QueuesOk(s) && s.returnTo == s.current && s.current.Some?
    && forall t: Tid :: Shape(s.T(t), s.current == Some(t), false)
  }

  lemma PickDecides(s: State)
    requires Leaving(s) && s.runq != []
    ensures Decided(Schedule(s))
  {
    hide QueuesOk, Schedule;
    var s' := Schedule(s);
    Picked(s);
    var x := s.runq[0];
    assert x in s.runq && Shape(s.T(x), s.current == Some(x), false);
    assert forall t: Tid :: t in s'.runq <==> t in s.runq && t != x;
    KeepQueues(s, s');
  }

  lemma ScheduleDecides(s: State)
    requires Leaving(s)
    ensures Decided(Schedule(s))
  {
    hide QueuesOk;
    var s' := Schedule(s);
    if s.runq != [] {
      PickDecides(s);
    } else {
      KeepQueues(s, s');
    }
  }

  /** What return_from_kernel_code does to the thread that was current. */
  function Parted(c: Tcb): Tcb
  {
    if c.state == Dead then c
    else if c.state == Running then c.(saved := c.live, state := Runnable, runLink := Queued)
    else c.(saved := c.live)
  }

  /** The state after the switch to `x`, thread by thread. */
  lemma Switched(s: State, x: Tid)
    requires Decided(s) && s.returnTo == Some(x) && s.current != Some(x)
    ensures var s' := ReturnFromKernel(s);
            && s'.eps == s.eps && s'.ntfns == s.ntfns && !s'.panicked && s'.current == s'.returnTo == Some(x)
            && s'.T(x) == s.T(x).(state := Running)
            && (forall t: Tid :: t != x && s.current != Some(t) ==> s'.T(t) == s.T(t))
            && (s.current.Some? ==> s'.T(s.current.value) == Parted(s.T(s.current.value)))
            && s'.runq == (if s.current.Some? && s.T(s.current.value).state == Running then [s.current.value] else []) + s.runq
  {
    hide Decided, SwitchTcbActual, Parted;
    SwitchShapes(s, x);
    if s.current.Some? {
      if s.T(s.current.value).state == Running {
        SwitchRunning(s, s.current.value, x);
      } else {
        SwitchOther(s, s.current.value, x);
      }
    } else {
      SwitchIdle(s, x);
    }
  }

  lemma SwitchIdle(s: State, x: Tid)
    requires s.current.None? && s.T(x).state == Runnable
    ensures var s' := SwitchTcbActual(s, x); s' == s.WithT(x, s.T(x).(state := Running)).(current := Some(x))
  {
  }

  lemma SwitchRunning(s: State, me: Tid, x: Tid)
    requires s.current == Some(me) && me != x && s.T(x).state == Runnable && s.T(me).state == Running
    ensures var s' := SwitchTcbActual(s, x);
            && s' == s.(tcbs := s'.tcbs, runq := [me] + s.runq, current := Some(x))
            && s'.T(x) == s.T(x).(state := Running) && s'.T(me) == Parted(s.T(me)) && forall t: Tid :: t != x && t != me ==> s'.T(t) == s.T(t)
  {
  }

  lemma SwitchOther(s: State, me: Tid, x: Tid)
    requires s.current == Some(me) && me != x && s.T(x).state == Runnable && s.T(me).state != Running
    ensures var s' := SwitchTcbActual(s, x);
            && s' == s.(tcbs := s'.tcbs, current := Some(x))
            && s'.T(x) == s.T(x).(state := Running) && s'.T(me) == Parted(s.T(me)) && forall t: Tid :: t != x && t != me ==> s'.T(t) == s.T(t)
  {
  }

  lemma SwitchShapes(s: State, x: Tid)
    requires Decided(s) && s.returnTo == Some(x) && s.current != Some(x)
    ensures !s.panicked && s.T(x).state == Runnable
    ensures s.current.Some? ==> s.T(s.current.value).state !in {Runnable, Suspended}
  {
    hide QueuesOk, RunQueueOk;
    assert Shape(s.T(x), false, true);
    if s.current.Some? {
      assert Shape(s.T(s.current.value), true, false);
    }
  }

  lemma SwitchKeeps(s: State, x: Tid)
    requires Decided(s) && s.returnTo == Some(x) && s.current != Some(x)
    ensures Inv(ReturnFromKernel(s))
  {
    hide QueuesOk, ReturnFromKernel;
    var s' := ReturnFromKernel(s);
    Switched(s, x);
    assert Shape(s.T(x), false, true);
    if s.current.Some? {
      assert Shape(s.T(s.current.value), true, false);
    }
    KeepQueues(s, s');
  }

  lemma ReturnKeeps(s: State)
    requires Decided(s)
    ensures Inv(ReturnFromKernel(s))
  {
    hide QueuesOk;
    if s.returnTo != s.current {
      if s.returnTo.Some? {
        SwitchKeeps(s, s.returnTo.value);
      } else {
        var c := s.current.value;
        var s' := ReturnFromKernel(s);
        assert forall t: Tid :: t != c ==> s'.T(t) == s.T(t);
        assert Shape(s.T(c), true, false);
        KeepQueues(s, s');
      }
    }
  }

  // ----- Every action keeps the invariant -----

  lemma ExitKeeps(s: State, me: Tid)
    requires Inv(s) && s.current == Some(me)
    ensures Decided(Schedule(KillTcb(s, me)))
  {
    hide QueuesOk;
    var k := KillTcb(s, me);
    assert Shape(s.T(me), true, false);
    assert forall t: Tid :: t != me ==> k.T(t) == s.T(t);
    KeepQueues(s, k);
    ScheduleDecides(k);
  }

  lemma YieldKeeps(s: State, me: Tid)
    requires Inv(s) && s.current == Some(me)
    ensures Decided(Schedule(s))
  {
    hide QueuesOk;
    ScheduleDecides(s);
  }

  /** Linking the current thread into an endpoint queue that suits it. */
  lemma QueueOnEndpointKeeps(s: State, s': State, me: Tid, e: Eid)
    requires QueuesOk(s) && s.T(me).sendLink == Off
    requires s'.E(e) == [me] + s.E(e) && (forall d: Eid :: d != e ==> s'.E(d) == s.E(d))
    requires forall n: Nid :: s'.N(n).queue == s.N(n).queue
    requires s'.T(me).sendLink == OnEndpoint(e) && (forall t: Tid :: t != me ==> s'.T(t) == s.T(t))
    requires s.E(e) == [] || (s.T(s.E(e)[0]).state == Receiving <==> s'.T(me).state == Receiving)
    ensures QueuesOk(s')
  {
    assert EndpointOk(s, e);
    forall d: Eid
      ensures EndpointOk(s', d)
    {
      assert EndpointOk(s, d);
      assert d == e ==> forall t: Tid :: t in s'.E(e) <==> t == me || t in s.E(e);
    }
    forall n: Nid
      ensures NotificationOk(s', n)
    {
      assert NotificationOk(s, n);
    }
  }

  /** Blocking on an endpoint: as a receiver, a sender or a caller. */
  lemma BlockKeeps(s: State, s': State, me: Tid, e: Eid)
    requires !s.panicked && RunQueueOk(s) && QueuesOk(s) && s.current == s.returnTo == Some(me)
    requires s.T(me).sendLink == Off && s.T(me).runLink == Alone
    requires forall t: Tid :: t != me ==> Shape(s.T(t), false, false)
    requires s' == s.(eps := s'.eps, tcbs := s'.tcbs)
    requires s'.E(e) == [me] + s.E(e) && (forall d: Eid :: d != e ==> s'.E(d) == s.E(d))
    requires s'.T(me).sendLink == OnEndpoint(e) && s'.T(me).runLink == Alone
    requires Shape(s'.T(me), true, false)
    requires forall t: Tid :: t != me ==> s'.T(t) == s.T(t)
    requires s.E(e) == [] || (s.T(s.E(e)[0]).state == Receiving <==> s'.T(me).state == Receiving)
    ensures Decided(Schedule(s'))
  {
    hide QueuesOk;
    QueueOnEndpointKeeps(s, s', me, e);
    ScheduleDecides(s');
  }

  /** The fields of a thread the invariant speaks of. */
  predicate SameShape(a: Tcb, b: Tcb)
  {
    a.state == b.state && a.runLink == b.runLink && a.sendLink == b.sendLink && a.expectsReply == b.expectsReply
  }

  /** `q'` is `q` without `r`. */
  ghost predicate Removed(q: seq<Tid>, q': seq<Tid>, r: Tid)
  {
    Distinct(q') && forall t: Tid :: t in q' <==> t in q && t != r
  }

  /** Thread `r` has left whatever send/receive queue held it; nothing else moved. */
  ghost predicate LeftQueues(s: State, s': State, r: Tid)
  {
    && (forall e: Eid :: Removed(s.E(e), s'.E(e), r))
    && (forall n: Nid :: Removed(s.N(n).queue, s'.N(n).queue, r))
    && s'.T(r).sendLink == Off
    && (forall t: Tid :: t != r ==> SameShape(s'.T(t), s.T(t)))
  }

  lemma LeftAlike(s: State, p: State, s': State, r: Tid)
    requires LeftQueues(s, p, r) && s'.eps == p.eps && s'.ntfns == p.ntfns && s'.T(r).sendLink == Off
    requires forall t: Tid :: t != r ==> SameShape(s'.T(t), p.T(t))
    ensures LeftQueues(s, s', r)
  {
  }

  lemma LeaveKeepsQueues(s: State, s': State, r: Tid)
    requires QueuesOk(s) && LeftQueues(s, s', r)
    ensures QueuesOk(s')
  {
    forall e: Eid
      ensures EndpointOk(s', e)
    {
      assert EndpointOk(s, e) && Removed(s.E(e), s'.E(e), r);
    }
    forall n: Nid
      ensures NotificationOk(s', n)
    {
      assert NotificationOk(s, n) && Removed(s.N(n).queue, s'.N(n).queue, r);
    }
  }

  /** Switching to a thread that was blocked. */
  lemma HandOver(s: State, s': State, r: Tid)
    requires !s.panicked && RunQueueOk(s) && QueuesOk(s) && s.returnTo == s.current != Some(r)
    requires forall t: Tid :: Shape(s.T(t), s.current == Some(t), false)
    requires s.T(r).state in {Receiving, Calling} && LeftQueues(s, s', r)
    requires s'.T(r).state == Runnable && s'.T(r).runLink == Alone
    requires s' == s.(tcbs := s'.tcbs, eps := s'.eps, ntfns := s'.ntfns, returnTo := Some(r))
    ensures Decided(s')
  {
    hide QueuesOk;
    LeaveKeepsQueues(s, s', r);
    assert Shape(s.T(r), false, false);
    forall t: Tid
      ensures t in s'.runq <==> s'.T(t).runLink == Queued
    {
      assert t != r ==> SameShape(s'.T(t), s.T(t));
    }
  }

  /** Putting a thread that was blocked, or never started, on the run queue. */
  lemma MakeReady(s: State, s': State, r: Tid)
    requires Inv(s) && s.current.Some? && s.current != Some(r)
    requires s.T(r).state in {Sending, Calling} || (s.T(r).state == Runnable && s.T(r).runLink == Zeroed)
    requires LeftQueues(s, s', r)
    requires s'.T(r).state == Runnable && s'.T(r).runLink == Queued
    requires s' == s.(tcbs := s'.tcbs, eps := s'.eps, ntfns := s'.ntfns, runq := [r] + s.runq)
    ensures Inv(s')
  {
    hide QueuesOk;
    LeaveKeepsQueues(s, s', r);
    assert Shape(s.T(r), false, false);
    forall t: Tid
      ensures t in s'.runq <==> s'.T(t).runLink == Queued
    {
      assert t != r ==> SameShape(s'.T(t), s.T(t));
    }
    assert SameShape(s'.T(s.current.value), s.T(s.current.value));
  }

  lemma Popped(s: State, e: Eid)
    requires s.E(e) != []
    ensures var p := PopEndpoint(s, e); var x := s.E(e)[0];
            && p == s.(tcbs := p.tcbs, eps := p.eps)
            && p.T(x) == s.T(x).(sendLink := Off) && (forall t: Tid :: t != x ==> p.T(t) == s.T(t))
            && p.E(e) == s.E(e)[1..] && forall d: Eid :: d != e ==> p.E(d) == s.E(d)
  {
  }

  lemma PopRemoves(s: State, e: Eid)
    requires QueuesOk(s) && s.E(e) != []
    ensures LeftQueues(s, PopEndpoint(s, e), s.E(e)[0])
  {
    var s', r := PopEndpoint(s, e), s.E(e)[0];
    assert EndpointOk(s, e) && r in s.E(e);
    forall d: Eid
      ensures Removed(s.E(d), s'.E(d), r)
    {
      assert EndpointOk(s, d);
      if d == e {
        assert s.E(e) == [r] + s'.E(e);
      }
    }
    forall n: Nid
      ensures Removed(s.N(n).queue, s'.N(n).queue, r)
    {
      assert NotificationOk(s, n);
    }
  }

  lemma {:induction false} WithoutRemoves(q: seq<Tid>, r: Tid)
    requires Distinct(q)
    ensures Removed(q, Without(q, r), r)
  {
    if q != [] && q[0] != r {
      WithoutRemoves(q[1..], r);
      assert q == [q[0]] + q[1..] && q[0] !in q[1..];
      assert q[0] !in Without(q[1..], r);
    } else if q != [] {
      assert q == [r] + q[1..];
    }
  }

  lemma UnlinkRemoves(s: State, r: Tid)
    requires QueuesOk(s)
    ensures LeftQueues(s, Unlink(s, r), r)
  {
    hide QueuesOk;
    var s' := Unlink(s, r);
    forall e: Eid
      ensures Removed(s.E(e), s'.E(e), r)
    {
      EndpointUnlinked(s, r, e);
    }
    forall n: Nid
      ensures Removed(s.N(n).queue, s'.N(n).queue, r)
    {
      NotificationUnlinked(s, r, n);
    }
  }

  lemma Unlinked(s: State, r: Tid)
    ensures var s' := Unlink(s, r);
            && s' == s.(tcbs := s'.tcbs, eps := s'.eps, ntfns := s'.ntfns)
            && s'.T(r) == s.T(r).(sendLink := Off) && forall t: Tid :: t != r ==> s'.T(t) == s.T(t)
  {
  }

  lemma EndpointUnlinked(s: State, r: Tid, e: Eid)
    requires QueuesOk(s)
    ensures Removed(s.E(e), Unlink(s, r).E(e), r)
  {
    assert EndpointOk(s, e);
    if s.T(r).sendLink == OnEndpoint(e) {
      WithoutRemoves(s.E(e), r);
    } else {
      assert Unlink(s, r).E(e) == s.E(e) && r !in s.E(e);
    }
  }

  lemma NotificationUnlinked(s: State, r: Tid, n: Nid)
    requires QueuesOk(s)
    ensures Removed(s.N(n).queue, Unlink(s, r).N(n).queue, r)
  {
    assert NotificationOk(s, n);
    if s.T(r).sendLink == OnNotification(n) {
      WithoutRemoves(s.N(n).queue, r);
    } else {
      assert Unlink(s, r).N(n) == s.N(n) && r !in s.N(n).queue;
    }
  }

  /** A message transfer touches only the receiver, and nothing the invariant speaks of. */
  lemma TransferShapes(s: State, sender: Tid, receiver: Tid, badge: Word, tag: Tag, capsOk: bool)
    ensures var s' := TransferMessage(s, sender, receiver, badge, tag, capsOk);
            && s' == s.(tcbs := s'.tcbs)
            && s'.T(receiver) == s.T(receiver).(
                 buf := Buffer(CopyWords(s.T(sender).buf.msg, s.T(receiver).buf.msg, tag.length), badge),
                 replyTo := if s.T(sender).expectsReply then Some(sender) else s.T(receiver).replyTo,
                 saved := if s.current == Some(receiver) then s.T(receiver).saved
                          else s.T(receiver).saved.(result := DeliveredTag(tag, capsOk)),
                 live := if s.current == Some(receiver) then s.T(receiver).live.(result := DeliveredTag(tag, capsOk))
                         else s.T(receiver).live)
            && forall t: Tid :: t != receiver ==> s'.T(t) == s.T(t)
  {
    hide CopyWords, DeliveredTag;
  }

  /** The first thread of a queue is linked there, so it is neither current nor runnable. */
  lemma FirstIsBlocked(s: State, e: Eid)
    requires QueuesOk(s) && s.E(e) != [] && forall t: Tid :: Shape(s.T(t), s.current == Some(t), false)
    ensures var r := s.E(e)[0];
            && s.T(r).sendLink == OnEndpoint(e) && s.T(r).runLink == Alone
            && s.T(r).state in {Sending, Receiving, Calling}
  {
    assert EndpointOk(s, e) && s.E(e)[0] in s.E(e);
    assert Shape(s.T(s.E(e)[0]), s.current == Some(s.E(e)[0]), false);
  }

  lemma CurrentNotFirst(s: State, me: Tid, e: Eid)
    requires Inv(s) && s.current == Some(me) && s.E(e) != []
    ensures s.E(e)[0] != me
  {
    assert Shape(s.T(me), true, false) && EndpointOk(s, e) && s.E(e)[0] in s.E(e);
  }

  /** A thread queues itself. */
  lemma Enqueued(s: State, me: Tid, e: Eid, state: TaskState)
    ensures var q := QueueOnEndpoint(s, me, e, state);
            && q == s.(tcbs := q.tcbs, eps := q.eps) && q.E(e) == [me] + s.E(e) && (forall d: Eid :: d != e ==> q.E(d) == s.E(d))
            && q.T(me) == s.T(me).(state := state, sendLink := OnEndpoint(e)) && forall t: Tid :: t != me ==> q.T(t) == s.T(t)
  {
  }

  lemma InvReturns(s: State)
    requires Inv(s)
    ensures s.returnTo == s.current
  {
  }

  /** The state in which endpoint_send runs: the current thread is running (send) or already
      marked calling. */
  ghost predicate AboutToSend(s: State, me: Tid, isCall: bool)
  {
    && !s.panicked && RunQueueOk(s) && QueuesOk(s) && s.current == s.returnTo == Some(me)
    && (forall t: Tid :: Shape(s.T(t), s.current == Some(t), false))
    && s.T(me).sendLink == Off && s.T(me).expectsReply == isCall
    && s.T(me).state == if isCall then Calling else Running
  }

  lemma DeliverKeeps(s: State, me: Tid, e: Eid, badge: Word, isCall: bool, capsOk: bool)
    requires AboutToSend(s, me, isCall) && !SendWillBlock(s, e)
    ensures Decided(EndpointSend(s, me, e, badge, isCall, capsOk))
  {
    hide QueuesOk, RunQueueOk, TransferMessage, PopEndpoint, CopyWords, DeliveredTag;
    var r, s' := s.E(e)[0], EndpointSend(s, me, e, badge, isCall, capsOk);
    FirstIsBlocked(s, e);
    Popped(s, e);
    PopRemoves(s, e);
    var p := PopEndpoint(s, e);
    TransferShapes(p, me, r, badge, s.T(me).live.outgoing, capsOk);
    assert LeftQueues(s, s', r);
    HandOver(s, s', r);
  }

  lemma EndpointSendKeeps(s: State, me: Tid, e: Eid, badge: Word, isCall: bool, capsOk: bool)
    requires AboutToSend(s, me, isCall)
    ensures Decided(EndpointSend(s, me, e, badge, isCall, capsOk))
  {
    hide QueuesOk, RunQueueOk;
    assert Shape(s.T(me), true, false);
    if SendWillBlock(s, e) {
      var q := QueueOnEndpoint(s, me, e, if isCall then Calling else Sending);
      BlockKeeps(s, q.WithT(me, q.T(me).(endpointBadge := badge)), me, e);
    } else {
      DeliverKeeps(s, me, e, badge, isCall, capsOk);
    }
  }

  lemma SendKeeps(s: State, me: Tid, e: Eid, badge: Word, capsOk: bool)
    requires Inv(s) && s.current == Some(me)
    ensures Decided(Send(s, me, e, badge, capsOk))
  {
    hide QueuesOk;
    var s' := s.WithT(me, s.T(me).(expectsReply := false));
    assert Shape(s.T(me), true, false);
    KeepQueues(s, s');
    EndpointSendKeeps(s', me, e, badge, false, capsOk);
  }

  lemma CallKeeps(s: State, me: Tid, e: Eid, badge: Word, capsOk: bool)
    requires Inv(s) && s.current == Some(me)
    ensures Decided(Call(s, me, e, badge, capsOk))
  {
    hide QueuesOk;
    var s' := s.WithT(me, s.T(me).(expectsReply := true, state := Calling));
    assert Shape(s.T(me), true, false);
    KeepQueues(s, s');
    EndpointSendKeeps(s', me, e, badge, true, capsOk);
  }

  /** Two states that agree on everything the invariant speaks of. */
  lemma SameShapesKeep(s: State, s': State)
    requires Decided(s) && s' == s.(tcbs := s'.tcbs, ntfns := s'.ntfns)
    requires forall n: Nid :: s'.N(n).queue == s.N(n).queue
    requires forall t: Tid :: SameShape(s'.T(t), s.T(t))
    ensures Decided(s')
  {
    hide QueuesOk, RunQueueOk;
    KeepQueues(s, s');
    KeepRuns(s, s');
    forall t: Tid
      ensures Shape(s'.T(t), s'.current == Some(t), s'.returnTo == Some(t) && s'.current != Some(t))
    {
      assert Shape(s.T(t), s.current == Some(t), s.returnTo == Some(t) && s.current != Some(t));
      assert SameShape(s'.T(t), s.T(t));
    }
    if s.current.Some? {
      assert SameShape(s'.T(s.current.value), s.T(s.current.value));
    }
  }

  /** The first half of receive_message_from_blocked_sender: the message has been copied. */
  lemma Copied(s: State, me: Tid, e: Eid, capsOk: bool)
    requires s.current == Some(me) && s.E(e) != [] && s.E(e)[0] != me
    ensures var x, p, c := s.E(e)[0], PopEndpoint(s, e), s.T(s.E(e)[0]);
            var s' := TransferMessage(p, x, me, p.T(x).endpointBadge, Pending(p, x), capsOk);
            && (forall t: Tid :: t != me && t != x ==> s'.T(t) == s.T(t))
            && s' == s.(tcbs := s'.tcbs, eps := p.eps)
            && s'.T(me) == s.T(me).(
                 buf := Buffer(CopyWords(c.buf.msg, s.T(me).buf.msg, c.saved.outgoing.length), c.endpointBadge),
                 replyTo := if c.expectsReply then Some(x) else s.T(me).replyTo,
                 live := s.T(me).live.(result := DeliveredTag(c.saved.outgoing, capsOk)))
            && s'.T(x) == c.(sendLink := Off)
  {
    hide CopyWords, DeliveredTag, TransferMessage;
    var p, x := PopEndpoint(s, e), s.E(e)[0];
    assert forall t: Tid :: t != x ==> p.T(t) == s.T(t);
    TransferShapes(p, x, me, p.T(x).endpointBadge, Pending(p, x), capsOk);
  }

  /** receive_message_from_blocked_sender, thread by thread. */
  lemma ReceivedFrom(s: State, me: Tid, e: Eid, capsOk: bool)
    requires s.current == Some(me) && s.E(e) != [] && s.E(e)[0] != me
    ensures var x, s' := s.E(e)[0], ReceiveFromBlocked(s, me, e, capsOk);
            var c, owed := s.T(x), s.T(x).expectsReply;
            && (forall t: Tid :: t != me && t != x ==> s'.T(t) == s.T(t))
            && s'.current == s.current && s'.returnTo == s.returnTo && s'.ntfns == s.ntfns
            && s'.T(me) == s.T(me).(
                 buf := Buffer(CopyWords(c.buf.msg, s.T(me).buf.msg, c.saved.outgoing.length), c.endpointBadge),
                 replyTo := if owed then Some(x) else s.T(me).replyTo,
                 owes := if owed then Some(x) else s.T(me).owes,
                 live := s.T(me).live.(result := DeliveredTag(c.saved.outgoing, capsOk)))
            && s'.T(x) == if owed then c.(sendLink := Off) else c.(sendLink := Off, state := Runnable, runLink := Queued)
  {
    hide CopyWords, DeliveredTag, TransferMessage;
    Copied(s, me, e, capsOk);
  }

  lemma ReceiveFromBlockedKeeps(s: State, me: Tid, e: Eid, capsOk: bool)
    requires Inv(s) && s.current == Some(me) && !RecvWillBlock(s, e)
    ensures Inv(ReceiveFromBlocked(s, me, e, capsOk))
  {
    var x, s' := s.E(e)[0], ReceiveFromBlocked(s, me, e, capsOk);
    CurrentNotFirst(s, me, e);
    FirstIsBlocked(s, e);
    assert Shape(s.T(x), false, false);
    hide QueuesOk, RunQueueOk, TransferMessage, LeftQueues, Pending, PopEndpoint, Shape;
    TakenOff(s, me, e, capsOk);
    if s.T(x).expectsReply {
      TakeCallKeeps(s, s', x);
    } else {
      MakeReady(s, s', x);
    }
  }

  /** Taking the message unlinks the sender `x` and otherwise touches only the receiver's buffer and frame. */
  lemma TakenOff(s: State, me: Tid, e: Eid, capsOk: bool)
    requires QueuesOk(s) && !RecvWillBlock(s, e) && s.E(e)[0] != me
    ensures var x, s' := s.E(e)[0], ReceiveFromBlocked(s, me, e, capsOk);
            && LeftQueues(s, s', x)
            && s'.T(x) == (if s.T(x).expectsReply then s.T(x).(sendLink := Off)
                           else s.T(x).(sendLink := Off, state := Runnable, runLink := Queued))
            && s' == s.(tcbs := s'.tcbs, eps := s'.eps, runq := s'.runq, panicked := s'.panicked)
            && s'.runq == (if s.T(x).expectsReply then s.runq else [x] + s.runq)
            && s'.panicked == (s.panicked || (!s.T(x).expectsReply && s.T(x).state == Dead))
  {
    hide QueuesOk, TransferMessage, CopyWords, DeliveredTag, Pending, PopEndpoint, LeftQueues;
    var x, p := s.E(e)[0], PopEndpoint(s, e);
    Popped(s, e);
    PopRemoves(s, e);
    TransferShapes(p, x, me, p.T(x).endpointBadge, Pending(p, x), capsOk);
    LeftAlike(s, p, ReceiveFromBlocked(s, me, e, capsOk), x);
  }

  /** A caller leaves its endpoint queue and waits for the reply. */
  lemma TakeCallKeeps(s: State, s': State, x: Tid)
    requires Inv(s) && s.current.Some? && s.current != Some(x) && s.T(x).state == Calling && LeftQueues(s, s', x)
    requires s'.T(x) == s.T(x).(sendLink := Off)
    requires s' == s.(tcbs := s'.tcbs, eps := s'.eps)
    ensures Inv(s')
  {
    hide QueuesOk;
    LeaveKeepsQueues(s, s', x);
    forall t: Tid
      ensures t in s'.runq <==> s'.T(t).runLink == Queued
    {
      assert t != x ==> SameShape(s'.T(t), s.T(t));
    }
    assert SameShape(s'.T(s.current.value), s.T(s.current.value));
  }

  lemma RecvKeeps(s: State, me: Tid, e: Eid, capsOk: bool)
    requires Inv(s) && s.current == Some(me)
    ensures Decided(Recv(s, me, e, capsOk))
  {
    hide QueuesOk, RunQueueOk;
    assert Shape(s.T(me), true, false);
    if PendingNotification(s, me) {
      SameShapesKeep(s, TakeNotification(s, me));
    } else if RecvWillBlock(s, e) {
      BlockKeeps(s, QueueOnEndpoint(s, me, e, Receiving), me, e);
    } else {
      ReceiveFromBlockedKeeps(s, me, e, capsOk);
    }
  }

  lemma NbRecvKeeps(s: State, me: Tid, e: Eid, capsOk: bool)
    requires Inv(s) && s.current == Some(me)
    ensures Decided(NbRecv(s, me, e, capsOk))
  {
    hide QueuesOk, RunQueueOk;
    if PendingNotification(s, me) {
      SameShapesKeep(s, TakeNotification(s, me));
    } else if RecvWillBlock(s, e) {
      SameShapesKeep(s, SetResult(s, me, OK_TAG));
    } else {
      ReceiveFromBlockedKeeps(s, me, e, capsOk);
    }
  }

  // ----- Replies -----

  /** The thread is off every queue, waiting for the reply to its call. */
  predicate Awaiting(s: State, t: Tid)
  {
    s.T(t).state == Calling && s.T(t).sendLink == Off
  }

  lemma OffMeansNotQueued(s: State, r: Tid)
    requires QueuesOk(s) && s.T(r).sendLink == Off
    ensures (forall e: Eid :: r !in s.E(e)) && (forall n: Nid :: r !in s.N(n).queue)
    ensures (forall e: Eid :: Distinct(s.E(e))) && (forall n: Nid :: Distinct(s.N(n).queue))
  {
    forall e: Eid
      ensures r !in s.E(e) && Distinct(s.E(e))
    {
      assert EndpointOk(s, e);
    }
    forall n: Nid
      ensures r !in s.N(n).queue && Distinct(s.N(n).queue)
    {
      assert NotificationOk(s, n);
    }
  }

  lemma ReplyKeeps(s: State, me: Tid, capsOk: bool)
    requires Inv(s) && s.current == Some(me) && s.T(me).replyTo.Some? && Awaiting(s, s.T(me).replyTo.value)
    ensures Inv(Reply(s, me, capsOk))
  {
    hide QueuesOk, RunQueueOk, TransferMessage;
    var c, s' := s.T(me).replyTo.value, Reply(s, me, capsOk);
    TransferShapes(s, me, c, 0, s.T(me).live.outgoing, capsOk);
    OffMeansNotQueued(s, c);
    assert LeftQueues(s, s', c);
    MakeReady(s, s', c);
  }

  /** A reply keeps the invariant exactly when reply_to names a thread that waits off-queue for a
      reply; the kernel itself checks less (the thread is in the calling state). */
  lemma ReplyKeepsIff(s: State, me: Tid, capsOk: bool)
    requires Inv(s) && s.current == Some(me)
    ensures Inv(Reply(s, me, capsOk)) <==> s.T(me).replyTo.Some? && Awaiting(s, s.T(me).replyTo.value)
  {
    hide QueuesOk, RunQueueOk, TransferMessage;
    assert Shape(s.T(me), true, false);
    var target, s' := s.T(me).replyTo, Reply(s, me, capsOk);
    if target.Some? && Awaiting(s, target.value) {
      ReplyKeeps(s, me, capsOk);
    } else if target.Some? && s.T(target.value).state == Calling {
      var c := target.value;
      TransferShapes(s, me, c, 0, s.T(me).live.outgoing, capsOk);
      assert Inv(s') ==> Shape(s'.T(me), true, false) && Shape(s'.T(c), s'.current == Some(c), false);
    }
  }

  // ----- Notifications -----

  /** Waking a receiver touches only that thread. */
  lemma Woken(s: State, r: Tid, badge: Word)
    ensures var s' := WakeReceiver(s, r, badge);
            && s' == s.(tcbs := s'.tcbs, returnTo := Some(r))
            && s'.T(r) == s.T(r).(state := Runnable, buf := s.T(r).buf.(senderBadge := badge),
                                  saved := if s.current == Some(r) then s.T(r).saved else s.T(r).saved.(result := OK_TAG),
                                  live := if s.current == Some(r) then s.T(r).live.(result := OK_TAG) else s.T(r).live)
            && forall t: Tid :: t != r ==> s'.T(t) == s.T(t)
  {
  }

  lemma WakeKeeps(s: State, n: Nid, r: Tid, badge: Word)
    requires Inv(s) && s.T(r).state == Receiving
    ensures Decided(WakeReceiver(Unlink(s.WithN(n, s.N(n).(word := 0)), r), r, badge))
  {
    hide QueuesOk, RunQueueOk, WakeReceiver, Unlink, Removed;
    var s0 := s.WithN(n, s.N(n).(word := 0));
    var u := Unlink(s0, r);
    SameShapesKeep(s, s0);
    assert Shape(s0.T(r), s0.current == Some(r), false);
    UnlinkRemoves(s0, r);
    Unlinked(s0, r);
    Woken(u, r, badge);
    HandOver(s0, WakeReceiver(u, r, badge), r);
  }

  lemma NewWordKeeps(s: State, n: Nid, word: Word)
    requires Inv(s)
    ensures Inv(s.WithN(n, s.N(n).(word := word)))
  {
    hide Decided;
    SameShapesKeep(s, s.WithN(n, s.N(n).(word := word)));
  }

  lemma SignalKeeps(s: State, n: Nid, badge: Word)
    requires Inv(s)
    ensures Decided(Signal(s, n, badge))
  {
    hide Decided, WakeReceiver, Unlink, Or;
    var x := s.N(n);
    if x.queue == [] && x.bound.Some? && s.T(x.bound.value).state == Receiving {
      WakeKeeps(s, n, x.bound.value, Or(x.word, badge));
    } else if x.queue == [] {
      NewWordKeeps(s, n, Or(x.word, badge));
    } else {
      WaiterIsReceiving(s, n);
      WakeKeeps(s, n, x.queue[0], Or(x.word, badge));
    }
  }

  lemma WaiterIsReceiving(s: State, n: Nid)
    requires Inv(s) && s.N(n).queue != []
    ensures s.T(s.N(n).queue[0]).state == Receiving
  {
    var r := s.N(n).queue[0];
    assert NotificationOk(s, n) && r in s.N(n).queue;
    assert Shape(s.T(r), s.current == Some(r), false);
  }

  lemma QueueOnNotificationKeeps(s: State, s': State, me: Tid, n: Nid)
    requires QueuesOk(s) && s.T(me).sendLink == Off
    requires s'.N(n).queue == [me] + s.N(n).queue && (forall m: Nid :: m != n ==> s'.N(m) == s.N(m))
    requires s'.eps == s.eps
    requires s'.T(me).sendLink == OnNotification(n) && (forall t: Tid :: t != me ==> s'.T(t) == s.T(t))
    ensures QueuesOk(s')
  {
    forall e: Eid
      ensures EndpointOk(s', e)
    {
      assert EndpointOk(s, e);
    }
    forall m: Nid
      ensures NotificationOk(s', m)
    {
      assert NotificationOk(s, m);
      assert m == n ==> forall t: Tid :: t in s'.N(n).queue <==> t == me || t in s.N(n).queue;
    }
  }

  /** The queueing half of a notification receive. */
  function QueueOnNotification(s: State, me: Tid, n: Nid): State
  {
    s.WithN(n, s.N(n).(queue := [me] + s.N(n).queue)).WithT(me, s.T(me).(sendLink := OnNotification(n), state := Receiving))
  }

  lemma BlockOnNotificationKeeps(s: State, me: Tid, n: Nid)
    requires Inv(s) && s.current == Some(me)
    ensures Decided(Schedule(QueueOnNotification(s, me, n)))
  {
    hide QueuesOk, RunQueueOk, Schedule;
    assert Shape(s.T(me), true, false);
    var q := QueueOnNotification(s, me, n);
    QueueOnNotificationKeeps(s, q, me, n);
    KeepRuns(s, q);
    ScheduleDecides(q);
  }

  lemma WaitKeeps(s: State, me: Tid, n: Nid)
    requires Inv(s) && s.current == Some(me) && (s.N(n).bound.None? || s.N(n).bound == Some(me))
    ensures Decided(Wait(s, me, n))
  {
    hide Decided, Schedule;
    if s.N(n).word == 0 {
      BlockOnNotificationKeeps(s, me, n);
    } else {
      NewWordKeeps(s, n, 0);
      var s' := s.WithN(n, s.N(n).(word := 0));
      SameShapesKeep(s', SetResult(s', me, OK_TAG));
    }
  }

  lemma ResumeKeeps(s: State, me: Tid, t: Tid)
    requires Inv(s) && s.current == Some(me) && s.T(t).state == Runnable && s.T(t).runLink == Zeroed
    ensures Inv(ScheduleTcb(s, t))
  {
    hide QueuesOk, RunQueueOk;
    assert Shape(s.T(me), true, false) && Shape(s.T(t), s.current == Some(t), false);
    OffMeansNotQueued(s, t);
    MakeReady(s, ScheduleTcb(s, t), t);
  }

  lemma BindKeeps(s: State, t: Tid, n: Nid)
    requires Inv(s)
    ensures Inv(BindNotification(s, t, n))
  {
    hide Decided;
    if s.N(n).bound.None? {
      SameShapesKeep(s, BindNotification(s, t, n));
    }
  }

  lemma ResultKeeps(s: State, t: Tid, tag: Tag)
    requires Inv(s)
    ensures Inv(SetResult(s, t, tag))
  {
    hide Decided;
    SameShapesKeep(s, SetResult(s, t, tag));
  }

  lemma EnterKeeps(s: State, st: Step)
    requires Inv(s)
    ensures Inv(Enter(s, st))
  {
    hide Decided;
    if s.current.Some? {
      SameShapesKeep(s, Enter(s, st));
    }
  }

  // ----- The whole machine -----

  /** What the kernel relies on but does not check, at one entry of the thread `me`: a reply
      answers a thread waiting for one, a thread waits only on notifications not bound to another
      thread, and only threads that never ran are resumed. */
  predicate Sound(s: State, me: Tid, act: Action)
  {
    match act
    case DoReply => s.T(me).replyTo.Some? && Awaiting(s, s.T(me).replyTo.value)
    case DoReplyRecv(_) => s.T(me).replyTo.Some? && Awaiting(s, s.T(me).replyTo.value)
    case DoWait(n) => s.N(n).bound.None? || s.N(n).bound == Some(me)
    case Resume(t) => s.T(t).state == Runnable && s.T(t).runLink == Zeroed
    case _ => true
  }

  predicate SoundStep(s: State, st: Step)
  {
    s.current.Some? ==> Sound(s, s.current.value, st.act)
  }

  lemma ActKeeps(s: State, me: Tid, st: Step)
    requires Inv(s) && s.current == Some(me) && Sound(s, me, st.act)
    ensures Decided(Act(s, me, st))
  {
    hide Decided, Schedule, KillTcb, Send, Call, Recv, NbRecv, Reply, Signal, Wait, ScheduleTcb, BindNotification,
         SetResult, Awaiting;
    match st.act
    case Exit => ExitKeeps(s, me);
    case Yield => YieldKeeps(s, me);
    case DoSend(e, badge) => SendKeeps(s, me, e, badge, st.capsOk);
    case DoCall(e, badge) => CallKeeps(s, me, e, badge, st.capsOk);
    case DoRecv(e) => RecvKeeps(s, me, e, st.capsOk);
    case DoNbRecv(e) => NbRecvKeeps(s, me, e, st.capsOk);
    case DoReply =>
      ReplyKeeps(s, me, st.capsOk);
      ResultKeeps(Reply(s, me, st.capsOk), me, s.T(me).live.outgoing);
    case DoReplyRecv(e) =>
      ReplyKeeps(s, me, st.capsOk);
      RecvKeeps(Reply(s, me, st.capsOk), me, e, st.capsOk');
    case DoSignal(n, badge) => SignalKeeps(s, n, badge);
    case DoWait(n) => WaitKeeps(s, me, n);
    case Resume(t) =>
      ResumeKeeps(s, me, t);
      ResultKeeps(ScheduleTcb(s, t), me, OK_TAG);
    case Bind(t, n) =>
      BindKeeps(s, t, n);
      ResultKeeps(BindNotification(s, t, n), me, if s.N(n).bound.Some? then ILLEGAL_OPERATION_TAG else OK_TAG);
    case Irq(n, badge) => SignalKeeps(s, n, badge);
  }

  /** Every kernel entry keeps the invariant. */
  lemma NextKeeps(s: State, st: Step)
    requires Inv(s) && SoundStep(s, st)
    ensures Inv(Next(s, st))
  {
    hide Decided, Act, Signal, ReturnFromKernel;
    EnterKeeps(s, st);
    var s1 := Enter(s, st);
    match st.act
    case Irq(n, badge) =>
      SignalKeeps(s1, n, badge);
      ReturnKeeps(Signal(s1, n, badge));
    case _ =>
      if s1.current.Some? {
        ActKeeps(s1, s1.current.value, st);
        ReturnKeeps(Act(s1, s1.current.value, st));
      }
  }

  // ----- Runs -----

  function Run(s: State, steps: seq<Step>): State
    decreases |steps|
  {
    if steps == [] then s else Run(Next(s, steps[0]), steps[1..])
  }

  predicate SoundRun(s: State, steps: seq<Step>)
    decreases |steps|
  {
    steps == [] || (SoundStep(s, steps[0]) && SoundRun(Next(s, steps[0]), steps[1..]))
  }

  lemma {:induction false} RunKeeps(s: State, steps: seq<Step>)
    requires Inv(s) && SoundRun(s, steps)
    ensures Inv(Run(s, steps))
    decreases |steps|
  {
    hide Inv, Next;
    if steps != [] {
      NextKeeps(s, steps[0]);
      RunKeeps(Next(s, steps[0]), steps[1..]);
    }
  }

  /** The state in which the boot thread first runs. */
  function Boot(t: Tid): State
  {
    ReturnFromKernel(Schedule(ScheduleTcb(State(map[], [], map[], map[], None, None, false), t)))
  }

  lemma BootInv(t: Tid)
    ensures Inv(Boot(t))
  {
    var s := Boot(t);
    assert s.tcbs == map[t := ZERO_TCB.(state := Running, runLink := Alone)];
    assert s.runq == [] && s.current == s.returnTo == Some(t);
  }

  /** The places a thread can be in. */
  datatype Place = OnCpu | InRunQueue | AtEndpoint(e: Eid) | AtNotification(n: Nid) | AwaitingReply | NotStarted | Gone

  ghost predicate IsAt(s: State, t: Tid, p: Place)
  {
    match p
    case OnCpu => s.current == Some(t)
    case InRunQueue => t in s.runq
    case AtEndpoint(e) => t in s.E(e)
    case AtNotification(n) => t in s.N(n).queue
    case AwaitingReply => Awaiting(s, t)
    case NotStarted => s.T(t).state == Runnable && s.T(t).runLink == Zeroed
    case Gone => s.T(t).state == Dead
  }

  /** The states that fit a place. */
  predicate Fits(state: TaskState, p: Place)
  {
    match p
    case OnCpu => state == Running
    case InRunQueue => state == Runnable
    case AtEndpoint(_) => state in {Sending, Receiving, Calling}
    case AtNotification(_) => state == Receiving
    case AwaitingReply => state == Calling
    case NotStarted => state == Runnable
    case Gone => state == Dead
  }

  function PlaceOf(c: Tcb): Place
  {
    match c.state
    case Running => OnCpu
    case Runnable => if c.runLink == Queued then InRunQueue else NotStarted
    case Dead | Suspended => Gone
    case Sending | Receiving | Calling =>
      match c.sendLink
      case OnEndpoint(e) => AtEndpoint(e)
      case OnNotification(n) => AtNotification(n)
      case Off => AwaitingReply
  }

  /** In a state that keeps the invariant every thread is in exactly one place, and its state fits;
      no thread is idle-lost, and an idle CPU means nobody is ready. */
  lemma ExactlyOnePlace(s: State, t: Tid, p: Place)
    requires Inv(s)
    ensures IsAt(s, t, p) <==> p == PlaceOf(s.T(t))
    ensures Fits(s.T(t).state, PlaceOf(s.T(t)))
    ensures s.current.None? ==> s.runq == []
    ensures !s.panicked
  {
    assert Shape(s.T(t), s.current == Some(t), false);
    match p
    case AtEndpoint(e) => assert EndpointOk(s, e);
    case AtNotification(n) => assert NotificationOk(s, n);
    case _ =>
  }
}
