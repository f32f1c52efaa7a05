/** What each kernel entry does, seen from user mode: who runs, who has received what, and who waits where
    (kern/obj/endpoint.c, kern/obj/notification.c, kern/obj/tcb.c). */
module KernelOutcomes {
  import opened Wrappers
  import opened KernelState
  import opened KernelInv
  import opened KernelMessages
  import opened KernelHandover
  import opened KernelWakeups

  /** Only the queue of endpoint `e` has changed. */
  ghost predicate OnlyQueue(s: State, s': State, e: Eid, q: seq<Tid>)
  {
    s'.E(e) == q && forall d: Eid :: d != e ==> s'.E(d) == s.E(d)
  }

  /** The caller as the kernel finds it on entry; nothing else has changed. */
  lemma Entered(s: State, st: Step, me: Tid)
    requires Inv(s) && s.current == Some(me)
    ensures var s1 := Enter(s, st);
            && Inv(s1) && s1 == s.(tcbs := s1.tcbs) && s1.current == s1.returnTo == Some(me)
            && s1.T(me) == s.T(me).(live := st.user, buf := s.T(me).buf.(msg := st.msg))
            && forall t: Tid :: t != me ==> s1.T(t) == s.T(t)
  {
    EnterKeeps(s, st);
    hide Inv;
    InvReturns(s);
  }

  /** An entry that returns to the caller. */
  lemma Stays(s: State, st: Step, me: Tid)
    requires s.current == Some(me) && !st.act.Irq? && Act(Enter(s, st), me, st).returnTo == Some(me) && Enter(s, st).current == Some(me)
    ensures Next(s, st) == Act(Enter(s, st), me, st)
  {
    hide Act, Enter;
  }

  // ----- Receiving -----

  /** The message that the first thread in the queue of `e` waits with. */
  function FirstMessage(s: State, e: Eid): Waiting
    requires s.E(e) != []
  {
    var x := s.E(e)[0];
    Waiting(x, e, s.T(x).saved.outgoing, s.T(x).buf.msg, s.T(x).endpointBadge)
  }

  /** The first sender has left the queue of `e`: if it made a call it waits for the answer, which `me` can
      give, and otherwise it is the next to run. */
  ghost predicate TookFirst(s: State, s': State, me: Tid, e: Eid)
    requires s.E(e) != []
  {
    var x := s.E(e)[0];
    var c, owed := s.T(x), s.T(x).expectsReply;
    && s'.ntfns == s.ntfns && OnlyQueue(s, s', e, s.E(e)[1..])
    && s'.T(x) == (if owed then c.(sendLink := Off) else c.(sendLink := Off, state := Runnable, runLink := Queued))
    && s'.runq == (if owed then s.runq else [x] + s.runq)
    && s'.T(me).replyTo == (if owed then Some(x) else s.T(me).replyTo)
    && s'.T(me).state == s.T(me).state
    && forall t: Tid :: t != me && t != x ==> s'.T(t) == s.T(t)
  }

  lemma TakesFirst(s: State, me: Tid, e: Eid, capsOk: bool)
    requires Inv(s) && s.current == Some(me) && !RecvWillBlock(s, e)
    requires var w := FirstMessage(s, e); w.tag.length <= |w.msg| && w.tag.length <= |s.T(me).buf.msg|
    ensures var s' := ReceiveFromBlocked(s, me, e, capsOk);
            s'.returnTo == s.returnTo && TookFirst(s, s', me, e) && Received(s', me, FirstMessage(s, e), capsOk)
  {
    CurrentNotFirst(s, me, e);
    hide Inv, ReceiveFromBlocked;
    ReceivedFrom(s, me, e, capsOk);
    TakenQueues(s, me, e, capsOk);
  }

  lemma TakenQueues(s: State, me: Tid, e: Eid, capsOk: bool)
    requires !RecvWillBlock(s, e) && s.E(e)[0] != me
    ensures var s' := ReceiveFromBlocked(s, me, e, capsOk);
            OnlyQueue(s, s', e, s.E(e)[1..]) && s'.runq == (if s.T(s.E(e)[0]).expectsReply then s.runq else [s.E(e)[0]] + s.runq)
  {
    hide TransferMessage, PopEndpoint, Pending;
    var x, p := s.E(e)[0], PopEndpoint(s, e);
    Popped(s, e);
    TransferShapes(p, x, me, p.T(x).endpointBadge, Pending(p, x), capsOk);
  }

  /** A receive, blocking or not, with nothing signalled and a sender waiting, takes the message. */
  lemma ReceiveTakes(s: State, st: Step, e: Eid)
    requires Inv(s) && s.current.Some? && (st.act == DoRecv(e) || st.act == DoNbRecv(e))
    requires !PendingNotification(s, s.current.value) && !RecvWillBlock(s, e)
    requires var w := FirstMessage(s, e); w.tag.length <= |w.msg| && w.tag.length <= |st.msg|
    ensures var s' := Next(s, st);
            Received(s', s.current.value, FirstMessage(s, e), st.capsOk) && TookFirst(s, s', s.current.value, e)
  {
    var me, s1 := s.current.value, Enter(s, st);
    Entered(s, st, me);
    CurrentNotFirst(s, me, e);
    hide Inv, Enter, ReceiveFromBlocked;
    assert !PendingNotification(s1, me) && !RecvWillBlock(s1, e) && FirstMessage(s1, e) == FirstMessage(s, e);
    TakesFirst(s1, me, e, st.capsOk);
    Stays(s, st, me);
    TookSince(s, s1, Next(s, st), me, e);
  }

  lemma TookSince(s: State, s1: State, s': State, me: Tid, e: Eid)
    requires s1 == s.(tcbs := s1.tcbs) && s.E(e) != [] && s.E(e)[0] != me && TookFirst(s1, s', me, e)
    requires s1.T(me).replyTo == s.T(me).replyTo && s1.T(me).state == s.T(me).state && forall t: Tid :: t != me ==> s1.T(t) == s.T(t)
    ensures TookFirst(s, s', me, e)
  {
  }

  /** A reply joined with a receive: once the answer is given, the same holds for the receive. */
  lemma ReplyReceiveTakes(s: State, st: Step, e: Eid)
    requires Inv(s) && SoundStep(s, st) && s.current.Some? && st.act == DoReplyRecv(e)
    requires !PendingNotification(s, s.current.value) && !RecvWillBlock(s, e)
    requires var w := FirstMessage(s, e); w.tag.length <= |w.msg| && w.tag.length <= |st.msg|
    ensures var me := s.current.value;
            var r, s' := Reply(Enter(s, st), me, st.capsOk), Next(s, st);
            && r.E(e) == s.E(e) && Received(s', me, FirstMessage(s, e), st.capsOk') && TookFirst(r, s', me, e)
  {
    var me, s1 := s.current.value, Enter(s, st);
    Entered(s, st, me);
    CurrentNotFirst(s, me, e);
    EnteredAwaits(s, st, me);
    hide Inv, Enter, ReceiveFromBlocked, Reply, Awaiting;
    ReplyLeavesQueue(s1, me, e, st.capsOk);
    var r := Reply(s1, me, st.capsOk);
    ReplyKeeps(s1, me, st.capsOk);
    InvReturns(r);
    TakesFirst(r, me, e, st.capsOk');
    Stays(s, st, me);
  }

  lemma EnteredAwaits(s: State, st: Step, me: Tid)
    requires Inv(s) && s.current == Some(me) && Sound(s, me, st.act) && st.act.DoReplyRecv?
    ensures var s1 := Enter(s, st); s1.T(me).replyTo.Some? && Awaiting(s1, s1.T(me).replyTo.value)
  {
    RunningDoesNotAwait(s, me);
  }

  lemma AnsweredNotFirst(s: State, me: Tid, e: Eid, c: Tid)
    requires Inv(s) && s.current == Some(me) && Awaiting(s, c)
    ensures c != me && (s.E(e) != [] ==> s.E(e)[0] != c && s.E(e)[0] != me)
  {
    RunningDoesNotAwait(s, me);
    if s.E(e) != [] {
      FirstIsBlocked(s, e);
      CurrentNotFirst(s, me, e);
    }
  }

  /** The answered thread is in no queue, so a reply does not change what a receive finds. */
  lemma ReplyLeavesQueue(s: State, me: Tid, e: Eid, capsOk: bool)
    requires Inv(s) && s.current == Some(me) && s.T(me).replyTo.Some? && Awaiting(s, s.T(me).replyTo.value)
    ensures var r := Reply(s, me, capsOk);
            && r.E(e) == s.E(e) && (PendingNotification(r, me) <==> PendingNotification(s, me)) && (RecvWillBlock(r, e) <==> RecvWillBlock(s, e))
            && (s.E(e) != [] ==> FirstMessage(r, e) == FirstMessage(s, e)) && |r.T(me).buf.msg| == |s.T(me).buf.msg|
  {
    var c := s.T(me).replyTo.value;
    AnsweredNotFirst(s, me, e, c);
    hide Inv, TransferMessage;
    TransferShapes(s, me, c, 0, s.T(me).live.outgoing, capsOk);
  }

  /** The notification bound to `me` has been taken: the word is in the buffer, and nothing else has changed. */
  ghost predicate TookSignal(s: State, s': State, me: Tid, n: Nid)
  {
    && s'.current == Some(me) && s'.eps == s.eps && s'.runq == s.runq
    && s'.N(n) == s.N(n).(word := 0) && (forall m: Nid :: m != n ==> s'.N(m) == s.N(m))
    && s'.T(me).buf.senderBadge == s.N(n).word && s'.T(me).live.result == OK_TAG && s'.T(me).state == s.T(me).state
    && s'.T(me).replyTo == s.T(me).replyTo && forall t: Tid :: t != me ==> s'.T(t) == s.T(t)
  }

  /** A receive, blocking or not, takes a pending signal first. */
  lemma ReceiveTakesSignal(s: State, st: Step, e: Eid)
    requires Inv(s) && s.current.Some? && (st.act == DoRecv(e) || st.act == DoNbRecv(e)) && PendingNotification(s, s.current.value)
    ensures TookSignal(s, Next(s, st), s.current.value, s.T(s.current.value).bound.value)
  {
    var me, s1 := s.current.value, Enter(s, st);
    Entered(s, st, me);
    hide Inv, Enter;
    assert PendingNotification(s1, me);
    Stays(s, st, me);
  }

  /** A non-blocking receive that finds nothing succeeds and changes nothing else. */
  lemma ReceiveFindsNothing(s: State, st: Step, e: Eid)
    requires Inv(s) && s.current.Some? && st.act == DoNbRecv(e) && !PendingNotification(s, s.current.value) && RecvWillBlock(s, e)
    ensures var me, s1, s' := s.current.value, Enter(s, st), Next(s, st);
            s' == s1.(tcbs := s'.tcbs) && s'.T(me) == s1.T(me).(live := s1.T(me).live.(result := OK_TAG))
            && forall t: Tid :: t != me ==> s'.T(t) == s.T(t)
  {
    var me, s1 := s.current.value, Enter(s, st);
    Entered(s, st, me);
    BlocksStill(s, s1, me, e);
    hide Inv, Enter, RecvWillBlock;
    Stays(s, st, me);
  }

  lemma BlocksStill(s: State, s1: State, me: Tid, e: Eid)
    requires Inv(s) && s.current == Some(me) && s1.eps == s.eps && forall t: Tid :: t != me ==> s1.T(t) == s.T(t)
    ensures (RecvWillBlock(s1, e) <==> RecvWillBlock(s, e)) && (SendWillBlock(s1, e) <==> SendWillBlock(s, e))
  {
    if s.E(e) != [] {
      CurrentNotFirst(s, me, e);
    }
  }

  /** A receive blocks exactly when nobody waits to send, and a send when nobody waits to receive. */
  lemma BlocksIff(s: State, e: Eid)
    requires Inv(s)
    ensures RecvWillBlock(s, e) <==> forall t: Tid :: t in s.E(e) ==> s.T(t).state == Receiving
    ensures SendWillBlock(s, e) <==> forall t: Tid :: t in s.E(e) ==> s.T(t).state in {Sending, Calling}
  {
    assert EndpointOk(s, e);
    if s.E(e) != [] {
      FirstIsBlocked(s, e);
      assert s.E(e)[0] in s.E(e);
      forall t: Tid | t in s.E(e)
        ensures s.T(t).state in {Sending, Calling, Receiving}
      {
        assert Shape(s.T(t), s.current == Some(t), false);
      }
    }
  }

  // ----- Leaving the CPU -----

  /** The first ready thread runs, or nobody does; only `me` and that thread have changed. */
  ghost predicate GivesWay(s: State, s': State, me: Tid)
  {
    && (if s.runq == [] then s'.current.None? && s'.runq == []
        else s'.current == Some(s.runq[0]) && s'.runq == s.runq[1..]
             && s'.T(s.runq[0]) == s.T(s.runq[0]).(state := Running, runLink := Alone))
    && forall t: Tid :: t != me && (s.runq != [] ==> t != s.runq[0]) ==> s'.T(t) == s.T(t)
  }

  /** What schedule () and the return do when the current thread does not want to run on. */
  lemma Leaves(s: State, q: State, me: Tid)
    requires Inv(s) && q.current == Some(me) && q.runq == s.runq && q.T(me).state !in {Running, Runnable}
    requires Decided(Schedule(q)) && (forall t: Tid :: t != me ==> q.T(t) == s.T(t)) && me !in s.runq
    ensures var s' := ReturnFromKernel(Schedule(q));
            && GivesWay(s, s', me) && s'.eps == q.eps && s'.ntfns == q.ntfns
            && s'.T(me) == Parted(q.T(me))
  {
    if q.runq != [] {
      hide Inv, Decided;
      Picked(q);
      Switched(Schedule(q), q.runq[0]);
      hide Schedule, ReturnFromKernel;
    }
  }

  lemma NextIs(s: State, st: Step, me: Tid)
    requires s.current == Some(me) && !st.act.Irq?
    ensures Next(s, st) == ReturnFromKernel(Act(Enter(s, st), me, st))
  {
    hide Act, ReturnFromKernel;
  }

  /** The current thread has queued itself on `e`, as `q` says, and gives way. */
  lemma QueuedLeaves(s: State, q: State, me: Tid, e: Eid)
    requires Inv(s) && q.current == Some(me) && q.runq == s.runq && q.T(me).state !in {Running, Runnable, Dead}
    requires Decided(Schedule(q)) && (forall t: Tid :: t != me ==> q.T(t) == s.T(t)) && me !in s.runq
    requires OnlyQueue(s, q, e, [me] + s.E(e)) && q.ntfns == s.ntfns
    ensures var s' := ReturnFromKernel(Schedule(q));
            && GivesWay(s, s', me) && OnlyQueue(s, s', e, [me] + s.E(e)) && s'.ntfns == s.ntfns
            && s'.T(me) == q.T(me).(saved := q.T(me).live)
  {
    hide Inv, Decided, Schedule, ReturnFromKernel, GivesWay, OnlyQueue;
    Leaves(s, q, me);
    SameQueues(s, s, q, ReturnFromKernel(Schedule(q)), e, [me] + s.E(e));
  }

  /** A receive that finds nothing: the receiver waits first in the queue. */
  lemma ReceiveWaits(s: State, st: Step, e: Eid)
    requires Inv(s) && s.current.Some? && st.act == DoRecv(e) && !PendingNotification(s, s.current.value) && RecvWillBlock(s, e)
    ensures var me, s' := s.current.value, Next(s, st);
            && GivesWay(s, s', me) && OnlyQueue(s, s', e, [me] + s.E(e)) && s'.ntfns == s.ntfns
            && s'.T(me).state == Receiving && s'.T(me).sendLink == OnEndpoint(e)
  {
    var me, s1 := s.current.value, Enter(s, st);
    hide Inv, Enter, RecvWillBlock, Decided, Schedule, ReturnFromKernel, QueueOnEndpoint, GivesWay, OnlyQueue, Next;
    Entered(s, st, me);
    BlocksStill(s, s1, me, e);
    CurrentNotReady(s, me);
    NextIs(s, st, me);
    ActKeeps(s1, me, st);
    assert Act(s1, me, st) == Schedule(QueueOnEndpoint(s1, me, e, Receiving));
    hide Act;
    QueueEffect(s, s1, me, e, Receiving);
    QueuedLeaves(s, QueueOnEndpoint(s1, me, e, Receiving), me, e);
  }

  lemma QueueEffect(s: State, m: State, me: Tid, e: Eid, state: TaskState)
    requires m == s.(tcbs := m.tcbs) && forall t: Tid :: t != me ==> m.T(t) == s.T(t)
    ensures var q := QueueOnEndpoint(m, me, e, state);
            && q == s.(tcbs := q.tcbs, eps := q.eps) && OnlyQueue(s, q, e, [me] + s.E(e))
            && q.T(me) == m.T(me).(state := state, sendLink := OnEndpoint(e)) && forall t: Tid :: t != me ==> q.T(t) == s.T(t)
  {
    Enqueued(m, me, e, state);
    hide QueueOnEndpoint;
  }

  /** A send or call that nobody receives: the sender waits first in the queue. */
  lemma SendWaits(s: State, st: Step, e: Eid, badge: Word)
    requires Inv(s) && s.current.Some? && SendWillBlock(s, e) && (st.act == DoSend(e, badge) || st.act == DoCall(e, badge))
    ensures var me, s' := s.current.value, Next(s, st);
            && GivesWay(s, s', me) && OnlyQueue(s, s', e, [me] + s.E(e)) && s'.ntfns == s.ntfns
            && s'.T(me).state == (if st.act.DoCall? then Calling else Sending) && s'.T(me).sendLink == OnEndpoint(e)
            && s'.T(me).expectsReply == st.act.DoCall?
  {
    var me, s1, isCall := s.current.value, Enter(s, st), st.act.DoCall?;
    hide Inv, Enter, SendWillBlock, Decided, Schedule, ReturnFromKernel, QueueOnEndpoint, GivesWay, OnlyQueue, Next, Act, EndpointSend;
    Entered(s, st, me);
    CurrentNotReady(s, me);
    NextIs(s, st, me);
    ActKeeps(s1, me, st);
    ActSends(s1, me, st, e, badge);
    var m := Prepared(s1, me, isCall);
    PreparedIs(s, s1, me, isCall);
    RunningIs(s, me);
    EnteredQueue(s, st, m, me, e);
    hide Prepared, QueuedSender;
    SendQueues(m, me, e, badge, isCall, st.capsOk);
    SenderQueued(s, m, me, e, badge, if isCall then Calling else Sending);
    QueuedLeaves(s, QueuedSender(m, me, e, badge, if isCall then Calling else Sending), me, e);
  }

  function QueuedSender(m: State, me: Tid, e: Eid, badge: Word, state: TaskState): State
  {
    var q := QueueOnEndpoint(m, me, e, state);
    q.WithT(me, q.T(me).(endpointBadge := badge))
  }

  lemma SenderQueued(s: State, m: State, me: Tid, e: Eid, badge: Word, state: TaskState)
    requires m == s.(tcbs := m.tcbs) && forall t: Tid :: t != me ==> m.T(t) == s.T(t)
    ensures var q := QueuedSender(m, me, e, badge, state);
            && q == s.(tcbs := q.tcbs, eps := q.eps) && OnlyQueue(s, q, e, [me] + s.E(e))
            && q.T(me) == m.T(me).(state := state, sendLink := OnEndpoint(e), endpointBadge := badge)
            && forall t: Tid :: t != me ==> q.T(t) == s.T(t)
  {
    hide OnlyQueue, QueueOnEndpoint;
    QueueEffect(s, m, me, e, state);
    SameQueues(s, s, QueueOnEndpoint(m, me, e, state), QueuedSender(m, me, e, badge, state), e, [me] + s.E(e));
  }

  /** The caller or sender as endpoint_send finds it. */
  function Prepared(s: State, me: Tid, isCall: bool): State
  {
    if isCall then s.WithT(me, s.T(me).(expectsReply := true, state := Calling)) else s.WithT(me, s.T(me).(expectsReply := false))
  }

  lemma PreparedIs(s: State, s1: State, me: Tid, isCall: bool)
    requires s1 == s.(tcbs := s1.tcbs) && forall t: Tid :: t != me ==> s1.T(t) == s.T(t)
    ensures var m := Prepared(s1, me, isCall);
            && m == s.(tcbs := m.tcbs) && (forall t: Tid :: t != me ==> m.T(t) == s.T(t))
            && m.T(me) == s1.T(me).(expectsReply := isCall, state := if isCall then Calling else s1.T(me).state)
  {
  }

  lemma ActSends(s: State, me: Tid, st: Step, e: Eid, badge: Word)
    requires st.act == DoSend(e, badge) || st.act == DoCall(e, badge)
    ensures Act(s, me, st) == EndpointSend(Prepared(s, me, st.act.DoCall?), me, e, badge, st.act.DoCall?, st.capsOk)
  {
    hide EndpointSend;
  }

  lemma SendQueues(s: State, me: Tid, e: Eid, badge: Word, isCall: bool, capsOk: bool)
    requires SendWillBlock(s, e)
    ensures EndpointSend(s, me, e, badge, isCall, capsOk) == Schedule(QueuedSender(s, me, e, badge, if isCall then Calling else Sending))
  {
    hide Schedule, SendWillBlock;
  }

  lemma ExitEnds(s: State, st: Step)
    requires Inv(s) && s.current.Some? && st.act.Exit?
    ensures var me, s' := s.current.value, Next(s, st);
            GivesWay(s, s', me) && s'.eps == s.eps && s'.ntfns == s.ntfns && s'.T(me).state == Dead
  {
    var me, s1 := s.current.value, Enter(s, st);
    Entered(s, st, me);
    CurrentNotReady(s, me);
    ExitKeeps(s1, me);
    hide Inv, Enter, Decided, Schedule, ReturnFromKernel;
    Leaves(s, KillTcb(s1, me), me);
  }

  /** Yielding lets the first ready thread run and puts the caller in its place; without one it changes nothing. */
  lemma YieldGivesWay(s: State, st: Step)
    requires Inv(s) && s.current.Some? && st.act.Yield?
    ensures var me, s' := s.current.value, Next(s, st);
            if s.runq == [] then s' == Enter(s, st)
            else
              && s'.current == Some(s.runq[0]) && s'.runq == [me] + s.runq[1..] && s'.T(me).state == Runnable
              && s'.T(s.runq[0]).state == Running && s'.eps == s.eps && s'.ntfns == s.ntfns
  {
    var me, s1 := s.current.value, Enter(s, st);
    Entered(s, st, me);
    CurrentNotReady(s, me);
    RunningDoesNotAwait(s, me);
    YieldKeeps(s1, me);
    hide Inv, Enter;
    if s.runq != [] {
      Picked(s1);
      assert s.runq[0] in s.runq;
      Switched(Schedule(s1), s.runq[0]);
      hide Schedule, ReturnFromKernel, Decided;
    }
  }

  // ----- Sending to a thread that waits -----

  /** The receiver runs.  A caller then waits for its answer, and the receiver knows whom to answer; a sender is
      the next to run. */
  lemma SendHandsOver(s: State, st: Step, e: Eid, badge: Word)
    requires Inv(s) && s.current.Some? && !SendWillBlock(s, e) && (st.act == DoSend(e, badge) || st.act == DoCall(e, badge))
    ensures var me, r, isCall, s' := s.current.value, s.E(e)[0], st.act.DoCall?, Next(s, st);
            && s'.current == Some(r) && OnlyQueue(s, s', e, s.E(e)[1..]) && s'.ntfns == s.ntfns
            && s'.runq == (if isCall then s.runq else [me] + s.runq)
            && s'.T(me).state == (if isCall then Calling else Runnable) && s'.T(me).sendLink == Off && s'.T(me).expectsReply == isCall
            && s'.T(r).state == Running && s'.T(r).sendLink == Off
            && s'.T(r).replyTo == (if isCall then Some(me) else s.T(r).replyTo)
            && forall t: Tid :: t != me && t != r ==> s'.T(t) == s.T(t)
  {
    var me, r, isCall, s1 := s.current.value, s.E(e)[0], st.act.DoCall?, Enter(s, st);
    hide Inv, Enter, Decided, EndpointSend, ReturnFromKernel, Act, OnlyQueue, SendWillBlock, Next;
    Entered(s, st, me);
    CurrentNotFirst(s, me, e);
    RunningIs(s, me);
    NextIs(s, st, me);
    ActKeeps(s1, me, st);
    ActSends(s1, me, st, e, badge);
    var m := Prepared(s1, me, isCall);
    PreparedIs(s, s1, me, isCall);
    hide Prepared;
    StillSends(s, m, me, e);
    SendEffect(m, me, e, badge, isCall, st.capsOk);
    HandOverEffect(s, m, EndpointSend(m, me, e, badge, isCall, st.capsOk), me, r, e, isCall);
  }

  lemma StillSends(s: State, m: State, me: Tid, e: Eid)
    requires !SendWillBlock(s, e) && m.eps == s.eps && s.E(e)[0] != me && forall t: Tid :: t != me ==> m.T(t) == s.T(t)
    ensures m.E(e) == s.E(e) && !SendWillBlock(m, e)
  {
  }

  /** The switch to the receiver `r` that a sender `me` has handed its message. */
  lemma HandOverEffect(s: State, m: State, a: State, me: Tid, r: Tid, e: Eid, isCall: bool)
    requires Decided(a) && a.returnTo == Some(r) && a.current == Some(me) && me != r && s.E(e) != []
    requires m == s.(tcbs := m.tcbs) && a.runq == m.runq && a.ntfns == m.ntfns && OnlyQueue(m, a, e, m.E(e)[1..]) && m.E(e) == s.E(e)
    requires m.T(me).state == (if isCall then Calling else Running) && m.T(me).sendLink == Off && m.T(me).expectsReply == isCall
    requires (forall t: Tid :: t != me ==> m.T(t) == s.T(t)) && forall t: Tid :: t != r ==> a.T(t) == m.T(t)
    requires a.T(r).sendLink == Off && a.T(r).replyTo == (if m.T(me).expectsReply then Some(me) else m.T(r).replyTo)
    ensures var s' := ReturnFromKernel(a);
            && s'.current == Some(r) && OnlyQueue(s, s', e, s.E(e)[1..]) && s'.ntfns == s.ntfns
            && s'.runq == (if isCall then s.runq else [me] + s.runq)
            && s'.T(me).state == (if isCall then Calling else Runnable) && s'.T(me).sendLink == Off && s'.T(me).expectsReply == isCall
            && s'.T(r).state == Running && s'.T(r).sendLink == Off
            && s'.T(r).replyTo == (if isCall then Some(me) else s.T(r).replyTo)
            && forall t: Tid :: t != me && t != r ==> s'.T(t) == s.T(t)
  {
    hide Decided, ReturnFromKernel, OnlyQueue;
    Switched(a, r);
    SameQueues(s, m, a, ReturnFromKernel(a), e, s.E(e)[1..]);
  }

  lemma SameQueues(s: State, m: State, a: State, s': State, e: Eid, q: seq<Tid>)
    requires m.eps == s.eps && OnlyQueue(m, a, e, q) && s'.eps == a.eps
    ensures OnlyQueue(s, s', e, q)
  {
    assert forall d: Eid :: s'.E(d) == a.E(d) && m.E(d) == s.E(d);
  }

  lemma RunningIs(s: State, me: Tid)
    requires Inv(s) && s.current == Some(me)
    ensures s.T(me).state == Running && s.T(me).runLink == Alone && s.T(me).sendLink == Off
  {
    assert Shape(s.T(me), true, false);
  }

  lemma SendEffect(s: State, me: Tid, e: Eid, badge: Word, isCall: bool, capsOk: bool)
    requires !SendWillBlock(s, e) && s.E(e)[0] != me
    ensures var r, a := s.E(e)[0], EndpointSend(s, me, e, badge, isCall, capsOk);
            && a.returnTo == Some(r) && a.current == s.current && a.runq == s.runq && a.ntfns == s.ntfns && OnlyQueue(s, a, e, s.E(e)[1..])
            && a.T(r).state == Runnable && a.T(r).sendLink == Off
            && a.T(r).replyTo == (if s.T(me).expectsReply then Some(me) else s.T(r).replyTo)
            && forall t: Tid :: t != r ==> a.T(t) == s.T(t)
  {
    hide TransferMessage, PopEndpoint;
    Popped(s, e);
    TransferShapes(PopEndpoint(s, e), me, s.E(e)[0], badge, s.T(me).live.outgoing, capsOk);
  }

  // ----- Replies -----

  /** A reply makes the waiting caller the next to run, and the replying thread goes on. */
  lemma ReplyReadies(s: State, st: Step)
    requires Inv(s) && SoundStep(s, st) && s.current.Some? && st.act.DoReply?
    ensures var me, s' := s.current.value, Next(s, st);
            var c := s.T(me).replyTo.value;
            && c != me && s'.current == Some(me) && s'.runq == [c] + s.runq && s'.eps == s.eps && s'.ntfns == s.ntfns
            && s'.T(c).state == Runnable && s'.T(me).state == Running && s'.T(me).replyTo == s.T(me).replyTo
            && s'.T(me).live.result == st.user.outgoing
            && forall t: Tid :: t != me && t != c ==> s'.T(t) == s.T(t)
  {
    var me, s1 := s.current.value, Enter(s, st);
    hide Inv, Enter, Awaiting, Next, Act, Reply;
    Entered(s, st, me);
    RunningDoesNotAwait(s, me);
    SoundReply(s, st, me);
    var c := s.T(me).replyTo.value;
    ReplyEffect(s1, me, c, st.capsOk);
    ActReplies(s1, me, st);
    Stays(s, st, me);
  }

  lemma SoundReply(s: State, st: Step, me: Tid)
    requires s.current == Some(me) && SoundStep(s, st) && st.act.DoReply?
    ensures s.T(me).replyTo.Some? && Awaiting(s, s.T(me).replyTo.value)
  {
  }

  lemma ReplyEffect(s: State, me: Tid, c: Tid, capsOk: bool)
    requires c != me && s.T(me).replyTo == Some(c) && s.T(c).state == Calling
    ensures var r := Reply(s, me, capsOk);
            && r.returnTo == s.returnTo && r.current == s.current && r.runq == [c] + s.runq && r.eps == s.eps && r.ntfns == s.ntfns
            && r.T(c).state == Runnable && r.T(me) == s.T(me).(owes := None) && forall t: Tid :: t != me && t != c ==> r.T(t) == s.T(t)
  {
    hide TransferMessage;
    TransferShapes(s, me, c, 0, s.T(me).live.outgoing, capsOk);
  }

  lemma ActReplies(s: State, me: Tid, st: Step)
    requires st.act.DoReply?
    ensures var r, s' := Reply(s, me, st.capsOk), Act(s, me, st);
            && s' == r.(tcbs := s'.tcbs) && s'.T(me) == r.T(me).(saved := s'.T(me).saved, live := s'.T(me).live)
            && (r.current == Some(me) ==> s'.T(me).live.result == s.T(me).live.outgoing)
            && forall t: Tid :: t != me ==> s'.T(t) == r.T(t)
  {
    hide Reply;
  }

  // ----- Notifications -----

  /** Nobody is there to take the signal: its bits are added to the word, and the signaller goes on. */
  lemma SignalStays(s: State, st: Step, n: Nid, badge: Word)
    requires Inv(s) && s.current.Some? && st.act == DoSignal(n, badge) && !HasTaker(s, n)
    ensures Next(s, st) == Enter(s, st).WithN(n, s.N(n).(word := Or(s.N(n).word, badge)))
  {
    var me, s1 := s.current.value, Enter(s, st);
    Entered(s, st, me);
    NoNewTaker(s, s1, me, n);
    hide Inv, Enter, HasTaker, Signal, Or;
    SignalOutcome(s1, n, badge);
    Stays(s, st, me);
  }

  lemma NoNewTaker(s: State, s1: State, me: Tid, n: Nid)
    requires Inv(s) && s.current == Some(me) && s1.ntfns == s.ntfns
    requires s1.T(me).state == s.T(me).state && forall t: Tid :: t != me ==> s1.T(t) == s.T(t)
    ensures (HasTaker(s1, n) <==> HasTaker(s, n)) && (HasTaker(s, n) ==> Taker(s1, n) == Taker(s, n) != me)
  {
    RunningIs(s, me);
    if s.N(n).queue != [] {
      WaiterIsReceiving(s, n);
    }
  }

  /** The receiver `r` runs, its call has succeeded, and it has read all bits of the word, which is cleared. */
  ghost predicate Woke(s: State, s': State, n: Nid, badge: Word, r: Tid)
  {
    && s'.current == Some(r) && s'.N(n).word == 0 && s'.T(r).state == Running && s'.T(r).sendLink == Off
    && s'.T(r).buf == s.T(r).buf.(senderBadge := Or(s.N(n).word, badge)) && s'.T(r).saved.result == OK_TAG
    && (forall t: Tid :: t != r && s.current != Some(t) ==> s'.T(t) == s.T(t))
  }

  /** Somebody waits for the signal: that thread runs with it, and the signaller is the next to run. */
  lemma SignalWakes(s: State, st: Step, n: Nid, badge: Word)
    requires Inv(s) && s.current.Some? && st.act == DoSignal(n, badge) && HasTaker(s, n)
    ensures var me, s' := s.current.value, Next(s, st);
            Woke(s, s', n, badge, Taker(s, n)) && s'.runq == [me] + s.runq && s'.T(me).state == Runnable
  {
    var me, s1 := s.current.value, Enter(s, st);
    hide Inv, Enter, HasTaker, Taker, Signal, Or, Next, Decided, ReturnFromKernel, HandedTo;
    Entered(s, st, me);
    NoNewTaker(s, s1, me, n);
    RunningIs(s, me);
    SignalOutcome(s1, n, badge);
    SignalKeeps(s1, n, badge);
    NextIs(s, st, me);
    WakeEffect(s1, Signal(s1, n, badge), n, badge, Taker(s, n));
    SignalQueue(s1, n, badge);
  }

  /** So does an interrupt, from whichever thread it takes the CPU. */
  lemma InterruptWakes(s: State, st: Step, n: Nid, badge: Word)
    requires Inv(s) && st.act == Irq(n, badge) && HasTaker(s, n) && s.current != Some(Taker(s, n))
    ensures var s' := Next(s, st);
            Woke(s, s', n, badge, Taker(s, n)) && s'.runq == (if s.current.Some? then [s.current.value] else []) + s.runq
  {
    var s1 := Enter(s, st);
    EnterKeeps(s, st);
    if s.current.Some? {
      Entered(s, st, s.current.value);
      NoNewTaker(s, s1, s.current.value, n);
      RunningIs(s, s.current.value);
    }
    hide Inv, Enter, HasTaker, Taker, Signal, Or, Decided, ReturnFromKernel, HandedTo;
    SignalOutcome(s1, n, badge);
    SignalKeeps(s1, n, badge);
    WakeEffect(s1, Signal(s1, n, badge), n, badge, Taker(s, n));
    SignalQueue(s1, n, badge);
  }

  lemma WakeEffect(s: State, a: State, n: Nid, badge: Word, r: Tid)
    requires Decided(a) && HandedTo(s, a, n, badge, r) && a.current == s.current != Some(r)
    ensures var s' := ReturnFromKernel(a);
            && Woke(s, s', n, badge, r) && (s.current.Some? ==> s'.T(s.current.value) == Parted(s.T(s.current.value)))
            && s'.runq == (if s.current.Some? && s.T(s.current.value).state == Running then [s.current.value] else []) + a.runq
  {
    hide Decided, ReturnFromKernel, Or;
    Switched(a, r);
  }

  lemma SignalQueue(s: State, n: Nid, badge: Word)
    ensures Signal(s, n, badge).runq == s.runq
  {
    hide Unlink, WakeReceiver, Or;
    var x := s.N(n);
    var s0 := s.WithN(n, x.(word := 0));
    if x.queue == [] && x.bound.Some? && s.T(x.bound.value).state == Receiving {
      Unlinked(s0, x.bound.value);
      Woken(Unlink(s0, x.bound.value), x.bound.value, Or(x.word, badge));
    } else if x.queue != [] {
      Unlinked(s0, x.queue[0]);
      Woken(Unlink(s0, x.queue[0]), x.queue[0], Or(x.word, badge));
    }
  }

  /** A wait on a pending notification clears its word, succeeds and goes on. */
  lemma WaitTakes(s: State, st: Step, n: Nid)
    requires Inv(s) && SoundStep(s, st) && s.current.Some? && st.act == DoWait(n) && s.N(n).word != 0
    ensures var me, s1, s' := s.current.value, Enter(s, st), Next(s, st);
            && s' == s1.(tcbs := s'.tcbs, ntfns := s.ntfns[n := s.N(n).(word := 0)])
            && s'.T(me) == s1.T(me).(live := s1.T(me).live.(result := OK_TAG)) && forall t: Tid :: t != me ==> s'.T(t) == s.T(t)
  {
    var me, s1 := s.current.value, Enter(s, st);
    Entered(s, st, me);
    hide Inv, Enter;
    Stays(s, st, me);
  }

  /** A wait without one: the thread waits first in the queue. */
  lemma WaitWaits(s: State, st: Step, me: Tid, n: Nid)
    requires Inv(s) && SoundStep(s, st) && s.current == Some(me) && st.act == DoWait(n) && s.N(n).word == 0
    ensures var s' := Next(s, st);
            && GivesWay(s, s', me) && s'.eps == s.eps && s'.ntfns == s.ntfns[n := s.N(n).(queue := [me] + s.N(n).queue)]
            && s'.T(me).state == Receiving && s'.T(me).sendLink == OnNotification(n)
  {
    var s1 := Enter(s, st);
    hide Inv, Enter, Decided, Schedule, ReturnFromKernel, GivesWay, Next, Act, QueueOnNotification, Sound, SoundStep;
    Entered(s, st, me);
    CurrentNotReady(s, me);
    NextIs(s, st, me);
    SoundWait(s, s1, me, st, n);
    ActKeeps(s1, me, st);
    ActWaits(s1, me, st, n);
    NotificationQueued(s1, me, n);
    Leaves(s, QueueOnNotification(s1, me, n), me);
  }

  lemma SoundWait(s: State, s1: State, me: Tid, st: Step, n: Nid)
    requires s.current == Some(me) && SoundStep(s, st) && st.act == DoWait(n) && s1.ntfns == s.ntfns
    ensures Sound(s1, me, st.act)
  {
  }

  lemma ActWaits(s: State, me: Tid, st: Step, n: Nid)
    requires st.act == DoWait(n) && s.N(n).word == 0 && Sound(s, me, st.act)
    ensures Act(s, me, st) == Schedule(QueueOnNotification(s, me, n))
  {
    hide Schedule;
  }

  lemma NotificationQueued(s: State, me: Tid, n: Nid)
    ensures var q := QueueOnNotification(s, me, n);
            && q == s.(tcbs := q.tcbs, ntfns := s.ntfns[n := s.N(n).(queue := [me] + s.N(n).queue)])
            && q.T(me) == s.T(me).(state := Receiving, sendLink := OnNotification(n)) && forall t: Tid :: t != me ==> q.T(t) == s.T(t)
  {
  }

  // ----- Other threads -----

  /** A thread that never ran becomes the next to run. */
  lemma ResumeReadies(s: State, st: Step, t: Tid)
    requires Inv(s) && SoundStep(s, st) && s.current.Some? && st.act == Resume(t)
    ensures var me, s' := s.current.value, Next(s, st);
            && t != me && s'.current == Some(me) && s'.runq == [t] + s.runq && s'.eps == s.eps && s'.ntfns == s.ntfns
            && s'.T(t) == s.T(t).(state := Runnable, runLink := Queued) && s'.T(me).live.result == OK_TAG
            && s'.T(me).state == Running && forall u: Tid :: u != me && u != t ==> s'.T(u) == s.T(u)
  {
    var me, s1 := s.current.value, Enter(s, st);
    Entered(s, st, me);
    RunningIs(s, me);
    hide Inv, Enter;
    Stays(s, st, me);
  }

  /** A notification that is bound already stays as it is and the call is refused; otherwise thread and
      notification name each other. */
  lemma BindBinds(s: State, st: Step, t: Tid, n: Nid)
    requires Inv(s) && s.current.Some? && st.act == Bind(t, n)
    ensures var me, s' := s.current.value, Next(s, st);
            && s'.current == Some(me) && s'.runq == s.runq && s'.eps == s.eps
            && (forall m: Nid :: m != n ==> s'.N(m) == s.N(m)) && (forall u: Tid :: u != me && u != t ==> s'.T(u) == s.T(u))
            && if s.N(n).bound.Some? then s'.N(n) == s.N(n) && s'.T(t).bound == s.T(t).bound && s'.T(me).live.result == ILLEGAL_OPERATION_TAG
               else s'.N(n) == s.N(n).(bound := Some(t)) && s'.T(t).bound == Some(n) && s'.T(me).live.result == OK_TAG
  {
    var me, s1 := s.current.value, Enter(s, st);
    Entered(s, st, me);
    hide Inv, Enter;
    Stays(s, st, me);
  }

  // ----- Exit is for good -----

  lemma ReturnKeepsDead(a: State, t: Tid)
    requires Decided(a) && a.T(t).state == Dead
    ensures ReturnFromKernel(a).T(t).state == Dead
  {
    if a.returnTo != a.current && a.returnTo.Some? {
      assert Shape(a.T(a.returnTo.value), false, true);
      Switched(a, a.returnTo.value);
      hide Decided, ReturnFromKernel;
    }
  }

  lemma DeadIsGone(s: State, t: Tid)
    requires Inv(s) && s.T(t).state == Dead
    ensures s.current != Some(t) && Finished(s, t)
  {
    assert Shape(s.T(t), s.current == Some(t), false);
  }

  lemma NextKeepsDead(s: State, st: Step, t: Tid)
    requires Inv(s) && SoundStep(s, st) && s.T(t).state == Dead
    ensures Next(s, st).T(t).state == Dead
  {
    var s1 := Enter(s, st);
    DeadIsGone(s, t);
    EnterKeeps(s, st);
    EnterIsSound(s, st, t);
    hide Inv, Decided, Act, Signal, ReturnFromKernel, Sound, Enter;
    if st.act.Irq? {
      SignalKeeps(s1, st.act.n, st.act.badge);
      SignalKeepsMail(s1, st.act.n, st.act.badge, t);
      ReturnKeepsDead(Signal(s1, st.act.n, st.act.badge), t);
    } else if s1.current.Some? {
      var me := s1.current.value;
      ActKeeps(s1, me, st);
      ActKeepsMail(s1, me, st, t);
      ReturnKeepsDead(Act(s1, me, st), t);
    }
  }

  lemma EnterIsSound(s: State, st: Step, t: Tid)
    requires SoundStep(s, st) && s.current != Some(t)
    ensures var s1 := Enter(s, st);
            && s1.current == s.current && s1.runq == s.runq && s1.T(t) == s.T(t)
            && (s.current.Some? ==> Sound(s1, s.current.value, st.act))
  {
  }

  /** Over any run, a thread that has exited never runs again. */
  lemma {:induction false} DeadForever(s: State, steps: seq<Step>, t: Tid)
    requires Inv(s) && SoundRun(s, steps) && s.T(t).state == Dead
    ensures Run(s, steps).T(t).state == Dead && Run(s, steps).current != Some(t)
    decreases |steps|
  {
    hide Inv, Next, Sound;
    if steps == [] {
      DeadIsGone(s, t);
    } else {
      NextKeepsDead(s, steps[0], t);
      NextKeeps(s, steps[0]);
      DeadForever(Next(s, steps[0]), steps[1..], t);
    }
  }

  /** An interrupt for which nobody waits adds its bits to the word, and whoever ran goes on. */
  lemma InterruptStays(s: State, st: Step, n: Nid, badge: Word)
    requires Inv(s) && st.act == Irq(n, badge) && !HasTaker(s, n)
    ensures Next(s, st) == Enter(s, st).WithN(n, s.N(n).(word := Or(s.N(n).word, badge)))
  {
    var s1 := Enter(s, st);
    EnterKeeps(s, st);
    if s.current.Some? {
      Entered(s, st, s.current.value);
      NoNewTaker(s, s1, s.current.value, n);
    }
    InvReturns(s1);
    hide Inv, Enter, HasTaker, Signal, Or;
    SignalOutcome(s1, n, badge);
  }
}
