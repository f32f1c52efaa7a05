/** Message integrity: what a blocked sender wrote is what the receiver reads
    (kern/obj/endpoint.c, include/kern/ipc.h). */
module KernelMessages {
  import opened Wrappers
  import opened KernelState
  import opened KernelInv

  /** A message waiting to be received: who sent it, where, and what it says. */
  datatype Waiting = Waiting(sender: Tid, e: Eid, tag: Tag, msg: seq<Word>, badge: Word)

  /** The message `w` is still intact with its blocked sender. */
  predicate Intact(s: State, w: Waiting)
  {
    var c := s.T(w.sender);
    && c.state in {Sending, Calling} && c.sendLink == OnEndpoint(w.e) && s.current != Some(w.sender)
    && c.saved.outgoing == w.tag && c.buf.msg == w.msg && c.endpointBadge == w.badge
  }

  /** The tag a receiver sees: that of the sender, but the number of capabilities only if their slots are found. */
  function SeenTag(tag: Tag, capsOk: bool): Tag
  {
    Tag(tag.code, tag.capsUnwrapped, if capsOk then tag.extraCaps else 0, tag.length)
  }

  lemma Seen(tag: Tag, capsOk: bool)
    ensures DeliveredTag(tag, capsOk) == SeenTag(tag, capsOk)
  {
  }

  /** The current thread `r` has received `w`: the words, the badge and the tag. */
  predicate Received(s: State, r: Tid, w: Waiting, capsOk: bool)
  {
    && s.current == Some(r)
    && w.tag.length <= |s.T(r).buf.msg| && w.tag.length <= |w.msg|
    && s.T(r).buf.msg[..w.tag.length] == w.msg[..w.tag.length]
    && s.T(r).buf.senderBadge == w.badge
    && s.T(r).live.result == SeenTag(w.tag, capsOk)
  }

  lemma ScheduleStays(s: State, t: Tid)
    requires t !in s.runq
    ensures Schedule(s).T(t) == s.T(t)
  {
    if s.runq != [] {
      Picked(s);
    }
  }

  lemma ReturnStays(s: State, t: Tid)
    requires Decided(s) && s.current != Some(t) && s.T(t).state != Runnable
    ensures ReturnFromKernel(s).T(t) == s.T(t)
  {
    hide QueuesOk, RunQueueOk;
    if s.returnTo != s.current {
      if s.returnTo.Some? {
        assert Shape(s.T(s.returnTo.value), false, true);
        Switched(s, s.returnTo.value);
      }
    }
  }

  /** A thread that is blocked on an endpoint is on no other queue. */
  lemma BlockedIsApart(s: State, w: Waiting)
    requires Inv(s) && Intact(s, w)
    ensures w.sender !in s.runq && s.current != Some(w.sender) && !Awaiting(s, w.sender)
    ensures forall e: Eid :: s.E(e) != [] && s.E(e)[0] == w.sender ==> e == w.e
    ensures forall n: Nid :: w.sender !in s.N(n).queue
  {
    assert Shape(s.T(w.sender), false, false);
    forall e: Eid | s.E(e) != [] && s.E(e)[0] == w.sender
      ensures e == w.e
    {
      assert EndpointOk(s, e) && s.E(e)[0] in s.E(e);
    }
    forall n: Nid
      ensures w.sender !in s.N(n).queue
    {
      assert NotificationOk(s, n);
    }
  }

  /** The current thread gives up the CPU. */
  lemma LeaveStays(s: State, q: State, me: Tid, t: Tid)
    requires t != me && t !in s.runq && q.runq == s.runq && forall u: Tid :: u != me ==> q.T(u) == s.T(u)
    ensures Schedule(q).T(t) == s.T(t)
  {
    ScheduleStays(q, t);
  }

  lemma SendStays(s: State, me: Tid, e: Eid, badge: Word, isCall: bool, capsOk: bool, t: Tid)
    requires t != me && t !in s.runq && (SendWillBlock(s, e) || s.E(e)[0] != t)
    ensures EndpointSend(s, me, e, badge, isCall, capsOk).T(t) == s.T(t)
  {
    if SendWillBlock(s, e) {
      var q := QueueOnEndpoint(s, me, e, if isCall then Calling else Sending);
      LeaveStays(s, q.WithT(me, q.T(me).(endpointBadge := badge)), me, t);
    } else {
      hide TransferMessage;
      var p, r := PopEndpoint(s, e), s.E(e)[0];
      TransferShapes(p, me, r, badge, s.T(me).live.outgoing, capsOk);
    }
  }

  /** A receive either leaves the waiting message alone or delivers it. */
  lemma RecvDelivers(s: State, me: Tid, e: Eid, capsOk: bool, w: Waiting)
    requires Inv(s) && s.current == Some(me) && Intact(s, w) && w.tag.length <= |w.msg| <= |s.T(me).buf.msg|
    ensures var s' := Recv(s, me, e, capsOk);
            s'.T(w.sender) == s.T(w.sender) || (e == w.e && s'.returnTo == s.current && Received(s', me, w, capsOk))
    ensures var s' := NbRecv(s, me, e, capsOk);
            s'.T(w.sender) == s.T(w.sender) || (e == w.e && s'.returnTo == s.current && Received(s', me, w, capsOk))
  {
    hide Decided, ReceiveFromBlocked, Schedule;
    BlockedIsApart(s, w);
    if PendingNotification(s, me) {
    } else if RecvWillBlock(s, e) {
      LeaveStays(s, QueueOnEndpoint(s, me, e, Receiving), me, w.sender);
    } else {
      CurrentNotFirst(s, me, e);
      ReceivedFrom(s, me, e, capsOk);
    }
  }

  lemma SignalStays(s: State, n: Nid, badge: Word, w: Waiting)
    requires Inv(s) && Intact(s, w)
    ensures Signal(s, n, badge).T(w.sender) == s.T(w.sender)
  {
    hide Decided, Unlink, WakeReceiver, Or;
    BlockedIsApart(s, w);
    var x := s.N(n);
    var s0 := s.WithN(n, x.(word := 0));
    if x.queue == [] && x.bound.Some? && s.T(x.bound.value).state == Receiving {
      Unlinked(s0, x.bound.value);
      Woken(Unlink(s0, x.bound.value), x.bound.value, Or(x.word, badge));
    } else if x.queue != [] {
      assert x.queue[0] in x.queue;
      Unlinked(s0, x.queue[0]);
      Woken(Unlink(s0, x.queue[0]), x.queue[0], Or(x.word, badge));
    }
  }

  lemma ReplyStays(s: State, me: Tid, capsOk: bool, t: Tid)
    requires s.T(me).replyTo.Some? && Awaiting(s, s.T(me).replyTo.value)
    requires t != me && !Awaiting(s, t)
    ensures Reply(s, me, capsOk).T(t) == s.T(t)
    ensures me != s.T(me).replyTo.value ==> |Reply(s, me, capsOk).T(me).buf.msg| == |s.T(me).buf.msg|
  {
    hide TransferMessage;
    TransferShapes(s, me, s.T(me).replyTo.value, 0, s.T(me).live.outgoing, capsOk);
  }

  /** A receive action of the current thread on the endpoint where the message waits. */
  predicate Receives(act: Action, e: Eid)
  {
    act == DoRecv(e) || act == DoNbRecv(e) || act == DoReplyRecv(e)
  }

  /** Whether the slot lookups for the message received in this entry succeed; a reply goes first. */
  predicate Lookups(st: Step) { if st.act.DoReplyRecv? then st.capsOk' else st.capsOk }

  lemma SendActionStays(s: State, me: Tid, e: Eid, badge: Word, isCall: bool, capsOk: bool, w: Waiting)
    requires Inv(s) && s.current == Some(me) && Intact(s, w)
    ensures (if isCall then Call(s, me, e, badge, capsOk) else Send(s, me, e, badge, capsOk)).T(w.sender) == s.T(w.sender)
  {
    hide Decided, EndpointSend;
    BlockedIsApart(s, w);
    var m := if isCall then s.WithT(me, s.T(me).(expectsReply := true, state := Calling))
             else s.WithT(me, s.T(me).(expectsReply := false));
    SendStays(m, me, e, badge, isCall, capsOk, w.sender);
  }

  /** The reply leaves the waiting message alone; then the receive may deliver it. */
  lemma ReplyRecvDelivers(s: State, me: Tid, e: Eid, capsOk: bool, capsOk': bool, w: Waiting)
    requires Inv(s) && s.current == Some(me) && Intact(s, w) && w.tag.length <= |w.msg| <= |s.T(me).buf.msg|
    requires s.T(me).replyTo.Some? && Awaiting(s, s.T(me).replyTo.value)
    ensures var s' := ReplyRecv(s, me, e, capsOk, capsOk');
            s'.T(w.sender) == s.T(w.sender) || (e == w.e && s'.returnTo == s.current && Received(s', me, w, capsOk'))
  {
    hide Decided, Recv, Reply, Received;
    BlockedIsApart(s, w);
    RunningDoesNotAwait(s, me);
    ReplyStays(s, me, capsOk, w.sender);
    ReplyKeeps(s, me, capsOk);
    RecvDelivers(Reply(s, me, capsOk), me, e, capsOk', w);
  }

  lemma RunningDoesNotAwait(s: State, me: Tid)
    requires Inv(s) && s.current == Some(me)
    ensures s.T(me).state == Running && !Awaiting(s, me)
  {
    assert Shape(s.T(me), true, false);
  }

  lemma QuietActionStays(s: State, me: Tid, st: Step, w: Waiting)
    requires Intact(s, w) && s.current == Some(me) && Sound(s, me, st.act) && (st.act.Resume? || st.act.Bind?)
    ensures var s' := Act(s, me, st);
            s'.T(w.sender) == s.T(w.sender).(bound := s'.T(w.sender).bound)
  {
  }

  lemma WaitStays(s: State, me: Tid, n: Nid, w: Waiting)
    requires Inv(s) && Intact(s, w) && s.current == Some(me) && Sound(s, me, DoWait(n))
    ensures Wait(s, me, n).T(w.sender) == s.T(w.sender)
  {
    hide Decided, Schedule;
    BlockedIsApart(s, w);
    if s.N(n).word == 0 {
      LeaveStays(s, QueueOnNotification(s, me, n), me, w.sender);
    }
  }

  lemma ActDelivers(s: State, me: Tid, st: Step, w: Waiting)
    requires Inv(s) && s.current == Some(me) && Intact(s, w) && Sound(s, me, st.act)
    requires w.tag.length <= |w.msg| <= |s.T(me).buf.msg|
    ensures var s' := Act(s, me, st);
            || s'.T(w.sender) == s.T(w.sender).(bound := s'.T(w.sender).bound)
            || (Receives(st.act, w.e) && s'.returnTo == s.current && Received(s', me, w, Lookups(st)))
  {
    hide Decided, Schedule, Send, Call, Recv, NbRecv, Reply, ReplyRecv, Signal, Wait, Received, Awaiting,
         ScheduleTcb, BindNotification, Intact;
    BlockedIsApart(s, w);
    var t := w.sender;
    match st.act
    case Exit => LeaveStays(s, KillTcb(s, me), me, t);
    case Yield => ScheduleStays(s, t);
    case DoSend(e, badge) => SendActionStays(s, me, e, badge, false, st.capsOk, w);
    case DoCall(e, badge) => SendActionStays(s, me, e, badge, true, st.capsOk, w);
    case DoRecv(e) => RecvDelivers(s, me, e, st.capsOk, w);
    case DoNbRecv(e) => RecvDelivers(s, me, e, st.capsOk, w);
    case DoReply => ReplyStays(s, me, st.capsOk, t);
    case DoReplyRecv(e) => ReplyRecvDelivers(s, me, e, st.capsOk, st.capsOk', w);
    case DoSignal(n, badge) => SignalStays(s, n, badge, w);
    case DoWait(n) => WaitStays(s, me, n, w);
    case Resume(u) => QuietActionStays(s, me, st, w);
    case Bind(u, n) => QuietActionStays(s, me, st, w);
    case Irq(n, badge) => SignalStays(s, n, badge, w);
  }

  /** A thread that left the CPU has its registers saved. */
  lemma PartedSaves(s: State, me: Tid)
    requires Decided(s) && s.current == Some(me) && s.T(me).state in {Sending, Calling}
    ensures var s' := ReturnFromKernel(s); s'.T(me) == s.T(me).(saved := s.T(me).live) && s'.current != Some(me)
  {
    hide QueuesOk, RunQueueOk;
    assert Shape(s.T(me), true, false);
    if s.returnTo.Some? {
      Switched(s, s.returnTo.value);
    }
  }

  /** Blocking in send or call leaves the message with the sender exactly as the sender wrote it. */
  lemma BlockedSendIsIntact(s: State, st: Step, e: Eid, badge: Word)
    requires Inv(s) && s.current.Some? && SendWillBlock(s, e)
    requires st.act == DoSend(e, badge) || st.act == DoCall(e, badge)
    ensures Intact(Next(s, st), Waiting(s.current.value, e, st.user.outgoing, st.msg, badge))
  {
    hide Decided, Schedule, ReturnFromKernel;
    var me, s1 := s.current.value, Enter(s, st);
    EnterKeeps(s, st);
    RunningDoesNotAwait(s, me);
    var isCall := st.act.DoCall?;
    var m := if isCall then s1.WithT(me, s1.T(me).(expectsReply := true, state := Calling))
             else s1.WithT(me, s1.T(me).(expectsReply := false));
    EnteredQueue(s, st, m, me, e);
    var q := QueueOnEndpoint(m, me, e, if isCall then Calling else Sending);
    var q' := q.WithT(me, q.T(me).(endpointBadge := badge));
    CurrentNotReady(s, me);
    ScheduleStays(q', me);
    ActKeeps(s1, me, st);
    assert Act(s1, me, st) == Schedule(q');
    PartedSaves(Schedule(q'), me);
  }

  lemma EnteredQueue(s: State, st: Step, m: State, me: Tid, e: Eid)
    requires Inv(s) && s.current == Some(me) && SendWillBlock(s, e)
    requires m.eps == s.eps && forall t: Tid :: t != me ==> m.T(t) == s.T(t)
    ensures SendWillBlock(m, e)
  {
    if s.E(e) != [] {
      CurrentNotFirst(s, me, e);
    }
  }

  lemma CurrentNotReady(s: State, me: Tid)
    requires Inv(s) && s.current == Some(me)
    ensures me !in s.runq
  {
    assert Shape(s.T(me), true, false);
  }

  /** The current thread's receive has delivered `w`, with the lookups this entry made. */
  predicate Delivered(s: State, s': State, st: Step, w: Waiting)
  {
    Receives(st.act, w.e) && s.current.Some? && Received(s', s.current.value, w, Lookups(st))
  }

  lemma EnterIntact(s: State, st: Step, w: Waiting)
    requires Intact(s, w)
    ensures Intact(Enter(s, st), w) && Enter(s, st).current == s.current
    ensures s.current.Some? ==> Enter(s, st).T(s.current.value).buf.msg == st.msg
    ensures SoundStep(s, st) && s.current.Some? ==> Sound(Enter(s, st), s.current.value, st.act)
  {
  }

  lemma ActionDelivers(s: State, me: Tid, st: Step, w: Waiting)
    requires Inv(s) && s.current == Some(me) && Sound(s, me, st.act) && Intact(s, w)
    requires w.tag.length <= |w.msg| <= |s.T(me).buf.msg|
    ensures var s' := ReturnFromKernel(Act(s, me, st)); Intact(s', w) || Delivered(s, s', st, w)
  {
    hide Decided, Act, ReturnFromKernel, Received, Intact, Receives, Sound;
    var a := Act(s, me, st);
    ActDelivers(s, me, st, w);
    ActKeeps(s, me, st);
    if a.T(w.sender) == s.T(w.sender).(bound := a.T(w.sender).bound) {
      StillIntact(s, a, w);
    } else {
      ReturnsToCaller(a);
    }
  }

  /** One kernel entry leaves a waiting message intact, or is the receive that delivers it. */
  lemma NextDelivers(s: State, st: Step, w: Waiting)
    requires Inv(s) && SoundStep(s, st) && Intact(s, w)
    requires w.tag.length <= |w.msg| <= |st.msg|
    ensures Intact(Next(s, st), w) || Delivered(s, Next(s, st), st, w)
  {
    hide Inv, Act, Signal, ReturnFromKernel, Delivered, Intact, Sound, Enter;
    var s1 := Enter(s, st);
    EnterKeeps(s, st);
    EnterIntact(s, st, w);
    match st.act
    case Irq(n, badge) =>
      SignalStays(s1, n, badge, w);
      SignalKeeps(s1, n, badge);
      StillIntact(s1, Signal(s1, n, badge), w);
    case _ =>
      if s1.current.Some? {
        ActionDelivers(s1, s1.current.value, st, w);
        SameDelivery(s, s1, ReturnFromKernel(Act(s1, s1.current.value, st)), st, w);
      }
  }

  lemma SameDelivery(s: State, s1: State, s': State, st: Step, w: Waiting)
    requires s1.current == s.current
    ensures Delivered(s1, s', st, w) <==> Delivered(s, s', st, w)
  {
  }

  lemma ReturnsToCaller(s: State)
    requires s.returnTo == s.current
    ensures ReturnFromKernel(s) == s
  {
  }

  lemma StillIntact(s: State, a: State, w: Waiting)
    requires Intact(s, w) && Decided(a) && a.current == s.current
    requires a.T(w.sender) == s.T(w.sender).(bound := a.T(w.sender).bound)
    ensures Intact(ReturnFromKernel(a), w)
  {
    hide Decided, ReturnFromKernel;
    ReturnStays(a, w.sender);
    ReturnKeeps(a);
    BlockedNotCurrent(ReturnFromKernel(a), w.sender);
  }

  lemma BlockedNotCurrent(s: State, t: Tid)
    requires Inv(s) && s.T(t).state != Running
    ensures s.current != Some(t)
  {
  }

  /** Along a run, the message stays intact until a receive on its endpoint delivers it. */
  ghost predicate IntactUntilReceived(s: State, steps: seq<Step>, w: Waiting)
    decreases |steps|
  {
    && Intact(s, w)
    && (steps == [] ||
        Delivered(s, Next(s, steps[0]), steps[0], w) || IntactUntilReceived(Next(s, steps[0]), steps[1..], w))
  }

  lemma {:induction false} MessageIntegrity(s: State, steps: seq<Step>, w: Waiting)
    requires Inv(s) && SoundRun(s, steps) && Intact(s, w)
    requires w.tag.length <= |w.msg| == MESSAGE_MAX_LENGTH
    requires forall i :: 0 <= i < |steps| ==> |steps[i].msg| == MESSAGE_MAX_LENGTH
    ensures IntactUntilReceived(s, steps, w)
    decreases |steps|
  {
    hide Inv, Next, Intact, Delivered, Sound;
    if steps != [] {
      NextDelivers(s, steps[0], w);
      NextKeeps(s, steps[0]);
      if Intact(Next(s, steps[0]), w) {
        MessageIntegrity(Next(s, steps[0]), steps[1..], w);
      }
    }
  }
}
