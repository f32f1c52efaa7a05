/** One reply per received call: what a server must do so that its replies always reach a
    thread that waits for one (kern/obj/endpoint.c). */
module KernelReply {
  import opened Wrappers
  import opened KernelState
  import opened KernelInv

  /** The caller a thread owes a reply to is the one reply_to names and is still waiting, and no
      two threads owe a reply to the same caller. */
  ghost predicate OwedOk(s: State)
  {
    && (forall t: Tid :: s.T(t).owes.Some? ==>
          s.T(t).replyTo == s.T(t).owes && Awaiting(s, s.T(t).owes.value))
    && (forall t: Tid, u: Tid :: t != u && s.T(t).owes.Some? ==> s.T(t).owes != s.T(u).owes)
  }

  /** No debt appears, disappears or is redirected, and whoever waits for a reply still does. */
  ghost predicate Quiet(s: State, s': State)
  {
    forall t: Tid ::
      && s'.T(t).owes == s.T(t).owes && s'.T(t).replyTo == s.T(t).replyTo
      && (Awaiting(s, t) ==> Awaiting(s', t))
  }

  lemma QuietKeeps(s: State, s': State)
    requires OwedOk(s) && Quiet(s, s')
    ensures OwedOk(s')
  {
  }

  /** Ready threads do not wait for replies. */
  ghost predicate ReadyIsReady(s: State)
  {
    forall t: Tid :: t in s.runq ==> s.T(t).state != Calling
  }

  lemma InvReady(s: State)
    requires Inv(s)
    ensures ReadyIsReady(s)
  {
    forall t: Tid | t in s.runq
      ensures s.T(t).state != Calling
    {
      assert Shape(s.T(t), s.current == Some(t), false);
    }
  }

  lemma ScheduleQuiet(s: State)
    requires ReadyIsReady(s)
    ensures Quiet(s, Schedule(s))
  {
    if s.runq != [] {
      Picked(s);
      assert s.runq[0] in s.runq;
    }
  }

  lemma ReturnQuiet(s: State)
    requires Decided(s)
    ensures Quiet(s, ReturnFromKernel(s))
  {
    hide QueuesOk, RunQueueOk;
    if s.returnTo != s.current {
      if s.returnTo.Some? {
        assert Shape(s.T(s.returnTo.value), false, true);
        Switched(s, s.returnTo.value);
        hide ReturnFromKernel, Decided;
        assert forall t: Tid :: Awaiting(s, t) ==> Some(t) != s.returnTo;
      }
    }
  }

  /** Queueing the current thread and scheduling another. */
  lemma QueueQuiet(s: State, q: State, me: Tid)
    requires Inv(s) && s.current == Some(me) && q.runq == s.runq
    requires forall t: Tid :: t != me ==> q.T(t) == s.T(t)
    requires q.T(me).owes == s.T(me).owes && q.T(me).replyTo == s.T(me).replyTo
    ensures Quiet(s, Schedule(q))
  {
    hide QueuesOk, Schedule;
    assert Shape(s.T(me), true, false);
    InvReady(s);
    assert me !in s.runq;
    ScheduleQuiet(q);
    assert Quiet(s, q);
  }

  /** Thread `r` takes a call from `x`. */
  lemma NewDebt(s: State, s': State, r: Tid, x: Tid)
    requires OwedOk(s) && !Awaiting(s, x)
    requires s'.T(r).owes == s'.T(r).replyTo == Some(x) && Awaiting(s', x)
    requires forall t: Tid :: t != r ==> s'.T(t).owes == s.T(t).owes && s'.T(t).replyTo == s.T(t).replyTo
    requires forall t: Tid :: Awaiting(s, t) ==> Awaiting(s', t)
    ensures OwedOk(s')
  {
  }

  /** A message that goes straight to a receiver changes only the receiver. */
  lemma Delivered(s: State, me: Tid, e: Eid, badge: Word, isCall: bool, capsOk: bool)
    requires !SendWillBlock(s, e) && s.E(e)[0] != me
    ensures var r, s' := s.E(e)[0], EndpointSend(s, me, e, badge, isCall, capsOk);
            && (forall t: Tid :: t != r ==> s'.T(t) == s.T(t))
            && s'.T(r).replyTo == (if s.T(me).expectsReply then Some(me) else s.T(r).replyTo)
            && s'.T(r).owes == (if isCall then Some(me) else s.T(r).owes) && s'.T(r).state == Runnable
  {
    hide TransferMessage;
    var p, r := PopEndpoint(s, e), s.E(e)[0];
    assert p.T(r) == s.T(r).(sendLink := Off) && forall t: Tid :: t != r ==> p.T(t) == s.T(t);
    hide PopEndpoint;
    TransferShapes(p, me, r, badge, s.T(me).live.outgoing, capsOk);
  }

  lemma EndpointSendOwes(s: State, me: Tid, e: Eid, badge: Word, isCall: bool, capsOk: bool)
    requires AboutToSend(s, me, isCall) && !SendWillBlock(s, e) && OwedOk(s)
    requires forall t: Tid :: s.T(t).owes != Some(me)
    ensures OwedOk(EndpointSend(s, me, e, badge, isCall, capsOk))
  {
    hide QueuesOk, RunQueueOk, EndpointSend;
    var r, s' := s.E(e)[0], EndpointSend(s, me, e, badge, isCall, capsOk);
    FirstIsBlocked(s, e);
    assert r != me && s.T(r).state == Receiving;
    Delivered(s, me, e, badge, isCall, capsOk);
    if isCall {
      assert s'.T(r).owes == s'.T(r).replyTo == Some(me);
    } else {
      assert Quiet(s, s');
    }
  }

  /** The thread's state when endpoint_send is entered. */
  function Marked(s: State, me: Tid, isCall: bool): State
  {
    if isCall then s.WithT(me, s.T(me).(expectsReply := true, state := Calling))
    else s.WithT(me, s.T(me).(expectsReply := false))
  }

  lemma BlockedSendOwes(s: State, me: Tid, e: Eid, badge: Word, isCall: bool, capsOk: bool)
    requires Inv(s) && s.current == Some(me) && OwedOk(s) && SendWillBlock(Marked(s, me, isCall), e)
    ensures OwedOk(EndpointSend(Marked(s, me, isCall), me, e, badge, isCall, capsOk))
  {
    hide Decided, OwedOk, Schedule, SendWillBlock;
    var m := Marked(s, me, isCall);
    var q := QueueOnEndpoint(m, me, e, if isCall then Calling else Sending);
    var q' := q.WithT(me, q.T(me).(endpointBadge := badge));
    QueueQuiet(s, q', me);
    QuietKeeps(s, Schedule(q'));
  }

  lemma SendOwes(s: State, me: Tid, e: Eid, badge: Word, isCall: bool, capsOk: bool)
    requires Inv(s) && s.current == Some(me) && OwedOk(s)
    ensures OwedOk(EndpointSend(Marked(s, me, isCall), me, e, badge, isCall, capsOk))
  {
    hide QueuesOk, OwedOk, SendWillBlock, EndpointSend;
    var m := Marked(s, me, isCall);
    if SendWillBlock(m, e) {
      BlockedSendOwes(s, me, e, badge, isCall, capsOk);
    } else {
      assert Shape(s.T(me), true, false);
      KeepQueues(s, m);
      assert Quiet(s, m);
      QuietKeeps(s, m);
      NobodyOwesRunning(s, me);
      EndpointSendOwes(m, me, e, badge, isCall, capsOk);
    }
  }

  lemma NobodyOwesRunning(s: State, me: Tid)
    requires OwedOk(s) && s.T(me).state == Running
    ensures forall t: Tid :: s.T(t).owes != Some(me)
  {
  }

  lemma ReceiveOwes(s: State, me: Tid, e: Eid, capsOk: bool)
    requires Inv(s) && s.current == Some(me) && !RecvWillBlock(s, e) && OwedOk(s)
    ensures OwedOk(ReceiveFromBlocked(s, me, e, capsOk))
  {
    hide QueuesOk, RunQueueOk, ReceiveFromBlocked;
    var x, s' := s.E(e)[0], ReceiveFromBlocked(s, me, e, capsOk);
    FirstIsBlocked(s, e);
    assert Shape(s.T(me), true, false) && Shape(s.T(x), false, false) && x != me;
    ReceivedFrom(s, me, e, capsOk);
    if s.T(x).expectsReply {
      NewDebt(s, s', me, x);
    } else {
      assert Quiet(s, s');
    }
  }

  lemma RecvOwes(s: State, me: Tid, e: Eid, capsOk: bool)
    requires Inv(s) && s.current == Some(me) && OwedOk(s)
    ensures OwedOk(Recv(s, me, e, capsOk)) && OwedOk(NbRecv(s, me, e, capsOk))
  {
    hide QueuesOk, RunQueueOk, OwedOk, Schedule;
    if PendingNotification(s, me) {
      QuietKeeps(s, TakeNotification(s, me));
    } else if RecvWillBlock(s, e) {
      var q := QueueOnEndpoint(s, me, e, Receiving);
      QueueQuiet(s, q, me);
      QuietKeeps(s, Schedule(q));
      QuietKeeps(s, SetResult(s, me, OK_TAG));
    } else {
      ReceiveOwes(s, me, e, capsOk);
    }
  }

  /** A reply to the owed caller keeps every other debt, unless the replier still has its own
      expects_reply flag set from an earlier call and the caller owes a reply itself: then the
      caller's reply_to is overwritten. */
  lemma ReplyOwesIff(s: State, me: Tid, capsOk: bool)
    requires Inv(s) && s.current == Some(me) && OwedOk(s) && s.T(me).owes.Some?
    ensures OwedOk(Reply(s, me, capsOk)) <==> !(s.T(me).expectsReply && s.T(s.T(me).owes.value).owes.Some?)
  {
    hide QueuesOk, RunQueueOk, CopyWords, DeliveredTag;
    var c, s' := s.T(me).owes.value, Reply(s, me, capsOk);
    assert Shape(s.T(me), true, false) && Awaiting(s, c) && c != me;
    NobodyOwesRunning(s, me);
    assert s'.T(me) == s.T(me).(owes := None);
    assert s'.T(c).owes == s.T(c).owes && !Awaiting(s', c);
    assert s'.T(c).replyTo == if s.T(me).expectsReply then Some(me) else s.T(c).replyTo;
    assert forall t: Tid :: t != me && t != c ==> s'.T(t) == s.T(t);
  }

  /** Every thread that waits for a reply is named by the reply_to of some thread that can give it. */
  ghost predicate NobodyForgotten(s: State)
  {
    forall z: Tid :: Awaiting(s, z) ==> Remembered(s, z)
  }

  ghost predicate Remembered(s: State, z: Tid) { exists t: Tid :: s.T(t).replyTo == Some(z) }

  /** The reply to `c` by `me` overwrites the only reply_to that names another waiting thread. */
  ghost predicate Overwrites(s: State, me: Tid, c: Tid)
  {
    && s.T(me).expectsReply && s.T(c).replyTo.Some?
    && var z := s.T(c).replyTo.value;
       z != c && Awaiting(s, z) && forall t: Tid :: t != c ==> s.T(t).replyTo != Some(z)
  }

  /** A reply leaves nobody forgotten exactly unless the replier's own expects_reply flag, set by its last
      call, makes it overwrite the only reply_to that names a waiting thread. */
  lemma ReplyForgetsIff(s: State, me: Tid, capsOk: bool)
    requires Inv(s) && s.current == Some(me) && s.T(me).replyTo.Some? && Awaiting(s, s.T(me).replyTo.value) && NobodyForgotten(s)
    ensures NobodyForgotten(Reply(s, me, capsOk)) <==> !Overwrites(s, me, s.T(me).replyTo.value)
  {
    var c, s' := s.T(me).replyTo.value, Reply(s, me, capsOk);
    assert Shape(s.T(me), true, false);
    ReplyEffect(s, me, c, capsOk);
    hide Inv, Reply;
    if Overwrites(s, me, c) {
      var z := s.T(c).replyTo.value;
      assert Awaiting(s', z) && !Remembered(s', z);
    } else {
      forall z: Tid | Awaiting(s', z)
        ensures Remembered(s', z)
      {
        assert Awaiting(s, z) && z != c && Remembered(s, z);
        if !(exists t: Tid :: t != c && s.T(t).replyTo == Some(z)) {
          assert s.T(c).replyTo == Some(z);
          assert s'.T(c).replyTo == Some(z);
        } else {
          var t: Tid :| t != c && s.T(t).replyTo == Some(z);
          assert s'.T(t).replyTo == Some(z);
        }
      }
    }
  }

  lemma ReplyEffect(s: State, me: Tid, c: Tid, capsOk: bool)
    requires s.T(me).replyTo == Some(c) && s.T(c).state == Calling && c != me
    ensures var s' := Reply(s, me, capsOk);
            && s'.T(c).state == Runnable && s'.T(c).replyTo == (if s.T(me).expectsReply then Some(me) else s.T(c).replyTo)
            && forall t: Tid :: t != c ==> s'.T(t).replyTo == s.T(t).replyTo && (Awaiting(s', t) <==> Awaiting(s, t))
  {
    hide TransferMessage;
    TransferShapes(s, me, c, 0, s.T(me).live.outgoing, capsOk);
  }

  lemma WakeQuiet(s: State, s0: State, r: Tid, badge: Word)
    requires s0.tcbs == s.tcbs && s.T(r).state == Receiving
    ensures Quiet(s, WakeReceiver(Unlink(s0, r), r, badge))
  {
    hide Unlink, WakeReceiver;
    Unlinked(s0, r);
    Woken(Unlink(s0, r), r, badge);
  }

  lemma SignalQuiet(s: State, n: Nid, badge: Word)
    requires Inv(s)
    ensures Quiet(s, Signal(s, n, badge))
  {
    hide Decided, Or, Unlink, WakeReceiver, Quiet;
    var x := s.N(n);
    var s0 := s.WithN(n, x.(word := 0));
    if x.queue == [] && x.bound.Some? && s.T(x.bound.value).state == Receiving {
      WakeQuiet(s, s0, x.bound.value, Or(x.word, badge));
    } else if x.queue != [] {
      WaiterIsReceiving(s, n);
      WakeQuiet(s, s0, x.queue[0], Or(x.word, badge));
    } else {
      SameThreadsQuiet(s, Signal(s, n, badge));
    }
  }

  lemma SameThreadsQuiet(s: State, s': State)
    requires s'.tcbs == s.tcbs
    ensures Quiet(s, s')
  {
  }

  /** What a server has to do: answer a call it received and has not answered, and not while its
      own expects_reply flag would overwrite a debt of the caller. */
  predicate Disciplined(s: State, me: Tid, act: Action)
  {
    match act
    case DoReply => s.T(me).owes.Some? && !(s.T(me).expectsReply && s.T(s.T(me).owes.value).owes.Some?)
    case DoReplyRecv(_) => s.T(me).owes.Some? && !(s.T(me).expectsReply && s.T(s.T(me).owes.value).owes.Some?)
    case _ => Sound(s, me, act)
  }

  lemma DisciplinedIsSound(s: State, me: Tid, act: Action)
    requires OwedOk(s) && Disciplined(s, me, act)
    ensures Sound(s, me, act)
  {
  }

  lemma ActOwes(s: State, me: Tid, st: Step)
    requires Inv(s) && s.current == Some(me) && OwedOk(s) && Disciplined(s, me, st.act)
    ensures OwedOk(Act(s, me, st))
  {
    hide OwedOk, Decided, Schedule, KillTcb, EndpointSend, Recv, NbRecv, Reply, Signal, Wait, SetResult,
         BindNotification, ScheduleTcb, Awaiting;
    match st.act
    case Exit => ExitOwes(s, me);
    case Yield =>
      InvReady(s);
      ScheduleQuiet(s);
      QuietKeeps(s, Schedule(s));
    case DoSend(e, badge) => SendOwes(s, me, e, badge, false, st.capsOk);
    case DoCall(e, badge) => SendOwes(s, me, e, badge, true, st.capsOk);
    case DoRecv(e) => RecvOwes(s, me, e, st.capsOk);
    case DoNbRecv(e) => RecvOwes(s, me, e, st.capsOk);
    case DoReply =>
      ReplyOwesIff(s, me, st.capsOk);
      ResultOwes(Reply(s, me, st.capsOk), me, s.T(me).live.outgoing);
    case DoReplyRecv(e) =>
      ReplyOwesIff(s, me, st.capsOk);
      DisciplinedIsSound(s, me, st.act);
      ReplyKeeps(s, me, st.capsOk);
      RecvOwes(Reply(s, me, st.capsOk), me, e, st.capsOk');
    case DoSignal(n, badge) =>
      SignalQuiet(s, n, badge);
      QuietKeeps(s, Signal(s, n, badge));
    case DoWait(n) => WaitOwes(s, me, n);
    case Resume(t) => ResumeOwes(s, me, t);
    case Bind(t, n) => BindOwes(s, me, t, n);
    case Irq(n, badge) =>
      SignalQuiet(s, n, badge);
      QuietKeeps(s, Signal(s, n, badge));
  }

  lemma ResultOwes(s: State, t: Tid, tag: Tag)
    requires OwedOk(s)
    ensures OwedOk(SetResult(s, t, tag))
  {
    QuietKeeps(s, SetResult(s, t, tag));
  }

  lemma ResumeOwes(s: State, me: Tid, t: Tid)
    requires OwedOk(s) && s.T(t).state == Runnable
    ensures OwedOk(SetResult(ScheduleTcb(s, t), me, OK_TAG))
  {
    hide OwedOk;
    QuietKeeps(s, ScheduleTcb(s, t));
    ResultOwes(ScheduleTcb(s, t), me, OK_TAG);
  }

  lemma BindOwes(s: State, me: Tid, t: Tid, n: Nid)
    requires OwedOk(s)
    ensures OwedOk(SetResult(BindNotification(s, t, n), me, if s.N(n).bound.Some? then ILLEGAL_OPERATION_TAG else OK_TAG))
  {
    hide OwedOk;
    QuietKeeps(s, BindNotification(s, t, n));
    ResultOwes(BindNotification(s, t, n), me, if s.N(n).bound.Some? then ILLEGAL_OPERATION_TAG else OK_TAG);
  }

  lemma ExitOwes(s: State, me: Tid)
    requires Inv(s) && s.current == Some(me) && OwedOk(s)
    ensures OwedOk(Schedule(KillTcb(s, me)))
  {
    hide Decided, OwedOk, Schedule;
    QueueQuiet(s, KillTcb(s, me), me);
    QuietKeeps(s, Schedule(KillTcb(s, me)));
  }

  lemma WaitOwes(s: State, me: Tid, n: Nid)
    requires Inv(s) && s.current == Some(me) && OwedOk(s) && (s.N(n).bound.None? || s.N(n).bound == Some(me))
    ensures OwedOk(Wait(s, me, n))
  {
    hide Decided, OwedOk, Schedule;
    if s.N(n).word == 0 {
      var q := QueueOnNotification(s, me, n);
      QueueQuiet(s, q, me);
      QuietKeeps(s, Schedule(q));
    } else {
      QuietKeeps(s, Wait(s, me, n));
    }
  }

  /** Under the discipline every kernel entry keeps both invariants. */
  lemma NextOwes(s: State, st: Step)
    requires Inv(s) && OwedOk(s) && (s.current.Some? ==> Disciplined(s, s.current.value, st.act))
    ensures Inv(Next(s, st)) && OwedOk(Next(s, st))
  {
    hide OwedOk, Decided, Act, Signal, ReturnFromKernel;
    var s1 := Enter(s, st);
    QuietKeeps(s, s1);
    EnterKeeps(s, st);
    match st.act
    case Irq(n, badge) =>
      SignalKeeps(s1, n, badge);
      SignalQuiet(s1, n, badge);
      QuietKeeps(s1, Signal(s1, n, badge));
      Leave(Signal(s1, n, badge));
    case _ =>
      if s1.current.Some? {
        var me := s1.current.value;
        DisciplinedIsSound(s1, me, st.act);
        ActKeeps(s1, me, st);
        ActOwes(s1, me, st);
        Leave(Act(s1, me, st));
      }
  }

  lemma Leave(s: State)
    requires Decided(s) && OwedOk(s)
    ensures Inv(ReturnFromKernel(s)) && OwedOk(ReturnFromKernel(s))
  {
    hide OwedOk, Decided, ReturnFromKernel;
    ReturnKeeps(s);
    ReturnQuiet(s);
    QuietKeeps(s, ReturnFromKernel(s));
  }

  predicate DisciplinedRun(s: State, steps: seq<Step>)
    decreases |steps|
  {
    steps == [] ||
    ((s.current.Some? ==> Disciplined(s, s.current.value, steps[0].act)) && DisciplinedRun(Next(s, steps[0]), steps[1..]))
  }

  /** From boot, over every disciplined run: conservation holds, and every reply finds a thread that
      waits for it. */
  lemma {:induction false} DisciplinedRunsKeep(s: State, steps: seq<Step>)
    requires Inv(s) && OwedOk(s) && DisciplinedRun(s, steps)
    ensures Inv(Run(s, steps)) && OwedOk(Run(s, steps)) && SoundRun(s, steps)
    decreases |steps|
  {
    hide Inv, OwedOk, Next, Disciplined, Sound;
    if steps != [] {
      if s.current.Some? {
        DisciplinedIsSound(s, s.current.value, steps[0].act);
      }
      NextOwes(s, steps[0]);
      DisciplinedRunsKeep(Next(s, steps[0]), steps[1..]);
    }
  }

  lemma BootOwes(t: Tid)
    ensures Inv(Boot(t)) && OwedOk(Boot(t))
  {
    hide Inv;
    BootInv(t);
    assert Boot(t).tcbs == map[t := ZERO_TCB.(state := Running, runLink := Alone)];
  }
}
