/** No lost wakeup: a signal wakes a receiver or stays pending until a receive takes it
    (kern/obj/notification.c, kern/obj/endpoint.c). */
module KernelWakeups {
  import opened Wrappers
  import opened KernelState
  import opened KernelInv

  /** A pending word means nobody is waiting for it, and bindings are mutual. */
  ghost predicate WakeOk(s: State)
  {
    && (forall n: Nid :: s.N(n).word != 0 ==> s.N(n).queue == [])
    && (forall n: Nid :: s.N(n).word != 0 && s.N(n).bound.Some? ==> s.T(s.N(n).bound.value).state != Receiving)
    && (forall n: Nid, t: Tid :: s.N(n).bound == Some(t) <==> s.T(t).bound == Some(n))
  }

  /** Notifications and bindings are untouched and nobody starts to receive. */
  ghost predicate Calm(s: State, s': State)
  {
    && (forall n: Nid :: s'.N(n) == s.N(n))
    && (forall t: Tid :: s'.T(t).bound == s.T(t).bound && (s'.T(t).state == Receiving ==> s.T(t).state == Receiving))
  }

  lemma CalmKeeps(s: State, s': State)
    requires WakeOk(s) && Calm(s, s')
    ensures WakeOk(s')
  {
  }

  lemma CalmTrans(a: State, b: State, c: State)
    requires Calm(a, b) && Calm(b, c)
    ensures Calm(a, c)
  {
  }

  lemma ScheduleCalm(s: State)
    ensures Calm(s, Schedule(s))
  {
    if s.runq != [] {
      Picked(s);
    }
  }

  lemma ReturnCalm(s: State)
    requires Decided(s)
    ensures Calm(s, ReturnFromKernel(s))
  {
    hide QueuesOk, RunQueueOk, SwitchTcbActual;
    if s.returnTo != s.current && s.returnTo.Some? {
      Switched(s, s.returnTo.value);
    }
  }

  lemma UpdateCalm(s: State, t: Tid, c: Tcb)
    requires c.bound == s.T(t).bound && (c.state == Receiving ==> s.T(t).state == Receiving)
    ensures Calm(s, s.WithT(t, c))
  {
  }

  lemma PopCalm(s: State, e: Eid)
    requires s.E(e) != []
    ensures Calm(s, PopEndpoint(s, e))
  {
  }

  lemma TransferCalm(s: State, sender: Tid, receiver: Tid, badge: Word, tag: Tag, capsOk: bool)
    ensures Calm(s, TransferMessage(s, sender, receiver, badge, tag, capsOk))
  {
    hide TransferMessage, CopyWords, DeliveredTag;
    TransferShapes(s, sender, receiver, badge, tag, capsOk);
  }

  lemma SwitchCalm(s: State, t: Tid)
    ensures Calm(s, SwitchTcb(s, t))
  {
  }

  lemma DeliverCalm(s: State, me: Tid, e: Eid, badge: Word, isCall: bool, capsOk: bool)
    requires !SendWillBlock(s, e)
    ensures Calm(s, EndpointSend(s, me, e, badge, isCall, capsOk))
  {
    hide TransferMessage, PopEndpoint, SwitchTcb, Calm;
    var p, r := PopEndpoint(s, e), s.E(e)[0];
    PopCalm(s, e);
    var q := TransferMessage(p, me, r, badge, s.T(me).live.outgoing, capsOk);
    TransferCalm(p, me, r, badge, s.T(me).live.outgoing, capsOk);
    CalmTrans(s, p, q);
    if isCall {
      var o := q.WithT(r, q.T(r).(owes := Some(me)));
      UpdateCalm(q, r, q.T(r).(owes := Some(me)));
      CalmTrans(s, q, o);
      SwitchCalm(o, r);
      CalmTrans(s, o, SwitchTcb(o, r));
    } else {
      SwitchCalm(q, r);
      CalmTrans(s, q, SwitchTcb(q, r));
    }
  }

  lemma BlockCalm(s: State, me: Tid, e: Eid, badge: Word, state: TaskState)
    requires state == Calling || state == Sending
    ensures var q := QueueOnEndpoint(s, me, e, state); Calm(s, q.WithT(me, q.T(me).(endpointBadge := badge)))
  {
  }

  lemma EndpointSendCalm(s: State, me: Tid, e: Eid, badge: Word, isCall: bool, capsOk: bool)
    ensures Calm(s, EndpointSend(s, me, e, badge, isCall, capsOk))
  {
    hide Schedule, TransferMessage, Calm;
    if SendWillBlock(s, e) {
      var q := QueueOnEndpoint(s, me, e, if isCall then Calling else Sending);
      var q' := q.WithT(me, q.T(me).(endpointBadge := badge));
      BlockCalm(s, me, e, badge, if isCall then Calling else Sending);
      ScheduleCalm(q');
      CalmTrans(s, q', Schedule(q'));
    } else {
      DeliverCalm(s, me, e, badge, isCall, capsOk);
    }
  }

  lemma ReplyCalm(s: State, me: Tid, capsOk: bool)
    requires s.T(me).replyTo.Some? && Awaiting(s, s.T(me).replyTo.value)
    ensures Calm(s, Reply(s, me, capsOk))
  {
    hide TransferMessage, CopyWords, DeliveredTag;
    TransferShapes(s, me, s.T(me).replyTo.value, 0, s.T(me).live.outgoing, capsOk);
  }

  /** Thread `me`, with no signal pending for it, starts to receive. */
  lemma BlockingKeeps(s: State, s': State, me: Tid)
    requires WakeOk(s) && !PendingNotification(s, me)
    requires forall n: Nid :: s'.N(n).word == s.N(n).word && s'.N(n).bound == s.N(n).bound
    requires forall n: Nid :: s'.N(n).queue == s.N(n).queue || s.N(n).word == 0
    requires forall t: Tid :: s'.T(t).bound == s.T(t).bound
    requires forall t: Tid :: t != me && s'.T(t).state == Receiving ==> s.T(t).state == Receiving
    ensures WakeOk(s')
  {
  }

  /** The word of `n` is taken or handed over, and nobody starts to receive. */
  lemma ClearingKeeps(s: State, s': State, n: Nid)
    requires WakeOk(s) && s'.N(n).word == 0
    requires forall m: Nid :: m != n ==> s'.N(m).word == s.N(m).word && (s.N(m).queue == [] ==> s'.N(m).queue == [])
    requires forall m: Nid :: s'.N(m).bound == s.N(m).bound
    requires forall t: Tid :: s'.T(t).bound == s.T(t).bound
    requires forall t: Tid :: s'.T(t).state == Receiving ==> s.T(t).state == Receiving
    ensures WakeOk(s')
  {
  }

  lemma RecvBlockWakes(s: State, me: Tid, e: Eid)
    requires Inv(s) && s.current == Some(me) && WakeOk(s) && !PendingNotification(s, me)
    ensures WakeOk(Schedule(QueueOnEndpoint(s, me, e, Receiving)))
  {
    hide Decided, WakeOk, Schedule;
    var q := QueueOnEndpoint(s, me, e, Receiving);
    BlockingKeeps(s, q, me);
    ScheduleCalm(q);
    CalmKeeps(q, Schedule(q));
  }

  lemma RecvWakes(s: State, me: Tid, e: Eid, capsOk: bool)
    requires Inv(s) && s.current == Some(me) && WakeOk(s)
    ensures WakeOk(Recv(s, me, e, capsOk)) && WakeOk(NbRecv(s, me, e, capsOk))
  {
    hide Decided, WakeOk, Schedule, ReceiveFromBlocked;
    if PendingNotification(s, me) {
      ClearingKeeps(s, TakeNotification(s, me), s.T(me).bound.value);
    } else if RecvWillBlock(s, e) {
      RecvBlockWakes(s, me, e);
      CalmKeeps(s, SetResult(s, me, OK_TAG));
    } else {
      CurrentNotFirst(s, me, e);
      ReceivedFrom(s, me, e, capsOk);
      CalmKeeps(s, ReceiveFromBlocked(s, me, e, capsOk));
    }
  }

  // ----- Signals -----

  /** The signal has been handed, with every accumulated bit, to the receiver `r`, whose call succeeds. */
  ghost predicate HandedTo(s: State, s': State, n: Nid, badge: Word, r: Tid)
  {
    && s.T(r).state == Receiving && s'.N(n).word == 0 && s'.returnTo == Some(r)
    && s'.T(r) == s.T(r).(state := Runnable, sendLink := Off, saved := s'.T(r).saved, live := s'.T(r).live,
                          buf := s.T(r).buf.(senderBadge := Or(s.N(n).word, badge)))
    && (if s.current == Some(r) then s'.T(r).live.result else s'.T(r).saved.result) == OK_TAG
    && (forall t: Tid :: t != r ==> s'.T(t) == s.T(t))
  }

  /** Somebody is there to take a signal on `n`. */
  predicate HasTaker(s: State, n: Nid)
  {
    s.N(n).queue != [] || (s.N(n).bound.Some? && s.T(s.N(n).bound.value).state == Receiving)
  }

  function Taker(s: State, n: Nid): Tid
    requires HasTaker(s, n)
  {
    if s.N(n).queue != [] then s.N(n).queue[0] else s.N(n).bound.value
  }

  lemma HandsOver(s: State, n: Nid, r: Tid, badge: Word)
    requires s.T(r).state == Receiving
    ensures var s0 := s.WithN(n, s.N(n).(word := 0));
            HandedTo(s, WakeReceiver(Unlink(s0, r), r, Or(s.N(n).word, badge)), n, badge, r)
  {
    hide WakeReceiver, Or;
    var s0 := s.WithN(n, s.N(n).(word := 0));
    Unlinked(s0, r);
    Woken(Unlink(s0, r), r, Or(s.N(n).word, badge));
  }

  /** Each signal either wakes exactly one receiver with all accumulated bits, or stays in the word. */
  lemma SignalOutcome(s: State, n: Nid, badge: Word)
    requires Inv(s)
    ensures var s' := Signal(s, n, badge);
            if HasTaker(s, n) then HandedTo(s, s', n, badge, Taker(s, n))
            else s' == s.WithN(n, s.N(n).(word := Or(s.N(n).word, badge)))
  {
    hide Decided, WakeReceiver, Unlink, Or, HandedTo;
    if s.N(n).queue != [] {
      WaiterIsReceiving(s, n);
    }
    if HasTaker(s, n) {
      HandsOver(s, n, Taker(s, n), badge);
    }
  }

  lemma UnlinkEmpties(s: State, r: Tid, n: Nid)
    ensures s.N(n).queue == [] ==> Unlink(s, r).N(n).queue == []
    ensures Unlink(s, r).N(n).word == s.N(n).word && Unlink(s, r).N(n).bound == s.N(n).bound
  {
    assert Without([], r) == [];
    hide Without;
  }

  lemma HandOverWakes(s: State, n: Nid, r: Tid, badge: Word)
    requires WakeOk(s) && s.T(r).state == Receiving
    ensures WakeOk(WakeReceiver(Unlink(s.WithN(n, s.N(n).(word := 0)), r), r, badge))
  {
    hide WakeReceiver, Unlink, WakeOk;
    var s0 := s.WithN(n, s.N(n).(word := 0));
    var u := Unlink(s0, r);
    Unlinked(s0, r);
    Woken(u, r, badge);
    forall m: Nid
      ensures u.N(m).word == s0.N(m).word && u.N(m).bound == s0.N(m).bound
      ensures s0.N(m).queue == [] ==> u.N(m).queue == []
    {
      UnlinkEmpties(s0, r, m);
    }
    var s' := WakeReceiver(u, r, badge);
    assert forall m: Nid :: s'.N(m) == u.N(m) && (m != n ==> s0.N(m) == s.N(m));
    assert forall t: Tid :: s0.T(t) == s.T(t);
    ClearingKeeps(s, s', n);
  }

  lemma SignalWakes(s: State, n: Nid, badge: Word)
    requires Inv(s) && WakeOk(s)
    ensures WakeOk(Signal(s, n, badge))
  {
    hide Decided, WakeReceiver, Unlink, Or, WakeOk;
    if s.N(n).queue != [] {
      WaiterIsReceiving(s, n);
    }
    if HasTaker(s, n) {
      HandOverWakes(s, n, Taker(s, n), Or(s.N(n).word, badge));
    } else {
      PendingWakes(s, n, Or(s.N(n).word, badge));
    }
  }

  lemma PendingWakes(s: State, n: Nid, word: Word)
    requires WakeOk(s) && !HasTaker(s, n)
    ensures WakeOk(s.WithN(n, s.N(n).(word := word)))
  {
    var s' := s.WithN(n, s.N(n).(word := word));
    assert forall m: Nid :: s'.N(m) == if m == n then s.N(n).(word := word) else s.N(m);
    assert forall t: Tid :: s'.T(t) == s.T(t);
  }

  /** Binding keeps the invariant exactly when the thread is not bound yet and no pending word
      would be hidden from a thread that is already receiving. */
  lemma BindWakesIff(s: State, t: Tid, n: Nid)
    requires WakeOk(s) && s.N(n).bound.None?
    ensures WakeOk(BindNotification(s, t, n)) <==>
            s.T(t).bound.None? && !(s.N(n).word != 0 && s.T(t).state == Receiving)
  {
    var s' := BindNotification(s, t, n);
    assert s'.N(n).bound == Some(t) && s'.T(t).bound == Some(n) && s'.T(t).state == s.T(t).state;
    assert forall u: Tid :: u != t ==> s'.T(u) == s.T(u);
    assert forall m: Nid :: m != n ==> s'.N(m) == s.N(m);
    if s.T(t).bound.Some? {
      var m := s.T(t).bound.value;
      assert s.N(m).bound == Some(t) && m != n && s'.N(m).bound == Some(t);
    }
  }

  /** The assumptions: those of conservation, plus that a bound thread waits only on endpoints or its own
      notification, and is bound once, while no pending word would be hidden from it. */
  predicate Careful(s: State, me: Tid, act: Action)
  {
    && Sound(s, me, act)
    && match act
       case DoWait(n) => s.T(me).bound.None? || s.T(me).bound == Some(n)
       case Bind(t, n) => s.N(n).bound.Some? || (s.T(t).bound.None? && !(s.N(n).word != 0 && s.T(t).state == Receiving))
       case _ => true
  }

  lemma WaitWakes(s: State, me: Tid, n: Nid)
    requires Inv(s) && s.current == Some(me) && WakeOk(s) && Careful(s, me, DoWait(n))
    ensures WakeOk(Wait(s, me, n))
  {
    hide Decided, WakeOk, Schedule;
    if s.N(n).word == 0 {
      var q := QueueOnNotification(s, me, n);
      BlockingKeeps(s, q, me);
      ScheduleCalm(q);
      CalmKeeps(q, Schedule(q));
    } else {
      ClearingKeeps(s, Wait(s, me, n), n);
    }
  }

  lemma ExitWakes(s: State, me: Tid)
    requires WakeOk(s)
    ensures WakeOk(Schedule(KillTcb(s, me)))
  {
    hide WakeOk, Schedule;
    var k := KillTcb(s, me);
    ScheduleCalm(k);
    CalmTrans(s, k, Schedule(k));
    CalmKeeps(s, Schedule(k));
  }

  lemma ResumeWakes(s: State, me: Tid, t: Tid)
    requires WakeOk(s)
    ensures WakeOk(SetResult(ScheduleTcb(s, t), me, OK_TAG))
  {
    hide WakeOk;
    CalmKeeps(s, ScheduleTcb(s, t));
    ResultWakes(ScheduleTcb(s, t), me, OK_TAG);
  }

  lemma BindWakes(s: State, me: Tid, t: Tid, n: Nid, tag: Tag)
    requires WakeOk(s) && Careful(s, me, Bind(t, n))
    ensures WakeOk(SetResult(BindNotification(s, t, n), me, tag))
  {
    hide WakeOk;
    if s.N(n).bound.None? {
      BindWakesIff(s, t, n);
    }
    ResultWakes(BindNotification(s, t, n), me, tag);
  }

  lemma ActWakes(s: State, me: Tid, st: Step)
    requires Inv(s) && s.current == Some(me) && WakeOk(s) && Careful(s, me, st.act)
    ensures WakeOk(Act(s, me, st))
  {
    hide Decided, WakeOk, Schedule, EndpointSend, Recv, NbRecv, Reply, Signal, Wait, Awaiting, ScheduleTcb,
         BindNotification, SetResult, KillTcb;
    match st.act
    case Exit => ExitWakes(s, me);
    case Yield =>
      ScheduleCalm(s);
      CalmKeeps(s, Schedule(s));
    case DoSend(e, badge) => SendWakes(s, me, e, badge, false, st.capsOk);
    case DoCall(e, badge) => SendWakes(s, me, e, badge, true, st.capsOk);
    case DoRecv(e) => RecvWakes(s, me, e, st.capsOk);
    case DoNbRecv(e) => RecvWakes(s, me, e, st.capsOk);
    case DoReply =>
      var r := Reply(s, me, st.capsOk);
      ReplyCalm(s, me, st.capsOk);
      CalmKeeps(s, r);
      ResultWakes(r, me, s.T(me).live.outgoing);
    case DoReplyRecv(e) =>
      var r := Reply(s, me, st.capsOk);
      ReplyCalm(s, me, st.capsOk);
      CalmKeeps(s, r);
      ReplyKeeps(s, me, st.capsOk);
      RecvWakes(r, me, e, st.capsOk');
    case DoSignal(n, badge) => SignalWakes(s, n, badge);
    case DoWait(n) => WaitWakes(s, me, n);
    case Irq(n, badge) => SignalWakes(s, n, badge);
    case Resume(t) => ResumeWakes(s, me, t);
    case Bind(t, n) => BindWakes(s, me, t, n, if s.N(n).bound.Some? then ILLEGAL_OPERATION_TAG else OK_TAG);
  }

  lemma ResultWakes(s: State, t: Tid, tag: Tag)
    requires WakeOk(s)
    ensures WakeOk(SetResult(s, t, tag))
  {
    hide WakeOk;
    CalmKeeps(s, SetResult(s, t, tag));
  }

  lemma SendWakes(s: State, me: Tid, e: Eid, badge: Word, isCall: bool, capsOk: bool)
    requires WakeOk(s)
    ensures WakeOk(if isCall then Call(s, me, e, badge, capsOk) else Send(s, me, e, badge, capsOk))
  {
    hide WakeOk, EndpointSend;
    var m := if isCall then s.WithT(me, s.T(me).(expectsReply := true, state := Calling))
             else s.WithT(me, s.T(me).(expectsReply := false));
    CalmKeeps(s, m);
    EndpointSendCalm(m, me, e, badge, isCall, capsOk);
    CalmKeeps(m, EndpointSend(m, me, e, badge, isCall, capsOk));
  }

  /** Every careful kernel entry keeps the wakeup invariant. */
  lemma NextWakes(s: State, st: Step)
    requires Inv(s) && WakeOk(s) && (s.current.Some? ==> Careful(s, s.current.value, st.act))
    ensures Inv(Next(s, st)) && WakeOk(Next(s, st))
  {
    hide WakeOk, Decided, Act, Signal, ReturnFromKernel;
    var s1 := Enter(s, st);
    CalmKeeps(s, s1);
    EnterKeeps(s, st);
    match st.act
    case Irq(n, badge) =>
      SignalKeeps(s1, n, badge);
      SignalWakes(s1, n, badge);
      LeaveWakes(Signal(s1, n, badge));
    case _ =>
      if s1.current.Some? {
        var me := s1.current.value;
        ActKeeps(s1, me, st);
        ActWakes(s1, me, st);
        LeaveWakes(Act(s1, me, st));
      }
  }

  lemma LeaveWakes(s: State)
    requires Decided(s) && WakeOk(s)
    ensures Inv(ReturnFromKernel(s)) && WakeOk(ReturnFromKernel(s))
  {
    hide WakeOk, Decided, ReturnFromKernel;
    ReturnKeeps(s);
    ReturnCalm(s);
    CalmKeeps(s, ReturnFromKernel(s));
  }

  // ----- A pending signal stays until a receive takes it -----

  /** Every bit of `bits` is set in `word`. */
  predicate Has(word: Word, bits: Word) { word & bits == bits }

  lemma HasOr(word: Word, badge: Word, bits: Word)
    requires Has(word, bits)
    ensures Has(Or(word, badge), bits)
  {
  }

  lemma HasNonzero(word: Word, bits: Word)
    requires Has(word, bits) && bits != 0
    ensures word != 0
  {
  }

  /** The current thread has taken the pending word of `n` without blocking: the word is cleared, the
      call succeeds and the thread goes on.  It did so by a wait on `n`, or by a receive on an endpoint
      as the thread bound to `n`, which then reads the word. */
  ghost predicate Takes(s: State, s': State, act: Action, n: Nid)
  {
    && s.current.Some? && s'.current == s.current && s'.N(n).word == 0
    && var me := s.current.value;
       && s'.T(me).live.result == OK_TAG && s'.T(me).state == s.T(me).state
       && (|| act == DoWait(n)
           || (&& (act.DoRecv? || act.DoNbRecv? || act.DoReplyRecv?) && s.T(me).bound == Some(n)
               && s'.T(me).buf.senderBadge == s.N(n).word))
  }

  /** A receive by `me` has taken the word of `n`, to which it is bound. */
  predicate TookBound(s: State, s': State, me: Tid, n: Nid)
  {
    && s.T(me).bound == Some(n) && s'.T(me).buf.senderBadge == s.N(n).word && s'.N(n).word == 0
    && s'.returnTo == s.returnTo && s'.T(me).live.result == OK_TAG && s'.T(me).state == s.T(me).state
  }

  lemma RecvWord(s: State, me: Tid, e: Eid, capsOk: bool, n: Nid)
    requires Inv(s) && s.current == Some(me)
    ensures var s' := Recv(s, me, e, capsOk);
            s'.N(n).word == s.N(n).word || TookBound(s, s', me, n)
    ensures var s' := NbRecv(s, me, e, capsOk);
            s'.N(n).word == s.N(n).word || TookBound(s, s', me, n)
  {
    hide Decided, Schedule, ReceiveFromBlocked;
    if PendingNotification(s, me) {
    } else if RecvWillBlock(s, e) {
      ScheduleCalm(QueueOnEndpoint(s, me, e, Receiving));
    } else {
      CurrentNotFirst(s, me, e);
      ReceivedFrom(s, me, e, capsOk);
    }
  }

  lemma ReplyKeepsRunning(s: State, me: Tid, capsOk: bool)
    requires Inv(s) && s.current == Some(me) && s.T(me).replyTo.Some? && Awaiting(s, s.T(me).replyTo.value)
    ensures var s' := Reply(s, me, capsOk);
            s'.T(me).state == s.T(me).state && s'.T(me).bound == s.T(me).bound && s'.returnTo == s.returnTo
  {
    hide QueuesOk, RunQueueOk, TransferMessage;
    assert Shape(s.T(me), true, false);
    TransferShapes(s, me, s.T(me).replyTo.value, 0, s.T(me).live.outgoing, capsOk);
  }

  lemma ReplyRecvWord(s: State, me: Tid, e: Eid, capsOk: bool, capsOk': bool, n: Nid)
    requires Inv(s) && s.current == Some(me) && s.T(me).replyTo.Some? && Awaiting(s, s.T(me).replyTo.value)
    ensures var s' := ReplyRecv(s, me, e, capsOk, capsOk');
            s'.N(n).word == s.N(n).word || TookBound(s, s', me, n)
  {
    hide Decided, Recv, Reply;
    ReplyCalm(s, me, capsOk);
    ReplyKeeps(s, me, capsOk);
    ReplyKeepsRunning(s, me, capsOk);
    RecvWord(Reply(s, me, capsOk), me, e, capsOk', n);
  }

  lemma SignalWord(s: State, m: Nid, badge: Word, n: Nid)
    requires Inv(s) && WakeOk(s) && s.N(n).word != 0
    ensures var word := Signal(s, m, badge).N(n).word; word == s.N(n).word || (m == n && word == Or(s.N(n).word, badge))
  {
    hide Decided, Or, WakeReceiver, Unlink;
    if HasTaker(s, m) {
      var s0 := s.WithN(m, s.N(m).(word := 0));
      var r := Taker(s, m);
      var u := Unlink(s0, r);
      UnlinkEmpties(s0, r, n);
      Woken(u, r, Or(s.N(m).word, badge));
      assert WakeReceiver(u, r, Or(s.N(m).word, badge)).N(n) == u.N(n);
    }
  }

  /** What one action can do to a pending word. */
  lemma ActWord(s: State, me: Tid, st: Step, n: Nid)
    requires Inv(s) && s.current == Some(me) && WakeOk(s) && Careful(s, me, st.act) && s.N(n).word != 0
    ensures var s' := Act(s, me, st);
            || s'.N(n).word == s.N(n).word
            || (exists badge: Word :: s'.N(n).word == Or(s.N(n).word, badge))
            || (Takes(s, s', st.act, n) && s'.returnTo == s.current)
  {
    hide Decided, WakeOk, Schedule, EndpointSend, Recv, NbRecv, Reply, ReplyRecv, Signal, Awaiting, Or, Wait;
    match st.act
    case Exit => ScheduleCalm(KillTcb(s, me));
    case Yield => ScheduleCalm(s);
    case DoSend(e, badge) =>
      EndpointSendCalm(s.WithT(me, s.T(me).(expectsReply := false)), me, e, badge, false, st.capsOk);
    case DoCall(e, badge) =>
      EndpointSendCalm(s.WithT(me, s.T(me).(expectsReply := true, state := Calling)), me, e, badge, true, st.capsOk);
    case DoRecv(e) => RecvWord(s, me, e, st.capsOk, n);
    case DoNbRecv(e) => RecvWord(s, me, e, st.capsOk, n);
    case DoReply => ReplyCalm(s, me, st.capsOk);
    case DoReplyRecv(e) => ReplyRecvWord(s, me, e, st.capsOk, st.capsOk', n);
    case DoSignal(m, badge) => SignalWord(s, m, badge, n);
    case DoWait(m) => WaitWord(s, me, m, n);
    case Resume(t) =>
    case Bind(t, m) =>
    case Irq(m, badge) => SignalWord(s, m, badge, n);
  }

  lemma WaitWord(s: State, me: Tid, m: Nid, n: Nid)
    requires s.N(m).bound.None? || s.N(m).bound == Some(me)
    ensures m != n ==> Wait(s, me, m).N(n).word == s.N(n).word
    ensures s.N(m).word != 0 ==>
              var s' := Wait(s, me, m);
              s'.returnTo == s.returnTo && s'.N(m).word == 0 && s'.T(me).state == s.T(me).state
              && (s.current == Some(me) ==> s'.T(me).live.result == OK_TAG)
    ensures s.N(m).word == 0 ==> Wait(s, me, m).N(n).word == s.N(n).word
  {
    hide Schedule;
    ScheduleCalm(QueueOnNotification(s, me, m));
  }

  lemma ActionHolds(s: State, me: Tid, st: Step, n: Nid, bits: Word)
    requires Inv(s) && s.current == Some(me) && WakeOk(s) && Careful(s, me, st.act)
    requires Has(s.N(n).word, bits) && bits != 0
    ensures var s' := ReturnFromKernel(Act(s, me, st)); Has(s'.N(n).word, bits) || Takes(s, s', st.act, n)
  {
    hide Decided, WakeOk, Act, ReturnFromKernel, Takes, Has, Or, Careful;
    HasNonzero(s.N(n).word, bits);
    ActKeeps(s, me, st) by { CarefulIsSound(s, me, st.act); }
    ActWord(s, me, st, n);
    var a := Act(s, me, st);
    if a.N(n).word == s.N(n).word {
      ReturnCalm(a);
    } else if exists badge: Word :: a.N(n).word == Or(s.N(n).word, badge) {
      var badge: Word :| a.N(n).word == Or(s.N(n).word, badge);
      HasOr(s.N(n).word, badge, bits);
      ReturnCalm(a);
    } else {
      StaysHere(a);
    }
  }

  lemma CarefulIsSound(s: State, me: Tid, act: Action)
    requires Careful(s, me, act)
    ensures Sound(s, me, act)
  {
  }

  lemma StaysHere(s: State)
    requires s.returnTo == s.current
    ensures ReturnFromKernel(s) == s
  {
  }

  lemma InterruptHolds(s: State, m: Nid, badge: Word, n: Nid, bits: Word)
    requires Inv(s) && WakeOk(s) && Has(s.N(n).word, bits) && bits != 0
    ensures Has(ReturnFromKernel(Signal(s, m, badge)).N(n).word, bits)
  {
    hide Decided, WakeOk, Signal, ReturnFromKernel, Has, Or;
    HasNonzero(s.N(n).word, bits);
    SignalWord(s, m, badge, n);
    SignalKeeps(s, m, badge);
    HasOr(s.N(n).word, badge, bits);
    ReturnCalm(Signal(s, m, badge));
  }

  /** One kernel entry keeps every pending bit, or is the receive that takes the word. */
  lemma NextHolds(s: State, st: Step, n: Nid, bits: Word)
    requires Inv(s) && WakeOk(s) && (s.current.Some? ==> Careful(s, s.current.value, st.act))
    requires Has(s.N(n).word, bits) && bits != 0
    ensures Has(Next(s, st).N(n).word, bits) || Takes(s, Next(s, st), st.act, n)
  {
    hide Inv, WakeOk, Act, Signal, ReturnFromKernel, Has, Careful, Takes, Enter, EnteredAlike;
    var s1 := Enter(s, st);
    EnterKeeps(s, st);
    EnterCalm(s, st);
    if st.act.Irq? {
      InterruptHolds(s1, st.act.n, st.act.badge, n, bits);
    } else if s1.current.Some? {
      ActionHolds(s1, s1.current.value, st, n, bits);
      if Takes(s1, Next(s, st), st.act, n) {
        SameTakes(s, s1, Next(s, st), st.act, n);
      }
    }
  }

  /** Threads are bound and in the states they were in. */
  ghost predicate EnteredAlike(s: State, s1: State)
  {
    forall t: Tid :: s1.T(t).bound == s.T(t).bound && s1.T(t).state == s.T(t).state
  }

  lemma SameTakes(s: State, s1: State, s': State, act: Action, n: Nid)
    requires s1.current == s.current && s1.ntfns == s.ntfns && EnteredAlike(s, s1) && Takes(s1, s', act, n)
    ensures Takes(s, s', act, n)
  {
  }

  /** Entering the kernel changes nothing that wakeups depend on. */
  lemma EnterCalm(s: State, st: Step)
    requires WakeOk(s)
    ensures var s1 := Enter(s, st);
            && WakeOk(s1) && s1.current == s.current && s1.ntfns == s.ntfns && EnteredAlike(s, s1)
            && (s.current.Some? ==> (Careful(s, s.current.value, st.act) ==> Careful(s1, s.current.value, st.act)))
  {
    var s1 := Enter(s, st);
    assert EnteredAlike(s, s1) && s1.ntfns == s.ntfns && s1.eps == s.eps && s1.current == s.current;
    if s.current.Some? && Careful(s, s.current.value, st.act) {
      EnteredCareful(s, st);
    }
    hide Careful, Enter;
    CalmKeeps(s, s1);
  }

  lemma EnteredCareful(s: State, st: Step)
    requires s.current.Some? && Careful(s, s.current.value, st.act)
    ensures Careful(Enter(s, st), s.current.value, st.act)
  {
  }

  predicate CarefulRun(s: State, steps: seq<Step>)
    decreases |steps|
  {
    steps == [] ||
    ((s.current.Some? ==> Careful(s, s.current.value, steps[0].act)) && CarefulRun(Next(s, steps[0]), steps[1..]))
  }

  /** Along a run, the bits stay in the word of `n`, where nobody waits for them, until a receive takes them. */
  ghost predicate PendingUntilTaken(s: State, steps: seq<Step>, n: Nid, bits: Word)
    decreases |steps|
  {
    && Has(s.N(n).word, bits) && !HasTaker(s, n)
    && (steps == [] || Takes(s, Next(s, steps[0]), steps[0].act, n)
        || PendingUntilTaken(Next(s, steps[0]), steps[1..], n, bits))
  }

  lemma PendingHasNoTaker(s: State, n: Nid)
    requires WakeOk(s) && s.N(n).word != 0
    ensures !HasTaker(s, n)
  {
  }

  /** No wakeup is lost: over every careful run the invariant holds, and a pending signal is neither lost
      nor left behind while somebody waits for it. */
  lemma {:induction false} NoLostWakeup(s: State, steps: seq<Step>, n: Nid, bits: Word)
    requires Inv(s) && WakeOk(s) && CarefulRun(s, steps) && Has(s.N(n).word, bits) && bits != 0
    ensures PendingUntilTaken(s, steps, n, bits)
    decreases |steps|
  {
    hide Inv, WakeOk, Next, Has, Careful, Takes, HasTaker;
    HasNonzero(s.N(n).word, bits);
    PendingHasNoTaker(s, n);
    if steps != [] {
      NextHolds(s, steps[0], n, bits);
      NextWakes(s, steps[0]);
      if Has(Next(s, steps[0]).N(n).word, bits) {
        NoLostWakeup(Next(s, steps[0]), steps[1..], n, bits);
      }
    }
  }

  lemma {:induction false} CarefulRunsKeep(s: State, steps: seq<Step>)
    requires Inv(s) && WakeOk(s) && CarefulRun(s, steps)
    ensures Inv(Run(s, steps)) && WakeOk(Run(s, steps))
    decreases |steps|
  {
    hide Inv, WakeOk, Next, Careful;
    if steps != [] {
      NextWakes(s, steps[0]);
      CarefulRunsKeep(Next(s, steps[0]), steps[1..]);
    }
  }

  lemma BootWakes(t: Tid)
    ensures Inv(Boot(t)) && WakeOk(Boot(t))
  {
    hide Inv;
    BootInv(t);
    var s := Boot(t);
    assert s.tcbs == map[t := ZERO_TCB.(state := Running, runLink := Alone)] && s.ntfns == map[];
  }
}
