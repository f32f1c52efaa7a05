/** What a thread has been sent stays with it until it runs: a message handed to a waiting receiver, or the
    answer to a caller (kern/obj/endpoint.c, kern/obj/tcb.c, include/kern/ipc.h). */
module KernelHandover {
  import opened Wrappers
  import opened KernelState
  import opened KernelInv
  import opened KernelMessages

  /** What waits for the thread `receiver`: the tag in its saved frame and the contents of its buffer. */
  datatype Mail = Mail(receiver: Tid, result: Tag, buf: Buffer)

  /** The receiver is ready but does not run yet, and the mail is there. */
  predicate Held(s: State, m: Mail)
  {
    var c := s.T(m.receiver);
    s.current != Some(m.receiver) && c.state == Runnable && c.saved.result == m.result && c.buf == m.buf
  }

  /** The receiver runs, from its saved frame, with the mail as it was. */
  predicate RunsWith(s: State, m: Mail)
  {
    var c := s.T(m.receiver);
    s.current == Some(m.receiver) && c.state == Running && c.saved.result == m.result && c.buf == m.buf
  }

  /** The thread's mail is as it was; if ready it is still ready, and if dead still dead. */
  predicate Keeps(s: State, s': State, t: Tid)
  {
    && s'.T(t).saved == s.T(t).saved && s'.T(t).buf == s.T(t).buf
    && (s.T(t).state == Runnable ==> s'.T(t).state == Runnable)
    && (Finished(s, t) ==> Finished(s', t))
  }

  /** The thread is dead and not ready. */
  predicate Finished(s: State, t: Tid) { s.T(t).state == Dead && t !in s.runq }

  predicate Idle(s: State, t: Tid) { s.T(t).state == Runnable || Finished(s, t) }

  lemma ScheduleKeeps(s: State, t: Tid)
    ensures Keeps(s, Schedule(s), t)
  {
    if s.runq != [] {
      Picked(s);
    }
  }

  /** The current thread queues itself, or dies, and gives up the CPU. */
  lemma LeavingKeeps(s: State, q: State, me: Tid, t: Tid)
    requires t != me && q.runq == s.runq && forall u: Tid :: u != me ==> q.T(u) == s.T(u)
    ensures Keeps(s, Schedule(q), t)
  {
    ScheduleKeeps(q, t);
    hide Schedule;
  }

  lemma EndpointSendKeepsMail(s: State, me: Tid, e: Eid, badge: Word, isCall: bool, capsOk: bool, t: Tid)
    requires t != me && (SendWillBlock(s, e) || s.E(e)[0] != t)
    ensures Keeps(s, EndpointSend(s, me, e, badge, isCall, capsOk), t)
  {
    hide Schedule, TransferMessage, QueueOnEndpoint, PopEndpoint;
    if SendWillBlock(s, e) {
      var q := QueueOnEndpoint(s, me, e, if isCall then Calling else Sending);
      Enqueued(s, me, e, if isCall then Calling else Sending);
      LeavingKeeps(s, q.WithT(me, q.T(me).(endpointBadge := badge)), me, t);
    } else {
      Popped(s, e);
      TransferShapes(PopEndpoint(s, e), me, s.E(e)[0], badge, s.T(me).live.outgoing, capsOk);
    }
  }

  lemma SendKeepsMail(s: State, me: Tid, e: Eid, badge: Word, isCall: bool, capsOk: bool, t: Tid)
    requires t != me && Idle(s, t) && FirstBlocked(s, e)
    ensures Keeps(s, if isCall then Call(s, me, e, badge, capsOk) else Send(s, me, e, badge, capsOk), t)
  {
    hide EndpointSend;
    var m := if isCall then s.WithT(me, s.T(me).(expectsReply := true, state := Calling))
             else s.WithT(me, s.T(me).(expectsReply := false));
    EndpointSendKeepsMail(m, me, e, badge, isCall, capsOk, t);
  }

  /** The first thread of an endpoint queue is not ready. */
  predicate FirstBlocked(s: State, e: Eid) { s.E(e) == [] || s.T(s.E(e)[0]).state !in {Runnable, Dead} }

  lemma FirstsBlocked(s: State, e: Eid, n: Nid)
    requires Inv(s)
    ensures FirstBlocked(s, e) && (s.N(n).queue == [] || s.T(s.N(n).queue[0]).state !in {Runnable, Dead})
  {
    if s.E(e) != [] {
      FirstIsBlocked(s, e);
    }
    if s.N(n).queue != [] {
      var t := s.N(n).queue[0];
      assert NotificationOk(s, n) && t in s.N(n).queue;
      assert Shape(s.T(t), s.current == Some(t), false);
    }
  }

  lemma RecvKeepsMail(s: State, me: Tid, e: Eid, capsOk: bool, t: Tid)
    requires t != me && (Finished(s, t) ==> FirstBlocked(s, e))
    ensures Keeps(s, Recv(s, me, e, capsOk), t) && Keeps(s, NbRecv(s, me, e, capsOk), t)
  {
    hide Schedule, ReceiveFromBlocked, QueueOnEndpoint, RecvWillBlock;
    if PendingNotification(s, me) {
    } else if RecvWillBlock(s, e) {
      Enqueued(s, me, e, Receiving);
      LeavingKeeps(s, QueueOnEndpoint(s, me, e, Receiving), me, t);
    } else {
      TakingKeeps(s, me, e, capsOk, t);
    }
  }

  lemma TakingKeeps(s: State, me: Tid, e: Eid, capsOk: bool, t: Tid)
    requires t != me && !RecvWillBlock(s, e) && (Finished(s, t) ==> FirstBlocked(s, e))
    ensures Keeps(s, ReceiveFromBlocked(s, me, e, capsOk), t)
  {
    hide TransferMessage, PopEndpoint, Pending;
    var x, p := s.E(e)[0], PopEndpoint(s, e);
    Popped(s, e);
    TransferShapes(p, x, me, p.T(x).endpointBadge, Pending(p, x), capsOk);
  }

  lemma ReplyKeepsMail(s: State, me: Tid, capsOk: bool, t: Tid)
    requires t != me && s.T(me).replyTo != Some(t)
    ensures Keeps(s, Reply(s, me, capsOk), t)
  {
    hide TransferMessage;
    if s.T(me).replyTo.Some? {
      TransferShapes(s, me, s.T(me).replyTo.value, 0, s.T(me).live.outgoing, capsOk);
    }
  }

  lemma SignalKeepsMail(s: State, n: Nid, badge: Word, t: Tid)
    requires Inv(s) && Idle(s, t)
    ensures Keeps(s, Signal(s, n, badge), t)
  {
    hide Inv, Unlink, WakeReceiver, Or;
    FirstsBlocked(s, 0, n);
    var x := s.N(n);
    var s0 := s.WithN(n, x.(word := 0));
    if x.queue == [] && x.bound.Some? && s.T(x.bound.value).state == Receiving {
      WakingKeeps(s0, x.bound.value, Or(x.word, badge), t);
    } else if x.queue != [] {
      WakingKeeps(s0, x.queue[0], Or(x.word, badge), t);
    }
  }

  lemma WakingKeeps(s: State, r: Tid, badge: Word, t: Tid)
    requires t != r
    ensures WakeReceiver(Unlink(s, r), r, badge).T(t) == s.T(t) && WakeReceiver(Unlink(s, r), r, badge).runq == s.runq
  {
    hide Unlink, WakeReceiver;
    Unlinked(s, r);
    Woken(Unlink(s, r), r, badge);
  }

  lemma WaitKeepsMail(s: State, me: Tid, n: Nid, t: Tid)
    requires t != me && (s.N(n).bound.None? || s.N(n).bound == Some(me))
    ensures Keeps(s, Wait(s, me, n), t)
  {
    hide Schedule;
    if s.N(n).word == 0 {
      LeavingKeeps(s, QueueOnNotification(s, me, n), me, t);
    }
  }

  /** The answered thread is not a ready one. */
  lemma NotTheAnswered(s: State, me: Tid, t: Tid)
    requires s.T(me).replyTo.Some? && Awaiting(s, s.T(me).replyTo.value) && Idle(s, t)
    ensures s.T(me).replyTo != Some(t)
  {
  }

  lemma ReplyRecvKeepsMail(s: State, me: Tid, e: Eid, capsOk: bool, capsOk': bool, t: Tid)
    requires t != me && s.T(me).replyTo != Some(t) && FirstBlocked(Reply(s, me, capsOk), e)
    ensures Keeps(s, ReplyRecv(s, me, e, capsOk, capsOk'), t)
  {
    hide Reply, Recv;
    ReplyKeepsMail(s, me, capsOk, t);
    RecvKeepsMail(Reply(s, me, capsOk), me, e, capsOk', t);
  }

  lemma ResumeKeepsMail(s: State, me: Tid, st: Step, t: Tid)
    requires t != me && Idle(s, t) && (st.act.Resume? || st.act.Bind?) && s.current == Some(me) && Sound(s, me, st.act)
    ensures Keeps(s, Act(s, me, st), t)
  {
  }

  /** No action of another thread touches what a ready thread has been sent. */
  lemma ActKeepsMail(s: State, me: Tid, st: Step, t: Tid)
    requires Inv(s) && s.current == Some(me) && t != me && Idle(s, t) && Sound(s, me, st.act)
    ensures Keeps(s, Act(s, me, st), t)
  {
    hide Inv, Schedule, Send, Call, Recv, NbRecv, Reply, ReplyRecv, Signal, Wait, Awaiting, ScheduleTcb, BindNotification, FirstBlocked;
    if st.act.DoReply? || st.act.DoReplyRecv? {
      NotTheAnswered(s, me, t);
    }
    match st.act
    case Exit => LeavingKeeps(s, KillTcb(s, me), me, t);
    case Yield => ScheduleKeeps(s, t);
    case DoSend(e, badge) =>
      FirstsBlocked(s, e, 0);
      SendKeepsMail(s, me, e, badge, false, st.capsOk, t);
    case DoCall(e, badge) =>
      FirstsBlocked(s, e, 0);
      SendKeepsMail(s, me, e, badge, true, st.capsOk, t);
    case DoRecv(e) =>
      FirstsBlocked(s, e, 0);
      RecvKeepsMail(s, me, e, st.capsOk, t);
    case DoNbRecv(e) =>
      FirstsBlocked(s, e, 0);
      RecvKeepsMail(s, me, e, st.capsOk, t);
    case DoReply => ReplyKeepsMail(s, me, st.capsOk, t);
    case DoReplyRecv(e) =>
      ReplyKeeps(s, me, st.capsOk);
      FirstsBlocked(Reply(s, me, st.capsOk), e, 0);
      ReplyRecvKeepsMail(s, me, e, st.capsOk, st.capsOk', t);
    case DoSignal(n, badge) => SignalKeepsMail(s, n, badge, t);
    case DoWait(n) => WaitKeepsMail(s, me, n, t);
    case Resume(u) => ResumeKeepsMail(s, me, st, t);
    case Bind(u, n) => ResumeKeepsMail(s, me, st, t);
    case Irq(n, badge) => SignalKeepsMail(s, n, badge, t);
  }

  /** On the way out of the kernel a ready thread stays ready or is the one that runs. */
  lemma ReturnHolds(a: State, m: Mail)
    requires Decided(a) && Held(a, m)
    ensures Held(ReturnFromKernel(a), m) || RunsWith(ReturnFromKernel(a), m)
  {
    if a.returnTo != a.current {
      if a.returnTo.Some? {
        Switched(a, a.returnTo.value);
        hide ReturnFromKernel, Decided;
      }
    }
  }

  lemma KeptIsHeld(s: State, a: State, m: Mail)
    requires Held(s, m) && Keeps(s, a, m.receiver) && a.current == s.current
    ensures Held(a, m)
  {
  }

  lemma EnterHolds(s: State, st: Step, m: Mail)
    requires Held(s, m)
    ensures Held(Enter(s, st), m) && Enter(s, st).current == s.current
    ensures SoundStep(s, st) && s.current.Some? ==> Sound(Enter(s, st), s.current.value, st.act)
  {
  }

  /** One kernel entry leaves the mail of a ready thread alone, and the thread ready or running with it. */
  lemma NextHolds(s: State, st: Step, m: Mail)
    requires Inv(s) && SoundStep(s, st) && Held(s, m)
    ensures Held(Next(s, st), m) || RunsWith(Next(s, st), m)
  {
    HeldFacts(s, m);
    hide Inv, Decided, Act, Signal, ReturnFromKernel, Held, RunsWith, Sound, Enter, Keeps;
    var s1 := Enter(s, st);
    EnterKeeps(s, st);
    EnterHolds(s, st, m);
    HeldFacts(s1, m);
    if st.act.Irq? {
      var a := Signal(s1, st.act.n, st.act.badge);
      SignalKeeps(s1, st.act.n, st.act.badge);
      SignalKeepsMail(s1, st.act.n, st.act.badge, m.receiver);
      KeptIsHeld(s1, a, m);
      ReturnHolds(a, m);
    } else if s1.current.Some? {
      var a := Act(s1, s1.current.value, st);
      ActKeeps(s1, s1.current.value, st);
      ActKeepsMail(s1, s1.current.value, st, m.receiver);
      KeptIsHeld(s1, a, m);
      ReturnHolds(a, m);
    }
  }

  lemma HeldFacts(s: State, m: Mail)
    requires Held(s, m)
    ensures s.current != Some(m.receiver) && s.T(m.receiver).state == Runnable
  {
  }

  // ----- What is handed over -----

  /** A receiver's buffer after a message of `n` words. */
  function Filled(buf: Buffer, msg: seq<Word>, n: nat, badge: Word): Buffer
    requires n <= |msg| && n <= |buf.msg|
  {
    Buffer(msg[..n] + buf.msg[n..], badge)
  }

  lemma Delivers(s: State, me: Tid, e: Eid, badge: Word, isCall: bool, capsOk: bool)
    requires !SendWillBlock(s, e) && s.E(e)[0] != me && s.current != Some(s.E(e)[0])
    requires var n := s.T(me).live.outgoing.length; n <= |s.T(me).buf.msg| && n <= |s.T(s.E(e)[0]).buf.msg|
    ensures var r, a, tag := s.E(e)[0], EndpointSend(s, me, e, badge, isCall, capsOk), s.T(me).live.outgoing;
            && a.returnTo == Some(r)
            && Held(a, Mail(r, SeenTag(tag, capsOk), Filled(s.T(r).buf, s.T(me).buf.msg, tag.length, badge)))
  {
    hide TransferMessage, PopEndpoint;
    Popped(s, e);
    TransferShapes(PopEndpoint(s, e), me, s.E(e)[0], badge, s.T(me).live.outgoing, capsOk);
  }

  /** A message for a waiting receiver: when this entry returns, the receiver runs and has the words, the tag
      and the badge of the capability used. */
  lemma HandedAtOnce(s: State, st: Step, e: Eid, badge: Word)
    requires Inv(s) && s.current.Some? && (st.act == DoSend(e, badge) || st.act == DoCall(e, badge)) && !SendWillBlock(s, e)
    requires var n := st.user.outgoing.length; n <= |st.msg| && n <= |s.T(s.E(e)[0]).buf.msg|
    ensures var r, tag := s.E(e)[0], st.user.outgoing;
            RunsWith(Next(s, st), Mail(r, SeenTag(tag, st.capsOk), Filled(s.T(r).buf, st.msg, tag.length, badge)))
  {
    var me, r, isCall, tag := s.current.value, s.E(e)[0], st.act.DoCall?, st.user.outgoing;
    var s1 := Enter(s, st);
    CurrentNotFirst(s, me, e);
    EnterKeeps(s, st);
    var m := if isCall then s1.WithT(me, s1.T(me).(expectsReply := true, state := Calling))
             else s1.WithT(me, s1.T(me).(expectsReply := false));
    assert m.E(e) == s.E(e) && m.T(r) == s.T(r) && m.T(me).live == st.user && m.T(me).buf.msg == st.msg;
    hide Inv, EndpointSend, Held, RunsWith, Enter;
    Delivers(m, me, e, badge, isCall, st.capsOk);
    var a := EndpointSend(m, me, e, badge, isCall, st.capsOk);
    assert Act(s1, me, st) == a;
    ActKeeps(s1, me, st);
    RunsAtOnce(a, Mail(r, SeenTag(tag, st.capsOk), Filled(s.T(r).buf, st.msg, tag.length, badge)));
  }

  lemma RunsAtOnce(a: State, m: Mail)
    requires Decided(a) && Held(a, m) && a.returnTo == Some(m.receiver)
    ensures RunsWith(ReturnFromKernel(a), m)
  {
    Switched(a, m.receiver);
    hide ReturnFromKernel, Decided;
  }

  /** The answer to the waiting caller: the caller is made ready with the words, the tag and no badge. */
  lemma Answers(s: State, me: Tid, capsOk: bool)
    requires Inv(s) && s.current == Some(me) && s.T(me).replyTo.Some? && Awaiting(s, s.T(me).replyTo.value)
    requires var n := s.T(me).live.outgoing.length; n <= |s.T(me).buf.msg| && n <= |s.T(s.T(me).replyTo.value).buf.msg|
    ensures var c, tag := s.T(me).replyTo.value, s.T(me).live.outgoing;
            && c != me && Held(Reply(s, me, capsOk), Mail(c, SeenTag(tag, capsOk), Filled(s.T(c).buf, s.T(me).buf.msg, tag.length, 0)))
  {
    assert Shape(s.T(me), true, false);
    hide Inv, TransferMessage;
    TransferShapes(s, me, s.T(me).replyTo.value, 0, s.T(me).live.outgoing, capsOk);
  }

  lemma AnswerKept(s: State, me: Tid, st: Step, m: Mail)
    requires (st.act.DoReply? || st.act.DoReplyRecv?) && me != m.receiver && s.current == Some(me)
    requires Held(Reply(s, me, st.capsOk), m)
    ensures Held(Act(s, me, st), m)
  {
    hide Reply, Recv;
    if st.act.DoReplyRecv? {
      RecvKeepsMail(Reply(s, me, st.capsOk), me, st.act.e, st.capsOk', m.receiver);
      KeptIsHeld(Reply(s, me, st.capsOk), Act(s, me, st), m);
    }
  }

  /** A reply, also one joined with a receive, leaves the answer with the caller, who is ready or runs. */
  lemma AnswerIsHanded(s: State, st: Step)
    requires Inv(s) && SoundStep(s, st) && IsReply(s, st)
    ensures Held(Next(s, st), AnswerOf(s, st)) || RunsWith(Next(s, st), AnswerOf(s, st))
  {
    var me, s1, m := s.current.value, Enter(s, st), AnswerOf(s, st);
    EnterKeeps(s, st);
    Answering(s, st);
    hide Inv, Held, RunsWith, Enter, Awaiting, Reply, Act, ReturnFromKernel;
    Answers(s1, me, st.capsOk);
    AnswerKept(s1, me, st, m);
    ActKeeps(s1, me, st);
    ReturnHolds(Act(s1, me, st), m);
  }

  lemma Answering(s: State, st: Step)
    requires Inv(s) && SoundStep(s, st) && IsReply(s, st)
    ensures var me, s1 := s.current.value, Enter(s, st);
            && s1.current == s.current && s.T(me).replyTo.Some? && s1.T(me).replyTo == s.T(me).replyTo && Sound(s1, me, st.act)
            && s1.T(me).live == st.user && s1.T(me).buf.msg == st.msg && s1.T(s.T(me).replyTo.value) == s.T(s.T(me).replyTo.value)
  {
    assert Shape(s.T(s.current.value), true, false);
  }

  /** The current thread replies, with a message that fits the buffers. */
  predicate IsReply(s: State, st: Step)
  {
    && s.current.Some? && s.T(s.current.value).replyTo.Some? && (st.act.DoReply? || st.act.DoReplyRecv?)
    && st.user.outgoing.length <= |st.msg| && st.user.outgoing.length <= |s.T(s.T(s.current.value).replyTo.value).buf.msg|
  }

  /** What a reply hands to the caller. */
  function AnswerOf(s: State, st: Step): Mail
    requires IsReply(s, st)
  {
    var c, tag := s.T(s.current.value).replyTo.value, st.user.outgoing;
    Mail(c, SeenTag(tag, st.capsOk), Filled(s.T(c).buf, st.msg, tag.length, 0))
  }

  // ----- Runs -----

  /** Along a run, the mail stays until the receiver runs with it. */
  ghost predicate HeldUntilRun(s: State, steps: seq<Step>, m: Mail)
    decreases |steps|
  {
    Held(s, m) && (steps == [] || RunsWith(Next(s, steps[0]), m) || HeldUntilRun(Next(s, steps[0]), steps[1..], m))
  }

  lemma {:induction false} MailIsKept(s: State, steps: seq<Step>, m: Mail)
    requires Inv(s) && SoundRun(s, steps) && Held(s, m)
    ensures HeldUntilRun(s, steps, m)
    decreases |steps|
  {
    hide Inv, Next, Held, RunsWith, Sound;
    if steps != [] {
      NextHolds(s, steps[0], m);
      NextKeeps(s, steps[0]);
      if Held(Next(s, steps[0]), m) {
        MailIsKept(Next(s, steps[0]), steps[1..], m);
      }
    }
  }

  /** From the reply on, along any run, until the caller runs with the answer. */
  lemma AnswerArrives(s: State, st: Step, steps: seq<Step>)
    requires Inv(s) && SoundStep(s, st) && IsReply(s, st) && SoundRun(Next(s, st), steps)
    ensures RunsWith(Next(s, st), AnswerOf(s, st)) || HeldUntilRun(Next(s, st), steps, AnswerOf(s, st))
  {
    hide Inv, Next, Held, RunsWith, Sound, IsReply, AnswerOf;
    AnswerIsHanded(s, st);
    NextKeeps(s, st);
    if Held(Next(s, st), AnswerOf(s, st)) {
      MailIsKept(Next(s, st), steps, AnswerOf(s, st));
    }
  }
}
