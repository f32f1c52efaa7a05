/** Runs from boot that reach the states in which the kernel's promises fail. */
module KernelWitnesses {
  import opened Wrappers
  import opened KernelState
  import opened KernelInv
  import opened KernelEdges
  import opened KernelReply
  import opened KernelWakeups

  /** A kernel entry with an empty message. */
  function Do(act: Action): Step { Step(ZERO_FRAME, Zeros(MESSAGE_MAX_LENGTH), act, true, true) }

  function DoAll(acts: seq<Action>): State
  {
    if acts == [] then Boot(0) else Next(DoAll(acts[..|acts| - 1]), Do(acts[|acts| - 1]))
  }

  lemma DoNothing()
    ensures DoAll([]) == Boot(0)
  {
  }

  lemma DoNext(acts: seq<Action>, act: Action)
    ensures DoAll(acts + [act]) == Next(DoAll(acts), Do(act))
  {
    assert (acts + [act])[..|acts + [act]| - 1] == acts;
  }

  // ----- What single entries do, thread by thread -----

  /** The part of a thread these runs are about. */
  datatype Brief = Brief(state: TaskState, runLink: RunLink, sendLink: SendLink, expectsReply: bool, replyTo: Option<Tid>,
                         bound: Option<Nid>)

  function B(s: State, t: Tid): Brief
  {
    var c := s.T(t);
    Brief(c.state, c.runLink, c.sendLink, c.expectsReply, c.replyTo, c.bound)
  }

  const FRESH := Brief(Runnable, Zeroed, Off, false, None, None)

  /** Only the thread `t` has changed, and is now `b`. */
  ghost predicate Changed(s: State, s': State, t: Tid, b: Brief)
  {
    B(s', t) == b && forall u: Tid :: u != t ==> B(s', u) == B(s, u)
  }

  ghost predicate Moved(s: State, s': State, t: Tid, b: Brief)
  {
    Inv(s') && Changed(s, s', t, b)
  }

  /** Only the threads `t` and `u` have changed. */
  ghost predicate Both(s: State, s': State, t: Tid, b: Brief, u: Tid, c: Brief)
  {
    && B(s', t) == b && B(s', u) == c && forall v: Tid :: v != t && v != u ==> B(s', v) == B(s, v)
  }

  /** Only the queue of endpoint `e` has changed. */
  ghost predicate Requeued(s: State, s': State, e: Eid, q: seq<Tid>)
  {
    s'.E(e) == q && forall d: Eid :: d != e ==> s'.E(d) == s.E(d)
  }

  ghost predicate Alike(s: State, s1: State)
  {
    forall t: Tid :: B(s1, t) == B(s, t)
  }

  lemma AlikeChanges(s: State, s1: State, s': State, t: Tid, b: Brief, u: Tid, c: Brief)
    requires Alike(s, s1)
    ensures B(s1, t) == B(s, t) && B(s1, u) == B(s, u)
    ensures Changed(s1, s', t, b) ==> Changed(s, s', t, b)
    ensures Both(s1, s', t, b, u, c) ==> Both(s, s', t, b, u, c)
  {
  }

  lemma AlikeQueues(s: State, s1: State, s': State, e: Eid, q: seq<Tid>)
    requires s1.eps == s.eps && Requeued(s1, s', e, q)
    ensures Requeued(s, s', e, q)
  {
  }

  lemma Booted()
    ensures var s := Boot(0);
            && Inv(s) && s.current == Some(0) && s.runq == [] && (forall e: Eid :: s.E(e) == [])
            && (forall n: Nid :: s.N(n) == ZERO_NTFN)
            && B(s, 0) == Brief(Running, Alone, Off, false, None, None) && forall t: Tid :: t != 0 ==> B(s, t) == FRESH
  {
    hide Inv;
    BootInv(0);
    assert Boot(0).tcbs == map[0 := ZERO_TCB.(state := Running, runLink := Alone)];
  }

  /** Entering the kernel changes nothing these runs are about. */
  lemma Enters(s: State, act: Action)
    requires Inv(s) && s.current.Some? && !act.Irq?
    ensures var s1 := Enter(s, Do(act));
            && Inv(s1) && s1.current == s.current && s1.runq == s.runq && s1.eps == s.eps && s1.ntfns == s.ntfns
            && Alike(s, s1)
            && Next(s, Do(act)) == ReturnFromKernel(Act(s1, s.current.value, Do(act)))
  {
    EnterKeeps(s, Do(act));
    hide Inv, Act, ReturnFromKernel, Do;
  }

  lemma ActIs(s: State, me: Tid, e: Eid, t: Tid, n: Nid)
    ensures Act(s, me, Do(DoRecv(e))) == Recv(s, me, e, true) && Act(s, me, Do(DoCall(e, 0))) == Call(s, me, e, 0, true)
    ensures Act(s, me, Do(Bind(t, n))) ==
            SetResult(BindNotification(s, t, n), me, if s.N(n).bound.Some? then ILLEGAL_OPERATION_TAG else OK_TAG)
    ensures Act(s, me, Do(DoReply)) == SetResult(Reply(s, me, true), me, s.T(me).live.outgoing)
  {
    hide Recv, Call, SetResult, BindNotification, Reply;
  }

  lemma ResultIsQuiet(s: State, t: Tid, tag: Tag)
    ensures var s' := SetResult(s, t, tag);
            && s'.returnTo == s.returnTo && s'.runq == s.runq && s'.eps == s.eps && s'.ntfns == s.ntfns && Alike(s, s')
  {
    var s' := SetResult(s, t, tag);
    assert s' == s.(tcbs := s'.tcbs);
    assert B(s', t) == B(s, t) && forall u: Tid :: u != t ==> s'.T(u) == s.T(u);
    hide SetResult;
  }

  /** An action after which the current thread goes on. */
  lemma GoesOn(s: State, act: Action)
    requires Inv(s) && s.current.Some? && !act.Irq? && SoundStep(s, Do(act))
    requires Act(Enter(s, Do(act)), s.current.value, Do(act)).returnTo == s.current
    ensures Inv(Next(s, Do(act))) && Next(s, Do(act)) == Act(Enter(s, Do(act)), s.current.value, Do(act))
  {
    Enters(s, act);
    NextKeeps(s, Do(act));
    hide Inv, Act, Enter;
  }

  lemma Resumes(s: State, t: Tid)
    requires Inv(s) && s.current.Some? && s.current != Some(t) && B(s, t) == FRESH
    ensures var s' := Next(s, Do(Resume(t)));
            && Moved(s, s', t, FRESH.(runLink := Queued)) && s'.current == s.current && s'.runq == [t] + s.runq
            && s'.eps == s.eps && s'.ntfns == s.ntfns
  {
    NextKeeps(s, Do(Resume(t)));
    assert s.returnTo == s.current;
    hide Inv, Zeros;
  }

  lemma Binds(s: State, t: Tid, n: Nid)
    requires Inv(s) && s.current.Some? && s.N(n).bound.None?
    ensures var s' := Next(s, Do(Bind(t, n)));
            && Moved(s, s', t, B(s, t).(bound := Some(n))) && s'.current == s.current && s'.runq == s.runq && s'.eps == s.eps
            && s'.N(n) == s.N(n).(bound := Some(t)) && forall m: Nid :: m != n ==> s'.N(m) == s.N(m)
  {
    assert s.returnTo == s.current;
    hide Inv, Enter, Next, Act, SetResult, Changed, Alike, B;
    var s1 := Enter(s, Do(Bind(t, n)));
    Enters(s, Bind(t, n));
    ActIs(s1, s.current.value, 0, t, n);
    BindChanges(s1, t, n);
    var b := BindNotification(s1, t, n);
    ResultIsQuiet(b, s.current.value, OK_TAG);
    InvReturns(s1);
    GoesOn(s, Bind(t, n));
    AlikeChanges(s, s1, b, t, B(s1, t).(bound := Some(n)), t, FRESH);
    ThenAlike(s, b, SetResult(b, s.current.value, OK_TAG), t, B(s, t).(bound := Some(n)));
  }

  lemma BindChanges(s: State, t: Tid, n: Nid)
    requires s.N(n).bound.None?
    ensures var b := BindNotification(s, t, n);
            && Changed(s, b, t, B(s, t).(bound := Some(n))) && b.returnTo == s.returnTo && b.runq == s.runq && b.eps == s.eps
            && b.N(n) == s.N(n).(bound := Some(t)) && forall m: Nid :: m != n ==> b.N(m) == s.N(m)
  {
  }

  lemma ThenAlike(s: State, b: State, c: State, t: Tid, x: Brief)
    requires Changed(s, b, t, x) && Alike(b, c)
    ensures Changed(s, c, t, x)
  {
  }

  /** Nobody is there to take the signal. */
  lemma Signals(s: State, n: Nid, badge: Word)
    requires Inv(s) && s.current.Some? && s.N(n) == ZERO_NTFN
    ensures var s' := Next(s, Do(DoSignal(n, badge)));
            && Moved(s, s', 0, B(s, 0)) && s'.current == s.current && s'.runq == s.runq && s'.eps == s.eps
            && s'.N(n) == Ntfn(Or(0, badge), [], None) && forall m: Nid :: m != n ==> s'.N(m) == s.N(m)
  {
    hide Enter, Inv, Next, Act, Changed, Alike, B, Or;
    var s1, a := Enter(s, Do(DoSignal(n, badge))), DoSignal(n, badge);
    Enters(s, a);
    SignalStores(s1, s.current.value, n, badge);
    InvReturns(s1);
    GoesOn(s, a);
    AlikeChanges(s, s1, Act(s1, s.current.value, Do(a)), 0, B(s, 0), 0, FRESH);
  }

  lemma SignalStores(s: State, me: Tid, n: Nid, badge: Word)
    requires s.N(n) == ZERO_NTFN
    ensures var s' := Act(s, me, Do(DoSignal(n, badge)));
            && Changed(s, s', 0, B(s, 0)) && s'.returnTo == s.returnTo && s'.runq == s.runq && s'.eps == s.eps
            && s'.N(n) == Ntfn(Or(0, badge), [], None) && forall m: Nid :: m != n ==> s'.N(m) == s.N(m)
  {
    hide Or, Zeros;
  }

  ghost predicate Swapped(s: State, s': State, t: Tid, b: Brief, u: Tid, c: Brief)
  {
    Inv(s') && Both(s, s', t, b, u, c) && s'.current == Some(u)
  }

  lemma Yields(s: State, me: Tid, x: Tid)
    requires Inv(s) && s.current == Some(me) && s.runq != [] && x == s.runq[0]
    ensures var s' := Next(s, Do(Yield));
            && Swapped(s, s', me, B(s, me).(state := Runnable, runLink := Queued), x, B(s, x).(state := Running, runLink := Alone))
            && s'.runq == [me] + s.runq[1..] && s'.eps == s.eps && s'.ntfns == s.ntfns
  {
    var s1 := Enter(s, Do(Yield));
    EnterKeeps(s, Do(Yield));
    YieldKeeps(s1, me);
    NextKeeps(s, Do(Yield));
    ReadyAndRunning(s, me, x);
    Picked(s1);
    Switched(Schedule(s1), x);
    hide Inv, Decided, Schedule, ReturnFromKernel;
  }

  lemma ReadyAndRunning(s: State, me: Tid, x: Tid)
    requires Inv(s) && s.current == Some(me) && s.runq != [] && x == s.runq[0]
    ensures me != x && s.T(me).state == Running && s.T(x).state == Runnable && s.T(me).runLink == Alone && s.T(me).sendLink == Off
  {
    assert Shape(s.T(me), true, false) && Shape(s.T(x), s.current == Some(x), false) && x in s.runq;
  }

  /** The current thread queues itself on an endpoint and the first ready thread runs. */
  lemma LeavesTo(s: State, q: State, me: Tid, x: Tid)
    requires Decided(Schedule(q)) && q.current == Some(me) && q.runq == s.runq != [] && x == s.runq[0] && x != me
    requires q.T(me).state in {Receiving, Calling} && q.T(x) == s.T(x)
    ensures var s' := ReturnFromKernel(Schedule(q));
            && s'.current == Some(x) && s'.runq == s.runq[1..] && s'.eps == q.eps && s'.ntfns == q.ntfns
            && Both(q, s', me, B(q, me), x, B(s, x).(state := Running, runLink := Alone))
  {
    Picked(q);
    Switched(Schedule(q), x);
    hide Decided, Schedule, ReturnFromKernel;
  }

  lemma BlocksAlike(s: State, s1: State, e: Eid)
    requires s1.eps == s.eps && Alike(s, s1)
    ensures (RecvWillBlock(s1, e) <==> RecvWillBlock(s, e)) && (SendWillBlock(s1, e) <==> SendWillBlock(s, e))
  {
    assert s.E(e) != [] ==> B(s1, s.E(e)[0]) == B(s, s.E(e)[0]);
  }

  lemma ReceiveBlocks(s: State, me: Tid, e: Eid, x: Tid)
    requires Inv(s) && s.current == Some(me) && s.runq != [] && x == s.runq[0] && RecvWillBlock(s, e) && s.T(me).bound.None?
    ensures var s' := Next(s, Do(DoRecv(e)));
            && Swapped(s, s', me, B(s, me).(state := Receiving, sendLink := OnEndpoint(e)), x, B(s, x).(state := Running, runLink := Alone))
            && s'.runq == s.runq[1..] && s'.ntfns == s.ntfns
            && Requeued(s, s', e, [me] + s.E(e))
  {
    ReadyAndRunning(s, me, x);
    var b, c := B(s, me).(state := Receiving, sendLink := OnEndpoint(e)), B(s, x).(state := Running, runLink := Alone);
    hide Enter, Inv, Next, Act, Recv, ReturnFromKernel, SendWillBlock, RecvWillBlock, Both, Alike, Requeued;
    var s1, s' := Enter(s, Do(DoRecv(e))), Next(s, Do(DoRecv(e)));
    Enters(s, DoRecv(e));
    NextKeeps(s, Do(DoRecv(e)));
    BlocksAlike(s, s1, e);
    ActIs(s1, me, e, 0, 0);
    AlikeChanges(s, s1, s', me, b, x, c);
    ReceiveQueued(s1, me, e, x);
    AlikeQueues(s, s1, s', e, [me] + s.E(e));
  }

  lemma ReceiveQueued(s: State, me: Tid, e: Eid, x: Tid)
    requires Inv(s) && s.current == Some(me) && s.runq != [] && x == s.runq[0] && RecvWillBlock(s, e) && s.T(me).bound.None? && x != me
    ensures var s' := ReturnFromKernel(Recv(s, me, e, true));
            && s'.current == Some(x) && s'.runq == s.runq[1..] && s'.ntfns == s.ntfns
            && Requeued(s, s', e, [me] + s.E(e))
            && Both(s, s', me, B(s, me).(state := Receiving, sendLink := OnEndpoint(e)), x, B(s, x).(state := Running, runLink := Alone))
  {
    RecvKeeps(s, me, e, true);
    hide Inv, Decided, Schedule, ReturnFromKernel;
    var q := QueueOnEndpoint(s, me, e, Receiving);
    Enqueued(s, me, e, Receiving);
    LeavesTo(s, q, me, x);
  }

  lemma CallBlocks(s: State, me: Tid, e: Eid, x: Tid)
    requires Inv(s) && s.current == Some(me) && s.runq != [] && x == s.runq[0] && SendWillBlock(s, e)
    ensures var s' := Next(s, Do(DoCall(e, 0)));
            && Swapped(s, s', me, B(s, me).(state := Calling, sendLink := OnEndpoint(e), expectsReply := true),
                       x, B(s, x).(state := Running, runLink := Alone))
            && s'.runq == s.runq[1..] && s'.ntfns == s.ntfns
            && Requeued(s, s', e, [me] + s.E(e))
  {
    ReadyAndRunning(s, me, x);
    var b, c := B(s, me).(state := Calling, sendLink := OnEndpoint(e), expectsReply := true), B(s, x).(state := Running, runLink := Alone);
    hide Enter, Inv, Next, Act, Call, ReturnFromKernel, SendWillBlock, RecvWillBlock, Both, Alike, Requeued;
    var s1, s' := Enter(s, Do(DoCall(e, 0))), Next(s, Do(DoCall(e, 0)));
    Enters(s, DoCall(e, 0));
    NextKeeps(s, Do(DoCall(e, 0)));
    BlocksAlike(s, s1, e);
    StillBlocks(s1, me, e);
    ActIs(s1, me, e, 0, 0);
    AlikeChanges(s, s1, s', me, b, x, c);
    CallQueued(s1, me, e, x);
    AlikeQueues(s, s1, s', e, [me] + s.E(e));
  }

  lemma CallQueued(s: State, me: Tid, e: Eid, x: Tid)
    requires Inv(s) && s.current == Some(me) && s.runq != [] && x == s.runq[0] && SendWillBlock(s, e) && x != me
    requires SendWillBlock(s.WithT(me, s.T(me).(expectsReply := true, state := Calling)), e)
    ensures var s' := ReturnFromKernel(Call(s, me, e, 0, true));
            && s'.current == Some(x) && s'.runq == s.runq[1..] && s'.ntfns == s.ntfns
            && Requeued(s, s', e, [me] + s.E(e))
            && Both(s, s', me, B(s, me).(state := Calling, sendLink := OnEndpoint(e), expectsReply := true),
                    x, B(s, x).(state := Running, runLink := Alone))
  {
    CallKeeps(s, me, e, 0, true);
    hide Inv, Decided, Schedule, ReturnFromKernel, SendWillBlock, QueueOnEndpoint, Call, Both, B;
    var m := s.WithT(me, s.T(me).(expectsReply := true, state := Calling));
    var q := QueueOnEndpoint(m, me, e, Calling);
    var q' := q.WithT(me, q.T(me).(endpointBadge := 0));
    CallIs(s, me, e);
    CallerQueued(s, me, e);
    LeavesTo(s, q', me, x);
    BothFrom(s, q', ReturnFromKernel(Schedule(q')), me, x, B(s, x).(state := Running, runLink := Alone));
  }

  /** The caller as it enters the queue. */
  lemma CallerQueued(s: State, me: Tid, e: Eid)
    ensures var m := s.WithT(me, s.T(me).(expectsReply := true, state := Calling));
            var q := QueueOnEndpoint(m, me, e, Calling);
            var q' := q.WithT(me, q.T(me).(endpointBadge := 0));
            && q'.current == s.current && q'.runq == s.runq && q'.ntfns == s.ntfns && Requeued(s, q', e, [me] + s.E(e))
            && q'.T(me).state == Calling
            && B(q', me) == B(s, me).(state := Calling, sendLink := OnEndpoint(e), expectsReply := true)
            && forall t: Tid :: t != me ==> q'.T(t) == s.T(t)
  {
  }

  lemma BothFrom(s: State, q: State, s': State, t: Tid, u: Tid, c: Brief)
    requires Both(q, s', t, B(q, t), u, c) && forall v: Tid :: v != t ==> q.T(v) == s.T(v)
    ensures Both(s, s', t, B(q, t), u, c)
  {
  }

  lemma CallIs(s: State, me: Tid, e: Eid)
    ensures var m := s.WithT(me, s.T(me).(expectsReply := true, state := Calling));
            && Call(s, me, e, 0, true) == EndpointSend(m, me, e, 0, true, true)
            && var q := QueueOnEndpoint(m, me, e, Calling);
               SendWillBlock(m, e) ==> EndpointSend(m, me, e, 0, true, true) == Schedule(q.WithT(me, q.T(me).(endpointBadge := 0)))
  {
    hide Schedule, SendWillBlock, QueueOnEndpoint;
  }

  lemma StillBlocks(s: State, me: Tid, e: Eid)
    requires Inv(s) && s.current == Some(me)
    ensures SendWillBlock(s.WithT(me, s.T(me).(expectsReply := true, state := Calling)), e) <==> SendWillBlock(s, e)
  {
    if s.E(e) != [] {
      CurrentNotFirst(s, me, e);
    }
  }

  /** A call reaches the thread `r` that waits for one. */
  lemma CallReaches(s: State, me: Tid, e: Eid, r: Tid)
    requires Inv(s) && s.current == Some(me) && s.E(e) != [] && r == s.E(e)[0] && s.T(r).state == Receiving
    ensures var s' := Next(s, Do(DoCall(e, 0)));
            && Swapped(s, s', me, B(s, me).(state := Calling, expectsReply := true),
                       r, B(s, r).(state := Running, sendLink := Off, replyTo := Some(me)))
            && s'.runq == s.runq && s'.ntfns == s.ntfns
            && Requeued(s, s', e, s.E(e)[1..])
  {
    CurrentNotFirst(s, me, e);
    var b, c := B(s, me).(state := Calling, expectsReply := true), B(s, r).(state := Running, sendLink := Off, replyTo := Some(me));
    hide Enter, Inv, Next, Act, Call, ReturnFromKernel, Both, Alike, Requeued;
    var s1, s' := Enter(s, Do(DoCall(e, 0))), Next(s, Do(DoCall(e, 0)));
    Enters(s, DoCall(e, 0));
    NextKeeps(s, Do(DoCall(e, 0)));
    ActIs(s1, me, e, 0, 0);
    AlikeChanges(s, s1, s', me, b, r, c);
    CallHandedOver(s1, me, e, r);
    AlikeQueues(s, s1, s', e, s.E(e)[1..]);
  }

  lemma CallHandedOver(s: State, me: Tid, e: Eid, r: Tid)
    requires Inv(s) && s.current == Some(me) && s.E(e) != [] && r == s.E(e)[0] && s.T(r).state == Receiving && r != me
    ensures var s' := ReturnFromKernel(Call(s, me, e, 0, true));
            && s'.current == Some(r) && s'.runq == s.runq && s'.ntfns == s.ntfns
            && Requeued(s, s', e, s.E(e)[1..])
            && Both(s, s', me, B(s, me).(state := Calling, expectsReply := true),
                    r, B(s, r).(state := Running, sendLink := Off, replyTo := Some(me)))
  {
    CallKeeps(s, me, e, 0, true);
    hide Inv, EndpointSend, Call, Both, B, Decided, ReturnFromKernel, Requeued, Parted;
    var m := s.WithT(me, s.T(me).(expectsReply := true, state := Calling));
    var d := EndpointSend(m, me, e, 0, true, true);
    assert m.E(e) == s.E(e) && m.T(r) == s.T(r) && m.T(me).expectsReply && m.current == s.current;
    Delivery(m, me, e, r);
    CallIs(s, me, e);
    Switched(d, r);
    HandedOver(s, m, d, ReturnFromKernel(d), me, e, r);
  }

  lemma HandedOver(s: State, m: State, d: State, s': State, me: Tid, e: Eid, r: Tid)
    requires me != r && B(d, r) == B(m, r).(state := Runnable, sendLink := Off, replyTo := Some(me))
    requires m == s.WithT(me, s.T(me).(expectsReply := true, state := Calling)) && forall t: Tid :: t != r ==> d.T(t) == m.T(t)
    requires s'.T(r) == d.T(r).(state := Running) && s'.T(me) == Parted(d.T(me)) && forall t: Tid :: t != r && t != me ==> s'.T(t) == d.T(t)
    requires s.E(e) != [] && m.E(e) != [] && s'.eps == d.eps && Requeued(m, d, e, m.E(e)[1..])
    ensures Requeued(s, s', e, s.E(e)[1..])
    ensures Both(s, s', me, B(s, me).(state := Calling, expectsReply := true),
                 r, B(s, r).(state := Running, sendLink := Off, replyTo := Some(me)))
  {
    assert forall f: Eid :: s'.E(f) == d.E(f) && m.E(f) == s.E(f);
  }

  lemma Delivery(s: State, me: Tid, e: Eid, r: Tid)
    requires s.E(e) != [] && r == s.E(e)[0] && r != me && s.T(r).state == Receiving && s.T(me).expectsReply
    ensures var s' := EndpointSend(s, me, e, 0, true, true);
            && s'.current == s.current && s'.returnTo == Some(r) && s'.runq == s.runq && s'.ntfns == s.ntfns
            && B(s', r) == B(s, r).(state := Runnable, sendLink := Off, replyTo := Some(me))
            && (forall t: Tid :: t != r ==> s'.T(t) == s.T(t))
            && Requeued(s, s', e, s.E(e)[1..])
  {
    hide TransferMessage, PopEndpoint, CopyWords, DeliveredTag;
    var p := PopEndpoint(s, e);
    Popped(s, e);
    TransferShapes(p, me, r, 0, s.T(me).live.outgoing, true);
  }

  /** A receive takes the call of the thread `x` that is queued. */
  lemma TakesCall(s: State, me: Tid, e: Eid, x: Tid)
    requires Inv(s) && s.current == Some(me) && s.E(e) != [] && x == s.E(e)[0] && s.T(x).state == Calling && s.T(x).expectsReply
    requires s.T(me).bound.None?
    ensures var s' := Next(s, Do(DoRecv(e)));
            && Inv(s') && s'.current == s.current && s'.runq == s.runq && s'.ntfns == s.ntfns
            && Both(s, s', me, B(s, me).(replyTo := Some(x)), x, B(s, x).(sendLink := Off))
            && Requeued(s, s', e, s.E(e)[1..])
  {
    CurrentNotFirst(s, me, e);
    var b, c := B(s, me).(replyTo := Some(x)), B(s, x).(sendLink := Off);
    hide Enter, Inv, Next, Act, Recv, ReturnFromKernel, Both, Alike, Requeued;
    var s1, s' := Enter(s, Do(DoRecv(e))), Next(s, Do(DoRecv(e)));
    Enters(s, DoRecv(e));
    ActIs(s1, me, e, 0, 0);
    AlikeChanges(s, s1, s', me, b, x, c);
    CallTaken(s1, me, e, x);
    GoesOn(s, DoRecv(e));
    AlikeQueues(s, s1, s', e, s.E(e)[1..]);
  }

  lemma CallTaken(s: State, me: Tid, e: Eid, x: Tid)
    requires Inv(s) && s.current == Some(me) && s.E(e) != [] && x == s.E(e)[0] && s.T(x).state == Calling && s.T(x).expectsReply
    requires s.T(me).bound.None? && x != me
    ensures var s' := Recv(s, me, e, true);
            && s'.returnTo == s.current && s'.runq == s.runq && s'.ntfns == s.ntfns
            && Both(s, s', me, B(s, me).(replyTo := Some(x)), x, B(s, x).(sendLink := Off))
            && Requeued(s, s', e, s.E(e)[1..])
  {
    assert s.returnTo == s.current;
    hide Inv, TransferMessage, ScheduleTcb, PopEndpoint, Pending, CopyWords, DeliveredTag;
    var p := PopEndpoint(s, e);
    Popped(s, e);
    TransferShapes(p, x, me, p.T(x).endpointBadge, Pending(p, x), true);
  }

  /** A reply reaches the thread `c` that waits for it. */
  lemma Replies(s: State, me: Tid, c: Tid)
    requires Inv(s) && s.current == Some(me) && s.T(me).replyTo == Some(c) && Awaiting(s, c)
    ensures var s' := Next(s, Do(DoReply));
            && Moved(s, s', c, B(s, c).(state := Runnable, runLink := Queued,
                                        replyTo := if s.T(me).expectsReply then Some(me) else s.T(c).replyTo))
            && s'.current == s.current && s'.runq == [c] + s.runq && s'.ntfns == s.ntfns && s'.eps == s.eps
  {
    RunningNotAwaiting(s, me);
    var b := B(s, c).(state := Runnable, runLink := Queued, replyTo := if s.T(me).expectsReply then Some(me) else s.T(c).replyTo);
    hide Enter, Inv, Next, Act, Reply, SetResult, Changed, Alike;
    var s1 := Enter(s, Do(DoReply));
    Enters(s, DoReply);
    ActIs(s1, me, 0, 0, 0);
    var r := Reply(s1, me, true);
    AlikeChanges(s, s1, r, c, b, me, FRESH);
    ReplyArrives(s1, me, c);
    ResultIsQuiet(r, me, s1.T(me).live.outgoing);
    GoesOn(s, DoReply);
    ThenAlike(s, r, SetResult(r, me, s1.T(me).live.outgoing), c, b);
  }

  lemma RunningNotAwaiting(s: State, me: Tid)
    requires Inv(s) && s.current == Some(me)
    ensures !Awaiting(s, me)
  {
    assert Shape(s.T(me), true, false);
  }

  lemma ReplyArrives(s: State, me: Tid, c: Tid)
    requires Inv(s) && s.current == Some(me) && s.T(me).replyTo == Some(c) && Awaiting(s, c) && c != me
    ensures var s' := Reply(s, me, true);
            && Changed(s, s', c, B(s, c).(state := Runnable, runLink := Queued,
                                          replyTo := if s.T(me).expectsReply then Some(me) else s.T(c).replyTo))
            && s'.returnTo == s.current && s'.runq == [c] + s.runq && s'.ntfns == s.ntfns && s'.eps == s.eps
  {
    assert s.returnTo == s.current;
    hide Inv, TransferMessage;
    TransferShapes(s, me, c, 0, s.T(me).live.outgoing, true);
  }

  // ----- The runs -----

  /** A thread waits on a notification bound to another one, and the ready thread is lost. */
  lemma LostThread()
    ensures var s := DoAll([Resume(1), Bind(1, 5)]);
            && Inv(s) && s.current == Some(0) && s.runq == [1] && s.N(5) == Ntfn(0, [], Some(1))
            && var s' := Next(s, Do(DoWait(5)));
               s'.T(1).state == Runnable && 1 !in s'.runq && s'.current != Some(1) && !Inv(s')
  {
    hide Inv, Next;
    var run1 := [Resume(1)];
    var run2 := run1 + [Bind(1, 5)];
    Unfold1(run1, run2, Resume(1), Bind(1, 5));
    Booted();
    Resumes(Boot(0), 1);
    Binds(DoAll(run1), 1, 5);
    assert run2 == [Resume(1), Bind(1, 5)];
    WaitLoses(DoAll(run2));
  }

  lemma Unfold1(run1: seq<Action>, run2: seq<Action>, a: Action, b: Action)
    requires run1 == [a] && run2 == run1 + [b]
    ensures DoAll(run1) == Next(Boot(0), Do(a)) && DoAll(run2) == Next(DoAll(run1), Do(b))
  {
    hide *;
    DoNothing();
    assert [] + [a] == [a];
    DoNext([], a);
    DoNext(run1, b);
  }

  lemma WaitLoses(s: State)
    requires Inv(s) && s.current == Some(0) && s.runq == [1] && s.N(5) == Ntfn(0, [], Some(1))
    ensures var s' := Next(s, Do(DoWait(5)));
            s'.T(1).state == Runnable && 1 !in s'.runq && s'.current != Some(1) && !Inv(s')
  {
    var s1 := Enter(s, Do(DoWait(5)));
    Enters(s, DoWait(5));
    KillThenQueueLosesAThread(s1, 0, 5);
    hide Inv, Act, Wait, ReturnFromKernel, Enter;
    assert Act(s1, 0, Do(DoWait(5))) == Wait(s1, 0, 5) by { ActWaits(s1, 0, 5); }
    var s' := Next(s, Do(DoWait(5)));
    if Inv(s') {
      ExactlyOnePlace(s', 1, NotStarted);
    }
  }

  lemma ActWaits(s: State, me: Tid, n: Nid)
    ensures Act(s, me, Do(DoWait(n))) == Wait(s, me, n)
  {
    hide Wait;
  }

  /** A notification with a pending word is bound to a thread that already receives: it sleeps on. */
  lemma SleepsOn()
    ensures var s := DoAll([DoSignal(5, 1), Resume(1), Yield, DoRecv(0)]);
            && Inv(s) && s.current == Some(0) && s.T(1).state == Receiving && s.N(5) == Ntfn(1, [], None)
            && var s' := Next(s, Do(Bind(1, 5)));
               Inv(s') && s'.N(5) == Ntfn(1, [], Some(1)) && s'.T(1).state == Receiving && !WakeOk(s')
  {
    hide Inv, Next, WakeOk;
    Booted();
    OrZero();
    Signals(Boot(0), 5, 1);
    var s1 := Next(Boot(0), Do(DoSignal(5, 1)));
    Resumes(s1, 1);
    var s2 := Next(s1, Do(Resume(1)));
    Yields(s2, 0, 1);
    var s3 := Next(s2, Do(Yield));
    ReceiveBlocks(s3, 1, 0, 0);
    var s4 := Next(s3, Do(DoRecv(0)));
    FourSteps(DoSignal(5, 1), Resume(1), Yield, DoRecv(0));
    assert s4.current == Some(0) && s4.N(5) == Ntfn(1, [], None);
    assert B(s4, 1).state == Receiving;
    Binds(s4, 1, 5);
    Sleeper(Next(s4, Do(Bind(1, 5))), 1, 5);
  }

  lemma Sleeper(s: State, t: Tid, n: Nid)
    requires s.N(n).word != 0 && s.N(n).bound == Some(t) && B(s, t).state == Receiving
    ensures s.T(t).state == Receiving && !WakeOk(s)
  {
  }

  lemma OrZero()
    ensures Or(0, 1) == 1
  {
  }

  lemma FourSteps(a: Action, b: Action, c: Action, d: Action)
    ensures DoAll([a, b, c, d]) == Next(Next(Next(Next(Boot(0), Do(a)), Do(b)), Do(c)), Do(d))
  {
    hide *;
    DoNothing();
    DoNext([], a);
    assert [] + [a] == [a];
    DoNext([a], b);
    assert [a] + [b] == [a, b];
    DoNext([a, b], c);
    assert [a, b] + [c] == [a, b, c];
    DoNext([a, b, c], d);
    assert [a, b, c] + [d] == [a, b, c, d];
  }

  /** A server replies again through a stale reply_to, to a thread that by then is queued with another call. */
  lemma StaleReply()
    ensures var s := DoAll([Resume(1), DoRecv(0), DoCall(0, 0), DoReply, Yield, DoCall(1, 0)]);
            && Inv(s) && s.current == Some(0) && s.T(0).replyTo == Some(1) && s.T(1).state == Calling
            && s.T(1).sendLink == OnEndpoint(1) && !Inv(Next(s, Do(DoReply)))
  {
    hide Inv, Next, Awaiting;
    var s4 := Answered();
    Yields(s4, 0, 1);
    var s5 := Next(s4, Do(Yield));
    CallBlocks(s5, 1, 1, 0);
    var s6 := Next(s5, Do(DoCall(1, 0)));
    SixSteps(Resume(1), DoRecv(0), DoCall(0, 0), DoReply, Yield, DoCall(1, 0));
    assert B(s6, 1).state == Calling && B(s6, 1).sendLink == OnEndpoint(1) && B(s6, 0).replyTo == Some(1);
    ReplyBreaks(s6, 0, 1);
  }

  /** Thread 0 has taken a call from thread 1 and answered it. */
  lemma Answered() returns (s: State)
    ensures s == DoAll([Resume(1), DoRecv(0), DoCall(0, 0), DoReply]) && Inv(s) && s.current == Some(0) && s.runq == [1]
    ensures s.E(1) == [] && s.T(1).bound.None? && B(s, 0).replyTo == Some(1)
  {
    hide Inv, Next, Awaiting;
    var s3 := Asked();
    IsAwaiting(s3, 1);
    Replies(s3, 0, 1);
    s := Next(s3, Do(DoReply));
    FourSteps(Resume(1), DoRecv(0), DoCall(0, 0), DoReply);
    assert B(s, 1).bound.None?;
  }

  lemma Asked() returns (s: State)
    ensures s == Next(Next(Next(Boot(0), Do(Resume(1))), Do(DoRecv(0))), Do(DoCall(0, 0))) && Inv(s)
    ensures s.current == Some(0) && s.runq == [] && s.E(1) == [] && B(s, 0).replyTo == Some(1)
    ensures B(s, 1).state == Calling && B(s, 1).sendLink == Off && B(s, 1).bound.None?
  {
    hide Inv, Next;
    Booted();
    Resumes(Boot(0), 1);
    var s1 := Next(Boot(0), Do(Resume(1)));
    ReceiveBlocks(s1, 0, 0, 1);
    var s2 := Next(s1, Do(DoRecv(0)));
    assert B(s2, 0).state == Receiving && s2.E(0) == [0] && s1.E(1) == s2.E(1) == [];
    CallReaches(s2, 1, 0, 0);
    s := Next(s2, Do(DoCall(0, 0)));
  }

  lemma IsAwaiting(s: State, t: Tid)
    requires B(s, t).state == Calling && B(s, t).sendLink == Off
    ensures Awaiting(s, t)
  {
  }

  lemma SixSteps(a: Action, b: Action, c: Action, d: Action, e: Action, f: Action)
    ensures DoAll([a, b, c, d, e, f]) == Next(Next(DoAll([a, b, c, d]), Do(e)), Do(f))
  {
    hide *;
    DoNext([a, b, c, d], e);
    assert [a, b, c, d] + [e] == [a, b, c, d, e];
    DoNext([a, b, c, d, e], f);
    assert [a, b, c, d, e] + [f] == [a, b, c, d, e, f];
  }

  lemma ReplyBreaks(s: State, me: Tid, c: Tid)
    requires Inv(s) && s.current == Some(me) && s.T(me).replyTo == Some(c) && s.T(c).state == Calling && s.T(c).sendLink != Off
    ensures !Inv(Next(s, Do(DoReply)))
  {
    InvReturns(s);
    hide Inv, Next, Act, Enter, Reply, SetResult;
    var s1 := Enter(s, Do(DoReply));
    Enters(s, DoReply);
    InvReturns(s1);
    assert B(s1, me) == B(s, me) && B(s1, c) == B(s, c);
    ActIs(s1, me, 0, 0, 0);
    var r := Reply(s1, me, true);
    QueuedAndReady(s1, me, c);
    ResultIsQuiet(r, me, s1.T(me).live.outgoing);
    var s' := SetResult(r, me, s1.T(me).live.outgoing);
    assert B(s', c) == B(r, c);
    NeverQueuedAndReady(s', c);
    assert Next(s, Do(DoReply)) == s';
  }

  lemma QueuedAndReady(s: State, me: Tid, c: Tid)
    requires Inv(s) && s.current == Some(me) && s.T(me).replyTo == Some(c) && s.T(c).state == Calling && s.T(c).sendLink != Off
    ensures var r := Reply(s, me, true);
            r.returnTo == s.returnTo && r.current == s.current && B(r, c).state == Runnable && B(r, c).sendLink == s.T(c).sendLink
  {
    assert Shape(s.T(me), true, false);
    hide Inv, TransferMessage;
    TransferShapes(s, me, c, 0, s.T(me).live.outgoing, true);
  }

  lemma NeverQueuedAndReady(s: State, c: Tid)
    requires B(s, c).state == Runnable && B(s, c).sendLink != Off
    ensures !Inv(s)
  {
    assert Inv(s) ==> Shape(s.T(c), s.current == Some(c), s.returnTo == Some(c) && s.current != Some(c));
  }

  /** The calls a run makes before the reply that forgets thread 2: thread 0 has made a call itself, and
      thread 1 calls it while it serves thread 2. */
  function CallsToZero(): seq<Action> { [Resume(1), DoCall(1, 0), DoRecv(1), DoReply] }
  function CallsToOne(): seq<Action> { CallsToZero() + [Resume(2)] + [DoRecv(1)] + [DoCall(1, 0)] }
  function CallsInCalls(): seq<Action> { CallsToOne() + [DoCall(0, 0)] + [DoRecv(0)] }

  /** A server that has made a call replies to a thread that is itself serving a third one, and the third
      is named by nobody's reply_to from then on. */
  lemma ForgottenCaller()
    ensures var s := DoAll(CallsInCalls());
            && Inv(s) && s.current == Some(0) && s.T(0).expectsReply && s.T(0).replyTo == Some(1) && Awaiting(s, 1)
            && s.T(1).replyTo == Some(2) && Awaiting(s, 2)
            && var s' := Next(s, Do(DoReply)); Inv(s') && Awaiting(s', 2) && !Remembered(s', 2)
  {
    hide Inv, Next, Awaiting, Remembered;
    var s7 := Serving();
    CallBlocks(s7, 1, 0, 0);
    var s8 := Next(s7, Do(DoCall(0, 0)));
    assert B(s8, 1).state == Calling && B(s8, 1).expectsReply && s8.E(0) == [1] && B(s8, 0).bound.None?;
    TakesCall(s8, 0, 0, 1);
    var s9 := Next(s8, Do(DoRecv(0)));
    DoNext(CallsToOne(), DoCall(0, 0));
    DoNext(CallsToOne() + [DoCall(0, 0)], DoRecv(0));
    assert B(s9, 0).expectsReply && B(s9, 0).replyTo == Some(1) && B(s9, 1).replyTo == Some(2);
    assert forall t: Tid :: t != 1 ==> B(s9, t).replyTo != Some(2);
    assert B(s9, 1).state == Calling && B(s9, 1).sendLink == Off && B(s9, 2).state == Calling && B(s9, 2).sendLink == Off;
    IsAwaiting(s9, 1);
    IsAwaiting(s9, 2);
    Replies(s9, 0, 1);
    Forgets(s9, Next(s9, Do(DoReply)));
  }

  /** Then thread 2 has called thread 1, which runs. */
  lemma Serving() returns (s: State)
    ensures s == DoAll(CallsToOne()) && Inv(s) && s.current == Some(1) && s.runq == [0] && s.E(0) == []
    ensures B(s, 0) == Brief(Runnable, Queued, Off, true, None, None)
    ensures B(s, 1) == Brief(Running, Alone, Off, false, Some(2), None)
    ensures B(s, 2) == Brief(Calling, Alone, Off, true, None, None) && forall t: Tid :: t > 2 ==> B(s, t) == FRESH
  {
    hide Inv, Next, Awaiting;
    var s4 := ServedOnce();
    Resumes(s4, 2);
    var s5 := Next(s4, Do(Resume(2)));
    assert B(s5, 1) == B(s4, 1) && s4.E(1) == s5.E(1) == [] && s4.E(0) == s5.E(0) == [];
    ReceiveBlocks(s5, 1, 1, 2);
    var s6 := Next(s5, Do(DoRecv(1)));
    assert B(s6, 1).state == Receiving && s6.E(1) == [1] && s6.E(0) == [];
    CallReaches(s6, 2, 1, 1);
    s := Next(s6, Do(DoCall(1, 0)));
    DoNext(CallsToZero(), Resume(2));
    DoNext(CallsToZero() + [Resume(2)], DoRecv(1));
    DoNext(CallsToZero() + [Resume(2)] + [DoRecv(1)], DoCall(1, 0));
  }

  /** Thread 0 has made a call, and thread 1 has answered it and runs. */
  lemma ServedOnce() returns (s: State)
    ensures s == DoAll(CallsToZero()) && Inv(s) && s.current == Some(1) && s.runq == [0]
    ensures (forall e: Eid :: s.E(e) == []) && B(s, 0) == Brief(Runnable, Queued, Off, true, None, None)
    ensures B(s, 1) == Brief(Running, Alone, Off, false, Some(0), None) && forall t: Tid :: t > 1 ==> B(s, t) == FRESH
  {
    hide Inv, Next, Awaiting;
    var s3 := TookCall();
    IsAwaiting(s3, 0);
    Replies(s3, 1, 0);
    s := Next(s3, Do(DoReply));
    assert forall e: Eid :: s.E(e) == s3.E(e);
    FourSteps(Resume(1), DoCall(1, 0), DoRecv(1), DoReply);
  }

  lemma TookCall() returns (s: State)
    ensures s == Next(Next(Next(Boot(0), Do(Resume(1))), Do(DoCall(1, 0))), Do(DoRecv(1))) && Inv(s)
    ensures s.current == Some(1) && s.runq == [] && forall e: Eid :: s.E(e) == []
    ensures B(s, 0) == Brief(Calling, Alone, Off, true, None, None) && B(s, 1) == Brief(Running, Alone, Off, false, Some(0), None)
    ensures forall t: Tid :: t > 1 ==> B(s, t) == FRESH
  {
    hide Inv, Next;
    Booted();
    Resumes(Boot(0), 1);
    var s1 := Next(Boot(0), Do(Resume(1)));
    CallBlocks(s1, 0, 1, 1);
    var s2 := Next(s1, Do(DoCall(1, 0)));
    assert B(s2, 0).state == Calling && B(s2, 0).expectsReply && s2.E(1) == [0];
    TakesCall(s2, 1, 1, 0);
    s := Next(s2, Do(DoRecv(1)));
    assert forall e: Eid :: s1.E(e) == [] && (e != 1 ==> s2.E(e) == s1.E(e));
  }

  lemma Forgets(s: State, s': State)
    requires Changed(s, s', 1, B(s, 1).(state := Runnable, runLink := Queued, replyTo := Some(0)))
    requires Awaiting(s, 2) && forall t: Tid :: t != 1 ==> B(s, t).replyTo != Some(2)
    ensures Awaiting(s', 2) && !Remembered(s', 2)
  {
    assert B(s', 2) == B(s, 2);
    forall t: Tid
      ensures s'.T(t).replyTo != Some(2)
    {
      assert t != 1 ==> B(s', t) == B(s, t);
    }
  }
}
