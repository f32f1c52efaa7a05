/** Threads, endpoints, notifications and the scheduler of one CPU as a state machine
    (kern/obj/tcb.c, kern/obj/endpoint.c, kern/obj/notification.c, include/kern/ipc.h).
    This module gives the state and, for every kernel routine, its effect as a function. */
module KernelState {
  import opened Wrappers

  type Word = bv64

  type Tid = nat
  type Eid = nat
  type Nid = nat

  datatype TaskState = Runnable | Running | Dead | Sending | Receiving | Calling | Suspended

  /** What a thread's `runnable_tcbs` node is: zeroed memory, linked to itself, or in the run queue. */
  datatype RunLink = Zeroed | Alone | Queued

  /** Which list a thread's `send_receive_node` is linked into. */
  datatype SendLink = Off | OnEndpoint(e: Eid) | OnNotification(n: Nid)

  datatype Tag = Tag(code: nat, capsUnwrapped: nat, extraCaps: nat, length: nat)

  /** The two registers of a user frame that IPC uses: the returned tag and the outgoing tag. */
  datatype Frame = Frame(result: Tag, outgoing: Tag)

  /** The message words and the badge of an IPC buffer. */
  datatype Buffer = Buffer(msg: seq<Word>, senderBadge: Word)

  /** `owes` records the caller whose call the thread received last and has not answered; no
      kernel routine reads it. */
  datatype Tcb = Tcb(state: TaskState, runLink: RunLink, sendLink: SendLink, expectsReply: bool,
                     replyTo: Option<Tid>, endpointBadge: Word, bound: Option<Nid>,
                     saved: Frame, live: Frame, buf: Buffer, owes: Option<Tid>)

  datatype Ntfn = Ntfn(word: Word, queue: seq<Tid>, bound: Option<Tid>)

  const OK_TAG := Tag(0, 0, 0, 0)
  const ILLEGAL_OPERATION_TAG := Tag(4, 0, 0, 0)
  const ZERO_FRAME := Frame(OK_TAG, OK_TAG)
  const MESSAGE_MAX_LENGTH: nat := 504
  const ZERO_TCB := Tcb(Runnable, Zeroed, Off, false, None, 0, None, ZERO_FRAME, ZERO_FRAME,
                        Buffer(Zeros(MESSAGE_MAX_LENGTH), 0), None)
  const ZERO_NTFN := Ntfn(0, [], None)

  function Zeros(n: nat): (z: seq<Word>)
    ensures |z| == n
  {
    if n == 0 then [] else [0] + Zeros(n - 1)
  }

  /** An object that is not in its map is the zeroed memory retype leaves behind. */
  datatype State = State(tcbs: map<Tid, Tcb>, runq: seq<Tid>, eps: map<Eid, seq<Tid>>, ntfns: map<Nid, Ntfn>,
                         current: Option<Tid>, returnTo: Option<Tid>, panicked: bool)
  {
    function T(t: Tid): Tcb { if t in tcbs then tcbs[t] else ZERO_TCB }
    function E(e: Eid): seq<Tid> { if e in eps then eps[e] else [] }
    function N(n: Nid): Ntfn { if n in ntfns then ntfns[n] else ZERO_NTFN }
    function WithT(t: Tid, c: Tcb): State { this.(tcbs := tcbs[t := c]) }
    function WithE(e: Eid, q: seq<Tid>): State { this.(eps := eps[e := q]) }
    function WithN(n: Nid, x: Ntfn): State { this.(ntfns := ntfns[n := x]) }
    function Assert(b: bool): State { if b then this else this.(panicked := true) }
  }

  function Without(q: seq<Tid>, t: Tid): seq<Tid>
  {
    if q == [] then [] else if q[0] == t then q[1..] else [q[0]] + Without(q[1..], t)
  }

  // ----- tcb.c -----
  // No routine below changes the current thread; only the switch on the way out does.

  function ScheduleTcb(s: State, t: Tid): (r: State)
    ensures r.current == s.current
  {
    var s := s.Assert(s.T(t).state != Dead);
    s.WithT(t, s.T(t).(state := Runnable, runLink := Queued)).(runq := [t] + s.runq)
  }

  function SwitchTcb(s: State, t: Tid): (r: State)
    ensures r.current == s.current
  {
    s.WithT(t, s.T(t).(state := Runnable)).(returnTo := Some(t))
  }

  function Schedule(s: State): (r: State)
    ensures r.current == s.current
  {
    if s.runq != [] then
      var t := s.runq[0];
      SwitchTcb(s.WithT(t, s.T(t).(runLink := Alone)).(runq := s.runq[1..]), t)
    else if s.current.Some? && s.T(s.current.value).state == Running then s
    else s.(returnTo := None)
  }

  function KillTcb(s: State, t: Tid): (r: State)
    ensures r.current == s.current
  {
    s.WithT(t, s.T(t).(state := Dead)).Assert(s.T(t).runLink == Alone)
  }

  function SaveTcb(s: State, t: Tid): State
  {
    if s.T(t).state == Dead then s else s.WithT(t, s.T(t).(saved := s.T(t).live))
  }

  function SwitchTcbActual(s: State, t: Tid): State
  {
    var s := s.Assert(s.current != Some(t));
    var s := if s.current.Some? then SaveTcb(s, s.current.value) else s;
    var s := if s.current.Some? && s.T(s.current.value).state == Running then ScheduleTcb(s, s.current.value) else s;
    var s := s.Assert(s.T(t).state == Runnable);
    s.WithT(t, s.T(t).(state := Running)).(current := Some(t))
  }

  function ReturnFromKernel(s: State): State
  {
    if s.returnTo == s.current then s
    else if s.returnTo.Some? then SwitchTcbActual(s, s.returnTo.value)
    else SaveTcb(s, s.current.value).(current := None)
  }

  function BindNotification(s: State, t: Tid, n: Nid): (r: State)
    ensures r.current == s.current
  {
    if s.N(n).bound.Some? then s
    else s.WithT(t, s.T(t).(bound := Some(n))).WithN(n, s.N(n).(bound := Some(t)))
  }

  // ----- ipc.h -----

  /** The tag of a send that `t` has issued, from the frame ipc_frame picks. */
  function Pending(s: State, t: Tid): Tag
  {
    if s.current == Some(t) then s.T(t).live.outgoing else s.T(t).saved.outgoing
  }

  function SetResult(s: State, t: Tid, tag: Tag): (r: State)
    ensures r.current == s.current
  {
    var c := s.T(t);
    if s.current == Some(t) then s.WithT(t, c.(live := c.live.(result := tag)))
    else s.WithT(t, c.(saved := c.saved.(result := tag)))
  }

  // ----- endpoint.c -----

  /** The tag the receiver sees: extra_caps is cleared when a slot lookup failed. */
  function DeliveredTag(tag: Tag, capsOk: bool): Tag
  {
    if tag.extraCaps != 0 && !capsOk then tag.(extraCaps := 0) else tag
  }

  function CopyWords(from: seq<Word>, to: seq<Word>, n: nat): seq<Word>
  {
    if n <= |from| && n <= |to| then from[..n] + to[n..] else to
  }

  function TransferMessage(s: State, sender: Tid, receiver: Tid, badge: Word, tag: Tag, capsOk: bool): (r: State)
    ensures r.current == s.current
  {
    var r := s.T(receiver);
    var buf := Buffer(CopyWords(s.T(sender).buf.msg, r.buf.msg, tag.length), badge);
    var r := r.(buf := buf, replyTo := if s.T(sender).expectsReply then Some(sender) else r.replyTo);
    SetResult(s.WithT(receiver, r), receiver, DeliveredTag(tag, capsOk))
  }

  predicate SendWillBlock(s: State, e: Eid)
  {
    s.E(e) == [] || s.T(s.E(e)[0]).state in {Sending, Calling}
  }

  predicate RecvWillBlock(s: State, e: Eid)
  {
    s.E(e) == [] || s.T(s.E(e)[0]).state == Receiving
  }

  /** Take the first thread off an endpoint queue. */
  function PopEndpoint(s: State, e: Eid): (r: State)
    requires s.E(e) != []
    ensures r.current == s.current
  {
    var t := s.E(e)[0];
    s.WithE(e, s.E(e)[1..]).WithT(t, s.T(t).(sendLink := Off))
  }

  function QueueOnEndpoint(s: State, me: Tid, e: Eid, state: TaskState): (r: State)
    ensures r.current == s.current
  {
    s.WithE(e, [me] + s.E(e)).WithT(me, s.T(me).(sendLink := OnEndpoint(e), state := state))
  }

  function EndpointSend(s: State, me: Tid, e: Eid, badge: Word, isCall: bool, capsOk: bool): (r: State)
    ensures r.current == s.current
  {
    if SendWillBlock(s, e) then
      var s := QueueOnEndpoint(s, me, e, if isCall then Calling else Sending);
      Schedule(s.WithT(me, s.T(me).(endpointBadge := badge)))
    else
      var r := s.E(e)[0];
      var s := TransferMessage(PopEndpoint(s, e), me, r, badge, s.T(me).live.outgoing, capsOk);
      var s := if isCall then s.WithT(r, s.T(r).(owes := Some(me))) else s;
      SwitchTcb(s, r)
  }

  function Send(s: State, me: Tid, e: Eid, badge: Word, capsOk: bool): (r: State)
    ensures r.current == s.current
  {
    EndpointSend(s.WithT(me, s.T(me).(expectsReply := false)), me, e, badge, false, capsOk)
  }

  function Call(s: State, me: Tid, e: Eid, badge: Word, capsOk: bool): (r: State)
    ensures r.current == s.current
  {
    EndpointSend(s.WithT(me, s.T(me).(expectsReply := true, state := Calling)), me, e, badge, true, capsOk)
  }

  /** receive_message_from_blocked_sender, with the result written to the receiver's frame. */
  function ReceiveFromBlocked(s: State, me: Tid, e: Eid, capsOk: bool): (r: State)
    requires s.E(e) != []
    ensures r.current == s.current
  {
    var x := s.E(e)[0];
    var s := PopEndpoint(s, e);
    var s := TransferMessage(s, x, me, s.T(x).endpointBadge, Pending(s, x), capsOk);
    if s.T(x).expectsReply then s.WithT(me, s.T(me).(replyTo := Some(x), owes := Some(x)))
    else ScheduleTcb(s, x)
  }

  predicate PendingNotification(s: State, me: Tid)
  {
    s.T(me).bound.Some? && s.N(s.T(me).bound.value).word != 0
  }

  /** handle_recv_with_pending_notification, when it applies. */
  function TakeNotification(s: State, me: Tid): (r: State)
    requires s.T(me).bound.Some?
    ensures r.current == s.current
  {
    var n, c := s.T(me).bound.value, s.T(me);
    var s := s.WithT(me, c.(buf := c.buf.(senderBadge := s.N(n).word)));
    SetResult(s.WithN(n, s.N(n).(word := 0)), me, OK_TAG)
  }

  function Recv(s: State, me: Tid, e: Eid, capsOk: bool): (r: State)
    ensures r.current == s.current
  {
    if PendingNotification(s, me) then TakeNotification(s, me)
    else if RecvWillBlock(s, e) then Schedule(QueueOnEndpoint(s, me, e, Receiving))
    else ReceiveFromBlocked(s, me, e, capsOk)
  }

  function NbRecv(s: State, me: Tid, e: Eid, capsOk: bool): (r: State)
    ensures r.current == s.current
  {
    if PendingNotification(s, me) then TakeNotification(s, me)
    else if RecvWillBlock(s, e) then SetResult(s, me, OK_TAG)
    else ReceiveFromBlocked(s, me, e, capsOk)
  }

  /** invoke_reply; without a thread waiting for the reply it traps, and the trap handler halts the CPU. */
  function Reply(s: State, me: Tid, capsOk: bool): (r: State)
    ensures r.current == s.current
  {
    var target := s.T(me).replyTo;
    if target.None? || s.T(target.value).state != Calling then s.(panicked := true) else
      var s := TransferMessage(s, me, target.value, 0, s.T(me).live.outgoing, capsOk);
      var s := s.WithT(me, s.T(me).(owes := None));
      ScheduleTcb(s, target.value)
  }

  function ReplyRecv(s: State, me: Tid, e: Eid, capsOk: bool, capsOk': bool): (r: State)
    ensures r.current == s.current
  {
    Recv(Reply(s, me, capsOk), me, e, capsOk')
  }

  // ----- notification.c -----

  function Or(a: Word, b: Word): Word { a | b }

  function WakeReceiver(s: State, r: Tid, badge: Word): (s': State)
    ensures s'.current == s.current
  {
    var s := SetResult(s, r, OK_TAG);
    SwitchTcb(s.WithT(r, s.T(r).(buf := s.T(r).buf.(senderBadge := badge))), r)
  }

  /** remove_from_list on a send_receive_node, whichever list holds it. */
  function Unlink(s: State, t: Tid): (r: State)
    ensures r.current == s.current
  {
    var s' := s.WithT(t, s.T(t).(sendLink := Off));
    match s.T(t).sendLink
    case Off => s'
    case OnEndpoint(e) => s'.WithE(e, Without(s.E(e), t))
    case OnNotification(n) => s'.WithN(n, s.N(n).(queue := Without(s.N(n).queue, t)))
  }

  function Signal(s: State, n: Nid, badge: Word): (r: State)
    ensures r.current == s.current
  {
    var x := s.N(n);
    var word := Or(x.word, badge);
    if x.queue == [] && x.bound.Some? && s.T(x.bound.value).state == Receiving then
      WakeReceiver(Unlink(s.WithN(n, x.(word := 0)), x.bound.value), x.bound.value, word)
    else if x.queue == [] then s.WithN(n, x.(word := word))
    else WakeReceiver(Unlink(s.WithN(n, x.(word := 0)), x.queue[0]), x.queue[0], word)
  }

  function Wait(s: State, me: Tid, n: Nid): (r: State)
    ensures r.current == s.current
  {
    var s := if s.N(n).bound.Some? && s.N(n).bound != Some(me) then Schedule(KillTcb(s, me)) else s;
    if s.N(n).word == 0 then
      var s := s.WithN(n, s.N(n).(queue := [me] + s.N(n).queue));
      Schedule(s.WithT(me, s.T(me).(sendLink := OnNotification(n), state := Receiving)))
    else SetResult(s.WithN(n, s.N(n).(word := 0)), me, OK_TAG)
  }

  // ----- One kernel entry -----

  datatype Action =
    | Exit | Yield
    | DoSend(e: Eid, badge: Word) | DoCall(e: Eid, badge: Word)
    | DoRecv(e: Eid) | DoNbRecv(e: Eid) | DoReply | DoReplyRecv(e: Eid)
    | DoSignal(n: Nid, badge: Word) | DoWait(n: Nid)
    | Resume(t: Tid) | Bind(t: Tid, n: Nid)
    | Irq(n: Nid, badge: Word)

  /** A kernel entry: what the current thread left in its registers and its IPC buffer, what it
      asks for (or an interrupt), and whether the slot lookups of a capability transfer succeed. */
  datatype Step = Step(user: Frame, msg: seq<Word>, act: Action, capsOk: bool, capsOk': bool)

  /** The frame the entry code saves and the buffer the user wrote. */
  function Enter(s: State, st: Step): State
  {
    if s.current.None? then s else
      var t := s.current.value;
      s.WithT(t, s.T(t).(live := st.user, buf := s.T(t).buf.(msg := st.msg)))
  }

  function Act(s: State, me: Tid, st: Step): (r: State)
    ensures r.current == s.current
  {
    match st.act
    case Exit => Schedule(KillTcb(s, me))
    case Yield => Schedule(s)
    case DoSend(e, badge) => Send(s, me, e, badge, st.capsOk)
    case DoCall(e, badge) => Call(s, me, e, badge, st.capsOk)
    case DoRecv(e) => Recv(s, me, e, st.capsOk)
    case DoNbRecv(e) => NbRecv(s, me, e, st.capsOk)
    case DoReply => SetResult(Reply(s, me, st.capsOk), me, s.T(me).live.outgoing)
    case DoReplyRecv(e) => ReplyRecv(s, me, e, st.capsOk, st.capsOk')
    case DoSignal(n, badge) => Signal(s, n, badge)
    case DoWait(n) => Wait(s, me, n)
    case Resume(t) => SetResult(ScheduleTcb(s, t), me, OK_TAG)
    case Bind(t, n) =>
      SetResult(BindNotification(s, t, n), me, if s.N(n).bound.Some? then ILLEGAL_OPERATION_TAG else OK_TAG)
    case Irq(n, badge) => Signal(s, n, badge)
  }

  /** One whole kernel entry, up to the return to user mode or the idle loop. */
  function Next(s: State, st: Step): State
  {
    var s := Enter(s, st);
    match st.act
    case Irq(n, badge) => ReturnFromKernel(Signal(s, n, badge))
    case _ => if s.current.None? then s else ReturnFromKernel(Act(s, s.current.value, st))
  }
}
