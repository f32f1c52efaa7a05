/** Waiting on a notification that is bound to another thread: the path on which conservation can fail, with
    its exact condition (kern/obj/notification.c). */
module KernelEdges {
  import opened Seqs
  import opened Wrappers
  import opened KernelState
  import opened KernelInv

  // ----- Waiting on a notification that is bound to another thread -----

  /** A running thread dies where another routine still expects it to be alive. */
  lemma KillThenQueueWhenIdle(s: State, me: Tid, n: Nid)
    requires Inv(s) && s.current == Some(me) && s.runq == [] && s.N(n).word == 0
    requires s.N(n).bound.Some? && s.N(n).bound != Some(me)
    ensures Wait(s, me, n) == Schedule(QueueOnNotification(s, me, n))
  {
    assert Shape(s.T(me), true, false);
    var k := Schedule(KillTcb(s, me));
    assert k == s.WithT(me, s.T(me).(state := Dead)).(returnTo := None);
    var q, q' := QueueOnNotification(k, me, n), QueueOnNotification(s, me, n);
    assert q.tcbs == q'.tcbs && q.ntfns == q'.ntfns;
  }

  lemma KillThenTakeWord(s: State, me: Tid, n: Nid)
    requires Inv(s) && s.current == Some(me) && s.N(n).word != 0
    requires s.N(n).bound.Some? && s.N(n).bound != Some(me)
    ensures Decided(Wait(s, me, n))
  {
    hide Decided, Schedule, KillTcb;
    var k := Schedule(KillTcb(s, me));
    ExitKeeps(s, me);
    ExitKeepsWords(s, me, n);
    var k' := k.WithN(n, k.N(n).(word := 0));
    SameShapesKeep(k, k');
    SameShapesKeep(k', SetResult(k', me, OK_TAG));
  }

  lemma ExitKeepsWords(s: State, me: Tid, n: Nid)
    ensures Schedule(KillTcb(s, me)).N(n) == s.N(n)
  {
  }

  /** With a ready thread in the run queue, the first schedule() picks it, the second one drops it. */
  lemma KillThenQueueLosesAThread(s: State, me: Tid, n: Nid)
    requires Inv(s) && s.current == Some(me) && s.runq != [] && s.N(n).word == 0
    requires s.N(n).bound.Some? && s.N(n).bound != Some(me)
    ensures var s', x := ReturnFromKernel(Wait(s, me, n)), s.runq[0];
            && s'.T(x).state == Runnable && s'.T(x).runLink == Alone && x !in s'.runq
            && s'.current != Some(x) && s'.returnTo != Some(x)
  {
    hide QueuesOk, Schedule, ReturnFromKernel;
    var x := s.runq[0];
    assert Shape(s.T(me), true, false) && x in s.runq && x != me && x !in s.runq[1..];
    var k := KillTcb(s, me);
    Picked(k);
    var q := QueueOnNotification(Schedule(k), me, n);
    DropsTheHanded(q, me, x);
  }

  /** A second schedule() by a thread that blocked, and the return: a thread that had been handed the
      CPU before is forgotten. */
  lemma DropsTheHanded(q: State, me: Tid, x: Tid)
    requires q.current == Some(me) && q.T(me).state == Receiving && Distinct(q.runq) && x !in q.runq && x != me
    requires me !in q.runq && q.T(x).state == Runnable && q.T(x).runLink == Alone
    ensures var s' := ReturnFromKernel(Schedule(q));
            && s'.T(x).state == Runnable && s'.T(x).runLink == Alone && x !in s'.runq
            && s'.current != Some(x) && s'.returnTo != Some(x)
  {
    if q.runq != [] {
      var y := q.runq[0];
      Picked(q);
      hide Schedule;
      var r := Schedule(q);
      assert y in q.runq && r.T(x) == q.T(x) && r.T(me) == q.T(me) && x !in r.runq;
      BlockedLeaves(r, me, x, y);
    }
  }

  lemma BlockedLeaves(r: State, me: Tid, x: Tid, y: Tid)
    requires r.current == Some(me) && r.T(me).state == Receiving && r.returnTo == Some(y) && y != me && x != me && x != y
    ensures var s' := ReturnFromKernel(r); s'.T(x) == r.T(x) && s'.runq == r.runq && s'.current == s'.returnTo == Some(y)
  {
    hide ScheduleTcb;
    var a := SaveTcb(r, me);
    assert a.T(me).state == Receiving && a.T(x) == r.T(x);
  }

  /** Conservation survives notification receive exactly unless the notification is bound to
      another thread, has no pending word, and some thread is ready to run. */
  lemma WaitKeepsIff(s: State, me: Tid, n: Nid)
    requires Inv(s) && s.current == Some(me)
    ensures Inv(ReturnFromKernel(Wait(s, me, n))) <==>
            !(s.N(n).bound.Some? && s.N(n).bound != Some(me) && s.N(n).word == 0 && s.runq != [])
  {
    hide Decided, Wait, ReturnFromKernel;
    if s.N(n).bound.None? || s.N(n).bound == Some(me) {
      WaitKeeps(s, me, n);
      ReturnKeeps(Wait(s, me, n));
    } else if s.N(n).word != 0 {
      KillThenTakeWord(s, me, n);
      ReturnKeeps(Wait(s, me, n));
    } else if s.runq == [] {
      KillThenQueueWhenIdle(s, me, n);
      BlockOnNotificationKeeps(s, me, n);
      ReturnKeeps(Wait(s, me, n));
    } else {
      KillThenQueueLosesAThread(s, me, n);
      var s' := ReturnFromKernel(Wait(s, me, n));
      if Inv(s') {
        ExactlyOnePlace(s', s.runq[0], NotStarted);
      }
    }
  }
}
