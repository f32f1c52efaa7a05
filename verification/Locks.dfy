/** The ticket lock and the reader/writer lock (lib/spin_lock.c) over every interleaving of
    their atomic steps. */
module Locks {

  /** Counters are 32-bit and wrap around. */
  const WRAP: nat := 0x1_0000_0000

  type Tid = nat

  /** What a thread wants the lock for: spin_lock, read_lock or write_lock. */
  datatype Mode = Plain | Reader | Writer

  /** Where a thread stands between two atomic steps. */
  datatype Pc =
    | Idle
    | Spinning(mode: Mode, ticket: nat)
    | InGate(mode: Mode)
    | Counted
    | Reading
    | Writing

  datatype Lock = Lock(front: nat, back: nat, readers: nat, pc: map<Tid, Pc>)

  datatype Turn = Turn(tid: Tid, mode: Mode)

  /** What has happened: tickets taken, gates passed and lock calls that came through, in order. */
  datatype History = History(takes: seq<Turn>, grants: seq<Turn>, entered: seq<Turn>, released: nat, at: map<Tid, nat>)

  datatype World = World(lock: Lock, past: History)

  /** A thread has its ticket and has not given the gate back. */
  predicate Queued(p: Pc) { p.Spinning? || HasGate(p) }
  predicate HasGate(p: Pc) { p.InGate? || p.Counted? || p.Writing? }
  /** Its lock call has taken effect. */
  predicate Inside(p: Pc) { p == InGate(Plain) || p.Counted? || p.Writing? }
  predicate Counts(p: Pc) { p.Counted? || p.Reading? }

  function ModeOf(p: Pc): Mode
    requires Queued(p)
  {
    match p
    case Spinning(m, _) => m
    case InGate(m) => m
    case Counted => Reader
    case Writing => Writer
  }

  // ----- One atomic step -----

  /** The next atomic step of thread `t`; an idle thread starts a lock call of the given mode. */
  function Step(w: World, t: Tid, mode: Mode): World
  {
    var l, h := w.lock, w.past;
    if t !in l.pc then w else
      match l.pc[t]
      case Idle =>
        World(l.(pc := l.pc[t := Spinning(mode, l.back)], back := (l.back + 1) % WRAP),
              h.(takes := h.takes + [Turn(t, mode)], at := h.at[t := |h.takes|]))
      case Spinning(m, k) =>
        if l.front != k then w else
          World(l.(pc := l.pc[t := InGate(m)]),
                h.(grants := h.grants + [Turn(t, m)], entered := if m == Plain then h.entered + [Turn(t, m)] else h.entered))
      case InGate(m) =>
        if m == Plain then
          World(l.(pc := l.pc[t := Idle], front := (l.front + 1) % WRAP), h.(released := h.released + 1))
        else if m == Reader then
          World(l.(pc := l.pc[t := Counted], readers := (l.readers + 1) % WRAP), h.(entered := h.entered + [Turn(t, m)]))
        else if l.readers != 0 then w
        else World(l.(pc := l.pc[t := Writing]), h.(entered := h.entered + [Turn(t, m)]))
      case Counted =>
        World(l.(pc := l.pc[t := Reading], front := (l.front + 1) % WRAP), h.(released := h.released + 1))
      case Reading =>
        World(l.(pc := l.pc[t := Idle], readers := (l.readers + WRAP - 1) % WRAP), h)
      case Writing =>
        World(l.(pc := l.pc[t := Idle], front := (l.front + 1) % WRAP), h.(released := h.released + 1))
  }

  /** Any interleaving is a schedule: which thread steps, and what it would start. */
  function Run(w: World, schedule: seq<Turn>): World
  {
    if schedule == [] then w else
      var before := Run(w, schedule[..|schedule| - 1]);
      Step(before, schedule[|schedule| - 1].tid, schedule[|schedule| - 1].mode)
  }

  /** A new lock among some threads. */
  function Start(threads: set<Tid>): World
  {
    World(Lock(0, 0, 0, map t | t in threads :: Idle), History([], [], [], 0, map[]))
  }

  // ----- What every step keeps -----

  /** The turn with number `i` waits with its ticket or, if it is the oldest, may have the gate. */
  ghost predicate InLine(w: World, i: nat)
    requires i < |w.past.takes|
  {
    var Turn(t, m) := w.past.takes[i];
    && t in w.past.at && w.past.at[t] == i
    && t in w.lock.pc && Queued(w.lock.pc[t]) && ModeOf(w.lock.pc[t]) == m
    && (w.lock.pc[t].Spinning? ==> w.lock.pc[t].ticket == i % WRAP)
    && (HasGate(w.lock.pc[t]) ==> i == w.past.released)
  }

  /** A thread that waits or has the gate is on record. */
  ghost predicate OnRecord(w: World, t: Tid)
    requires t in w.lock.pc
  {
    Queued(w.lock.pc[t]) ==>
      t in w.past.at && w.past.released <= w.past.at[t] < |w.past.takes| && w.past.takes[w.past.at[t]].tid == t
  }

  ghost predicate Line(w: World)
  {
    && w.lock.front == w.past.released % WRAP && w.lock.back == |w.past.takes| % WRAP
    && w.past.released <= |w.past.takes|
    && (forall i :: w.past.released <= i < |w.past.takes| ==> InLine(w, i))
    && (forall t :: t in w.lock.pc ==> OnRecord(w, t))
  }

  /** The thread whose turn is the oldest, and how far it has come. */
  function OldestPc(w: World): Pc
  {
    var h := w.past;
    if h.released < |h.takes| && h.takes[h.released].tid in w.lock.pc then w.lock.pc[h.takes[h.released].tid] else Idle
  }

  function Granted(w: World): nat { if HasGate(OldestPc(w)) then 1 else 0 }
  function Through(w: World): nat { if Inside(OldestPc(w)) then 1 else 0 }

  ghost predicate Logged(w: World)
  {
    var h := w.past;
    && h.released + Granted(w) <= |h.takes|
    && h.grants == h.takes[..h.released + Granted(w)]
    && h.entered == h.takes[..h.released + Through(w)]
  }

  ghost function ReadersOf(pc: map<Tid, Pc>): set<Tid>
  {
    set t | t in pc && Counts(pc[t])
  }

  ghost predicate Counters(l: Lock)
  {
    && l.readers == |ReadersOf(l.pc)|
    && (forall t, u :: t in l.pc && l.pc[t].Writing? && u in l.pc ==> !Counts(l.pc[u]))
  }

  ghost predicate Inv(w: World)
  {
    |w.lock.pc| < WRAP && Line(w) && Logged(w) && Counters(w.lock)
  }

  // ----- There are never more turns than threads -----

  ghost function Turns(w: World, n: nat): set<Tid>
    requires n <= |w.past.takes|
  {
    set i | w.past.released <= i < n :: w.past.takes[i].tid
  }

  /** Different turns in the queue are different threads. */
  lemma TurnsDiffer(w: World, i: nat, j: nat)
    requires Line(w) && w.past.released <= i < j < |w.past.takes|
    ensures w.past.takes[i].tid != w.past.takes[j].tid && w.past.takes[j].tid in w.lock.pc
  {
    assert InLine(w, i) && InLine(w, j);
  }

  lemma {:induction false} TurnsCount(w: World, n: nat)
    requires Line(w) && w.past.released <= n <= |w.past.takes|
    ensures |Turns(w, n)| == n - w.past.released && Turns(w, n) <= w.lock.pc.Keys
    decreases n
  {
    if n > w.past.released {
      hide Line;
      TurnsCount(w, n - 1);
      LineAt(w, n - 1);
      assert Turns(w, n) == Turns(w, n - 1) + {w.past.takes[n - 1].tid};
      forall i | w.past.released <= i < n - 1
        ensures w.past.takes[i].tid != w.past.takes[n - 1].tid
      {
        TurnsDiffer(w, i, n - 1);
      }
    }
  }

  lemma Subset<T>(a: set<T>, b: set<T>)
    requires a <= b
    ensures |a| <= |b|
  {
    assert b == a + (b - a);
  }

  /** Tickets in use are distinct, so the one that equals `front` belongs to the oldest turn. */
  lemma FrontIsOldest(w: World, t: Tid)
    requires |w.lock.pc| < WRAP && Line(w) && t in w.lock.pc && w.lock.pc[t].Spinning? && w.lock.pc[t].ticket == w.lock.front
    ensures w.past.released < |w.past.takes| && w.past.takes[w.past.released] == Turn(t, w.lock.pc[t].mode)
  {
    var h := w.past;
    assert OnRecord(w, t);
    assert InLine(w, h.at[t]);
    TurnsCount(w, |h.takes|);
    Subset(Turns(w, |h.takes|), w.lock.pc.Keys);
    var d := h.at[t] - h.released;
    Apart(h.released, d);
  }

  lemma Apart(a: nat, d: nat)
    requires d < WRAP && a % WRAP == (a + d) % WRAP
    ensures d == 0
  {
    assert a + d == WRAP * ((a + d) / WRAP) + (a + d) % WRAP && a == WRAP * (a / WRAP) + a % WRAP;
    assert d == WRAP * ((a + d) / WRAP - a / WRAP);
  }

  lemma Wraps(a: nat)
    ensures (a % WRAP + 1) % WRAP == (a + 1) % WRAP
  {
  }

  /** A thread that has the gate is the oldest turn. */
  lemma GateIsOldest(w: World, t: Tid)
    requires Line(w) && t in w.lock.pc && HasGate(w.lock.pc[t])
    ensures w.past.released < |w.past.takes| && w.past.takes[w.past.released] == Turn(t, ModeOf(w.lock.pc[t]))
  {
    assert OnRecord(w, t);
    assert InLine(w, w.past.at[t]);
  }

  // ----- The queue -----

  lemma StepKeepsTurn(w: World, t: Tid, mode: Mode, i: nat)
    requires |w.lock.pc| < WRAP && Line(w)
    requires var h := Step(w, t, mode).past; h.released <= i < |h.takes|
    ensures InLine(Step(w, t, mode), i)
  {
    hide Line;
    if t in w.lock.pc {
      if HasGate(w.lock.pc[t]) {
        GateIsOldest(w, t);
        LineAt(w, w.past.released);
      } else if w.lock.pc[t].Spinning? && w.lock.pc[t].ticket == w.lock.front {
        FrontIsOldest(w, t);
        LineAt(w, w.past.released);
      }
    }
    LineAt(w, i);
  }

  lemma LineAt(w: World, i: nat)
    requires Line(w)
    ensures w.past.released <= i < |w.past.takes| ==> InLine(w, i)
    ensures w.lock.back == |w.past.takes| % WRAP
  {
  }

  lemma StepKeepsRecord(w: World, t: Tid, mode: Mode, u: Tid)
    requires |w.lock.pc| < WRAP && Line(w) && u in w.lock.pc
    ensures OnRecord(Step(w, t, mode), u)
  {
    assert OnRecord(w, u);
    if t in w.lock.pc && HasGate(w.lock.pc[t]) {
      GateIsOldest(w, t);
      if u != t && Queued(w.lock.pc[u]) {
        assert InLine(w, w.past.at[u]);
      }
    }
  }

  lemma StepKeepsLine(w: World, t: Tid, mode: Mode)
    requires |w.lock.pc| < WRAP && Line(w)
    ensures Line(Step(w, t, mode)) && Step(w, t, mode).lock.pc.Keys == w.lock.pc.Keys
  {
    hide InLine, OnRecord;
    var w' := Step(w, t, mode);
    if t in w.lock.pc && HasGate(w.lock.pc[t]) {
      GateIsOldest(w, t);
    }
    Wraps(w.past.released);
    Wraps(|w.past.takes|);
    forall i | w'.past.released <= i < |w'.past.takes|
      ensures InLine(w', i)
    {
      StepKeepsTurn(w, t, mode, i);
    }
    forall u | u in w'.lock.pc
      ensures OnRecord(w', u)
    {
      StepKeepsRecord(w, t, mode, u);
    }
  }

  // ----- The logs -----

  /** What a step of the thread with the oldest turn does to the logs. */
  lemma OldestKeepsLogs(w: World, t: Tid, mode: Mode)
    requires Line(w) && Logged(w) && t in w.lock.pc && Line(Step(w, t, mode))
    requires Queued(w.lock.pc[t]) && (w.lock.pc[t].Spinning? ==> w.lock.pc[t].ticket == w.lock.front)
    requires w.past.released < |w.past.takes| && w.past.takes[w.past.released] == Turn(t, ModeOf(w.lock.pc[t]))
    ensures Logged(Step(w, t, mode))
  {
    var w' := Step(w, t, mode);
    var h, n := w.past, w.past.released;
    assert h.takes[..n + 1] == h.takes[..n] + [h.takes[n]];
    if w'.past.released == n + 1 {
      NextIsSpinning(w, t, w');
    }
  }

  lemma NextIsSpinning(w: World, t: Tid, w': World)
    requires Line(w) && Line(w') && w'.past.released == w.past.released + 1 && w'.past.takes == w.past.takes
    requires t in w'.lock.pc && w'.lock.pc == w.lock.pc[t := w'.lock.pc[t]] && !Queued(w'.lock.pc[t])
    ensures !HasGate(OldestPc(w'))
  {
    var n := w'.past.released;
    if n < |w.past.takes| {
      assert InLine(w, n) && InLine(w', n);
    }
  }

  lemma StepKeepsLogs(w: World, t: Tid, mode: Mode)
    requires |w.lock.pc| < WRAP && Line(w) && Logged(w)
    ensures Logged(Step(w, t, mode))
  {
    hide Line, Logged;
    if t in w.lock.pc {
      StepKeepsLine(w, t, mode);
      if HasGate(w.lock.pc[t]) {
        GateIsOldest(w, t);
        OldestKeepsLogs(w, t, mode);
      } else if w.lock.pc[t].Spinning? {
        if w.lock.pc[t].ticket == w.lock.front {
          FrontIsOldest(w, t);
          OldestKeepsLogs(w, t, mode);
        }
      } else {
        OtherKeepsLogs(w, t, mode);
      }
    }
  }

  lemma OtherKeepsLogs(w: World, t: Tid, mode: Mode)
    requires Line(w) && Logged(w) && t in w.lock.pc && !Queued(w.lock.pc[t])
    ensures Logged(Step(w, t, mode))
  {
    if w.past.released < |w.past.takes| {
      assert InLine(w, w.past.released);
    }
  }

  // ----- The counter -----

  lemma ReadersChange(pc: map<Tid, Pc>, t: Tid, p: Pc)
    requires t in pc
    ensures ReadersOf(pc[t := p]) == if Counts(p) then ReadersOf(pc) + {t} else ReadersOf(pc) - {t}
  {
  }

  /** Two threads never have the gate together. */
  lemma OneGate(w: World, t: Tid, u: Tid)
    requires Line(w) && t in w.lock.pc && u in w.lock.pc && HasGate(w.lock.pc[t]) && HasGate(w.lock.pc[u])
    ensures t == u
  {
    GateIsOldest(w, t);
    GateIsOldest(w, u);
  }

  lemma StepKeepsCount(w: World, t: Tid, mode: Mode)
    requires Inv(w)
    ensures var l := Step(w, t, mode).lock; l.readers == |ReadersOf(l.pc)|
  {
    hide Line, Logged;
    var l', pc := Step(w, t, mode).lock, w.lock.pc;
    if t in pc {
      ReadersChange(pc, t, l'.pc[t]);
      Subset(ReadersOf(pc), pc.Keys);
      if pc[t] == InGate(Reader) {
        Subset(ReadersOf(pc) + {t}, pc.Keys);
      }
      if pc[t].Reading? {
        assert t in ReadersOf(pc);
      }
    }
  }

  lemma StepKeepsWriter(w: World, t: Tid, mode: Mode, x: Tid, u: Tid)
    requires Inv(w) && x in w.lock.pc && u in w.lock.pc
    requires Step(w, t, mode).lock.pc[x].Writing?
    ensures !Counts(Step(w, t, mode).lock.pc[u])
  {
    hide Line, Logged;
    var pc := w.lock.pc;
    if t in pc {
      assert x != t ==> pc[x].Writing?;
      if x != t && t == u && HasGate(pc[t]) {
        OneGate(w, x, t);
      }
      assert u in ReadersOf(pc) <==> Counts(pc[u]);
    }
  }

  lemma StepKeepsCounters(w: World, t: Tid, mode: Mode)
    requires Inv(w)
    ensures Counters(Step(w, t, mode).lock)
  {
    hide Inv, ReadersOf, Counts;
    StepKeepsCount(w, t, mode);
    var pc' := Step(w, t, mode).lock.pc;
    forall x, u | x in pc' && pc'[x].Writing? && u in pc'
      ensures !Counts(pc'[u])
    {
      StepKeepsWriter(w, t, mode, x, u);
    }
  }

  // ----- Whole runs -----

  lemma StepKeeps(w: World, t: Tid, mode: Mode)
    requires Inv(w)
    ensures Inv(Step(w, t, mode))
  {
    StepKeepsLine(w, t, mode);
    StepKeepsLogs(w, t, mode);
    StepKeepsCounters(w, t, mode);
    var w' := Step(w, t, mode);
    assert |w'.lock.pc| == |w'.lock.pc.Keys| == |w.lock.pc.Keys|;
  }

  lemma StartInv(threads: set<Tid>)
    requires |threads| < WRAP
    ensures Inv(Start(threads))
  {
    var w := Start(threads);
    assert w.lock.pc.Keys == threads;
    assert |w.lock.pc| == |w.lock.pc.Keys|;
    assert ReadersOf(w.lock.pc) == {};
  }

  lemma {:induction false} RunKeeps(threads: set<Tid>, schedule: seq<Turn>)
    requires |threads| < WRAP
    ensures Inv(Run(Start(threads), schedule))
    decreases |schedule|
  {
    if schedule == [] {
      StartInv(threads);
    } else {
      RunKeeps(threads, schedule[..|schedule| - 1]);
      var last := schedule[|schedule| - 1];
      StepKeeps(Run(Start(threads), schedule[..|schedule| - 1]), last.tid, last.mode);
    }
  }

  // ----- What the locks promise -----

  /** At most one thread has the gate. */
  lemma MutualExclusion(threads: set<Tid>, schedule: seq<Turn>, t: Tid, u: Tid)
    requires |threads| < WRAP
    requires var pc := Run(Start(threads), schedule).lock.pc; t in pc && u in pc && HasGate(pc[t]) && HasGate(pc[u])
    ensures t == u
  {
    RunKeeps(threads, schedule);
    OneGate(Run(Start(threads), schedule), t, u);
  }

  /** A writer is alone: no reader and no other writer. */
  lemma WriterAlone(threads: set<Tid>, schedule: seq<Turn>, t: Tid, u: Tid)
    requires |threads| < WRAP
    requires var pc := Run(Start(threads), schedule).lock.pc;
             t in pc && u in pc && t != u && pc[t].Writing?
    ensures var p := Run(Start(threads), schedule).lock.pc[u]; !p.Writing? && !p.Reading? && !p.Counted?
  {
    RunKeeps(threads, schedule);
    if Run(Start(threads), schedule).lock.pc[u].Writing? {
      MutualExclusion(threads, schedule, t, u);
    }
  }

  /** The gate is granted in ticket order, and lock calls of all kinds come through in that order, so
      no reader with a later ticket comes in before a writer. */
  lemma TicketOrder(threads: set<Tid>, schedule: seq<Turn>)
    requires |threads| < WRAP
    ensures var h := Run(Start(threads), schedule).past;
            h.entered <= h.grants <= h.takes && |h.grants| <= |h.entered| + 1
  {
    RunKeeps(threads, schedule);
    var w := Run(Start(threads), schedule);
  }

  /** While some lock call or critical section is under way, some thread can move. */
  lemma NeverStuck(threads: set<Tid>, schedule: seq<Turn>, t: Tid)
    requires |threads| < WRAP
    requires var pc := Run(Start(threads), schedule).lock.pc; t in pc && !pc[t].Idle?
    ensures var w := Run(Start(threads), schedule);
            exists u, m :: u in w.lock.pc && !w.lock.pc[u].Idle? && Step(w, u, m) != w
  {
    RunKeeps(threads, schedule);
    var w := Run(Start(threads), schedule);
    assert OnRecord(w, t);
    if w.lock.pc[t].Reading? {
      assert Step(w, t, Plain) != w;
    } else {
      assert InLine(w, w.past.released);
      var u := w.past.takes[w.past.released].tid;
      if w.lock.pc[u] == InGate(Writer) && w.lock.readers != 0 {
        var r :| r in ReadersOf(w.lock.pc);
        assert w.lock.pc[r].Counted? ==> r == u by {
          if w.lock.pc[r].Counted? {
            GateIsOldest(w, r);
          }
        }
        assert Step(w, r, Plain) != w;
      } else {
        assert Step(w, u, Plain).lock.pc[u] != w.lock.pc[u];
        assert Step(w, u, Plain) != w;
      }
    }
  }

  /** Two readers can be inside at the same time. */
  lemma ReadersTogether(w: World, t: Tid, u: Tid)
    requires t != u && t in w.lock.pc && u in w.lock.pc && w.lock.pc[t] == Reading && w.lock.pc[u] == Idle
    requires w.lock.front == w.lock.back
    ensures var w1 := Step(w, u, Reader);
            var w2 := Step(w1, u, Reader);
            var w3 := Step(w2, u, Reader);
            var w4 := Step(w3, u, Reader);
            w4.lock.pc[t] == w4.lock.pc[u] == Reading && w4.lock.front == w4.lock.back && w4.lock.readers == (w.lock.readers + 1) % WRAP
  {
  }
}
