/** The ChaCha20 stream cipher (lib/chacha.c; sections 2.1, 2.3 and 2.4 of RFC 8439). */
module ChaCha {

  type Word = bv32
  type Byte = bv8

  // ----- Words and bytes -----

  function Add(x: Word, y: Word): Word { x + y }
  function Sub(x: Word, y: Word): Word { x - y }
  function Xor(x: Word, y: Word): Word { x ^ y }
  function XorByte(x: Byte, y: Byte): Byte { x ^ y }

  /** The four rotations in use. */
  datatype Turn = By16 | By12 | By8 | By7

  function Rol(x: Word, n: Turn): Word
  {
    match n
    case By16 => (x << 16) | (x >> 16)
    case By12 => (x << 12) | (x >> 20)
    case By8 => (x << 8) | (x >> 24)
    case By7 => (x << 7) | (x >> 25)
  }

  function Ror(x: Word, n: Turn): Word
  {
    match n
    case By16 => (x << 16) | (x >> 16)
    case By12 => (x << 20) | (x >> 12)
    case By8 => (x << 24) | (x >> 8)
    case By7 => (x << 25) | (x >> 7)
  }

  lemma PlusMinus(x: Word, y: Word)
    ensures Sub(x + y, y) == x
  {
  }

  lemma MinusPlus(x: Word, y: Word)
    ensures Add(x - y, y) == x
  {
  }

  lemma AddSub(x: Word, y: Word)
    ensures Sub(Add(x, y), y) == x
  {
    hide Sub;
    PlusMinus(x, y);
  }

  lemma SubAdd(x: Word, y: Word)
    ensures Add(Sub(x, y), y) == x
  {
    hide Add;
    MinusPlus(x, y);
  }

  lemma Turn16(x: Word)
    ensures Ror(Rol(x, By16), By16) == x
  {
  }

  lemma Turn16Back(x: Word)
    ensures Rol(Ror(x, By16), By16) == x
  {
  }

  lemma Turn12(x: Word)
    ensures Ror(Rol(x, By12), By12) == x
  {
  }

  lemma Turn12Back(x: Word)
    ensures Rol(Ror(x, By12), By12) == x
  {
  }

  lemma Turn8(x: Word)
    ensures Ror(Rol(x, By8), By8) == x
  {
  }

  lemma Turn8Back(x: Word)
    ensures Rol(Ror(x, By8), By8) == x
  {
  }

  lemma Turn7(x: Word)
    ensures Ror(Rol(x, By7), By7) == x
  {
  }

  lemma Turn7Back(x: Word)
    ensures Rol(Ror(x, By7), By7) == x
  {
  }

  lemma RolRor(x: Word, n: Turn)
    ensures Ror(Rol(x, n), n) == x && Rol(Ror(x, n), n) == x
  {
    hide Rol, Ror;
    match n {
      case By16 => Turn16(x); Turn16Back(x);
      case By12 => Turn12(x); Turn12Back(x);
      case By8 => Turn8(x); Turn8Back(x);
      case By7 => Turn7(x); Turn7Back(x);
    }
  }

  lemma XorXor(x: Word, y: Word)
    ensures Xor(Xor(x, y), y) == x
  {
  }

  lemma XorXorByte(x: Byte, y: Byte)
    ensures XorByte(XorByte(x, y), y) == x
  {
  }

  // ----- Rounds -----

  type State = s: seq<Word> | |s| == 16 witness seq(16, i => 0)

  /** state[a] += state[b]; or state[a] = rol (state[a] ^ state[b], n). */
  datatype Op = AddTo(a: nat, b: nat) | XorRol(a: nat, b: nat, n: Turn)

  predicate WellFormed(op: Op) { op.a < 16 && op.b < 16 && op.a != op.b }

  function Do(op: Op, s: State): State
    requires WellFormed(op)
  {
    match op
    case AddTo(a, b) => s[a := Add(s[a], s[b])]
    case XorRol(a, b, n) => s[a := Rol(Xor(s[a], s[b]), n)]
  }

  function Undo(op: Op, s: State): State
    requires WellFormed(op)
  {
    match op
    case AddTo(a, b) => s[a := Sub(s[a], s[b])]
    case XorRol(a, b, n) => s[a := Xor(Ror(s[a], n), s[b])]
  }

  predicate Program(p: seq<Op>) { forall i :: 0 <= i < |p| ==> WellFormed(p[i]) }

  function DoAll(p: seq<Op>, s: State): State
    requires Program(p)
  {
    if p == [] then s else Do(p[|p| - 1], DoAll(p[..|p| - 1], s))
  }

  function UndoAll(p: seq<Op>, s: State): State
    requires Program(p)
  {
    if p == [] then s else UndoAll(p[..|p| - 1], Undo(p[|p| - 1], s))
  }

  lemma DoUndo(op: Op, s: State)
    requires WellFormed(op)
    ensures Undo(op, Do(op, s)) == s && Do(op, Undo(op, s)) == s
  {
    hide Add, Sub, Xor, Rol, Ror;
    AddSub(s[op.a], s[op.b]);
    SubAdd(s[op.a], s[op.b]);
    XorXor(s[op.a], s[op.b]);
    if op.XorRol? {
      RolRor(Xor(s[op.a], s[op.b]), op.n);
      XorXor(Ror(s[op.a], op.n), s[op.b]);
      RolRor(s[op.a], op.n);
    }
  }

  lemma {:induction false} DoUndoAll(p: seq<Op>, s: State)
    requires Program(p)
    ensures UndoAll(p, DoAll(p, s)) == s && DoAll(p, UndoAll(p, s)) == s
  {
    hide Do, Undo;
    if p != [] {
      var front, last := p[..|p| - 1], p[|p| - 1];
      DoUndo(last, DoAll(front, s));
      DoUndo(last, s);
      DoUndoAll(front, s);
      DoUndoAll(front, Undo(last, s));
    }
  }

  lemma {:induction false} DoAllAppend(p: seq<Op>, q: seq<Op>, s: State)
    requires Program(p) && Program(q)
    ensures Program(p + q) && DoAll(p + q, s) == DoAll(q, DoAll(p, s))
  {
    hide Do;
    if q == [] {
      assert p + q == p;
    } else {
      DoAllAppend(p, q[..|q| - 1], s);
      assert (p + q)[..|p + q| - 1] == p + q[..|q| - 1];
    }
  }

  function QuarterRound(a: nat, b: nat, c: nat, d: nat): seq<Op>
  {
    [AddTo(a, b), XorRol(d, a, By16), AddTo(c, d), XorRol(b, c, By12),
     AddTo(a, b), XorRol(d, a, By8), AddTo(c, d), XorRol(b, c, By7)]
  }

  /** A column round and a diagonal round. */
  function DoubleRound(): seq<Op>
  {
    QuarterRound(0, 4, 8, 12) + QuarterRound(1, 5, 9, 13) + QuarterRound(2, 6, 10, 14) + QuarterRound(3, 7, 11, 15)
    + QuarterRound(0, 5, 10, 15) + QuarterRound(1, 6, 11, 12) + QuarterRound(2, 7, 8, 13) + QuarterRound(3, 4, 9, 14)
  }

  /** The quarter round, step by step. */
  lemma QuarterRoundSteps(a: nat, b: nat, c: nat, d: nat, s: State)
    requires a < 16 && b < 16 && c < 16 && d < 16 && a != b && a != c && a != d && b != c && b != d && c != d
    ensures Program(QuarterRound(a, b, c, d))
    ensures var s1 := Do(XorRol(b, c, By12), Do(AddTo(c, d), Do(XorRol(d, a, By16), Do(AddTo(a, b), s))));
            DoAll(QuarterRound(a, b, c, d), s) == Do(XorRol(b, c, By7), Do(AddTo(c, d), Do(XorRol(d, a, By8), Do(AddTo(a, b), s1))))
  {
    hide Do;
    var p := QuarterRound(a, b, c, d);
    assert DoAll(p[..0], s) == s;
    DoAllFirst(p, 1, s);
    DoAllFirst(p, 2, s);
    DoAllFirst(p, 3, s);
    DoAllFirst(p, 4, s);
    DoAllFirst(p, 5, s);
    DoAllFirst(p, 6, s);
    DoAllFirst(p, 7, s);
    DoAllFirst(p, 8, s);
    assert p[..8] == p;
  }

  lemma DoAllFirst(p: seq<Op>, k: nat, s: State)
    requires Program(p) && 0 < k <= |p|
    ensures DoAll(p[..k], s) == Do(p[k - 1], DoAll(p[..k - 1], s))
  {
    hide Do;
    assert p[..k][..k - 1] == p[..k - 1];
  }

  /** The example of section 2.1.1 of RFC 8439. */
  lemma QuarterRoundExample(s: State)
    requires s[0] == 0x11111111 && s[4] == 0x01020304 && s[8] == 0x9b8d6f43 && s[12] == 0x01234567
    ensures Program(QuarterRound(0, 4, 8, 12))
    ensures DoAll(QuarterRound(0, 4, 8, 12), s)
            == s[0 := 0xea2a92f4][4 := 0xcb1cf8ce][8 := 0x4581472e][12 := 0x5881c4bb]
  {
    hide DoAll;
    QuarterRoundSteps(0, 4, 8, 12, s);
    var s1 := Do(AddTo(0, 4), s);
    assert s1[0] == 0x12131415;
    var s2 := Do(XorRol(12, 0, By16), s1);
    assert s2[12] == 0x51721330;
    var s3 := Do(AddTo(8, 12), s2);
    assert s3[8] == 0xecff8273;
    var s4 := Do(XorRol(4, 8, By12), s3);
    assert s4[4] == 0xd8177edf;
    var s5 := Do(AddTo(0, 4), s4);
    assert s5[0] == 0xea2a92f4;
    var s6 := Do(XorRol(12, 0, By8), s5);
    assert s6[12] == 0x5881c4bb;
    var s7 := Do(AddTo(8, 12), s6);
    assert s7[8] == 0x4581472e;
    var s8 := Do(XorRol(4, 8, By7), s7);
    assert s8[4] == 0xcb1cf8ce && s8[0] == 0xea2a92f4 && s8[8] == 0x4581472e && s8[12] == 0x5881c4bb;
    assert DoAll(QuarterRound(0, 4, 8, 12), s) == s8;
    assert s8 == s[0 := 0xea2a92f4][4 := 0xcb1cf8ce][8 := 0x4581472e][12 := 0x5881c4bb];
  }

  // ----- The block function -----

  function Rounds(n: nat, s: State): State
  {
    if n == 0 then s else
      DoubleRoundProgram();
      DoAll(DoubleRound(), Rounds(n - 1, s))
  }

  function Unrounds(n: nat, s: State): State
  {
    if n == 0 then s else
      DoubleRoundProgram();
      Unrounds(n - 1, UndoAll(DoubleRound(), s))
  }

  lemma DoubleRoundProgram()
    ensures Program(DoubleRound())
  {
    hide DoubleRound, Program;
    DoubleRoundSplits(seq(16, i => 0));
  }

  /** The rounds without the final addition are a bijection: Unrounds is their inverse on both sides. */
  lemma {:induction false} RoundsBijective(n: nat, s: State)
    ensures Unrounds(n, Rounds(n, s)) == s && Rounds(n, Unrounds(n, s)) == s
  {
    hide DoubleRound, DoAll, UndoAll;
    if n > 0 {
      DoubleRoundProgram();
      RoundsBijective(n - 1, s);
      DoUndoAll(DoubleRound(), Rounds(n - 1, s));
      DoUndoAll(DoubleRound(), s);
      RoundsBijective(n - 1, UndoAll(DoubleRound(), s));
    }
  }

  function DoubleRounds(rounds: int): nat { if rounds <= 0 then 0 else rounds / 2 }

  function AddAll(s: State, t: State): State { seq(16, i requires 0 <= i < 16 => Add(s[i], t[i])) }

  function Block(s: State, rounds: int, reAdd: bool): State
  {
    var r := Rounds(DoubleRounds(rounds), s);
    if reAdd then AddAll(r, s) else r
  }

  method QuarterRoundInPlace(state: array<Word>, a: nat, b: nat, c: nat, d: nat)
    requires state.Length == 16
    requires a < 16 && b < 16 && c < 16 && d < 16 && a != b && a != c && a != d && b != c && b != d && c != d
    modifies state
    ensures Program(QuarterRound(a, b, c, d)) && state[..] == DoAll(QuarterRound(a, b, c, d), old(state[..]))
  {
    hide Add, Xor, Rol, QuarterRound, DoAll;
    QuarterRoundSteps(a, b, c, d, state[..]);
    AddInPlace(state, a, b);
    XorRolInPlace(state, d, a, By16);
    AddInPlace(state, c, d);
    XorRolInPlace(state, b, c, By12);
    AddInPlace(state, a, b);
    XorRolInPlace(state, d, a, By8);
    AddInPlace(state, c, d);
    XorRolInPlace(state, b, c, By7);
  }

  method AddInPlace(state: array<Word>, a: nat, b: nat)
    requires state.Length == 16 && WellFormed(AddTo(a, b))
    modifies state
    ensures state[..] == Do(AddTo(a, b), old(state[..]))
  {
    hide Add;
    state[a] := Add(state[a], state[b]);
  }

  method XorRolInPlace(state: array<Word>, a: nat, b: nat, n: Turn)
    requires state.Length == 16 && WellFormed(XorRol(a, b, n))
    modifies state
    ensures state[..] == Do(XorRol(a, b, n), old(state[..]))
  {
    hide Xor, Rol;
    state[a] := Rol(Xor(state[a], state[b]), n);
  }

  method DoubleRoundInPlace(state: array<Word>)
    requires state.Length == 16
    modifies state
    ensures Program(DoubleRound()) && state[..] == DoAll(DoubleRound(), old(state[..]))
  {
    hide QuarterRound, DoAll;
    DoubleRoundSplits(state[..]);
    QuarterRoundInPlace(state, 0, 4, 8, 12);
    QuarterRoundInPlace(state, 1, 5, 9, 13);
    QuarterRoundInPlace(state, 2, 6, 10, 14);
    QuarterRoundInPlace(state, 3, 7, 11, 15);
    QuarterRoundInPlace(state, 0, 5, 10, 15);
    QuarterRoundInPlace(state, 1, 6, 11, 12);
    QuarterRoundInPlace(state, 2, 7, 8, 13);
    QuarterRoundInPlace(state, 3, 4, 9, 14);
  }

  lemma QuarterProgram(a: nat, b: nat, c: nat, d: nat)
    requires a < 16 && b < 16 && c < 16 && d < 16 && a != b && a != c && a != d && b != c && b != d && c != d
    ensures Program(QuarterRound(a, b, c, d))
  {
  }

  function Quarter(a: nat, b: nat, c: nat, d: nat, s: State): State
    requires a < 16 && b < 16 && c < 16 && d < 16 && a != b && a != c && a != d && b != c && b != d && c != d
  {
    QuarterProgram(a, b, c, d);
    DoAll(QuarterRound(a, b, c, d), s)
  }

  lemma QuarterAppends(p: seq<Op>, a: nat, b: nat, c: nat, d: nat, s: State)
    requires a < 16 && b < 16 && c < 16 && d < 16 && a != b && a != c && a != d && b != c && b != d && c != d && Program(p)
    ensures Program(p + QuarterRound(a, b, c, d))
    ensures DoAll(p + QuarterRound(a, b, c, d), s) == Quarter(a, b, c, d, DoAll(p, s))
  {
    hide QuarterRound, DoAll;
    QuarterProgram(a, b, c, d);
    DoAllAppend(p, QuarterRound(a, b, c, d), s);
  }

  lemma DoubleRoundSplits(s: State)
    ensures Program(DoubleRound())
    ensures DoAll(DoubleRound(), s) ==
            Quarter(3, 4, 9, 14, Quarter(2, 7, 8, 13, Quarter(1, 6, 11, 12, Quarter(0, 5, 10, 15,
              Quarter(3, 7, 11, 15, Quarter(2, 6, 10, 14, Quarter(1, 5, 9, 13, Quarter(0, 4, 8, 12, s))))))))
  {
    hide QuarterRound, DoAll, Quarter;
    QuarterFirst(s);
    var p1 := QuarterRound(0, 4, 8, 12);
    QuarterAppends(p1, 1, 5, 9, 13, s);
    var p2 := p1 + QuarterRound(1, 5, 9, 13);
    QuarterAppends(p2, 2, 6, 10, 14, s);
    var p3 := p2 + QuarterRound(2, 6, 10, 14);
    QuarterAppends(p3, 3, 7, 11, 15, s);
    var p4 := p3 + QuarterRound(3, 7, 11, 15);
    QuarterAppends(p4, 0, 5, 10, 15, s);
    var p5 := p4 + QuarterRound(0, 5, 10, 15);
    QuarterAppends(p5, 1, 6, 11, 12, s);
    var p6 := p5 + QuarterRound(1, 6, 11, 12);
    QuarterAppends(p6, 2, 7, 8, 13, s);
    var p7 := p6 + QuarterRound(2, 7, 8, 13);
    QuarterAppends(p7, 3, 4, 9, 14, s);
    assert DoubleRound() == p7 + QuarterRound(3, 4, 9, 14);
  }

  lemma QuarterFirst(s: State)
    ensures Program(QuarterRound(0, 4, 8, 12)) && DoAll(QuarterRound(0, 4, 8, 12), s) == Quarter(0, 4, 8, 12, s)
  {
  }

  /** do_chacha_block. */
  method DoChaChaBlock(state: array<Word>, rounds: int, reAdd: bool)
    requires state.Length == 16
    modifies state
    ensures state[..] == Block(old(state[..]), rounds, reAdd)
  {
    hide DoubleRound, DoAll, Add;
    var copy := state[..];
    for i := 0 to DoubleRounds(rounds)
      invariant state[..] == Rounds(i, copy)
    {
      DoubleRoundInPlace(state);
    }
    if reAdd {
      ghost var r := state[..];
      for i := 0 to 16
        invariant forall k :: 0 <= k < 16 ==> state[k] == if k < i then Add(r[k], copy[k]) else r[k]
      {
        state[i] := Add(state[i], copy[i]);
      }
    }
  }

  // ----- The stream -----

  /** Four bytes, lowest first. */
  function LoadWord(b: seq<Byte>, k: nat): Word
    requires k + 4 <= |b|
  {
    (b[k] as Word) | ((b[k + 1] as Word) << 8) | ((b[k + 2] as Word) << 16) | ((b[k + 3] as Word) << 24)
  }

  function ByteOf(w: Word, k: nat): Byte
  {
    if k == 0 then (w & 0xFF) as Byte
    else if k == 1 then ((w >> 8) & 0xFF) as Byte
    else if k == 2 then ((w >> 16) & 0xFF) as Byte
    else ((w >> 24) & 0xFF) as Byte
  }

  datatype Params = Params(key: seq<Byte>, nonce: seq<Byte>, rounds: int)
  {
    predicate Ok() { |key| == 32 && |nonce| == 12 }
  }

  function Initial(p: Params, counter: Word): State
    requires p.Ok()
  {
    [0x61707865, 0x3320646E, 0x79622D32, 0x6B206574,
     LoadWord(p.key, 0), LoadWord(p.key, 4), LoadWord(p.key, 8), LoadWord(p.key, 12),
     LoadWord(p.key, 16), LoadWord(p.key, 20), LoadWord(p.key, 24), LoadWord(p.key, 28),
     counter, LoadWord(p.nonce, 0), LoadWord(p.nonce, 4), LoadWord(p.nonce, 8)]
  }

  function Increment(counter: Word): Word { counter + 1 }

  /** The counter `n` blocks later; it wraps around with the word. */
  function Advance(counter: Word, n: nat): Word
  {
    if n == 0 then counter else Increment(Advance(counter, n - 1))
  }

  function BlockByte(p: Params, counter: Word, k: nat): Byte
    requires p.Ok() && k < 64
  {
    ByteOf(Block(Initial(p, counter), p.rounds, true)[k / 4], k % 4)
  }

  /** Byte `i` of the key stream. */
  function Stream(p: Params, counter: Word, i: nat): Byte
    requires p.Ok()
  {
    BlockByte(p, Advance(counter, i / 64), i % 64)
  }

  function Encrypt(p: Params, counter: Word, data: seq<Byte>): seq<Byte>
    requires p.Ok()
  {
    seq(|data|, i requires 0 <= i < |data| => XorByte(data[i], Stream(p, counter, i)))
  }

  /** How far one call moves the counter: a block for every 64 bytes begun, and one for no bytes. */
  function BlocksFor(len: nat): nat { if len == 0 then 1 else (len + 64 - 1) / 64 }

  /** Encrypting twice from the same counter gives the data back. */
  lemma EncryptTwice(p: Params, counter: Word, data: seq<Byte>)
    requires p.Ok()
    ensures Encrypt(p, counter, Encrypt(p, counter, data)) == data
  {
    hide XorByte, Stream;
    forall i | 0 <= i < |data|
      ensures Encrypt(p, counter, Encrypt(p, counter, data))[i] == data[i]
    {
      XorXorByte(data[i], Stream(p, counter, i));
    }
  }

  lemma {:induction false} AdvanceAdds(counter: Word, a: nat, b: nat)
    ensures Advance(Advance(counter, a), b) == Advance(counter, a + b)
  {
    if b > 0 {
      AdvanceAdds(counter, a, b - 1);
    }
  }

  /** Data can be encrypted in two pieces cut between blocks. */
  lemma EncryptSplits(p: Params, counter: Word, a: seq<Byte>, b: seq<Byte>)
    requires p.Ok() && |a| % 64 == 0
    ensures Encrypt(p, counter, a + b) == Encrypt(p, counter, a) + Encrypt(p, Advance(counter, |a| / 64), b)
  {
    hide XorByte, Stream, Advance, Encrypt;
    var c := Advance(counter, |a| / 64);
    EncryptLength(p, counter, a + b);
    EncryptLength(p, counter, a);
    EncryptLength(p, c, b);
    forall i | 0 <= i < |a| + |b|
      ensures Encrypt(p, counter, a + b)[i] == (Encrypt(p, counter, a) + Encrypt(p, c, b))[i]
    {
      EncryptAt(p, counter, a + b, i);
      if i < |a| {
        EncryptAt(p, counter, a, i);
      } else {
        EncryptAt(p, c, b, i - |a|);
        StreamShift(p, counter, |a|, i - |a|);
      }
    }
  }

  lemma EncryptLength(p: Params, counter: Word, data: seq<Byte>)
    requires p.Ok()
    ensures |Encrypt(p, counter, data)| == |data|
  {
  }

  lemma EncryptAt(p: Params, counter: Word, data: seq<Byte>, i: nat)
    requires p.Ok() && i < |data|
    ensures |Encrypt(p, counter, data)| == |data| && Encrypt(p, counter, data)[i] == XorByte(data[i], Stream(p, counter, i))
  {
    hide XorByte, Stream;
  }

  /** The first block of the key stream is the one for the counter itself, and a zero byte shows the stream. */
  lemma StreamStarts(p: Params, counter: Word, data: seq<Byte>, i: nat)
    requires p.Ok() && i < |data|
    ensures i < 64 ==> Stream(p, counter, i) == ByteOf(Block(Initial(p, counter), p.rounds, true)[i / 4], i % 4)
    ensures |Encrypt(p, counter, data)| == |data| && Encrypt(p, counter, data)[i] == data[i] ^ Stream(p, counter, i)
  {
    hide ByteOf, Block, Initial;
    EncryptAt(p, counter, data, i);
    if i < 64 {
      hide Encrypt;
      assert i / 64 == 0 && i % 64 == i;
    }
  }

  /** The next block is the one for the next counter, which wraps around with the word. */
  lemma StreamNext(p: Params, counter: Word, i: nat)
    requires p.Ok()
    ensures Stream(p, counter, 64 + i) == Stream(p, counter + 1, i)
  {
    StreamShift(p, counter, 64, i);
    assert Advance(counter, 1) == Increment(Advance(counter, 0));
  }

  lemma AdvanceCounts(counter: Word, n: nat)
    ensures Advance(counter, 0) == counter && Advance(counter, n + 1) == Advance(counter, n) + 1
  {
  }

  lemma StreamShift(p: Params, counter: Word, a: nat, i: nat)
    requires p.Ok() && a % 64 == 0
    ensures Stream(p, counter, a + i) == Stream(p, Advance(counter, a / 64), i)
  {
    hide BlockByte, Advance;
    BlockShift(a, i);
    AdvanceAdds(counter, a / 64, i / 64);
  }

  lemma BlockShift(a: nat, i: nat)
    requires a % 64 == 0
    ensures (a + i) / 64 == a / 64 + i / 64 && (a + i) % 64 == i % 64
  {
  }

  /** Two calls leave the counter where one does exactly when both have something to do. */
  lemma SplitCounterIff(counter: Word, a: nat, b: nat)
    requires a % 64 == 0
    ensures Advance(Advance(counter, BlocksFor(a)), BlocksFor(b)) == Advance(counter, BlocksFor(a + b)) <==> a > 0 && b > 0
    ensures a > 0 ==> BlocksFor(a) == a / 64
  {
    AdvanceAdds(counter, BlocksFor(a), BlocksFor(b));
    hide Advance;
    assert BlocksFor(a) + BlocksFor(b) == BlocksFor(a + b) + if a > 0 && b > 0 then 0 else 1;
    AdvanceStep(counter, BlocksFor(a + b));
    IncrementMoves(Advance(counter, BlocksFor(a + b)));
  }

  lemma IncrementMoves(counter: Word)
    ensures Increment(counter) != counter
  {
  }

  class Cipher {
    var counter: Word
    const key: seq<Byte>
    const nonce: seq<Byte>

    constructor (counter: Word, key: seq<Byte>, nonce: seq<Byte>)
      requires |key| == 32 && |nonce| == 12
      ensures this.counter == counter && this.key == key && this.nonce == nonce
    {
      this.counter, this.key, this.nonce := counter, key, nonce;
    }

    /** xor_chacha on `len` bytes of `buf` from `off` on. */
    method XorChacha(buf: array<Byte>, off: nat, len: nat, rounds: int)
      requires |key| == 32 && |nonce| == 12 && off + len <= buf.Length
      modifies this`counter, buf
      ensures buf[..] == old(buf[..off]) + Encrypt(Params(key, nonce, rounds), old(counter), old(buf[off..off + len])) + old(buf[off + len..])
      ensures counter == Advance(old(counter), BlocksFor(len))
    {
      hide Stream, XorByte, Advance, Increment, Xored, BlocksFor, BlockByte;
      ghost var p := Params(key, nonce, rounds);
      var count := 0;
      ghost var n := 0;
      AdvanceZero(counter);
      NothingXored(p, counter, off, buf[..]);
      while true
        invariant count == n * 64 <= len && (n > 0 ==> count < len) && counter == Advance(old(counter), n)
        invariant Xored(p, old(counter), off, count, old(buf[..]), buf[..])
        decreases len - count + (if n == 0 then 1 else 0)
      {
        ghost var s := buf[..];
        var i := XorBlock(buf, off + count, len - count, rounds);
        XoredGrows(p, old(counter), off, n, count, i, old(buf[..]), s, buf[..]);
        count := count + i;
        AdvanceStep(old(counter), n);
        counter := Increment(counter);
        n := n + 1;
        if count >= len {
          break;
        }
      }
      BlocksForIs(n, len);
      XoredIsEncrypted(p, old(counter), off, len, old(buf[..]), buf[..]);
    }

    /** One block of key stream over the next bytes, up to 64 of them. */
    method XorBlock(buf: array<Byte>, at: nat, left: nat, rounds: int) returns (i: nat)
      requires |key| == 32 && |nonce| == 12 && at + left <= buf.Length
      modifies buf
      ensures i == if left < 64 then left else 64
      ensures forall k :: 0 <= k < buf.Length ==>
                buf[k] == if at <= k < at + i then XorByte(old(buf[k]), BlockByte(Params(key, nonce, rounds), counter, k - at)) else old(buf[k])
    {
      hide Block, XorByte, ByteOf, LoadWord, Initial;
      ghost var p := Params(key, nonce, rounds);
      var initial := Initial(Params(key, nonce, rounds), counter);
      var state := new Word[16](k requires 0 <= k < 16 => initial[k]);
      assert state[..] == initial;
      DoChaChaBlock(state, rounds, true);
      i := 0;
      while i < 64 && i < left
        invariant i <= 64 && i <= left
        invariant state[..] == Block(Initial(p, counter), rounds, true)
        invariant forall k :: 0 <= k < buf.Length ==>
                    buf[k] == if at <= k < at + i then XorByte(old(buf[k]), BlockByte(p, counter, k - at)) else old(buf[k])
      {
        assert state[i / 4] == state[..][i / 4];
        buf[at + i] := XorByte(buf[at + i], ByteOf(state[i / 4], i % 4));
        i := i + 1;
      }
    }
  }

  /** `t` is `s` with the first `count` bytes from `off` on encrypted. */
  ghost predicate Xored(p: Params, counter: Word, off: nat, count: nat, s: seq<Byte>, t: seq<Byte>)
    requires p.Ok()
  {
    && off + count <= |s| == |t|
    && forall k :: 0 <= k < |s| ==> t[k] == if off <= k < off + count then XorByte(s[k], Stream(p, counter, k - off)) else s[k]
  }

  lemma NothingXored(p: Params, counter: Word, off: nat, s: seq<Byte>)
    requires p.Ok() && off <= |s|
    ensures Xored(p, counter, off, 0, s, s)
  {
    hide XorByte, Stream;
  }

  lemma BlocksForIs(n: nat, len: nat)
    requires n > 0 && len <= n * 64 && (n == 1 || (n - 1) * 64 < len)
    ensures n == BlocksFor(len)
  {
  }

  lemma XoredGrows(p: Params, counter: Word, off: nat, n: nat, count: nat, i: nat, s: seq<Byte>, t: seq<Byte>, u: seq<Byte>)
    requires p.Ok() && i <= 64 && count == n * 64 && Xored(p, counter, off, count, s, t) && off + count + i <= |t| == |u|
    requires var at := off + count;
             forall k :: 0 <= k < |t| ==>
               u[k] == if at <= k < at + i then XorByte(t[k], BlockByte(p, Advance(counter, n), k - at)) else t[k]
    ensures Xored(p, counter, off, count + i, s, u)
  {
    hide XorByte, Stream, BlockByte, Advance;
    var at := off + count;
    forall k | 0 <= k < |s|
      ensures u[k] == if off <= k < at + i then XorByte(s[k], Stream(p, counter, k - off)) else s[k]
    {
      if at <= k < at + i {
        Whole(p, counter, n, k - at);
      }
    }
  }

  lemma XoredIsEncrypted(p: Params, counter: Word, off: nat, len: nat, s: seq<Byte>, t: seq<Byte>)
    requires p.Ok() && Xored(p, counter, off, len, s, t)
    ensures t == s[..off] + Encrypt(p, counter, s[off..off + len]) + s[off + len..]
  {
    hide XorByte, Stream;
  }

  lemma AdvanceZero(counter: Word)
    ensures Advance(counter, 0) == counter
  {
  }

  lemma AdvanceStep(counter: Word, n: nat)
    ensures Advance(counter, n + 1) == Increment(Advance(counter, n))
  {
  }

  /** The bytes of block `n` of the stream. */
  lemma Whole(p: Params, counter: Word, n: nat, i: nat)
    requires p.Ok() && i < 64
    ensures Stream(p, counter, n * 64 + i) == BlockByte(p, Advance(counter, n), i)
  {
    hide BlockByte, Advance;
  }
}
