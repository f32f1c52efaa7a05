/** The allocator of capability slots: first fit over a bitmap of 64-bit words (lib/cptr_alloc.c). */
module CptrAlloc {
  import opened Wrappers

  type Word = bv64

  // ----- Bits of a word -----

  function Double(x: Word): Word { x << 1 }

  /** 1 << k. */
  function Bit(k: nat): Word
  {
    if k == 0 then 1 else Double(Bit(k - 1))
  }

  function And(x: Word, y: Word): Word { x & y }
  function Or(x: Word, y: Word): Word { x | y }
  function Without(x: Word, y: Word): Word { x & !y }

  predicate Test(w: Word, k: nat) { And(w, Bit(k)) != 0 }
  function SetBit(w: Word, k: nat): Word { Or(w, Bit(k)) }
  function ClearBit(w: Word, k: nat): Word { Without(w, Bit(k)) }

  const FULL: Word := 0xFFFF_FFFF_FFFF_FFFF

  lemma DoubledPair(x: Word, y: Word)
    requires And(x, y) == 0
    ensures And(Double(x), Double(y)) == 0
  {
  }

  lemma DoubledEven(y: Word)
    ensures And(1, Double(y)) == 0
  {
  }

  lemma {:induction false} BitsApart(j: nat, k: nat)
    requires j < k
    ensures And(Bit(j), Bit(k)) == 0
  {
    hide And, Double;
    if j == 0 {
      DoubledEven(Bit(k - 1));
    } else {
      BitsApart(j - 1, k - 1);
      DoubledPair(Bit(j - 1), Bit(k - 1));
    }
  }

  lemma {:induction false} ZeroStays(k: nat, j: nat)
    requires k <= j && Bit(k) == 0
    ensures Bit(j) == 0
  {
    if k < j {
      ZeroStays(k, j - 1);
    }
  }

  lemma BitNonzero(k: nat)
    requires k < 64
    ensures Bit(k) != 0
  {
    assert Bit(8) == 0x100;
    assert Bit(16) == 0x10000;
    assert Bit(24) == 0x1000000;
    assert Bit(32) == 0x100000000;
    assert Bit(40) == 0x10000000000;
    assert Bit(48) == 0x1000000000000;
    assert Bit(56) == 0x100000000000000;
    assert Bit(63) == 0x8000000000000000;
    if Bit(k) == 0 {
      ZeroStays(k, 63);
    }
  }

  // What a write does to the bits of a word.

  lemma OrMask(w: Word, b: Word, c: Word)
    requires And(b, c) == 0
    ensures And(Or(w, b), c) == And(w, c)
  {
  }

  lemma OrSelf(w: Word, b: Word)
    requires b != 0
    ensures And(Or(w, b), b) != 0
  {
  }

  lemma AndMask(w: Word, b: Word, c: Word)
    requires And(b, c) == 0
    ensures And(Without(w, b), c) == And(w, c)
  {
  }

  lemma AndSelf(w: Word, b: Word)
    ensures And(Without(w, b), b) == 0
  {
  }

  lemma Orthogonal(j: nat, k: nat)
    requires j != k
    ensures And(Bit(j), Bit(k)) == 0
  {
    hide Bit, And;
    if j < k {
      BitsApart(j, k);
    } else {
      BitsApart(k, j);
      Commutes(Bit(k), Bit(j));
    }
  }

  lemma Commutes(x: Word, y: Word)
    requires And(x, y) == 0
    ensures And(y, x) == 0
  {
  }

  lemma SetBitTest(w: Word, k: nat, j: nat)
    requires k < 64 && j < 64
    ensures Test(SetBit(w, k), j) <==> j == k || Test(w, j)
  {
    hide Bit, And, Or, Without;
    if j == k {
      BitNonzero(k);
      OrSelf(w, Bit(k));
    } else {
      Orthogonal(k, j);
      OrMask(w, Bit(k), Bit(j));
    }
  }

  lemma ClearBitTest(w: Word, k: nat, j: nat)
    requires k < 64 && j < 64
    ensures Test(ClearBit(w, k), j) <==> j != k && Test(w, j)
  {
    hide Bit, And, Or, Without;
    if j == k {
      AndSelf(w, Bit(k));
    } else {
      Orthogonal(k, j);
      AndMask(w, Bit(k), Bit(j));
    }
  }

  lemma FullTest(k: nat)
    requires k < 64
    ensures Test(FULL, k)
  {
    hide Bit, And;
    BitNonzero(k);
    FullAnd(Bit(k));
  }

  lemma FullAnd(b: Word)
    ensures And(FULL, b) == b
  {
  }

  // ----- Slots -----

  const BITMAP_SIZE: nat := 512
  const SLOTS: nat := 32768

  type Bitmap = s: seq<Word> | |s| == BITMAP_SIZE witness seq(BITMAP_SIZE, i => 0)

  predicate Used(s: Bitmap, c: nat)
    requires c < SLOTS
  {
    Test(s[c / 64], c % 64)
  }

  /** The set of used slots that the words stand for. */
  ghost function UsedSlots(s: Bitmap): set<nat> { set c | 0 <= c < SLOTS && Used(s, c) }

  predicate Between(c: nat, start: nat, end: nat) { start <= c < end }

  ghost function Range(start: nat, end: nat): set<nat> { set c: nat | Between(c, start, end) && c < end }

  function Mark(s: Bitmap, c: nat): Bitmap
    requires c < SLOTS
  {
    s[c / 64 := SetBit(s[c / 64], c % 64)]
  }

  function Unmark(s: Bitmap, c: nat): Bitmap
    requires c < SLOTS
  {
    s[c / 64 := ClearBit(s[c / 64], c % 64)]
  }

  lemma MarkOne(s: Bitmap, c: nat, d: nat)
    requires c < SLOTS && d < SLOTS
    ensures Used(Mark(s, c), d) <==> d == c || Used(s, d)
  {
    hide Test, SetBit;
    if d / 64 == c / 64 {
      SetBitTest(s[c / 64], c % 64, d % 64);
    }
  }

  lemma UnmarkOne(s: Bitmap, c: nat, d: nat)
    requires c < SLOTS && d < SLOTS
    ensures Used(Unmark(s, c), d) <==> d != c && Used(s, d)
  {
    hide Test, ClearBit;
    if d / 64 == c / 64 {
      ClearBitTest(s[c / 64], c % 64, d % 64);
    }
  }

  lemma MarkAdds(s: Bitmap, c: nat)
    requires c < SLOTS
    ensures UsedSlots(Mark(s, c)) == UsedSlots(s) + {c}
  {
    hide Used, Mark;
    forall d | 0 <= d < SLOTS
      ensures Used(Mark(s, c), d) <==> d == c || Used(s, d)
    {
      MarkOne(s, c, d);
    }
  }

  lemma UnmarkRemoves(s: Bitmap, c: nat)
    requires c < SLOTS
    ensures UsedSlots(Unmark(s, c)) == UsedSlots(s) - {c}
  {
    hide Used, Unmark;
    forall d | 0 <= d < SLOTS
      ensures Used(Unmark(s, c), d) <==> d != c && Used(s, d)
    {
      UnmarkOne(s, c, d);
    }
  }

  /** `n` free slots from `start` on. */
  ghost predicate Room(used: set<nat>, start: nat, n: nat)
  {
    start + n <= SLOTS && used !! Range(start, start + n)
  }

  /** No run of free slots starts in a full word. */
  lemma FullHasNoRoom(s: Bitmap, i: nat, c: nat, n: nat)
    requires n > 0 && i < BITMAP_SIZE && s[i] == FULL && i * 64 <= c < (i + 1) * 64
    ensures !Room(UsedSlots(s), c, n)
  {
    if c + n <= SLOTS {
      FullTest(c % 64);
      assert c / 64 == i;
      assert Used(s, c);
      assert c in UsedSlots(s) && c in Range(c, c + n);
    }
  }

  /** What a request for no slots is answered: the start of the first word that is not full. */
  function ForNothing(s: Bitmap): Option<nat> { FirstRoom(s, 0) }

  function FirstRoom(s: Bitmap, i: nat): Option<nat>
    requires i <= BITMAP_SIZE
    decreases BITMAP_SIZE - i
  {
    if i == BITMAP_SIZE then None else if s[i] != FULL then Some(i * 64) else FirstRoom(s, i + 1)
  }

  /** A run of no slots starts everywhere, so the lowest start is zero: the answer is right exactly when
      the first word is not full. */
  lemma ForNothingIff(s: Bitmap)
    ensures forall c: nat :: c < SLOTS ==> Room(UsedSlots(s), c, 0)
    ensures ForNothing(s) == Some(0) <==> s[0] != FULL
  {
    forall c: nat | c < SLOTS
      ensures Room(UsedSlots(s), c, 0)
    {
      EmptyFits(UsedSlots(s), c);
    }
    hide Room;
    if s[0] == FULL {
      RoomIsLater(s, 1);
    }
  }

  lemma {:induction false} RoomIsLater(s: Bitmap, i: nat)
    requires i <= BITMAP_SIZE
    ensures FirstRoom(s, i).Some? ==> FirstRoom(s, i).value >= i * 64
    decreases BITMAP_SIZE - i
  {
    if i < BITMAP_SIZE {
      RoomIsLater(s, i + 1);
    }
  }

  /** With the first word full and the second one free, a request for no slots is answered with 64. */
  lemma ForNothingSkips(s: Bitmap)
    requires s[0] == FULL && s[1] == 0
    ensures ForNothing(s) == Some(64) && Room(UsedSlots(s), 0, 0)
  {
    EmptyFits(UsedSlots(s), 0);
    assert FirstRoom(s, 1) == Some(64);
  }

  class SlotAllocator {
    const bitmap: array<Word>

    predicate Valid() { bitmap.Length == BITMAP_SIZE }

    ghost function Slots(): set<nat>
      requires Valid()
      reads bitmap
    {
      UsedSlots(bitmap[..])
    }

    constructor ()
      ensures Valid() && Slots() == {}
    {
      bitmap := new Word[BITMAP_SIZE](i => 0);
      new;
      forall c | 0 <= c < SLOTS
        ensures !Used(bitmap[..], c)
      {
        assert bitmap[..][c / 64] == 0;
        ZeroTest(c % 64);
      }
    }

    /** cptr_set_range. */
    method SetRange(start: nat, end: nat)
      requires Valid() && end <= SLOTS
      modifies bitmap
      ensures Slots() == old(Slots()) + Range(start, end)
    {
      hide UsedSlots, SetBit;
      var i := start;
      assert Range(start, start) == {};
      while i < end
        invariant start <= i && (i <= end || i == start)
        invariant Slots() == old(Slots()) + Range(start, i)
      {
        MarkAdds(bitmap[..], i);
        MarkAt(i);
        assert Range(start, i + 1) == Range(start, i) + {i};
        i := i + 1;
      }
      assert Range(start, i) == Range(start, end);
    }

    /** bitmap[c / 64] |= 1 << c % 64. */
    method MarkAt(c: nat)
      requires Valid() && c < SLOTS
      modifies bitmap
      ensures bitmap[..] == Mark(old(bitmap[..]), c)
    {
      hide SetBit;
      bitmap[c / 64] := SetBit(bitmap[c / 64], c % 64);
    }

    /** cptr_clear_range. */
    method ClearRange(start: nat, end: nat)
      requires Valid() && end <= SLOTS
      modifies bitmap
      ensures Slots() == old(Slots()) - Range(start, end)
    {
      hide UsedSlots, ClearBit;
      var i := start;
      assert Range(start, start) == {};
      while i < end
        invariant start <= i && (i <= end || i == start)
        invariant Slots() == old(Slots()) - Range(start, i)
      {
        UnmarkRemoves(bitmap[..], i);
        UnmarkAt(i);
        assert Range(start, i + 1) == Range(start, i) + {i};
        i := i + 1;
      }
      assert Range(start, i) == Range(start, end);
    }

    method UnmarkAt(c: nat)
      requires Valid() && c < SLOTS
      modifies bitmap
      ensures bitmap[..] == Unmark(old(bitmap[..]), c)
    {
      hide ClearBit;
      bitmap[c / 64] := ClearBit(bitmap[c / 64], c % 64);
    }

    /** Are there `n` free slots from slot `j` of word `i` on? */
    method Fits(i: nat, j: nat, n: nat) returns (found: bool)
      requires Valid() && i < BITMAP_SIZE && j < 64
      ensures found <==> Room(Slots(), i * 64 + j, n)
      ensures found ==> i * 64 + j + n <= SLOTS
    {
      hide Test;
      ghost var c := i * 64 + j;
      found := true;
      var k := 0;
      while k < n
        invariant k <= n && found && c + k <= SLOTS
        invariant forall d :: c <= d < c + k ==> !Used(bitmap[..], d)
      {
        var idx := i + (j + k) / 64;
        if idx >= BITMAP_SIZE || Test(bitmap[idx], (j + k) % 64) {
          assert c + k < SLOTS ==> c + k in Slots() && c + k in Range(c, c + n);
          return false;
        }
        assert !Used(bitmap[..], c + k);
        k := k + 1;
      }
    }

    /** cptr_alloc_range; None is the answer -1. Asked for no slots, it answers with the first word
        that is not full and marks nothing. */
    method AllocRange(n: nat) returns (r: Option<nat>)
      requires Valid()
      modifies bitmap
      ensures r.Some? ==> Room(old(Slots()), r.value, n) && Slots() == old(Slots()) + Range(r.value, r.value + n)
      ensures n >= 1 ==> forall c: nat :: (r.Some? ==> c < r.value) ==> !Room(old(Slots()), c, n)
      ensures n == 0 ==> r == ForNothing(old(bitmap[..]))
      ensures r.None? ==> bitmap[..] == old(bitmap[..])
    {
      hide UsedSlots, Room;
      ghost var used := Slots();
      for i := 0 to BITMAP_SIZE
        invariant bitmap[..] == old(bitmap[..])
        invariant n >= 1 ==> forall c: nat :: c < i * 64 ==> !Room(used, c, n)
        invariant n == 0 ==> FirstRoom(bitmap[..], i) == ForNothing(bitmap[..])
      {
        if bitmap[i] == FULL {
          if n >= 1 {
            forall c: nat | i * 64 <= c < (i + 1) * 64
              ensures !Room(used, c, n)
            {
              FullHasNoRoom(bitmap[..], i, c, n);
            }
          }
        } else {
          for again := 0 to 64
            invariant bitmap[..] == old(bitmap[..])
            invariant again > 0 ==> n >= 1 && forall c: nat :: c < (i + 1) * 64 ==> !Room(used, c, n)
          {
            for j := 0 to 64
              invariant bitmap[..] == old(bitmap[..])
              invariant j > 0 ==> n >= 1
              invariant n >= 1 ==> forall c: nat :: c < i * 64 + j ==> !Room(used, c, n)
            {
              EmptyFits(used, i * 64 + j);
              var found := Fits(i, j, n);
              if found {
                MarkRun(i, j, n);
                return Some(i * 64 + j);
              }
            }
          }
        }
      }
      if n >= 1 {
        NoneBeyond(used, n);
      }
      r := None;
    }

    /** Mark the run that was found. */
    method MarkRun(i: nat, j: nat, n: nat)
      requires Valid() && i < BITMAP_SIZE && j < 64 && i * 64 + j + n <= SLOTS
      modifies bitmap
      ensures Slots() == old(Slots()) + Range(i * 64 + j, i * 64 + j + n)
    {
      hide UsedSlots, SetBit;
      ghost var c := i * 64 + j;
      assert Range(c, c) == {};
      for k := 0 to n
        invariant Slots() == old(Slots()) + Range(c, c + k)
      {
        var idx, bit := (i * 64 + j + k) / 64, (j + k) % 64;
        assert bit == (c + k) % 64;
        MarkAdds(bitmap[..], c + k);
        ghost var s := bitmap[..];
        bitmap[idx] := SetBit(bitmap[idx], bit);
        assert bitmap[..] == Mark(s, c + k);
        assert Range(c, c + (k + 1)) == Range(c, c + k) + {c + k};
      }
    }

    /** Ranges from successive calls do not overlap. */
    method AllocMany(ns: seq<nat>) returns (rs: seq<Option<nat>>)
      requires Valid()
      modifies bitmap
      ensures |rs| == |ns|
      ensures forall i :: 0 <= i < |ns| && rs[i].Some? ==> Range(rs[i].value, rs[i].value + ns[i]) <= Slots() - old(Slots())
      ensures forall i, j :: 0 <= i < j < |ns| && rs[i].Some? && rs[j].Some? ==>
                Range(rs[i].value, rs[i].value + ns[i]) !! Range(rs[j].value, rs[j].value + ns[j])
    {
      hide UsedSlots, Range;
      rs := [];
      for k := 0 to |ns|
        invariant |rs| == k && old(Slots()) <= Slots()
        invariant forall i :: 0 <= i < k && rs[i].Some? ==> Range(rs[i].value, rs[i].value + ns[i]) <= Slots() - old(Slots())
        invariant forall i, j :: 0 <= i < j < k && rs[i].Some? && rs[j].Some? ==>
                    Range(rs[i].value, rs[i].value + ns[i]) !! Range(rs[j].value, rs[j].value + ns[j])
      {
        var r := AllocRange(ns[k]);
        rs := rs + [r];
      }
    }
  }

  lemma ZeroTest(k: nat)
    ensures !Test(0, k)
  {
    hide Bit, And;
    ZeroAnd(Bit(k));
  }

  lemma ZeroAnd(b: Word)
    ensures And(0, b) == 0
  {
  }

  lemma EmptyFits(used: set<nat>, c: nat)
    requires c <= SLOTS
    ensures Room(used, c, 0)
  {
  }

  lemma NoneBeyond(used: set<nat>, n: nat)
    requires n >= 1
    ensures forall c: nat :: c >= SLOTS ==> !Room(used, c, n)
  {
  }
}
