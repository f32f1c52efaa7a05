/** Cutting a physical extent into naturally aligned power-of-two blocks (kern/alloc.c:27-63). */
module Blocks {
  import opened Arith

  const PAGE_BITS: nat := 12

  // ----- Trailing zeros and logarithms -----

  /** The number of zero bits below the lowest one bit. */
  function TrailingZeros(x: nat): nat
    requires x > 0
  {
    if x % 2 == 1 then 0 else 1 + TrailingZeros(x / 2)
  }

  function Log2(x: nat): nat
    requires x > 0
  {
    if x == 1 then 0 else 1 + Log2(x / 2)
  }

  lemma {:induction false} Log2Bounds(x: nat)
    requires x > 0
    ensures Pow2(Log2(x)) <= x < 2 * Pow2(Log2(x))
  {
    if x > 1 {
      Log2Bounds(x / 2);
    }
  }

  lemma Log2Least(x: nat, k: nat)
    requires x > 0
    ensures Pow2(k) <= x <==> k <= Log2(x)
  {
    Log2Bounds(x);
    if k <= Log2(x) {
      Pow2Mono(k, Log2(x));
    } else {
      Pow2Mono(Log2(x) + 1, k);
    }
  }

  /** The powers of two that divide `x` are those up to its trailing zeros. */
  lemma {:induction false} DividesIff(x: nat, k: nat)
    requires x > 0
    ensures x % Pow2(k) == 0 <==> k <= TrailingZeros(x)
  {
    if k > 0 {
      if x % 2 == 1 {
        OddRemainder(x, Pow2(k - 1));
      } else {
        DividesIff(x / 2, k - 1);
        Halve(x / 2, Pow2(k - 1));
      }
    } else {
      ModUnique(x, 1, x, 0);
    }
  }

  lemma OddRemainder(x: nat, a: nat)
    requires a > 0 && x % 2 == 1
    ensures x % (2 * a) != 0
  {
    if x % (2 * a) == 0 {
      var q := x / (2 * a);
      assert x == (2 * a) * q;
      MulAssoc(2, a, q);
      assert false;
    }
  }

  lemma Halve(h: nat, a: nat)
    requires a > 0
    ensures (2 * h) % (2 * a) == 0 <==> h % a == 0
  {
    var q := (2 * h) / (2 * a);
    assert 2 * h == 2 * a * q + (2 * h) % (2 * a);
    assert h == a * (h / a) + h % a;
    if (2 * h) % (2 * a) == 0 {
      assert h == a * q;
      ModUnique(h, a, q, 0);
    }
    if h % a == 0 {
      assert 2 * h == (2 * a) * (h / a);
      ModUnique(2 * h, 2 * a, h / a, 0);
    }
  }

  /** Adding the lowest bit carries past it. */
  lemma {:induction false} CarryUp(x: nat)
    requires x > 0
    ensures TrailingZeros(x + Pow2(TrailingZeros(x))) > TrailingZeros(x)
  {
    if x % 2 == 0 {
      CarryUp(x / 2);
      assert (x + Pow2(TrailingZeros(x))) / 2 == x / 2 + Pow2(TrailingZeros(x / 2));
    }
  }

  /** Adding a bit below the lowest one makes it the lowest. */
  lemma {:induction false} SetBelow(x: nat, b: nat)
    requires x > 0 && b < TrailingZeros(x)
    ensures TrailingZeros(x + Pow2(b)) == b
  {
    if b > 0 {
      SetBelow(x / 2, b - 1);
      assert (x + Pow2(b)) / 2 == x / 2 + Pow2(b - 1);
    }
  }

  // ----- One block -----

  /** The largest block that is aligned at `start` and ends by `end`. */
  function BlockBits(start: nat, end: nat): nat
    requires 0 < start < end
  {
    var a, b := TrailingZeros(start), Log2(end - start);
    if a <= b then a else b
  }

  lemma BlockIsLargest(start: nat, end: nat, k: nat)
    requires 0 < start < end
    ensures start % Pow2(k) == 0 && start + Pow2(k) <= end <==> k <= BlockBits(start, end)
  {
    DividesIff(start, k);
    Log2Least(end - start, k);
  }

  /** Bitwise and, bit by bit. */
  function And(x: nat, y: nat): nat
  {
    if x == 0 || y == 0 then 0 else 2 * And(x / 2, y / 2) + if x % 2 == 1 && y % 2 == 1 then 1 else 0
  }

  /** `x` and `-x` in a word of `w` bits share exactly the lowest bit of `x`. */
  lemma {:induction false} LowBit(x: nat, w: nat)
    requires 0 < x < Pow2(w)
    ensures And(x, Pow2(w) - x) == Pow2(TrailingZeros(x))
  {
    var half, y := Pow2(w - 1), Pow2(w) - x;
    assert y == 2 * half - x && y > 0;
    assert Pow2(TrailingZeros(x)) == if x % 2 == 1 then 1 else 2 * Pow2(TrailingZeros(x / 2));
    if x % 2 == 1 {
      NoCommonBits(x / 2, w - 1);
    } else {
      LowBit(x / 2, w - 1);
    }
    hide Pow2, TrailingZeros;
    if x % 2 == 1 {
      assert y % 2 == 1 && y / 2 == half - 1 - x / 2;
    } else {
      assert y / 2 == half - x / 2;
    }
  }

  lemma {:induction false} NoCommonBits(x: nat, w: nat)
    requires x < Pow2(w)
    ensures And(x, Pow2(w) - 1 - x) == 0
  {
    if w > 0 {
      var y := Pow2(w) - 1 - x;
      assert y / 2 == Pow2(w - 1) - 1 - x / 2 && (x % 2 == 0 || y % 2 == 0);
      NoCommonBits(x / 2, w - 1);
    }
  }

  /** The first guess of largest_fitting_block: `start & -start` in a 64-bit word. */
  function FirstGuess(start: nat): nat
    requires start < WORD_RANGE
  {
    And(start, (WORD_RANGE - start) % WORD_RANGE)
  }

  lemma FirstGuessIsLowBit(start: nat)
    requires 0 < start < WORD_RANGE
    ensures FirstGuess(start) == Pow2(TrailingZeros(start)) <= start && start + FirstGuess(start) <= WORD_RANGE
  {
    WordIsPow2();
    LowBit(start, 64);
    LowBitFits(start);
    hide Pow2, TrailingZeros;
    DividesIff(start, TrailingZeros(start));
    FitsInWord(start, TrailingZeros(start));
  }

  lemma WordIsPow2()
    ensures Pow2(64) == WORD_RANGE
  {
    hide Pow2;
    Pow2Of32();
    Pow2Adds(32, 32);
  }

  /** A multiple of 2^k below the word range leaves room for 2^k. */
  lemma FitsInWord(start: nat, k: nat)
    requires 0 < start < WORD_RANGE && start % Pow2(k) == 0
    ensures start + Pow2(k) <= WORD_RANGE
  {
    WordIsPow2();
    hide Pow2;
    ModUnique(Pow2(64), Pow2(64), 1, 0);
    if k <= 64 {
      AlignedDown(Pow2(64), k, 64);
      NextMultiple(start, Pow2(64), Pow2(k));
    } else {
      Pow2Mono(64, k);
      NextMultiple(0, start, Pow2(k));
    }
  }

  /** largest_fitting_block: the sum with the first guess may wrap to zero, and then the guess is returned
      although it does not fit; the result is right exactly when it does not. */
  method LargestFittingBlock(start: nat, end: nat) returns (block: nat)
    requires 0 < start < end < WORD_RANGE
    ensures block == if start + FirstGuess(start) == WORD_RANGE then FirstGuess(start) else Pow2(BlockBits(start, end))
    ensures block == Pow2(BlockBits(start, end)) <==> start + FirstGuess(start) < WORD_RANGE
  {
    ghost var b: nat := TrailingZeros(start);
    block := FirstGuess(start);
    FirstGuessIsLowBit(start);
    BlockBelowZeros(start, end);
    GuessTooLarge(start, end);
    ghost var guess := block;
    hide TrailingZeros, Log2, BlockBits, FirstGuess, Pow2;
    while (start + block) % WORD_RANGE > end
      invariant block == Pow2(b) && BlockBits(start, end) <= b <= TrailingZeros(start) && block <= guess
      invariant start + guess == WORD_RANGE ==> block == guess
      decreases b
    {
      FitsIff(start, end, b);
      HalfOf(b);
      block, b := block / 2, b - 1;
    }
    FitsIff(start, end, b);
  }

  /** The zeros of a block's size, from which page_count reads the exponent. */
  lemma {:induction false} ZerosOfPower(b: nat)
    ensures TrailingZeros(Pow2(b)) == b
  {
    if b > 0 {
      ZerosOfPower(b - 1);
    }
  }

  /** From the middle of the word range on, the first guess is returned for every end. */
  lemma UpperHalfDoesNotFit(end: nat)
    requires Pow2(63) < end < WORD_RANGE
    ensures FirstGuess(Pow2(63)) == Pow2(63) && Pow2(63) + FirstGuess(Pow2(63)) == WORD_RANGE > end
    ensures Pow2(BlockBits(Pow2(63), end)) < Pow2(63)
  {
    hide FirstGuess, Pow2, TrailingZeros, BlockBits;
    Pow2Of63();
    ZerosOfPower(63);
    FirstGuessIsLowBit(Pow2(63));
    BlockIsLargest(Pow2(63), end, 63);
    BlockBelowZeros(Pow2(63), end);
    Pow2Less(BlockBits(Pow2(63), end), 63);
  }

  lemma HalfOf(b: nat)
    ensures b > 0 ==> Pow2(b) / 2 == Pow2(b - 1)
    ensures Pow2(b) >= 1
  {
  }

  /** A guess that reaches the end of the word range does not fit. */
  lemma GuessTooLarge(start: nat, end: nat)
    requires 0 < start < end < WORD_RANGE
    ensures start + Pow2(TrailingZeros(start)) == WORD_RANGE ==> Pow2(TrailingZeros(start)) != Pow2(BlockBits(start, end))
  {
    FitsIff(start, end, TrailingZeros(start));
    if start + Pow2(TrailingZeros(start)) == WORD_RANGE {
      Pow2Less(BlockBits(start, end), TrailingZeros(start));
    }
  }

  lemma FitsIff(start: nat, end: nat, b: nat)
    requires 0 < start < end && b <= TrailingZeros(start)
    ensures start + Pow2(b) <= end <==> b <= BlockBits(start, end)
  {
    DividesIff(start, b);
    BlockIsLargest(start, end, b);
  }

  lemma BlockBelowZeros(start: nat, end: nat)
    requires 0 < start < end
    ensures BlockBits(start, end) <= TrailingZeros(start)
  {
  }

  lemma LowBitFits(x: nat)
    requires x > 0
    ensures Pow2(TrailingZeros(x)) <= x
  {
    DividesIff(x, TrailingZeros(x));
  }

  // ----- The whole extent -----

  /** The sizes, as exponents, of the blocks an extent is cut into. */
  function Tiles(start: nat, end: nat): seq<nat>
    requires 0 < start <= end
    decreases end - start
  {
    if start == end then [] else
      Log2Bounds(end - start);
      BlockIsLargest(start, end, BlockBits(start, end));
      [BlockBits(start, end)] + Tiles(start + Pow2(BlockBits(start, end)), end)
  }

  /** Where block `i` starts. */
  function TileStart(start: nat, tiles: seq<nat>, i: nat): nat
    requires i <= |tiles|
  {
    if i == 0 then start else TileStart(start, tiles, i - 1) + Pow2(tiles[i - 1])
  }

  lemma {:induction false} TileStartShift(start: nat, tiles: seq<nat>, i: nat)
    requires 0 < i <= |tiles|
    ensures TileStart(start, tiles, i) == TileStart(start + Pow2(tiles[0]), tiles[1..], i - 1)
  {
    if i > 1 {
      TileStartShift(start, tiles, i - 1);
    }
  }

  lemma {:induction false} TilesEnd(start: nat, end: nat)
    requires 0 < start <= end
    ensures TileStart(start, Tiles(start, end), |Tiles(start, end)|) == end
    decreases end - start
  {
    if start < end {
      var t := Tiles(start, end);
      hide Pow2, BlockBits, TileStart;
      BlockIsLargest(start, end, t[0]);
      TilesEnd(start + Pow2(t[0]), end);
      TileStartShift(start, t, |t|);
      assert t[1..] == Tiles(start + Pow2(t[0]), end);
    } else {
      assert Tiles(start, end) == [];
    }
  }

  lemma {:induction false} TileAligned(start: nat, end: nat, i: nat)
    requires 0 < start <= end && i < |Tiles(start, end)|
    ensures TileStart(start, Tiles(start, end), i) % Pow2(Tiles(start, end)[i]) == 0
    decreases end - start
  {
    var t := Tiles(start, end);
    hide Pow2, BlockBits;
    BlockIsLargest(start, end, t[0]);
    if i > 0 {
      TileAligned(start + Pow2(t[0]), end, i - 1);
      TileStartShift(start, t, i);
    }
  }

  /** The blocks tile the extent, in order and each naturally aligned. */
  lemma TilesCover(start: nat, end: nat)
    requires 0 < start <= end
    ensures var t := Tiles(start, end);
            && TileStart(start, t, 0) == start && TileStart(start, t, |t|) == end
            && (forall i :: 0 <= i < |t| ==> TileStart(start, t, i + 1) == TileStart(start, t, i) + Pow2(t[i]))
            && (forall i :: 0 <= i < |t| ==> TileStart(start, t, i) % Pow2(t[i]) == 0)
  {
    hide Tiles, Pow2;
    TilesEnd(start, end);
    forall i | 0 <= i < |Tiles(start, end)|
      ensures TileStart(start, Tiles(start, end), i) % Pow2(Tiles(start, end)[i]) == 0
    {
      TileAligned(start, end, i);
    }
  }

  ghost predicate PageAligned(x: nat) { x % Pow2(PAGE_BITS) == 0 }

  /** One block of a page-aligned extent leaves a page-aligned, smaller extent. */
  lemma PageStep(start: nat, end: nat)
    requires 0 < start < end && PageAligned(start) && PageAligned(end)
    ensures var b := BlockBits(start, end);
            && PAGE_BITS <= b <= Log2(end - start) && start + Pow2(b) <= end && PageAligned(start + Pow2(b))
            && (start + Pow2(b) < end ==> Log2(end - start - Pow2(b)) <= Log2(end - start))
  {
    var b := BlockBits(start, end);
    var page := Pow2(PAGE_BITS);
    hide BlockBits, Log2, TrailingZeros, Pow2;
    NextMultiple(start, end, page);
    BlockIsLargest(start, end, PAGE_BITS);
    BlockIsLargest(start, end, b);
    StillAligned(start, b);
    BlockBelowLog(start, end);
    if start + Pow2(b) < end {
      Log2Falls(end - start - Pow2(b), end - start);
    }
  }

  /** Every block of a page-aligned extent has at least a page and no more than the extent. */
  lemma {:induction false} TileSizes(start: nat, end: nat, top: nat)
    requires 0 < start <= end && PageAligned(start) && PageAligned(end)
    requires start < end ==> Log2(end - start) <= top
    ensures forall i :: 0 <= i < |Tiles(start, end)| ==> PAGE_BITS <= Tiles(start, end)[i] <= top
    decreases end - start
  {
    if start < end {
      var b := BlockBits(start, end);
      hide BlockBits, Log2, TrailingZeros, Pow2, PageAligned;
      PageStep(start, end);
      TileSizes(start + Pow2(b), end, top);
      assert Tiles(start, end) == [b] + Tiles(start + Pow2(b), end);
    }
  }

  lemma BlockBelowLog(start: nat, end: nat)
    requires 0 < start < end
    ensures BlockBits(start, end) <= Log2(end - start)
  {
  }

  lemma NextMultiple(x: nat, y: nat, a: nat)
    requires a > 0 && x < y && x % a == 0 && y % a == 0
    ensures x + a <= y
  {
    assert x == a * (x / a) && y == a * (y / a);
    if y / a <= x / a {
      MulMono(a, y / a, x / a);
    } else {
      MulMono(a, x / a + 1, y / a);
    }
  }

  lemma StillAligned(start: nat, b: nat)
    requires b >= PAGE_BITS && start % Pow2(PAGE_BITS) == 0
    ensures (start + Pow2(b)) % Pow2(PAGE_BITS) == 0
  {
    hide Pow2;
    ModUnique(Pow2(b), Pow2(b), 1, 0);
    AlignedDown(Pow2(b), PAGE_BITS, b);
    AlignedSum(start, Pow2(b), Pow2(PAGE_BITS));
  }

  lemma Log2Falls(a: nat, b: nat)
    requires 0 < a <= b
    ensures Log2(a) <= Log2(b)
  {
    Log2Bounds(a);
    Log2Least(b, Log2(a));
  }

  // ----- Up and down -----

  ghost predicate Rising(t: seq<nat>, n: nat)
    requires n <= |t|
  {
    forall i :: 0 < i < n ==> t[i - 1] < t[i]
  }

  ghost predicate Falling(t: seq<nat>, n: nat)
    requires n <= |t|
  {
    forall i :: n < i < |t| ==> t[i - 1] > t[i]
  }

  /** Sizes rise strictly up to and including position `p` and fall strictly after it, except that
      the peak may be repeated once. */
  ghost predicate Mountain(t: seq<nat>, p: nat)
    requires p < |t|
  {
    Rising(t, p + 1) && Falling(t, p + 1) && (p + 1 < |t| ==> t[p] >= t[p + 1])
  }

  /** Once the end of the extent is what limits a block, it limits all later ones, which halve. */
  lemma {:induction false} DownHill(start: nat, end: nat)
    requires 0 < start < end && Log2(end - start) < TrailingZeros(start)
    ensures Falling(Tiles(start, end), 0) && Tiles(start, end)[0] == Log2(end - start)
    decreases end - start
  {
    var b := Log2(end - start);
    Log2Bounds(end - start);
    var next := start + Pow2(b);
    assert Tiles(start, end) == [b] + Tiles(next, end);
    if next < end {
      SetBelow(start, b);
      Log2Least(end - next, b);
      DownHill(next, end);
    }
  }

  lemma {:induction false} TilesMountain(start: nat, end: nat) returns (p: nat)
    requires 0 < start < end
    ensures p < |Tiles(start, end)| && Mountain(Tiles(start, end), p)
    decreases end - start
  {
    p := 0;
    if Log2(end - start) < TrailingZeros(start) {
      DownHill(start, end);
    } else {
      var b := TrailingZeros(start);
      var next := start + Pow2(b);
      BlockIsLargest(start, end, b);
      assert Tiles(start, end) == [b] + Tiles(next, end);
      if next < end {
        CarryUp(start);
        p := TilesMountain(next, end);
        assert Tiles(next, end)[0] == BlockBits(next, end);
        if BlockBits(next, end) > b {
          p := p + 1;
        } else {
          DownHill(next, end);
          p := 0;
        }
      }
    }
  }

  lemma {:induction false} RiseLength(t: seq<nat>, n: nat, low: nat)
    requires n < |t| && Rising(t, n + 1) && t[0] >= low
    ensures n <= t[n] - low
  {
    if n > 0 {
      RiseLength(t, n - 1, low);
    }
  }

  lemma {:induction false} FallLength(t: seq<nat>, n: nat, low: nat)
    requires n < |t| && Falling(t, n) && forall i :: 0 <= i < |t| ==> t[i] >= low
    ensures |t| - 1 - n <= t[n] - low
    decreases |t| - n
  {
    if n + 1 < |t| {
      FallLength(t, n + 1, low);
    }
  }

  /** An extent of `len` bytes gives at most 2 * (log2(len / 4096) + 1) blocks. */
  lemma TilesFew(start: nat, end: nat)
    requires 0 < start < end && start % Pow2(PAGE_BITS) == 0 && end % Pow2(PAGE_BITS) == 0
    ensures (end - start) / Pow2(PAGE_BITS) > 0 && |Tiles(start, end)| <= 2 * (Log2((end - start) / Pow2(PAGE_BITS)) + 1)
  {
    NextMultiple(start, end, Pow2(PAGE_BITS));
    Log2OfPages(end - start, PAGE_BITS);
    hide Log2, Tiles;
    var t, top := Tiles(start, end), Log2(end - start);
    TileSizes(start, end, top);
    var p := TilesMountain(start, end);
    RiseLength(t, p, PAGE_BITS);
    if p + 1 < |t| {
      FallLength(t, p + 1, PAGE_BITS);
    }
  }

  lemma {:induction false} Log2OfPages(x: nat, k: nat)
    requires x / Pow2(k) > 0
    ensures x > 0 && Log2(x) >= k && Log2(x / Pow2(k)) == Log2(x) - k
  {
    if k > 0 {
      var a := Pow2(k - 1);
      Quarter(x, a);
      Log2OfPages(x / 2, k - 1);
    }
  }

  lemma Quarter(x: nat, a: nat)
    requires a > 0
    ensures x / (2 * a) == (x / 2) / a
  {
    var q := (x / 2) / a;
    assert x / 2 == a * q + (x / 2) % a;
    ModUnique(x, 2 * a, q, 2 * ((x / 2) % a) + x % 2);
  }
}
