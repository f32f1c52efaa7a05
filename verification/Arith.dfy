/** Powers of two, alignment, division and the 64-bit word range. */
module Arith {

  const WORD_RANGE: nat := 0x1_0000_0000_0000_0000

  function Pow2(n: nat): (p: nat)
    ensures p >= 1
  {
    if n == 0 then 1 else 2 * Pow2(n - 1)
  }

  lemma {:induction false} Pow2Adds(a: nat, b: nat)
    ensures Pow2(a + b) == Pow2(a) * Pow2(b)
  {
    if a > 0 {
      Pow2Adds(a - 1, b);
      assert Pow2(a + b) == 2 * Pow2(a - 1 + b);
    }
  }

  /** `x` is a multiple of `a`. */
  ghost predicate Aligned(x: nat, a: nat)
    requires a > 0
  {
    x % a == 0
  }

  lemma MultipleAligned(q: nat, a: nat)
    requires a > 0
    ensures Aligned(q * a, a)
  {
    assert q * a == a * q + 0;
    ModUnique(q * a, a, q, 0);
  }

  lemma {:induction false} MulMono(a: nat, b: nat, c: nat)
    requires b <= c
    ensures a * b <= a * c
    decreases c - b
  {
    if b < c {
      MulMono(a, b, c - 1);
      assert a * c == a * (c - 1) + a;
    }
  }

  lemma ModUnique(x: nat, a: nat, q: nat, r: nat)
    requires a > 0 && x == a * q + r && r < a
    ensures x / a == q && x % a == r
  {
    var q', r' := x / a, x % a;
    assert x == a * q' + r';
    var lo, hi := if q < q' then q else q', if q < q' then q' else q;
    if lo + 1 <= hi {
      MulMono(a, lo + 1, hi);
    }
  }

  lemma AlignedSum(x: nat, y: nat, a: nat)
    requires a > 0 && Aligned(x, a) && Aligned(y, a)
    ensures Aligned(x + y, a)
  {
    assert x == a * (x / a) && y == a * (y / a);
    assert x + y == a * (x / a + y / a);
    ModUnique(x + y, a, x / a + y / a, 0);
  }

  /** Alignment to a power of two gives alignment to every smaller one. */
  lemma AlignedDown(x: nat, k: nat, m: nat)
    requires k <= m && Aligned(x, Pow2(m))
    ensures Aligned(x, Pow2(k))
  {
    Pow2Adds(k, m - k);
    var a, b, q := Pow2(k), Pow2(m - k), x / Pow2(m);
    assert x == Pow2(m) * q;
    MulAssoc(a, b, q);
    ModUnique(x, a, b * q, 0);
  }

  lemma MulAssoc(a: nat, b: nat, c: nat)
    ensures (a * b) * c == a * (b * c)
  {
  }

  /** ALIGN_UP to a power of two, away from wrap-around. */
  function AlignUp(x: nat, a: nat): (r: nat)
    requires a > 0
  {
    (x + a - 1) / a * a
  }

  lemma AlignUpLeast(x: nat, a: nat)
    requires a > 0
    ensures AlignUp(x, a) >= x && Aligned(AlignUp(x, a), a)
    ensures forall y: nat :: y >= x && Aligned(y, a) ==> AlignUp(x, a) <= y
  {
    var q := (x + a - 1) / a;
    assert x + a - 1 == a * q + (x + a - 1) % a && AlignUp(x, a) == a * q;
    MultipleAligned(q, a);
    forall y: nat | y >= x && Aligned(y, a)
      ensures a * q <= y
    {
      MultipleAbove(x, a, q, y / a);
    }
  }

  lemma MultipleAbove(x: nat, a: nat, q: nat, p: nat)
    requires a > 0 && a * q <= x + a - 1 && a * p >= x
    ensures a * q <= a * p
  {
    if p < q {
      MulMono(a, p + 1, q);
    } else {
      MulMono(a, q, p);
    }
  }

  lemma {:induction false} Pow2Mono(a: nat, b: nat)
    requires a <= b
    ensures Pow2(a) <= Pow2(b)
  {
    if a < b {
      Pow2Mono(a, b - 1);
    }
  }

  lemma Pow2Of32()
    ensures Pow2(32) == 0x1_0000_0000
  {
    assert Pow2(8) == 256;
    Pow2Adds(8, 8);
    Pow2Adds(16, 16);
  }

  lemma Pow2Of63()
    ensures Pow2(63) == 0x8000_0000_0000_0000
  {
    Pow2Of32();
    Pow2Adds(32, 32);
    assert Pow2(64) == 2 * Pow2(63);
  }

  lemma Pow2Word(bits: nat)
    requires bits < 64
    ensures Pow2(bits) < WORD_RANGE
  {
    Pow2Mono(bits, 63);
    Pow2Of63();
  }

  lemma Pow2Less(a: nat, b: nat)
    requires a < b
    ensures Pow2(a) < Pow2(b)
  {
    Pow2Mono(a + 1, b);
  }

  /** A positive multiple is at least the number itself. */
  lemma Multiples(x: nat, a: nat)
    requires a > 0 && Aligned(x, a) && x > 0
    ensures x >= a
  {
    assert x == a * (x / a);
    if x < a {
      ModUnique(x, a, 0, x);
    }
  }

  lemma Distributes(a: nat, x: nat, y: nat, r: nat)
    requires a * x == a * y + r
    ensures r == a * (x - y)
  {
  }

  /** No multiple of `a` lies strictly between two neighbouring multiples. */
  lemma Between(a: nat, x: int, c: int)
    requires a > 0
    ensures !(a * c - a < a * x < a * c)
  {
    if x >= c {
      assert a * x == a * c + a * (x - c);
    } else {
      assert a * c == a * x + a + a * (c - 1 - x);
    }
  }

  lemma WordMultiple(k: nat)
    requires k < 64
    ensures WORD_RANGE == Pow2(k) * (WORD_RANGE / Pow2(k))
  {
    Pow2Of63();
    Pow2Adds(k, 64 - k);
    assert Pow2(64) == 2 * Pow2(63);
    ModUnique(WORD_RANGE, Pow2(k), Pow2(64 - k), 0);
  }

  lemma InRange(x: nat)
    requires x < WORD_RANGE
    ensures x % WORD_RANGE == x
  {
  }
}
