/** Reading numbers (lib/num.c; section 7.22.1.4 of ISO/IEC 9899:2018). */
module Num {

  type Text = seq<char>

  /** The character at `i`; the text ends with a null character. */
  function At(s: Text, i: nat): char { if i < |s| then s[i] else '\0' }

  predicate IsSpace(c: char) { c == ' ' || 9 <= c as int <= 13 }

  /** `(c | 32) == 'x'`. */
  predicate IsX(c: char) { c == 'x' || c == 'X' }

  /** The value of a digit or letter, -1 for anything else. */
  function DigitOf(c: char): int
  {
    if '0' <= c <= '9' then c as int - '0' as int
    else if 'A' <= c <= 'Z' then c as int - 'A' as int + 10
    else if 'a' <= c <= 'z' then c as int - 'a' as int + 10
    else -1
  }

  predicate IsDigit(c: char, base: int) { 0 <= DigitOf(c) < base }

  // ----- What strtol reads -----

  function SkipSpace(s: Text, i: nat): (r: nat)
    decreases |s| - i
  {
    if i < |s| && IsSpace(s[i]) then SkipSpace(s, i + 1) else i
  }

  /** The end of the digits from `i` on. */
  function SkipDigits(s: Text, i: nat, base: int): (r: nat)
    ensures r >= i
    decreases |s| - i
  {
    if i < |s| && IsDigit(s[i], base) then SkipDigits(s, i + 1, base) else i
  }

  function Fold(acc: int, ds: seq<int>, base: int): int
  {
    if ds == [] then acc else Fold(acc, ds[..|ds| - 1], base) * base + ds[|ds| - 1]
  }

  function DigitsIn(s: Text): seq<int> { seq(|s|, i requires 0 <= i < |s| => DigitOf(s[i])) }

  function SignLength(s: Text, i: nat): nat { if At(s, i) == '-' || At(s, i) == '+' then 1 else 0 }

  function BaseAt(s: Text, i: nat, base: int): int
  {
    if base != 0 then base
    else if At(s, i) != '0' then 10
    else if IsX(At(s, i + 1)) then 16
    else 8
  }

  function PrefixLength(s: Text, i: nat, base: int): nat
  {
    if (base == 0 || base == 16) && At(s, i) == '0' && IsX(At(s, i + 1)) then 2 else 0
  }

  /** The number a text starts with and where it ends. */
  datatype Reading = Reading(value: int, end: nat)

  function Read(s: Text, base: int): Reading
  {
    var sign := SkipSpace(s, 0);
    var prefix := sign + SignLength(s, sign);
    var first := prefix + PrefixLength(s, prefix, base);
    var end := SkipDigits(s, first, BaseAt(s, prefix, base));
    var digits := if first <= end <= |s| then s[first..end] else [];
    var value := Fold(0, DigitsIn(digits), BaseAt(s, prefix, base));
    Reading(if At(s, sign) == '-' then -value else value, end)
  }

  lemma {:induction false} SkipDigitsInside(s: Text, i: nat, base: int)
    ensures i <= |s| ==> SkipDigits(s, i, base) <= |s|
    decreases |s| - i
  {
    if i < |s| && IsDigit(s[i], base) {
      SkipDigitsInside(s, i + 1, base);
    }
  }

  lemma DigitsInGrows(s: Text, c: char)
    ensures DigitsIn(s + [c]) == DigitsIn(s) + [DigitOf(c)]
  {
  }

  lemma SkipSpaceInside(s: Text, i: nat)
    requires i <= |s|
    ensures SkipSpace(s, i) <= |s|
    decreases |s| - i
  {
    if i < |s| && IsSpace(s[i]) {
      SkipSpaceInside(s, i + 1);
    }
  }

  /** strtol. */
  method Strtol(s: Text, base: int) returns (value: int, end: nat)
    ensures Reading(value, end) == Read(s, base)
  {
    hide IsSpace, DigitOf, IsX, PrefixLength, BaseAt, SkipDigits, Fold, DigitsIn;
    end := 0;
    while IsSpace(At(s, end)) && end < |s|
      invariant end <= |s| && SkipSpace(s, end) == SkipSpace(s, 0)
      decreases |s| - end
    {
      end := end + 1;
    }
    SkipSpaceInside(s, 0);
    ghost var signAt := end;
    var sign := 1;
    if At(s, end) == '-' {
      sign := -1;
      end := end + 1;
    } else if At(s, end) == '+' {
      end := end + 1;
    }
    var b;
    end, b := ReadPrefix(s, end, base);
    value, end := Digits(s, end, b);
    ghost var magnitude := value;
    value := value * sign;
    assert value == if sign == 1 then magnitude else -magnitude;
  }

  /** The base and where the digits start. */
  method ReadPrefix(s: Text, at: nat, base: int) returns (first: nat, b: int)
    requires at <= |s|
    ensures b == BaseAt(s, at, base) && first == at + PrefixLength(s, at, base) && first <= |s|
  {
    hide IsX;
    NotX();
    first, b := at, base;
    if base == 0 {
      if At(s, first) == '0' {
        if IsX(At(s, first + 1)) {
          b := 16;
          first := first + 2;
        } else {
          b := 8;
        }
      } else {
        b := 10;
      }
    } else if base == 16 && At(s, first) == '0' && IsX(At(s, first + 1)) {
      first := first + 2;
    }
  }

  lemma NotX()
    ensures !IsX('\0')
  {
  }

  /** The digit loop of strtol. */
  method Digits(s: Text, first: nat, base: int) returns (value: int, end: nat)
    requires first <= |s|
    ensures first <= end <= |s| && end == SkipDigits(s, first, base) && value == Fold(0, DigitsIn(s[first..end]), base)
  {
    hide DigitOf;
    end, value := first, 0;
    while true
      invariant first <= end <= |s| && SkipDigits(s, end, base) == SkipDigits(s, first, base)
      invariant value == Fold(0, DigitsIn(s[first..end]), base)
      decreases |s| - end
    {
      if end >= |s| {
        break;
      }
      var digit := DigitOf(s[end]);
      if digit < 0 || digit >= base {
        break;
      }
      DigitsInGrows(s[first..end], s[end]);
      assert s[first..end + 1] == s[first..end] + [s[end]];
      FoldAppend(0, DigitsIn(s[first..end]), digit, base);
      value := value * base + digit;
      end := end + 1;
    }
  }

  lemma FoldAppend(acc: int, ds: seq<int>, d: int, base: int)
    ensures Fold(acc, ds + [d], base) == Fold(acc, ds, base) * base + d
  {
    assert (ds + [d])[..|ds + [d]| - 1] == ds;
  }

  // ----- Texts of a known shape -----

  lemma {:induction false} SkipSpaces(s: Text, i: nat, k: nat)
    requires i <= k < |s| && !IsSpace(s[k]) && forall j :: i <= j < k ==> IsSpace(s[j])
    ensures SkipSpace(s, i) == k
    decreases k - i
  {
    if i < k {
      SkipSpaces(s, i + 1, k);
    }
  }

  lemma {:induction false} SkipAllDigits(s: Text, i: nat, base: int)
    requires i <= |s| && forall j :: i <= j < |s| ==> IsDigit(s[j], base)
    ensures SkipDigits(s, i, base) == |s|
    decreases |s| - i
  {
    if i < |s| {
      SkipAllDigits(s, i + 1, base);
    }
  }

  predicate Spaces(s: Text) { forall j :: 0 <= j < |s| ==> IsSpace(s[j]) }
  predicate AllDigits(s: Text, base: int) { forall j :: 0 <= j < |s| ==> IsDigit(s[j], base) }
  predicate SignText(s: Text) { s == "" || s == "-" || s == "+" }
  predicate PrefixText(s: Text, base: int) { s == "" || (base == 16 && (s == "0x" || s == "0X")) }

  /** A digit is no space, no sign and no x. */
  lemma DigitIsPlain(c: char, base: int)
    requires IsDigit(c, base) && base <= 16
    ensures !IsSpace(c) && c != '-' && c != '+' && !IsX(c)
  {
  }

  lemma SignIsPlain()
    ensures !IsSpace('-') && !IsSpace('+') && !IsSpace('0') && IsX('x') && IsX('X')
  {
  }

  /** Spaces, a sign, a prefix and digits are read to the end. */
  lemma ReadsShape(spaces: Text, sign: Text, prefix: Text, digits: Text, base: int)
    requires 2 <= base <= 16 && Spaces(spaces) && SignText(sign) && PrefixText(prefix, base)
    requires digits != "" && AllDigits(digits, base)
    ensures var s := spaces + sign + prefix + digits;
            var value := Fold(0, DigitsIn(digits), base);
            Read(s, base) == Reading(if sign == "-" then -value else value, |s|)
  {
    hide IsSpace, IsDigit, IsX, Fold, DigitsIn;
    var s := spaces + sign + prefix + digits;
    var a := |spaces|;
    var b := a + |sign|;
    var c := b + |prefix|;
    DigitIsPlain(digits[0], base);
    SignIsPlain();
    assert s[c] == digits[0] && (sign != "" ==> s[a] == sign[0]) && (prefix != "" ==> s[b] == prefix[0] && s[b + 1] == prefix[1]);
    assert forall j :: 0 <= j < a ==> s[j] == spaces[j];
    SkipSpaces(s, 0, a);
    if prefix == "" && |digits| > 1 {
      assert s[c + 1] == digits[1];
      DigitIsPlain(digits[1], base);
    }
    NotX();
    assert SignLength(s, a) == |sign| && (At(s, a) == '-' <==> sign == "-");
    assert PrefixLength(s, b, base) == |prefix|;
    assert forall j :: c <= j < |s| ==> s[j] == digits[j - c];
    SkipAllDigits(s, c, base);
    assert s[c..|s|] == digits;
  }

  lemma ZeroIsDigit(base: int)
    requires base >= 2
    ensures IsDigit('0', base)
  {
  }

  /** Reading never goes past a character that is no digit. */
  lemma {:induction false} SkipDigitsStops(s: Text, i: nat, k: nat, base: int)
    requires i <= k < |s| && !IsDigit(s[k], base)
    ensures SkipDigits(s, i, base) <= k
    decreases k - i
  {
    if i < k && IsDigit(s[i], base) {
      SkipDigitsStops(s, i + 1, k, base);
    }
  }

  /** Digits that start with something else than a prefix end at the first other character. */
  lemma ReadsUpTo(spaces: Text, sign: Text, digits: Text, rest: Text, base: int)
    requires 2 <= base <= 16 && Spaces(spaces) && SignText(sign) && AllDigits(digits, base)
    requires rest != "" && !IsDigit(rest[0], base) && !IsX(rest[0]) && !IsSpace(rest[0]) && rest[0] != '-' && rest[0] != '+'
    ensures Read(spaces + sign + digits + rest, base).end <= |spaces + sign + digits|
  {
    hide IsSpace, IsDigit, IsX, Fold, DigitsIn;
    var s := spaces + sign + digits + rest;
    var a := |spaces|;
    var b := a + |sign|;
    var k := b + |digits|;
    SignIsPlain();
    ZeroIsDigit(base);
    assert s[k] == rest[0] && (sign != "" ==> s[a] == sign[0]);
    assert forall j :: 0 <= j < a ==> s[j] == spaces[j];
    assert forall j :: b <= j < k ==> s[j] == digits[j - b];
    if digits != "" {
      DigitIsPlain(digits[0], base);
      if |digits| > 1 {
        DigitIsPlain(digits[1], base);
      }
    }
    SkipSpaces(s, 0, a);
    assert SignLength(s, a) == |sign|;
    NotX();
    assert PrefixLength(s, b, base) == 0;
    SkipDigitsStops(s, b, k, base);
  }

  // ----- Values -----

  lemma {:induction false} FoldZeros(zeros: Text, s: Text, base: int)
    requires forall j :: 0 <= j < |zeros| ==> zeros[j] == '0'
    ensures Fold(0, DigitsIn(zeros + s), base) == Fold(0, DigitsIn(s), base)
    decreases |zeros| + |s|
  {
    if s == "" {
      assert zeros + s == zeros;
      if zeros != "" {
        var z := zeros[..|zeros| - 1];
        assert zeros == z + ['0'] && z + "" == z;
        FoldZeros(z, "", base);
        DigitsInGrows(z, '0');
        FoldAppend(0, DigitsIn(z), 0, base);
      }
    } else {
      var t, c := s[..|s| - 1], s[|s| - 1];
      assert s == t + [c] && zeros + s == (zeros + t) + [c];
      FoldZeros(zeros, t, base);
      DigitsInGrows(t, c);
      DigitsInGrows(zeros + t, c);
      FoldAppend(0, DigitsIn(t), DigitOf(c), base);
      FoldAppend(0, DigitsIn(zeros + t), DigitOf(c), base);
    }
  }

  /** The value read grows with every digit, so no step of reading a number goes beyond the number. */
  lemma {:induction false} FoldGrows(s: Text, k: nat, base: int)
    requires k <= |s| && base >= 1 && AllDigits(s, base)
    ensures 0 <= Fold(0, DigitsIn(s[..k]), base) <= Fold(0, DigitsIn(s), base)
    decreases |s|
  {
    if s != "" {
      var t, c := s[..|s| - 1], s[|s| - 1];
      assert s == t + [c];
      DigitsInGrows(t, c);
      FoldAppend(0, DigitsIn(t), DigitOf(c), base);
      FoldGrows(t, if k <= |t| then k else |t|, base);
      assert k <= |t| ==> s[..k] == t[..k];
      assert s[..|s|] == s && t[..|t|] == t;
      var v := Fold(0, DigitsIn(t), base);
      assert v * base >= v by { Scales(v, base); }
    } else {
      assert s[..k] == s;
    }
  }

  lemma Scales(v: int, base: int)
    requires v >= 0 && base >= 1
    ensures v * base >= v
  {
    assert v * base == v + v * (base - 1);
  }

  /** Without a base the text chooses: after the sign, 0x or 0X for 16, another 0 for 8, and anything else for 10. */
  lemma ReadsWithoutBase(s: Text)
    ensures var sign := SkipSpace(s, 0);
            var i := if At(s, sign) == '-' || At(s, sign) == '+' then sign + 1 else sign;
            Read(s, 0) == Read(s, if At(s, i) != '0' then 10 else if At(s, i + 1) == 'x' || At(s, i + 1) == 'X' then 16 else 8)
  {
    hide SkipSpace, SkipDigits, Fold, DigitsIn;
  }

  /** The digits in order, and the six characters of space. */
  lemma Characters()
    ensures forall k: nat :: k < 10 ==> DigitOf("0123456789"[k]) == k
    ensures forall c: char :: IsSpace(c) <==> c in " \t\n\r" || c as int == 11 || c as int == 12
  {
  }

  /** The letters in order, in either case. */
  lemma Letters()
    ensures forall k: nat :: k < 26 ==> DigitOf("abcdefghijklmnopqrstuvwxyz"[k]) == 10 + k
    ensures forall k: nat :: k < 26 ==> DigitOf("ABCDEFGHIJKLMNOPQRSTUVWXYZ"[k]) == 10 + k
  {
  }
}
