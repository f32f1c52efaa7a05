/** Printing numbers (lib/print.c:53-61 and 122-295). */
module Print {
  import opened Num
  import opened Arith

  datatype Base = Base10 | Base16 | Base16Caps | Base8 | Base2 | BasePtr

  datatype Spec = Spec(base: Base, alternate: bool, plus: bool, space: bool, left: bool, padChar: char, width: int)

  datatype Number = Number(value: nat, negative: bool)
  {
    function Signed(): int
    {
      var v: int := value;
      if negative then -v else v
    }
  }

  const MAX_DIGITS: nat := 64

  function Radix(b: Base): (r: nat)
    ensures 2 <= r <= 16
  {
    match b
    case Base10 => 10
    case Base16 | Base16Caps | BasePtr => 16
    case Base8 => 8
    case Base2 => 2
  }

  // ----- What is printed -----

  function CharOf(d: nat, upper: bool): char
    requires d < 16
  {
    if d < 10 then ('0' as int + d) as char
    else if upper then ('A' as int + (d - 10)) as char
    else ('a' as int + (d - 10)) as char
  }

  function Upper(b: Base): bool { b == Base16Caps || b == BasePtr }

  function Rest(v: nat, base: Base): nat { v / Radix(base) }
  function Last(v: nat, base: Base): (d: nat)
    ensures d < Radix(base)
  {
    v % Radix(base)
  }

  /** The digits of a value, most significant first. */
  function DigitChars(v: nat, base: Base): Text
    decreases v
  {
    FitsLess(v, Radix(base));
    (if v < Radix(base) then [] else DigitChars(Rest(v, base), base)) + [CharOf(Last(v, base), Upper(base))]
  }

  predicate NullPointer(spec: Spec, n: Number) { n.value == 0 && spec.base == BasePtr }

  function Body(spec: Spec, n: Number): Text
  {
    if NullPointer(spec, n) then "(nullptr)" else DigitChars(n.value, spec.base)
  }

  function SignOf(spec: Spec, n: Number): Text
  {
    if n.negative then "-" else if spec.plus then "+" else if spec.space then " " else ""
  }

  function PrefixOf(spec: Spec): Text
  {
    if !spec.alternate then "" else
      match spec.base
      case Base2 => "0b"
      case Base8 => "0"
      case Base10 => ""
      case Base16Caps => "0X"
      case Base16 | BasePtr => "0x"
  }

  function Lead(spec: Spec, n: Number): Text
  {
    if NullPointer(spec, n) then "" else SignOf(spec, n) + PrefixOf(spec)
  }

  function Padding(c: char, k: int): Text
    decreases k
  {
    if k <= 0 then "" else Padding(c, k - 1) + [c]
  }

  function PadLength(spec: Spec, n: Number): int
  {
    spec.width - |Body(spec, n)| - (if n.negative || spec.plus || spec.space then 1 else 0)
    - (if NullPointer(spec, n) then 0 else |PrefixOf(spec)|)
  }

  /** Everything format_number writes when there is room. */
  function Full(spec: Spec, n: Number): Text
  {
    var pad := Padding(spec.padChar, PadLength(spec, n));
    if spec.width == 0 then Lead(spec, n) + Body(spec, n)
    else if spec.left then Lead(spec, n) + Body(spec, n) + pad
    else if spec.padChar == '0' then Lead(spec, n) + pad + Body(spec, n)
    else pad + Lead(spec, n) + Body(spec, n)
  }

  // ----- Length -----

  lemma {:induction false} PaddingLength(c: char, k: int)
    ensures |Padding(c, k)| == if k <= 0 then 0 else k
    decreases k
  {
    if k > 0 {
      PaddingLength(c, k - 1);
    }
  }

  function Max(a: int, b: int): int { if a >= b then a else b }

  /** The output is as wide as asked for, or as its text if that is wider; only a null pointer with a
      sign flag, whose sign is counted but not written, is one short. */
  lemma LengthIff(spec: Spec, n: Number)
    ensures |Full(spec, n)| == Max(spec.width, |Lead(spec, n)| + |Body(spec, n)|)
            <==> !(NullPointer(spec, n) && (n.negative || spec.plus || spec.space) && spec.width > 9)
  {
    PaddingLength(spec.padChar, PadLength(spec, n));
    hide DigitChars;
  }

  // ----- Layout -----

  /** A minus shows exactly the negative numbers; of the others a plus or a space shows that a flag asks for it,
      and the plus goes first.  A null pointer has neither sign nor prefix. */
  lemma SignShows(spec: Spec, n: Number)
    requires !NullPointer(spec, n)
    ensures var lead := Lead(spec, n);
            && (lead != "" && lead[0] == '-' <==> n.negative)
            && (lead != "" && lead[0] == '+' <==> !n.negative && spec.plus)
            && (lead != "" && lead[0] == ' ' <==> !n.negative && !spec.plus && spec.space)
            && |lead| == |PrefixOf(spec)| + (if n.negative || spec.plus || spec.space then 1 else 0)
  {
  }

  /** With the alternate form, hexadecimal numbers start with 0 and an x, which is capital exactly in the capital
      form, octal ones with 0 alone, and binary ones with 0b. */
  lemma PrefixForm(spec: Spec)
    requires spec.alternate
    ensures PrefixOf(spec) != "" <==> spec.base != Base10
    ensures spec.base != Base10 ==> PrefixOf(spec)[0] == '0' && |PrefixOf(spec)| == if spec.base == Base8 then 1 else 2
    ensures Radix(spec.base) == 16 ==> PrefixOf(spec)[1] == if spec.base == Base16Caps then 'X' else 'x'
    ensures spec.base == Base2 ==> PrefixOf(spec)[1] == 'b'
  {
  }

  /** A left-justified number comes first and is followed by padding only. */
  lemma LeftJustified(spec: Spec, n: Number)
    requires spec.left && spec.width != 0
    ensures var text, full := Lead(spec, n) + Body(spec, n), Full(spec, n);
            |text| <= |full| && full[..|text|] == text && forall i :: |text| <= i < |full| ==> full[i] == spec.padChar
  {
    hide DigitChars, Lead;
    AllPadding(spec.padChar, PadLength(spec, n));
  }

  /** A right-justified one comes last, behind padding only; zeros go between its sign and its digits. */
  lemma RightJustified(spec: Spec, n: Number)
    requires !spec.left
    ensures var lead, body, full := Lead(spec, n), Body(spec, n), Full(spec, n);
            var k := |full| - |body|;
            && k >= |lead| && full[k..] == body
            && (if spec.padChar == '0' then full[..|lead|] == lead && forall i :: |lead| <= i < k ==> full[i] == '0'
                else full[k - |lead|..k] == lead && forall i :: 0 <= i < k - |lead| ==> full[i] == spec.padChar)
  {
    hide DigitChars, Lead;
    AllPadding(spec.padChar, PadLength(spec, n));
  }

  lemma {:induction false} AllPadding(c: char, k: int)
    ensures |Padding(c, k)| == (if k <= 0 then 0 else k) && forall i :: 0 <= i < |Padding(c, k)| ==> Padding(c, k)[i] == c
    decreases k
  {
    if k > 0 {
      AllPadding(c, k - 1);
    }
  }

  /** Letters are small in base 16 and capital in its capital form and in pointers, and only zero starts with one. */
  lemma {:induction false} DigitForm(v: nat, base: Base)
    ensures var s := DigitChars(v, base);
            && s != "" && (s[0] == '0' <==> v == 0)
            && forall i :: 0 <= i < |s| ==>
                 '0' <= s[i] <= '9' || (Radix(base) == 16 && if base == Base16 then 'a' <= s[i] <= 'f' else 'A' <= s[i] <= 'F')
    decreases v
  {
    FitsLess(v, Radix(base));
    DigitParts(v, base);
    hide Rest, Last;
    if v >= Radix(base) {
      DigitForm(Rest(v, base), base);
    }
  }

  lemma DigitParts(v: nat, base: Base)
    ensures v < Radix(base) ==> Last(v, base) == v
    ensures v >= Radix(base) ==> Rest(v, base) > 0
  {
    if v < Radix(base) {
      ModUnique(v, Radix(base), 0, v);
    } else {
      DivMod(v, Radix(base));
      assert Rest(v, base) == 0 ==> v == Last(v, base);
    }
  }

  // ----- Limited output -----

  /** The part of a text for which there is room. */
  function Cut(s: Text, room: nat): Text { if |s| <= room then s else s[..room] }

  /** With limited output the text is cut off after as many characters as there is room for. */
  lemma CutIs(s: Text, room: nat)
    ensures |Cut(s, room)| == (if |s| <= room then |s| else room) && forall i :: 0 <= i < |Cut(s, room)| ==> Cut(s, room)[i] == s[i]
  {
  }

  lemma CutJoin(a: Text, b: Text, room: nat)
    ensures |Cut(a, room)| <= room && Cut(a + b, room) == Cut(a, room) + Cut(b, room - |Cut(a, room)|)
  {
  }

  class Stream {
    var out: Text

    constructor ()
      ensures out == ""
    {
      out := "";
    }

    /** The WRITE macro. */
    method Write(data: Text, n: nat, written: nat) returns (w: nat)
      requires written <= n
      modifies this
      ensures out == old(out) + Cut(data, n - written) && w == written + |Cut(data, n - written)|
    {
      w := written;
      if written < n {
        var can := if |data| <= n - written then |data| else n - written;
        out := out + data[..can];
        w := written + can;
      }
    }

    /** format_pad. */
    method FormatPad(spec: Spec, padLength: int, n: nat) returns (written: nat)
      modifies this
      ensures out == old(out) + Cut(Padding(spec.padChar, padLength), n) && written == |Cut(Padding(spec.padChar, padLength), n)|
    {
      written := 0;
      var i := 0;
      while i < padLength
        invariant 0 <= i && (padLength >= 0 ==> i <= padLength) && (padLength < 0 ==> i == 0)
        invariant out == old(out) + Cut(Padding(spec.padChar, i), n) && written == |Cut(Padding(spec.padChar, i), n)|
      {
        CutJoin(Padding(spec.padChar, i), [spec.padChar], n);
        written := Write([spec.padChar], n, written);
        i := i + 1;
      }
    }

    /** format_number_sign. */
    method FormatSign(spec: Spec, number: Number, n: nat) returns (written: nat)
      modifies this
      ensures out == old(out) + Cut(SignOf(spec, number), n) && written == |Cut(SignOf(spec, number), n)|
    {
      written := 0;
      if number.negative {
        written := Write("-", n, written);
      } else if spec.plus {
        written := Write("+", n, written);
      } else if spec.space {
        written := Write(" ", n, written);
      }
    }

    /** format_number_alternate_form. */
    method FormatPrefix(spec: Spec, n: nat) returns (written: nat)
      modifies this
      ensures out == old(out) + Cut(PrefixOf(spec), n) && written == |Cut(PrefixOf(spec), n)|
    {
      written := 0;
      if spec.alternate {
        match spec.base {
          case Base2 => written := Write("0b", n, written);
          case Base8 => written := Write("0", n, written);
          case Base10 =>
          case Base16Caps => written := Write("0X", n, written);
          case Base16 => written := Write("0x", n, written);
          case BasePtr => written := Write("0x", n, written);
        }
      }
    }

    /** The sign and the prefix of a number that is not a null pointer. */
    method FormatLead(spec: Spec, number: Number, n: nat, start: nat) returns (written: nat)
      requires start <= n
      modifies this
      ensures out == old(out) + Cut(Lead(spec, number), n - start) && written == start + |Cut(Lead(spec, number), n - start)|
    {
      hide SignOf, PrefixOf;
      written := start;
      if !NullPointer(spec, number) {
        var w := FormatSign(spec, number, n - written);
        written := written + w;
        CutJoin(SignOf(spec, number), PrefixOf(spec), n - start);
        w := FormatPrefix(spec, n - written);
        written := written + w;
      }
    }

    /** format_number: the part of the full text for which there is room. */
    method FormatNumber(spec: Spec, number: Number, n: nat) returns (written: nat)
      requires number.value < WORD_RANGE
      modifies this
      ensures out == old(out) + Cut(Full(spec, number), n) && written == |Cut(Full(spec, number), n)|
    {
      hide SignOf, PrefixOf, Lead, DigitChars, Padding;
      written := 0;
      var digits := FormatLayoutInt(spec, number);
      var padLength := spec.width - |digits|;
      if number.negative || spec.plus || spec.space {
        padLength := padLength - 1;
      }
      if spec.alternate && !NullPointer(spec, number) {
        padLength := padLength - PrefixWidth(spec.base);
      }
      PrefixWidthIs(spec);
      assert padLength == PadLength(spec, number);
      if spec.width != 0 && spec.left {
        written := FormatLeft(spec, number, digits, padLength, n);
      } else if spec.width != 0 {
        written := FormatRight(spec, number, digits, padLength, n);
      } else {
        CutJoin(Lead(spec, number), digits, n);
        written := FormatLead(spec, number, n, written);
        written := Write(digits, n, written);
      }
    }

    /** Its branch for left-justified numbers. */
    method FormatLeft(spec: Spec, number: Number, digits: Text, padLength: int, n: nat) returns (written: nat)
      modifies this
      ensures var full := Lead(spec, number) + digits + Padding(spec.padChar, padLength);
              out == old(out) + Cut(full, n) && written == |Cut(full, n)|
    {
      hide Lead, Padding, Cut;
      ghost var lead, pad := Lead(spec, number), Padding(spec.padChar, padLength);
      CutJoin(lead, digits, n);
      CutJoin(lead + digits, pad, n);
      written := FormatLead(spec, number, n, 0);
      written := Write(digits, n, written);
      var w := FormatPad(spec, padLength, n - written);
      written := written + w;
    }

    /** Its branch for right-justified numbers. */
    method FormatRight(spec: Spec, number: Number, digits: Text, padLength: int, n: nat) returns (written: nat)
      modifies this
      ensures var lead, pad := Lead(spec, number), Padding(spec.padChar, padLength);
              var full := if spec.padChar == '0' then lead + pad + digits else pad + lead + digits;
              out == old(out) + Cut(full, n) && written == |Cut(full, n)|
    {
      hide Lead, Padding, Cut;
      ghost var lead, pad := Lead(spec, number), Padding(spec.padChar, padLength);
      written := 0;
      if spec.padChar == '0' {
        CutJoin(lead, pad, n);
        CutJoin(lead + pad, digits, n);
        written := FormatLead(spec, number, n, written);
      } else {
        CutJoin(pad, lead, n);
        CutJoin(pad + lead, digits, n);
      }
      var w := FormatPad(spec, padLength, n - written);
      written := written + w;
      if spec.padChar != '0' {
        written := FormatLead(spec, number, n, written);
      }
      written := Write(digits, n, written);
    }
  }

  /** What the alternate form takes off the padding. */
  function PrefixWidth(b: Base): nat
  {
    match b
    case Base2 => 2
    case Base8 => 1
    case Base10 => 0
    case Base16Caps | Base16 | BasePtr => 2
  }

  lemma PrefixWidthIs(spec: Spec)
    ensures |PrefixOf(spec)| == if spec.alternate then PrefixWidth(spec.base) else 0
  {
  }

  // ----- Laying out the digits -----

  /** format_layout_int and strlen: the text up to the null character that ends the buffer. */
  method FormatLayoutInt(spec: Spec, number: Number) returns (text: Text)
    requires number.value < WORD_RANGE
    ensures text == Body(spec, number)
  {
    if NullPointer(spec, number) {
      return "(nullptr)";
    }
    if number.value == 0 {
      ZeroDigits(spec.base);
      return "0";
    }
    var buffer := new char[MAX_DIGITS + 1](_ => '\0');
    var start := FillDigits(buffer, spec.base, number.value);
    text := buffer[start..MAX_DIGITS];
  }

  lemma ZeroDigits(base: Base)
    ensures DigitChars(0, base) == "0"
  {
  }

  ghost predicate Fits(v: nat, room: nat) { v < Pow2(room) }

  lemma FitsDivides(v: nat, room: nat, r: nat)
    requires 2 <= r && v > 0 && Fits(v, room)
    ensures room > 0 && Fits(v / r, room - 1)
  {
    var q := v / r;
    assert v == r * q + v % r;
    assert q >= 1 ==> r * q >= 2 * q;
  }

  /** The text of a value or, for nothing left, no text. */
  function Remaining(v: nat, base: Base): Text { if v == 0 then "" else DigitChars(v, base) }

  /** The digit loop, from the end of the buffer backwards. */
  method FillDigits(buffer: array<char>, base: Base, value: nat) returns (start: nat)
    requires buffer.Length == MAX_DIGITS + 1 && 0 < value < WORD_RANGE
    modifies buffer
    ensures start <= MAX_DIGITS && buffer[start..MAX_DIGITS] == DigitChars(value, base) && buffer[MAX_DIGITS] == old(buffer[MAX_DIGITS])
  {
    hide CharOf, Pow2, Rest, Last, DigitChars, Radix, Fits;
    var acc: nat, digit: nat := value, 0;
    WordFits(acc);
    RadixBounds(base);
    while digit < MAX_DIGITS && acc > 0
      invariant 0 <= digit <= MAX_DIGITS && Fits(acc, MAX_DIGITS - digit)
      invariant Remaining(acc, base) + buffer[MAX_DIGITS - digit..MAX_DIGITS] == DigitChars(value, base)
      invariant buffer[MAX_DIGITS] == old(buffer[MAX_DIGITS])
    {
      ghost var tail := buffer[MAX_DIGITS - digit..MAX_DIGITS];
      var c := CharOf(Last(acc, base), Upper(base));
      buffer[MAX_DIGITS - 1 - digit] := c;
      assert buffer[MAX_DIGITS - 1 - digit..MAX_DIGITS] == [c] + tail;
      DigitStep(acc, base, MAX_DIGITS - digit);
      acc := Rest(acc, base);
      digit := digit + 1;
    }
    FitsNone(acc);
    start := MAX_DIGITS - digit;
  }

  lemma DigitStep(v: nat, base: Base, room: nat)
    requires v > 0 && Fits(v, room)
    ensures room > 0 && Fits(Rest(v, base), room - 1)
    ensures DigitChars(v, base) == Remaining(Rest(v, base), base) + [CharOf(Last(v, base), Upper(base))]
  {
    hide CharOf, Fits, Radix, Last;
    RadixBounds(base);
    DivMod(v, Radix(base));
    FitsDivides(v, room, Radix(base));
  }

  lemma WordFits(v: nat)
    requires v < WORD_RANGE
    ensures Fits(v, MAX_DIGITS)
  {
    assert Pow2(8) == 256;
    Pow2Adds(8, 8);
    Pow2Adds(16, 16);
    Pow2Adds(32, 32);
  }

  lemma FitsNone(v: nat)
    ensures Fits(v, 0) ==> v == 0
  {
  }

  // ----- Printing and reading back -----

  lemma CharOfDigit(d: nat, upper: bool)
    requires d < 16
    ensures DigitOf(CharOf(d, upper)) == d
  {
  }

  /** One more digit, read back. */
  lemma DigitReadBack(t: Text, q: nat, d: nat, base: Base, r: nat)
    requires r == Radix(base) && d < r && AllDigits(t, r) && Fold(0, DigitsIn(t), r) == q
    ensures var s := t + [CharOf(d, Upper(base))]; AllDigits(s, r) && Fold(0, DigitsIn(s), r) == q * r + d
  {
    hide CharOf, DigitOf, Fold, DigitsIn;
    var c := CharOf(d, Upper(base));
    CharOfDigit(d, Upper(base));
    DigitsInGrows(t, c);
    FoldAppend(0, DigitsIn(t), d, r);
  }

  lemma {:induction false} DigitsReadBack(v: nat, base: Base)
    ensures DigitChars(v, base) != "" && AllDigits(DigitChars(v, base), Radix(base))
    ensures Fold(0, DigitsIn(DigitChars(v, base)), Radix(base)) == v
    decreases v
  {
    hide CharOf, DigitOf, Radix, AllDigits;
    var r := Radix(base);
    RadixBounds(base);
    DivMod(v, r);
    if v >= r {
      DigitsReadBack(Rest(v, base), base);
      DigitReadBack(DigitChars(Rest(v, base), base), Rest(v, base), Last(v, base), base, r);
    } else {
      NoDigits(r);
      DigitReadBack("", 0, Last(v, base), base, r);
    }
  }

  lemma NoDigits(r: nat)
    ensures AllDigits("", r) && Fold(0, DigitsIn(""), r) == 0
  {
  }

  lemma DivMod(v: nat, r: nat)
    requires r >= 2
    ensures v / r * r + v % r == v && v % r < r && (v < r ==> v / r == 0 && v % r == v) && (v >= r ==> 0 < v / r < v)
  {
    if v < r {
      ModUnique(v, r, 0, v);
    } else {
      FitsLess(v, r);
    }
  }

  lemma FitsLess(v: nat, r: nat)
    requires r >= 2
    ensures v >= r ==> 0 < v / r < v
  {
    var q := v / r;
    assert v == r * q + v % r;
    assert q >= 1 ==> r * q >= 2 * q;
    assert q <= 0 ==> r * q <= 0;
  }

  lemma RadixBounds(base: Base)
    ensures 2 <= Radix(base) <= 16
  {
  }

  lemma {:induction false} PaddingChars(c: char, k: int)
    ensures forall j :: 0 <= j < |Padding(c, k)| ==> Padding(c, k)[j] == c
    decreases k
  {
    if k > 0 {
      PaddingChars(c, k - 1);
    }
  }

  /** A number with leading zeros, after spaces, a sign and a prefix, is read back. */
  lemma ZerosReadBack(spaces: Text, sign: Text, prefix: Text, zeros: Text, n: Number, base: Base)
    requires Spaces(spaces) && SignText(sign) && PrefixText(prefix, Radix(base)) && (sign == "-" <==> n.negative)
    requires forall j :: 0 <= j < |zeros| ==> zeros[j] == '0'
    ensures var s := spaces + sign + prefix + (zeros + DigitChars(n.value, base));
            Read(s, Radix(base)) == Reading(n.Signed(), |s|)
  {
    hide Read, IsSpace, Fold, DigitsIn, DigitChars, Radix;
    var body := DigitChars(n.value, base);
    RadixBounds(base);
    DigitsReadBack(n.value, base);
    FoldZeros(zeros, body, Radix(base));
    ZeroIsDigit(Radix(base));
    ReadsShape(spaces, sign, prefix, zeros + body, Radix(base));
  }

  /** A sign flag prints a sign or one more space. */
  function SpacePart(spec: Spec, n: Number): Text { if SignOf(spec, n) == " " then " " else "" }
  function SignPart(spec: Spec, n: Number): Text { if SignOf(spec, n) == " " then "" else SignOf(spec, n) }

  lemma SignParts(spec: Spec, n: Number)
    ensures SignOf(spec, n) == SpacePart(spec, n) + SignPart(spec, n) && SignText(SignPart(spec, n)) && Spaces(SpacePart(spec, n))
    ensures SignPart(spec, n) == "-" <==> n.negative
  {
  }

  /** The prefix is one that strtol skips, or zeros. */
  function SkippedPart(spec: Spec): Text { if Radix(spec.base) == 16 then PrefixOf(spec) else "" }
  function ZeroPart(spec: Spec): Text { if Radix(spec.base) == 16 then "" else PrefixOf(spec) }

  lemma PrefixParts(spec: Spec)
    requires !(spec.alternate && spec.base == Base2)
    ensures PrefixOf(spec) == SkippedPart(spec) + ZeroPart(spec) && PrefixText(SkippedPart(spec), Radix(spec.base))
    ensures forall j :: 0 <= j < |ZeroPart(spec)| ==> ZeroPart(spec)[j] == '0'
  {
  }

  lemma SpaceIsSpace()
    ensures IsSpace(' ')
  {
  }

  /** Right-justified output of a number is read back, to its end. */
  lemma ReadBack(spec: Spec, n: Number)
    requires (!spec.left || spec.width == 0) && (spec.padChar == ' ' || spec.padChar == '0')
    requires !(spec.alternate && spec.base == Base2) && !NullPointer(spec, n)
    ensures Read(Full(spec, n), Radix(spec.base)) == Reading(n.Signed(), |Full(spec, n)|)
  {
    hide Read, DigitChars, Radix, SignOf, PrefixOf, SpacePart, SignPart, SkippedPart, ZeroPart, IsSpace, SignText, PrefixText, PadLength;
    SignParts(spec, n);
    PrefixParts(spec);
    SpaceIsSpace();
    var pad := Padding(spec.padChar, PadLength(spec, n));
    PaddingChars(spec.padChar, PadLength(spec, n));
    hide Padding;
    var space, sign, skipped, zero, body := SpacePart(spec, n), SignPart(spec, n), SkippedPart(spec), ZeroPart(spec), Body(spec, n);
    if spec.width == 0 {
      ZerosReadBack(space, sign, skipped, zero, n, spec.base);
      assert Full(spec, n) == space + sign + skipped + (zero + body);
    } else if spec.padChar == '0' {
      ZerosReadBack(space, sign, skipped, zero + pad, n, spec.base);
      assert Full(spec, n) == space + sign + skipped + ((zero + pad) + body);
    } else {
      ZerosReadBack(pad + space, sign, skipped, zero, n, spec.base);
      assert Full(spec, n) == (pad + space) + sign + skipped + (zero + body);
    }
  }

  lemma StopChars()
    ensures !IsDigit('b', 2) && !IsX('b') && !IsSpace('b')
    ensures !IsDigit('(', 16) && !IsX('(') && !IsSpace('(') && IsDigit('0', 2) && IsDigit('0', 16)
  {
  }

  /** A binary prefix stops the reader: it takes the zero for the number. */
  lemma BinaryPrefixStops(spec: Spec, n: Number)
    requires (!spec.left || spec.width == 0) && (spec.padChar == ' ' || spec.padChar == '0')
    requires spec.alternate && spec.base == Base2
    ensures Read(Full(spec, n), Radix(spec.base)).end < |Full(spec, n)|
  {
    hide Read, DigitChars, SignOf, SpacePart, SignPart, IsSpace, IsDigit, IsX, SignText, PadLength;
    SignParts(spec, n);
    SpaceIsSpace();
    StopChars();
    var pad := Padding(spec.padChar, PadLength(spec, n));
    PaddingChars(spec.padChar, PadLength(spec, n));
    hide Padding;
    var space, sign, body := SpacePart(spec, n), SignPart(spec, n), Body(spec, n);
    if spec.width == 0 {
      ReadsUpTo(space, sign, "0", "b" + body, 2);
      assert Full(spec, n) == space + sign + "0" + ("b" + body);
    } else if spec.padChar == '0' {
      ReadsUpTo(space, sign, "0", "b" + pad + body, 2);
      assert Full(spec, n) == space + sign + "0" + ("b" + pad + body);
    } else {
      ReadsUpTo(pad + space, sign, "0", "b" + body, 2);
      assert Full(spec, n) == (pad + space) + sign + "0" + ("b" + body);
    }
  }

  lemma NullPointerStops(spec: Spec, n: Number)
    requires (!spec.left || spec.width == 0) && (spec.padChar == ' ' || spec.padChar == '0')
    requires NullPointer(spec, n)
    ensures Read(Full(spec, n), Radix(spec.base)).end < |Full(spec, n)|
  {
    hide Read, DigitChars, IsSpace, IsDigit, IsX, PadLength;
    SpaceIsSpace();
    StopChars();
    var pad := Padding(spec.padChar, PadLength(spec, n));
    PaddingChars(spec.padChar, PadLength(spec, n));
    hide Padding;
    if spec.width == 0 {
      ReadsUpTo("", "", "", "(nullptr)", 16);
      assert Full(spec, n) == "" + "" + "" + "(nullptr)";
    } else if spec.padChar == '0' {
      ReadsUpTo("", "", pad, "(nullptr)", 16);
      assert Full(spec, n) == "" + "" + pad + "(nullptr)";
    } else {
      ReadsUpTo(pad, "", "", "(nullptr)", 16);
      assert Full(spec, n) == pad + "" + "" + "(nullptr)";
    }
  }

  /** strtol in the base of the output returns the number and stops at the end, exactly when there is
      no binary prefix and the number is not printed as a null pointer. */
  lemma RoundTripIff(spec: Spec, n: Number)
    requires (!spec.left || spec.width == 0) && (spec.padChar == ' ' || spec.padChar == '0')
    ensures Read(Full(spec, n), Radix(spec.base)) == Reading(n.Signed(), |Full(spec, n)|)
            <==> !(spec.alternate && spec.base == Base2) && !NullPointer(spec, n)
  {
    hide Read, Full, Radix;
    if NullPointer(spec, n) {
      NullPointerStops(spec, n);
    } else if spec.alternate && spec.base == Base2 {
      BinaryPrefixStops(spec, n);
    } else {
      ReadBack(spec, n);
    }
  }
}
