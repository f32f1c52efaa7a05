/** Capabilities: the record the kernel keeps in every slot (include/kern/cap.h),
    and the size of each kind of object (include/kern/size.h). */
module Caps {
  import opened Arith

  datatype ObjectType =
    | Null | Endpoint | Reply | Notification | CNode | Tcb | Untyped
    | IoPort | IoPortControl | Pml4 | Pdpt | Pd | Pt | Page | HugePage
    | IrqControl | IrqHandler

  type Rights = bv5

  const RIGHTS_ALL: Rights := 0x1F

  /** One capability.  For an untyped capability `badge` is the allocation watermark. */
  datatype Cap = Cap(isOriginal: bool, isDevice: bool, ptr: nat, sizeBits: nat,
                     rights: Rights, kind: ObjectType, badge: nat)

  const NULL_CAP := Cap(false, false, 0, 0, 0, Null, 0)

  /** `r` grants nothing that `of` does not grant. */
  predicate RightsWithin(r: Rights, of: Rights) { r & of == r }

  lemma RightsWithinTransitive(a: Rights, b: Rights, c: Rights)
    requires RightsWithin(a, b) && RightsWithin(b, c)
    ensures RightsWithin(a, c)
  {
  }

  lemma MaskedRightsWithin(r: Rights, mask: Rights)
    ensures RightsWithin(r & mask, r)
  {
  }

  /** The kinds of objects that retype can make; for the others the kernel asserts, and a null
      object has size zero. */
  predicate IsObject(kind: ObjectType)
  {
    kind !in {Null, Reply, IoPort, IoPortControl, IrqControl, IrqHandler}
  }

  /** object_size: an object takes 2^ObjectBits bytes. */
  function ObjectBits(kind: ObjectType, sizeBits: nat): nat
    requires IsObject(kind)
  {
    match kind
    case Tcb => 9
    case CNode => sizeBits + 5
    case Endpoint => 4
    case Notification => 5
    case Untyped => sizeBits
    case HugePage => 21
    case Pml4 | Pdpt | Pd | Pt | Page => 12
  }

  /** What an object has to hold: a list head, a word with a list head and a pointer, 32-byte slots, 512 words
      of a table, or a frame.  A thread's record has its own assertion in kern/obj/tcb.c:16. */
  function Holds(kind: ObjectType, sizeBits: nat): nat
    requires IsObject(kind) && kind != Tcb
  {
    match kind
    case Endpoint => 16
    case Notification => 8 + 16 + 8
    case CNode => 32 * Pow2(sizeBits)
    case Untyped => Pow2(sizeBits)
    case HugePage => 512 * 4096
    case Page => 4096
    case Pml4 | Pdpt | Pd | Pt => 512 * 8
  }

  /** An object is exactly as large as what it holds. */
  lemma ObjectsFitExactly(kind: ObjectType, sizeBits: nat)
    requires IsObject(kind) && kind != Tcb
    ensures Pow2(ObjectBits(kind, sizeBits)) == Holds(kind, sizeBits)
  {
    assert Pow2(4) == 16 && Pow2(5) == 32;
    assert Pow2(12) == 4096 by { assert Pow2(8) == 256; }
    if kind == CNode {
      Pow2Adds(sizeBits, 5);
    } else if kind == HugePage {
      Pow2Adds(9, 12);
      assert Pow2(9) == 512 by { assert Pow2(5) == 32; }
    }
  }

  /** The capability create_objects writes into an empty slot. */
  function Fresh(kind: ObjectType, sizeBits: nat, ptr: nat): Cap
  {
    Cap(true, false, ptr, sizeBits, RIGHTS_ALL, kind, 0)
  }
}

/** The object pointer inside the first capability word (include/kern/cap.h). */
module CapWord {

  predicate IsSafeCapPtr(p: bv64)
  {
    p & 0xF == 0 && (p >> 47 == 0x1FFFF || p >> 47 == 0)
  }

  function BitsPointer(bits: bv64): bv64
  {
    var ptrBits := bits & 0x0000_FFFF_FFFF_FFF0;
    if ptrBits & 0x8000_0000_0000 != 0 then ptrBits | 0xFFFF_0000_0000_0000 else ptrBits
  }

  /** What set_bits_pointer leaves in the word; it asserts IsSafeCapPtr(p) first. */
  function SetBitsPointer(bits: bv64, p: bv64): bv64
  {
    (bits & 0xFFFF_0000_0000_000F) | (p & 0x0000_FFFF_FFFF_FFF0)
  }

  lemma HighBits(p: bv64)
    ensures p >> 47 == 0 <==> p & 0xFFFF_8000_0000_0000 == 0
    ensures p >> 47 == 0x1FFFF <==> p & 0xFFFF_8000_0000_0000 == 0xFFFF_8000_0000_0000
  {
  }

  lemma PackedFields(bits: bv64, p: bv64)
    ensures SetBitsPointer(bits, p) & 0x0000_FFFF_FFFF_FFF0 == p & 0x0000_FFFF_FFFF_FFF0
    ensures SetBitsPointer(bits, p) & 0xFFFF_0000_0000_000F == bits & 0xFFFF_0000_0000_000F
  {
  }

  lemma SafePointerSurvivesMasking(p: bv64)
    requires IsSafeCapPtr(p)
    ensures BitsPointer(p) == p
  {
    HighBits(p);
    assert p & 0xFFFF_8000_0000_0000 == 0 || p & 0xFFFF_8000_0000_0000 == 0xFFFF_8000_0000_0000;
  }

  lemma UnpackedPointerIsSafe(bits: bv64)
    ensures IsSafeCapPtr(BitsPointer(bits))
  {
    var p := BitsPointer(bits);
    HighBits(p);
    assert p & 0xFFFF_8000_0000_0000 == 0 || p & 0xFFFF_8000_0000_0000 == 0xFFFF_8000_0000_0000;
  }

  /** The pointer survives the packing exactly when the kernel's assertion holds, and the
      bits of the other fields are kept. */
  lemma PointerRoundTrip(bits: bv64, p: bv64)
    ensures BitsPointer(SetBitsPointer(bits, p)) == p <==> IsSafeCapPtr(p)
    ensures SetBitsPointer(bits, p) & 0xFFFF_0000_0000_000F == bits & 0xFFFF_0000_0000_000F
  {
    PackedFields(bits, p);
    UnpackedPointerIsSafe(p);
    if IsSafeCapPtr(p) {
      SafePointerSurvivesMasking(p);
    }
  }
}
