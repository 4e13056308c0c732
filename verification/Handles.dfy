/** Sensor handles: 32-bit words whose top byte carries the index of the owning sub-HAL. */
module Handles {
  import opened Bits

  type Byte = x: nat | x < 256

  type Low = x: nat | x < 0x100_0000

  /** An int32_t sensor handle, as its top byte and its other 24 bits. */
  datatype Handle = Handle(top: Byte, rest: Low)

  function OrByte(a: Byte, b: Byte): Byte {
    BitwiseBound(Or, 8, a, b);
    Bitwise(Or, a, b)
  }

  /** Only the low byte of the index survives the cast to int32_t and the shift by 24. */
  function SetSubHalIndex(h: Handle, index: nat): Handle {
    h.(top := OrByte(h.top, index % 256))
  }

  /** The shift is arithmetic and the cast to size_t sign-extends, so that a negative handle
      yields an index close to 2^64. */
  function ExtractSubHalIndex(h: Handle): nat {
    if h.top >= 128 then 0xFFFF_FFFF_FFFF_FF00 + h.top else h.top
  }

  function ClearSubHalIndex(h: Handle): Handle {
    h.(top := 0)
  }

  predicate SubHalIndexIsClear(h: Handle) {
    h.top == 0
  }

  /** `isSubHalIndexValid`, for a proxy with `count` sub-HALs. */
  predicate IsSubHalIndexValid(h: Handle, count: nat) {
    ExtractSubHalIndex(h) < count
  }

  predicate IsNegative(h: Handle) {
    h.top >= 128
  }

  /** The word that the program computes with, as unsigned number, and its value as an int32_t. */
  function Word(h: Handle): nat {
    h.top * 0x100_0000 + h.rest
  }

  function Value(h: Handle): int {
    if Word(h) >= 0x8000_0000 then Word(h) - 0x1_0000_0000 else Word(h)
  }

  function OfWord(bits: nat): Handle
    requires bits < 0x1_0000_0000
  {
    Handle(bits / 0x100_0000, bits % 0x100_0000)
  }

  /** Handles are exactly the 32-bit words. */
  lemma HandlesAreWords(h: Handle, bits: nat)
    requires bits < 0x1_0000_0000
    ensures Word(h) < 0x1_0000_0000 && OfWord(Word(h)) == h
    ensures Word(OfWord(bits)) == bits
  {}

  lemma JoinWords(op: BitOp, top1: nat, rest1: Low, top2: nat, rest2: Low)
    ensures Bitwise(op, top1 * 0x100_0000 + rest1, top2 * 0x100_0000 + rest2)
         == Bitwise(op, top1, top2) * 0x100_0000 + Bitwise(op, rest1, rest2)
  {
    Powers();
    BitwiseJoin(op, 24, top1, rest1, top2, rest2);
  }

  lemma RemainderIs(n: nat, q: nat, r: nat)
    requires n == q * 0x1_0000_0000 + r && r < 0x1_0000_0000
    ensures n % 0x1_0000_0000 == r
  {}

  lemma ShiftKeepsLowByte(index: nat)
    ensures (index * 0x100_0000) % 0x1_0000_0000 == (index % 256) * 0x100_0000
  {
    assert index == 256 * (index / 256) + index % 256;
    RemainderIs(index * 0x100_0000, index / 256, (index % 256) * 0x100_0000);
  }

  lemma OrHigh(top: Byte, x: Byte, rest: Low)
    ensures Bitwise(Or, top * 0x100_0000 + rest, x * 0x100_0000) == Bitwise(Or, top, x) * 0x100_0000 + rest
  {
    JoinWords(Or, top, rest, x, 0);
    BitwiseZero(rest);
  }

  /** Tagging is the program's or of the word with the index shifted in 32 bits. */
  lemma TagIsOr(h: Handle, index: nat)
    ensures Word(SetSubHalIndex(h, index)) == Bitwise(Or, Word(h), (index * 0x100_0000) % 0x1_0000_0000)
  {
    ShiftKeepsLowByte(index);
    OrHigh(h.top, index % 256, h.rest);
  }

  lemma MaskWord(top: Byte, rest: Low)
    ensures Bitwise(And, top * 0x100_0000 + rest, 0x00FF_FFFF) == rest
    ensures Bitwise(And, top * 0x100_0000 + rest, 0xFF00_0000) == top * 0x100_0000
  {
    Powers();
    JoinWords(And, top, rest, 0, 0xFF_FFFF);
    JoinWords(And, top, rest, 0xFF, 0);
    BitwiseZero(top);
    BitwiseZero(rest);
    MaskKeeps(24, rest);
    MaskKeeps(8, top);
  }

  /** Clearing is the program's and with the complement of the mask, and the test for a clear index
      its and with the mask. */
  lemma ClearIsMask(h: Handle)
    ensures Word(ClearSubHalIndex(h)) == Bitwise(And, Word(h), 0x00FF_FFFF)
    ensures SubHalIndexIsClear(h) <==> Bitwise(And, Word(h), 0xFF00_0000) == 0
  {
    MaskWord(h.top, h.rest);
  }

  /** Extraction is the arithmetic shift of the signed value, converted to 64 unsigned bits. */
  lemma ExtractIsShift(h: Handle)
    ensures ExtractSubHalIndex(h) == (Value(h) / 0x100_0000) % 0x1_0000_0000_0000_0000
    ensures IsNegative(h) <==> Value(h) < 0
  {}

  lemma TaggedParts(h: Handle, index: nat)
    requires SubHalIndexIsClear(h)
    ensures SetSubHalIndex(h, index) == Handle(index % 256, h.rest)
  {
    BitwiseZero(index % 256);
  }

  /** A tagged local handle gives back both of its parts; the index exactly when it fits seven bits. */
  lemma HandleRoundTrip(h: Handle, index: nat)
    requires SubHalIndexIsClear(h)
    ensures ClearSubHalIndex(SetSubHalIndex(h, index)) == h
    ensures SetSubHalIndex(h, index).top == index % 256
    ensures index < 0x8000_0000_0000_0000 ==>
              (ExtractSubHalIndex(SetSubHalIndex(h, index)) == index <==> index < 128)
  {
    TaggedParts(h, index);
  }

  /** The other direction: a non-negative handle is its cleared part tagged with its own index. */
  lemma HandleDecomposition(g: Handle)
    ensures SubHalIndexIsClear(ClearSubHalIndex(g))
    ensures IsNegative(g) <==> ExtractSubHalIndex(g) >= 128
    ensures !IsNegative(g) ==> SetSubHalIndex(ClearSubHalIndex(g), ExtractSubHalIndex(g)) == g
  {
    TaggedParts(ClearSubHalIndex(g), g.top);
  }

  lemma SameParts(h1: Handle, i1: Byte, h2: Handle, i2: Byte)
    requires SubHalIndexIsClear(h1) && SubHalIndexIsClear(h2)
    requires Handle(i1 % 256, h1.rest) == Handle(i2 % 256, h2.rest)
    ensures h1 == h2 && i1 == i2
  {}

  lemma TaggingIsInjective(h1: Handle, i1: nat, h2: Handle, i2: nat)
    requires SubHalIndexIsClear(h1) && SubHalIndexIsClear(h2) && i1 < 256 && i2 < 256
    requires SetSubHalIndex(h1, i1) == SetSubHalIndex(h2, i2)
    ensures h1 == h2 && i1 == i2
  {
    TaggedParts(h1, i1);
    TaggedParts(h2, i2);
    SameParts(h1, i1, h2, i2);
  }

  /** No list of at most 2^63 sub-HALs accepts a negative handle. */
  lemma NegativeHandlesAreRejected(g: Handle, count: nat)
    requires IsNegative(g) && count <= 0x8000_0000_0000_0000
    ensures !IsSubHalIndexValid(g, count)
  {
    HandleDecomposition(g);
  }
}
