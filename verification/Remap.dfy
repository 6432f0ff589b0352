/**
 * The index remappers: three ways of computing, with word operations, the
 * exchange of the lowest n bits of an index with the next n bits.
 */
module Remap {
  import opened Words
  import opened Bits

  /** Complement and left shift of a 32-bit word. */
  function Not(x: u32): u32 {
    WORD - 1 - x
  }

  function ShlWord(x: u32, n: nat): u32 {
    Wrap(Shl(x, n))
  }

  /** `IndexBits<n>`. */
  function MaskElem(n: nat): u32 {
    Not(ShlWord(Not(0), n))
  }

  function MaskHi(n: nat): u32 {
    ShlWord(Not(0), 2 * n)
  }

  function Count2(n: u32): nat {
    Or(ShlWord(n, 8), n)
  }

  function RemapXor1(index: nat, n: nat): nat {
    var mix: u32 := And(Xor(index, Shr(index, n)), MaskElem(n));
    Xor(Xor(index, mix), ShlWord(mix, n))
  }

  function RemapXor(index: u32, size: u32, n: nat): nat {
    RemapXor1(And(index, Sub(size, 1)), n)
  }

  function RemapAnd(index: u32, size: u32, n: nat): nat {
    Or(Or(And(Shr(index, n), MaskElem(n)), ShlWord(And(index, MaskElem(n)), n)),
       And(index, And(MaskHi(n), Sub(size, 1))))
  }

  /** BMI2 `bzhi`: zero the bits from position control[7:0] on. */
  function Bzhi(x: u32, control: nat): u32 {
    And(x, Ones(control % 256))
  }

  /** BMI1 `bextr`: the control[15:8] bits that start at position control[7:0]. */
  function Bextr(x: u32, control: nat): nat {
    And(Shr(x, control % 256), Ones(control / 256 % 256))
  }

  function RemapBmi(index: u32, size: u32, n: u32): nat {
    var nn := Count2(n);
    Or(Or(Bextr(index, nn), And(index, And(MaskHi(n), Sub(size, 1)))), ShlWord(Bzhi(index, nn), n))
  }

  /** The three fields of an index: element, line, and what remains below bit k. */
  function Elem(x: nat, n: nat): nat {
    Low(x, n)
  }

  function Line(x: nat, n: nat): nat {
    Low(Shr(x, n), n)
  }

  function High(x: nat, k: nat, n: nat): nat
    requires 2 * n <= k
  {
    Low(Shr(x, 2 * n), k - 2 * n)
  }

  function Fields(high: nat, line: nat, elem: nat, n: nat): nat {
    Join(high, Join(line, elem, n), 2 * n)
  }

  /** What all the remappers are for: line and element change places. */
  function Swap(x: nat, k: nat, n: nat): nat
    requires 2 * n <= k
  {
    Fields(High(x, k, n), Elem(x, n), Line(x, n), n)
  }

  lemma JoinAssociative(high: nat, line: nat, elem: nat, n: nat)
    ensures Fields(high, line, elem, n) == Join(Join(high, line, n), elem, n)
  {
    hide Low, Shr, Shl, Pow2, Ones, And, Or, Xor;
    ShlShl(high, n, n);
    ShlAdd(Shl(high, n), line, n);
  }

  /** The fields of a number put together from fields. */
  lemma FieldsOfFields(high: nat, line: nat, elem: nat, k: nat, n: nat)
    requires 2 * n <= k && high < Pow2(k - 2 * n) && line < Pow2(n) && elem < Pow2(n)
    ensures var x := Fields(high, line, elem, n);
            High(x, k, n) == high && Line(x, n) == line && Elem(x, n) == elem && x < Pow2(k)
  {
    hide Low, Shr, Shl, Pow2, Ones, And, Or, Xor;
    JoinAssociative(high, line, elem, n);
    FieldsOfJoin(Join(high, line, n), elem, n);
    FieldsOfJoin(high, line, n);
    ShrShr(Fields(high, line, elem, n), n, n);
    JoinBound(line, elem, n, n);
    JoinBound(high, Join(line, elem, n), k - 2 * n, 2 * n);
    LowOfSmall(high, k - 2 * n);
  }

  /** The low k bits of an index, by its fields. */
  lemma FieldsOfLow(x: nat, k: nat, n: nat)
    requires 2 * n <= k
    ensures Low(x, k) == Fields(High(x, k, n), Line(x, n), Elem(x, n), n)
  {
    hide Low, Shr, Shl, Pow2, Ones, And, Or, Xor, Join;
    LowSplit(x, k - 2 * n, 2 * n);
    LowSplit(x, n, n);
  }

  /** The exchange stays below 2^k, undoes itself there, and only looks at the low k bits. */
  lemma SwapIsInvolution(x: nat, k: nat, n: nat)
    requires 2 * n <= k
    ensures Swap(x, k, n) < Pow2(k)
    ensures Swap(Swap(x, k, n), k, n) == Low(x, k)
    ensures Swap(x, k, n) == Swap(Low(x, k), k, n)
  {
    hide Low, Shr, Shl, Pow2, Ones, And, Or, Xor;
    FieldsOfLow(x, k, n);
    FieldsOfFields(High(x, k, n), Elem(x, n), Line(x, n), k, n);
    FieldsOfFields(High(x, k, n), Line(x, n), Elem(x, n), k, n);
  }

  // ----- The masks -----

  /** All ones shifted left by n. */
  lemma ShlOnes(n: nat)
    requires n <= 32
    ensures ShlWord(Not(0), n) == WORD - Pow2(n)
  {
    hide Shl, Pow2, Wrap;
    Pow32();
    Pow2Monotone(n, 32);
    ShlTop(n);
    WrapNegative(Pow2(n));
  }

  lemma WrapNegative(p: nat)
    requires 0 < p <= WORD
    ensures Wrap(p * WORD - p) == WORD - p
  {
    DivModUnique(p * WORD - p, p - 1, WORD - p, WORD);
  }

  lemma {:induction false} ShlTop(n: nat)
    ensures Shl(WORD - 1, n) == Pow2(n) * WORD - Pow2(n)
  {
    if n > 0 {
      ShlTop(n - 1);
    }
  }

  lemma MaskElemOnes(n: nat)
    requires n <= 32
    ensures MaskElem(n) == Ones(n)
  {
    hide Low, Shr, Shl, Pow2, Ones, And, Or, Xor;
    ShlOnes(n);
    OnesValue(n);
  }

  lemma MaskHiOnes(n: nat, w: nat)
    requires 2 * n <= w == 32
    ensures MaskHi(n) == Join(Ones(w - 2 * n), 0, 2 * n)
  {
    hide Low, Shr, Shl, Pow2, Ones, And, Or, Xor;
    ShlOnes(2 * n);
    OnesAsFields(w - 2 * n, 2 * n);
    OnesValue(2 * n);
    OnesValue(w);
    Pow32();
  }

  /** The size of 2^k as a word; k = 32 stands for the remapping without a size. */
  function SizeWord(k: nat): u32 {
    Wrap(Pow2(k))
  }

  lemma SizeMask(k: nat)
    requires k <= 32
    ensures Sub(SizeWord(k), 1) == Ones(k)
  {
    hide Low, Shr, Shl, Pow2, Ones, And, Or, Xor;
    Pow32();
    Pow2Monotone(k, 32);
    WrapMinusOne(Pow2(k));
    OnesValue(k);
  }

  lemma WrapMinusOne(p: nat)
    requires 0 < p <= WORD
    ensures Sub(Wrap(p), 1) == p - 1
  {
  }

  /** A field shifted left within the word loses nothing. */
  lemma ShiftedField(x: u32, n: nat)
    requires 2 * n <= 32 && x < Pow2(n)
    ensures ShlWord(x, n) == Join(x, 0, n)
  {
    hide Low, Shr, Shl, Pow2, Ones, And, Or, Xor;
    Pow32();
    JoinBound(x, 0, n, n);
    Pow2Monotone(n + n, 32);
  }

  /** The high mask within the size mask: ones from bit 2n up to bit k. */
  lemma HighMask(k: nat, n: nat, w: nat)
    requires 2 * n <= k <= w == 32
    ensures And(MaskHi(n), Sub(SizeWord(k), 1)) == Join(Ones(k - 2 * n), 0, 2 * n)
  {
    hide Low, Shr, Shl, Pow2, Ones, And, Or, Xor;
    MaskHiOnes(n, w);
    SizeMaskFields(k, 2 * n);
    AndHighOnes(w - 2 * n, k - 2 * n, 2 * n);
  }

  lemma SizeMaskFields(k: nat, m: nat)
    requires m <= k <= 32
    ensures Sub(SizeWord(k), 1) == Join(Ones(k - m), Ones(m), m)
  {
    hide Low, Shr, Shl, Pow2, Ones, And, Or, Xor;
    SizeMask(k);
    OnesAsFields(k - m, m);
  }

  lemma AndHighOnes(i: nat, j: nat, m: nat)
    requires j <= i
    ensures And(Join(Ones(i), 0, m), Join(Ones(j), Ones(m), m)) == Join(Ones(j), 0, m)
  {
    hide Low, Shr, Shl, Pow2, Ones, And, Or, Xor;
    OnesValue(m);
    AndFields(Ones(i), 0, Ones(j), Ones(m), m);
    AndOnesOnes(i, j);
  }

  lemma AndOnesOnes(i: nat, j: nat)
    requires j <= i
    ensures And(Ones(i), Ones(j)) == Ones(j)
  {
    hide Low, Shr, Shl, Pow2, Ones, And, Or, Xor;
    AndOnes(Ones(j), i);
    OnesValue(j);
    Pow2Monotone(j, i);
    LowOfSmall(Ones(j), i);
  }

  /** Masking with the high mask and the size mask keeps the high field. */
  lemma HighPart(index: u32, k: nat, n: nat)
    requires 2 * n <= k <= 32
    ensures And(index, And(MaskHi(n), Sub(SizeWord(k), 1))) == Join(High(index, k, n), 0, 2 * n)
  {
    hide Low, Shr, Shl, Pow2, Ones, And, Or, Xor;
    HighMask(k, n, 32);
    SplitJoin(index, 2 * n);
    AndFields(Shr(index, 2 * n), Low(index, 2 * n), Ones(k - 2 * n), 0, 2 * n);
    AndOnes(Shr(index, 2 * n), k - 2 * n);
  }

  /** The line field put in the low bits, and the element field above it. */
  lemma LowParts(index: u32, n: nat)
    requires 2 * n <= 32
    ensures And(Shr(index, n), MaskElem(n)) == Line(index, n)
    ensures ShlWord(And(index, MaskElem(n)), n) == Join(Elem(index, n), 0, n)
  {
    hide Low, Shr, Shl, Pow2, Ones, And, Or, Xor;
    MaskElemOnes(n);
    AndOnes(Shr(index, n), n);
    AndOnes(index, n);
    ShiftedField(And(index, MaskElem(n)), n);
  }

  /** The three parts put together by or-ing. */
  lemma OrParts(high: nat, line: nat, elem: nat, n: nat)
    requires line < Pow2(n) && elem < Pow2(n)
    ensures Or(Or(line, Join(elem, 0, n)), Join(high, 0, 2 * n)) == Fields(high, elem, line, n)
    ensures Or(Or(line, Join(high, 0, 2 * n)), Join(elem, 0, n)) == Fields(high, elem, line, n)
  {
    hide Low, Shr, Shl, Pow2, Ones, And, Xor;
    var low := Join(elem, line, n);
    JoinBound(elem, line, n, n);
    JoinBound(0, line, n, n);
    JoinBound(elem, 0, n, n);
    JoinZero(line, n);
    JoinZero(line, 2 * n);
    JoinZero(low, 2 * n);
    JoinZero(Join(elem, 0, n), 2 * n);
    OrFields(0, line, elem, 0, n);
    OrFields(0, low, high, 0, 2 * n);
    OrFields(0, line, high, 0, 2 * n);
    OrFields(high, line, 0, Join(elem, 0, n), 2 * n);
  }

  lemma {:induction false} JoinZero(low: nat, n: nat)
    ensures Join(0, low, n) == low
    decreases n
  {
    if n > 0 {
      JoinZero(low, n - 1);
    }
  }

  // ----- The remappers -----

  /** `RemapAnd` exchanges the fields, with a size and without one. */
  lemma RemapAndSwaps(index: u32, k: nat, n: nat)
    requires 2 * n <= k <= 32
    ensures RemapAnd(index, SizeWord(k), n) == Swap(index, k, n)
  {
    hide Low, Shr, Shl, Pow2, Ones, And, Or, Xor;
    LowParts(index, n);
    HighPart(index, k, n);
    OrParts(High(index, k, n), Line(index, n), Elem(index, n), n);
  }

  /** So does `RemapBmi`. */
  lemma RemapBmiSwaps(index: u32, k: nat, n: u32)
    requires 2 * n <= k <= 32
    ensures RemapBmi(index, SizeWord(k), n) == Swap(index, k, n)
  {
    hide Low, Shr, Shl, Pow2, Ones, And, Or, Xor;
    BitFieldInstructions(index, n);
    LowParts(index, n);
    HighPart(index, k, n);
    OrParts(High(index, k, n), Line(index, n), Elem(index, n), n);
  }

  /** What the two instructions extract under the control word n << 8 | n. */
  lemma BitFieldInstructions(index: u32, n: u32)
    requires n <= 16
    ensures Bextr(index, Count2(n)) == Line(index, n)
    ensures Bzhi(index, Count2(n)) == And(index, MaskElem(n))
  {
    hide Low, Shr, Shl, Pow2, Ones, And, Or, Xor;
    ControlWord(n);
    MaskElemOnes(n);
    AndOnes(Shr(index, n), n);
  }

  /** The control word holds the field width in both of its bytes. */
  lemma ControlWord(n: u32)
    requires n <= 16
    ensures Count2(n) % 256 == n && Count2(n) / 256 % 256 == n
  {
    hide Low, Shr, Shl, Pow2, Ones, And, Or, Xor;
    ControlSum(n, 8);
    TwoBytes(Count2(n), n);
  }

  lemma ControlSum(n: u32, byte: nat)
    requires n <= 16 && byte == 8
    ensures Or(ShlWord(n, byte), n) == 257 * n
  {
    ByteShift(n, byte);
    OrShifted(n, n, byte);
  }

  lemma ByteShift(n: u32, byte: nat)
    requires n <= 16 && byte == 8
    ensures ShlWord(n, byte) == Shl(n, byte) == 256 * n && n < Pow2(byte)
  {
    Pow32();
    ShlIsTimes(n, byte);
  }

  lemma TwoBytes(x: nat, y: nat)
    requires x == 257 * y && y <= 16
    ensures x % 256 == y && x / 256 % 256 == y
  {
  }

  lemma OrShifted(x: nat, y: nat, n: nat)
    requires y < Pow2(n)
    ensures Or(Shl(x, n), y) == Shl(x, n) + y
  {
    hide Low, Shr, Shl, Pow2, Ones, And, Xor;
    OrFields(x, 0, 0, y, n);
    JoinZero(y, n);
  }

  /** And so does `RemapXor`, by cancelling exclusive ors. */
  lemma RemapXorSwaps(index: u32, k: nat, n: nat)
    requires 2 * n <= k <= 32
    ensures RemapXor(index, SizeWord(k), n) == Swap(index, k, n)
  {
    hide Low, Shr, Shl, Pow2, Ones, And, Or, Xor;
    SizeMask(k);
    AndOnes(index, k);
    FieldsOfLow(index, k, n);
    RemapXor1Swaps(High(index, k, n), Line(index, n), Elem(index, n), n);
  }

  lemma RemapXor1Swaps(high: nat, line: nat, elem: nat, n: nat)
    requires 2 * n <= 32 && line < Pow2(n) && elem < Pow2(n)
    ensures RemapXor1(Fields(high, line, elem, n), n) == Fields(high, elem, line, n)
  {
    hide Low, Shr, Shl, Pow2, Ones, And, Or, Xor;
    JoinAssociative(high, line, elem, n);
    JoinAssociative(high, elem, line, n);
    FieldsOfJoin(Join(high, line, n), elem, n);
    XorMix(high, line, elem, n);
    XorBound(elem, line, n);
    ShiftedField(And(Xor(Join(Join(high, line, n), elem, n), Join(high, line, n)), MaskElem(n)), n);
    XorLow(Join(high, line, n), line, elem, n);
    XorUpper(high, line, elem, n);
  }

  /** The mix holds the difference of the two fields. */
  lemma XorMix(high: nat, line: nat, elem: nat, n: nat)
    requires n <= 32 && line < Pow2(n) && elem < Pow2(n)
    ensures And(Xor(Join(Join(high, line, n), elem, n), Join(high, line, n)), MaskElem(n)) == Xor(elem, line)
  {
    hide Low, Shr, Shl, Pow2, Ones, And, Or, Xor;
    var upper := Join(high, line, n);
    XorFields(upper, elem, high, line, n);
    XorBound(elem, line, n);
    MaskElemOnes(n);
    AndOnes(Join(Xor(upper, high), Xor(elem, line), n), n);
    FieldsOfJoin(Xor(upper, high), Xor(elem, line), n);
  }

  /** The first exclusive or puts the line into the low field. */
  lemma XorLow(upper: nat, line: nat, elem: nat, n: nat)
    requires line < Pow2(n) && elem < Pow2(n)
    ensures Xor(Join(upper, elem, n), Xor(elem, line)) == Join(upper, line, n)
  {
    hide Low, Shr, Shl, Pow2, Ones, And, Or;
    XorBound(elem, line, n);
    XorFields(upper, elem, 0, Xor(elem, line), n);
    XorCancel(elem, line);
    JoinZero(Xor(elem, line), n);
  }

  /** The second one puts the element into the field above. */
  lemma XorUpper(high: nat, line: nat, elem: nat, n: nat)
    requires line < Pow2(n) && elem < Pow2(n)
    ensures Xor(Join(Join(high, line, n), line, n), Join(Xor(elem, line), 0, n)) == Join(Join(high, elem, n), line, n)
  {
    hide Low, Shr, Shl, Pow2, Ones, And, Or;
    var mix := Xor(elem, line);
    XorBound(elem, line, n);
    XorFields(Join(high, line, n), line, mix, 0, n);
    XorFields(high, line, 0, mix, n);
    XorCancel(elem, line);
    JoinZero(mix, n);
  }

  /** All remappers are one function. */
  lemma RemappersAgree(index: u32, k: nat, n: u32)
    requires 2 * n <= k <= 32
    ensures RemapXor(index, SizeWord(k), n) == RemapAnd(index, SizeWord(k), n) == RemapBmi(index, SizeWord(k), n)
  {
    RemapXorSwaps(index, k, n);
    RemapAndSwaps(index, k, n);
    RemapBmiSwaps(index, k, n);
  }

  /** Indexes less than 2^n apart go to different cache lines of 2^n elements. */
  lemma NeighboursOnDifferentLines(t: nat, u: nat, k: nat, n: nat)
    requires 2 * n <= k && t < u < t + Pow2(n)
    ensures Shr(Swap(t, k, n), n) != Shr(Swap(u, k, n), n)
  {
    hide Low, Shr, Shl, Pow2, Ones, And, Or, Xor;
    FieldsOfFields(High(t, k, n), Elem(t, n), Line(t, n), k, n);
    FieldsOfFields(High(u, k, n), Elem(u, n), Line(u, n), k, n);
    NeighboursDiffer(t, u, n);
  }

  lemma {:induction false} NeighboursDiffer(t: nat, u: nat, n: nat)
    requires t < u < t + Pow2(n)
    ensures Low(t, n) != Low(u, n)
    decreases n
  {
    if n > 0 && t % 2 == u % 2 {
      NeighboursDiffer(t / 2, u / 2, n - 1);
    }
  }
}
