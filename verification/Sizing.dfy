/** Rounding sizes up to powers of two, and the sizes and shuffle bits that the queue classes select. */
module Sizing {
  import opened Words
  import opened Bits
  import opened Remap

  function OrEqual(x: nat, u: nat): nat {
    Or(x, Shr(x, u))
  }

  function OrEqualEach(x: nat, shifts: seq<nat>): nat
    decreases |shifts|
  {
    if shifts == [] then x else OrEqualEach(OrEqual(x, shifts[0]), shifts[1..])
  }

  /** Decrement, smear, increment, in words that wrap around at `word`. */
  function RoundUp(a: nat, shifts: seq<nat>, word: nat): nat
    requires word > 0
  {
    (OrEqualEach((a - 1) % word, shifts) + 1) % word
  }

  /** `round_up_to_power_of_2` on 32-bit and on 64-bit words. */
  function RoundUp32(a: u32): u32 {
    RoundUp(a, [1, 2, 4, 8, 16], WORD)
  }

  function RoundUp64(a: nat): nat {
    RoundUp(a, [1, 2, 4, 8, 16, 32], WORD * WORD)
  }

  /** The number of significant bits. */
  function Length(x: nat): (n: nat)
    ensures x < Pow2(n) && (n > 0 ==> Pow2(n - 1) <= x)
  {
    if x == 0 then 0 else 1 + Length(x / 2)
  }

  /** x | x >> 1 | ... | x >> (n - 1) */
  function OrAll(x: nat, n: nat): nat
    decreases n
  {
    if n == 0 then 0 else Or(x, OrAll(x / 2, n - 1))
  }

  lemma {:induction false} OrAssociative(x: nat, y: nat, z: nat)
    ensures Or(Or(x, y), z) == Or(x, Or(y, z))
    decreases x + y + z
  {
    if x > 0 && y > 0 && z > 0 {
      OrAssociative(x / 2, y / 2, z / 2);
      var a, b := Or(x, y), Or(y, z);
      OrStep(x, y);
      OrStep(y, z);
      assert a / 2 == Or(x / 2, y / 2) && b / 2 == Or(y / 2, z / 2);
      OrStep(a, z);
      OrStep(x, b);
    }
  }

  lemma {:induction false} ShrOr(x: nat, y: nat, n: nat)
    ensures Shr(Or(x, y), n) == Or(Shr(x, n), Shr(y, n))
    decreases n
  {
    if n > 0 {
      OrStep(x, y);
      assert Or(x, y) / 2 == Or(x / 2, y / 2);
      ShrOr(x / 2, y / 2, n - 1);
    }
  }

  lemma {:induction false} ShrOrAll(x: nat, n: nat, m: nat)
    ensures Shr(OrAll(x, n), m) == OrAll(Shr(x, m), n)
    decreases n
  {
    if n == 0 {
      ShrZero(m);
    } else {
      ShrOr(x, OrAll(x / 2, n - 1), m);
      ShrOrAll(x / 2, n - 1, m);
      ShrShr(x, 1, m);
      ShrShr(x, m, 1);
      assert Shr(x, 1) == x / 2;
      assert Shr(Shr(x, m), 1) == Shr(x, m) / 2;
    }
  }

  lemma {:induction false} ShrZero(n: nat)
    ensures Shr(0, n) == 0
  {
    if n > 0 {
      ShrZero(n - 1);
    }
  }

  lemma {:induction false} OrAllSplit(x: nat, m: nat, n: nat)
    ensures OrAll(x, m + n) == Or(OrAll(x, m), OrAll(Shr(x, m), n))
    decreases m
  {
    if m > 0 {
      OrAllSplit(x / 2, m - 1, n);
      OrAllSplitStep(x, m, n);
    }
  }

  lemma OrAllSplitStep(x: nat, m: nat, n: nat)
    requires m > 0 && OrAll(x / 2, m - 1 + n) == Or(OrAll(x / 2, m - 1), OrAll(Shr(x / 2, m - 1), n))
    ensures OrAll(x, m + n) == Or(OrAll(x, m), OrAll(Shr(x, m), n))
  {
    hide Or;
    OrAssociative(x, OrAll(x / 2, m - 1), OrAll(Shr(x, m), n));
  }

  /** One step of the smear doubles how far every bit has been copied down. */
  lemma SmearStep(x: nat, n: nat)
    ensures OrEqual(OrAll(x, n), n) == OrAll(x, 2 * n)
  {
    ShrOrAll(x, n, n);
    OrAllSplit(x, n, n);
  }

  ghost function Doublings(n: nat, count: nat): seq<nat>
    decreases count
  {
    if count == 0 then [] else [n] + Doublings(2 * n, count - 1)
  }

  lemma DoublingsNext(n: nat, count: nat)
    ensures Doublings(n, count + 1) == [n] + Doublings(2 * n, count)
  {
  }

  lemma TwiceAsFar(n: nat, count: nat)
    ensures n * Pow2(count + 1) == (2 * n) * Pow2(count)
  {
    Commute(n, Pow2(count));
  }

  lemma {:induction false} Smear(x: nat, n: nat, count: nat)
    ensures OrEqualEach(OrAll(x, n), Doublings(n, count)) == OrAll(x, n * Pow2(count))
    decreases count
  {
    hide OrEqual, OrAll;
    if count == 0 {
      assert Doublings(n, 0) == [] && n * Pow2(0) == n;
    } else {
      hide Doublings;
      SmearStep(x, n);
      Smear(x, 2 * n, count - 1);
      TwiceAsFar(n, count - 1);
      DoublingsNext(n, count - 1);
      assert Doublings(n, count)[1..] == Doublings(2 * n, count - 1);
    }
  }

  lemma NoDoublings(n: nat)
    ensures Doublings(n, 0) == []
  {
  }

  lemma ShiftsAreDoublings()
    ensures [1, 2, 4, 8, 16] == Doublings(1, 5)
    ensures [1, 2, 4, 8, 16, 32] == Doublings(1, 6)
  {
    hide Doublings;
    NoDoublings(32);
    NoDoublings(64);
    DoublingsNext(16, 0);
    DoublingsNext(8, 1);
    DoublingsNext(4, 2);
    DoublingsNext(2, 3);
    DoublingsNext(1, 4);
    DoublingsNext(32, 0);
    DoublingsNext(16, 1);
    DoublingsNext(8, 2);
    DoublingsNext(4, 3);
    DoublingsNext(2, 4);
    DoublingsNext(1, 5);
  }

  lemma WordWidths()
    ensures Pow2(5) == 32 && Pow2(6) == 64
  {
  }

  /** The smear of a word of w bits, where w is 2^count, gives ones from its highest bit down. */
  lemma SmearOnes(x: nat, shifts: seq<nat>, count: nat, w: nat)
    requires shifts == Doublings(1, count) && w == Pow2(count) && x < Pow2(w)
    ensures Length(x) <= w && OrEqualEach(x, shifts) + 1 == Pow2(Length(x))
  {
    assert OrAll(x, 1) == x;
    Smear(x, 1, count);
    LengthAtMost(x, w);
    OrAllOnes(x, w);
    OnesValue(Length(x));
  }

  /** Copied down far enough, every bit below the highest one is set. */
  lemma {:induction false} OrAllOnes(x: nat, n: nat)
    requires Length(x) <= n
    ensures OrAll(x, n) == Ones(Length(x))
    decreases n
  {
    if x == 0 {
      OrAllZero(n);
    } else {
      OrAllOnes(x / 2, n - 1);
      OrOnesBelow(x);
    }
  }

  lemma {:induction false} OrAllZero(n: nat)
    ensures OrAll(0, n) == 0
  {
    if n > 0 {
      OrAllZero(n - 1);
    }
  }

  lemma {:induction false} OrOnesBelow(x: nat)
    requires x > 0
    ensures Or(x, Ones(Length(x) - 1)) == Ones(Length(x))
  {
    if x > 1 {
      OrOnesBelow(x / 2);
      OrOnesNext(x, Length(x / 2));
    }
  }

  lemma OrOnesNext(x: nat, n: nat)
    requires n > 0 && Or(x / 2, Ones(n - 1)) == Ones(n)
    ensures Or(x, Ones(n)) == Ones(n + 1)
  {
    hide Or;
    OrStep(x, Ones(n));
    OnesNext(n - 1);
    OnesNext(n);
  }

  lemma OnesNext(n: nat)
    ensures Ones(n + 1) == 2 * Ones(n) + 1 && Ones(n + 1) / 2 == Ones(n) && Ones(n + 1) % 2 == 1
  {
  }

  lemma LengthAtMost(x: nat, n: nat)
    ensures Length(x) <= n <==> x < Pow2(n)
  {
    if Length(x) <= n {
      Pow2Monotone(Length(x), n);
    } else {
      Pow2Monotone(n, Length(x) - 1);
    }
  }

  /** `r` is the least power of two that is at least `a`, namely 2^n. */
  predicate LeastPowerFrom(r: nat, n: nat, a: nat) {
    r == Pow2(n) && a <= r && (n > 0 ==> Pow2(n - 1) < a)
  }

  /** 2^n vanishes from a word of w bits only for n = w, the length of the words that start with a one. */
  lemma WordLength(x: nat, w: nat)
    requires w > 0 && x < Pow2(w)
    ensures x < Pow2(w - 1) <==> Pow2(Length(x)) < Pow2(w)
    ensures x >= Pow2(w - 1) ==> Pow2(Length(x)) == Pow2(w)
  {
    LengthAtMost(x, w);
    LengthAtMost(x, w - 1);
    if Length(x) < w {
      Pow2Monotone(Length(x), w - 1);
    }
  }

  lemma RoundUpIsLeastPower(a: nat, shifts: seq<nat>, count: nat, w: nat, word: nat)
    requires shifts == Doublings(1, count) && w == Pow2(count) && word == Pow2(w) && a < word
    ensures 1 <= a <= Pow2(w - 1) ==> LeastPowerFrom(RoundUp(a, shifts, word), Length(a - 1), a)
    ensures RoundUp(a, shifts, word) == 0 <==> !(1 <= a <= Pow2(w - 1))
  {
    var x := (a - 1) % word;
    PredecessorModulo(a, word);
    SmearOnes(x, shifts, count, w);
    WordLength(x, w);
    SmallOrWholeModulo(Pow2(Length(x)), word);
  }

  lemma PredecessorModulo(a: nat, word: nat)
    requires a < word
    ensures (a - 1) % word == if a == 0 then word - 1 else a - 1
  {
    if a == 0 {
      DivModUnique(-1, -1, word - 1, word);
    } else {
      DivModUnique(a - 1, 0, a - 1, word);
    }
  }

  lemma SmallOrWholeModulo(x: nat, word: nat)
    requires 0 < x <= word
    ensures x % word == if x == word then 0 else x
  {
    if x == word {
      DivModUnique(x, 1, 0, word);
    } else {
      DivModUnique(x, 0, x, word);
    }
  }

  /**
   * Rounding up gives the least power of two that is at least the argument
   * exactly for 1 .. 2^31. For all other arguments it gives 0.
   */
  lemma RoundUp32IsLeastPower(a: u32)
    ensures 1 <= a <= HALF ==> LeastPowerFrom(RoundUp32(a), Length(a - 1), a)
    ensures RoundUp32(a) == 0 <==> !(1 <= a <= HALF)
  {
    ShiftsAreDoublings();
    WordWidths();
    Pow32();
    RoundUpIsLeastPower(a, [1, 2, 4, 8, 16], 5, 32, WORD);
  }

  lemma Pow64()
    ensures Pow2(64) == WORD * WORD
  {
    Pow32();
    ShlIsTimes(Pow2(32), 32);
    Pow2IsShl(64, 32);
  }

  lemma {:induction false} Pow2IsShl(m: nat, n: nat)
    requires n <= m
    ensures Pow2(m) == Shl(Pow2(m - n), n)
  {
    if n > 0 {
      Pow2IsShl(m - 1, n - 1);
    }
  }

  /** The 64-bit version, in the same way, exactly for 1 .. 2^63. */
  lemma RoundUp64IsLeastPower(a: nat)
    requires a < WORD * WORD
    ensures 1 <= a <= HALF * WORD ==> LeastPowerFrom(RoundUp64(a), Length(a - 1), a)
    ensures RoundUp64(a) == 0 <==> !(1 <= a <= HALF * WORD)
  {
    ShiftsAreDoublings();
    WordWidths();
    Pow64();
    RoundUpIsLeastPower(a, [1, 2, 4, 8, 16, 32], 6, 64, WORD * WORD);
  }

  // ----- Sizes of the classes -----

  /** `GetIndexShuffleBits`, given the bits that index the elements of a cache line. */
  function ShuffleBits(minimizeContention: bool, size: nat, lineBits: nat): nat {
    if !minimizeContention || size < Pow2(2 * lineBits) then 0 else lineBits
  }

  /** The bits are shuffled exactly if that is wanted and the array of 2^k elements has room for both fields. */
  lemma ShuffleBitsIff(minimizeContention: bool, k: nat, lineBits: nat)
    ensures var bits := ShuffleBits(minimizeContention, Pow2(k), lineBits);
            && (bits == lineBits <==> lineBits == 0 || (minimizeContention && 2 * lineBits <= k))
            && (bits != lineBits ==> bits == 0)
  {
    if 2 * lineBits <= k {
      Pow2Monotone(2 * lineBits, k);
    } else {
      Pow2Monotone(k + 1, 2 * lineBits);
    }
  }

  /** `size_` of the classes with a static size that minimize contention. */
  function StaticSize(size: u32): u32 {
    RoundUp32(size)
  }

  /** `size_` of the classes with a buffer allocated at run time. */
  function DynamicSize(size: u32, lineBits: nat): nat {
    var rounded, least := RoundUp32(size), Pow2(2 * lineBits);
    if rounded < least then least else rounded
  }

  /**
   * A statically sized queue asked for 1 .. 2^30 elements gets a power of two
   * that is enough, is below 2^31, and has room for the bits it shuffles.
   */
  lemma StaticSizeIsValid(size: u32, lineBits: nat) returns (k: nat)
    requires 1 <= size <= HALF / 2
    ensures LeastPowerFrom(StaticSize(size), k, size) && k <= 30
    ensures 2 * ShuffleBits(true, StaticSize(size), lineBits) <= k
    ensures 2 * lineBits <= k ==> ShuffleBits(true, StaticSize(size), lineBits) == lineBits
  {
    hide RoundUp32, Pow2, Length;
    k := Length(size - 1);
    RoundUp32IsLeastPower(size);
    Pow30();
    LengthAtMost(size - 1, 30);
    ShuffleBitsIff(true, k, lineBits);
  }

  lemma Pow30()
    ensures Pow2(30) == HALF / 2
  {
    Pow32();
  }

  /**
   * A dynamically sized queue has at least the capacity it was asked for if
   * and only if that is at most 2^31; then it is the least power of two that is
   * enough and has room for the shuffle bits. Rounding more than that gives the
   * least size of the class.
   */
  lemma DynamicSizeIsValid(size: u32, lineBits: nat) returns (k: nat)
    requires lineBits <= 8
    ensures DynamicSize(size, lineBits) == Pow2(k) && 2 * lineBits <= k
    ensures DynamicSize(size, lineBits) >= size <==> size <= HALF
    ensures size <= HALF / 2 ==> k <= 30
    ensures size > HALF || size == 0 ==> k == 2 * lineBits
  {
    RoundUp32IsLeastPower(size);
    Pow2Monotone(2 * lineBits, 16);
    Pow16();
    if RoundUp32(size) < Pow2(2 * lineBits) {
      k := 2 * lineBits;
    } else {
      k := Length(size - 1);
      AtLeastExponent(k, 2 * lineBits);
      Pow30();
      LengthAtMost(size - 1, 30);
    }
  }

  /** No smaller power of two would do. */
  lemma DynamicSizeIsLeast(size: u32, lineBits: nat, m: nat)
    requires size <= HALF && Pow2(m) >= size && m >= 2 * lineBits
    ensures DynamicSize(size, lineBits) <= Pow2(m)
  {
    hide RoundUp32, Pow2, Length;
    RoundUp32IsLeastPower(size);
    Pow2Monotone(2 * lineBits, m);
    if RoundUp32(size) >= Pow2(2 * lineBits) {
      var n := Length(size - 1);
      if n > m {
        Pow2Monotone(m, n - 1);
      } else {
        Pow2Monotone(n, m);
      }
    }
  }

  lemma Pow16()
    ensures Pow2(16) == 0x1_0000
  {
    Pow32();
  }

  lemma AtLeastExponent(k: nat, m: nat)
    requires Pow2(k) >= Pow2(m)
    ensures k >= m
  {
    if k < m {
      Pow2Monotone(k + 1, m);
    }
  }
}
