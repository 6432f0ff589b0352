/** Bitwise operators on natural numbers, and the way they act on bit fields. */
module Bits {
  function Pow2(n: nat): (p: nat)
    ensures p > 0
  {
    if n == 0 then 1 else 2 * Pow2(n - 1)
  }

  function And(x: nat, y: nat): (r: nat)
    ensures r <= x && r <= y
    decreases x
  {
    if x == 0 || y == 0 then 0
    else 2 * And(x / 2, y / 2) + (if x % 2 == 1 && y % 2 == 1 then 1 else 0)
  }

  function Or(x: nat, y: nat): (r: nat)
    ensures r >= x && r >= y
    decreases x
  {
    if x == 0 then y else if y == 0 then x
    else 2 * Or(x / 2, y / 2) + (if x % 2 == 1 || y % 2 == 1 then 1 else 0)
  }

  function Xor(x: nat, y: nat): nat
    decreases x
  {
    if x == 0 then y else if y == 0 then x
    else 2 * Xor(x / 2, y / 2) + (if x % 2 != y % 2 then 1 else 0)
  }

  /** Shifts, before truncation to the word. */
  function Shl(x: nat, n: nat): nat {
    if n == 0 then x else 2 * Shl(x, n - 1)
  }

  function Shr(x: nat, n: nat): nat
    decreases n
  {
    if n == 0 then x else Shr(x / 2, n - 1)
  }

  /** The lowest n bits. */
  function Low(x: nat, n: nat): (r: nat)
    ensures r < Pow2(n)
    decreases n
  {
    if n == 0 then 0 else 2 * Low(x / 2, n - 1) + x % 2
  }

  /** The number with n one bits. */
  function Ones(n: nat): nat {
    if n == 0 then 0 else 2 * Ones(n - 1) + 1
  }

  /** A high field put above a low field of n bits. */
  function Join(high: nat, low: nat, n: nat): nat {
    Shl(high, n) + low
  }

  lemma Pow2Monotone(m: nat, n: nat)
    requires m <= n
    ensures Pow2(m) <= Pow2(n)
  {
    if m < n {
      Pow2Monotone(m, n - 1);
    }
  }

  lemma Pow32()
    ensures Pow2(8) == 0x100 && Pow2(32) == 0x1_0000_0000
  {
    assert Pow2(4) == 0x10;
    assert Pow2(8) == 0x100;
    assert Pow2(12) == 0x1000;
    assert Pow2(16) == 0x1_0000;
    assert Pow2(20) == 0x10_0000;
    assert Pow2(24) == 0x100_0000;
    assert Pow2(28) == 0x1000_0000;
  }

  // ----- Fields -----

  /** Halving a joined number halves its low field. */
  lemma HalveJoin(high: nat, low: nat, n: nat)
    requires n > 0 && low < Pow2(n)
    ensures Join(high, low, n) / 2 == Join(high, low / 2, n - 1)
    ensures Join(high, low, n) % 2 == low % 2
    ensures low / 2 < Pow2(n - 1)
  {
  }

  lemma {:induction false} SplitJoin(x: nat, n: nat)
    ensures x == Join(Shr(x, n), Low(x, n), n)
    decreases n
  {
    if n > 0 {
      SplitJoin(x / 2, n - 1);
    }
  }

  lemma {:induction false} FieldsOfJoin(high: nat, low: nat, n: nat)
    requires low < Pow2(n)
    ensures Shr(Join(high, low, n), n) == high && Low(Join(high, low, n), n) == low
    decreases n
  {
    if n > 0 {
      HalveJoin(high, low, n);
      FieldsOfJoin(high, low / 2, n - 1);
    }
  }

  lemma {:induction false} JoinBound(high: nat, low: nat, m: nat, n: nat)
    requires high < Pow2(m) && low < Pow2(n)
    ensures Join(high, low, n) < Pow2(m + n)
    decreases n
  {
    if n > 0 {
      HalveJoin(high, low, n);
      JoinBound(high, low / 2, m, n - 1);
    }
  }

  lemma {:induction false} ShlAdd(x: nat, y: nat, n: nat)
    ensures Shl(x + y, n) == Shl(x, n) + Shl(y, n)
    decreases n
  {
    if n > 0 {
      ShlAdd(x, y, n - 1);
    }
  }

  lemma {:induction false} ShlShl(x: nat, m: nat, n: nat)
    ensures Shl(Shl(x, m), n) == Shl(x, m + n)
    decreases n
  {
    if n > 0 {
      ShlShl(x, m, n - 1);
    }
  }

  lemma {:induction false} ShrShr(x: nat, m: nat, n: nat)
    ensures Shr(Shr(x, m), n) == Shr(x, m + n)
    decreases m
  {
    if m > 0 {
      ShrShr(x / 2, m - 1, n);
    }
  }

  /** The low m + n bits are the next m bits joined to the low n bits. */
  lemma {:induction false} LowSplit(x: nat, m: nat, n: nat)
    ensures Low(x, m + n) == Join(Low(Shr(x, n), m), Low(x, n), n)
    decreases n
  {
    if n > 0 {
      LowSplit(x / 2, m, n - 1);
      HalveJoin(Low(Shr(x, n), m), Low(x, n), n);
    }
  }

  lemma {:induction false} LowOfSmall(x: nat, n: nat)
    requires x < Pow2(n)
    ensures Low(x, n) == x
    decreases n
  {
    if n > 0 {
      LowOfSmall(x / 2, n - 1);
    }
  }

  lemma {:induction false} OnesValue(n: nat)
    ensures Ones(n) == Pow2(n) - 1
  {
    if n > 0 {
      OnesValue(n - 1);
    }
  }

  lemma {:induction false} OnesAsFields(m: nat, n: nat)
    ensures Ones(m + n) == Join(Ones(m), Ones(n), n)
    decreases n
  {
    if n > 0 {
      OnesAsFields(m, n - 1);
    }
  }

  // ----- Operators on fields -----

  /** The recursion of the operators, without their special cases for zero. */
  lemma {:induction false} AndStep(x: nat, y: nat)
    ensures And(x, y) == 2 * And(x / 2, y / 2) + (if x % 2 == 1 && y % 2 == 1 then 1 else 0)
  {
  }

  lemma {:induction false} OrStep(x: nat, y: nat)
    ensures Or(x, y) == 2 * Or(x / 2, y / 2) + (if x % 2 == 1 || y % 2 == 1 then 1 else 0)
  {
  }

  lemma {:induction false} XorStep(x: nat, y: nat)
    ensures Xor(x, y) == 2 * Xor(x / 2, y / 2) + (if x % 2 != y % 2 then 1 else 0)
  {
  }

  lemma {:induction false} AndFields(a: nat, b: nat, c: nat, d: nat, n: nat)
    requires b < Pow2(n) && d < Pow2(n)
    ensures And(Join(a, b, n), Join(c, d, n)) == Join(And(a, c), And(b, d), n)
    decreases n
  {
    if n > 0 {
      HalveJoin(a, b, n);
      HalveJoin(c, d, n);
      AndFields(a, b / 2, c, d / 2, n - 1);
      AndStep(Join(a, b, n), Join(c, d, n));
      AndStep(b, d);
    }
  }

  lemma {:induction false} OrFields(a: nat, b: nat, c: nat, d: nat, n: nat)
    requires b < Pow2(n) && d < Pow2(n)
    ensures Or(Join(a, b, n), Join(c, d, n)) == Join(Or(a, c), Or(b, d), n)
    decreases n
  {
    if n > 0 {
      HalveJoin(a, b, n);
      HalveJoin(c, d, n);
      OrFields(a, b / 2, c, d / 2, n - 1);
      OrStep(Join(a, b, n), Join(c, d, n));
      OrStep(b, d);
    }
  }

  lemma {:induction false} XorFields(a: nat, b: nat, c: nat, d: nat, n: nat)
    requires b < Pow2(n) && d < Pow2(n)
    ensures Xor(Join(a, b, n), Join(c, d, n)) == Join(Xor(a, c), Xor(b, d), n)
    decreases n
  {
    if n > 0 {
      HalveJoin(a, b, n);
      HalveJoin(c, d, n);
      XorFields(a, b / 2, c, d / 2, n - 1);
      XorStep(Join(a, b, n), Join(c, d, n));
      XorStep(b, d);
    }
  }

  /** Masking with n ones keeps the low n bits. */
  lemma {:induction false} AndOnes(x: nat, n: nat)
    ensures And(x, Ones(n)) == Low(x, n)
    ensures And(Ones(n), x) == Low(x, n)
    decreases n
  {
    if n > 0 {
      AndOnes(x / 2, n - 1);
      AndStep(x, Ones(n));
      AndStep(Ones(n), x);
    }
  }

  lemma {:induction false} XorBound(x: nat, y: nat, n: nat)
    requires x < Pow2(n) && y < Pow2(n)
    ensures Xor(x, y) < Pow2(n)
    decreases n
  {
    if n > 0 {
      XorBound(x / 2, y / 2, n - 1);
      XorStep(x, y);
    }
  }

  /** Xor-ing either operand onto an exclusive or recovers the other one. */
  lemma {:induction false} XorCancel(x: nat, y: nat)
    ensures Xor(x, Xor(x, y)) == y && Xor(y, Xor(x, y)) == x
    decreases x + y
  {
    if x > 0 || y > 0 {
      XorCancel(x / 2, y / 2);
      var z := Xor(x, y);
      XorStep(x, y);
      assert z / 2 == Xor(x / 2, y / 2) && (z % 2 == 1 <==> x % 2 != y % 2);
      XorStep(x, z);
      XorStep(y, z);
    }
  }

  // ----- Powers of two as multipliers and moduli -----

  lemma {:induction false} ShlIsTimes(x: nat, n: nat)
    ensures Shl(x, n) == x * Pow2(n)
    decreases n
  {
    if n > 0 {
      ShlIsTimes(x, n - 1);
      Commute(x, Pow2(n - 1));
    }
  }

  lemma Commute(x: nat, p: nat)
    ensures 2 * (x * p) == x * (2 * p)
  {
  }

  lemma {:induction false} LowIsMod(x: nat, n: nat)
    ensures Low(x, n) == x % Pow2(n)
  {
    SplitJoin(x, n);
    ShlIsTimes(Shr(x, n), n);
    DivModUnique(x, Shr(x, n), Low(x, n), Pow2(n));
  }

  /** Quotient and remainder are unique. */
  lemma DivModUnique(x: int, q: int, r: int, d: int)
    requires d > 0 && x == q * d + r && 0 <= r < d
    ensures x / d == q && x % d == r
  {
    DivMod(x, d);
    UniqueQuotient(q, r, x / d, x % d, d);
  }

  lemma DivMod(x: int, d: int)
    requires d > 0
    ensures x == x / d * d + x % d && 0 <= x % d < d
  {
  }

  lemma UniqueQuotient(q: int, r: int, q': int, r': int, d: int)
    requires q * d + r == q' * d + r' && 0 <= r < d && 0 <= r' < d
    ensures q == q' && r == r'
  {
    if q < q' {
      AtLeastOnce(q' - q, d);
    } else if q > q' {
      AtLeastOnce(q - q', d);
    }
  }

  lemma AtLeastOnce(n: int, d: int)
    requires n > 0 && d > 0
    ensures n * d >= d
  {
    assert (n - 1) * d >= 0;
  }
}
