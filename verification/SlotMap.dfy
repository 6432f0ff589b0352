/** Which slot of the ring buffer a ticket belongs to, and how many tickets a slot has received. */
module SlotMap {
  import opened Words
  import opened Bits
  import opened Remap

  /**
   * A queue type: its number of slots, the reserved element value that marks
   * an empty slot, and the function that maps a 32-bit index to a slot.
   */
  datatype Config = Config(size: nat, nil: int, remap: u32 -> nat) {
    /**
     * What the queues need of their remapper: tickets, whose indexes are
     * truncated to words, share a slot exactly if they are congruent modulo
     * the size, and every slot belongs to some ticket of the first lap.
     */
    ghost predicate Consistent() {
      && 0 < size < WORD
      && (forall i: u32 :: remap(i) < size)
      && (forall t: nat, u: nat :: Congruent(t, u))
      && (forall r: nat :: Onto(r))
    }

    /** The atomic queues compare their indexes as signed numbers, and need in addition that the size is one. */
    ghost predicate Valid() {
      Consistent() && size < HALF
    }

    ghost predicate Congruent(t: nat, u: nat) {
      size > 0 ==> (remap(Wrap(t)) == remap(Wrap(u)) <==> t % size == u % size)
    }

    ghost predicate Onto(r: nat) {
      r < size ==> exists t: nat :: t < size && remap(Wrap(t)) == r
    }
  }

  function Slot(c: Config, index: u32): nat {
    c.remap(index)
  }

  /** The slot of a ticket. */
  ghost function SlotOf(c: Config, ticket: nat): nat {
    Slot(c, Wrap(ticket))
  }

  // ----- The remappers of the library -----

  /** `Remap0`: a plain remainder without shuffle bits, the exchange of bit fields with them. */
  function RemapOf(k: nat, bits: nat): u32 -> nat {
    (index: u32) => if bits == 0 then index % Pow2(k) else RemapAnd(index, SizeWord(k), bits)
  }

  function PowerConfig(k: nat, bits: nat, nil: int): Config {
    Config(Pow2(k), nil, RemapOf(k, bits))
  }

  lemma {:induction false} LowOfLow(x: nat, m: nat, n: nat)
    requires n <= m
    ensures Low(Low(x, m), n) == Low(x, n)
    decreases n
  {
    if n > 0 {
      LowOfLow(x / 2, m - 1, n - 1);
    }
  }

  lemma LowOfWord(t: nat, k: nat)
    requires k <= 32
    ensures Low(Wrap(t), k) == Low(t, k)
  {
    Pow32();
    LowIsMod(t, 32);
    LowOfLow(t, 32, k);
  }

  lemma SwapNothing(x: nat, k: nat)
    ensures Swap(x, k, 0) == Low(x, k)
  {
    assert Elem(x, 0) == 0 && Line(x, 0) == 0;
  }

  /** The index wraps around at 2^32 without any effect on the slot. */
  lemma RemapIsSwap(k: nat, bits: nat, t: nat)
    requires k <= 32 && 2 * bits <= k
    ensures RemapOf(k, bits)(Wrap(t)) == Swap(t, k, bits)
  {
    LowOfWord(t, k);
    SwapIsInvolution(t, k, bits);
    SwapIsInvolution(Wrap(t), k, bits);
    if bits == 0 {
      SwapNothing(t, k);
      LowIsMod(Wrap(t), k);
    } else {
      RemapAndSwaps(Wrap(t), k, bits);
    }
  }

  lemma RemapInRange(k: nat, bits: nat, i: u32)
    requires k <= 32 && 2 * bits <= k
    ensures RemapOf(k, bits)(i) < Pow2(k)
  {
    hide RemapOf;
    assert Wrap(i) == i;
    RemapIsSwap(k, bits, i);
    SwapIsInvolution(i, k, bits);
  }

  lemma RemapCongruence(k: nat, bits: nat, t: nat, u: nat)
    requires k <= 32 && 2 * bits <= k
    ensures RemapOf(k, bits)(Wrap(t)) == RemapOf(k, bits)(Wrap(u)) <==> t % Pow2(k) == u % Pow2(k)
  {
    RemapIsSwap(k, bits, t);
    RemapIsSwap(k, bits, u);
    SwapCongruence(t, u, k, bits);
  }

  lemma SwapCongruence(t: nat, u: nat, k: nat, bits: nat)
    requires 2 * bits <= k
    ensures Swap(t, k, bits) == Swap(u, k, bits) <==> t % Pow2(k) == u % Pow2(k)
  {
    SwapIsInvolution(t, k, bits);
    SwapIsInvolution(u, k, bits);
    LowIsMod(t, k);
    LowIsMod(u, k);
  }

  /** The map is its own inverse on the slots, so it is onto. */
  lemma RemapOnto(k: nat, bits: nat, r: nat)
    requires k <= 32 && 2 * bits <= k && r < Pow2(k)
    ensures Swap(r, k, bits) < Pow2(k) && RemapOf(k, bits)(Wrap(Swap(r, k, bits))) == r
  {
    SwapIsInvolution(r, k, bits);
    LowOfSmall(r, k);
    RemapIsSwap(k, bits, Swap(r, k, bits));
  }

  lemma PowerBelow(k: nat, m: nat)
    requires k < m && m <= 32
    ensures Pow2(k) < Pow2(m) <= WORD && (m <= 31 ==> Pow2(m) <= HALF)
  {
    Pow32();
    Pow2Monotone(k + 1, m);
    Pow2Monotone(m, 32);
    if m <= 31 {
      Pow2Monotone(m, 31);
    }
  }

  /**
   * With power-of-two sizes, the remappers map tickets to slots properly: onto
   * all slots, and equally exactly for congruent tickets, even across the wrap
   * of the index.
   */
  lemma PowerConfigIsConsistent(k: nat, bits: nat, nil: int)
    requires k <= 31 && 2 * bits <= k
    ensures PowerConfig(k, bits, nil).Consistent()
  {
    hide RemapOf;
    var c := PowerConfig(k, bits, nil);
    PowerBelow(k, 32);
    forall i: u32
      ensures c.remap(i) < c.size
    {
      RemapInRange(k, bits, i);
    }
    forall t: nat, u: nat
      ensures c.Congruent(t, u)
    {
      RemapCongruence(k, bits, t, u);
    }
    forall r: nat
      ensures c.Onto(r)
    {
      if r < c.size {
        RemapOnto(k, bits, r);
      }
    }
  }

  lemma PowerConfigIsValid(k: nat, bits: nat, nil: int)
    requires k <= 30 && 2 * bits <= k
    ensures PowerConfig(k, bits, nil).Valid()
  {
    PowerConfigIsConsistent(k, bits, nil);
    PowerBelow(k, 31);
  }

  /**
   * For a size that need not be a power of two the slot is the remainder of
   * the truncated index. Tickets a lap apart keep sharing their slot across
   * the wrap if and only if the size divides 2^32.
   */
  lemma WrapConsistentIff(size: nat)
    requires 0 < size < WORD
    ensures (forall t: nat :: WrapConsistent(t, size)) <==> WORD % size == 0
  {
    if WORD % size == 0 {
      forall t: nat
        ensures WrapConsistent(t, size)
      {
        WrapStep(t, size);
      }
    } else {
      var t: nat := WORD - size;
      assert Wrap(t + size) % size == 0;
      WholeLess(WORD, size);
      assert Wrap(t) % size == WORD % size;
      assert !WrapConsistent(t, size);
    }
  }

  predicate WrapConsistent(t: nat, size: nat)
    requires size > 0
  {
    Wrap(t + size) % size == Wrap(t) % size
  }

  lemma WholeLess(x: nat, d: nat)
    requires 0 < d <= x
    ensures (x - d) % d == x % d
  {
    DivMod(x, d);
    assert (x / d - 1) * d == x / d * d - d;
    DivModUnique(x - d, x / d - 1, x % d, d);
  }

  lemma WrapStep(t: nat, size: nat)
    requires 0 < size < WORD && WORD % size == 0
    ensures WrapConsistent(t, size)
  {
    var w := Wrap(t);
    if w + size < WORD {
      assert Wrap(t + size) == w + size;
      WholeLess(w + size, size);
    } else {
      assert Wrap(t + size) == w + size - WORD;
      WholeLess(w + size, size);
      Multiple(w + size - WORD, WORD, size);
    }
  }

  lemma Multiple(x: nat, m: nat, d: nat)
    requires d > 0 && m % d == 0
    ensures (x + m) % d == x % d
  {
    DivMod(x, d);
    DivMod(m, d);
    assert (x / d + m / d) * d == x / d * d + m / d * d;
    DivModUnique(x + m, x / d + m / d, x % d, d);
  }

  // ----- Counting tickets -----

  lemma SlotCongruence(c: Config, t: nat, u: nat)
    requires c.Consistent()
    ensures SlotOf(c, t) == SlotOf(c, u) <==> t % c.size == u % c.size
  {
    assert c.Congruent(t, u);
  }

  lemma SlotNextLap(c: Config, t: nat)
    requires c.Consistent()
    ensures SlotOf(c, t + c.size) == SlotOf(c, t)
  {
    SlotCongruence(c, t + c.size, t);
    DivModUnique(c.size, 1, 0, c.size);
    Multiple(t, c.size, c.size);
  }

  /** Within the first lap no two tickets share a slot. */
  lemma FirstLapDistinct(c: Config, t: nat, u: nat)
    requires c.Consistent() && t < c.size && u < c.size && SlotOf(c, t) == SlotOf(c, u)
    ensures t == u
  {
    SlotCongruence(c, t, u);
    DivModUnique(t, 0, t, c.size);
    DivModUnique(u, 0, u, c.size);
  }

  /** How many of the tickets 0 .. n - 1 belong to slot r. */
  ghost function Issued(c: Config, n: nat, r: nat): nat {
    if n == 0 then 0 else Issued(c, n - 1, r) + (if SlotOf(c, n - 1) == r then 1 else 0)
  }

  lemma IssuedNext(c: Config, n: nat, r: nat)
    ensures Issued(c, n + 1, r) == Issued(c, n, r) + (if SlotOf(c, n) == r then 1 else 0)
  {
  }

  lemma {:induction false} IssuedMonotone(c: Config, a: nat, b: nat, r: nat)
    requires a <= b
    ensures Issued(c, a, r) <= Issued(c, b, r)
    decreases b - a
  {
    if a < b {
      IssuedMonotone(c, a, b - 1, r);
    }
  }

  /** Within the first lap, a slot has its ticket once that has been issued. */
  lemma {:induction false} IssuedFirstLap(c: Config, n: nat, t: nat)
    requires c.Consistent() && t < c.size && n <= c.size
    ensures Issued(c, n, SlotOf(c, t)) == if t < n then 1 else 0
    decreases n
  {
    if n > 0 {
      IssuedFirstLap(c, n - 1, t);
      if SlotOf(c, n - 1) == SlotOf(c, t) {
        FirstLapDistinct(c, n - 1, t);
      }
    }
  }

  /** Any `size` consecutive tickets cover every slot exactly once, even across the wrap of the index. */
  lemma {:induction false} IssuedWindow(c: Config, n: nat, r: nat)
    requires c.Consistent() && r < c.size
    ensures Issued(c, n + c.size, r) == Issued(c, n, r) + 1
    decreases n
  {
    if n == 0 {
      assert c.Onto(r);
      var t: nat :| t < c.size && c.remap(Wrap(t)) == r;
      IssuedFirstLap(c, c.size, t);
    } else {
      IssuedWindow(c, n - 1, r);
      SlotNextLap(c, n - 1);
    }
  }

  /** At most a lap ahead, at most one ticket more on every slot. */
  lemma IssuedWithinLap(c: Config, a: nat, b: nat, r: nat)
    requires c.Consistent() && r < c.size && a <= b + c.size
    ensures Issued(c, a, r) <= Issued(c, b, r) + 1
  {
    IssuedMonotone(c, a, b + c.size, r);
    IssuedWindow(c, b, r);
  }

  /** More than a lap ahead, two tickets more on the slot of the ticket that begins the second lap. */
  lemma IssuedBeyondLap(c: Config, a: nat, b: nat)
    requires c.Consistent() && a > b + c.size
    ensures Issued(c, a, SlotOf(c, b)) >= Issued(c, b, SlotOf(c, b)) + 2
  {
    var r := SlotOf(c, b);
    IssuedWindow(c, b + 1, r);
    IssuedMonotone(c, b + 1 + c.size, a, r);
  }

  /** Different tickets of one slot are at least a lap apart, and the later one has more predecessors there. */
  lemma SameSlotApart(c: Config, t: nat, u: nat)
    requires c.Consistent() && t < u && SlotOf(c, t) == SlotOf(c, u)
    ensures t + c.size <= u
    ensures Issued(c, t, SlotOf(c, t)) < Issued(c, u, SlotOf(c, t))
  {
    hide Wrap, Issued;
    var r := SlotOf(c, t);
    IssuedNext(c, t, r);
    IssuedMonotone(c, t + 1, u, r);
    if u < t + c.size {
      IssuedNext(c, u, r);
      IssuedMonotone(c, u + 1, t + c.size, r);
      IssuedWindow(c, t, r);
    }
  }

  /** Of `size` consecutive tickets, no two share a slot. */
  lemma WindowDistinct(c: Config, base: nat, t: nat, u: nat)
    requires c.Consistent() && base <= t < base + c.size && base <= u < base + c.size && t != u
    ensures SlotOf(c, t) != SlotOf(c, u)
  {
    if SlotOf(c, t) == SlotOf(c, u) {
      if t < u {
        SameSlotApart(c, t, u);
      } else {
        SameSlotApart(c, u, t);
      }
    }
  }
}
