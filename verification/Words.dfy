/** The 32-bit unsigned words of the queue indexes, and their signed view. */
module Words {
  const WORD: int := 0x1_0000_0000
  const HALF: int := 0x8000_0000

  type u32 = x: int | 0 <= x < 0x1_0000_0000

  /** The word that an unbounded counter leaves in an `unsigned`. */
  function Wrap(x: int): u32 {
    x % WORD
  }

  /** Unsigned subtraction. */
  function Sub(a: u32, b: u32): u32 {
    Wrap(a - b)
  }

  /** Conversion of `unsigned` to `int`. */
  function AsSigned(u: u32): int {
    if u < HALF then u else u - WORD
  }

  /** The test of `try_push`: the queue looks full. */
  predicate LooksFull(head: u32, tail: u32, size: u32) {
    AsSigned(Sub(head, tail)) >= AsSigned(size)
  }

  /** The test of `try_pop`: the queue looks empty. */
  predicate LooksEmpty(head: u32, tail: u32) {
    AsSigned(Sub(head, tail)) <= 0
  }

  /** Wrapping counters less than 2^31 apart have their true difference. */
  lemma SignedDifference(a: int, b: int)
    requires -HALF <= a - b < HALF
    ensures AsSigned(Sub(Wrap(a), Wrap(b))) == a - b
  {
  }

  /** Counters less than 2^32 apart are equal when their words are. */
  lemma WrapInjective(a: int, b: int)
    requires Wrap(a) == Wrap(b) && -WORD < a - b < WORD
    ensures a == b
  {
  }

  lemma WrapNext(n: nat)
    ensures Wrap(Wrap(n) + 1) == Wrap(n + 1)
  {
  }

  /** The full test answers correctly for a queue of n elements and the given size. */
  predicate FullTestCorrect(tail: nat, n: nat, size: u32) {
    LooksFull(Wrap(tail + n), Wrap(tail), size) <==> n >= size
  }

  /**
   * The full test is exact on every reachable distance if and only if the
   * size is below 2^31. From 2^31 on, even an empty queue looks full.
   */
  lemma FullTestExactIff(size: u32)
    requires size > 0
    ensures (forall tail: nat, n: nat :: n <= size ==> FullTestCorrect(tail, n, size)) <==> size < HALF
    ensures size >= HALF ==> forall tail: nat :: LooksFull(Wrap(tail), Wrap(tail), size)
  {
    if size < HALF {
      forall tail: nat, n: nat | n <= size
        ensures FullTestCorrect(tail, n, size)
      {
        SignedDifference(tail + n, tail);
      }
    } else {
      assert !FullTestCorrect(0, 0, size);
    }
  }

  /**
   * The full test, whatever indexes it compares, lets a push pass exactly if
   * their distance modulo 2^32 is below the size, or 2^31 and more.
   */
  lemma StaleFullTestIff(head: int, tail: int, size: u32)
    requires 0 < size < HALF && head >= 0 && tail >= 0
    ensures !LooksFull(Wrap(head), Wrap(tail), size) <==> (head - tail) % WORD < size || (head - tail) % WORD >= HALF
  {
    assert Sub(Wrap(head), Wrap(tail)) == (head - tail) % WORD;
  }

  /** The empty test of `try_pop` lets it give up exactly if the distance modulo 2^32 is 0, or 2^31 and more. */
  lemma StaleEmptyTestIff(head: int, tail: int)
    requires head >= 0 && tail >= 0
    ensures LooksEmpty(Wrap(head), Wrap(tail)) <==> (head - tail) % WORD == 0 || (head - tail) % WORD >= HALF
  {
    assert Sub(Wrap(head), Wrap(tail)) == (head - tail) % WORD;
  }
}
