/** A bounded first-in-first-out queue of elements, and how the slots of a ring buffer represent it. */
module Fifo {
  import opened Words
  import opened SlotMap

  datatype Op = TryPush(e: int) | TryPop | WasEmpty | WasFull

  datatype Result = Answer(b: bool) | Element(v: int)

  datatype Outcome = Outcome(q: seq<int>, result: Result)

  /** One operation on a queue of the given capacity. */
  function Perform(size: nat, q: seq<int>, op: Op): Outcome {
    match op
    case TryPush(e) => if |q| < size then Outcome(q + [e], Answer(true)) else Outcome(q, Answer(false))
    case TryPop => if q != [] then Outcome(q[1..], Element(q[0])) else Outcome(q, Answer(false))
    case WasEmpty => Outcome(q, Answer(q == []))
    case WasFull => Outcome(q, Answer(|q| == size))
  }

  /** The elements in the queue after operations that are performed one after the other. */
  function After(size: nat, ops: seq<Op>): seq<int> {
    if ops == [] then [] else Perform(size, After(size, ops[..|ops| - 1]), ops[|ops| - 1]).q
  }

  /** The result of the n-th one. */
  function ResultOf(size: nat, ops: seq<Op>, n: nat): Result
    requires n < |ops|
  {
    Perform(size, After(size, ops[..n]), ops[n]).result
  }

  lemma AfterNext(size: nat, ops: seq<Op>, n: nat)
    requires n < |ops|
    ensures After(size, ops[..n + 1]) == Perform(size, After(size, ops[..n]), ops[n]).q
  {
    assert ops[..n + 1][..n] == ops[..n];
  }

  /** The elements that operations have pushed with success, in order. */
  function PushedBy(size: nat, ops: seq<Op>): seq<int> {
    if ops == [] then [] else
      var n := |ops| - 1;
      PushedBy(size, ops[..n]) + Accepted(ops[n], ResultOf(size, ops, n))
  }

  function Accepted(op: Op, result: Result): seq<int> {
    if op.TryPush? && result == Answer(true) then [op.e] else []
  }

  /** The elements that operations have popped, in order. */
  function PoppedBy(size: nat, ops: seq<Op>): seq<int> {
    if ops == [] then [] else
      var n := |ops| - 1;
      PoppedBy(size, ops[..n]) + Yielded(ResultOf(size, ops, n))
  }

  function Yielded(result: Result): seq<int> {
    if result.Element? then [result.v] else []
  }

  lemma PerformIsFifo(size: nat, q: seq<int>, op: Op)
    requires |q| <= size
    ensures var o := Perform(size, q, op); q + Accepted(op, o.result) == Yielded(o.result) + o.q && |o.q| <= size
  {
    if op.TryPop? && q != [] {
      assert [q[0]] + q[1..] == q;
    }
  }

  /** First in, first out, and never more than `size` elements in between. */
  lemma {:induction false} AfterIsFifo(size: nat, ops: seq<Op>)
    ensures PushedBy(size, ops) == PoppedBy(size, ops) + After(size, ops)
    ensures |After(size, ops)| <= size
  {
    hide Perform, Accepted, Yielded;
    if ops != [] {
      var n := |ops| - 1;
      AfterIsFifo(size, ops[..n]);
      PerformIsFifo(size, After(size, ops[..n]), ops[n]);
      var before := PoppedBy(size, ops[..n]);
      var result := ResultOf(size, ops, n);
      assert PushedBy(size, ops) == before + (After(size, ops[..n]) + Accepted(ops[n], result));
      assert PushedBy(size, ops) == before + (Yielded(result) + After(size, ops));
    }
  }

  // ----- Ring buffers -----

  /** The elements of q are in consecutive slots, from the slot of the given ticket on. */
  ghost predicate Represents(c: Config, cells: seq<int>, first: nat, q: seq<int>) {
    && c.Consistent() && |cells| == c.size && |q| <= c.size
    && forall k | 0 <= k < |q| :: InSlot(c, cells, first + k, q[k])
  }

  ghost predicate InSlot(c: Config, cells: seq<int>, t: nat, v: int)
    requires c.Consistent() && |cells| == c.size
  {
    cells[SlotOf(c, t)] == v
  }

  lemma RepresentsWrite(c: Config, cells: seq<int>, first: nat, q: seq<int>, e: int)
    requires Represents(c, cells, first, q) && |q| < c.size
    ensures Represents(c, cells[SlotOf(c, first + |q|) := e], first, q + [e])
  {
    hide Wrap;
    var t := first + |q|;
    var cells' := cells[SlotOf(c, t) := e];
    forall k | 0 <= k < |q + [e]|
      ensures InSlot(c, cells', first + k, (q + [e])[k])
    {
      if k < |q| {
        assert InSlot(c, cells, first + k, q[k]);
        WindowDistinct(c, first, first + k, t);
      }
    }
  }

  lemma RepresentsRest(c: Config, cells: seq<int>, first: nat, q: seq<int>)
    requires Represents(c, cells, first, q) && q != []
    ensures Represents(c, cells, first + 1, q[1..])
    ensures cells[SlotOf(c, first)] == q[0]
  {
    assert InSlot(c, cells, first + 0, q[0]);
    forall k | 0 <= k < |q[1..]|
      ensures InSlot(c, cells, first + 1 + k, q[1..][k])
    {
      assert InSlot(c, cells, first + (k + 1), q[k + 1]);
    }
  }

  /** Of the slots of the next `size` tickets, those of the first n are marked. */
  ghost predicate Marked(c: Config, marks: seq<bool>, first: nat, n: nat) {
    && c.Consistent() && |marks| == c.size && n <= c.size
    && forall t: nat :: MarkOk(c, marks, first, n, t)
  }

  ghost predicate MarkOk(c: Config, marks: seq<bool>, first: nat, n: nat, t: nat)
    requires c.Consistent() && |marks| == c.size
  {
    first <= t < first + c.size ==> (marks[SlotOf(c, t)] <==> t < first + n)
  }

  /** The slot of the next ticket gets its mark, which it did not have. */
  lemma MarkNext(c: Config, marks: seq<bool>, first: nat, n: nat)
    requires Marked(c, marks, first, n) && n < c.size
    ensures !marks[SlotOf(c, first + n)]
    ensures Marked(c, marks[SlotOf(c, first + n) := true], first, n + 1)
  {
    hide Wrap;
    assert MarkOk(c, marks, first, n, first + n);
    var marks', n' := marks[SlotOf(c, first + n) := true], n + 1;
    forall t: nat
      ensures MarkOk(c, marks', first, n', t)
    {
      assert MarkOk(c, marks, first, n, t);
      if first <= t < first + c.size && t != first + n {
        WindowDistinct(c, first, t, first + n);
      }
    }
  }

  /** The slot of the first ticket loses its mark, and becomes that of the ticket a lap later. */
  lemma UnmarkFirst(c: Config, marks: seq<bool>, first: nat, n: nat)
    requires Marked(c, marks, first, n) && n > 0
    ensures marks[SlotOf(c, first)]
    ensures Marked(c, marks[SlotOf(c, first) := false], first + 1, n - 1)
  {
    hide Wrap;
    assert MarkOk(c, marks, first, n, first);
    var marks', first', n' := marks[SlotOf(c, first) := false], first + 1, n - 1;
    SlotNextLap(c, first);
    forall t: nat
      ensures MarkOk(c, marks', first', n', t)
    {
      assert MarkOk(c, marks, first, n, t);
      if first < t < first + c.size {
        WindowDistinct(c, first, t, first);
      }
    }
  }

  /** The tests of the locked queue are exact, also when the indexes have wrapped around. */
  lemma UnsignedTests(size: nat, first: nat, n: nat)
    requires n <= size < WORD
    ensures Sub(Wrap(first + n), Wrap(first)) == n
    ensures Wrap(first + n) == Wrap(first) <==> n == 0
  {
  }
}
