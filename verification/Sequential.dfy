/**
 * The queue classes as one thread sees them: bounded first-in-first-out
 * queues, however often their 32-bit indexes wrap around.
 *
 * A `compare_exchange_weak` may fail for no reason. How often each one does so
 * before it succeeds is a parameter of the operations.
 */
module Sequential {
  import opened Words
  import opened SlotMap
  import opened Fifo
  import opened SlotStates

  function Max(x: int, y: int): int {
    if x > y then x else y
  }

  /** The results of operations on a bounded queue, one after the other. */
  ghost predicate AreResults(size: nat, ops: seq<Op>, results: seq<Result>) {
    |results| <= |ops| && forall n | 0 <= n < |results| :: results[n] == ResultOf(size, ops, n)
  }

  lemma AfterNone(size: nat, ops: seq<Op>)
    ensures After(size, ops[..0]) == []
  {
  }

  lemma NextResult(size: nat, ops: seq<Op>, results: seq<Result>, q: seq<int>, result: Result)
    requires |results| < |ops| && AreResults(size, ops, results)
    requires Outcome(q, result) == Perform(size, After(size, ops[..|results|]), ops[|results|])
    ensures AreResults(size, ops, results + [result]) && q == After(size, ops[..|results| + 1])
  {
    AfterNext(size, ops, |results|);
  }

  /** How often the exchange of an index and the one of a slot fail in an operation. */
  datatype Failures = Failures(claim: nat, slot: nat)

  /**
   * The indexes, with `spsc` for the single-producer-single-consumer mode. The
   * ghost fields are the number of pops and that of the elements between.
   */
  class AtomicQueueCommon {
    const size: u32
    const spsc: bool
    var head: u32
    var tail: u32
    ghost var first: nat
    ghost var count: nat

    ghost predicate Valid()
      reads this
    {
      0 < size < HALF && count <= size && head == Wrap(first + count) && tail == Wrap(first)
    }

    constructor (size: u32, spsc: bool)
      requires 0 < size < HALF
      ensures Valid() && this.size == size && this.spsc == spsc && first == count == 0
    {
      this.size, this.spsc, head, tail, first, count := size, spsc, 0, 0, 0, 0;
    }

    /** The part of `try_push` that claims a ticket, unless the queue is full. */
    method TryClaimPush(failures: nat) returns (ok: bool, h: u32)
      requires Valid()
      modifies this
      ensures Valid() && first == old(first)
      ensures ok <==> old(count) < size
      ensures if ok then h == Wrap(first + old(count)) && count == old(count) + 1 else count == old(count)
    {
      var left := failures;
      h := head;
      SignedDifference(first + count, first);
      WrapNext(first + count);
      if spsc {
        if LooksFull(h, tail, size) {
          return false, h;
        }
        head := Wrap(h + 1);
      } else {
        while true
          invariant h == head == old(head) && tail == old(tail) && first == old(first) && count == old(count)
          decreases left
        {
          if LooksFull(h, tail, size) {
            return false, h;
          }
          if left == 0 && head == h {
            head := Wrap(h + 1);
            break;
          }
          h, left := head, left - 1;
        }
      }
      ok, count := true, count + 1;
    }

    /** The part of `push` that claims a ticket. One thread must not push to a full queue: it would wait for ever. */
    method ClaimPush() returns (h: u32)
      requires Valid() && count < size
      modifies this
      ensures Valid() && first == old(first) && count == old(count) + 1 && h == Wrap(first + old(count))
    {
      h := head;
      WrapNext(first + count);
      head, count := Wrap(head + 1), count + 1;
    }

    method TryClaimPop(failures: nat) returns (ok: bool, t: u32)
      requires Valid()
      modifies this
      ensures Valid()
      ensures ok <==> old(count) > 0
      ensures ok ==> t == Wrap(old(first)) && first == old(first) + 1 && count == old(count) - 1
      ensures !ok ==> first == old(first) && count == old(count)
    {
      var left := failures;
      t := tail;
      SignedDifference(first + count, first);
      WrapNext(first);
      if spsc {
        if LooksEmpty(head, t) {
          return false, t;
        }
        tail := Wrap(t + 1);
      } else {
        while true
          invariant t == tail == old(tail) && head == old(head) && first == old(first) && count == old(count)
          decreases left
        {
          if LooksEmpty(head, t) {
            return false, t;
          }
          if left == 0 && tail == t {
            tail := Wrap(t + 1);
            break;
          }
          t, left := tail, left - 1;
        }
      }
      ok, first, count := true, first + 1, count - 1;
    }

    method ClaimPop() returns (t: u32)
      requires Valid() && count > 0
      modifies this
      ensures Valid() && first == old(first) + 1 && count == old(count) - 1 && t == Wrap(old(first))
    {
      t := tail;
      WrapNext(first);
      tail, first, count := Wrap(tail + 1), first + 1, count - 1;
    }

    method WasSize() returns (n: u32)
      requires Valid()
      ensures n == count
    {
      SignedDifference(first + count, first);
      n := Max(AsSigned(Sub(head, tail)), 0);
    }

    method WasEmpty() returns (b: bool)
      requires Valid()
      ensures b <==> count == 0
    {
      var n := WasSize();
      b := n == 0;
    }

    method WasFull() returns (b: bool)
      requires Valid()
      ensures b <==> count == size
    {
      var n := WasSize();
      b := n >= size;
    }
  }

  // ----- Slots with a reserved value -----

  function NotNil(cells: seq<int>, nil: int): seq<bool> {
    seq(|cells|, r requires 0 <= r < |cells| => cells[r] != nil)
  }

  class AtomicQueue {
    const config: Config
    const indexes: AtomicQueueCommon
    const elements: array<int>
    ghost var contents: seq<int>

    /** The slots represent the contents, from the slot of the given ticket on. */
    ghost predicate Slots(first: nat)
      reads this, elements
    {
      && config.Valid() && elements.Length == config.size
      && Represents(config, elements[..], first, contents)
      && Marked(config, NotNil(elements[..], config.nil), first, |contents|)
    }

    ghost predicate Valid()
      reads this, indexes, elements
    {
      Slots(indexes.first) && indexes.Valid() && indexes.size == config.size && indexes.count == |contents|
    }

    constructor (config: Config, spsc: bool)
      requires config.Valid()
      ensures Valid() && fresh(elements) && fresh(indexes)
      ensures this.config == config && indexes.spsc == spsc && contents == []
    {
      this.config := config;
      indexes := new AtomicQueueCommon(config.size, spsc);
      elements := new int[config.size](_ => config.nil);
      contents := [];
    }

    method DoPush(element: int, h: u32, failures: nat, ghost first: nat)
      requires Slots(first) && |contents| < config.size && h == Wrap(first + |contents|) && element != config.nil
      modifies this, elements
      ensures Slots(first) && contents == old(contents) + [element]
    {
      var index := Slot(config, h);
      MarkNext(config, NotNil(elements[..], config.nil), first, |contents|);
      RepresentsWrite(config, elements[..], first, contents, element);
      ghost var was := elements[..];
      var left := if indexes.spsc then 0 else failures;
      while elements[index] != config.nil || left > 0
        invariant elements[..] == was && elements[index] == config.nil
        decreases left
      {
        left := left - 1;
      }
      elements[index] := element;
      assert NotNil(elements[..], config.nil) == NotNil(was, config.nil)[index := true];
      contents := contents + [element];
    }

    /** The exchange finds an element at once. */
    method DoPop(t: u32, ghost first: nat) returns (element: int)
      requires Slots(first) && contents != [] && t == Wrap(first)
      modifies this, elements
      ensures Slots(first + 1) && [element] + contents == old(contents)
    {
      var index := Slot(config, t);
      UnmarkFirst(config, NotNil(elements[..], config.nil), first, |contents|);
      RepresentsRest(config, elements[..], first, contents);
      ghost var was := elements[..];
      element := elements[index];
      elements[index] := config.nil;
      RepresentsElsewhere(config, was, elements[..], first, contents);
      assert NotNil(elements[..], config.nil) == NotNil(was, config.nil)[index := false];
      contents := contents[1..];
    }

    /** The queue does not accept the reserved element. */
    method TryPush(element: int, failures: Failures) returns (ok: bool)
      requires Valid() && element != config.nil
      modifies this, indexes, elements
      ensures Valid() && Outcome(contents, Answer(ok)) == Perform(config.size, old(contents), Op.TryPush(element))
    {
      var h;
      ok, h := indexes.TryClaimPush(failures.claim);
      if ok {
        DoPush(element, h, failures.slot, indexes.first);
      }
    }

    method TryPop(failures: Failures) returns (result: Result)
      requires Valid()
      modifies this, indexes, elements
      ensures Valid() && Outcome(contents, result) == Perform(config.size, old(contents), Op.TryPop)
    {
      var ok, t := indexes.TryClaimPop(failures.claim);
      if ok {
        var element := DoPop(t, indexes.first - 1);
        result := Element(element);
      } else {
        result := Answer(false);
      }
    }

    method Push(element: int, failures: nat)
      requires Valid() && element != config.nil && |contents| < config.size
      modifies this, indexes, elements
      ensures Valid() && contents == old(contents) + [element]
    {
      var h := indexes.ClaimPush();
      DoPush(element, h, failures, indexes.first);
    }

    method Pop() returns (element: int)
      requires Valid() && contents != []
      modifies this, indexes, elements
      ensures Valid() && [element] + contents == old(contents)
    {
      var t := indexes.ClaimPop();
      element := DoPop(t, indexes.first - 1);
    }

    method Apply(op: Op, failures: Failures) returns (result: Result)
      requires Valid() && (op.TryPush? ==> op.e != config.nil)
      modifies this, indexes, elements
      ensures Valid() && Outcome(contents, result) == Perform(config.size, old(contents), op)
    {
      match op
      case TryPush(e) =>
        var ok := TryPush(e, failures);
        result := Answer(ok);
      case TryPop => result := TryPop(failures);
      case WasEmpty =>
        var b := indexes.WasEmpty();
        result := Answer(b);
      case WasFull =>
        var b := indexes.WasFull();
        result := Answer(b);
    }

    /** Operations from the empty queue on, one after the other. */
    method ApplyAll(ops: seq<Op>, failures: seq<Failures>) returns (results: seq<Result>)
      requires Valid() && contents == [] && |failures| == |ops|
      requires forall n | 0 <= n < |ops| :: ops[n].TryPush? ==> ops[n].e != config.nil
      modifies this, indexes, elements
      ensures Valid() && contents == After(config.size, ops)
      ensures |results| == |ops| && AreResults(config.size, ops, results)
    {
      hide Perform, After, ResultOf, Represents, Marked;
      results := [];
      AfterNone(config.size, ops);
      for n := 0 to |ops|
        invariant Valid() && contents == After(config.size, ops[..n])
        invariant |results| == n && AreResults(config.size, ops, results)
      {
        var result := Apply(ops[n], failures[n]);
        NextResult(config.size, ops, results, contents, result);
        results := results + [result];
      }
      assert ops[..|ops|] == ops;
    }
  }

  /** A change in the slot of the first ticket does not matter to the rest. */
  lemma RepresentsElsewhere(c: Config, cells: seq<int>, cells': seq<int>, first: nat, q: seq<int>)
    requires Represents(c, cells, first, q) && q != [] && |cells'| == |cells|
    requires forall r | 0 <= r < |cells| && r != SlotOf(c, first) :: cells'[r] == cells[r]
    ensures Represents(c, cells', first + 1, q[1..])
  {
    hide Wrap;
    forall k | 0 <= k < |q[1..]|
      ensures InSlot(c, cells', first + 1 + k, q[1..][k])
    {
      assert InSlot(c, cells, first + (k + 1), q[k + 1]);
      WindowDistinct(c, first, first + (k + 1), first);
    }
  }

  // ----- Slots with a state -----

  function AreStored(states: seq<SlotState>): seq<bool> {
    seq(|states|, r requires 0 <= r < |states| => states[r] == STORED)
  }

  class AtomicQueue2 {
    const config: Config
    const indexes: AtomicQueueCommon
    const states: array<SlotState>
    const elements: array<int>
    ghost var contents: seq<int>

    ghost predicate Slots(first: nat)
      reads this, states, elements
    {
      && config.Valid() && elements.Length == states.Length == config.size
      && Represents(config, elements[..], first, contents)
      && Marked(config, AreStored(states[..]), first, |contents|)
      && forall r | 0 <= r < config.size :: states[r] == EMPTY || states[r] == STORED
    }

    ghost predicate Valid()
      reads this, indexes, states, elements
    {
      Slots(indexes.first) && indexes.Valid() && indexes.size == config.size && indexes.count == |contents|
    }

    constructor (config: Config, spsc: bool)
      requires config.Valid()
      ensures Valid() && fresh(states) && fresh(elements) && fresh(indexes)
      ensures this.config == config && indexes.spsc == spsc && contents == []
    {
      this.config := config;
      indexes := new AtomicQueueCommon(config.size, spsc);
      states := new SlotState[config.size](_ => EMPTY);
      elements := new int[config.size];
      contents := [];
    }

    method DoPush(element: int, h: u32, failures: nat, ghost first: nat)
      requires Slots(first) && |contents| < config.size && h == Wrap(first + |contents|)
      modifies this, states, elements
      ensures Slots(first) && contents == old(contents) + [element]
    {
      var index := Slot(config, h);
      MarkNext(config, AreStored(states[..]), first, |contents|);
      RepresentsWrite(config, elements[..], first, contents, element);
      ghost var was := states[..];
      var left := if indexes.spsc then 0 else failures;
      while states[index] != EMPTY || left > 0
        invariant states[..] == was && states[index] == EMPTY
        decreases left
      {
        left := left - 1;
      }
      if !indexes.spsc {
        states[index] := STORING;
      }
      elements[index] := element;
      states[index] := STORED;
      assert AreStored(states[..]) == AreStored(was)[index := true];
      contents := contents + [element];
    }

    method DoPop(t: u32, failures: nat, ghost first: nat) returns (element: int)
      requires Slots(first) && contents != [] && t == Wrap(first)
      modifies this, states, elements
      ensures Slots(first + 1) && [element] + contents == old(contents)
    {
      var index := Slot(config, t);
      UnmarkFirst(config, AreStored(states[..]), first, |contents|);
      RepresentsRest(config, elements[..], first, contents);
      ghost var was := states[..];
      var left := if indexes.spsc then 0 else failures;
      while states[index] != STORED || left > 0
        invariant states[..] == was && states[index] == STORED
        decreases left
      {
        left := left - 1;
      }
      if !indexes.spsc {
        states[index] := LOADING;
      }
      element := elements[index];
      states[index] := EMPTY;
      assert AreStored(states[..]) == AreStored(was)[index := false];
      contents := contents[1..];
    }

    method TryPush(element: int, failures: Failures) returns (ok: bool)
      requires Valid()
      modifies this, indexes, states, elements
      ensures Valid() && Outcome(contents, Answer(ok)) == Perform(config.size, old(contents), Op.TryPush(element))
    {
      var h;
      ok, h := indexes.TryClaimPush(failures.claim);
      if ok {
        DoPush(element, h, failures.slot, indexes.first);
      }
    }

    method TryPop(failures: Failures) returns (result: Result)
      requires Valid()
      modifies this, indexes, states, elements
      ensures Valid() && Outcome(contents, result) == Perform(config.size, old(contents), Op.TryPop)
    {
      var ok, t := indexes.TryClaimPop(failures.claim);
      if ok {
        var element := DoPop(t, failures.slot, indexes.first - 1);
        result := Element(element);
      } else {
        result := Answer(false);
      }
    }

    method Push(element: int, failures: nat)
      requires Valid() && |contents| < config.size
      modifies this, indexes, states, elements
      ensures Valid() && contents == old(contents) + [element]
    {
      var h := indexes.ClaimPush();
      DoPush(element, h, failures, indexes.first);
    }

    method Pop(failures: nat) returns (element: int)
      requires Valid() && contents != []
      modifies this, indexes, states, elements
      ensures Valid() && [element] + contents == old(contents)
    {
      var t := indexes.ClaimPop();
      element := DoPop(t, failures, indexes.first - 1);
    }

    method Apply(op: Op, failures: Failures) returns (result: Result)
      requires Valid()
      modifies this, indexes, states, elements
      ensures Valid() && Outcome(contents, result) == Perform(config.size, old(contents), op)
    {
      match op
      case TryPush(e) =>
        var ok := TryPush(e, failures);
        result := Answer(ok);
      case TryPop => result := TryPop(failures);
      case WasEmpty =>
        var b := indexes.WasEmpty();
        result := Answer(b);
      case WasFull =>
        var b := indexes.WasFull();
        result := Answer(b);
    }

    /** Operations from the empty queue on, one after the other. */
    method ApplyAll(ops: seq<Op>, failures: seq<Failures>) returns (results: seq<Result>)
      requires Valid() && contents == [] && |failures| == |ops|
      modifies this, indexes, states, elements
      ensures Valid() && contents == After(config.size, ops)
      ensures |results| == |ops| && AreResults(config.size, ops, results)
    {
      hide Perform, After, ResultOf, Represents, Marked;
      results := [];
      AfterNone(config.size, ops);
      for n := 0 to |ops|
        invariant Valid() && contents == After(config.size, ops[..n])
        invariant |results| == n && AreResults(config.size, ops, results)
      {
        var result := Apply(ops[n], failures[n]);
        NextResult(config.size, ops, results, contents, result);
        results := results + [result];
      }
      assert ops[..|ops|] == ops;
    }
  }

  // ----- A locked ring -----

  /** The queue that is locked as a whole; here one thread has the lock throughout. Its size may be up to 2^31. */
  class AtomicQueueMutex {
    const config: Config
    const elements: array<int>
    var head: u32
    var tail: u32
    ghost var contents: seq<int>
    ghost var first: nat

    ghost predicate Valid()
      reads this, elements
    {
      && config.Consistent() && elements.Length == config.size
      && Represents(config, elements[..], first, contents)
      && head == Wrap(first + |contents|) && tail == Wrap(first)
    }

    constructor (config: Config)
      requires config.Consistent()
      ensures Valid() && fresh(elements) && this.config == config && contents == []
    {
      this.config := config;
      elements := new int[config.size];
      head, tail, contents, first := 0, 0, [], 0;
    }

    method TryPush(element: int) returns (ok: bool)
      requires Valid()
      modifies this, elements
      ensures Valid() && Outcome(contents, Answer(ok)) == Perform(config.size, old(contents), Op.TryPush(element))
    {
      UnsignedTests(config.size, first, |contents|);
      if Sub(head, tail) < config.size {
        var index := Slot(config, head);
        RepresentsWrite(config, elements[..], first, contents, element);
        WrapNext(first + |contents|);
        elements[index] := element;
        head, contents := Wrap(head + 1), contents + [element];
        return true;
      }
      return false;
    }

    method TryPop() returns (result: Result)
      requires Valid()
      modifies this
      ensures Valid() && Outcome(contents, result) == Perform(config.size, old(contents), Op.TryPop)
    {
      UnsignedTests(config.size, first, |contents|);
      if head != tail {
        var index := Slot(config, tail);
        RepresentsRest(config, elements[..], first, contents);
        WrapNext(first);
        var element := elements[index];
        tail, first, contents := Wrap(tail + 1), first + 1, contents[1..];
        return Element(element);
      }
      return Answer(false);
    }

    method WasEmpty() returns (b: bool)
      requires Valid()
      ensures b <==> contents == []
    {
      UnsignedTests(config.size, first, |contents|);
      b := head == tail;
    }

    method WasFull() returns (b: bool)
      requires Valid()
      ensures b <==> |contents| == config.size
    {
      UnsignedTests(config.size, first, |contents|);
      b := Sub(head, tail) == config.size;
    }

    method Apply(op: Op) returns (result: Result)
      requires Valid()
      modifies this, elements
      ensures Valid() && Outcome(contents, result) == Perform(config.size, old(contents), op)
    {
      match op
      case TryPush(e) =>
        var ok := TryPush(e);
        result := Answer(ok);
      case TryPop => result := TryPop();
      case WasEmpty =>
        var b := WasEmpty();
        result := Answer(b);
      case WasFull =>
        var b := WasFull();
        result := Answer(b);
    }

    /** Operations from the empty queue on, one after the other. */
    method ApplyAll(ops: seq<Op>) returns (results: seq<Result>)
      requires Valid() && contents == []
      modifies this, elements
      ensures Valid() && contents == After(config.size, ops)
      ensures |results| == |ops| && AreResults(config.size, ops, results)
    {
      hide Perform, After, ResultOf, Represents, Marked;
      results := [];
      AfterNone(config.size, ops);
      for n := 0 to |ops|
        invariant Valid() && contents == After(config.size, ops[..n])
        invariant |results| == n && AreResults(config.size, ops, results)
      {
        var result := Apply(ops[n]);
        NextResult(config.size, ops, results, contents, result);
        results := results + [result];
      }
      assert ops[..|ops|] == ops;
    }
  }

  // ----- All of them -----

  /**
   * On the same operations, all three queues give the same results, those of
   * a bounded first-in-first-out queue, in both modes of the atomic ones, with
   * any remapping, and whatever their weak exchanges do.
   */
  method RunAll(ops: seq<Op>, c1: Config, c2: Config, c3: Config, spsc1: bool, spsc2: bool,
        failures1: seq<Failures>, failures2: seq<Failures>)
    returns (results1: seq<Result>, results2: seq<Result>, results3: seq<Result>)
    requires c1.Valid() && c2.Valid() && c3.Consistent() && c1.size == c2.size == c3.size
    requires |failures1| == |failures2| == |ops|
    requires forall n | 0 <= n < |ops| :: ops[n].TryPush? ==> ops[n].e != c1.nil
    ensures results1 == results2 == results3 && |results1| == |ops|
    ensures AreResults(c1.size, ops, results1)
  {
    var q1 := new AtomicQueue(c1, spsc1);
    results1 := q1.ApplyAll(ops, failures1);
    var q2 := new AtomicQueue2(c2, spsc2);
    results2 := q2.ApplyAll(ops, failures2);
    var q3 := new AtomicQueueMutex(c3);
    results3 := q3.ApplyAll(ops);
  }
}
