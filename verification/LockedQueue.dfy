/**
 * `AtomicQueueMutexT` with a `TicketSpinlock` that its `LockGuard` locks and
 * unlocks: any number of threads, below 2^32, one access per step, in any
 * order. The threads get the results of a sequential queue that performs their
 * operations in the order of their lock tickets.
 *
 * The fields of a state below `threads` are history. No step looks at them.
 */
module LockedQueue {
  import opened Words
  import opened SlotMap
  import opened Fifo

  /** Where a thread is; n is the lock ticket whose word it has drawn. */
  datatype Pc =
    | Idle
    | Done(result: Result)
    | Draw(op: Op)
    | Wait(op: Op, ticket: u32, n: nat)
    | Test(op: Op, ticket: u32, n: nat)
    | Write(e: int, ticket: u32, n: nat)
    | BumpHead(e: int, ticket: u32, n: nat)
    | Read(ticket: u32, n: nat)
    | BumpTail(v: int, ticket: u32, n: nat)
    | Release(result: Result, ticket: u32, n: nat)

  /**
   * The operations and the threads that called them are in the order of their
   * lock tickets; the results are those of the threads that have unlocked.
   */
  datatype State = State(
    ticket: u32, next: u32, head: u32, tail: u32, cells: seq<int>, threads: seq<Pc>,
    ops: seq<Op>, callers: seq<nat>, results: seq<Result>, first: nat)

  ghost predicate Shape(c: Config, s: State) {
    c.Consistent() && |s.cells| == c.size && |s.threads| < WORD
  }

  ghost predicate Init(c: Config, s: State) {
    && Shape(c, s) && s.ticket == s.next == s.head == s.tail == 0
    && (forall i | 0 <= i < |s.threads| :: s.threads[i] == Idle)
    && s.ops == [] && s.callers == [] && s.results == [] && s.first == 0
  }

  // ----- Steps -----

  predicate Resting(pc: Pc) {
    pc.Idle? || pc.Done?
  }

  function Goto(s: State, i: nat, pc: Pc): State
    requires i < |s.threads|
  {
    s.(threads := s.threads[i := pc])
  }

  /** The test of an operation, with what it decides to do. */
  function Tested(c: Config, s: State, op: Op, ticket: u32, n: nat): Pc {
    match op
    case TryPush(e) =>
      if Sub(s.head, s.tail) < c.size then Write(e, ticket, n) else Release(Answer(false), ticket, n)
    case TryPop => if s.head != s.tail then Read(ticket, n) else Release(Answer(false), ticket, n)
    case WasEmpty => Release(Answer(s.head == s.tail), ticket, n)
    case WasFull => Release(Answer(Sub(s.head, s.tail) == c.size), ticket, n)
  }

  /** What `unlock(ticket)` stores. */
  function Unlock(ticket: u32): u32 {
    Wrap(ticket + 1)
  }

  /** The next access of thread i. A thread that waits for the lock tests `next_` again and again. */
  ghost function Access(c: Config, s: State, i: nat): State
    requires Shape(c, s) && i < |s.threads|
  {
    match s.threads[i]
    case Draw(op) =>
      s.(ticket := Wrap(s.ticket + 1), threads := s.threads[i := Wait(op, s.ticket, |s.ops|)],
         ops := s.ops + [op], callers := s.callers + [i])
    case Wait(op, ticket, n) => if Sub(ticket, s.next) == 0 then Goto(s, i, Test(op, ticket, n)) else s
    case Test(op, ticket, n) => Goto(s, i, Tested(c, s, op, ticket, n))
    case Write(e, ticket, n) => Goto(s, i, BumpHead(e, ticket, n)).(cells := s.cells[Slot(c, s.head) := e])
    case BumpHead(e, ticket, n) => Goto(s, i, Release(Answer(true), ticket, n)).(head := Wrap(s.head + 1))
    case Read(ticket, n) => Goto(s, i, BumpTail(s.cells[Slot(c, s.tail)], ticket, n))
    case BumpTail(v, ticket, n) =>
      Goto(s, i, Release(Element(v), ticket, n)).(tail := Wrap(s.tail + 1), first := s.first + 1)
    case Release(result, ticket, n) =>
      Goto(s, i, Done(result)).(next := Unlock(ticket), results := s.results + [result])
    case _ => s
  }

  ghost predicate BeginStep(s: State, s': State, i: nat, op: Op) {
    i < |s.threads| && Resting(s.threads[i]) && s' == Goto(s, i, Draw(op))
  }

  ghost predicate AccessStep(c: Config, s: State, s': State, i: nat) {
    Shape(c, s) && i < |s.threads| && s' == Access(c, s, i)
  }

  ghost predicate Next(c: Config, s: State, s': State) {
    (exists i, op :: BeginStep(s, s', i, op)) || (exists i :: AccessStep(c, s, s', i))
  }

  ghost predicate Run(c: Config, tr: seq<State>) {
    && |tr| > 0 && Init(c, tr[0])
    && forall k | 0 <= k < |tr| - 1 :: Next(c, tr[k], tr[k + 1])
  }

  // ----- The lock -----

  /** The thread is between locking and unlocking. */
  predicate Inside(pc: Pc) {
    pc.Test? || pc.Write? || pc.BumpHead? || pc.Read? || pc.BumpTail? || pc.Release?
  }

  predicate HasTicket(pc: Pc) {
    pc.Wait? || Inside(pc)
  }

  function TicketHolders(threads: seq<Pc>): nat {
    if threads == [] then 0 else (if HasTicket(threads[0]) then 1 else 0) + TicketHolders(threads[1..])
  }

  lemma {:induction false} TicketHoldersUpdate(threads: seq<Pc>, i: nat, pc: Pc)
    requires i < |threads|
    ensures TicketHolders(threads[i := pc]) + (if HasTicket(threads[i]) then 1 else 0)
         == TicketHolders(threads) + (if HasTicket(pc) then 1 else 0)
    decreases i
  {
    if i == 0 {
      assert threads[i := pc][1..] == threads[1..];
    } else {
      TicketHoldersUpdate(threads[1..], i - 1, pc);
      assert threads[i := pc][1..] == threads[1..][i - 1 := pc];
    }
  }

  lemma {:induction false} TicketHoldersBound(threads: seq<Pc>)
    ensures TicketHolders(threads) <= |threads|
    ensures (forall i | 0 <= i < |threads| :: !HasTicket(threads[i])) ==> TicketHolders(threads) == 0
  {
    if threads != [] {
      TicketHoldersBound(threads[1..]);
    }
  }

  /** Ticket n has not been served yet, and belongs to the thread that drew it. */
  ghost predicate CallerOk(s: State, n: nat) {
    |s.results| <= n < |s.ops| == |s.callers| ==>
      var i := s.callers[n];
      i < |s.threads| && HasTicket(s.threads[i]) && s.threads[i].n == n
  }

  /** A thread inside holds the ticket that is being served. */
  ghost predicate HolderOk(s: State, i: nat)
    requires i < |s.threads|
  {
    var pc := s.threads[i];
    HasTicket(pc) ==>
      && |s.results| <= pc.n < |s.ops| == |s.callers| && s.callers[pc.n] == i && pc.ticket == Wrap(pc.n)
      && (pc.Wait? ==> pc.op == s.ops[pc.n])
      && (Inside(pc) ==> pc.n == |s.results|)
  }

  ghost predicate LockInv(s: State) {
    && |s.results| <= |s.ops| == |s.callers| && |s.threads| < WORD
    && s.ticket == Wrap(|s.ops|) && s.next == Wrap(|s.results|)
    && TicketHolders(s.threads) == |s.ops| - |s.results|
    && (forall n: nat :: CallerOk(s, n))
    && (forall i | 0 <= i < |s.threads| :: HolderOk(s, i))
  }

  /** The position that a waiting thread computes is the number of unlocks still to come before it may enter. */
  lemma PositionIsDistance(s: State, i: nat)
    requires LockInv(s) && i < |s.threads| && s.threads[i].Wait?
    ensures Sub(s.threads[i].ticket, s.next) == s.threads[i].n - |s.results|
  {
    hide CallerOk;
    TicketHoldersBound(s.threads);
    assert HolderOk(s, i);
    SubOfWraps(s.threads[i].n, |s.results|);
  }

  lemma SubOfWraps(a: nat, b: nat)
    ensures Sub(Wrap(a), Wrap(b)) == Wrap(a - b)
  {
  }

  lemma MutualExclusion(s: State, i: nat, j: nat)
    requires LockInv(s) && i < |s.threads| && j < |s.threads|
    requires Inside(s.threads[i]) && Inside(s.threads[j])
    ensures i == j
  {
    assert HolderOk(s, i) && HolderOk(s, j);
  }

  /** Threads enter in the order of their tickets, each when all earlier ones have left. */
  lemma EntersInTurn(c: Config, s: State, i: nat)
    requires LockInv(s) && Shape(c, s) && i < |s.threads| && s.threads[i].Wait?
    ensures Inside(Access(c, s, i).threads[i]) <==> s.threads[i].n == |s.results|
    ensures Inside(Access(c, s, i).threads[i]) ==>
              forall j | 0 <= j < |s.threads| :: !Inside(s.threads[j])
  {
    hide CallerOk;
    PositionIsDistance(s, i);
    forall j | 0 <= j < |s.threads| && Inside(s.threads[j])
      ensures s.threads[i].n != |s.results|
    {
      assert HolderOk(s, i) && HolderOk(s, j);
    }
  }

  /** While any ticket is unserved, the thread whose turn it is can take a step that changes the state. */
  lemma NeverStuck(c: Config, s: State)
    requires LockInv(s) && Shape(c, s) && |s.results| < |s.ops|
    ensures s.callers[|s.results|] < |s.threads|
    ensures Access(c, s, s.callers[|s.results|]) != s
  {
    assert CallerOk(s, |s.results|);
    var i := s.callers[|s.results|];
    var pc := s.threads[i];
    if pc.Wait? {
      PositionIsDistance(s, i);
    }
    assert Access(c, s, i).threads[i] != pc;
  }

  lemma DrawKeepsLock(c: Config, s: State, i: nat)
    requires LockInv(s) && Shape(c, s) && i < |s.threads| && s.threads[i].Draw?
    ensures LockInv(Access(c, s, i))
  {
    hide Wrap;
    var s' := Access(c, s, i);
    WrapNext(|s.ops|);
    TicketHoldersUpdate(s.threads, i, s'.threads[i]);
    forall n: nat
      ensures CallerOk(s', n)
    {
      assert CallerOk(s, n);
    }
    forall j | 0 <= j < |s'.threads|
      ensures HolderOk(s', j)
    {
      assert HolderOk(s, j);
    }
  }

  /** A thread moves on without leaving the lock or drawing a ticket. */
  lemma MoveKeepsLock(s: State, s': State, i: nat)
    requires LockInv(s) && i < |s.threads| == |s'.threads| && s'.threads == s.threads[i := s'.threads[i]]
    requires s'.ops == s.ops && s'.callers == s.callers && s'.results == s.results
    requires s'.ticket == s.ticket && s'.next == s.next
    requires HasTicket(s'.threads[i]) <==> HasTicket(s.threads[i])
    requires HasTicket(s.threads[i]) ==>
               && s'.threads[i].n == s.threads[i].n && s'.threads[i].ticket == s.threads[i].ticket
               && Inside(s'.threads[i]) && s.threads[i].n == |s.results|
    ensures LockInv(s')
  {
    hide Wrap;
    TicketHoldersUpdate(s.threads, i, s'.threads[i]);
    forall n: nat
      ensures CallerOk(s', n)
    {
      assert CallerOk(s, n);
    }
    forall j | 0 <= j < |s'.threads|
      ensures HolderOk(s', j)
    {
      assert HolderOk(s, j);
    }
  }

  lemma ReleaseKeepsLock(c: Config, s: State, i: nat)
    requires LockInv(s) && Shape(c, s) && i < |s.threads| && s.threads[i].Release?
    ensures LockInv(Access(c, s, i)) && |s.results| < |s.ops| && s.callers[|s.results|] == i
  {
    hide Wrap;
    var s' := Access(c, s, i);
    assert HolderOk(s, i);
    WrapNext(|s.results|);
    TicketHoldersUpdate(s.threads, i, s'.threads[i]);
    forall n: nat
      ensures CallerOk(s', n)
    {
      assert CallerOk(s, n);
    }
    forall j | 0 <= j < |s'.threads|
      ensures HolderOk(s', j)
    {
      assert HolderOk(s, j);
      if HasTicket(s'.threads[j]) {
        assert j != i && s.threads[j].n != |s.results|;
      }
    }
  }

  // ----- The queue -----

  /** The thread whose turn it is, if a ticket is unserved. */
  function Current(s: State): Pc {
    var n := |s.results|;
    if n < |s.callers| && s.callers[n] < |s.threads| then s.threads[s.callers[n]] else Idle
  }

  ghost predicate Memory(c: Config, s: State, q: seq<int>) {
    Represents(c, s.cells, s.first, q) && s.head == Wrap(s.first + |q|) && s.tail == Wrap(s.first)
  }

  /** What is in memory while the lock is at the given place, for a queue q before operation op. */
  ghost predicate PlaceOk(c: Config, s: State, pc: Pc, q: seq<int>, op: Op) {
    match pc
    case Test(op', _, _) => Memory(c, s, q) && op' == op
    case Write(e, _, _) => Memory(c, s, q) && op == TryPush(e) && |q| < c.size
    case BumpHead(e, _, _) =>
      && Represents(c, s.cells, s.first, q + [e]) && s.head == Wrap(s.first + |q|) && s.tail == Wrap(s.first)
      && op == TryPush(e) && |q| < c.size
    case Read(_, _) => Memory(c, s, q) && op == TryPop && q != []
    case BumpTail(v, _, _) => Memory(c, s, q) && op == TryPop && q != [] && v == q[0]
    case Release(result, _, _) => Memory(c, s, Perform(c.size, q, op).q) && result == Perform(c.size, q, op).result
    case _ => Memory(c, s, q)
  }

  /** The queue after the operations that have been served. */
  ghost function Served(c: Config, s: State): seq<int>
    requires |s.results| <= |s.ops|
  {
    After(c.size, s.ops[..|s.results|])
  }

  ghost predicate QueueInv(c: Config, s: State)
    requires LockInv(s)
  {
    if |s.results| < |s.ops| then PlaceOk(c, s, Current(s), Served(c, s), s.ops[|s.results|])
    else Memory(c, s, Served(c, s))
  }

  ghost predicate ResultsOk(c: Config, s: State) {
    |s.results| <= |s.ops| && forall n | 0 <= n < |s.results| :: s.results[n] == ResultOf(c.size, s.ops, n)
  }

  ghost predicate Inv(c: Config, s: State) {
    Shape(c, s) && LockInv(s) && QueueInv(c, s) && ResultsOk(c, s)
  }

  /** The test of an operation inside the lock decides right. */
  lemma TestDecides(c: Config, s: State, q: seq<int>, op: Op, ticket: u32, n: nat)
    requires Memory(c, s, q)
    ensures PlaceOk(c, s, Tested(c, s, op, ticket, n), q, op)
  {
    hide Wrap, Sub, InSlot;
    UnsignedTests(c.size, s.first, |q|);
  }

  lemma SectionStep(c: Config, s: State, i: nat, q: seq<int>, op: Op)
    requires Shape(c, s) && i < |s.threads| && Inside(s.threads[i]) && !s.threads[i].Release?
    requires PlaceOk(c, s, s.threads[i], q, op)
    ensures PlaceOk(c, Access(c, s, i), Access(c, s, i).threads[i], q, op)
  {
    hide Wrap, Sub, InSlot;
    var s' := Access(c, s, i);
    match s.threads[i]
    case Test(_, ticket, n) => TestDecides(c, s, q, op, ticket, n);
    case Write(e, _, _) =>
      assert s.head == Wrap(s.first + |q|);
      RepresentsWrite(c, s.cells, s.first, q, e);
    case BumpHead(e, _, _) => WrapNext(s.first + |q|);
    case Read(_, _) => RepresentsRest(c, s.cells, s.first, q);
    case BumpTail(_, _, _) =>
      WrapNext(s.first);
      RepresentsRest(c, s.cells, s.first, q);
      assert s'.first + |q[1..]| == s.first + |q|;
  }

  lemma SectionKeepsInv(c: Config, s: State, i: nat)
    requires Inv(c, s) && i < |s.threads| && Inside(s.threads[i]) && !s.threads[i].Release?
    ensures Inv(c, Access(c, s, i))
  {
    hide Wrap, Sub, PlaceOk, Tested, CallerOk;
    var s' := Access(c, s, i);
    assert HolderOk(s, i);
    if s.threads[i].Test? {
      TestedKeepsTicket(c, s, i);
    }
    MoveKeepsLock(s, s', i);
    SectionStep(c, s, i, Served(c, s), s.ops[|s.results|]);
  }

  lemma TestedKeepsTicket(c: Config, s: State, i: nat)
    requires Shape(c, s) && i < |s.threads| && s.threads[i].Test?
    ensures var pc := Tested(c, s, s.threads[i].op, s.threads[i].ticket, s.threads[i].n);
            Inside(pc) && pc.n == s.threads[i].n && pc.ticket == s.threads[i].ticket
  {
  }

  /** Nothing in memory changes, nor does the place of the thread whose turn it is. */
  lemma SameQueue(c: Config, s: State, s': State)
    requires Inv(c, s) && LockInv(s') && s'.results == s.results && s'.ops == s.ops && s'.callers == s.callers
    requires s'.head == s.head && s'.tail == s.tail && s'.cells == s.cells && s'.first == s.first
    requires |s.results| < |s.ops| ==>
               || Current(s') == Current(s)
               || (Current(s).Wait? && Current(s').Test? && Current(s').op == s.ops[|s.results|])
    ensures QueueInv(c, s') && ResultsOk(c, s')
  {
    hide Represents, CallerOk, HolderOk;
  }

  lemma OutsideKeepsInv(c: Config, s: State, i: nat, pc: Pc)
    requires Inv(c, s) && i < |s.threads| && !HasTicket(s.threads[i]) && !HasTicket(pc)
    ensures Inv(c, Goto(s, i, pc))
  {
    hide QueueInv, HolderOk;
    MoveKeepsLock(s, Goto(s, i, pc), i);
    if |s.results| < |s.ops| {
      assert CallerOk(s, |s.results|);
    }
    SameQueue(c, s, Goto(s, i, pc));
  }

  lemma EnterKeepsInv(c: Config, s: State, i: nat)
    requires Inv(c, s) && i < |s.threads| && s.threads[i].Wait?
    ensures Inv(c, Access(c, s, i))
  {
    hide QueueInv, CallerOk, PlaceOk, ResultsOk;
    PositionIsDistance(s, i);
    assert HolderOk(s, i);
    if s.threads[i].n == |s.results| {
      MoveKeepsLock(s, Access(c, s, i), i);
      SameQueue(c, s, Access(c, s, i));
    }
  }

  lemma DrawKeepsInv(c: Config, s: State, i: nat)
    requires Inv(c, s) && i < |s.threads| && s.threads[i].Draw?
    ensures Inv(c, Access(c, s, i))
  {
    hide CallerOk, HolderOk, Represents, Wrap;
    var s' := Access(c, s, i);
    DrawKeepsLock(c, s, i);
    assert s'.ops[..|s.results|] == s.ops[..|s.results|];
    if |s.results| < |s.ops| {
      assert CallerOk(s, |s.results|) && Current(s') == Current(s) by {
        CurrentIsCaller(s);
      }
    }
    forall n | 0 <= n < |s.results|
      ensures s'.results[n] == ResultOf(c.size, s'.ops, n)
    {
      assert s'.ops[..n] == s.ops[..n];
    }
  }

  lemma CurrentIsCaller(s: State)
    requires LockInv(s) && |s.results| < |s.ops|
    ensures CallerOk(s, |s.results|) && HasTicket(Current(s)) && s.callers[|s.results|] < |s.threads|
    ensures s.threads[s.callers[|s.results|]] == Current(s)
  {
    assert CallerOk(s, |s.results|);
  }

  lemma ReleaseKeepsInv(c: Config, s: State, i: nat)
    requires Inv(c, s) && i < |s.threads| && s.threads[i].Release?
    ensures Inv(c, Access(c, s, i))
    ensures |s.results| < |s.ops| && s.threads[i].result == ResultOf(c.size, s.ops, |s.results|)
  {
    hide Represents, Wrap, Perform;
    var s' := Access(c, s, i);
    ReleaseKeepsLock(c, s, i);
    AfterNext(c.size, s.ops, |s.results|);
    if |s'.results| < |s.ops| {
      CurrentIsCaller(s');
      assert HolderOk(s', s'.callers[|s'.results|]);
      NotInsideAfterRelease(c, s, i);
    }
  }

  lemma NotInsideAfterRelease(c: Config, s: State, i: nat)
    requires LockInv(s) && Shape(c, s) && i < |s.threads| && s.threads[i].Release?
    ensures forall j | 0 <= j < |s.threads| :: !Inside(Access(c, s, i).threads[j])
  {
    forall j | 0 <= j < |s.threads| && j != i
      ensures !Inside(s.threads[j])
    {
      if Inside(s.threads[j]) {
        MutualExclusion(s, i, j);
      }
    }
  }

  lemma NextKeepsInv(c: Config, s: State, s': State)
    requires Inv(c, s) && Next(c, s, s')
    ensures Inv(c, s')
  {
    hide Inv, Wrap, Sub, Tested;
    if i: nat, op: Op :| BeginStep(s, s', i, op) {
      OutsideKeepsInv(c, s, i, Draw(op));
    } else {
      var i: nat :| AccessStep(c, s, s', i);
      if s.threads[i].Draw? {
        DrawKeepsInv(c, s, i);
      } else if s.threads[i].Wait? {
        EnterKeepsInv(c, s, i);
      } else if s.threads[i].Release? {
        ReleaseKeepsInv(c, s, i);
      } else if Inside(s.threads[i]) {
        SectionKeepsInv(c, s, i);
      }
    }
  }

  lemma {:induction false} RunInv(c: Config, tr: seq<State>, k: nat)
    requires Run(c, tr) && k < |tr|
    ensures Inv(c, tr[k])
  {
    if k == 0 {
      TicketHoldersBound(tr[0].threads);
    } else {
      RunInv(c, tr, k - 1);
      assert Next(c, tr[k - 1], tr[k - 1 + 1]);
      NextKeepsInv(c, tr[k - 1], tr[k]);
    }
  }

  /**
   * In every run, at every moment: the results returned so far are those of a
   * sequential bounded queue that performs the operations in the order of the
   * lock tickets, and so is the one that a thread about to unlock will return;
   * at most one thread is inside the lock.
   */
  lemma RunIsSerial(c: Config, tr: seq<State>, k: nat)
    requires Run(c, tr) && k < |tr|
    ensures var s := tr[k];
            && |s.results| <= |s.ops| == |s.callers|
            && (forall n | 0 <= n < |s.results| :: s.results[n] == ResultOf(c.size, s.ops, n))
            && (forall i | 0 <= i < |s.threads| && s.threads[i].Release? ::
                  |s.results| < |s.ops| && s.callers[|s.results|] == i
                  && s.threads[i].result == ResultOf(c.size, s.ops, |s.results|))
            && (forall i, j | 0 <= i < j < |s.threads| :: !Inside(s.threads[i]) || !Inside(s.threads[j]))
  {
    hide QueueInv, CallerOk, HolderOk;
    RunInv(c, tr, k);
    var s := tr[k];
    forall i | 0 <= i < |s.threads| && s.threads[i].Release?
      ensures |s.results| < |s.ops| && s.callers[|s.results|] == i
      ensures s.threads[i].result == ResultOf(c.size, s.ops, |s.results|)
    {
      ReleaseKeepsLock(c, s, i);
      ReleaseKeepsInv(c, s, i);
    }
    forall i, j | 0 <= i < j < |s.threads|
      ensures !Inside(s.threads[i]) || !Inside(s.threads[j])
    {
      if Inside(s.threads[i]) && Inside(s.threads[j]) {
        MutualExclusion(s, i, j);
      }
    }
  }

  // ----- Answers -----

  predicate Busy(s: State, i: nat) {
    i < |s.threads| && !Resting(s.threads[i])
  }

  /** In step b, thread i has called op, and up to state k it has not returned. */
  ghost predicate InCall(tr: seq<State>, b: nat, k: nat, i: nat, op: Op) {
    && b < k < |tr| && BeginStep(tr[b], tr[b + 1], i, op)
    && forall j | b < j <= k :: Busy(tr[j], i)
  }

  /** Any thread at rest may call any operation. */
  lemma MayCall(s: State, i: nat, op: Op)
    requires i < |s.threads| && Resting(s.threads[i])
    ensures exists s' :: BeginStep(s, s', i, op)
  {
    assert BeginStep(s, Goto(s, i, Draw(op)), i, op);
  }

  /** It has drawn its ticket in this call, if it has one, and the ticket is for its operation. */
  ghost predicate PcOfCall(start: State, s: State, i: nat, op: Op) {
    && i < |s.threads|
    && var pc := s.threads[i];
       || pc == Draw(op)
       || (HasTicket(pc) && |start.ops| <= pc.n < |s.ops| && s.ops[pc.n] == op)
  }

  /** Only thread i moves, and no operation is forgotten. */
  ghost predicate OnlyMoves(s: State, s': State, i: nat) {
    && i < |s.threads| == |s'.threads| && s.ops <= s'.ops
    && forall j | 0 <= j < |s.threads| && j != i :: s'.threads[j] == s.threads[j]
  }

  ghost predicate Calls(s: State, s': State, i: nat) {
    exists op :: BeginStep(s, s', i, op)
  }

  lemma AccessMoves(c: Config, s: State, i: nat)
    requires Shape(c, s) && i < |s.threads|
    ensures OnlyMoves(s, Access(c, s, i), i)
    ensures Resting(s.threads[i]) ==> Access(c, s, i) == s
  {
    hide Wrap, Sub;
  }

  /** A step is a call by a thread at rest, or an access by one in a call. */
  lemma StepMoves(c: Config, s: State, s': State) returns (i: nat)
    requires Next(c, s, s')
    ensures OnlyMoves(s, s', i)
    ensures if Busy(s, i) then AccessStep(c, s, s', i) else s' == s || (Busy(s', i) && Calls(s, s', i))
  {
    hide Access;
    if b: nat, op: Op :| BeginStep(s, s', b, op) {
      i := b;
    } else {
      i :| AccessStep(c, s, s', i);
      AccessMoves(c, s, i);
    }
  }

  /** The access of thread i in a call of op returns the result of that operation, in its turn. */
  ghost predicate ReturnsResult(c: Config, start: State, s: State, s': State, i: nat, op: Op) {
    && i < |s'.threads| && |s.results| < |s.ops| == |s.callers|
    && var n := |s.results|; var result := ResultOf(c.size, s.ops, n);
       && |start.ops| <= n && s.ops[n] == op && s.callers[n] == i
       && s'.threads[i] == Done(result) && s'.results == s.results + [result]
  }

  lemma AccessInCall(c: Config, start: State, s: State, i: nat, op: Op)
    requires Inv(c, s) && Busy(s, i) && PcOfCall(start, s, i, op) && |start.ops| <= |s.ops|
    ensures var s' := Access(c, s, i);
            if Busy(s', i) then PcOfCall(start, s', i, op) else ReturnsResult(c, start, s, s', i, op)
  {
    hide Wrap, Sub, QueueInv, CallerOk;
    assert HolderOk(s, i);
    if s.threads[i].Release? {
      ReleaseKeepsLock(c, s, i);
      ReleaseKeepsInv(c, s, i);
    } else if s.threads[i].Test? {
      TestedKeepsTicket(c, s, i);
    }
  }

  lemma CallStep(c: Config, start: State, s: State, s': State, i: nat, op: Op)
    requires Inv(c, s) && Next(c, s, s') && Busy(s, i) && PcOfCall(start, s, i, op) && start.ops <= s.ops
    ensures start.ops <= s'.ops
    ensures if Busy(s', i) then PcOfCall(start, s', i, op) else ReturnsResult(c, start, s, s', i, op)
  {
    hide Next, Inv, Access, ReturnsResult;
    var j := StepMoves(c, s, s');
    if j == i {
      AccessInCall(c, start, s, i, op);
    }
  }

  lemma CallStart(s: State, s': State, i: nat, op: Op)
    requires BeginStep(s, s', i, op)
    ensures PcOfCall(s, s', i, op) && s.ops <= s'.ops
  {
  }

  lemma {:induction false} CallPath(c: Config, tr: seq<State>, b: nat, k: nat, i: nat, op: Op)
    requires Run(c, tr) && InCall(tr, b, k, i, op)
    ensures PcOfCall(tr[b], tr[k], i, op) && tr[b].ops <= tr[k].ops
    decreases k
  {
    hide Next, Inv, PcOfCall, BeginStep;
    if k == b + 1 {
      CallStart(tr[b], tr[k], i, op);
    } else {
      CallPath(c, tr, b, k - 1, i, op);
      RunInv(c, tr, k - 1);
      assert Next(c, tr[k - 1], tr[k - 1 + 1]) && Busy(tr[k - 1], i) && Busy(tr[k], i);
      CallStep(c, tr[b], tr[k - 1], tr[k], i, op);
    }
  }

  /**
   * In every run, what a call returns is the result of its own operation in the
   * sequential queue, at the place of a lock ticket that was drawn during the
   * call: the order of the tickets respects that of the calls.
   */
  lemma CallIsAnswered(c: Config, tr: seq<State>, b: nat, k: nat, i: nat, op: Op)
    requires Run(c, tr) && InCall(tr, b, k, i, op) && k + 1 < |tr| && !Busy(tr[k + 1], i)
    ensures ReturnsResult(c, tr[b], tr[k], tr[k + 1], i, op)
  {
    hide Next, Inv, PcOfCall, BeginStep, ReturnsResult;
    CallPath(c, tr, b, k, i, op);
    RunInv(c, tr, k);
    assert Next(c, tr[k], tr[k + 1]) && Busy(tr[k], i);
    CallStep(c, tr[b], tr[k], tr[k + 1], i, op);
  }

  /** Whoever is in a call has begun it. */
  lemma {:induction false} CallBegan(c: Config, tr: seq<State>, k: nat, i: nat) returns (b: nat, op: Op)
    requires Run(c, tr) && k < |tr| && Busy(tr[k], i)
    ensures InCall(tr, b, k, i, op)
    decreases k
  {
    hide Next, BeginStep, AccessStep;
    if k > 0 {
      assert Next(c, tr[k - 1], tr[k - 1 + 1]);
      var j := StepMoves(c, tr[k - 1], tr[k]);
      if Busy(tr[k - 1], i) {
        b, op := CallBegan(c, tr, k - 1, i);
      } else {
        assert j == i && Calls(tr[k - 1], tr[k], i);
        b := k - 1;
        op :| BeginStep(tr[k - 1], tr[k], i, op);
      }
    }
  }

  /** In every run, every return answers the call that the thread last began. */
  lemma ReturnIsAnswer(c: Config, tr: seq<State>, k: nat, i: nat) returns (b: nat, op: Op)
    requires Run(c, tr) && k + 1 < |tr| && Busy(tr[k], i) && !Busy(tr[k + 1], i)
    ensures InCall(tr, b, k, i, op) && ReturnsResult(c, tr[b], tr[k], tr[k + 1], i, op)
  {
    hide Run, InCall, ReturnsResult;
    b, op := CallBegan(c, tr, k, i);
    CallIsAnswered(c, tr, b, k, i, op);
  }

  /** And a thread at rest keeps its result until it calls the next operation. */
  lemma ResultStays(c: Config, tr: seq<State>, k: nat, i: nat)
    requires Run(c, tr) && k + 1 < |tr| && i < |tr[k].threads| && Resting(tr[k].threads[i])
    ensures |tr[k + 1].threads| == |tr[k].threads|
    ensures tr[k + 1].threads[i] == tr[k].threads[i] || (Busy(tr[k + 1], i) && Calls(tr[k], tr[k + 1], i))
  {
    hide Next, BeginStep, AccessStep;
    assert Next(c, tr[k], tr[k + 1]);
    var j := StepMoves(c, tr[k], tr[k + 1]);
  }

  // ----- Waiting and unlocking -----

  /** The loop `do spin_loop_pause(); while(--position);` pauses as often as the position says. */
  method BackOff(position: u32) returns (pauses: nat)
    ensures pauses == if position == 0 then WORD else position
  {
    var left := Wrap(position - 1);
    pauses := 1;
    while left != 0
      invariant pauses + left == if position == 0 then WORD else position
    {
      left := Wrap(left - 1);
      pauses := pauses + 1;
    }
  }

  /** What `unlock()` stores: it passes the word after the one being served. */
  function UnlockWithoutTicket(next: u32): u32 {
    Unlock(Wrap(next + 1))
  }

  /**
   * When the holder of ticket n unlocks without its ticket, the thread with
   * ticket n + 2 may enter, and the one with ticket n + 1 is passed over:
   * after k further unlocks with their tickets, it may enter if and only if
   * k + 1 is a multiple of 2^32.
   */
  lemma UnlockWithoutTicketStrands(n: nat, k: nat)
    ensures UnlockWithoutTicket(Wrap(n)) == Wrap(n + 2)
    ensures Sub(Wrap(n + 2), UnlockWithoutTicket(Wrap(n))) == 0
    ensures Sub(Wrap(n + 1), UnlockWithoutTicket(Wrap(n))) == WORD - 1
    ensures Sub(Wrap(n + 1), Wrap(n + 2 + k)) == 0 <==> (k + 1) % WORD == 0
  {
    hide Wrap, Sub;
    WrapNext(n);
    WrapNext(n + 1);
    WrapOfSmall();
    SubOfWraps(n + 2, n + 2);
    SubOfWraps(n + 1, n + 2);
    SubOfWraps(n + 1, n + 2 + k);
    WrapOfNegative(k + 1);
  }

  lemma WrapOfSmall()
    ensures Wrap(0) == 0 && Wrap(-1) == WORD - 1
  {
  }

  lemma WrapOfNegative(m: int)
    ensures Wrap(-m) == 0 <==> m % WORD == 0
  {
  }
}
