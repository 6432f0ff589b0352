/**
 * The protocol of `AtomicQueue` in its multiple-producer-multiple-consumer
 * mode: any number of threads, one atomic access per step, in any order.
 *
 * The fields of a state below `threads` are history. No step looks at them.
 */
module Protocol {
  import opened Words
  import opened SlotMap

  datatype Op = Push(e: int) | TryPush(e: int) | Pop | TryPop

  datatype Result = Pushed | Full | Popped(v: int) | Empty

  /**
   * Where a thread is, with its local variables. Loaded indexes come with the
   * unbounded counter whose word they hold, and claimed ones with the ticket.
   */
  datatype Pc =
    | Idle
    | Done(result: Result)
    | PushClaim(e: int)
    | TryPushLoad(e: int)
    | TryPushCheck(e: int, head: u32, seenHead: nat)
    | TryPushClaim(e: int, head: u32, seenHead: nat, seenTail: nat)
    | Put(e: int, head: u32, ticket: nat)
    | PopClaim
    | TryPopLoad
    | TryPopCheck(tail: u32, seenTail: nat)
    | TryPopClaim(tail: u32, seenTail: nat, seenHead: nat)
    | Take(tail: u32, ticket: nat)

  /** A completed store: value, ticket, and how many producer tickets had been issued when it happened. */
  datatype Entry = Entry(v: int, ticket: nat, issued: nat)

  /** A completed take. */
  datatype Exit = Exit(v: int, ticket: nat)

  datatype State = State(
    head: u32, tail: u32, cells: seq<int>, threads: seq<Pc>,
    pushes: nat, pops: nat, stored: seq<seq<Entry>>, taken: seq<seq<Exit>>)

  ghost predicate Shape(c: Config, s: State) {
    c.Valid() && |s.cells| == |s.stored| == |s.taken| == c.size
  }

  ghost predicate Init(c: Config, s: State) {
    && c.Valid()
    && s == State(0, 0, seq(c.size, _ => c.nil), s.threads, 0, 0, seq(c.size, _ => []), seq(c.size, _ => []))
    && forall i | 0 <= i < |s.threads| :: s.threads[i] == Idle
  }

  // ----- Steps -----

  predicate Resting(pc: Pc) {
    pc.Idle? || pc.Done?
  }

  function Start(op: Op): Pc {
    match op
    case Push(e) => PushClaim(e)
    case TryPush(e) => TryPushLoad(e)
    case Pop => PopClaim
    case TryPop => TryPopLoad
  }

  /** A resting thread calls an operation, with an element that is not the reserved one. */
  predicate CanBegin(c: Config, s: State, i: nat, op: Op) {
    && i < |s.threads| && Resting(s.threads[i])
    && (op.Push? || op.TryPush? ==> op.e != c.nil)
  }

  function Begin(s: State, i: nat, op: Op): State
    requires i < |s.threads|
  {
    Goto(s, i, Start(op))
  }

  function Goto(s: State, i: nat, pc: Pc): State
    requires i < |s.threads|
  {
    s.(threads := s.threads[i := pc])
  }

  /** A relaxed load may return the value of an index some number of increments ago. */
  function HeadSeen(s: State, lag: nat): u32 {
    if lag == 0 then s.head else Wrap(s.pushes - lag)
  }

  function TailSeen(s: State, lag: nat): u32 {
    if lag == 0 then s.tail else Wrap(s.pops - lag)
  }

  predicate LoadsHead(pc: Pc) {
    pc.TryPushLoad? || pc.TryPushClaim? || pc.TryPopCheck?
  }

  predicate LoadsTail(pc: Pc) {
    pc.TryPopLoad? || pc.TryPopClaim? || pc.TryPushCheck?
  }

  ghost predicate CanAccess(c: Config, s: State, i: nat, lag: nat) {
    && Shape(c, s) && i < |s.threads| && !Resting(s.threads[i])
    && (LoadsHead(s.threads[i]) ==> lag <= s.pushes)
    && (LoadsTail(s.threads[i]) ==> lag <= s.pops)
  }

  /**
   * The next atomic access of thread i. A load returns the value from `lag`
   * increments ago; `weak` lets a `compare_exchange_weak` fail for no reason.
   */
  ghost function Access(c: Config, s: State, i: nat, lag: nat, weak: bool): State
    requires CanAccess(c, s, i, lag)
  {
    match s.threads[i]
    case PushClaim(e) => ClaimPush(s, i, e)
    case TryPushLoad(e) => Goto(s, i, TryPushCheck(e, HeadSeen(s, lag), s.pushes - lag))
    case TryPushCheck(e, head, seenHead) =>
      if LooksFull(head, TailSeen(s, lag), c.size) then Goto(s, i, Done(Full))
      else Goto(s, i, TryPushClaim(e, head, seenHead, s.pops - lag))
    case TryPushClaim(e, head, _, _) =>
      if !weak && s.head == head then ClaimPush(s, i, e)
      else Goto(s, i, TryPushCheck(e, HeadSeen(s, lag), s.pushes - lag))
    case Put(e, head, ticket) =>
      if !weak && s.cells[Slot(c, head)] == c.nil then Store(c, s, i, e, head, ticket) else s
    case PopClaim => ClaimPop(s, i)
    case TryPopLoad => Goto(s, i, TryPopCheck(TailSeen(s, lag), s.pops - lag))
    case TryPopCheck(tail, seenTail) =>
      if LooksEmpty(HeadSeen(s, lag), tail) then Goto(s, i, Done(Empty))
      else Goto(s, i, TryPopClaim(tail, seenTail, s.pushes - lag))
    case TryPopClaim(tail, _, _) =>
      if !weak && s.tail == tail then ClaimPop(s, i)
      else Goto(s, i, TryPopCheck(TailSeen(s, lag), s.pops - lag))
    case Take(tail, ticket) =>
      if s.cells[Slot(c, tail)] != c.nil then Remove(c, s, i, tail, ticket) else s
    case _ => s
  }

  /** `head_` is incremented, and the thread owns the ticket. */
  function ClaimPush(s: State, i: nat, e: int): State
    requires i < |s.threads|
  {
    s.(head := Wrap(s.head + 1), pushes := s.pushes + 1, threads := s.threads[i := Put(e, s.head, s.pushes)])
  }

  function ClaimPop(s: State, i: nat): State
    requires i < |s.threads|
  {
    s.(tail := Wrap(s.tail + 1), pops := s.pops + 1, threads := s.threads[i := Take(s.tail, s.pops)])
  }

  /** The compare-and-exchange of an empty slot succeeds. */
  ghost function Store(c: Config, s: State, i: nat, e: int, head: u32, ticket: nat): State
    requires Shape(c, s) && i < |s.threads|
  {
    var r := Slot(c, head);
    s.(cells := s.cells[r := e], threads := s.threads[i := Done(Pushed)],
       stored := s.stored[r := s.stored[r] + [Entry(e, ticket, s.pushes)]])
  }

  /** The exchange of a slot yields its element, and leaves it empty. */
  ghost function Remove(c: Config, s: State, i: nat, tail: u32, ticket: nat): State
    requires Shape(c, s) && i < |s.threads|
  {
    var r := Slot(c, tail);
    s.(cells := s.cells[r := c.nil], threads := s.threads[i := Done(Popped(s.cells[r]))],
       taken := s.taken[r := s.taken[r] + [Exit(s.cells[r], ticket)]])
  }

  ghost predicate BeginStep(c: Config, s: State, s': State, i: nat, op: Op) {
    CanBegin(c, s, i, op) && s' == Begin(s, i, op)
  }

  ghost predicate AccessStep(c: Config, s: State, s': State, i: nat, lag: nat, weak: bool) {
    CanAccess(c, s, i, lag) && s' == Access(c, s, i, lag, weak)
  }

  ghost predicate Next(c: Config, s: State, s': State) {
    || (exists i, op :: BeginStep(c, s, s', i, op))
    || (exists i, lag, weak :: AccessStep(c, s, s', i, lag, weak))
  }

  /** A run, as the sequence of the states it goes through. */
  ghost predicate Run(c: Config, tr: seq<State>) {
    && |tr| > 0 && Init(c, tr[0])
    && forall k | 0 <= k < |tr| - 1 :: Next(c, tr[k], tr[k + 1])
  }

  // ----- Pending claims -----

  datatype Side = Producers | Consumers

  /** A thread of the given side holds a ticket for slot r that it has not used yet. */
  predicate HoldsSlot(c: Config, pc: Pc, side: Side, r: nat) {
    match side
    case Producers => pc.Put? && Slot(c, pc.head) == r
    case Consumers => pc.Take? && Slot(c, pc.tail) == r
  }

  ghost function Pending(c: Config, threads: seq<Pc>, side: Side, r: nat): nat {
    if threads == [] then 0
    else (if HoldsSlot(c, threads[0], side, r) then 1 else 0) + Pending(c, threads[1..], side, r)
  }

  lemma {:induction false} PendingUpdate(c: Config, threads: seq<Pc>, i: nat, pc: Pc, side: Side, r: nat)
    requires i < |threads|
    ensures Pending(c, threads[i := pc], side, r) + (if HoldsSlot(c, threads[i], side, r) then 1 else 0)
         == Pending(c, threads, side, r) + (if HoldsSlot(c, pc, side, r) then 1 else 0)
    decreases i
  {
    if i == 0 {
      assert threads[i := pc][1..] == threads[1..];
    } else {
      PendingUpdate(c, threads[1..], i - 1, pc, side, r);
      assert threads[i := pc][1..] == threads[1..][i - 1 := pc];
    }
  }

  lemma {:induction false} PendingHolder(c: Config, threads: seq<Pc>, side: Side, r: nat)
    ensures Pending(c, threads, side, r) > 0
       <==> exists i :: 0 <= i < |threads| && HoldsSlot(c, threads[i], side, r)
  {
    if threads != [] {
      PendingHolder(c, threads[1..], side, r);
      if i :| 0 <= i < |threads| && HoldsSlot(c, threads[i], side, r) {
        assert i > 0 ==> HoldsSlot(c, threads[1..][i - 1], side, r);
      }
      if i :| 0 <= i < |threads[1..]| && HoldsSlot(c, threads[1..][i], side, r) {
        assert HoldsSlot(c, threads[i + 1], side, r);
      }
    }
  }

  // ----- The invariant -----

  /** What a thread's local variables say about the counters. */
  ghost predicate PcOk(c: Config, pc: Pc, pushes: nat, pops: nat)
    requires c.Valid()
  {
    match pc
    case PushClaim(e) => e != c.nil
    case TryPushLoad(e) => e != c.nil
    case TryPushCheck(e, head, seenHead) => e != c.nil && head == Wrap(seenHead) && seenHead <= pushes
    case TryPushClaim(e, head, seenHead, seenTail) =>
      e != c.nil && head == Wrap(seenHead) && seenHead <= pushes && seenTail <= pops
      && !LooksFull(head, Wrap(seenTail), c.size)
    case Put(e, head, ticket) => e != c.nil && head == Wrap(ticket) && ticket < pushes
    case TryPopCheck(tail, seenTail) => tail == Wrap(seenTail) && seenTail <= pops
    case TryPopClaim(tail, seenTail, seenHead) =>
      tail == Wrap(seenTail) && seenTail <= pops && seenHead <= pushes && !LooksEmpty(Wrap(seenHead), tail)
    case Take(tail, ticket) => tail == Wrap(ticket) && ticket < pops
    case _ => true
  }

  /** The history of one slot: takes follow stores, in the same order, and the cell is what is between them. */
  predicate LogsOk(nil: int, cell: int, stored: seq<Entry>, taken: seq<Exit>) {
    && |taken| <= |stored| <= |taken| + 1
    && cell == (if |stored| == |taken| then nil else stored[|taken|].v)
    && (forall k | 0 <= k < |stored| :: stored[k].v != nil)
    && (forall k | 0 <= k < |taken| :: taken[k].v == stored[k].v)
  }

  /** Every ticket of a slot has been used, or is held by one thread. */
  ghost predicate TicketsOk(c: Config, s: State, r: nat)
    requires Shape(c, s) && r < c.size
  {
    && Issued(c, s.pushes, r) == |s.stored[r]| + Pending(c, s.threads, Producers, r)
    && Issued(c, s.pops, r) == |s.taken[r]| + Pending(c, s.threads, Consumers, r)
  }

  /** A store used a ticket that had been issued. */
  ghost predicate IssuesOk(c: Config, s: State, r: nat)
    requires Shape(c, s) && r < c.size
  {
    forall k | 0 <= k < |s.stored[r]| ::
      s.stored[r][k].issued <= s.pushes && Issued(c, s.stored[r][k].issued, r) > k
  }

  ghost predicate SlotOk(c: Config, s: State, r: nat)
    requires Shape(c, s) && r < c.size
  {
    && LogsOk(c.nil, s.cells[r], s.stored[r], s.taken[r])
    && TicketsOk(c, s, r)
    && IssuesOk(c, s, r)
  }

  ghost predicate Inv(c: Config, s: State) {
    && Shape(c, s)
    && s.head == Wrap(s.pushes) && s.tail == Wrap(s.pops)
    && (forall i | 0 <= i < |s.threads| :: PcOk(c, s.threads[i], s.pushes, s.pops))
    && (forall r | 0 <= r < c.size :: SlotOk(c, s, r))
  }

  lemma {:induction false} NothingPending(c: Config, threads: seq<Pc>, side: Side, r: nat)
    requires forall i | 0 <= i < |threads| :: Resting(threads[i])
    ensures Pending(c, threads, side, r) == 0
  {
    PendingHolder(c, threads, side, r);
  }

  lemma InitInv(c: Config, s: State)
    requires Init(c, s)
    ensures Inv(c, s)
  {
    forall r | 0 <= r < c.size
      ensures SlotOk(c, s, r)
    {
      NothingPending(c, s.threads, Producers, r);
      NothingPending(c, s.threads, Consumers, r);
    }
  }

  /** A step within a thread keeps the claims as they are. */
  lemma GotoKeepsInv(c: Config, s: State, i: nat, pc: Pc)
    requires Inv(c, s) && i < |s.threads|
    requires !s.threads[i].Put? && !s.threads[i].Take? && !pc.Put? && !pc.Take?
    requires PcOk(c, pc, s.pushes, s.pops)
    ensures Inv(c, Goto(s, i, pc))
  {
    hide Wrap;
    forall r | 0 <= r < c.size
      ensures SlotOk(c, Goto(s, i, pc), r)
    {
      assert SlotOk(c, s, r);
      PendingUpdate(c, s.threads, i, pc, Producers, r);
      PendingUpdate(c, s.threads, i, pc, Consumers, r);
    }
  }

  lemma ClaimPushKeepsInv(c: Config, s: State, i: nat, e: int)
    requires Inv(c, s) && i < |s.threads| && e != c.nil
    requires !s.threads[i].Put? && !s.threads[i].Take?
    ensures Inv(c, ClaimPush(s, i, e))
  {
    hide Wrap;
    WrapNext(s.pushes);
    var pc := Put(e, s.head, s.pushes);
    forall r | 0 <= r < c.size
      ensures SlotOk(c, ClaimPush(s, i, e), r)
    {
      assert SlotOk(c, s, r);
      PendingUpdate(c, s.threads, i, pc, Producers, r);
      PendingUpdate(c, s.threads, i, pc, Consumers, r);
      IssuedNext(c, s.pushes, r);
    }
  }

  lemma ClaimPopKeepsInv(c: Config, s: State, i: nat)
    requires Inv(c, s) && i < |s.threads|
    requires !s.threads[i].Put? && !s.threads[i].Take?
    ensures Inv(c, ClaimPop(s, i))
  {
    hide Wrap;
    WrapNext(s.pops);
    var pc := Take(s.tail, s.pops);
    forall r | 0 <= r < c.size
      ensures SlotOk(c, ClaimPop(s, i), r)
    {
      assert SlotOk(c, s, r);
      PendingUpdate(c, s.threads, i, pc, Producers, r);
      PendingUpdate(c, s.threads, i, pc, Consumers, r);
      IssuedNext(c, s.pops, r);
    }
  }

  lemma StoreKeepsInv(c: Config, s: State, i: nat)
    requires Inv(c, s) && i < |s.threads| && s.threads[i].Put?
    requires s.cells[Slot(c, s.threads[i].head)] == c.nil
    ensures Inv(c, Store(c, s, i, s.threads[i].e, s.threads[i].head, s.threads[i].ticket))
  {
    hide Wrap, Issued;
    var Put(e, head, ticket) := s.threads[i];
    var s' := Store(c, s, i, e, head, ticket);
    forall r | 0 <= r < c.size
      ensures SlotOk(c, s', r)
    {
      assert SlotOk(c, s, r);
      PendingUpdate(c, s.threads, i, Done(Pushed), Producers, r);
      PendingUpdate(c, s.threads, i, Done(Pushed), Consumers, r);
    }
  }

  lemma RemoveKeepsInv(c: Config, s: State, i: nat)
    requires Inv(c, s) && i < |s.threads| && s.threads[i].Take?
    requires s.cells[Slot(c, s.threads[i].tail)] != c.nil
    ensures Inv(c, Remove(c, s, i, s.threads[i].tail, s.threads[i].ticket))
  {
    hide Wrap, Issued;
    var Take(tail, ticket) := s.threads[i];
    var s' := Remove(c, s, i, tail, ticket);
    forall r | 0 <= r < c.size
      ensures SlotOk(c, s', r)
    {
      assert SlotOk(c, s, r);
      PendingUpdate(c, s.threads, i, s'.threads[i], Producers, r);
      PendingUpdate(c, s.threads, i, s'.threads[i], Consumers, r);
    }
  }

  lemma AccessKeepsInv(c: Config, s: State, i: nat, lag: nat, weak: bool)
    requires Inv(c, s) && CanAccess(c, s, i, lag)
    ensures Inv(c, Access(c, s, i, lag, weak))
  {
    hide Wrap, SlotOk, LooksFull, LooksEmpty;
    var s' := Access(c, s, i, lag, weak);
    assert PcOk(c, s.threads[i], s.pushes, s.pops);
    match s.threads[i]
    case PushClaim(e) => ClaimPushKeepsInv(c, s, i, e);
    case PopClaim => ClaimPopKeepsInv(c, s, i);
    case Put(e, head, ticket) => if s' != s { StoreKeepsInv(c, s, i); }
    case Take(tail, ticket) => if s' != s { RemoveKeepsInv(c, s, i); }
    case TryPushClaim(e, head, _, _) =>
      if !weak && s.head == head {
        ClaimPushKeepsInv(c, s, i, e);
      } else {
        GotoKeepsInv(c, s, i, s'.threads[i]);
      }
    case TryPopClaim(tail, _, _) =>
      if !weak && s.tail == tail {
        ClaimPopKeepsInv(c, s, i);
      } else {
        GotoKeepsInv(c, s, i, s'.threads[i]);
      }
    case TryPushLoad(_) => GotoKeepsInv(c, s, i, s'.threads[i]);
    case TryPushCheck(_, _, _) => GotoKeepsInv(c, s, i, s'.threads[i]);
    case TryPopLoad => GotoKeepsInv(c, s, i, s'.threads[i]);
    case TryPopCheck(_, _) => GotoKeepsInv(c, s, i, s'.threads[i]);
  }

  lemma NextKeepsInv(c: Config, s: State, s': State)
    requires Inv(c, s) && Next(c, s, s')
    ensures Inv(c, s')
  {
    if i: nat, op: Op :| BeginStep(c, s, s', i, op) {
      GotoKeepsInv(c, s, i, Start(op));
    } else {
      var i: nat, lag: nat, weak: bool :| AccessStep(c, s, s', i, lag, weak);
      AccessKeepsInv(c, s, i, lag, weak);
    }
  }

  /**
   * In every state of every run, for every slot: the cell holds what has been
   * stored there and not yet taken, at most one element; takes yield the
   * elements in the order of the stores; and every ticket issued for the slot
   * has been used or is held by a thread.
   */
  lemma {:induction false} RunInv(c: Config, tr: seq<State>, k: nat)
    requires Run(c, tr) && k < |tr|
    ensures Inv(c, tr[k])
  {
    if k == 0 {
      InitInv(c, tr[0]);
    } else {
      RunInv(c, tr, k - 1);
      assert Next(c, tr[k - 1], tr[k - 1 + 1]);
      NextKeepsInv(c, tr[k - 1], tr[k]);
    }
  }
}
