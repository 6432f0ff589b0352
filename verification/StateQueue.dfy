/** What a slot of non-atomic elements is in. */
module SlotStates {
  datatype SlotState = EMPTY | STORED | STORING | LOADING
}

/**
 * `AtomicQueue2`: elements that are not atomic, each guarded by a state that
 * goes EMPTY, STORING, STORED, LOADING and back to EMPTY. Its steps refine
 * those of `AtomicQueue`: a push takes effect when the state becomes STORED,
 * a pop when it becomes LOADING.
 *
 * There is no history in these states. Loads return the current values.
 */
module StateQueue {
  import opened Words
  import opened SlotMap
  import opened SlotStates
  import Q = Protocol
  import Drain
  import Capacity

  datatype Pc =
    | Idle
    | Done(result: Q.Result)
    | PushClaim(e: int)
    | TryPushLoad(e: int)
    | TryPushCheck(e: int, head: u32)
    | TryPushClaim(e: int, head: u32)
    | PutAcquire(e: int, head: u32)
    | PutWrite(e: int, head: u32)
    | PutRelease(e: int, head: u32)
    | PopClaim
    | TryPopLoad
    | TryPopCheck(tail: u32)
    | TryPopClaim(tail: u32)
    | TakeAcquire(tail: u32)
    | TakeRead(tail: u32)
    | TakeRelease(tail: u32, v: int)

  datatype State = State(head: u32, tail: u32, states: seq<SlotState>, cells: seq<int>, threads: seq<Pc>)

  ghost predicate Shape(c: Config, s: State) {
    c.Valid() && |s.states| == |s.cells| == c.size
  }

  ghost predicate Init(c: Config, s: State) {
    && Shape(c, s) && s.head == 0 && s.tail == 0
    && (forall r | 0 <= r < c.size :: s.states[r] == EMPTY)
    && (forall i | 0 <= i < |s.threads| :: s.threads[i] == Idle)
  }

  predicate Resting(pc: Pc) {
    pc.Idle? || pc.Done?
  }

  function Start(op: Q.Op): Pc {
    match op
    case Push(e) => PushClaim(e)
    case TryPush(e) => TryPushLoad(e)
    case Pop => PopClaim
    case TryPop => TryPopLoad
  }

  function Goto(s: State, i: nat, pc: Pc): State
    requires i < |s.threads|
  {
    s.(threads := s.threads[i := pc])
  }

  function SetState(s: State, i: nat, pc: Pc, r: nat, x: SlotState): State
    requires i < |s.threads| && r < |s.states|
  {
    s.(threads := s.threads[i := pc], states := s.states[r := x])
  }

  ghost predicate CanAccess(c: Config, s: State, i: nat) {
    Shape(c, s) && i < |s.threads| && !Resting(s.threads[i])
  }

  /** The next access of thread i; `weak` lets a `compare_exchange_weak` fail for no reason. */
  ghost function Access(c: Config, s: State, i: nat, weak: bool): State
    requires CanAccess(c, s, i)
  {
    match s.threads[i]
    case PushClaim(e) => ClaimPush(s, i, e)
    case TryPushLoad(e) => Goto(s, i, TryPushCheck(e, s.head))
    case TryPushCheck(e, head) =>
      Goto(s, i, if LooksFull(head, s.tail, c.size) then Done(Q.Full) else TryPushClaim(e, head))
    case TryPushClaim(e, head) =>
      if !weak && s.head == head then ClaimPush(s, i, e) else Goto(s, i, TryPushCheck(e, s.head))
    case PutAcquire(e, head) =>
      if !weak && s.states[Slot(c, head)] == EMPTY then SetState(s, i, PutWrite(e, head), Slot(c, head), STORING) else s
    case PutWrite(e, head) => Goto(s, i, PutRelease(e, head)).(cells := s.cells[Slot(c, head) := e])
    case PutRelease(e, head) => SetState(s, i, Done(Q.Pushed), Slot(c, head), STORED)
    case PopClaim => ClaimPop(s, i)
    case TryPopLoad => Goto(s, i, TryPopCheck(s.tail))
    case TryPopCheck(tail) =>
      Goto(s, i, if LooksEmpty(s.head, tail) then Done(Q.Empty) else TryPopClaim(tail))
    case TryPopClaim(tail) =>
      if !weak && s.tail == tail then ClaimPop(s, i) else Goto(s, i, TryPopCheck(s.tail))
    case TakeAcquire(tail) =>
      if !weak && s.states[Slot(c, tail)] == STORED then SetState(s, i, TakeRead(tail), Slot(c, tail), LOADING) else s
    case TakeRead(tail) => Goto(s, i, TakeRelease(tail, s.cells[Slot(c, tail)]))
    case TakeRelease(tail, v) => SetState(s, i, Done(Q.Popped(v)), Slot(c, tail), EMPTY)
    case _ => s
  }

  function ClaimPush(s: State, i: nat, e: int): State
    requires i < |s.threads|
  {
    s.(head := Wrap(s.head + 1), threads := s.threads[i := PutAcquire(e, s.head)])
  }

  function ClaimPop(s: State, i: nat): State
    requires i < |s.threads|
  {
    s.(tail := Wrap(s.tail + 1), threads := s.threads[i := TakeAcquire(s.tail)])
  }

  ghost predicate BeginStep(s: State, s': State, i: nat, op: Q.Op) {
    i < |s.threads| && Resting(s.threads[i]) && s' == Goto(s, i, Start(op))
  }

  ghost predicate AccessStep(c: Config, s: State, s': State, i: nat, weak: bool) {
    CanAccess(c, s, i) && s' == Access(c, s, i, weak)
  }

  /** A step in which no operation is called with the given value, which the other queue reserves. */
  ghost predicate Next(c: Config, s: State, s': State) {
    || (exists i, op: Q.Op :: BeginStep(s, s', i, op) && (op.Push? || op.TryPush? ==> op.e != c.nil))
    || (exists i, weak :: AccessStep(c, s, s', i, weak))
  }

  ghost predicate Run(c: Config, tr: seq<State>) {
    && |tr| > 0 && Init(c, tr[0])
    && forall k | 0 <= k < |tr| - 1 :: Next(c, tr[k], tr[k + 1])
  }

  // ----- Ownership -----

  /** The thread is between acquiring and releasing a slot. */
  predicate Owns(pc: Pc) {
    pc.PutWrite? || pc.PutRelease? || pc.TakeRead? || pc.TakeRelease?
  }

  predicate Storing(pc: Pc) {
    pc.PutWrite? || pc.PutRelease?
  }

  function OwnedSlot(c: Config, pc: Pc): nat
    requires Owns(pc)
  {
    if Storing(pc) then Slot(c, pc.head) else Slot(c, pc.tail)
  }

  /** An owner's slot is in the state that says what it does, and a written element is in its cell. */
  ghost predicate OwnerOk(c: Config, s: State, i: nat)
    requires Shape(c, s) && i < |s.threads|
  {
    && (Owns(s.threads[i]) ==>
          s.states[OwnedSlot(c, s.threads[i])] == if Storing(s.threads[i]) then STORING else LOADING)
    && (s.threads[i].PutRelease? ==> s.cells[Slot(c, s.threads[i].head)] == s.threads[i].e)
  }

  ghost predicate OwnDifferent(c: Config, s: State, i: nat, j: nat)
    requires i < |s.threads| && j < |s.threads|
  {
    i != j && Owns(s.threads[i]) && Owns(s.threads[j]) ==> OwnedSlot(c, s.threads[i]) != OwnedSlot(c, s.threads[j])
  }

  ghost predicate HasOwner(c: Config, s: State, r: nat)
    requires r < |s.states|
  {
    s.states[r] == STORING || s.states[r] == LOADING ==>
      exists i | 0 <= i < |s.threads| :: Owns(s.threads[i]) && OwnedSlot(c, s.threads[i]) == r
  }

  /** A slot is STORING or LOADING exactly while one thread that is storing or loading owns it. */
  ghost predicate Owned(c: Config, s: State) {
    && Shape(c, s)
    && (forall i | 0 <= i < |s.threads| :: OwnerOk(c, s, i))
    && (forall i, j | 0 <= i < |s.threads| && 0 <= j < |s.threads| :: OwnDifferent(c, s, i, j))
    && (forall r | 0 <= r < c.size :: HasOwner(c, s, r))
  }

  lemma InitOwned(c: Config, s: State)
    requires Init(c, s)
    ensures Owned(c, s)
  {
  }

  /** After a step of thread i on slot r: the slot is owned by that thread, or not at all. */
  lemma OwnedAfter(c: Config, s: State, s': State, i: nat, r: nat)
    requires Owned(c, s) && Shape(c, s') && i < |s.threads| == |s'.threads| && r < c.size
    requires forall j | 0 <= j < |s.threads| && j != i :: s'.threads[j] == s.threads[j]
    requires forall q | 0 <= q < c.size && q != r :: s'.states[q] == s.states[q] && s'.cells[q] == s.cells[q]
    requires Owns(s.threads[i]) ==> OwnedSlot(c, s.threads[i]) == r
    requires Owns(s'.threads[i]) ==> OwnedSlot(c, s'.threads[i]) == r
    requires Owns(s.threads[i]) || s.states[r] == EMPTY || s.states[r] == STORED
    requires OwnerOk(c, s', i)
    requires Owns(s'.threads[i]) || s'.states[r] == EMPTY || s'.states[r] == STORED
    ensures Owned(c, s')
  {
    forall j | 0 <= j < |s.threads| && j != i && Owns(s.threads[j])
      ensures OwnedSlot(c, s.threads[j]) != r
    {
      assert OwnerOk(c, s, j) && OwnDifferent(c, s, i, j);
    }
    forall j | 0 <= j < |s'.threads|
      ensures OwnerOk(c, s', j)
    {
      assert OwnerOk(c, s, j);
    }
    forall j, k | 0 <= j < |s'.threads| && 0 <= k < |s'.threads|
      ensures OwnDifferent(c, s', j, k)
    {
      assert OwnDifferent(c, s, j, k);
    }
    forall q | 0 <= q < c.size
      ensures HasOwner(c, s', q)
    {
      assert HasOwner(c, s, q);
      if q == r {
        assert Owns(s'.threads[i]) ==> OwnedSlot(c, s'.threads[i]) == r;
      } else if s.states[q] == STORING || s.states[q] == LOADING {
        var j :| 0 <= j < |s.threads| && Owns(s.threads[j]) && OwnedSlot(c, s.threads[j]) == q;
        assert s'.threads[j] == s.threads[j];
      }
    }
  }

  /** After a step of a thread that owns no slot and leaves the slots alone. */
  lemma OwnedElsewhere(c: Config, s: State, s': State, i: nat)
    requires Owned(c, s) && i < |s.threads| == |s'.threads| && s'.states == s.states && s'.cells == s.cells
    requires forall j | 0 <= j < |s.threads| && j != i :: s'.threads[j] == s.threads[j]
    requires !Owns(s.threads[i]) && !Owns(s'.threads[i])
    ensures Owned(c, s')
  {
    forall j | 0 <= j < |s'.threads|
      ensures OwnerOk(c, s', j)
    {
      assert OwnerOk(c, s, j);
    }
    forall j, k | 0 <= j < |s'.threads| && 0 <= k < |s'.threads|
      ensures OwnDifferent(c, s', j, k)
    {
      assert OwnDifferent(c, s, j, k);
    }
    forall q | 0 <= q < c.size
      ensures HasOwner(c, s', q)
    {
      assert HasOwner(c, s, q);
      if s.states[q] == STORING || s.states[q] == LOADING {
        var j :| 0 <= j < |s.threads| && Owns(s.threads[j]) && OwnedSlot(c, s.threads[j]) == q;
        assert s'.threads[j] == s.threads[j];
      }
    }
  }

  lemma AccessOwned(c: Config, s: State, i: nat, weak: bool)
    requires Owned(c, s) && CanAccess(c, s, i)
    ensures Owned(c, Access(c, s, i, weak))
  {
    hide Wrap, LooksFull, LooksEmpty;
    var s', pc := Access(c, s, i, weak), s.threads[i];
    assert OwnerOk(c, s, i);
    hide Owned;
    if Owns(pc) {
      OwnedAfter(c, s, s', i, OwnedSlot(c, pc));
    } else if Owns(s'.threads[i]) {
      OwnedAfter(c, s, s', i, OwnedSlot(c, s'.threads[i]));
    } else {
      OwnedElsewhere(c, s, s', i);
    }
  }

  lemma NextOwned(c: Config, s: State, s': State)
    requires Owned(c, s) && Next(c, s, s')
    ensures Owned(c, s')
  {
    if i: nat, weak: bool :| AccessStep(c, s, s', i, weak) {
      AccessOwned(c, s, i, weak);
    } else {
      var i: nat, op: Q.Op :| BeginStep(s, s', i, op);
      OwnedElsewhere(c, s, s', i);
    }
  }

  /** Two threads never touch the same element at once: no two of them are at an access to the same cell. */
  lemma {:induction false} NoDataRace(c: Config, tr: seq<State>, k: nat, i: nat, j: nat)
    requires Run(c, tr) && k < |tr| && i < j < |tr[k].threads|
    requires Owns(tr[k].threads[i]) && Owns(tr[k].threads[j])
    ensures OwnedSlot(c, tr[k].threads[i]) != OwnedSlot(c, tr[k].threads[j])
  {
    RunOwned(c, tr, k);
    assert OwnDifferent(c, tr[k], i, j);
  }

  /** In every run, a slot is STORING or LOADING exactly while one thread that is storing or loading owns it. */
  lemma {:induction false} RunOwned(c: Config, tr: seq<State>, k: nat)
    requires Run(c, tr) && k < |tr|
    ensures Owned(c, tr[k])
  {
    if k == 0 {
      InitOwned(c, tr[0]);
    } else {
      RunOwned(c, tr, k - 1);
      assert Next(c, tr[k - 1], tr[k - 1 + 1]);
      NextOwned(c, tr[k - 1], tr[k]);
    }
  }

  // ----- Who waits for whom -----

  /** As long as a thread owns a slot, nobody else gets on there, a pusher no more than a popper. */
  lemma OthersWait(c: Config, s: State, i: nat, j: nat, weak: bool)
    requires Owned(c, s) && i < |s.threads| && j < |s.threads| && Owns(s.threads[i])
    requires || (s.threads[j].PutAcquire? && Slot(c, s.threads[j].head) == OwnedSlot(c, s.threads[i]))
             || (s.threads[j].TakeAcquire? && Slot(c, s.threads[j].tail) == OwnedSlot(c, s.threads[i]))
    ensures Access(c, s, j, weak) == s
  {
    assert OwnerOk(c, s, i);
  }

  /** The states of the run below. */
  ghost function Sleep(k: nat): State {
    if k == 0 then State(0, 0, [EMPTY], [0], [Idle, Idle, Idle])
    else if k == 1 then State(0, 0, [EMPTY], [0], [PushClaim(1), Idle, Idle])
    else if k == 2 then State(1, 0, [EMPTY], [0], [PutAcquire(1, 0), Idle, Idle])
    else if k == 3 then State(1, 0, [STORING], [0], [PutWrite(1, 0), Idle, Idle])
    else if k == 4 then State(1, 0, [STORING], [0], [PutWrite(1, 0), Idle, PopClaim])
    else if k == 5 then State(1, 1, [STORING], [0], [PutWrite(1, 0), Idle, TakeAcquire(0)])
    else if k == 6 then State(1, 1, [STORING], [0], [PutWrite(1, 0), PushClaim(2), TakeAcquire(0)])
    else State(2, 1, [STORING], [0], [PutWrite(1, 0), PutAcquire(2, 1), TakeAcquire(0)])
  }

  /**
   * A run in which thread 0 falls asleep while it is storing. A pop for its
   * element and then another push are claimed, within the capacity of the one
   * slot, and this push, too, can only wait for the thread that sleeps.
   */
  lemma PushWaitsForPush(c: Config) returns (tr: seq<State>)
    requires c.Valid() && c.size == 1 && c.nil == 0
    ensures Run(c, tr) && tr[|tr| - 1] == Sleep(7) && forall weak :: Access(c, Sleep(7), 1, weak) == Sleep(7)
  {
    hide Next;
    tr := [Sleep(0), Sleep(1), Sleep(2), Sleep(3), Sleep(4), Sleep(5), Sleep(6), Sleep(7)];
    assert Slot(c, 1) == 0;
    forall k: nat | k < 7
      ensures Next(c, tr[k], tr[k + 1])
    {
      assert tr[k] == Sleep(k) && tr[k + 1] == Sleep(k + 1);
      if k < 4 {
        FallsAsleep(c, k);
      } else {
        OthersClaim(c, k);
      }
    }
  }

  lemma FallsAsleep(c: Config, k: nat)
    requires c.Valid() && c.size == 1 && c.nil == 0 && k < 4
    ensures Next(c, Sleep(k), Sleep(k + 1))
  {
    assert Slot(c, 0) == 0;
    if k == 0 {
      assert BeginStep(Sleep(0), Sleep(1), 0, Q.Push(1));
    } else if k == 3 {
      assert BeginStep(Sleep(3), Sleep(4), 2, Q.Pop);
    } else {
      assert AccessStep(c, Sleep(k), Sleep(k + 1), 0, false);
    }
  }

  lemma OthersClaim(c: Config, k: nat)
    requires c.Valid() && c.size == 1 && c.nil == 0 && 4 <= k < 7
    ensures Next(c, Sleep(k), Sleep(k + 1))
  {
    if k == 4 {
      assert AccessStep(c, Sleep(4), Sleep(5), 2, false);
    } else if k == 5 {
      assert BeginStep(Sleep(5), Sleep(6), 1, Q.Push(2));
    } else {
      assert AccessStep(c, Sleep(6), Sleep(7), 1, false);
    }
  }

  // ----- Refinement -----

  /** The step that a thread of the other queue is at. A pop has happened there as soon as the slot is acquired. */
  ghost predicate SamePc(c: Config, cells: seq<int>, pc: Pc, pc1: Q.Pc)
    requires c.Valid() && |cells| == c.size
  {
    match pc
    case Idle => pc1 == Q.Idle
    case Done(result) => pc1 == Q.Done(result)
    case PushClaim(e) => pc1 == Q.PushClaim(e)
    case TryPushLoad(e) => pc1 == Q.TryPushLoad(e)
    case TryPushCheck(e, head) => pc1.TryPushCheck? && pc1.e == e && pc1.head == head
    case TryPushClaim(e, head) => pc1.TryPushClaim? && pc1.e == e && pc1.head == head
    case PutAcquire(e, head) => pc1.Put? && pc1.e == e && pc1.head == head
    case PutWrite(e, head) => pc1.Put? && pc1.e == e && pc1.head == head
    case PutRelease(e, head) => pc1.Put? && pc1.e == e && pc1.head == head
    case PopClaim => pc1 == Q.PopClaim
    case TryPopLoad => pc1 == Q.TryPopLoad
    case TryPopCheck(tail) => pc1.TryPopCheck? && pc1.tail == tail
    case TryPopClaim(tail) => pc1.TryPopClaim? && pc1.tail == tail
    case TakeAcquire(tail) => pc1.Take? && pc1.tail == tail
    case TakeRead(tail) => pc1 == Q.Done(Q.Popped(cells[Slot(c, tail)]))
    case TakeRelease(_, v) => pc1 == Q.Done(Q.Popped(v))
  }

  /** The slot of the other queue: full exactly while STORED. */
  predicate SameCell(nil: int, state: SlotState, cell: int, cell1: int) {
    cell1 == (if state == STORED then cell else nil) && (state == STORED ==> cell != nil)
  }

  ghost predicate Simulates(c: Config, s: State, s1: Q.State) {
    && Owned(c, s) && Q.Inv(c, s1)
    && s1.head == s.head && s1.tail == s.tail && |s1.threads| == |s.threads|
    && (forall i | 0 <= i < |s.threads| :: SamePc(c, s.cells, s.threads[i], s1.threads[i]))
    && (forall r | 0 <= r < c.size :: SameCell(c.nil, s.states[r], s.cells[r], s1.cells[r]))
  }

  /** A step of the other queue, with loads of current values, or none. */
  ghost predicate Stutters(c: Config, s1: Q.State, s1': Q.State) {
    s1' == s1 || Capacity.CurrentNext(c, s1, s1')
  }

  /** Simulation after a step of thread i, from what happens to that thread and to the slots. */
  lemma SimulatesAfter(c: Config, s: State, s': State, s1: Q.State, s1': Q.State, i: nat)
    requires Simulates(c, s, s1) && Owned(c, s') && Q.Inv(c, s1') && i < |s.threads|
    requires s1'.head == s'.head && s1'.tail == s'.tail && |s'.threads| == |s1'.threads| == |s.threads|
    requires forall j | 0 <= j < |s.threads| && j != i ::
               s'.threads[j] == s.threads[j] && s1'.threads[j] == s1.threads[j]
    requires forall j | 0 <= j < |s.threads| && j != i && s.threads[j].TakeRead? ::
               s'.cells[Slot(c, s.threads[j].tail)] == s.cells[Slot(c, s.threads[j].tail)]
    requires SamePc(c, s'.cells, s'.threads[i], s1'.threads[i])
    requires forall r | 0 <= r < c.size :: SameCell(c.nil, s'.states[r], s'.cells[r], s1'.cells[r])
    ensures Simulates(c, s', s1')
  {
    hide Q.Inv, SameCell;
    forall j | 0 <= j < |s.threads|
      ensures SamePc(c, s'.cells, s'.threads[j], s1'.threads[j])
    {
      assert SamePc(c, s.cells, s.threads[j], s1.threads[j]);
    }
  }

  predicate OnPushIndexes(pc: Pc) {
    pc.PushClaim? || pc.TryPushLoad? || pc.TryPushCheck? || pc.TryPushClaim?
  }

  predicate OnPopIndexes(pc: Pc) {
    pc.PopClaim? || pc.TryPopLoad? || pc.TryPopCheck? || pc.TryPopClaim?
  }

  /** The accesses to the indexes are the same in both queues. */
  lemma SimulateIndexes(c: Config, s: State, i: nat, weak: bool, s1: Q.State) returns (s1': Q.State)
    requires Simulates(c, s, s1) && CanAccess(c, s, i) && (OnPushIndexes(s.threads[i]) || OnPopIndexes(s.threads[i]))
    ensures Simulates(c, Access(c, s, i, weak), s1') && Q.AccessStep(c, s1, s1', i, 0, weak)
  {
    hide SameCell, Q.SlotOk, Wrap, LooksFull, LooksEmpty, OwnerOk, OwnDifferent, HasOwner;
    var s' := Access(c, s, i, weak);
    AccessOwned(c, s, i, weak);
    assert SamePc(c, s.cells, s.threads[i], s1.threads[i]);
    assert Q.CanAccess(c, s1, i, 0);
    s1' := Q.Access(c, s1, i, 0, weak);
    Q.AccessKeepsInv(c, s1, i, 0, weak);
    assert Q.AccessStep(c, s1, s1', i, 0, weak);
    hide Owned, Q.Inv;
    if OnPushIndexes(s.threads[i]) {
      SamePushIndexes(c, s, i, weak, s1);
    } else {
      SamePopIndexes(c, s, i, weak, s1);
    }
    SimulatesAfter(c, s, s', s1, s1', i);
  }

  lemma SamePushIndexes(c: Config, s: State, i: nat, weak: bool, s1: Q.State)
    requires CanAccess(c, s, i) && OnPushIndexes(s.threads[i]) && Q.CanAccess(c, s1, i, 0)
    requires |s1.threads| == |s.threads| && s1.head == s.head && s1.tail == s.tail
    requires SamePc(c, s.cells, s.threads[i], s1.threads[i])
    ensures var s', s1' := Access(c, s, i, weak), Q.Access(c, s1, i, 0, weak);
            && s'.states == s.states && s'.cells == s.cells && s1'.cells == s1.cells
            && s1'.head == s'.head && s1'.tail == s'.tail && |s'.threads| == |s1'.threads| == |s.threads|
            && SamePc(c, s'.cells, s'.threads[i], s1'.threads[i])
            && (forall j | 0 <= j < |s.threads| && j != i ::
                  s'.threads[j] == s.threads[j] && s1'.threads[j] == s1.threads[j])
  {
    hide Wrap, LooksFull, LooksEmpty;
  }

  lemma SamePopIndexes(c: Config, s: State, i: nat, weak: bool, s1: Q.State)
    requires CanAccess(c, s, i) && OnPopIndexes(s.threads[i]) && Q.CanAccess(c, s1, i, 0)
    requires |s1.threads| == |s.threads| && s1.head == s.head && s1.tail == s.tail
    requires SamePc(c, s.cells, s.threads[i], s1.threads[i])
    ensures var s', s1' := Access(c, s, i, weak), Q.Access(c, s1, i, 0, weak);
            && s'.states == s.states && s'.cells == s.cells && s1'.cells == s1.cells
            && s1'.head == s'.head && s1'.tail == s'.tail && |s'.threads| == |s1'.threads| == |s.threads|
            && SamePc(c, s'.cells, s'.threads[i], s1'.threads[i])
            && (forall j | 0 <= j < |s.threads| && j != i ::
                  s'.threads[j] == s.threads[j] && s1'.threads[j] == s1.threads[j])
  {
    hide Wrap, LooksFull, LooksEmpty;
  }

  /** No other thread is about to read the cell that thread i owns. */
  lemma NoOtherReader(c: Config, s: State, i: nat, j: nat)
    requires Owned(c, s) && i < |s.threads| && j < |s.threads| && j != i
    requires Owns(s.threads[i]) && s.threads[j].TakeRead?
    ensures Slot(c, s.threads[j].tail) != OwnedSlot(c, s.threads[i])
  {
    assert OwnDifferent(c, s, i, j);
  }

  /** Acquiring a slot for a push, reading it and releasing it after a pop are invisible. */
  lemma SimulateInvisible(c: Config, s: State, i: nat, weak: bool, s1: Q.State)
    requires Simulates(c, s, s1) && CanAccess(c, s, i)
    requires s.threads[i].PutAcquire? || s.threads[i].TakeRead? || s.threads[i].TakeRelease?
    ensures Simulates(c, Access(c, s, i, weak), s1)
  {
    var s' := Access(c, s, i, weak);
    AccessOwned(c, s, i, weak);
    assert SamePc(c, s.cells, s.threads[i], s1.threads[i]);
    assert OwnerOk(c, s, i);
    hide Q.Inv, Owned;
    forall r | 0 <= r < c.size
      ensures SameCell(c.nil, s'.states[r], s'.cells[r], s1.cells[r])
    {
      assert SameCell(c.nil, s.states[r], s.cells[r], s1.cells[r]);
    }
    hide SameCell;
    SimulatesAfter(c, s, s', s1, s1, i);
  }

  /** And so is writing an element. */
  lemma SimulateWrite(c: Config, s: State, i: nat, weak: bool, s1: Q.State)
    requires Simulates(c, s, s1) && CanAccess(c, s, i) && s.threads[i].PutWrite?
    ensures Simulates(c, Access(c, s, i, weak), s1)
  {
    var s' := Access(c, s, i, weak);
    AccessOwned(c, s, i, weak);
    assert SamePc(c, s.cells, s.threads[i], s1.threads[i]);
    assert OwnerOk(c, s, i);
    forall j | 0 <= j < |s.threads| && j != i && s.threads[j].TakeRead?
      ensures s'.cells[Slot(c, s.threads[j].tail)] == s.cells[Slot(c, s.threads[j].tail)]
    {
      NoOtherReader(c, s, i, j);
    }
    hide Q.Inv, Owned;
    forall r | 0 <= r < c.size
      ensures SameCell(c.nil, s'.states[r], s'.cells[r], s1.cells[r])
    {
      assert SameCell(c.nil, s.states[r], s.cells[r], s1.cells[r]);
    }
    hide SameCell;
    SimulatesAfter(c, s, s', s1, s1, i);
  }

  /** A push takes effect when its slot becomes STORED. */
  lemma SimulateStore(c: Config, s: State, i: nat, weak: bool, s1: Q.State) returns (s1': Q.State)
    requires Simulates(c, s, s1) && CanAccess(c, s, i) && s.threads[i].PutRelease?
    ensures Simulates(c, Access(c, s, i, weak), s1') && Q.AccessStep(c, s1, s1', i, 0, false)
    ensures var r := Slot(c, s.threads[i].head);
            && r < |s1.stored| == |s1'.stored| && i < |s1.threads| && s1.threads[i].Put?
            && s1'.stored[r] == s1.stored[r] + [Q.Entry(s.threads[i].e, s1.threads[i].ticket, s1.pushes)]
  {
    var s' := Access(c, s, i, weak);
    var PutRelease(e, head) := s.threads[i];
    var r := Slot(c, head);
    AccessOwned(c, s, i, weak);
    assert SamePc(c, s.cells, s.threads[i], s1.threads[i]);
    assert SameCell(c.nil, s.states[r], s.cells[r], s1.cells[r]);
    assert Q.PcOk(c, s1.threads[i], s1.pushes, s1.pops);
    s1' := Q.Access(c, s1, i, 0, false);
    Q.AccessKeepsInv(c, s1, i, 0, false);
    assert Q.AccessStep(c, s1, s1', i, 0, false);
    hide Q.Inv;
    assert OwnerOk(c, s, i);
    forall q | 0 <= q < c.size
      ensures SameCell(c.nil, s'.states[q], s'.cells[q], s1'.cells[q])
    {
      assert SameCell(c.nil, s.states[q], s.cells[q], s1.cells[q]);
    }
    SimulatesAfter(c, s, s', s1, s1', i);
    assert s1'.stored[r] == s1.stored[r] + [Q.Entry(e, s1.threads[i].ticket, s1.pushes)];
  }

  /** A pop takes effect when its slot becomes LOADING. */
  lemma SimulateTake(c: Config, s: State, i: nat, weak: bool, s1: Q.State) returns (s1': Q.State)
    requires Simulates(c, s, s1) && CanAccess(c, s, i) && s.threads[i].TakeAcquire? && Access(c, s, i, weak) != s
    ensures Simulates(c, Access(c, s, i, weak), s1') && Q.AccessStep(c, s1, s1', i, 0, false)
    ensures var r := Slot(c, s.threads[i].tail);
            && r < |s1.taken| == |s1'.taken| && r < |s.cells| && i < |s1.threads| && s1.threads[i].Take?
            && s1'.taken[r] == s1.taken[r] + [Q.Exit(s.cells[r], s1.threads[i].ticket)]
  {
    var s' := Access(c, s, i, weak);
    var tail := s.threads[i].tail;
    var r := Slot(c, tail);
    AccessOwned(c, s, i, weak);
    assert SamePc(c, s.cells, s.threads[i], s1.threads[i]);
    assert SameCell(c.nil, s.states[r], s.cells[r], s1.cells[r]);
    s1' := Q.Access(c, s1, i, 0, false);
    Q.AccessKeepsInv(c, s1, i, 0, false);
    assert Q.AccessStep(c, s1, s1', i, 0, false);
    hide Q.Inv;
    forall q | 0 <= q < c.size
      ensures SameCell(c.nil, s'.states[q], s'.cells[q], s1'.cells[q])
    {
      assert SameCell(c.nil, s.states[q], s.cells[q], s1.cells[q]);
    }
    SimulatesAfter(c, s, s', s1, s1', i);
  }

  /** Every access of a thread of `AtomicQueue2` is an access of that thread of `AtomicQueue`, or invisible there. */
  lemma SimulateAccess(c: Config, s: State, i: nat, weak: bool, s1: Q.State) returns (s1': Q.State, weak1: bool)
    requires Simulates(c, s, s1) && CanAccess(c, s, i)
    ensures Simulates(c, Access(c, s, i, weak), s1')
    ensures s1' == s1 || Q.AccessStep(c, s1, s1', i, 0, weak1)
  {
    hide Simulates, Q.AccessStep;
    weak1 := false;
    if OnPushIndexes(s.threads[i]) || OnPopIndexes(s.threads[i]) {
      weak1 := weak;
      s1' := SimulateIndexes(c, s, i, weak, s1);
    } else if s.threads[i].PutRelease? {
      s1' := SimulateStore(c, s, i, weak, s1);
    } else if s.threads[i].TakeAcquire? {
      if Access(c, s, i, weak) == s {
        s1' := s1;
      } else {
        s1' := SimulateTake(c, s, i, weak, s1);
      }
    } else if s.threads[i].PutWrite? {
      SimulateWrite(c, s, i, weak, s1);
      s1' := s1;
    } else {
      SimulateInvisible(c, s, i, weak, s1);
      s1' := s1;
    }
  }

  /** Every step of `AtomicQueue2` is a step of `AtomicQueue`, or invisible there. */
  lemma SimulateNext(c: Config, s: State, s': State, s1: Q.State) returns (s1': Q.State)
    requires Simulates(c, s, s1) && Next(c, s, s')
    ensures Simulates(c, s', s1') && Stutters(c, s1, s1')
  {
    hide Simulates, Q.AccessStep, Access;
    if i: nat, op: Q.Op :| BeginStep(s, s', i, op) && (op.Push? || op.TryPush? ==> op.e != c.nil) {
      s1' := SimulateBegin(c, s, i, op, s1);
    } else {
      var i: nat, weak: bool :| AccessStep(c, s, s', i, weak);
      var weak1;
      s1', weak1 := SimulateAccess(c, s, i, weak, s1);
    }
  }

  lemma SimulateBegin(c: Config, s: State, i: nat, op: Q.Op, s1: Q.State) returns (s1': Q.State)
    requires Simulates(c, s, s1) && i < |s.threads| && Resting(s.threads[i])
    requires op.Push? || op.TryPush? ==> op.e != c.nil
    ensures Simulates(c, Goto(s, i, Start(op)), s1') && Capacity.CurrentNext(c, s1, s1')
    ensures Q.BeginStep(c, s1, s1', i, op)
  {
    hide SameCell, Q.SlotOk;
    var s' := Goto(s, i, Start(op));
    OwnedElsewhere(c, s, s', i);
    assert SamePc(c, s.cells, s.threads[i], s1.threads[i]);
    s1' := Q.Begin(s1, i, op);
    assert Q.BeginStep(c, s1, s1', i, op);
    Q.GotoKeepsInv(c, s1, i, Q.Start(op));
    hide Q.Inv, Owned;
    SimulatesAfter(c, s, s', s1, s1', i);
  }

  /** A run of the other queue that may pause, with loads of current values. */
  ghost predicate PausingRun(c: Config, tr: seq<Q.State>) {
    && |tr| > 0 && Q.Init(c, tr[0])
    && forall k | 0 <= k < |tr| - 1 :: Stutters(c, tr[k], tr[k + 1])
  }

  lemma SimulateInit(c: Config, s: State) returns (s1: Q.State)
    requires Init(c, s)
    ensures Simulates(c, s, s1) && Q.Init(c, s1)
  {
    InitOwned(c, s);
    var idle := seq(|s.threads|, _ => Q.Idle);
    s1 := Q.State(0, 0, seq(c.size, _ => c.nil), idle, 0, 0, seq(c.size, _ => []), seq(c.size, _ => []));
    Q.InitInv(c, s1);
  }

  /**
   * Every run of `AtomicQueue2` is, state by state, a run of `AtomicQueue`:
   * the same indexes, the same results of the same operations, and the same
   * elements in the slots.
   */
  lemma {:induction false} RunRefines(c: Config, tr: seq<State>) returns (tr1: seq<Q.State>)
    requires Run(c, tr)
    ensures |tr1| == |tr| && PausingRun(c, tr1)
    ensures forall k | 0 <= k < |tr| :: Simulates(c, tr[k], tr1[k])
    decreases |tr|
  {
    hide Simulates, Next, Init, Stutters, Q.Init;
    if |tr| == 1 {
      var s1 := SimulateInit(c, tr[0]);
      tr1 := [s1];
    } else {
      var n := |tr| - 1;
      assert forall k | 0 <= k < n - 1 :: Next(c, tr[..n][k], tr[..n][k + 1]);
      var before := RunRefines(c, tr[..n]);
      assert Simulates(c, tr[..n][n - 1], before[n - 1]);
      assert Next(c, tr[n - 1], tr[n - 1 + 1]);
      var s1 := SimulateNext(c, tr[n - 1], tr[n], before[n - 1]);
      tr1 := before + [s1];
      forall k | 0 <= k < |tr1| - 1
        ensures Stutters(c, tr1[k], tr1[k + 1])
      {
        if k < n - 1 {
          assert Stutters(c, before[k], before[k + 1]);
        }
      }
      forall k | 0 <= k < |tr|
        ensures Simulates(c, tr[k], tr1[k])
      {
        if k < n {
          assert Simulates(c, tr[..n][k], before[k]);
        }
      }
    }
  }

  // ----- Progress carries over -----

  /** A thread has claimed a ticket and has not finished with its slot. */
  predicate OnSlot(pc: Pc) {
    pc.PutAcquire? || pc.TakeAcquire? || Owns(pc)
  }

  /** No access to a slot would succeed, even if no compare-and-exchange fails for no reason. */
  ghost predicate SlotsStuck(c: Config, s: State) {
    Shape(c, s) && forall i | 0 <= i < |s.threads| && OnSlot(s.threads[i]) :: Access(c, s, i, false) == s
  }

  /** A thread that owns a slot can always go on. */
  lemma OwnersGoOn(c: Config, s: State, i: nat)
    requires Shape(c, s) && i < |s.threads| && Owns(s.threads[i])
    ensures Access(c, s, i, false) != s
  {
    assert Access(c, s, i, false).threads[i] != s.threads[i];
  }

  lemma StuckSlotStates(c: Config, s: State, r: nat)
    requires Owned(c, s) && SlotsStuck(c, s) && r < c.size
    ensures s.states[r] == EMPTY || s.states[r] == STORED
  {
    if s.states[r] == STORING || s.states[r] == LOADING {
      assert HasOwner(c, s, r);
      var i :| 0 <= i < |s.threads| && Owns(s.threads[i]) && OwnedSlot(c, s.threads[i]) == r;
      OwnersGoOn(c, s, i);
    }
  }

  /** If no access to a slot can succeed here, none can in the other queue. */
  lemma StuckThere(c: Config, s: State, s1: Q.State, i: nat)
    requires Simulates(c, s, s1) && SlotsStuck(c, s) && i < |s.threads|
    ensures !Drain.Ready(c, s1, i)
  {
    assert |s1.cells| == c.size;
    hide Q.Inv;
    assert SamePc(c, s.cells, s.threads[i], s1.threads[i]);
    if s1.threads[i].Put? {
      var r := Slot(c, s1.threads[i].head);
      StuckSlotStates(c, s, r);
      assert SameCell(c.nil, s.states[r], s.cells[r], s1.cells[r]);
      AcquirersWait(c, s, i);
    } else if s1.threads[i].Take? {
      var r := Slot(c, s1.threads[i].tail);
      StuckSlotStates(c, s, r);
      assert SameCell(c.nil, s.states[r], s.cells[r], s1.cells[r]);
      AcquirersWait(c, s, i);
    }
  }

  lemma AcquirersWait(c: Config, s: State, i: nat)
    requires SlotsStuck(c, s) && i < |s.threads| && OnSlot(s.threads[i])
    ensures s.threads[i].PutAcquire? ==> s.states[Slot(c, s.threads[i].head)] != EMPTY
    ensures s.threads[i].TakeAcquire? ==> s.states[Slot(c, s.threads[i].tail)] != STORED
    ensures !Owns(s.threads[i])
  {
    if Owns(s.threads[i]) {
      OwnersGoOn(c, s, i);
    }
    var s' := Access(c, s, i, false);
    assert s'.threads[i] == s.threads[i];
  }

  /**
   * `AtomicQueue2` has no deadlock of its own: with the indexes at most a lap
   * apart, if no access to a slot can succeed then no operation is unfinished.
   */
  lemma NoDeadlock(c: Config, s: State, s1: Q.State)
    requires Simulates(c, s, s1) && s1.pops <= s1.pushes <= s1.pops + c.size && SlotsStuck(c, s)
    ensures forall i | 0 <= i < |s.threads| :: !OnSlot(s.threads[i])
  {
    forall i | 0 <= i < |s1.threads|
      ensures !Drain.Ready(c, s1, i)
    {
      StuckThere(c, s, s1, i);
    }
    Drain.NoDeadlock(c, s1);
    hide Q.Inv;
    forall i | 0 <= i < |s.threads|
      ensures !OnSlot(s.threads[i])
    {
      assert SamePc(c, s.cells, s.threads[i], s1.threads[i]);
      if OnSlot(s.threads[i]) {
        AcquirersWait(c, s, i);
      }
    }
  }

  // ----- Clients that only try -----

  ghost predicate TryOnly(s: State) {
    forall i | 0 <= i < |s.threads| :: !s.threads[i].PushClaim? && !s.threads[i].PopClaim?
  }

  /** Up to state k, the clients only try, and in the other run none sleeps through 2^32 claims. */
  ghost predicate AwakeTries(tr: seq<State>, tr1: seq<Q.State>, k: nat) {
    k < |tr| == |tr1| && forall j | 0 <= j < k :: TryOnly(tr[j]) && Capacity.Awake(tr1[j])
  }

  lemma SameTries(c: Config, s: State, s1: Q.State)
    requires Simulates(c, s, s1) && TryOnly(s)
    ensures Capacity.TryOnly(s1)
  {
    hide Q.Inv, OwnerOk, OwnDifferent, HasOwner;
    forall i | 0 <= i < |s1.threads|
      ensures !s1.threads[i].PushClaim? && !s1.threads[i].PopClaim?
    {
      assert SamePc(c, s.cells, s.threads[i], s1.threads[i]);
    }
  }

  lemma {:induction false} PausingTries(c: Config, tr: seq<State>, tr1: seq<Q.State>, k: nat)
    requires PausingRun(c, tr1) && AwakeTries(tr, tr1, k)
    requires forall j | 0 <= j < |tr| :: Simulates(c, tr[j], tr1[j])
    ensures Capacity.TriesInv(c, tr1[k])
  {
    hide Simulates, Stutters, Q.Init, Capacity.TriesInv, Capacity.Awake, TryOnly;
    if k == 0 {
      Capacity.InitTriesInv(c, tr1[0]);
    } else {
      PausingTries(c, tr, tr1, k - 1);
      assert Stutters(c, tr1[k - 1], tr1[k - 1 + 1]);
      SameTries(c, tr[k - 1], tr1[k - 1]);
      StutterKeepsTriesInv(c, tr1[k - 1], tr1[k]);
    }
  }

  lemma StutterKeepsTriesInv(c: Config, s1: Q.State, s1': Q.State)
    requires Capacity.TriesInv(c, s1) && Capacity.TryOnly(s1) && Capacity.Awake(s1) && Stutters(c, s1, s1')
    ensures Capacity.TriesInv(c, s1')
  {
    hide Capacity.TriesInv, Capacity.TryOnly, Capacity.Awake, Capacity.CurrentNext;
    if s1' != s1 {
      Capacity.CurrentNextKeepsTriesInv(c, s1, s1');
    }
  }

  /**
   * The clients of `AtomicQueue2` that only try, and do not sleep through 2^32
   * claims, keep 0 <= head - tail <= size, as the indexes themselves show, and
   * never deadlock: if no access to a slot can succeed, no operation is
   * unfinished.
   */
  lemma TriesNeverDeadlock(c: Config, tr: seq<State>) returns (tr1: seq<Q.State>)
    requires Run(c, tr)
    ensures |tr1| == |tr| && PausingRun(c, tr1) && forall k | 0 <= k < |tr| :: Simulates(c, tr[k], tr1[k])
    ensures forall k: nat | AwakeTries(tr, tr1, k) :: WithinCapacity(c, tr[k]) && NotStuck(c, tr[k])
  {
    hide Simulates, PausingRun, Run;
    tr1 := RunRefines(c, tr);
    forall k: nat | AwakeTries(tr, tr1, k)
      ensures WithinCapacity(c, tr[k]) && NotStuck(c, tr[k])
    {
      PausingTries(c, tr, tr1, k);
      TriesState(c, tr[k], tr1[k]);
    }
  }

  ghost predicate WithinCapacity(c: Config, s: State) {
    0 <= AsSigned(Sub(s.head, s.tail)) <= c.size
  }

  ghost predicate NotStuck(c: Config, s: State) {
    SlotsStuck(c, s) ==> forall i | 0 <= i < |s.threads| :: !OnSlot(s.threads[i])
  }

  lemma TriesState(c: Config, s: State, s1: Q.State)
    requires Simulates(c, s, s1) && Capacity.TriesInv(c, s1)
    ensures WithinCapacity(c, s) && NotStuck(c, s)
  {
    hide OnSlot, SlotsStuck, Owned, SamePc, SameCell;
    SignedDifference(s1.pushes, s1.pops);
    if SlotsStuck(c, s) {
      NoDeadlock(c, s, s1);
    }
  }
}
