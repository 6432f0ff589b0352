/**
 * Which claimed operations can finish, while some threads are frozen. Claims on
 * one slot depend on that slot alone, and those of the threads that are not
 * frozen can all finish exactly if the stores and takes of the slot will then
 * be as many, or one store more.
 */
module Drain {
  import opened SlotMap
  import opened Protocol

  /** A thread holds a ticket for one of the slots in R. */
  ghost predicate Holds(c: Config, pc: Pc, R: set<nat>) {
    (pc.Put? && Slot(c, pc.head) in R) || (pc.Take? && Slot(c, pc.tail) in R)
  }

  /** The thread's access to its slot would succeed. */
  ghost predicate Ready(c: Config, s: State, i: nat)
    requires Shape(c, s) && i < |s.threads|
  {
    match s.threads[i]
    case Put(_, head, _) => s.cells[Slot(c, head)] == c.nil
    case Take(tail, _) => s.cells[Slot(c, tail)] != c.nil
    case _ => false
  }

  /** A thread that is not frozen, and holds a slot in R, completes its operation. */
  ghost predicate Completes(c: Config, s: State, s': State, R: set<nat>, F: set<nat>, i: nat) {
    && Shape(c, s) && i < |s.threads| && i !in F && Holds(c, s.threads[i], R) && Ready(c, s, i)
    && s' == Access(c, s, i, 0, false)
  }

  ghost predicate CompletionStep(c: Config, s: State, s': State, R: set<nat>, F: set<nat>) {
    exists i :: Completes(c, s, s', R, F, i)
  }

  /** A run of completions. */
  ghost predicate Completions(c: Config, tr: seq<State>, R: set<nat>, F: set<nat>) {
    |tr| > 0 && forall k | 0 <= k < |tr| - 1 :: CompletionStep(c, tr[k], tr[k + 1], R, F)
  }

  /** None but frozen threads holds a slot in R. */
  ghost predicate NoneHolds(c: Config, s: State, R: set<nat>, F: set<nat>) {
    forall i | 0 <= i < |s.threads| :: i in F || !Holds(c, s.threads[i], R)
  }

  /** The threads that are not frozen; the others take no part. */
  function Free(threads: seq<Pc>, F: set<nat>): seq<Pc> {
    seq(|threads|, i requires 0 <= i < |threads| => if i in F then Idle else threads[i])
  }

  lemma FreeUpdate(threads: seq<Pc>, F: set<nat>, i: nat, pc: Pc)
    requires i < |threads| && i !in F
    ensures Free(threads[i := pc], F) == Free(threads, F)[i := pc] && Free(threads, F)[i] == threads[i]
  {
  }

  lemma AllFree(threads: seq<Pc>)
    ensures Free(threads, {}) == threads
  {
  }

  /**
   * When all the threads that are not frozen have completed, slot r has been
   * stored into as often as taken from, or once more.
   */
  ghost predicate FreeBalanced(c: Config, s: State, F: set<nat>, r: nat) {
    r < |s.stored| == |s.taken| ==>
      var stores := |s.stored[r]| + Pending(c, Free(s.threads, F), Producers, r);
      var takes := |s.taken[r]| + Pending(c, Free(s.threads, F), Consumers, r);
      takes <= stores <= takes + 1
  }

  /** As many producer as consumer tickets have been issued for slot r, or one more. */
  ghost predicate Balanced(c: Config, s: State, r: nat) {
    Issued(c, s.pops, r) <= Issued(c, s.pushes, r) <= Issued(c, s.pops, r) + 1
  }

  /** Without frozen threads it is the tickets that count. */
  lemma FreeBalancedIff(c: Config, s: State, r: nat)
    requires Inv(c, s) && r < c.size
    ensures FreeBalanced(c, s, {}, r) <==> Balanced(c, s, r)
  {
    hide Issued, LogsOk, IssuesOk;
    AllFree(s.threads);
    assert SlotOk(c, s, r);
  }

  /** On a balanced slot, some thread is ready as long as any thread that is not frozen holds it. */
  lemma BalancedSlotIsNotStuck(c: Config, s: State, F: set<nat>, r: nat, i: nat) returns (j: nat)
    requires Inv(c, s) && r < c.size && FreeBalanced(c, s, F, r)
    requires i < |s.threads| && i !in F && Holds(c, s.threads[i], {r})
    ensures CanAccess(c, s, j, 0) && j !in F && Holds(c, s.threads[j], {r}) && Ready(c, s, j)
  {
    hide Issued, IssuesOk, TicketsOk;
    var free := Free(s.threads, F);
    assert SlotOk(c, s, r);
    PendingHolder(c, free, Producers, r);
    PendingHolder(c, free, Consumers, r);
    assert HoldsSlot(c, free[i], Producers, r) || HoldsSlot(c, free[i], Consumers, r);
    if s.cells[r] == c.nil {
      j :| 0 <= j < |free| && HoldsSlot(c, free[j], Producers, r);
    } else {
      j :| 0 <= j < |free| && HoldsSlot(c, free[j], Consumers, r);
    }
  }

  /** The number of threads that hold slots in R. */
  ghost function Holders(c: Config, threads: seq<Pc>, R: set<nat>): nat {
    if threads == [] then 0 else (if Holds(c, threads[0], R) then 1 else 0) + Holders(c, threads[1..], R)
  }

  lemma {:induction false} HoldersUpdate(c: Config, threads: seq<Pc>, R: set<nat>, i: nat, pc: Pc)
    requires i < |threads| && Holds(c, threads[i], R) && !Holds(c, pc, R)
    ensures Holders(c, threads[i := pc], R) == Holders(c, threads, R) - 1
    decreases i
  {
    if i == 0 {
      assert threads[i := pc][1..] == threads[1..];
    } else {
      HoldersUpdate(c, threads[1..], R, i - 1, pc);
      assert threads[i := pc][1..] == threads[1..][i - 1 := pc];
    }
  }

  /** Only thread i has moved, to a result. */
  ghost predicate OnlyReturns(s: State, s': State, i: nat) {
    && s'.pushes == s.pushes && s'.pops == s.pops && i < |s.threads| == |s'.threads|
    && s'.threads == s.threads[i := s'.threads[i]] && s'.threads[i].Done?
  }

  /**
   * Every completion finishes one claim on R, so that completions terminate; it
   * touches neither another thread nor an index, and the balance of no slot.
   */
  lemma CompletionEffect(c: Config, s: State, s': State, R: set<nat>, F: set<nat>, i: nat)
    requires Inv(c, s) && Completes(c, s, s', R, F, i)
    ensures Inv(c, s') && Next(c, s, s') && OnlyReturns(s, s', i)
    ensures Holders(c, Free(s'.threads, F), R) == Holders(c, Free(s.threads, F), R) - 1
    ensures forall r: nat | r < c.size :: FreeBalanced(c, s', F, r) <==> FreeBalanced(c, s, F, r)
  {
    hide SlotOk;
    AccessKeepsInv(c, s, i, 0, false);
    assert AccessStep(c, s, s', i, 0, false);
    assert PcOk(c, s.threads[i], s.pushes, s.pops);
    FreeUpdate(s.threads, F, i, s'.threads[i]);
    HoldersUpdate(c, Free(s.threads, F), R, i, s'.threads[i]);
    forall r: nat | r < c.size
      ensures FreeBalanced(c, s', F, r) <==> FreeBalanced(c, s, F, r)
    {
      CompletionKeepsBalance(c, s, s', R, F, i, r);
    }
  }

  lemma CompletionKeepsBalance(c: Config, s: State, s': State, R: set<nat>, F: set<nat>, i: nat, r: nat)
    requires Inv(c, s) && Completes(c, s, s', R, F, i) && r < c.size
    ensures FreeBalanced(c, s', F, r) <==> FreeBalanced(c, s, F, r)
  {
    hide SlotOk;
    FreeUpdate(s.threads, F, i, s'.threads[i]);
    PendingUpdate(c, Free(s.threads, F), i, s'.threads[i], Producers, r);
    PendingUpdate(c, Free(s.threads, F), i, s'.threads[i], Consumers, r);
  }

  /**
   * From any reachable state, completions alone finish all claims of threads
   * that are not frozen on the balanced slots in R. The frozen threads, and
   * those that hold other slots, take no part.
   */
  lemma {:induction false} DrainSlots(c: Config, s: State, R: set<nat>, F: set<nat>) returns (tr: seq<State>)
    requires Inv(c, s)
    requires forall r | r in R :: r < c.size && FreeBalanced(c, s, F, r)
    ensures Completions(c, tr, R, F) && tr[0] == s && NoneHolds(c, tr[|tr| - 1], R, F)
    ensures |tr| == 1 + Holders(c, Free(s.threads, F), R)
    ensures forall k | 0 <= k < |tr| :: OthersUnchanged(c, s, tr[k], R, F)
    decreases Holders(c, Free(s.threads, F), R)
  {
    hide Inv, Access, Ready, FreeBalanced, Next, Free;
    if i :| 0 <= i < |s.threads| && i !in F && Holds(c, s.threads[i], R) {
      var r := if s.threads[i].Put? then Slot(c, s.threads[i].head) else Slot(c, s.threads[i].tail);
      var j := BalancedSlotIsNotStuck(c, s, F, r, i);
      var s' := Access(c, s, j, 0, false);
      assert Completes(c, s, s', R, F, j);
      CompletionEffect(c, s, s', R, F, j);
      var rest := DrainSlots(c, s', R, F);
      tr := [s] + rest;
      OneMore(c, s, rest, R, F, j);
    } else {
      tr := [s];
      NoHolders(c, s, R, F);
    }
  }

  lemma OneMore(c: Config, s: State, rest: seq<State>, R: set<nat>, F: set<nat>, j: nat)
    requires Completions(c, rest, R, F) && Completes(c, s, rest[0], R, F, j) && OnlyReturns(s, rest[0], j)
    requires forall k | 0 <= k < |rest| :: OthersUnchanged(c, rest[0], rest[k], R, F)
    ensures Completions(c, [s] + rest, R, F)
    ensures forall k | 0 <= k < |rest| + 1 :: OthersUnchanged(c, s, ([s] + rest)[k], R, F)
  {
    hide Access, Ready;
    var tr := [s] + rest;
    assert CompletionStep(c, s, rest[0], R, F);
    hide CompletionStep;
    forall k | 0 <= k < |tr| - 1
      ensures CompletionStep(c, tr[k], tr[k + 1], R, F)
    {
      if k > 0 {
        assert CompletionStep(c, rest[k - 1], rest[k - 1 + 1], R, F);
      }
    }
    forall k | 0 <= k < |tr|
      ensures OthersUnchanged(c, s, tr[k], R, F)
    {
      if k > 0 {
        assert OthersUnchanged(c, rest[0], rest[k - 1], R, F);
      }
    }
  }

  ghost predicate OthersUnchanged(c: Config, s: State, s': State, R: set<nat>, F: set<nat>) {
    && |s'.threads| == |s.threads|
    && forall j | 0 <= j < |s.threads| && (j in F || !Holds(c, s.threads[j], R)) :: s'.threads[j] == s.threads[j]
  }

  lemma NoHolders(c: Config, s: State, R: set<nat>, F: set<nat>)
    requires NoneHolds(c, s, R, F)
    ensures Holders(c, Free(s.threads, F), R) == 0
  {
    NoHolder(c, Free(s.threads, F), R);
  }

  lemma {:induction false} NoHolder(c: Config, threads: seq<Pc>, R: set<nat>)
    requires forall i | 0 <= i < |threads| :: !Holds(c, threads[i], R)
    ensures Holders(c, threads, R) == 0
  {
    if threads != [] {
      NoHolder(c, threads[1..], R);
    }
  }

  /** Completions never change the balance of a slot. */
  lemma {:induction false} CompletionsKeep(c: Config, tr: seq<State>, R: set<nat>, F: set<nat>, k: nat)
    requires Completions(c, tr, R, F) && Inv(c, tr[0]) && k < |tr|
    ensures Inv(c, tr[k])
    ensures forall r: nat | r < c.size :: FreeBalanced(c, tr[k], F, r) <==> FreeBalanced(c, tr[0], F, r)
  {
    hide Inv, Completes, FreeBalanced;
    if k > 0 {
      CompletionsKeep(c, tr, R, F, k - 1);
      assert CompletionStep(c, tr[k - 1], tr[k - 1 + 1], R, F);
      var i :| Completes(c, tr[k - 1], tr[k], R, F, i);
      CompletionEffect(c, tr[k - 1], tr[k], R, F, i);
    }
  }

  /** A slot that none but frozen threads holds is balanced. */
  lemma FreeSlotIsBalanced(c: Config, s: State, R: set<nat>, F: set<nat>, r: nat)
    requires Inv(c, s) && r < c.size && r in R && NoneHolds(c, s, R, F)
    ensures FreeBalanced(c, s, F, r)
  {
    var free := Free(s.threads, F);
    assert SlotOk(c, s, r);
    PendingHolder(c, free, Producers, r);
    PendingHolder(c, free, Consumers, r);
    forall i | 0 <= i < |free|
      ensures !HoldsSlot(c, free[i], Producers, r) && !HoldsSlot(c, free[i], Consumers, r)
    {
      assert i in F || !Holds(c, s.threads[i], R);
    }
  }

  /**
   * While the threads in F are frozen, all claims of the others on the slots in
   * R can be finished if and only if for each of these slots the stores, with
   * those that are claimed and not frozen, are as many as the takes, with those
   * that are claimed and not frozen, or one more.
   */
  lemma DrainableIff(c: Config, s: State, R: set<nat>, F: set<nat>)
    requires Inv(c, s) && forall r | r in R :: r < c.size
    ensures (exists tr :: Completions(c, tr, R, F) && tr[0] == s && NoneHolds(c, tr[|tr| - 1], R, F))
       <==> (forall r | r in R :: FreeBalanced(c, s, F, r))
  {
    hide Inv, FreeBalanced, CompletionStep;
    if forall r | r in R :: FreeBalanced(c, s, F, r) {
      var tr := DrainSlots(c, s, R, F);
    }
    if tr :| Completions(c, tr, R, F) && tr[0] == s && NoneHolds(c, tr[|tr| - 1], R, F) {
      CompletionsKeep(c, tr, R, F, |tr| - 1);
      forall r | r in R
        ensures FreeBalanced(c, s, F, r)
      {
        FreeSlotIsBalanced(c, tr[|tr| - 1], R, F, r);
      }
    }
  }

  // ----- One frozen thread -----

  /** How many tickets of slot r the producers are ahead. */
  ghost function Lead(c: Config, s: State, r: nat): int {
    Issued(c, s.pushes, r) - Issued(c, s.pops, r)
  }

  /**
   * A thread that is frozen between claiming and using a ticket concerns its
   * own slot only. On this slot, the claims of the others can be finished if
   * and only if, for a frozen push, the producers are one or two tickets ahead,
   * and for a frozen pop, the consumers are level or one ahead.
   */
  lemma OneFrozenIff(c: Config, s: State, i: nat, r: nat)
    requires Inv(c, s) && i < |s.threads| && r < c.size
    ensures HoldsSlot(c, s.threads[i], Producers, r) ==> (FreeBalanced(c, s, {i}, r) <==> 1 <= Lead(c, s, r) <= 2)
    ensures HoldsSlot(c, s.threads[i], Consumers, r) ==> (FreeBalanced(c, s, {i}, r) <==> -1 <= Lead(c, s, r) <= 0)
    ensures !Holds(c, s.threads[i], {r}) ==> (FreeBalanced(c, s, {i}, r) <==> Balanced(c, s, r))
  {
    hide Issued, LogsOk, IssuesOk;
    assert SlotOk(c, s, r);
    assert Free(s.threads, {i}) == s.threads[i := Idle];
    PendingUpdate(c, s.threads, i, Idle, Producers, r);
    PendingUpdate(c, s.threads, i, Idle, Consumers, r);
  }

  /**
   * Within a lap, a frozen push keeps the others from finishing only if a pop
   * has been claimed for its ticket, and then only on its slot; a frozen pop,
   * only if the next push on its slot has been claimed already.
   */
  lemma FrozenWithinLap(c: Config, s: State, i: nat, r: nat)
    requires Inv(c, s) && i < |s.threads| && r < c.size && s.pops <= s.pushes <= s.pops + c.size
    ensures HoldsSlot(c, s.threads[i], Producers, r) ==> (FreeBalanced(c, s, {i}, r) <==> Lead(c, s, r) == 1)
    ensures HoldsSlot(c, s.threads[i], Consumers, r) ==> (FreeBalanced(c, s, {i}, r) <==> Lead(c, s, r) == 0)
    ensures !Holds(c, s.threads[i], {r}) ==> FreeBalanced(c, s, {i}, r)
  {
    BalancedIff(c, s);
    assert Balanced(c, s, r);
    hide Issued, Inv, FreeBalanced;
    OneFrozenIff(c, s, i, r);
  }

  /** Thread i holds a ticket of slot r on the given side, and thread j one on the other side. */
  ghost predicate Opposed(c: Config, s: State, i: nat, j: nat, r: nat, side: Side) {
    && i < |s.threads| && j < |s.threads| && HoldsSlot(c, s.threads[i], side, r)
    && HoldsSlot(c, s.threads[j], if side == Producers then Consumers else Producers, r)
  }

  /**
   * And it then keeps exactly one other operation from finishing: there is a
   * thread of the other side on the slot, and with any one such thread left
   * out, all the others can finish.
   */
  lemma FrozenAffectsOne(c: Config, s: State, i: nat, r: nat, side: Side)
    requires Inv(c, s) && i < |s.threads| && r < c.size && s.pops <= s.pushes <= s.pops + c.size
    requires HoldsSlot(c, s.threads[i], side, r) && !FreeBalanced(c, s, {i}, r)
    ensures exists j :: Opposed(c, s, i, j, r, side)
    ensures forall j: nat | Opposed(c, s, i, j, r, side) :: FreeBalanced(c, s, {i, j}, r)
  {
    FrozenWithinLap(c, s, i, r);
    BalancedIff(c, s);
    assert Balanced(c, s, r);
    hide Issued;
    SomeOpposed(c, s, i, r, side);
    forall j: nat | Opposed(c, s, i, j, r, side)
      ensures FreeBalanced(c, s, {i, j}, r)
    {
      TwoFrozen(c, s, i, j, r, side);
    }
  }

  lemma SomeOpposed(c: Config, s: State, i: nat, r: nat, side: Side)
    requires Inv(c, s) && i < |s.threads| && r < c.size && HoldsSlot(c, s.threads[i], side, r)
    requires Lead(c, s, r) == if side == Producers then 0 else 1
    ensures exists j :: Opposed(c, s, i, j, r, side)
  {
    hide Issued, IssuesOk;
    assert SlotOk(c, s, r);
    var other := if side == Producers then Consumers else Producers;
    PendingHolder(c, s.threads, side, r);
    PendingHolder(c, s.threads, other, r);
    var j :| 0 <= j < |s.threads| && HoldsSlot(c, s.threads[j], other, r);
    assert Opposed(c, s, i, j, r, side);
  }

  lemma TwoFrozen(c: Config, s: State, i: nat, j: nat, r: nat, side: Side)
    requires Inv(c, s) && r < c.size && Balanced(c, s, r) && Opposed(c, s, i, j, r, side)
    ensures FreeBalanced(c, s, {i, j}, r)
  {
    hide Issued, IssuesOk, LogsOk;
    assert SlotOk(c, s, r);
    var one := s.threads[i := Idle];
    assert Free(s.threads, {i, j}) == one[j := Idle];
    PendingUpdate(c, s.threads, i, Idle, Producers, r);
    PendingUpdate(c, s.threads, i, Idle, Consumers, r);
    PendingUpdate(c, one, j, Idle, Producers, r);
    PendingUpdate(c, one, j, Idle, Consumers, r);
  }

  /** All slots are balanced exactly if the indexes are at most a lap apart, head first. */
  lemma BalancedIff(c: Config, s: State)
    requires c.Valid()
    ensures (forall r | 0 <= r < c.size :: Balanced(c, s, r)) <==> s.pops <= s.pushes <= s.pops + c.size
  {
    if s.pops <= s.pushes <= s.pops + c.size {
      forall r | 0 <= r < c.size
        ensures Balanced(c, s, r)
      {
        IssuedMonotone(c, s.pops, s.pushes, r);
        IssuedWithinLap(c, s.pushes, s.pops, r);
      }
    } else if s.pushes < s.pops {
      var r := SlotOf(c, s.pushes);
      IssuedNext(c, s.pushes, r);
      IssuedMonotone(c, s.pushes + 1, s.pops, r);
      assert !Balanced(c, s, r);
    } else {
      var r := SlotOf(c, s.pops);
      IssuedBeyondLap(c, s.pushes, s.pops);
      assert !Balanced(c, s, r);
    }
  }

  /**
   * A state is without deadlock: with the indexes at most a lap apart, as they
   * always are for try-only clients, if no slot access can succeed then no
   * operation is unfinished.
   */
  lemma NoDeadlock(c: Config, s: State)
    requires Inv(c, s) && s.pops <= s.pushes <= s.pops + c.size
    requires forall i | 0 <= i < |s.threads| :: !Ready(c, s, i)
    ensures forall i | 0 <= i < |s.threads| :: !s.threads[i].Put? && !s.threads[i].Take?
  {
    BalancedIff(c, s);
    forall i | 0 <= i < |s.threads|
      ensures !s.threads[i].Put? && !s.threads[i].Take?
    {
      if s.threads[i].Put? || s.threads[i].Take? {
        var r := if s.threads[i].Put? then Slot(c, s.threads[i].head) else Slot(c, s.threads[i].tail);
        FreeBalancedIff(c, s, r);
        var j := BalancedSlotIsNotStuck(c, s, {}, r, i);
      }
    }
  }
}
