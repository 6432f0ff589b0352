/** What the tests of `try_push` and `try_pop` guarantee, although they look at one index after the other. */
module Capacity {
  import opened Bits
  import opened Words
  import opened SlotMap
  import opened Protocol
  import Drain

  /** No thread is inside an optimistic push or pop. */
  ghost predicate TryOnly(s: State) {
    forall i | 0 <= i < |s.threads| :: !s.threads[i].PushClaim? && !s.threads[i].PopClaim?
  }

  /** A thread about to claim has slept through at most n claims on its side since it has loaded its index. */
  ghost predicate SleptAtMost(s: State, n: nat) {
    forall i | 0 <= i < |s.threads| ::
      match s.threads[i]
      case TryPushClaim(_, _, seenHead, _) => s.pushes - seenHead <= n
      case TryPopClaim(_, seenTail, _) => s.pops - seenTail <= n
      case _ => true
  }

  /** None has slept through 2^32 claims. */
  ghost predicate Awake(s: State) {
    SleptAtMost(s, WORD - 1)
  }

  /** How long a thread may sleep so that it is sure to notice that others have claimed. */
  lemma SleepIsSafeIff(seen: nat, n: nat)
    ensures (forall now: nat | seen <= now <= seen + n :: Wrap(now) == Wrap(seen) ==> now == seen) <==> n < WORD
  {
    if n >= WORD {
      assert Wrap(seen + WORD) == Wrap(seen);
    } else {
      forall now: nat | seen <= now <= seen + n && Wrap(now) == Wrap(seen)
        ensures now == seen
      {
        WrapInjective(now, seen);
      }
    }
  }

  /** If it is going to succeed, the other index that it has seen is not so old that the signed difference overflows. */
  ghost predicate Recent(s: State) {
    forall i | 0 <= i < |s.threads| ::
      match s.threads[i]
      case TryPushClaim(_, _, seenHead, seenTail) => seenHead == s.pushes ==> seenHead - seenTail < HALF
      case TryPopClaim(_, seenTail, seenHead) => seenTail == s.pops ==> seenTail - seenHead <= HALF
      case _ => true
  }

  ghost predicate WithinCapacity(c: Config, s: State) {
    s.pops <= s.pushes <= s.pops + c.size
  }

  /** A successful claim of `try_push` finds room: the tail it compared with can only have grown. */
  lemma ClaimFindsRoom(c: Config, s: State, i: nat)
    requires Inv(c, s) && Awake(s) && Recent(s) && WithinCapacity(c, s)
    requires i < |s.threads| && s.threads[i].TryPushClaim?
    requires s.head == s.threads[i].head
    ensures s.pushes == s.threads[i].seenHead && s.pushes < s.pops + c.size
  {
    var TryPushClaim(e, head, seenHead, seenTail) := s.threads[i];
    assert PcOk(c, s.threads[i], s.pushes, s.pops);
    WrapInjective(s.pushes, seenHead);
    hide Inv;
    SignedDifference(seenHead, seenTail);
  }

  lemma ClaimFindsElement(c: Config, s: State, i: nat)
    requires Inv(c, s) && Awake(s) && Recent(s) && WithinCapacity(c, s)
    requires i < |s.threads| && s.threads[i].TryPopClaim?
    requires s.tail == s.threads[i].tail
    ensures s.pops == s.threads[i].seenTail && s.pops < s.pushes
  {
    var TryPopClaim(tail, seenTail, seenHead) := s.threads[i];
    assert PcOk(c, s.threads[i], s.pushes, s.pops);
    WrapInjective(s.pops, seenTail);
    hide Inv;
    SignedDifference(seenHead, seenTail);
  }

  /** The tail may have grown, up to the head, since a `try_push` has looked at it. */
  predicate TailNow(c: Config, head: nat, tail: nat, now: nat) {
    tail <= now <= head <= now + c.size
  }

  /**
   * When the test of `try_push` has passed, the claim is sure to find room,
   * whatever the tail may be by now, if and only if the head is less than 2^31
   * ahead of the tail that it has seen.
   */
  lemma ClaimIsSafeIff(c: Config, head: nat, tail: nat)
    requires c.Valid() && tail <= head && !LooksFull(Wrap(head), Wrap(tail), c.size)
    ensures (forall now: nat | TailNow(c, head, tail, now) :: head < now + c.size) <==> head - tail < HALF
  {
    StaleFullTestIff(head, tail, c.size);
    if head - tail >= HALF {
      assert TailNow(c, head, tail, head - c.size);
    }
  }

  /** The head may have grown, up to a lap ahead of the tail, since a `try_pop` has looked at it. */
  predicate HeadNow(c: Config, head: nat, tail: nat, now: nat) {
    head <= now && tail <= now <= tail + c.size
  }

  /**
   * When the test of `try_pop` has passed, the claim is sure to find an element,
   * whatever the head may be by now, if and only if the head that it has seen is
   * at most 2^31 behind the tail.
   */
  lemma PopClaimIsSafeIff(c: Config, head: nat, tail: nat)
    requires c.Valid() && head <= tail + c.size && !LooksEmpty(Wrap(head), Wrap(tail))
    ensures (forall now: nat | HeadNow(c, head, tail, now) :: tail < now) <==> tail - head <= HALF
  {
    StaleEmptyTestIff(head, tail);
    if tail - head > HALF {
      assert HeadNow(c, head, tail, tail);
    }
  }

  lemma NextWithinCapacity(c: Config, s: State, s': State)
    requires Inv(c, s) && TryOnly(s) && Awake(s) && Recent(s) && WithinCapacity(c, s) && Next(c, s, s')
    ensures WithinCapacity(c, s')
  {
    if i: nat, lag: nat, weak: bool :| AccessStep(c, s, s', i, lag, weak) {
      if s.threads[i].TryPushClaim? && s.head == s.threads[i].head {
        ClaimFindsRoom(c, s, i);
      } else if s.threads[i].TryPopClaim? && s.tail == s.threads[i].tail {
        ClaimFindsElement(c, s, i);
      }
    }
  }

  /**
   * Any number of threads that only try never have more elements claimed than
   * there are slots, nor more taken than pushed, even though every load may
   * return a value that has long been overwritten.
   */
  lemma {:induction false} RunWithinCapacity(c: Config, tr: seq<State>, k: nat)
    requires Run(c, tr) && k < |tr|
    requires forall j | 0 <= j < k :: TryOnly(tr[j]) && Awake(tr[j]) && Recent(tr[j])
    ensures WithinCapacity(c, tr[k])
  {
    if k > 0 {
      RunWithinCapacity(c, tr, k - 1);
      RunInv(c, tr, k - 1);
      assert Next(c, tr[k - 1], tr[k - 1 + 1]);
      NextWithinCapacity(c, tr[k - 1], tr[k]);
    }
  }

  /** No slot access can succeed. */
  ghost predicate SlotsStuck(c: Config, s: State) {
    Shape(c, s) && forall i | 0 <= i < |s.threads| :: !Drain.Ready(c, s, i)
  }

  ghost predicate NoneOnSlots(s: State) {
    forall i | 0 <= i < |s.threads| :: !s.threads[i].Put? && !s.threads[i].Take?
  }

  /** Such clients never deadlock: if no slot access can succeed, no claim is unfinished. */
  lemma TriesNeverDeadlock(c: Config, tr: seq<State>, k: nat)
    requires Run(c, tr) && k < |tr| && SlotsStuck(c, tr[k])
    requires forall j | 0 <= j < k :: TryOnly(tr[j]) && Awake(tr[j]) && Recent(tr[j])
    ensures NoneOnSlots(tr[k])
  {
    hide Run, Awake, Recent, TryOnly, Inv, Drain.Ready;
    RunWithinCapacity(c, tr, k);
    RunInv(c, tr, k);
    Drain.NoDeadlock(c, tr[k]);
  }

  /** A step in which every load returns the current value. */
  ghost predicate CurrentNext(c: Config, s: State, s': State) {
    || (exists i, op :: BeginStep(c, s, s', i, op))
    || (exists i, weak :: AccessStep(c, s, s', i, 0, weak))
  }

  ghost predicate CurrentRun(c: Config, tr: seq<State>) {
    && |tr| > 0 && Init(c, tr[0])
    && forall k | 0 <= k < |tr| - 1 :: CurrentNext(c, tr[k], tr[k + 1])
  }

  /** What a thread has seen of the other index is at most a lap behind, as long as its own index has not moved. */
  ghost predicate WithinLap(c: Config, pc: Pc, pushes: nat, pops: nat) {
    match pc
    case TryPushClaim(_, _, seenHead, seenTail) => seenHead == pushes ==> seenHead - seenTail <= c.size
    case TryPopClaim(_, seenTail, seenHead) => seenTail == pops ==> seenTail <= seenHead
    case _ => true
  }

  ghost predicate AllWithinLap(c: Config, s: State) {
    forall i | 0 <= i < |s.threads| :: WithinLap(c, s.threads[i], s.pushes, s.pops)
  }

  lemma CurrentNextWithinLap(c: Config, s: State, s': State)
    requires Inv(c, s) && WithinCapacity(c, s) && AllWithinLap(c, s) && CurrentNext(c, s, s')
    ensures AllWithinLap(c, s')
  {
    hide Wrap, LooksFull, LooksEmpty, SlotOk;
    forall j | 0 <= j < |s'.threads|
      ensures WithinLap(c, s'.threads[j], s'.pushes, s'.pops)
    {
      assert WithinLap(c, s.threads[j], s.pushes, s.pops) && PcOk(c, s.threads[j], s.pushes, s.pops);
    }
  }

  /** What a run of tries with current loads keeps. */
  ghost predicate TriesInv(c: Config, s: State) {
    Inv(c, s) && WithinCapacity(c, s) && AllWithinLap(c, s)
  }

  lemma InitTriesInv(c: Config, s: State)
    requires Init(c, s)
    ensures TriesInv(c, s)
  {
    InitInv(c, s);
  }

  lemma CurrentNextKeepsTriesInv(c: Config, s: State, s': State)
    requires TriesInv(c, s) && TryOnly(s) && Awake(s) && CurrentNext(c, s, s')
    ensures TriesInv(c, s')
  {
    hide Init, Inv, CurrentNext, Next;
    CurrentIsNext(c, s, s');
    NextKeepsInv(c, s, s');
    ValidOf(c, s);
    NextWithinCapacity(c, s, s');
    CurrentNextWithinLap(c, s, s');
  }

  lemma CurrentIsNext(c: Config, s: State, s': State)
    requires CurrentNext(c, s, s')
    ensures Next(c, s, s')
  {
    hide BeginStep, AccessStep;
  }

  lemma ValidOf(c: Config, s: State)
    requires Inv(c, s)
    ensures c.size < HALF
  {
  }

  /** If loads return current values, then the signed differences of successful claims never overflow. */
  lemma {:induction false} CurrentRunWithinCapacity(c: Config, tr: seq<State>, k: nat)
    requires CurrentRun(c, tr) && k < |tr|
    requires forall j | 0 <= j < k :: TryOnly(tr[j]) && Awake(tr[j])
    ensures TriesInv(c, tr[k]) && WithinCapacity(c, tr[k])
  {
    hide TriesInv, CurrentNext;
    if k == 0 {
      InitTriesInv(c, tr[0]);
    } else {
      CurrentRunWithinCapacity(c, tr, k - 1);
      assert CurrentNext(c, tr[k - 1], tr[k - 1 + 1]);
      CurrentNextKeepsTriesInv(c, tr[k - 1], tr[k]);
    }
    assert WithinCapacity(c, tr[k]) by {
      TriesWithinCapacity(c, tr[k]);
    }
  }

  lemma TriesWithinCapacity(c: Config, s: State)
    requires TriesInv(c, s)
    ensures WithinCapacity(c, s)
  {
  }

  // ----- Operations that give up -----

  /**
   * A `try_push` has slept, after it has loaded the head, while so many pops
   * went on that the tail, now ahead of that head, looks a lap behind it.
   */
  predicate FullByOversleeping(size: nat, head: nat, tail: nat) {
    head < tail && HALF < (tail - head) % WORD <= WORD - size
  }

  /** A `try_pop` has slept, after it has loaded the tail, while so many pushes went on that the head looks behind. */
  predicate EmptyByOversleeping(head: nat, tail: nat) {
    tail < head && ((head - tail) % WORD == 0 || (head - tail) % WORD >= HALF)
  }

  lemma LooksFullIff(size: u32, head: nat, tail: nat)
    requires 0 < size < HALF
    ensures LooksFull(Wrap(head), Wrap(tail), size) ==> head >= tail + size || FullByOversleeping(size, head, tail)
    ensures FullByOversleeping(size, head, tail) ==> LooksFull(Wrap(head), Wrap(tail), size)
    ensures tail + size <= head < tail + HALF ==> LooksFull(Wrap(head), Wrap(tail), size)
  {
    StaleFullTestIff(head, tail, size);
    if head < tail {
      NegativeModulo(tail - head);
    }
  }

  lemma NegativeModulo(d: int)
    ensures (-d) % WORD == if d % WORD == 0 then 0 else WORD - d % WORD
  {
    DivMod(d, WORD);
    var q, r := d / WORD, d % WORD;
    if r == 0 {
      DivModUnique(-d, -q, 0, WORD);
    } else {
      DivModUnique(-d, -q - 1, WORD - r, WORD);
    }
  }

  lemma LooksEmptyIff(head: nat, tail: nat)
    ensures LooksEmpty(Wrap(head), Wrap(tail)) ==> head <= tail || EmptyByOversleeping(head, tail)
    ensures EmptyByOversleeping(head, tail) ==> LooksEmpty(Wrap(head), Wrap(tail))
    ensures head <= tail <= head + HALF ==> LooksEmpty(Wrap(head), Wrap(tail))
  {
    StaleEmptyTestIff(head, tail);
    if head < tail {
      NegativeModulo(tail - head);
    }
  }

  /** The access of thread i with current values makes its `try_push` return false. */
  ghost predicate GivesUpPush(c: Config, s: State, i: nat)
    requires CanAccess(c, s, i, 0)
  {
    Access(c, s, i, 0, false).threads[i] == Done(Full)
  }

  ghost predicate GivesUpPop(c: Config, s: State, i: nat)
    requires CanAccess(c, s, i, 0)
  {
    Access(c, s, i, 0, false).threads[i] == Done(Empty)
  }

  /**
   * In any reachable state of any clients: a `try_push` gives up only if the
   * queue is full at that instant, unless it has overslept, and then it does.
   */
  lemma FullIsJustified(c: Config, s: State, i: nat)
    requires Inv(c, s) && CanAccess(c, s, i, 0) && s.threads[i].TryPushCheck?
    ensures var seen := s.threads[i].seenHead;
            && (GivesUpPush(c, s, i) ==> s.pushes >= s.pops + c.size || FullByOversleeping(c.size, seen, s.pops))
            && (FullByOversleeping(c.size, seen, s.pops) ==> GivesUpPush(c, s, i))
            && (s.pops + c.size <= seen < s.pops + HALF ==> GivesUpPush(c, s, i))
  {
    hide LooksFull, Wrap, FullByOversleeping;
    assert PcOk(c, s.threads[i], s.pushes, s.pops);
    LooksFullIff(c.size, s.threads[i].seenHead, s.pops);
  }

  lemma EmptyIsJustified(c: Config, s: State, i: nat)
    requires Inv(c, s) && CanAccess(c, s, i, 0) && s.threads[i].TryPopCheck?
    ensures var seen := s.threads[i].seenTail;
            && (GivesUpPop(c, s, i) ==> s.pushes <= s.pops || EmptyByOversleeping(s.pushes, seen))
            && (EmptyByOversleeping(s.pushes, seen) ==> GivesUpPop(c, s, i))
            && (s.pushes <= seen <= s.pushes + HALF ==> GivesUpPop(c, s, i))
  {
    hide LooksEmpty, Wrap, EmptyByOversleeping;
    assert PcOk(c, s.threads[i], s.pushes, s.pops);
    LooksEmptyIff(s.pushes, s.threads[i].seenTail);
  }

  /** A thread has not overslept as long as the other index is at most 2^31, or less, past the one that it has seen. */
  lemma NotOverslept(size: nat, head: nat, tail: nat)
    ensures tail - head <= HALF ==> !FullByOversleeping(size, head, tail)
    ensures head - tail < HALF ==> !EmptyByOversleeping(head, tail)
  {
    if 0 < tail - head <= HALF {
      DivModUnique(tail - head, 0, tail - head, WORD);
    }
    if 0 < head - tail < HALF {
      DivModUnique(head - tail, 0, head - tail, WORD);
    }
  }

  /** How far the head may be by now, at most a lap ahead of the tail. */
  predicate PushesNow(c: Config, seen: nat, pops: nat, now: nat) {
    seen <= now && pops <= now <= pops + c.size
  }

  /**
   * With the head that it has seen and the tail as it is, a `try_push` that
   * gives up is sure to do so on a full queue, whatever the head may be by
   * now, if and only if it has not overslept.
   */
  lemma FullIsJustifiedIff(c: Config, seen: nat, pops: nat)
    requires c.Valid() && seen <= pops + c.size
    ensures (forall now: nat | PushesNow(c, seen, pops, now) ::
               LooksFull(Wrap(seen), Wrap(pops), c.size) ==> now == pops + c.size)
       <==> !FullByOversleeping(c.size, seen, pops)
  {
    hide Wrap, LooksFull;
    LooksFullIff(c.size, seen, pops);
    if FullByOversleeping(c.size, seen, pops) {
      assert PushesNow(c, seen, pops, pops);
    }
  }

  /** How far the tail may be by now, at most a lap behind the head. */
  predicate PopsNow(c: Config, seen: nat, pushes: nat, now: nat) {
    seen <= now <= pushes <= now + c.size
  }

  /** Likewise for a `try_pop`, with the tail that it has seen and the head as it is. */
  lemma EmptyIsJustifiedIff(c: Config, seen: nat, pushes: nat)
    requires c.Valid() && seen <= pushes
    ensures (forall now: nat | PopsNow(c, seen, pushes, now) ::
               LooksEmpty(Wrap(pushes), Wrap(seen)) ==> now == pushes)
       <==> !EmptyByOversleeping(pushes, seen)
  {
    hide Wrap, LooksEmpty;
    LooksEmptyIff(pushes, seen);
    if EmptyByOversleeping(pushes, seen) {
      assert PopsNow(c, seen, pushes, pushes - 1);
    }
  }

  /** Thread i returns the given result in step k. */
  ghost predicate ReturnsAt(tr: seq<State>, k: nat, i: nat, result: Result) {
    && k + 1 < |tr| && i < |tr[k].threads| && i < |tr[k + 1].threads|
    && tr[k].threads[i] != tr[k + 1].threads[i] == Done(result)
  }

  /**
   * In every run of tries with current loads, `try_push` returns false only
   * when the queue is full, with `size` elements claimed and not popped, unless
   * the tail has gone more than 2^31 past the head that its thread has seen.
   */
  lemma RunFullIsJustified(c: Config, tr: seq<State>, k: nat, i: nat)
    requires CurrentRun(c, tr) && ReturnsAt(tr, k, i, Full)
    requires forall j | 0 <= j < k :: TryOnly(tr[j]) && Awake(tr[j])
    ensures tr[k].threads[i].TryPushCheck?
    ensures FullByOversleeping(c.size, tr[k].threads[i].seenHead, tr[k].pops) || tr[k].pushes == tr[k].pops + c.size
    ensures tr[k].pops - tr[k].threads[i].seenHead <= HALF ==> tr[k].pushes == tr[k].pops + c.size
  {
    CurrentRunWithinCapacity(c, tr, k);
    assert CurrentNext(c, tr[k], tr[k + 1]);
    hide CurrentRun, CurrentNext, AllWithinLap, Inv, GivesUpPush, GivesUpPop, CanAccess, FullByOversleeping;
    FullReturn(c, tr[k], tr[k + 1], i);
    NotOverslept(c.size, tr[k].threads[i].seenHead, tr[k].pops);
    FullIsJustified(c, tr[k], i);
    SeenAtMost(c, tr[k], i);
  }

  lemma SeenAtMost(c: Config, s: State, i: nat)
    requires Inv(c, s) && i < |s.threads|
    ensures s.threads[i].TryPushCheck? ==> s.threads[i].seenHead <= s.pushes
    ensures s.threads[i].TryPopCheck? ==> s.threads[i].seenTail <= s.pops
  {
    assert PcOk(c, s.threads[i], s.pushes, s.pops);
  }

  lemma FullReturn(c: Config, s: State, s': State, i: nat)
    requires Inv(c, s) && CurrentNext(c, s, s') && i < |s.threads| && i < |s'.threads|
    requires s.threads[i] != s'.threads[i] == Done(Full)
    ensures CanAccess(c, s, i, 0) && s.threads[i].TryPushCheck? && GivesUpPush(c, s, i)
  {
    hide Wrap, SlotOk, LooksFull, LooksEmpty;
  }

  /**
   * And `try_pop` returns false only when it is empty, unless the head has gone
   * 2^31 or more past the tail that its thread has seen.
   */
  lemma RunEmptyIsJustified(c: Config, tr: seq<State>, k: nat, i: nat)
    requires CurrentRun(c, tr) && ReturnsAt(tr, k, i, Empty)
    requires forall j | 0 <= j < k :: TryOnly(tr[j]) && Awake(tr[j])
    ensures tr[k].threads[i].TryPopCheck?
    ensures EmptyByOversleeping(tr[k].pushes, tr[k].threads[i].seenTail) || tr[k].pushes == tr[k].pops
    ensures tr[k].pushes - tr[k].threads[i].seenTail < HALF ==> tr[k].pushes == tr[k].pops
  {
    CurrentRunWithinCapacity(c, tr, k);
    assert CurrentNext(c, tr[k], tr[k + 1]);
    hide CurrentRun, CurrentNext, AllWithinLap, Inv, GivesUpPush, GivesUpPop, CanAccess, EmptyByOversleeping;
    EmptyReturn(c, tr[k], tr[k + 1], i);
    NotOverslept(0, tr[k].pushes, tr[k].threads[i].seenTail);
    EmptyIsJustified(c, tr[k], i);
    SeenAtMost(c, tr[k], i);
  }

  lemma EmptyReturn(c: Config, s: State, s': State, i: nat)
    requires Inv(c, s) && CurrentNext(c, s, s') && i < |s.threads| && i < |s'.threads|
    requires s.threads[i] != s'.threads[i] == Done(Empty)
    ensures CanAccess(c, s, i, 0) && s.threads[i].TryPopCheck? && GivesUpPop(c, s, i)
  {
    hide Wrap, SlotOk, LooksFull, LooksEmpty;
  }
}
