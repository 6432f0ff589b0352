/** The two barriers: callers in any number below 2^32, one access per step, in any order. */
module Barriers {
  import opened Words

  // ----- Barrier2 -----

  datatype Caller = Before | Waiting(index: u32) | Returned(index: u32)

  /** The counter, the callers, and, as history, the callers that have counted down, in that order. */
  datatype Countdown = Countdown(counter: u32, callers: seq<Caller>, order: seq<nat>)

  ghost predicate CountdownInit(s: Countdown) {
    && s.counter == |s.callers| > 0 && s.order == []
    && forall i | 0 <= i < |s.callers| :: s.callers[i] == Before
  }

  /** A caller decrements the counter, with its new value as its index; then it waits until the counter is zero. */
  function Proceed(s: Countdown, i: nat): Countdown
    requires i < |s.callers|
  {
    match s.callers[i]
    case Before =>
      var index := Wrap(s.counter - 1);
      s.(counter := index, callers := s.callers[i := Waiting(index)], order := s.order + [i])
    case Waiting(index) => if s.counter == 0 then s.(callers := s.callers[i := Returned(index)]) else s
    case Returned(_) => s
  }

  ghost predicate CountdownNext(s: Countdown, s': Countdown) {
    exists i :: Proceeds(s, s', i)
  }

  ghost predicate Proceeds(s: Countdown, s': Countdown, i: nat) {
    i < |s.callers| && s' == Proceed(s, i)
  }

  ghost predicate CountdownRun(tr: seq<Countdown>) {
    && |tr| > 0 && CountdownInit(tr[0])
    && forall k | 0 <= k < |tr| - 1 :: CountdownNext(tr[k], tr[k + 1])
  }

  function Remaining(callers: seq<Caller>): nat {
    if callers == [] then 0 else (if callers[0].Before? then 1 else 0) + Remaining(callers[1..])
  }

  lemma {:induction false} RemainingUpdate(callers: seq<Caller>, i: nat, x: Caller)
    requires i < |callers|
    ensures Remaining(callers[i := x]) + (if callers[i].Before? then 1 else 0)
         == Remaining(callers) + (if x.Before? then 1 else 0)
    decreases i
  {
    if i == 0 {
      assert callers[i := x][1..] == callers[1..];
    } else {
      RemainingUpdate(callers[1..], i - 1, x);
      assert callers[i := x][1..] == callers[1..][i - 1 := x];
    }
  }

  lemma {:induction false} RemainingBounds(callers: seq<Caller>)
    ensures Remaining(callers) <= |callers|
    ensures Remaining(callers) == 0 <==> forall i | 0 <= i < |callers| :: !callers[i].Before?
    ensures Remaining(callers) == |callers| <==> forall i | 0 <= i < |callers| :: callers[i].Before?
  {
    if callers != [] {
      RemainingBounds(callers[1..]);
      assert forall i | 1 <= i < |callers| :: callers[i] == callers[1..][i - 1];
      assert forall i | 0 <= i < |callers[1..]| :: callers[1..][i] == callers[i + 1];
    }
  }

  /** The caller that counted down as number p got the index that counts from the other end. */
  ghost predicate OrderOk(s: Countdown, p: nat) {
    p < |s.order| ==>
      && s.order[p] < |s.callers| && !s.callers[s.order[p]].Before?
      && s.callers[s.order[p]].index == |s.callers| - 1 - p
  }

  ghost predicate CallerOk(s: Countdown, i: nat)
    requires i < |s.callers|
  {
    !s.callers[i].Before? ==>
      && |s.callers| - |s.order| <= s.callers[i].index < |s.callers|
      && s.order[|s.callers| - 1 - s.callers[i].index] == i
  }

  ghost predicate CountdownInv(s: Countdown) {
    && s.counter == Remaining(s.callers) && s.counter + |s.order| == |s.callers| < WORD
    && (forall p: nat :: OrderOk(s, p))
    && (forall i | 0 <= i < |s.callers| :: CallerOk(s, i))
    && (forall i | 0 <= i < |s.callers| :: s.callers[i].Returned? ==> s.counter == 0)
  }

  lemma ProceedKeepsInv(s: Countdown, i: nat)
    requires CountdownInv(s) && i < |s.callers|
    ensures CountdownInv(Proceed(s, i)) && |Proceed(s, i).callers| == |s.callers|
  {
    hide Wrap;
    var s' := Proceed(s, i);
    RemainingUpdate(s.callers, i, s'.callers[i]);
    RemainingBounds(s.callers);
    if s.callers[i].Before? {
      assert s.counter > 0;
      WrapPrevious(s.counter);
    }
    forall p: nat
      ensures OrderOk(s', p)
    {
      assert OrderOk(s, p);
    }
    forall j | 0 <= j < |s'.callers|
      ensures CallerOk(s', j)
    {
      assert CallerOk(s, j);
    }
  }

  lemma WrapPrevious(n: u32)
    requires n > 0
    ensures Wrap(n - 1) == n - 1
  {
  }

  lemma {:induction false} CountdownRunInv(tr: seq<Countdown>, k: nat)
    requires CountdownRun(tr) && k < |tr|
    ensures CountdownInv(tr[k]) && |tr[k].callers| == |tr[0].callers|
  {
    if k == 0 {
      RemainingBounds(tr[0].callers);
    } else {
      CountdownRunInv(tr, k - 1);
      assert CountdownNext(tr[k - 1], tr[k - 1 + 1]);
      var i: nat :| Proceeds(tr[k - 1], tr[k], i);
      ProceedKeepsInv(tr[k - 1], i);
    }
  }

  /** No caller returns before all have called, and the returned indexes are different and below their number. */
  lemma ReturnsTogether(tr: seq<Countdown>, k: nat, i: nat)
    requires CountdownRun(tr) && k < |tr| && i < |tr[k].callers| && tr[k].callers[i].Returned?
    ensures forall j | 0 <= j < |tr[k].callers| :: !tr[k].callers[j].Before?
    ensures tr[k].callers[i].index < |tr[k].callers|
    ensures forall j | 0 <= j < |tr[k].callers| && j != i :: tr[k].callers[j].index != tr[k].callers[i].index
  {
    CountdownRunInv(tr, k);
    RemainingBounds(tr[k].callers);
    assert CallerOk(tr[k], i);
    forall j | 0 <= j < |tr[k].callers| && j != i
      ensures tr[k].callers[j].index != tr[k].callers[i].index
    {
      assert CallerOk(tr[k], j);
    }
  }

  /** When all have returned, their indexes are the numbers below their number, each exactly once. */
  lemma IndexesArePermutation(tr: seq<Countdown>, k: nat, index: nat)
    requires CountdownRun(tr) && k < |tr| && index < |tr[k].callers|
    requires forall i | 0 <= i < |tr[k].callers| :: tr[k].callers[i].Returned?
    ensures exists i ::
              && 0 <= i < |tr[k].callers| && tr[k].callers[i].index == index
              && forall j | 0 <= j < |tr[k].callers| && j != i :: tr[k].callers[j].index != index
  {
    var s := tr[k];
    CountdownRunInv(tr, k);
    RemainingBounds(s.callers);
    assert OrderOk(s, |s.callers| - 1 - index);
    var i := s.order[|s.callers| - 1 - index];
    ReturnsTogether(tr, k, i);
  }

  /** Until all have returned, some caller can take a step that changes the state. */
  lemma CountdownNeverStuck(s: Countdown, i: nat) returns (j: nat)
    requires CountdownInv(s) && i < |s.callers| && !s.callers[i].Returned?
    ensures j < |s.callers| && Proceed(s, j) != s
  {
    RemainingBounds(s.callers);
    if s.counter == 0 {
      j := i;
    } else {
      j :| 0 <= j < |s.callers| && s.callers[j].Before?;
    }
    assert Proceed(s, j).callers[j] != s.callers[j];
  }

  // ----- Barrier -----

  datatype Waiter = Arriving | Spinning | Gone

  /** The counter, which is a signed word, the threads in `wait`, and whether the thread in `release` has returned. */
  datatype Gate = Gate(counter: int, waiters: seq<Waiter>, released: bool)

  ghost predicate GateInit(s: Gate) {
    s.counter == 0 && !s.released && forall i | 0 <= i < |s.waiters| :: s.waiters[i] == Arriving
  }

  function WaiterSteps(s: Gate, i: nat): Gate
    requires i < |s.waiters|
  {
    match s.waiters[i]
    case Arriving => s.(counter := s.counter + 1, waiters := s.waiters[i := Spinning])
    case Spinning => if s.counter == 0 then s.(waiters := s.waiters[i := Gone]) else s
    case Gone => s
  }

  /** `release` with the given counter waits until it is reached, and then resets it. */
  function ReleaserSteps(s: Gate, expected: int): Gate {
    if !s.released && s.counter == expected then s.(counter := 0, released := true) else s
  }

  ghost predicate GateNext(s: Gate, s': Gate, expected: int) {
    s' == ReleaserSteps(s, expected) || exists i :: WaiterStep(s, s', i)
  }

  ghost predicate WaiterStep(s: Gate, s': Gate, i: nat) {
    i < |s.waiters| && s' == WaiterSteps(s, i)
  }

  /** A run in which the releaser expects all the waiters. */
  ghost predicate GateRun(tr: seq<Gate>) {
    && |tr| > 0 && GateInit(tr[0]) && 0 < |tr[0].waiters| < HALF
    && forall k | 0 <= k < |tr| - 1 :: GateNext(tr[k], tr[k + 1], |tr[0].waiters|)
  }

  function Arrived(waiters: seq<Waiter>): nat {
    if waiters == [] then 0 else (if waiters[0].Arriving? then 0 else 1) + Arrived(waiters[1..])
  }

  lemma {:induction false} ArrivedUpdate(waiters: seq<Waiter>, i: nat, x: Waiter)
    requires i < |waiters|
    ensures Arrived(waiters[i := x]) + (if waiters[i].Arriving? then 0 else 1)
         == Arrived(waiters) + (if x.Arriving? then 0 else 1)
    decreases i
  {
    if i == 0 {
      assert waiters[i := x][1..] == waiters[1..];
    } else {
      ArrivedUpdate(waiters[1..], i - 1, x);
      assert waiters[i := x][1..] == waiters[1..][i - 1 := x];
    }
  }

  lemma {:induction false} ArrivedBounds(waiters: seq<Waiter>)
    ensures Arrived(waiters) <= |waiters|
    ensures Arrived(waiters) == |waiters| <==> forall i | 0 <= i < |waiters| :: !waiters[i].Arriving?
    ensures Arrived(waiters) == 0 <==> forall i | 0 <= i < |waiters| :: waiters[i].Arriving?
  {
    if waiters != [] {
      ArrivedBounds(waiters[1..]);
      assert forall i | 1 <= i < |waiters| :: waiters[i] == waiters[1..][i - 1];
      assert forall i | 0 <= i < |waiters[1..]| :: waiters[1..][i] == waiters[i + 1];
    }
  }

  ghost predicate GateInv(s: Gate, n: nat) {
    && |s.waiters| == n > 0
    && s.counter == (if s.released then 0 else Arrived(s.waiters))
    && (s.released ==> Arrived(s.waiters) == n)
    && (forall i | 0 <= i < |s.waiters| :: s.waiters[i].Gone? ==> s.released)
  }

  lemma GateNextKeepsInv(s: Gate, s': Gate, n: nat)
    requires GateInv(s, n) && GateNext(s, s', n)
    ensures GateInv(s', n)
  {
    ArrivedBounds(s.waiters);
    if i: nat :| WaiterStep(s, s', i) {
      ArrivedUpdate(s.waiters, i, s'.waiters[i]);
    }
  }

  lemma {:induction false} GateRunInv(tr: seq<Gate>, k: nat)
    requires GateRun(tr) && k < |tr|
    ensures GateInv(tr[k], |tr[0].waiters|)
  {
    if k == 0 {
      ArrivedBounds(tr[0].waiters);
    } else {
      GateRunInv(tr, k - 1);
      assert GateNext(tr[k - 1], tr[k - 1 + 1], |tr[0].waiters|);
      GateNextKeepsInv(tr[k - 1], tr[k], |tr[0].waiters|);
    }
  }

  /** No waiter leaves, and the releaser does not return, before all waiters have arrived; then all can leave. */
  lemma GateOpensForAll(tr: seq<Gate>, k: nat)
    requires GateRun(tr) && k < |tr|
    ensures var s := tr[k]; var n := |tr[0].waiters|;
            && ((s.released || exists i :: 0 <= i < |s.waiters| && s.waiters[i].Gone?) ==>
                  forall i | 0 <= i < |s.waiters| :: !s.waiters[i].Arriving?)
            && (s.released ==> forall i | 0 <= i < |s.waiters| :: WaiterSteps(s, i).waiters[i].Gone?)
            && (!s.released ==>
                  ReleaserSteps(s, n).released || exists i :: 0 <= i < |s.waiters| && s.waiters[i].Arriving?)
  {
    GateRunInv(tr, k);
    ArrivedBounds(tr[k].waiters);
  }
}
