/**
 * What a call to `AtomicQueue2` is answered with: a push returns when the slot
 * of its ticket becomes STORED with its element, a pop returns the element that
 * was in the slot of its ticket when the slot went from STORED to LOADING.
 */
module StateCalls {
  import opened Words
  import opened SlotMap
  import opened SlotStates
  import opened StateQueue
  import Q = Protocol

  ghost predicate OnlyMoves(s: State, s': State, i: nat) {
    && i < |s.threads| == |s'.threads|
    && forall j | 0 <= j < |s.threads| && j != i :: s'.threads[j] == s.threads[j]
  }

  predicate Busy(s: State, i: nat) {
    i < |s.threads| && !Resting(s.threads[i])
  }

  ghost predicate Calls(c: Config, s: State, s': State, i: nat) {
    exists op: Q.Op :: BeginStep(s, s', i, op) && (op.Push? || op.TryPush? ==> op.e != c.nil)
  }

  ghost predicate Accesses(c: Config, s: State, s': State, i: nat) {
    AccessStep(c, s, s', i, false) || AccessStep(c, s, s', i, true)
  }

  lemma AccessMoves(c: Config, s: State, i: nat, weak: bool)
    requires CanAccess(c, s, i)
    ensures Busy(s, i) && OnlyMoves(s, Access(c, s, i, weak), i)
  {
    hide Wrap, LooksFull, LooksEmpty;
  }

  /** A step is a call by a thread at rest, or an access by a thread in a call. It leaves all other threads alone. */
  lemma StepMoves(c: Config, s: State, s': State) returns (i: nat)
    requires Next(c, s, s')
    ensures OnlyMoves(s, s', i)
    ensures if Busy(s, i) then Accesses(c, s, s', i) else Busy(s', i) && Calls(c, s, s', i)
  {
    hide Access;
    if b: nat, op: Q.Op :| BeginStep(s, s', b, op) && (op.Push? || op.TryPush? ==> op.e != c.nil) {
      i := b;
    } else {
      var a: nat, weak: bool :| AccessStep(c, s, s', a, weak);
      i := a;
      AccessMoves(c, s, i, weak);
    }
  }

  // ----- Calls -----

  /** In step b, thread i has called an operation, and up to state k it has not returned. */
  ghost predicate InCall(tr: seq<State>, b: nat, k: nat, i: nat, op: Q.Op) {
    && b < k < |tr| && BeginStep(tr[b], tr[b + 1], i, op)
    && forall j | b < j <= k :: Busy(tr[j], i)
  }

  /** In step m, thread i claims the head for an element, and nothing else happens. */
  ghost predicate ClaimsHead(tr: seq<State>, m: nat, i: nat, e: int, head: u32) {
    && m + 1 < |tr| && i < |tr[m].threads| && tr[m].head == head
    && tr[m + 1] == tr[m].(head := Wrap(head + 1), threads := tr[m].threads[i := PutAcquire(e, head)])
  }

  ghost predicate ClaimsTail(tr: seq<State>, m: nat, i: nat, tail: u32) {
    && m + 1 < |tr| && i < |tr[m].threads| && tr[m].tail == tail
    && tr[m + 1] == tr[m].(tail := Wrap(tail + 1), threads := tr[m].threads[i := TakeAcquire(tail)])
  }

  /** In step m, thread i acquires the slot of the tail while it is STORED with element v. */
  ghost predicate AcquiresTail(c: Config, tr: seq<State>, m: nat, i: nat, tail: u32, v: int) {
    && m + 1 < |tr| && Shape(c, tr[m]) && i < |tr[m].threads|
    && tr[m].states[Slot(c, tail)] == STORED && tr[m].cells[Slot(c, tail)] == v
    && tr[m + 1] == SetState(tr[m], i, TakeRead(tail), Slot(c, tail), LOADING)
  }

  ghost predicate HasClaimedHead(tr: seq<State>, b: nat, k: nat, i: nat, e: int, head: u32) {
    exists m :: b < m < k && ClaimsHead(tr, m, i, e, head)
  }

  ghost predicate HasClaimedTail(tr: seq<State>, b: nat, k: nat, i: nat, tail: u32) {
    exists m :: b < m < k && ClaimsTail(tr, m, i, tail)
  }

  ghost predicate HasAcquired(c: Config, tr: seq<State>, b: nat, k: nat, i: nat, tail: u32, v: int) {
    exists m :: b < m < k && AcquiresTail(c, tr, m, i, tail, v) && HasClaimedTail(tr, b, m, i, tail)
  }

  /** The thread is where a call of the operation may be, with the element of the call. */
  predicate PcOf(op: Q.Op, pc: Pc) {
    match op
    case Push(e) => (pc.PushClaim? || pc.PutAcquire? || pc.PutWrite? || pc.PutRelease?) && pc.e == e
    case TryPush(e) =>
      (pc.TryPushLoad? || pc.TryPushCheck? || pc.TryPushClaim? || pc.PutAcquire? || pc.PutWrite? || pc.PutRelease?)
      && pc.e == e
    case Pop => pc.PopClaim? || pc.TakeAcquire? || pc.TakeRead? || pc.TakeRelease?
    case TryPop =>
      || pc.TryPopLoad? || pc.TryPopCheck? || pc.TryPopClaim?
      || pc.TakeAcquire? || pc.TakeRead? || pc.TakeRelease?
  }

  /** And it has claimed what it is going on with in this call, and acquired what it returns. */
  ghost predicate PcInCall(c: Config, tr: seq<State>, b: nat, k: nat, i: nat, op: Q.Op, s: State)
    requires Shape(c, s) && i < |s.threads|
  {
    var pc := s.threads[i];
    && PcOf(op, pc)
    && (pc.PutAcquire? || pc.PutWrite? || pc.PutRelease? ==> HasClaimedHead(tr, b, k, i, pc.e, pc.head))
    && (pc.TakeAcquire? ==> HasClaimedTail(tr, b, k, i, pc.tail))
    && (pc.TakeRead? ==> HasAcquired(c, tr, b, k, i, pc.tail, s.cells[Slot(c, pc.tail)]))
    && (pc.TakeRelease? ==> HasAcquired(c, tr, b, k, i, pc.tail, pc.v))
  }

  /** Any thread at rest may call any operation. */
  lemma MayCall(s: State, i: nat, op: Q.Op)
    requires i < |s.threads| && Resting(s.threads[i])
    ensures exists s' :: BeginStep(s, s', i, op)
  {
    assert BeginStep(s, Goto(s, i, Start(op)), i, op);
  }

  // ----- Answers -----

  /** Thread i makes the slot of the head STORED, with the element in it, and returns. */
  ghost predicate ReturnsPushed(c: Config, s: State, s': State, i: nat, e: int, head: u32) {
    && Shape(c, s) && i < |s.threads|
    && s.states[Slot(c, head)] == STORING && s.cells[Slot(c, head)] == e
    && s' == SetState(s, i, Done(Q.Pushed), Slot(c, head), STORED)
  }

  ghost predicate ReturnsPopped(c: Config, s: State, s': State, i: nat, tail: u32, v: int) {
    && Shape(c, s) && i < |s.threads| && s.states[Slot(c, tail)] == LOADING
    && s' == SetState(s, i, Done(Q.Popped(v)), Slot(c, tail), EMPTY)
  }

  ghost predicate ReturnsFull(c: Config, s: State, s': State, i: nat) {
    && i < |s.threads| && s.threads[i].TryPushCheck? && c.size < WORD
    && LooksFull(s.threads[i].head, s.tail, c.size) && s' == Goto(s, i, Done(Q.Full))
  }

  ghost predicate ReturnsEmpty(s: State, s': State, i: nat) {
    && i < |s.threads| && s.threads[i].TryPopCheck?
    && LooksEmpty(s.head, s.threads[i].tail) && s' == Goto(s, i, Done(Q.Empty))
  }

  ghost predicate AnsweredPush(c: Config, tr: seq<State>, b: nat, k: nat, i: nat, e: int) {
    && k + 1 < |tr|
    && exists head :: HasClaimedHead(tr, b, k, i, e, head) && ReturnsPushed(c, tr[k], tr[k + 1], i, e, head)
  }

  ghost predicate AnsweredPop(c: Config, tr: seq<State>, b: nat, k: nat, i: nat) {
    && k + 1 < |tr|
    && exists tail, v :: HasAcquired(c, tr, b, k, i, tail, v) && ReturnsPopped(c, tr[k], tr[k + 1], i, tail, v)
  }

  /** The answer to a call that began in step b and returns in step k. */
  ghost predicate Answered(c: Config, tr: seq<State>, b: nat, k: nat, i: nat, op: Q.Op)
    requires k + 1 < |tr|
  {
    match op
    case Push(e) => AnsweredPush(c, tr, b, k, i, e)
    case TryPush(e) => AnsweredPush(c, tr, b, k, i, e) || ReturnsFull(c, tr[k], tr[k + 1], i)
    case Pop => AnsweredPop(c, tr, b, k, i)
    case TryPop => AnsweredPop(c, tr, b, k, i) || ReturnsEmpty(tr[k], tr[k + 1], i)
  }

  // ----- The path of a call -----

  /** What one access does to a thread in a call that goes on. */
  ghost predicate GoesOn(c: Config, s: State, s': State, i: nat, op: Q.Op)
    requires Shape(c, s) && i < |s.threads|
  {
    && i < |s'.threads| && |s'.cells| == |s.cells| && PcOf(op, s'.threads[i])
    && var pc := s.threads[i]; var pc' := s'.threads[i];
       match pc'
       case PutAcquire(e, head) =>
         s' == s || (head == s.head && s' == s.(head := Wrap(head + 1), threads := s.threads[i := pc']))
       case PutWrite(e, head) => pc == PutAcquire(e, head) || s' == s
       case PutRelease(e, head) => pc == PutWrite(e, head) || s' == s
       case TakeAcquire(tail) =>
         s' == s || (tail == s.tail && s' == s.(tail := Wrap(tail + 1), threads := s.threads[i := pc']))
       case TakeRead(tail) =>
         && pc == TakeAcquire(tail) && s.states[Slot(c, tail)] == STORED
         && s' == SetState(s, i, pc', Slot(c, tail), LOADING)
       case TakeRelease(tail, v) => pc == TakeRead(tail) && v == s.cells[Slot(c, tail)]
       case _ => s' == Goto(s, i, pc')
  }

  /** And to one that returns. */
  ghost predicate ReturnsFrom(c: Config, s: State, s': State, i: nat, op: Q.Op)
    requires i < |s.threads|
  {
    var pc := s.threads[i];
    match op
    case Push(e) => pc.PutRelease? && ReturnsPushed(c, s, s', i, e, pc.head)
    case TryPush(e) => (pc.PutRelease? && ReturnsPushed(c, s, s', i, e, pc.head)) || ReturnsFull(c, s, s', i)
    case Pop => pc.TakeRelease? && ReturnsPopped(c, s, s', i, pc.tail, pc.v)
    case TryPop => (pc.TakeRelease? && ReturnsPopped(c, s, s', i, pc.tail, pc.v)) || ReturnsEmpty(s, s', i)
  }

  lemma AccessInCall(c: Config, s: State, i: nat, weak: bool, op: Q.Op)
    requires Owned(c, s) && CanAccess(c, s, i) && PcOf(op, s.threads[i])
    ensures var s' := Access(c, s, i, weak);
            if Busy(s', i) then GoesOn(c, s, s', i, op) else ReturnsFrom(c, s, s', i, op)
  {
    hide LooksFull, LooksEmpty, Wrap;
    assert OwnerOk(c, s, i);
    hide Owned;
  }

  lemma StillClaimed(c: Config, tr: seq<State>, b: nat, k: nat, i: nat, op: Q.Op, s: State, s': State)
    requires Shape(c, s) && Shape(c, s') && i < |s.threads| && i < |s'.threads|
    requires PcInCall(c, tr, b, k, i, op, s) && s'.threads[i] == s.threads[i]
    requires s.threads[i].TakeRead? ==> s'.cells[Slot(c, s.threads[i].tail)] == s.cells[Slot(c, s.threads[i].tail)]
    ensures PcInCall(c, tr, b, k + 1, i, op, s')
  {
    hide ClaimsHead, ClaimsTail, AcquiresTail, PcOf;
  }

  lemma GoesOnInCall(c: Config, tr: seq<State>, b: nat, k: nat, i: nat, op: Q.Op)
    requires b < k && k + 1 < |tr| && Busy(tr[k], i) && Shape(c, tr[k]) && Shape(c, tr[k + 1])
    requires PcInCall(c, tr, b, k, i, op, tr[k]) && GoesOn(c, tr[k], tr[k + 1], i, op)
    ensures PcInCall(c, tr, b, k + 1, i, op, tr[k + 1])
  {
    hide Wrap, PcOf, ClaimsHead, ClaimsTail, AcquiresTail;
    var pc' := tr[k + 1].threads[i];
    if tr[k + 1] == tr[k] {
      StillClaimed(c, tr, b, k, i, op, tr[k], tr[k]);
    } else if pc'.PutAcquire? {
      assert ClaimsHead(tr, k, i, pc'.e, pc'.head) by {
        HeadClaimed(c, tr, k, i, op);
      }
    } else if pc'.TakeAcquire? {
      assert ClaimsTail(tr, k, i, pc'.tail) by {
        TailClaimed(c, tr, k, i, op);
      }
    } else if pc'.TakeRead? {
      TailAcquired(c, tr, k, i, op);
      assert AcquiresTail(c, tr, k, i, pc'.tail, tr[k + 1].cells[Slot(c, pc'.tail)]);
    }
  }

  lemma HeadClaimed(c: Config, tr: seq<State>, k: nat, i: nat, op: Q.Op)
    requires k + 1 < |tr| && i < |tr[k].threads| && Shape(c, tr[k]) && GoesOn(c, tr[k], tr[k + 1], i, op)
    requires tr[k + 1] != tr[k] && tr[k + 1].threads[i].PutAcquire?
    ensures ClaimsHead(tr, k, i, tr[k + 1].threads[i].e, tr[k + 1].threads[i].head)
  {
    hide Wrap;
  }

  lemma TailClaimed(c: Config, tr: seq<State>, k: nat, i: nat, op: Q.Op)
    requires k + 1 < |tr| && i < |tr[k].threads| && Shape(c, tr[k]) && GoesOn(c, tr[k], tr[k + 1], i, op)
    requires tr[k + 1] != tr[k] && tr[k + 1].threads[i].TakeAcquire?
    ensures ClaimsTail(tr, k, i, tr[k + 1].threads[i].tail)
  {
    hide Wrap;
  }

  lemma TailAcquired(c: Config, tr: seq<State>, k: nat, i: nat, op: Q.Op)
    requires k + 1 < |tr| && i < |tr[k].threads| && Shape(c, tr[k]) && GoesOn(c, tr[k], tr[k + 1], i, op)
    requires tr[k + 1].threads[i].TakeRead?
    ensures var tail := tr[k + 1].threads[i].tail;
            && |tr[k + 1].cells| == c.size && tr[k].threads[i] == TakeAcquire(tail)
            && AcquiresTail(c, tr, k, i, tail, tr[k + 1].cells[Slot(c, tail)])
  {
    hide Wrap;
  }

  /** Nobody else writes to the cell that a thread is about to read. */
  lemma CellStays(c: Config, s: State, s': State, i: nat, j: nat)
    requires Owned(c, s) && i < |s.threads| && s.threads[i].TakeRead? && j != i
    requires if Busy(s, j) then Accesses(c, s, s', j) else Calls(c, s, s', j)
    ensures |s'.cells| == |s.cells| && Slot(c, s.threads[i].tail) < |s.cells|
    ensures s'.cells[Slot(c, s.threads[i].tail)] == s.cells[Slot(c, s.threads[i].tail)]
  {
    hide Wrap, LooksFull, LooksEmpty;
    if j < |s.threads| {
      assert OwnDifferent(c, s, i, j);
    }
  }

  lemma CallStep(c: Config, tr: seq<State>, b: nat, k: nat, i: nat, op: Q.Op)
    requires b < k && k + 1 < |tr| && Owned(c, tr[k]) && Owned(c, tr[k + 1]) && Next(c, tr[k], tr[k + 1])
    requires Busy(tr[k], i) && Busy(tr[k + 1], i) && PcInCall(c, tr, b, k, i, op, tr[k])
    ensures PcInCall(c, tr, b, k + 1, i, op, tr[k + 1])
  {
    hide Next, GoesOn, ReturnsFrom, AccessStep, OwnerOk, OwnDifferent, HasOwner;
    var s, s' := tr[k], tr[k + 1];
    var j := StepMoves(c, s, s');
    if j == i {
      hide PcInCall;
      CallOf(c, tr, b, k, i, op, s);
      AccessesInCall(c, s, s', i, op);
      GoesOnInCall(c, tr, b, k, i, op);
    } else {
      if s.threads[i].TakeRead? {
        CellStays(c, s, s', i, j);
      }
      StillClaimed(c, tr, b, k, i, op, s, s');
    }
  }

  lemma CallOf(c: Config, tr: seq<State>, b: nat, k: nat, i: nat, op: Q.Op, s: State)
    requires Shape(c, s) && i < |s.threads| && PcInCall(c, tr, b, k, i, op, s)
    ensures PcOf(op, s.threads[i])
  {
  }

  lemma AccessesInCall(c: Config, s: State, s': State, i: nat, op: Q.Op)
    requires Owned(c, s) && Busy(s, i) && PcOf(op, s.threads[i]) && Accesses(c, s, s', i)
    ensures Shape(c, s)
    ensures if Busy(s', i) then GoesOn(c, s, s', i, op) else ReturnsFrom(c, s, s', i, op)
  {
    hide Access, GoesOn, ReturnsFrom;
    AccessInCall(c, s, i, AccessStep(c, s, s', i, true), op);
  }

  lemma CallStart(c: Config, tr: seq<State>, b: nat, i: nat, op: Q.Op)
    requires b + 1 < |tr| && BeginStep(tr[b], tr[b + 1], i, op) && Shape(c, tr[b + 1])
    ensures i < |tr[b + 1].threads| && PcInCall(c, tr, b, b + 1, i, op, tr[b + 1])
  {
  }

  lemma {:induction false} CallPath(c: Config, tr: seq<State>, b: nat, k: nat, i: nat, op: Q.Op)
    requires Run(c, tr) && InCall(tr, b, k, i, op)
    ensures Owned(c, tr[k]) && PcInCall(c, tr, b, k, i, op, tr[k])
    decreases k
  {
    hide Next, BeginStep, PcInCall;
    assert Busy(tr[k], i);
    RunOwned(c, tr, k);
    if k == b + 1 {
      CallStart(c, tr, b, i, op);
    } else {
      CallPath(c, tr, b, k - 1, i, op);
      assert Busy(tr[k - 1], i) && Next(c, tr[k - 1], tr[k - 1 + 1]);
      CallStep(c, tr, b, k - 1, i, op);
    }
  }

  /**
   * In every run of `AtomicQueue2`, a call returns with what it has done
   * itself: a push makes the slot of the ticket that it has claimed STORED with
   * its element, a pop returns the element that was in the slot of its ticket
   * when it acquired that slot; a try may also return without either, after a
   * test.
   */
  lemma CallIsAnswered(c: Config, tr: seq<State>, b: nat, k: nat, i: nat, op: Q.Op)
    requires Run(c, tr) && InCall(tr, b, k, i, op) && k + 1 < |tr| && !Busy(tr[k + 1], i)
    ensures Answered(c, tr, b, k, i, op)
  {
    hide Next, BeginStep, GoesOn, Accesses, ReturnsPushed, ReturnsPopped, ReturnsFull, ReturnsEmpty;
    CallPath(c, tr, b, k, i, op);
    assert Next(c, tr[k], tr[k + 1]) && Busy(tr[k], i);
    var j := StepMoves(c, tr[k], tr[k + 1]);
    AccessesInCall(c, tr[k], tr[k + 1], i, op);
    hide Owned;
  }

  /** Whoever is in a call has begun it. */
  lemma {:induction false} CallBegan(c: Config, tr: seq<State>, k: nat, i: nat) returns (b: nat, op: Q.Op)
    requires Run(c, tr) && k < |tr| && Busy(tr[k], i)
    ensures InCall(tr, b, k, i, op)
    decreases k
  {
    hide Next, BeginStep, Accesses;
    if k > 0 {
      assert Next(c, tr[k - 1], tr[k - 1 + 1]);
      var j := StepMoves(c, tr[k - 1], tr[k]);
      if Busy(tr[k - 1], i) {
        b, op := CallBegan(c, tr, k - 1, i);
      } else {
        assert j == i && Calls(c, tr[k - 1], tr[k], i);
        b := k - 1;
        op :| BeginStep(tr[k - 1], tr[k], i, op);
      }
    }
  }

  /** In every run, every return answers the call that the thread last began. */
  lemma ReturnIsAnswer(c: Config, tr: seq<State>, k: nat, i: nat) returns (b: nat, op: Q.Op)
    requires Run(c, tr) && k + 1 < |tr| && Busy(tr[k], i) && !Busy(tr[k + 1], i)
    ensures InCall(tr, b, k, i, op) && Answered(c, tr, b, k, i, op)
  {
    hide Run, InCall, Answered;
    b, op := CallBegan(c, tr, k, i);
    CallIsAnswered(c, tr, b, k, i, op);
  }

  /** And a thread at rest keeps its result until it calls the next operation. */
  lemma ResultStays(c: Config, tr: seq<State>, k: nat, i: nat)
    requires Run(c, tr) && k + 1 < |tr| && i < |tr[k].threads| && Resting(tr[k].threads[i])
    ensures |tr[k + 1].threads| == |tr[k].threads|
    ensures tr[k + 1].threads[i] == tr[k].threads[i] || (Busy(tr[k + 1], i) && Calls(c, tr[k], tr[k + 1], i))
  {
    hide Next, BeginStep, Accesses;
    assert Next(c, tr[k], tr[k + 1]);
    var j := StepMoves(c, tr[k], tr[k + 1]);
  }

  /** A weak exchange may fail for no reason, and then it claims and acquires nothing. */
  lemma ExchangesMayFail(c: Config, s: State, i: nat)
    requires CanAccess(c, s, i)
    ensures var pc := s.threads[i]; var s' := Access(c, s, i, true);
            && (pc.TryPushClaim? ==> s' == Goto(s, i, TryPushCheck(pc.e, s.head)))
            && (pc.TryPopClaim? ==> s' == Goto(s, i, TryPopCheck(s.tail)))
            && (pc.PutAcquire? || pc.TakeAcquire? ==> s' == s)
  {
  }

  // ----- Running alone -----

  /** Accesses of thread i alone, with exchanges that fail only for a reason. */
  ghost predicate Alone(c: Config, tr: seq<State>, i: nat) {
    |tr| > 0 && forall k | 0 <= k < |tr| - 1 :: AccessStep(c, tr[k], tr[k + 1], i, false)
  }

  predicate Pushing(pc: Pc) {
    pc.TryPushLoad? || pc.TryPushCheck? || pc.TryPushClaim?
  }

  predicate Popping(pc: Pc) {
    pc.TryPopLoad? || pc.TryPopCheck? || pc.TryPopClaim?
  }

  /** How many accesses are still to come before a ticket is claimed. */
  function PushesToCome(s: State, pc: Pc): nat {
    match pc
    case TryPushLoad(_) => 3
    case TryPushCheck(_, head) => if head == s.head then 2 else 4
    case TryPushClaim(_, head) => if head == s.head then 1 else 3
    case _ => 0
  }

  lemma AloneMore(c: Config, s: State, rest: seq<State>, i: nat)
    requires Alone(c, rest, i) && AccessStep(c, s, rest[0], i, false)
    ensures Alone(c, [s] + rest, i)
  {
    hide AccessStep;
    var tr := [s] + rest;
    forall k | 0 <= k < |tr| - 1
      ensures AccessStep(c, tr[k], tr[k + 1], i, false)
    {
      if k > 0 {
        assert AccessStep(c, rest[k - 1], rest[k - 1 + 1], i, false);
      }
    }
  }

  /** One access of a `try_push` that runs alone. */
  lemma TryPushNext(c: Config, s: State, i: nat)
    requires Shape(c, s) && i < |s.threads| && Pushing(s.threads[i])
    ensures var s' := Access(c, s, i, false); var pc := s.threads[i]; var pc' := s'.threads[i];
            || (s' == ClaimPush(s, i, pc.e) && pc.TryPushClaim? && pc.head == s.head)
            || (s' == Goto(s, i, Done(Q.Full)) && pc.TryPushCheck? && LooksFull(pc.head, s.tail, c.size))
            || (&& s' == Goto(s, i, pc') && Pushing(pc') && pc'.e == pc.e
                && PushesToCome(s, pc') < PushesToCome(s, pc)
                && (pc'.TryPushClaim? ==>
                      pc.TryPushCheck? && !LooksFull(pc.head, s.tail, c.size) && pc'.head == pc.head)
                && (pc'.TryPushCheck? ==> pc'.head == s.head))
  {
    hide LooksFull, Wrap;
  }

  /**
   * A `try_push` that runs alone, from any place before its claim, also after a
   * failed exchange, claims a ticket or gives up after at most four accesses.
   * It claims exactly if the queue does not look full by then, unless it goes
   * on with a head that it has loaded before, or has made its test before.
   */
  lemma {:induction false} TryPushAlone(c: Config, s: State, i: nat) returns (tr: seq<State>)
    requires Shape(c, s) && i < |s.threads| && Pushing(s.threads[i])
    ensures Alone(c, tr, i) && tr[0] == s && |tr| <= 1 + PushesToCome(s, s.threads[i]) <= 5
    ensures tr[|tr| - 1] == ClaimPush(s, i, s.threads[i].e) || tr[|tr| - 1] == Goto(s, i, Done(Q.Full))
    ensures var pc := s.threads[i];
            pc.TryPushLoad? || (pc.TryPushClaim? && pc.head != s.head) || (pc.TryPushCheck? && pc.head == s.head) ==>
              (tr[|tr| - 1] == Goto(s, i, Done(Q.Full)) <==> LooksFull(s.head, s.tail, c.size))
    ensures s.threads[i].TryPushClaim? && s.threads[i].head == s.head ==>
              tr[|tr| - 1] == ClaimPush(s, i, s.threads[i].e)
    decreases PushesToCome(s, s.threads[i])
  {
    hide Shape, LooksFull, Wrap, Access, AccessStep;
    AloneStep(c, s, i);
    var s' := Access(c, s, i, false);
    TryPushNext(c, s, i);
    assert ClaimPush(s, i, s.threads[i].e).threads[i].PutAcquire? && Goto(s, i, Done(Q.Full)).threads[i].Done?;
    if Pushing(s'.threads[i]) {
      var rest := TryPushAlone(c, s', i);
      tr := [s] + rest;
      AloneMore(c, s, rest, i);
    } else {
      tr := [s, s'];
    }
  }

  function PopsToCome(s: State, pc: Pc): nat {
    match pc
    case TryPopLoad => 3
    case TryPopCheck(tail) => if tail == s.tail then 2 else 4
    case TryPopClaim(tail) => if tail == s.tail then 1 else 3
    case _ => 0
  }

  /** One access of a `try_pop` that runs alone. */
  lemma TryPopNext(c: Config, s: State, i: nat)
    requires Shape(c, s) && i < |s.threads| && Popping(s.threads[i])
    ensures var s' := Access(c, s, i, false); var pc := s.threads[i]; var pc' := s'.threads[i];
            || (s' == ClaimPop(s, i) && pc.TryPopClaim? && pc.tail == s.tail)
            || (s' == Goto(s, i, Done(Q.Empty)) && pc.TryPopCheck? && LooksEmpty(s.head, pc.tail))
            || (&& s' == Goto(s, i, pc') && Popping(pc')
                && PopsToCome(s, pc') < PopsToCome(s, pc)
                && (pc'.TryPopClaim? ==> pc.TryPopCheck? && !LooksEmpty(s.head, pc.tail) && pc'.tail == pc.tail)
                && (pc'.TryPopCheck? ==> pc'.tail == s.tail))
  {
    hide LooksEmpty, Wrap;
  }

  /** And so does a `try_pop`, with the test for an empty queue. */
  lemma {:induction false} TryPopAlone(c: Config, s: State, i: nat) returns (tr: seq<State>)
    requires Shape(c, s) && i < |s.threads| && Popping(s.threads[i])
    ensures Alone(c, tr, i) && tr[0] == s && |tr| <= 1 + PopsToCome(s, s.threads[i]) <= 5
    ensures tr[|tr| - 1] == ClaimPop(s, i) || tr[|tr| - 1] == Goto(s, i, Done(Q.Empty))
    ensures var pc := s.threads[i];
            pc.TryPopLoad? || (pc.TryPopClaim? && pc.tail != s.tail) || (pc.TryPopCheck? && pc.tail == s.tail) ==>
              (tr[|tr| - 1] == Goto(s, i, Done(Q.Empty)) <==> LooksEmpty(s.head, s.tail))
    ensures s.threads[i].TryPopClaim? && s.threads[i].tail == s.tail ==>
              tr[|tr| - 1] == ClaimPop(s, i)
    decreases PopsToCome(s, s.threads[i])
  {
    hide Shape, LooksEmpty, Wrap, Access, AccessStep;
    AloneStep(c, s, i);
    var s' := Access(c, s, i, false);
    TryPopNext(c, s, i);
    assert ClaimPop(s, i).threads[i].TakeAcquire? && Goto(s, i, Done(Q.Empty)).threads[i].Done?;
    if Popping(s'.threads[i]) {
      var rest := TryPopAlone(c, s', i);
      tr := [s] + rest;
      AloneMore(c, s, rest, i);
    } else {
      tr := [s, s'];
    }
  }

  lemma AloneStep(c: Config, s: State, i: nat)
    requires Shape(c, s) && i < |s.threads| && !Resting(s.threads[i])
    ensures CanAccess(c, s, i) && AccessStep(c, s, Access(c, s, i, false), i, false)
    ensures Shape(c, Access(c, s, i, false))
  {
  }
}
