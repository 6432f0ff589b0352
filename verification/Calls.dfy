/**
 * What a call to the queue is answered with: in every run, a thread gets a
 * result that says what its own operation has done, with the element that it
 * has passed and a ticket that it has claimed in this call.
 */
module Calls {
  import opened Words
  import opened SlotMap
  import opened Protocol

  // ----- One thread at a time -----

  ghost predicate OnlyMoves(s: State, s': State, i: nat) {
    && i < |s.threads| == |s'.threads|
    && forall j | 0 <= j < |s.threads| && j != i :: s'.threads[j] == s.threads[j]
  }

  predicate Busy(s: State, i: nat) {
    i < |s.threads| && !Resting(s.threads[i])
  }

  lemma AccessMoves(c: Config, s: State, i: nat, lag: nat, weak: bool)
    requires CanAccess(c, s, i, lag)
    ensures Busy(s, i) && OnlyMoves(s, Access(c, s, i, lag, weak), i)
  {
    hide Wrap, LooksFull, LooksEmpty;
  }

  ghost predicate Calls(c: Config, s: State, s': State, i: nat) {
    exists op :: BeginStep(c, s, s', i, op)
  }

  ghost predicate Accesses(c: Config, s: State, s': State, i: nat) {
    exists lag: nat :: AccessesAged(c, s, s', i, lag)
  }

  ghost predicate AccessesAged(c: Config, s: State, s': State, i: nat, lag: nat) {
    AccessStep(c, s, s', i, lag, false) || AccessStep(c, s, s', i, lag, true)
  }

  /** A step is a call by a thread at rest, or an access by a thread in a call. It leaves all other threads alone. */
  lemma StepMoves(c: Config, s: State, s': State) returns (i: nat)
    requires Next(c, s, s')
    ensures OnlyMoves(s, s', i)
    ensures if Busy(s, i) then Accesses(c, s, s', i) else Busy(s', i) && Calls(c, s, s', i)
  {
    hide Access, AccessStep;
    if b: nat, op: Op :| BeginStep(c, s, s', b, op) {
      i := b;
    } else {
      var a: nat, lag: nat, weak: bool :| AccessStep(c, s, s', a, lag, weak);
      i := a;
      AccessStepMoves(c, s, s', i, lag, weak);
      assert AccessesAged(c, s, s', i, lag);
    }
  }

  lemma AccessStepMoves(c: Config, s: State, s': State, i: nat, lag: nat, weak: bool)
    requires AccessStep(c, s, s', i, lag, weak)
    ensures Busy(s, i) && OnlyMoves(s, s', i)
  {
    AccessMoves(c, s, i, lag, weak);
  }

  // ----- Calls -----

  /** In step b, thread i has called an operation, and up to state k it has not returned. */
  ghost predicate InCall(c: Config, tr: seq<State>, b: nat, k: nat, i: nat, op: Op) {
    && b < k < |tr| && BeginStep(c, tr[b], tr[b + 1], i, op)
    && forall j | b < j <= k :: Busy(tr[j], i)
  }

  /** Between two states, thread i claims ticket t for an element, and nothing else happens. */
  ghost predicate ClaimsPush(s: State, s': State, i: nat, e: int, t: nat) {
    && i < |s.threads| && t == s.pushes
    && s' == s.(head := Wrap(t + 1), pushes := t + 1, threads := s.threads[i := Put(e, Wrap(t), t)])
  }

  ghost predicate ClaimsPop(s: State, s': State, i: nat, t: nat) {
    && i < |s.threads| && t == s.pops
    && s' == s.(tail := Wrap(t + 1), pops := t + 1, threads := s.threads[i := Take(Wrap(t), t)])
  }

  ghost predicate ClaimsPushAt(tr: seq<State>, m: nat, i: nat, e: int, t: nat) {
    m + 1 < |tr| && ClaimsPush(tr[m], tr[m + 1], i, e, t)
  }

  ghost predicate ClaimsPopAt(tr: seq<State>, m: nat, i: nat, t: nat) {
    m + 1 < |tr| && ClaimsPop(tr[m], tr[m + 1], i, t)
  }

  /** Thread i has claimed ticket t in its call since step b. */
  ghost predicate HasClaimedPush(tr: seq<State>, b: nat, k: nat, i: nat, e: int, t: nat) {
    exists m :: b < m < k && ClaimsPushAt(tr, m, i, e, t)
  }

  ghost predicate HasClaimedPop(tr: seq<State>, b: nat, k: nat, i: nat, t: nat) {
    exists m :: b < m < k && ClaimsPopAt(tr, m, i, t)
  }

  /** Where a thread may be in a call. */
  ghost predicate PcInCall(tr: seq<State>, b: nat, k: nat, i: nat, op: Op, pc: Pc) {
    match op
    case Push(e) => pc == PushClaim(e) || (pc.Put? && pc.e == e && HasClaimedPush(tr, b, k, i, e, pc.ticket))
    case TryPush(e) =>
      || ((pc.TryPushLoad? || pc.TryPushCheck? || pc.TryPushClaim?) && pc.e == e)
      || (pc.Put? && pc.e == e && HasClaimedPush(tr, b, k, i, e, pc.ticket))
    case Pop => pc == PopClaim || (pc.Take? && HasClaimedPop(tr, b, k, i, pc.ticket))
    case TryPop =>
      || pc.TryPopLoad? || pc.TryPopCheck? || pc.TryPopClaim?
      || (pc.Take? && HasClaimedPop(tr, b, k, i, pc.ticket))
  }

  /** Any thread at rest may call any operation, with any element but the reserved one. */
  lemma MayCall(c: Config, s: State, i: nat, op: Op)
    requires i < |s.threads| && Resting(s.threads[i]) && (op.Push? || op.TryPush? ==> op.e != c.nil)
    ensures exists s' :: BeginStep(c, s, s', i, op)
  {
    assert BeginStep(c, s, Begin(s, i, op), i, op);
  }

  // ----- Answers -----

  /** Between two states, thread i returns from storing an element with ticket t, and nothing else happens. */
  ghost predicate ReturnsPushed(c: Config, s: State, s': State, i: nat, e: int, t: nat) {
    && Shape(c, s) && i < |s.threads| && s.cells[SlotOf(c, t)] == c.nil
    && var r := SlotOf(c, t);
       s' == s.(cells := s.cells[r := e], stored := s.stored[r := s.stored[r] + [Entry(e, t, s.pushes)]],
                threads := s.threads[i := Done(Pushed)])
  }

  /** Thread i returns with the element that it takes from the slot of ticket t. */
  ghost predicate ReturnsPopped(c: Config, s: State, s': State, i: nat, t: nat) {
    && Shape(c, s) && i < |s.threads| && s.cells[SlotOf(c, t)] != c.nil
    && var r := SlotOf(c, t); var v := s.cells[r];
       s' == s.(cells := s.cells[r := c.nil], taken := s.taken[r := s.taken[r] + [Exit(v, t)]],
                threads := s.threads[i := Done(Popped(v))])
  }

  /** Thread i returns without having done anything, after a test with some past value of the tail. */
  ghost predicate ReturnsFull(c: Config, s: State, s': State, i: nat) {
    && Shape(c, s) && i < |s.threads| && s.threads[i].TryPushCheck? && s' == Goto(s, i, Done(Full))
    && exists now: nat :: now <= s.pops && LooksFull(s.threads[i].head, Wrap(now), c.size)
  }

  ghost predicate ReturnsEmpty(c: Config, s: State, s': State, i: nat) {
    && Shape(c, s) && i < |s.threads| && s.threads[i].TryPopCheck? && s' == Goto(s, i, Done(Empty))
    && exists now: nat :: now <= s.pushes && LooksEmpty(Wrap(now), s.threads[i].tail)
  }

  ghost predicate AnsweredPush(c: Config, tr: seq<State>, b: nat, k: nat, i: nat, e: int) {
    && k + 1 < |tr|
    && exists t :: HasClaimedPush(tr, b, k, i, e, t) && ReturnsPushed(c, tr[k], tr[k + 1], i, e, t)
  }

  ghost predicate AnsweredPop(c: Config, tr: seq<State>, b: nat, k: nat, i: nat) {
    && k + 1 < |tr|
    && exists t :: HasClaimedPop(tr, b, k, i, t) && ReturnsPopped(c, tr[k], tr[k + 1], i, t)
  }

  /** The answer to a call that began in step b and returns in step k. */
  ghost predicate Answered(c: Config, tr: seq<State>, b: nat, k: nat, i: nat, op: Op)
    requires k + 1 < |tr|
  {
    match op
    case Push(e) => AnsweredPush(c, tr, b, k, i, e)
    case TryPush(e) => AnsweredPush(c, tr, b, k, i, e) || ReturnsFull(c, tr[k], tr[k + 1], i)
    case Pop => AnsweredPop(c, tr, b, k, i)
    case TryPop => AnsweredPop(c, tr, b, k, i) || ReturnsEmpty(c, tr[k], tr[k + 1], i)
  }

  // ----- The path of a call -----

  /** What one access does to a thread in a call: it goes on, claims, or returns. */
  ghost predicate GoesOn(c: Config, s: State, s': State, i: nat, op: Op) {
    && i < |s.threads| == |s'.threads|
    && var pc := s'.threads[i];
       match op
       case Push(e) => s' == s || ClaimsPush(s, s', i, e, s.pushes)
       case TryPush(e) =>
         || ((pc.TryPushCheck? || pc.TryPushClaim?) && pc.e == e && s' == Goto(s, i, pc)) || s' == s
         || ClaimsPush(s, s', i, e, s.pushes)
       case Pop => s' == s || ClaimsPop(s, s', i, s.pops)
       case TryPop =>
         || ((pc.TryPopCheck? || pc.TryPopClaim?) && s' == Goto(s, i, pc)) || s' == s
         || ClaimsPop(s, s', i, s.pops)
  }

  ghost predicate ReturnsFrom(c: Config, s: State, s': State, i: nat, op: Op) {
    && i < |s.threads|
    && var pc := s.threads[i];
       match op
       case Push(e) => pc.Put? && pc.e == e && ReturnsPushed(c, s, s', i, e, pc.ticket)
       case TryPush(e) =>
         (pc.Put? && pc.e == e && ReturnsPushed(c, s, s', i, e, pc.ticket)) || ReturnsFull(c, s, s', i)
       case Pop => pc.Take? && ReturnsPopped(c, s, s', i, pc.ticket)
       case TryPop => (pc.Take? && ReturnsPopped(c, s, s', i, pc.ticket)) || ReturnsEmpty(c, s, s', i)
  }

  lemma PushAccess(c: Config, s: State, i: nat, lag: nat, weak: bool, e: int, op: Op)
    requires Inv(c, s) && CanAccess(c, s, i, lag) && (op == Push(e) || op == TryPush(e))
    requires var pc := s.threads[i];
             || (op.Push? && pc == PushClaim(e)) || (pc.Put? && pc.e == e)
             || (op.TryPush? && (pc.TryPushLoad? || pc.TryPushCheck? || pc.TryPushClaim?) && pc.e == e)
    ensures var s' := Access(c, s, i, lag, weak);
            && |s'.threads| == |s.threads|
            && if Busy(s', i) then GoesOn(c, s, s', i, op) else ReturnsFrom(c, s, s', i, op)
  {
    hide SlotOk, LooksFull, LooksEmpty;
    WrapNext(s.pushes);
    assert PcOk(c, s.threads[i], s.pushes, s.pops);
    hide Wrap;
    var s' := Access(c, s, i, lag, weak);
    if s'.pushes != s.pushes {
      assert ClaimsPush(s, s', i, e, s.pushes);
    }
  }

  lemma PopAccess(c: Config, s: State, i: nat, lag: nat, weak: bool, op: Op)
    requires Inv(c, s) && CanAccess(c, s, i, lag) && (op == Pop || op == TryPop)
    requires var pc := s.threads[i];
             || (op.Pop? && pc == PopClaim) || pc.Take?
             || (op.TryPop? && (pc.TryPopLoad? || pc.TryPopCheck? || pc.TryPopClaim?))
    ensures var s' := Access(c, s, i, lag, weak);
            && |s'.threads| == |s.threads|
            && if Busy(s', i) then GoesOn(c, s, s', i, op) else ReturnsFrom(c, s, s', i, op)
  {
    hide SlotOk, LooksFull, LooksEmpty;
    WrapNext(s.pops);
    assert PcOk(c, s.threads[i], s.pushes, s.pops);
    hide Wrap;
    var s' := Access(c, s, i, lag, weak);
    if s'.pops != s.pops {
      assert ClaimsPop(s, s', i, s.pops);
    }
  }

  /** The thread is where a call of the operation may be, with the element of the call. */
  predicate PcOf(op: Op, pc: Pc) {
    match op
    case Push(e) => pc == PushClaim(e) || (pc.Put? && pc.e == e)
    case TryPush(e) => (pc.TryPushLoad? || pc.TryPushCheck? || pc.TryPushClaim? || pc.Put?) && pc.e == e
    case Pop => pc == PopClaim || pc.Take?
    case TryPop => pc.TryPopLoad? || pc.TryPopCheck? || pc.TryPopClaim? || pc.Take?
  }

  lemma PcInCallIsOf(tr: seq<State>, b: nat, k: nat, i: nat, op: Op, pc: Pc)
    requires PcInCall(tr, b, k, i, op, pc)
    ensures PcOf(op, pc)
  {
  }

  /** What an access does to a thread in a call of the operation. */
  lemma AccessInCall(c: Config, s: State, s': State, i: nat, op: Op)
    requires Inv(c, s) && Busy(s, i) && PcOf(op, s.threads[i]) && Accesses(c, s, s', i)
    ensures |s'.threads| == |s.threads|
    ensures if Busy(s', i) then GoesOn(c, s, s', i, op) else ReturnsFrom(c, s, s', i, op)
  {
    hide Inv, Access, GoesOn, ReturnsFrom;
    var lag: nat :| AccessesAged(c, s, s', i, lag);
    var weak := AccessStep(c, s, s', i, lag, true);
    if op.Push? || op.TryPush? {
      PushAccess(c, s, i, lag, weak, op.e, op);
    } else {
      PopAccess(c, s, i, lag, weak, op);
    }
  }

  lemma StillClaimed(tr: seq<State>, b: nat, k: nat, i: nat, op: Op, pc: Pc)
    requires PcInCall(tr, b, k, i, op, pc)
    ensures PcInCall(tr, b, k + 1, i, op, pc)
  {
    hide ClaimsPushAt, ClaimsPopAt;
  }

  lemma GoesOnInCall(c: Config, tr: seq<State>, b: nat, k: nat, i: nat, op: Op)
    requires b < k && k + 1 < |tr| && Busy(tr[k], i) && PcInCall(tr, b, k, i, op, tr[k].threads[i])
    requires GoesOn(c, tr[k], tr[k + 1], i, op)
    ensures PcInCall(tr, b, k + 1, i, op, tr[k + 1].threads[i])
  {
    hide Wrap;
    if tr[k + 1] == tr[k] {
      StillClaimed(tr, b, k, i, op, tr[k].threads[i]);
    } else if op.Push? || op.TryPush? {
      if ClaimsPush(tr[k], tr[k + 1], i, op.e, tr[k].pushes) {
        assert ClaimsPushAt(tr, k, i, op.e, tr[k].pushes);
      }
    } else if ClaimsPop(tr[k], tr[k + 1], i, tr[k].pops) {
      assert ClaimsPopAt(tr, k, i, tr[k].pops);
    }
  }

  lemma CallStep(c: Config, tr: seq<State>, b: nat, k: nat, i: nat, op: Op)
    requires b < k && k + 1 < |tr| && Inv(c, tr[k]) && Next(c, tr[k], tr[k + 1])
    requires Busy(tr[k], i) && Busy(tr[k + 1], i) && PcInCall(tr, b, k, i, op, tr[k].threads[i])
    ensures PcInCall(tr, b, k + 1, i, op, tr[k + 1].threads[i])
  {
    hide Next, Inv, GoesOn, ReturnsFrom, Accesses, PcInCall;
    var j := StepMoves(c, tr[k], tr[k + 1]);
    if j == i {
      PcInCallIsOf(tr, b, k, i, op, tr[k].threads[i]);
      AccessInCall(c, tr[k], tr[k + 1], i, op);
      GoesOnInCall(c, tr, b, k, i, op);
    } else {
      StillClaimed(tr, b, k, i, op, tr[k].threads[i]);
    }
  }

  lemma CallStart(c: Config, tr: seq<State>, b: nat, i: nat, op: Op)
    requires b + 1 < |tr| && BeginStep(c, tr[b], tr[b + 1], i, op)
    ensures i < |tr[b + 1].threads| && PcInCall(tr, b, b + 1, i, op, tr[b + 1].threads[i])
  {
  }

  lemma {:induction false} CallPath(c: Config, tr: seq<State>, b: nat, k: nat, i: nat, op: Op)
    requires Run(c, tr) && InCall(c, tr, b, k, i, op)
    ensures PcInCall(tr, b, k, i, op, tr[k].threads[i])
    decreases k
  {
    hide Next, BeginStep, Inv, PcInCall;
    assert Busy(tr[k], i);
    if k == b + 1 {
      CallStart(c, tr, b, i, op);
    } else {
      CallPath(c, tr, b, k - 1, i, op);
      RunInv(c, tr, k - 1);
      assert Busy(tr[k - 1], i) && Next(c, tr[k - 1], tr[k - 1 + 1]);
      CallStep(c, tr, b, k - 1, i, op);
    }
  }

  /**
   * In every run, a call returns with what it has done itself: a push has
   * stored its element, a pop has taken the element that it returns, in each
   * case exactly once, with a ticket that the thread has claimed in this call;
   * a try may return without either, after a test.
   */
  lemma CallIsAnswered(c: Config, tr: seq<State>, b: nat, k: nat, i: nat, op: Op)
    requires Run(c, tr) && InCall(c, tr, b, k, i, op) && k + 1 < |tr| && !Busy(tr[k + 1], i)
    ensures Answered(c, tr, b, k, i, op)
  {
    hide Next, BeginStep, Inv, GoesOn, Accesses, ReturnsPushed, ReturnsPopped, ReturnsFull, ReturnsEmpty;
    CallPath(c, tr, b, k, i, op);
    RunInv(c, tr, k);
    assert Next(c, tr[k], tr[k + 1]);
    assert Busy(tr[k], i);
    var j := StepMoves(c, tr[k], tr[k + 1]);
    PcInCallIsOf(tr, b, k, i, op, tr[k].threads[i]);
    AccessInCall(c, tr[k], tr[k + 1], i, op);
  }

  /** Whoever is in a call has begun it. */
  lemma {:induction false} CallBegan(c: Config, tr: seq<State>, k: nat, i: nat) returns (b: nat, op: Op)
    requires Run(c, tr) && k < |tr| && Busy(tr[k], i)
    ensures InCall(c, tr, b, k, i, op)
    decreases k
  {
    hide Next, BeginStep, Accesses;
    if k > 0 {
      assert Next(c, tr[k - 1], tr[k - 1 + 1]);
      var j := StepMoves(c, tr[k - 1], tr[k]);
      if Busy(tr[k - 1], i) {
        b, op := CallBegan(c, tr, k - 1, i);
      } else {
        assert j == i && Calls(c, tr[k - 1], tr[k], i);
        b := k - 1;
        op :| BeginStep(c, tr[k - 1], tr[k], i, op);
      }
    }
  }

  /** In every run, every return answers the call that the thread last began. */
  lemma ReturnIsAnswer(c: Config, tr: seq<State>, k: nat, i: nat) returns (b: nat, op: Op)
    requires Run(c, tr) && k + 1 < |tr| && Busy(tr[k], i) && !Busy(tr[k + 1], i)
    ensures InCall(c, tr, b, k, i, op) && Answered(c, tr, b, k, i, op)
  {
    hide Run, InCall, Answered;
    b, op := CallBegan(c, tr, k, i);
    CallIsAnswered(c, tr, b, k, i, op);
  }

  /** And a thread at rest keeps its result until it calls the next operation. */
  lemma ResultStays(c: Config, tr: seq<State>, k: nat, i: nat)
    requires Run(c, tr) && k + 1 < |tr| && i < |tr[k].threads| && Resting(tr[k].threads[i])
    ensures |tr[k + 1].threads| == |tr[k].threads|
    ensures tr[k + 1].threads[i] == tr[k].threads[i] || (Busy(tr[k + 1], i) && Calls(c, tr[k], tr[k + 1], i))
  {
    hide Next, BeginStep, Accesses;
    assert Next(c, tr[k], tr[k + 1]);
    var j := StepMoves(c, tr[k], tr[k + 1]);
  }

  // ----- What the accesses allow -----

  /** A load may return any value that the index has had, and the test then decides on that value. */
  lemma LoadsMayBeStale(c: Config, s: State, i: nat, lag: nat, weak: bool)
    requires Inv(c, s) && CanAccess(c, s, i, lag)
    ensures var pc := s.threads[i]; var s' := Access(c, s, i, lag, weak); var pc' := s'.threads[i];
            && (pc.TryPushLoad? || (pc.TryPushClaim? && pc'.TryPushCheck?) ==>
                  pc' == TryPushCheck(pc.e, Wrap(s.pushes - lag), s.pushes - lag))
            && (pc.TryPopLoad? || (pc.TryPopClaim? && pc'.TryPopCheck?) ==>
                  pc' == TryPopCheck(Wrap(s.pops - lag), s.pops - lag))
            && (pc.TryPushCheck? ==> (pc' == Done(Full) <==> LooksFull(pc.head, Wrap(s.pops - lag), c.size)))
            && (pc.TryPopCheck? ==> (pc' == Done(Empty) <==> LooksEmpty(Wrap(s.pushes - lag), pc.tail)))
  {
    hide SlotOk, LooksFull, LooksEmpty, Wrap;
  }

  /** A weak exchange may fail for no reason, and then it claims and stores nothing. */
  lemma ExchangesMayFail(c: Config, s: State, i: nat, lag: nat)
    requires Inv(c, s) && CanAccess(c, s, i, lag)
    ensures var pc := s.threads[i]; var s' := Access(c, s, i, lag, true);
            && (pc.TryPushClaim? ==> s'.threads[i].TryPushCheck? && s'.pushes == s.pushes)
            && (pc.TryPopClaim? ==> s'.threads[i].TryPopCheck? && s'.pops == s.pops)
            && (pc.Put? ==> s' == s)
  {
    hide SlotOk, LooksFull, LooksEmpty, Wrap;
  }

  // ----- Running alone -----

  /** Accesses of thread i alone, with current loads and exchanges that fail only for a reason. */
  ghost predicate Alone(c: Config, tr: seq<State>, i: nat) {
    |tr| > 0 && forall k | 0 <= k < |tr| - 1 :: AccessStep(c, tr[k], tr[k + 1], i, 0, false)
  }

  predicate Pushing(pc: Pc) {
    pc.TryPushLoad? || pc.TryPushCheck? || pc.TryPushClaim?
  }

  predicate Popping(pc: Pc) {
    pc.TryPopLoad? || pc.TryPopCheck? || pc.TryPopClaim?
  }

  /** How many accesses are still to come before a ticket is claimed. */
  function PushesToCome(s: State, pc: Pc): nat {
    match pc
    case TryPushLoad(_) => 3
    case TryPushCheck(_, head, _) => if head == s.head then 2 else 4
    case TryPushClaim(_, head, _, _) => if head == s.head then 1 else 3
    case _ => 0
  }

  lemma AloneMore(c: Config, s: State, rest: seq<State>, i: nat)
    requires Alone(c, rest, i) && AccessStep(c, s, rest[0], i, 0, false)
    ensures Alone(c, [s] + rest, i)
  {
    hide AccessStep;
    var tr := [s] + rest;
    forall k | 0 <= k < |tr| - 1
      ensures AccessStep(c, tr[k], tr[k + 1], i, 0, false)
    {
      if k > 0 {
        assert AccessStep(c, rest[k - 1], rest[k - 1 + 1], i, 0, false);
      }
    }
  }

  /** One access of a `try_push` that runs alone. */
  lemma TryPushNext(c: Config, s: State, i: nat)
    requires Inv(c, s) && i < |s.threads| && Pushing(s.threads[i])
    ensures var s' := Access(c, s, i, 0, false); var pc := s.threads[i]; var pc' := s'.threads[i];
            || (s' == ClaimPush(s, i, pc.e) && pc.TryPushClaim? && pc.head == s.head)
            || (s' == Goto(s, i, Done(Full)) && pc.TryPushCheck? && LooksFull(pc.head, s.tail, c.size))
            || (&& s' == Goto(s, i, pc') && Pushing(pc') && pc'.e == pc.e
                && PushesToCome(s, pc') < PushesToCome(s, pc)
                && (pc'.TryPushClaim? ==>
                      pc.TryPushCheck? && !LooksFull(pc.head, s.tail, c.size) && pc'.head == pc.head)
                && (pc'.TryPushCheck? ==> pc'.head == s.head))
  {
    hide SlotOk, LooksFull, Wrap;
  }

  /**
   * A `try_push` that runs alone, from any place before its claim, also after a
   * failed exchange, claims a ticket or gives up after at most four accesses.
   * It claims exactly if the queue does not look full by then, unless it goes
   * on with a head that it has loaded before, or has made its test before.
   */
  lemma {:induction false} TryPushAlone(c: Config, s: State, i: nat) returns (tr: seq<State>)
    requires Inv(c, s) && i < |s.threads| && Pushing(s.threads[i])
    ensures Alone(c, tr, i) && tr[0] == s && |tr| <= 1 + PushesToCome(s, s.threads[i]) <= 5
    ensures tr[|tr| - 1] == ClaimPush(s, i, s.threads[i].e) || tr[|tr| - 1] == Goto(s, i, Done(Full))
    ensures var pc := s.threads[i];
            pc.TryPushLoad? || (pc.TryPushClaim? && pc.head != s.head) || (pc.TryPushCheck? && pc.head == s.head) ==>
              (tr[|tr| - 1] == Goto(s, i, Done(Full)) <==> LooksFull(s.head, s.tail, c.size))
    ensures s.threads[i].TryPushClaim? && s.threads[i].head == s.head ==>
              tr[|tr| - 1] == ClaimPush(s, i, s.threads[i].e)
    decreases PushesToCome(s, s.threads[i])
  {
    hide Inv, LooksFull, Wrap, Access, AccessStep;
    AloneStep(c, s, i);
    var s' := Access(c, s, i, 0, false);
    TryPushNext(c, s, i);
    if Pushing(s'.threads[i]) {
      var rest := TryPushAlone(c, s', i);
      tr := [s] + rest;
      AloneMore(c, s, rest, i);
    } else {
      tr := [s, s'];
    }
  }

  function PopsToCome(s: State, pc: Pc): nat {
    match pc
    case TryPopLoad => 3
    case TryPopCheck(tail, _) => if tail == s.tail then 2 else 4
    case TryPopClaim(tail, _, _) => if tail == s.tail then 1 else 3
    case _ => 0
  }

  /** One access of a `try_pop` that runs alone. */
  lemma TryPopNext(c: Config, s: State, i: nat)
    requires Inv(c, s) && i < |s.threads| && Popping(s.threads[i])
    ensures var s' := Access(c, s, i, 0, false); var pc := s.threads[i]; var pc' := s'.threads[i];
            || (s' == ClaimPop(s, i) && pc.TryPopClaim? && pc.tail == s.tail)
            || (s' == Goto(s, i, Done(Empty)) && pc.TryPopCheck? && LooksEmpty(s.head, pc.tail))
            || (&& s' == Goto(s, i, pc') && Popping(pc')
                && PopsToCome(s, pc') < PopsToCome(s, pc)
                && (pc'.TryPopClaim? ==> pc.TryPopCheck? && !LooksEmpty(s.head, pc.tail) && pc'.tail == pc.tail)
                && (pc'.TryPopCheck? ==> pc'.tail == s.tail))
  {
    hide SlotOk, LooksEmpty, Wrap;
  }

  /** And so does a `try_pop`, with the test for an empty queue. */
  lemma {:induction false} TryPopAlone(c: Config, s: State, i: nat) returns (tr: seq<State>)
    requires Inv(c, s) && i < |s.threads| && Popping(s.threads[i])
    ensures Alone(c, tr, i) && tr[0] == s && |tr| <= 1 + PopsToCome(s, s.threads[i]) <= 5
    ensures tr[|tr| - 1] == ClaimPop(s, i) || tr[|tr| - 1] == Goto(s, i, Done(Empty))
    ensures var pc := s.threads[i];
            pc.TryPopLoad? || (pc.TryPopClaim? && pc.tail != s.tail) || (pc.TryPopCheck? && pc.tail == s.tail) ==>
              (tr[|tr| - 1] == Goto(s, i, Done(Empty)) <==> LooksEmpty(s.head, s.tail))
    ensures s.threads[i].TryPopClaim? && s.threads[i].tail == s.tail ==>
              tr[|tr| - 1] == ClaimPop(s, i)
    decreases PopsToCome(s, s.threads[i])
  {
    hide Inv, LooksEmpty, Wrap, Access, AccessStep;
    AloneStep(c, s, i);
    var s' := Access(c, s, i, 0, false);
    TryPopNext(c, s, i);
    if Popping(s'.threads[i]) {
      var rest := TryPopAlone(c, s', i);
      tr := [s] + rest;
      AloneMore(c, s, rest, i);
    } else {
      tr := [s, s'];
    }
  }

  lemma AloneStep(c: Config, s: State, i: nat)
    requires Inv(c, s) && i < |s.threads| && !Resting(s.threads[i])
    ensures CanAccess(c, s, i, 0) && AccessStep(c, s, Access(c, s, i, 0, false), i, 0, false)
    ensures Inv(c, Access(c, s, i, 0, false))
  {
    AccessKeepsInv(c, s, i, 0, false);
  }
}
