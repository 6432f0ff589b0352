/** Runs that show what the queues do not promise. */
module Scenarios {
  import opened Words
  import opened SlotMap
  import opened Protocol
  import opened Capacity

  /** Steps whose loads return current values. */
  ghost predicate Steps(c: Config, tr: seq<State>) {
    |tr| > 0 && forall k | 0 <= k < |tr| - 1 :: CurrentNext(c, tr[k], tr[k + 1])
  }

  lemma StepsAppend(c: Config, tr: seq<State>, next: seq<State>)
    requires Steps(c, tr) && Steps(c, next) && tr[|tr| - 1] == next[0]
    ensures Steps(c, tr + next[1..]) && (tr + next[1..])[|tr| + |next| - 2] == next[|next| - 1]
  {
    hide CurrentNext;
    var all := tr + next[1..];
    forall k | 0 <= k < |all| - 1
      ensures CurrentNext(c, all[k], all[k + 1])
    {
      if k >= |tr| - 1 {
        var j := k - (|tr| - 1);
        assert all[k] == next[j] && all[k + 1] == next[j + 1];
      }
    }
  }

  /** Only thread i has moved, and it has called nothing but tries, that have seen their index as it is. */
  ghost predicate OneTries(s: State, s': State, i: nat) {
    && |s'.threads| == |s.threads| && i < |s.threads|
    && (forall j | 0 <= j < |s.threads| && j != i :: s'.threads[j] == s.threads[j])
    && !s'.threads[i].PushClaim? && !s'.threads[i].PopClaim?
    && (s'.threads[i].TryPushClaim? ==> s'.threads[i].seenHead == s'.pushes)
    && (s'.threads[i].TryPopClaim? ==> s'.threads[i].seenTail == s'.pops)
    && s'.pushes <= s.pushes + 1 && s'.pops <= s.pops + 1
  }

  /**
   * The states of a `try_push` of thread i that no other thread disturbs, with
   * a load of the tail that is `lag` pops old: it claims its ticket.
   */
  lemma TryPushSteps(c: Config, s: State, i: nat, e: int, lag: nat) returns (tr: seq<State>)
    requires Shape(c, s) && CanBegin(c, s, i, TryPush(e)) && lag <= s.pops
    requires !LooksFull(s.head, TailSeen(s, lag), c.size)
    ensures |tr| == 5 && tr[0] == s && tr[4] == ClaimPush(s, i, e)
    ensures BeginStep(c, tr[0], tr[1], i, TryPush(e)) && AccessStep(c, tr[1], tr[2], i, 0, false)
    ensures AccessStep(c, tr[2], tr[3], i, lag, false) && AccessStep(c, tr[3], tr[4], i, 0, false)
    ensures forall k | 0 <= k < 5 :: OneTries(s, tr[k], i)
  {
    hide Wrap, LooksFull;
    var s1 := Goto(s, i, TryPushLoad(e));
    var s2 := Goto(s, i, TryPushCheck(e, s.head, s.pushes));
    var s3 := Goto(s, i, TryPushClaim(e, s.head, s.pushes, s.pops - lag));
    var s4 := ClaimPush(s, i, e);
    assert s1 == Begin(s, i, TryPush(e));
    assert s2 == Access(c, s1, i, 0, false);
    assert s3 == Access(c, s2, i, lag, false);
    assert s4 == Access(c, s3, i, 0, false);
    tr := [s, s1, s2, s3, s4];
  }

  lemma TryPushUndisturbed(c: Config, s: State, i: nat, e: int) returns (tr: seq<State>)
    requires Shape(c, s) && CanBegin(c, s, i, TryPush(e)) && !LooksFull(s.head, s.tail, c.size)
    ensures Steps(c, tr) && tr[0] == s && tr[|tr| - 1] == ClaimPush(s, i, e)
    ensures forall k | 0 <= k < |tr| :: OneTries(s, tr[k], i)
  {
    hide Wrap, LooksFull, BeginStep, AccessStep, OneTries;
    tr := TryPushSteps(c, s, i, e, 0);
  }

  lemma TryPopSteps(c: Config, s: State, i: nat, lag: nat) returns (tr: seq<State>)
    requires Shape(c, s) && CanBegin(c, s, i, TryPop) && lag <= s.pushes
    requires !LooksEmpty(HeadSeen(s, lag), s.tail)
    ensures |tr| == 5 && tr[0] == s && tr[4] == ClaimPop(s, i)
    ensures BeginStep(c, tr[0], tr[1], i, TryPop) && AccessStep(c, tr[1], tr[2], i, 0, false)
    ensures AccessStep(c, tr[2], tr[3], i, lag, false) && AccessStep(c, tr[3], tr[4], i, 0, false)
    ensures forall k | 0 <= k < 5 :: OneTries(s, tr[k], i)
  {
    hide Wrap, LooksEmpty;
    var s1 := Goto(s, i, TryPopLoad);
    var s2 := Goto(s, i, TryPopCheck(s.tail, s.pops));
    var s3 := Goto(s, i, TryPopClaim(s.tail, s.pops, s.pushes - lag));
    var s4 := ClaimPop(s, i);
    assert s1 == Begin(s, i, TryPop);
    assert s2 == Access(c, s1, i, 0, false);
    assert s3 == Access(c, s2, i, lag, false);
    assert s4 == Access(c, s3, i, 0, false);
    tr := [s, s1, s2, s3, s4];
  }

  lemma TryPopUndisturbed(c: Config, s: State, i: nat) returns (tr: seq<State>)
    requires Shape(c, s) && CanBegin(c, s, i, TryPop) && !LooksEmpty(s.head, s.tail)
    ensures Steps(c, tr) && tr[0] == s && tr[|tr| - 1] == ClaimPop(s, i)
    ensures forall k | 0 <= k < |tr| :: OneTries(s, tr[k], i)
  {
    hide Wrap, LooksEmpty, BeginStep, AccessStep, OneTries;
    tr := TryPopSteps(c, s, i, 0);
  }

  lemma StepsFromInit(c: Config, tr: seq<State>)
    requires Steps(c, tr) && Init(c, tr[0])
    ensures CurrentRun(c, tr)
  {
  }

  /** A run with current loads is a run. */
  lemma CurrentRunIsRun(c: Config, tr: seq<State>)
    requires CurrentRun(c, tr)
    ensures Run(c, tr)
  {
    hide CurrentNext, Next;
    forall k | 0 <= k < |tr| - 1
      ensures Next(c, tr[k], tr[k + 1])
    {
      CurrentIsNext(c, tr[k], tr[k + 1]);
    }
  }

  // ----- Overtaking -----

  /** There is a queue for the following runs. */
  lemma OneSlotQueue()
    ensures PowerConfig(0, 0, 0).Valid() && PowerConfig(0, 0, 0).size == 1
  {
    PowerConfigIsValid(0, 0, 0);
  }

  /** The states of the run below after each of its five phases. */
  ghost function Phase(k: nat): State {
    if k == 0 then State(0, 0, [0], [Idle, Idle, Idle], 0, 0, [[]], [[]])
    else if k == 1 then State(1, 0, [0], [Put(1, 0, 0), Idle, Idle], 1, 0, [[]], [[]])
    else if k == 2 then State(1, 1, [0], [Put(1, 0, 0), Idle, Take(0, 0)], 1, 1, [[]], [[]])
    else if k == 3 then State(2, 1, [0], [Put(1, 0, 0), Put(2, 1, 1), Take(0, 0)], 2, 1, [[]], [[]])
    else if k == 4 then State(2, 1, [2], [Put(1, 0, 0), Done(Pushed), Take(0, 0)], 2, 1, [[Entry(2, 1, 2)]], [[]])
    else State(2, 1, [0], [Put(1, 0, 0), Done(Pushed), Done(Popped(2))], 2, 1, [[Entry(2, 1, 2)]], [[Exit(2, 0)]])
  }

  /**
   * A run of try-only clients of a queue with one slot, whose loads all return
   * current values. Thread 0 claims ticket 0 for the element 1 and sleeps. Once thread 2 has claimed the pop of that
   * ticket, thread 1 may claim ticket 1 for the element 2, and stores it first:
   * the pop with ticket 0 returns the element pushed with ticket 1.
   */
  lemma OvertakingRun(c: Config) returns (tr: seq<State>)
    requires c.Valid() && c.size == 1 && c.nil == 0
    ensures CurrentRun(c, tr) && tr[|tr| - 1] == Phase(5)
  {
    hide CurrentRun, CurrentNext;
    tr := TryPushUndisturbed(c, Phase(0), 0, 1);
    assert ClaimPush(Phase(0), 0, 1) == Phase(1);
    var t2 := TryPopUndisturbed(c, Phase(1), 2);
    assert ClaimPop(Phase(1), 2) == Phase(2);
    StepsAppend(c, tr, t2);
    tr := tr + t2[1..];
    var t3 := TryPushUndisturbed(c, Phase(2), 1, 2);
    assert ClaimPush(Phase(2), 1, 2) == Phase(3);
    StepsAppend(c, tr, t3);
    tr := tr + t3[1..];
    OvertakingStore(c);
    var t4 := [Phase(3), Phase(4), Phase(5)];
    StepsAppend(c, tr, t4);
    tr := tr + t4[1..];
    PhaseZeroIsInitial(c);
    StepsFromInit(c, tr);
  }

  lemma PhaseZeroIsInitial(c: Config)
    requires c.Valid() && c.size == 1 && c.nil == 0
    ensures Init(c, Phase(0))
  {
    assert seq(1, _ => 0) == [0];
  }

  lemma OvertakingStore(c: Config)
    requires c.Valid() && c.size == 1 && c.nil == 0
    ensures Steps(c, [Phase(3), Phase(4), Phase(5)])
  {
    assert Slot(c, 0) == 0 && Slot(c, 1) == 0;
    assert Phase(3).stored[0] + [Entry(2, 1, 2)] == [Entry(2, 1, 2)];
    assert Phase(4).taken[0] + [Exit(2, 0)] == [Exit(2, 0)];
    assert AccessStep(c, Phase(3), Phase(4), 1, 0, false);
    assert AccessStep(c, Phase(4), Phase(5), 2, 0, false);
  }

  // ----- A thread that sleeps -----

  /**
   * The queue with one slot after n pushes and n pops by the threads 0 and 1.
   * Thread 2 may be anywhere.
   */
  ghost predicate AtRest(s: State, n: nat) {
    && |s.threads| == 3 && Resting(s.threads[0]) && Resting(s.threads[1])
    && s.pushes == s.pops == n && s.head == s.tail == Wrap(n)
    && s.cells == [0] && |s.stored| == |s.taken| == 1
  }

  /** And with one push more. */
  ghost predicate IsFull(s: State, n: nat) {
    && |s.threads| == 3 && Resting(s.threads[0]) && Resting(s.threads[1])
    && s.pushes == n + 1 && s.pops == n && s.head == Wrap(s.pushes) && s.tail == Wrap(s.pops)
    && s.cells == [1] && |s.stored| == |s.taken| == 1
  }

  /** Thread 2 is at z, and the other two only try, with their own index as it is, up to n times. */
  ghost predicate Turn(z: Pc, n: nat, s: State) {
    && |s.threads| == 3 && s.threads[2] == z && s.pushes <= n && s.pops <= n
    && forall i | 0 <= i < 2 ::
         && !s.threads[i].PushClaim? && !s.threads[i].PopClaim?
         && (s.threads[i].TryPushClaim? ==> s.threads[i].seenHead == s.pushes)
         && (s.threads[i].TryPopClaim? ==> s.threads[i].seenTail == s.pops)
  }

  ghost predicate Turns(z: Pc, n: nat, tr: seq<State>) {
    forall k | 0 <= k < |tr| :: Turn(z, n, tr[k])
  }

  lemma OneTriesIsTurn(s: State, tr: seq<State>, i: nat, n: nat)
    requires |s.threads| == 3 && i < 2 && Resting(s.threads[0]) && Resting(s.threads[1]) && s.pushes < n && s.pops < n
    requires forall k | 0 <= k < |tr| :: OneTries(s, tr[k], i)
    ensures Turns(s.threads[2], n, tr)
  {
  }

  lemma TurnsAppend(z: Pc, n: nat, tr: seq<State>, m: nat, next: seq<State>)
    requires Turns(z, n, tr) && Turns(z, m, next) && n <= m && |next| > 0
    ensures Turns(z, m, tr + next[1..])
  {
  }

  /** Thread 0 pushes an element. */
  lemma PushOnce(c: Config, s: State, n: nat) returns (tr: seq<State>)
    requires c.Valid() && c.size == 1 && c.nil == 0 && AtRest(s, n)
    ensures Steps(c, tr) && Turns(s.threads[2], n + 1, tr) && tr[0] == s
    ensures IsFull(tr[|tr| - 1], n)
  {
    hide CurrentNext;
    assert !LooksFull(s.head, s.tail, 1);
    tr := TryPushUndisturbed(c, s, 0, 1);
    OneTriesIsTurn(s, tr, 0, n + 1);
    var s1 := ClaimPush(s, 0, 1);
    WrapNext(s.pushes);
    hide Wrap;
    var s2 := Access(c, s1, 0, 0, false);
    StoreHappens(c, s1, s2);
    StepsAppend(c, tr, [s1, s2]);
    assert Turns(s.threads[2], n + 1, [s1, s2]);
    TurnsAppend(s.threads[2], n + 1, tr, n + 1, [s1, s2]);
    tr := tr + [s1, s2][1..];
  }

  lemma StoreHappens(c: Config, s: State, s': State)
    requires CanAccess(c, s, 0, 0) && s.threads[0].Put? && s.cells == [0] && c.size == 1 && c.nil == 0
    requires s' == Access(c, s, 0, 0, false)
    ensures Steps(c, [s, s']) && s'.cells == [s.threads[0].e] && s'.threads == s.threads[0 := Done(Pushed)]
    ensures s'.(cells := s.cells, threads := s.threads, stored := s.stored) == s && |s'.stored| == |s.stored|
  {
    assert Slot(c, s.threads[0].head) == 0;
    assert AccessStep(c, s, s', 0, 0, false);
  }

  /** Thread 1 pops it. */
  lemma PopOnce(c: Config, s: State, n: nat) returns (tr: seq<State>)
    requires c.Valid() && c.size == 1 && c.nil == 0 && IsFull(s, n)
    ensures Steps(c, tr) && Turns(s.threads[2], n + 2, tr) && tr[0] == s
    ensures AtRest(tr[|tr| - 1], n + 1)
  {
    hide CurrentNext;
    SignedDifference(s.pushes, s.pops);
    assert !LooksEmpty(s.head, s.tail);
    tr := TryPopUndisturbed(c, s, 1);
    OneTriesIsTurn(s, tr, 1, n + 2);
    var s1 := ClaimPop(s, 1);
    WrapNext(s.pops);
    hide Wrap;
    var s2 := Access(c, s1, 1, 0, false);
    RemoveHappens(c, s1, s2);
    StepsAppend(c, tr, [s1, s2]);
    assert Turns(s.threads[2], n + 2, [s1, s2]);
    TurnsAppend(s.threads[2], n + 2, tr, n + 2, [s1, s2]);
    tr := tr + [s1, s2][1..];
  }

  lemma RemoveHappens(c: Config, s: State, s': State)
    requires CanAccess(c, s, 1, 0) && s.threads[1].Take? && s.cells == [1] && c.size == 1 && c.nil == 0
    requires s' == Access(c, s, 1, 0, false)
    ensures Steps(c, [s, s']) && s'.cells == [0] && s'.threads == s.threads[1 := Done(Popped(1))]
    ensures s'.(cells := s.cells, threads := s.threads, taken := s.taken) == s && |s'.taken| == |s.taken|
  {
    assert Slot(c, s.threads[1].tail) == 0;
    assert AccessStep(c, s, s', 1, 0, false);
  }

  /** The threads 0 and 1 take turns, n times, while thread 2 does nothing. */
  lemma {:induction false} TakeTurns(c: Config, s: State, n: nat) returns (tr: seq<State>)
    requires c.Valid() && c.size == 1 && c.nil == 0 && AtRest(s, 0)
    ensures Steps(c, tr) && tr[0] == s && AtRest(tr[|tr| - 1], n) && tr[|tr| - 1].threads[2] == s.threads[2]
    ensures Turns(s.threads[2], n + 1, tr)
  {
    hide CurrentNext, Turns;
    var z := s.threads[2];
    if n == 0 {
      tr := [s];
      NoTurns(s);
    } else {
      hide AtRest, IsFull;
      tr := TakeTurns(c, s, n - 1);
      var push := PushOnce(c, tr[|tr| - 1], n - 1);
      LastTurn(z, n, push);
      StepsAppend(c, tr, push);
      TurnsAppend(z, n, tr, n, push);
      tr := tr + push[1..];
      var pop := PopOnce(c, push[|push| - 1], n - 1);
      LastTurn(z, n + 1, pop);
      StepsAppend(c, tr, pop);
      TurnsAppend(z, n, tr, n + 1, pop);
      tr := tr + pop[1..];
    }
  }

  lemma NoTurns(s: State)
    requires AtRest(s, 0)
    ensures Turns(s.threads[2], 1, [s])
  {
  }

  lemma LastTurn(z: Pc, n: nat, tr: seq<State>)
    requires Turns(z, n, tr) && |tr| > 0
    ensures |tr[|tr| - 1].threads| == 3 && tr[|tr| - 1].threads[2] == z
  {
    assert Turn(z, n, tr[|tr| - 1]);
  }

  /** And then thread 0 pushes once more. */
  lemma TurnsAndPush(c: Config, s: State, n: nat) returns (tr: seq<State>)
    requires c.Valid() && c.size == 1 && c.nil == 0 && AtRest(s, 0)
    ensures Steps(c, tr) && tr[0] == s && IsFull(tr[|tr| - 1], n) && tr[|tr| - 1].threads[2] == s.threads[2]
    ensures Turns(s.threads[2], n + 1, tr)
  {
    hide CurrentNext, Turns, IsFull;
    var z := s.threads[2];
    hide AtRest;
    tr := TakeTurns(c, s, n);
    var push := PushOnce(c, tr[|tr| - 1], n);
    LastTurn(z, n + 1, push);
    StepsAppend(c, tr, push);
    TurnsAppend(z, n + 1, tr, n + 1, push);
    tr := tr + push[1..];
  }

  /** What the capacity and the failures of a run of tries depend on, apart from the age of what it loads. */
  ghost predicate TriesAsleep(tr: seq<State>, n: nat) {
    forall k | 0 <= k < |tr| :: TryOnly(tr[k]) && SleptAtMost(tr[k], n)
  }

  /** While thread 2 is not about to claim, or has just loaded 0, it does not oversleep by more than the turns. */
  lemma TurnsAsleep(z: Pc, n: nat, tr: seq<State>, most: nat)
    requires Turns(z, n, tr) && !z.PushClaim? && !z.PopClaim? && !z.TryPopClaim?
    requires z.TryPushClaim? ==> n <= most
    ensures TriesAsleep(tr, most)
  {
    forall k | 0 <= k < |tr|
      ensures TryOnly(tr[k]) && SleptAtMost(tr[k], most)
    {
      assert Turn(z, n, tr[k]);
    }
  }

  lemma AsleepAppend(tr: seq<State>, next: seq<State>, most: nat)
    requires TriesAsleep(tr, most) && TriesAsleep(next, most) && |next| > 0
    ensures TriesAsleep(tr + next[1..], most)
  {
    hide TryOnly, SleptAtMost;
  }

  // ----- One stale load -----

  /**
   * A run whose loads all return current values, except for the one in step k,
   * which is `lag` increments old, by a thread that has not called anything
   * before, and so has not read anything that would forbid it to read that.
   */
  ghost predicate OneStaleLoad(c: Config, tr: seq<State>, k: nat, i: nat, lag: nat) {
    && 0 < k && |tr| == k + 3
    && CurrentRun(c, tr[..k + 1]) && AccessStep(c, tr[k], tr[k + 1], i, lag, false)
    && CurrentNext(c, tr[k + 1], tr[k + 2])
    && (forall j | 0 <= j < k - 1 :: i < |tr[j].threads| && tr[j].threads[i] == Idle)
  }

  lemma OneStaleLoadIsRun(c: Config, tr: seq<State>, k: nat, i: nat, lag: nat)
    requires OneStaleLoad(c, tr, k, i, lag)
    ensures Run(c, tr)
  {
    hide CurrentNext, Next, AccessStep;
    CurrentRunIsRun(c, tr[..k + 1]);
    AccessIsNext(c, tr[k], tr[k + 1], i, lag);
    CurrentIsNext(c, tr[k + 1], tr[k + 2]);
    forall j | 0 <= j < |tr| - 1
      ensures Next(c, tr[j], tr[j + 1])
    {
      if j < k {
        assert Next(c, tr[..k + 1][j], tr[..k + 1][j + 1]);
      }
    }
  }

  lemma AccessIsNext(c: Config, s: State, s': State, i: nat, lag: nat)
    requires AccessStep(c, s, s', i, lag, false)
    ensures Next(c, s, s')
  {
    hide AccessStep;
  }

  /** After turns of the other threads, thread 2 begins, loads its own index, loads the other one late, and claims. */
  lemma StaleEnd(c: Config, base: seq<State>, n: nat, end: seq<State>, lag: nat) returns (tr: seq<State>, k: nat)
    requires Steps(c, base) && Init(c, base[0]) && Turns(Idle, n, base)
    requires |end| == 5 && end[0] == base[|base| - 1] && Steps(c, end[..3])
    requires AccessStep(c, end[2], end[3], 2, lag, false) && CurrentNext(c, end[3], end[4])
    requires TriesAsleep(end, WORD - 1)
    ensures OneStaleLoad(c, tr, k, 2, lag) && TriesAsleep(tr, WORD - 1) && tr[|tr| - 1] == end[4]
  {
    hide CurrentNext, AccessStep, TriesAsleep, Turn, Init;
    k := |base| + 1;
    tr := base + end[1..];
    StepsAppend(c, base, end[..3]);
    assert tr[..k + 1] == base + end[..3][1..];
    StepsFromInit(c, tr[..k + 1]);
    assert tr[k] == end[2] && tr[k + 1] == end[3] && tr[k + 2] == end[4];
    forall j | 0 <= j < k - 1
      ensures 2 < |tr[j].threads| && tr[j].threads[2] == Idle
    {
      TurnOf(Idle, n, base, j);
    }
    TurnsAsleep(Idle, n, base, WORD - 1);
    AsleepAppend(base, end, WORD - 1);
  }

  lemma TurnOf(z: Pc, n: nat, tr: seq<State>, j: nat)
    requires Turns(z, n, tr) && j < |tr|
    ensures |tr[j].threads| == 3 && tr[j].threads[2] == z
  {
    assert Turn(z, n, tr[j]);
  }

  /**
   * In the full queue, thread 2 tries to push, and sees the tail as it was
   * 2^31 - 1 pops ago. The difference is negative as a signed number, the queue
   * looks almost empty, and the thread claims a second ticket.
   */
  lemma PushWithStaleTail(c: Config, s: State) returns (tr: seq<State>)
    requires c.Valid() && c.size == 1 && c.nil == 0 && IsFull(s, HALF) && s.threads[2] == Idle
    ensures |tr| == 5 && tr[0] == s && Steps(c, tr[..3]) && TriesAsleep(tr, WORD - 1)
    ensures AccessStep(c, tr[2], tr[3], 2, HALF - 1, false) && CurrentNext(c, tr[3], tr[4])
    ensures !WithinCapacity(c, tr[4])
  {
    StaleFullTestIff(HALF + 1, 1, 1);
    assert !LooksFull(s.head, TailSeen(s, HALF - 1), 1);
    hide LooksFull, BeginStep, AccessStep, Wrap;
    tr := TryPushSteps(c, s, 2, 1, HALF - 1);
    StaleTryAsleep(s, tr);
  }

  lemma StaleTryAsleep(s: State, tr: seq<State>)
    requires |s.threads| == 3 && Resting(s.threads[0]) && Resting(s.threads[1])
    requires forall k | 0 <= k < |tr| :: OneTries(s, tr[k], 2)
    ensures TriesAsleep(tr, WORD - 1)
  {
  }

  /**
   * The bound on how old a loaded tail may be cannot be dropped: a run of three
   * clients that only try and never sleep, and yet have two elements claimed in
   * a queue with one slot, because the first load of the tail by one of them is
   * 2^31 - 1 pops old.
   */
  lemma OverfillingRun(c: Config) returns (tr: seq<State>, k: nat)
    requires c.Valid() && c.size == 1 && c.nil == 0
    ensures OneStaleLoad(c, tr, k, 2, HALF - 1) && Run(c, tr) && TriesAsleep(tr, WORD - 1)
    ensures !WithinCapacity(c, tr[|tr| - 1])
  {
    hide CurrentNext, TriesAsleep, Run, Init, Turns, IsFull, OneStaleLoad, AccessStep;
    var start := Start3(c);
    var base := TurnsAndPush(c, start, HALF);
    var end := PushWithStaleTail(c, base[|base| - 1]);
    tr, k := StaleEnd(c, base, HALF + 1, end, HALF - 1);
    OneStaleLoadIsRun(c, tr, k, 2, HALF - 1);
  }

  lemma Start3(c: Config) returns (s: State)
    requires c.Valid() && c.size == 1 && c.nil == 0
    ensures Init(c, s) && AtRest(s, 0) && s.threads[2] == Idle && s == Phase(0)
  {
    s := Phase(0);
    PhaseZeroIsInitial(c);
  }

  /** In the empty queue, thread 2 tries to pop, and sees the head as it was 2^31 + 1 pushes ago. */
  lemma PopWithStaleHead(c: Config, s: State) returns (tr: seq<State>)
    requires c.Valid() && c.size == 1 && c.nil == 0 && AtRest(s, HALF + 1) && s.threads[2] == Idle
    ensures |tr| == 5 && tr[0] == s && Steps(c, tr[..3]) && TriesAsleep(tr, WORD - 1)
    ensures AccessStep(c, tr[2], tr[3], 2, HALF + 1, false) && CurrentNext(c, tr[3], tr[4])
    ensures !WithinCapacity(c, tr[4])
  {
    StaleEmptyTestIff(0, HALF + 1);
    assert !LooksEmpty(HeadSeen(s, HALF + 1), s.tail);
    hide LooksEmpty, BeginStep, AccessStep, Wrap;
    tr := TryPopSteps(c, s, 2, HALF + 1);
    StaleTryAsleep(s, tr);
  }

  /** Nor can the bound on how old a loaded head may be: more pops than pushes are claimed. */
  lemma OverpoppingRun(c: Config) returns (tr: seq<State>, k: nat)
    requires c.Valid() && c.size == 1 && c.nil == 0
    ensures OneStaleLoad(c, tr, k, 2, HALF + 1) && Run(c, tr) && TriesAsleep(tr, WORD - 1)
    ensures !WithinCapacity(c, tr[|tr| - 1])
  {
    hide CurrentNext, TriesAsleep, Run, Init, Turns, AtRest, OneStaleLoad, AccessStep;
    var start := Start3(c);
    var base := TakeTurns(c, start, HALF + 1);
    var end := PopWithStaleHead(c, base[|base| - 1]);
    tr, k := StaleEnd(c, base, HALF + 2, end, HALF + 1);
    OneStaleLoadIsRun(c, tr, k, 2, HALF + 1);
  }

  // ----- Oversleeping, with current loads -----

  /** Thread 2 begins an operation and makes some of its accesses; then it falls asleep. */
  lemma FallAsleep(c: Config, op: Op, claims: bool) returns (tr: seq<State>)
    requires c.Valid() && c.size == 1 && c.nil == 0 && (op == TryPush(1) || (op == TryPop && !claims))
    ensures Steps(c, tr) && Init(c, tr[0]) && TriesAsleep(tr, 0) && AtRest(tr[|tr| - 1], 0)
    ensures tr[|tr| - 1].threads[2] ==
              if op == TryPop then TryPopCheck(0, 0)
              else if claims then TryPushClaim(1, 0, 0, 0)
              else TryPushCheck(1, 0, 0)
  {
    var s := Start3(c);
    var s1 := Begin(s, 2, op);
    var s2 := Access(c, s1, 2, 0, false);
    assert BeginStep(c, s, s1, 2, op) && AccessStep(c, s1, s2, 2, 0, false);
    tr := [s, s1, s2];
    if claims {
      var s3 := Access(c, s2, 2, 0, false);
      assert AccessStep(c, s2, s3, 2, 0, false);
      tr := [s, s1, s2, s3];
    }
  }

  /** Falling asleep, the turns of the others, and the step with which thread 2 wakes up. */
  lemma SleepingRun(c: Config, asleep: seq<State>, turns: seq<State>, n: nat, s: State, most: nat)
    returns (tr: seq<State>)
    requires Steps(c, asleep) && Init(c, asleep[0]) && TriesAsleep(asleep, 0)
    requires Steps(c, turns) && turns[0] == asleep[|asleep| - 1] && |turns[0].threads| == 3
    requires Turns(turns[0].threads[2], n, turns)
    requires turns[0].threads[2].TryPopCheck? || turns[0].threads[2].TryPushCheck? || turns[0].threads[2].TryPushClaim?
    requires turns[0].threads[2].TryPushClaim? ==> n <= most
    requires CurrentNext(c, turns[|turns| - 1], s) && TriesAsleep([s], most)
    ensures CurrentRun(c, tr) && TriesAsleep(tr, most)
    ensures |tr| > 1 && tr[|tr| - 2] == turns[|turns| - 1] && tr[|tr| - 1] == s
  {
    hide CurrentNext, Turns, Init, TryOnly;
    var last := turns[|turns| - 1];
    StepsAppend(c, asleep, turns);
    TurnsAsleep(turns[0].threads[2], n, turns, most);
    assert TriesAsleep(asleep, most);
    AsleepAppend(asleep, turns, most);
    tr := asleep + turns[1..];
    StepsAppend(c, tr, [last, s]);
    assert TriesAsleep([last, s], most);
    AsleepAppend(tr, [last, s], most);
    tr := tr + [last, s][1..];
    StepsFromInit(c, tr);
  }

  /**
   * `try_push` returns false on an empty queue: its thread has slept through
   * 2^31 + 1 pops between its two loads. All loads return current values.
   */
  lemma WronglyFullRun(c: Config) returns (tr: seq<State>)
    requires c.Valid() && c.size == 1 && c.nil == 0
    ensures CurrentRun(c, tr) && TriesAsleep(tr, WORD - 1) && |tr| > 1
    ensures ReturnsAt(tr, |tr| - 2, 2, Full) && tr[|tr| - 2].pushes == tr[|tr| - 2].pops
  {
    hide CurrentNext, Turns;
    var asleep := FallAsleep(c, TryPush(1), false);
    var turns := TakeTurns(c, asleep[|asleep| - 1], HALF + 1);
    var s := turns[|turns| - 1];
    var s' := WakesFull(c, s);
    tr := SleepingRun(c, asleep, turns, HALF + 2, s', WORD - 1);
  }

  lemma WakesFull(c: Config, s: State) returns (s': State)
    requires c.Valid() && c.size == 1 && c.nil == 0 && AtRest(s, HALF + 1) && s.threads[2] == TryPushCheck(1, 0, 0)
    ensures CurrentNext(c, s, s') && TriesAsleep([s'], WORD - 1)
    ensures |s'.threads| == 3 && s'.threads[2] == Done(Full)
  {
    s' := Access(c, s, 2, 0, false);
    StaleFullTestIff(0, HALF + 1, 1);
    assert AccessStep(c, s, s', 2, 0, false);
  }

  /** `try_pop` returns false although there is an element: its thread has slept through 2^31 pushes. */
  lemma WronglyEmptyRun(c: Config) returns (tr: seq<State>)
    requires c.Valid() && c.size == 1 && c.nil == 0
    ensures CurrentRun(c, tr) && TriesAsleep(tr, WORD - 1) && |tr| > 1
    ensures ReturnsAt(tr, |tr| - 2, 2, Empty) && tr[|tr| - 2].pushes == tr[|tr| - 2].pops + 1
  {
    hide CurrentNext, Turns;
    var asleep := FallAsleep(c, TryPop, false);
    var turns := TurnsAndPush(c, asleep[|asleep| - 1], HALF - 1);
    var s := turns[|turns| - 1];
    var s' := WakesEmpty(c, s);
    tr := SleepingRun(c, asleep, turns, HALF, s', WORD - 1);
  }

  lemma WakesEmpty(c: Config, s: State) returns (s': State)
    requires c.Valid() && c.size == 1 && c.nil == 0 && IsFull(s, HALF - 1) && s.threads[2] == TryPopCheck(0, 0)
    ensures CurrentNext(c, s, s') && TriesAsleep([s'], WORD - 1)
    ensures |s'.threads| == 3 && s'.threads[2] == Done(Empty)
  {
    s' := Access(c, s, 2, 0, false);
    StaleEmptyTestIff(HALF, 0);
    assert AccessStep(c, s, s', 2, 0, false);
  }

  /**
   * The bound on how long a thread may sleep before its claim is exact: after
   * 2^32 claims of others the head has its old value again, and the exchange
   * succeeds in a full queue. All loads return current values.
   */
  lemma OversleepingRun(c: Config) returns (tr: seq<State>)
    requires c.Valid() && c.size == 1 && c.nil == 0
    ensures CurrentRun(c, tr) && TriesAsleep(tr, WORD) && !WithinCapacity(c, tr[|tr| - 1])
  {
    hide CurrentNext, Turns;
    var asleep := FallAsleep(c, TryPush(1), true);
    var turns := TurnsAndPush(c, asleep[|asleep| - 1], WORD - 1);
    var s := turns[|turns| - 1];
    var s' := WakesAndClaims(c, s);
    tr := SleepingRun(c, asleep, turns, WORD, s', WORD);
  }

  lemma WakesAndClaims(c: Config, s: State) returns (s': State)
    requires c.Valid() && c.size == 1 && c.nil == 0 && IsFull(s, WORD - 1) && s.threads[2] == TryPushClaim(1, 0, 0, 0)
    ensures CurrentNext(c, s, s') && TriesAsleep([s'], WORD) && !WithinCapacity(c, s')
  {
    s' := Access(c, s, 2, 0, false);
    assert s' == ClaimPush(s, 2, 1);
    assert AccessStep(c, s, s', 2, 0, false);
  }
}
