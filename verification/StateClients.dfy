/**
 * The client programs with `AtomicQueue2` for their queue. Its refinement
 * carries over what every run of them comes to.
 */
module StateClients {
  import opened Sums
  import opened Words
  import opened SlotMap
  import opened SlotStates
  import opened Protocol
  import opened Clients
  import opened Outcomes
  import opened Programs
  import S = StateQueue

  datatype StateClient =
    StateClient(q: S.State, todo: seq<seq<int>>, sums: seq<int>, stopped: seq<bool>, got: seq<seq<int>>)

  ghost predicate StateShape(p: Program, c: Config, s: StateClient) {
    && S.Shape(c, s.q) && |s.todo| == |p.scripts|
    && |s.sums| == |s.stopped| == |s.got| == p.consumers
    && |s.q.threads| == |p.scripts| + p.consumers
  }

  ghost predicate StateInit(p: Program, c: Config, s: StateClient) {
    && StateShape(p, c, s) && S.Init(c, s.q) && s.todo == p.scripts
    && forall j | 0 <= j < p.consumers :: s.sums[j] == p.bias && !s.stopped[j] && s.got[j] == []
  }

  // ----- Steps -----

  ghost predicate PusherDone(s: StateClient, i: nat)
    requires i < |s.todo| && i < |s.q.threads|
  {
    s.todo[i] == [] && S.Resting(s.q.threads[i])
  }

  ghost predicate MayBegin(p: Program, s: StateClient, i: nat)
    requires |s.todo| == |p.scripts| <= |s.q.threads|
  {
    p.gated && i == |p.scripts| - 1 ==> forall k | 0 <= k < |p.scripts| - 1 :: PusherDone(s, k)
  }

  /** A pusher calls push with the next element of its script. */
  ghost predicate PusherCalls(p: Program, c: Config, s: StateClient, s': StateClient, i: nat) {
    && StateShape(p, c, s) && i < |p.scripts| && S.Resting(s.q.threads[i]) && s.todo[i] != [] && MayBegin(p, s, i)
    && s' == s.(q := S.Goto(s.q, i, S.PushClaim(s.todo[i][0])), todo := s.todo[i := s.todo[i][1..]])
  }

  /** A consumer calls pop for the first time. */
  ghost predicate ConsumerCalls(p: Program, c: Config, s: StateClient, s': StateClient, j: nat) {
    && StateShape(p, c, s) && j < p.consumers && ConsumerAt(p, s, j).Idle?
    && s' == s.(q := S.Goto(s.q, |p.scripts| + j, S.PopClaim))
  }

  /** A consumer adds the popped element to its sum, and stops or calls pop again. */
  ghost predicate ConsumerSums(p: Program, c: Config, s: StateClient, s': StateClient, j: nat) {
    && StateShape(p, c, s) && j < p.consumers && !s.stopped[j]
    && ConsumerAt(p, s, j).Done? && ConsumerAt(p, s, j).result.Popped?
    && var v := ConsumerAt(p, s, j).result.v;
       s' == s.(sums := s.sums[j := s.sums[j] + v], stopped := s.stopped[j := v == p.stop],
                got := s.got[j := s.got[j] + [v]],
                q := if v == p.stop then s.q else S.Goto(s.q, |p.scripts| + j, S.PopClaim))
  }

  function ConsumerAt(p: Program, s: StateClient, j: nat): S.Pc
    requires |p.scripts| + j < |s.q.threads|
  {
    s.q.threads[|p.scripts| + j]
  }

  /** A thread performs the next access of the operation it is in. */
  ghost predicate Accesses(p: Program, c: Config, s: StateClient, s': StateClient, i: nat, weak: bool) {
    StateShape(p, c, s) && S.CanAccess(c, s.q, i) && s' == s.(q := S.Access(c, s.q, i, weak))
  }

  ghost predicate StateNext(p: Program, c: Config, s: StateClient, s': StateClient) {
    || (exists i :: PusherCalls(p, c, s, s', i))
    || (exists j :: ConsumerCalls(p, c, s, s', j))
    || (exists j :: ConsumerSums(p, c, s, s', j))
    || (exists i, weak :: Accesses(p, c, s, s', i, weak))
  }

  ghost predicate StateRun(p: Program, c: Config, tr: seq<StateClient>) {
    && |tr| > 0 && StateInit(p, c, tr[0])
    && forall k | 0 <= k < |tr| - 1 :: StateNext(p, c, tr[k], tr[k + 1])
  }

  // ----- Simulation -----

  ghost predicate Same(p: Program, c: Config, s: StateClient, s1: Client) {
    && ClientInv(p, c, s1) && S.Simulates(c, s.q, s1.q)
    && s1.todo == s.todo && s1.sums == s.sums && s1.stopped == s.stopped && s1.got == s.got
  }

  /** How many accesses of a thread are still to come that the other queue does not see. */
  function Unseen(pc: S.Pc): int {
    match pc
    case PutAcquire(_, _) => 2
    case PutWrite(_, _) => 1
    case TakeRead(_) => 2
    case TakeRelease(_, _) => 1
    case _ => 0
  }

  function AllUnseen(threads: seq<S.Pc>): seq<int> {
    seq(|threads|, i requires 0 <= i < |threads| => Unseen(threads[i]))
  }

  lemma UnseenUpdate(threads: seq<S.Pc>, i: nat, pc: S.Pc)
    requires i < |threads|
    ensures Sum(AllUnseen(threads[i := pc])) == Sum(AllUnseen(threads)) + Unseen(pc) - Unseen(threads[i])
  {
    assert AllUnseen(threads[i := pc]) == AllUnseen(threads)[i := Unseen(pc)];
    SumUpdate(AllUnseen(threads), i, Unseen(pc));
  }

  ghost function Measure(p: Program, c: Config, s: StateClient, s1: Client): int
    requires ClientShape(p, c, s1)
  {
    3 * Potential(p, c, s1) + Sum(AllUnseen(s.q.threads))
  }

  lemma MeasureNonNegative(p: Program, c: Config, s: StateClient, s1: Client)
    requires ClientShape(p, c, s1)
    ensures Measure(p, c, s, s1) >= 0
  {
    hide Potential;
    PotentialNonNegative(p, c, s1);
    SumNonNegative(AllUnseen(s.q.threads));
  }

  /** A step that the other program makes too, and that is not spinning there, brings both nearer to their ends. */
  lemma SeenStep(p: Program, c: Config, s: StateClient, s': StateClient, s1: Client, s1': Client, i: nat)
    requires ClientInv(p, c, s1) && Progress(p, c, s1, s1')
    requires i < |s.q.threads| == |s'.q.threads| && s'.q.threads == s.q.threads[i := s'.q.threads[i]]
    ensures ClientInv(p, c, s1') && Measure(p, c, s', s1') < Measure(p, c, s, s1)
  {
    hide ClientInv, Potential, Progress, Sum, Unseen;
    ProgressDescends(p, c, s1, s1');
    UnseenUpdate(s.q.threads, i, s'.q.threads[i]);
    UnseenBound(s.q.threads[i]);
    UnseenBound(s'.q.threads[i]);
    InvShape(p, c, s1);
    InvShape(p, c, s1');
  }

  lemma UnseenBound(pc: S.Pc)
    ensures 0 <= Unseen(pc) <= 2
  {
  }

  lemma SameShape(p: Program, c: Config, s: StateClient, s1: Client)
    requires Same(p, c, s, s1)
    ensures StateShape(p, c, s) && ClientShape(p, c, s1) && |s.q.threads| == |s1.q.threads|
  {
    hide WellFormed, Inv, GateOk, NoneLast, Conserved, PushersOk, ConsumersOk;
  }

  lemma SameThread(c: Config, s: S.State, s1: State, i: nat)
    requires S.Simulates(c, s, s1) && i < |s.threads|
    ensures |s1.threads| == |s.threads| && S.SamePc(c, s.cells, s.threads[i], s1.threads[i])
    ensures S.Resting(s.threads[i]) ==> Resting(s1.threads[i])
  {
    hide Inv;
  }

  lemma SimulatePusherCalls(p: Program, c: Config, s: StateClient, s': StateClient, s1: Client, i: nat)
    returns (s1': Client)
    requires Same(p, c, s, s1) && PusherCalls(p, c, s, s', i)
    ensures Same(p, c, s', s1') && Measure(p, c, s', s1') < Measure(p, c, s, s1)
  {
    hide ClientInv, S.Simulates, Measure, S.SamePc;
    SameShape(p, c, s, s1);
    InvShape(p, c, s1);
    SameThread(c, s.q, s1.q, i);
    GateStaysOpen(p, c, s, s1, i);
    NotNilInScript(p, c, s1, i);
    var q1 := S.SimulateBegin(c, s.q, i, Push(s.todo[i][0]), s1.q);
    s1' := s1.(q := q1, todo := s'.todo);
    assert PusherBegins(p, c, s1, s1', i);
    assert s1'.todo[i] != s1.todo[i];
    assert Progress(p, c, s1, s1');
    SeenStep(p, c, s, s', s1, s1', i);
  }

  lemma NotNilInScript(p: Program, c: Config, s1: Client, i: nat)
    requires ClientInv(p, c, s1) && i < |p.scripts| && s1.todo[i] != [] && Resting(Pusher(s1, i))
    ensures s1.todo[i][0] != c.nil
  {
    hide Inv, GateOk, NoneLast, Conserved, ConsumersOk;
    assert PusherOk(p, Pusher(s1, i), s1.todo[i], p.scripts[i]);
    NextOfScript(p, Pusher(s1, i), s1.todo[i], p.scripts[i]);
  }

  lemma GateStaysOpen(p: Program, c: Config, s: StateClient, s1: Client, i: nat)
    requires Same(p, c, s, s1) && StateShape(p, c, s) && ClientShape(p, c, s1) && MayBegin(p, s, i)
    ensures GateOpen(p, s1, i)
  {
    hide ClientInv, S.Simulates, S.SamePc;
    if p.gated && i == |p.scripts| - 1 {
      forall k | 0 <= k < |p.scripts| - 1
        ensures Finished(s1, k)
      {
        assert PusherDone(s, k);
        SameThread(c, s.q, s1.q, k);
      }
    }
  }

  lemma SimulateConsumerCalls(p: Program, c: Config, s: StateClient, s': StateClient, s1: Client, j: nat)
    returns (s1': Client)
    requires Same(p, c, s, s1) && ConsumerCalls(p, c, s, s', j)
    ensures Same(p, c, s', s1') && Measure(p, c, s', s1') < Measure(p, c, s, s1)
  {
    hide ClientInv, S.Simulates, Measure;
    SameShape(p, c, s, s1);
    var t := |p.scripts| + j;
    SameThread(c, s.q, s1.q, t);
    var q1 := S.SimulateBegin(c, s.q, t, Pop, s1.q);
    s1' := s1.(q := q1);
    assert ConsumerBegins(p, c, s1, s1', j);
    assert s1'.q.threads[t] != s1.q.threads[t];
    assert Progress(p, c, s1, s1');
    SeenStep(p, c, s, s', s1, s1', t);
  }

  lemma SimulateConsumerSums(p: Program, c: Config, s: StateClient, s': StateClient, s1: Client, j: nat)
    returns (s1': Client)
    requires Same(p, c, s, s1) && ConsumerSums(p, c, s, s', j)
    ensures Same(p, c, s', s1') && Measure(p, c, s', s1') < Measure(p, c, s, s1)
  {
    hide ClientInv, S.Simulates, Measure;
    SameShape(p, c, s, s1);
    var t := |p.scripts| + j;
    SameThread(c, s.q, s1.q, t);
    var v := s.q.threads[t].result.v;
    var q1 := s1.q;
    if v != p.stop {
      q1 := S.SimulateBegin(c, s.q, t, Pop, s1.q);
    }
    s1' := s1.(sums := s'.sums, stopped := s'.stopped, got := s'.got, q := q1);
    assert ConsumerAdds(p, c, s1, s1', j);
    assert s1'.got[j] != s1.got[j];
    assert Progress(p, c, s1, s1');
    SeenStep(p, c, s, s', s1, s1', t);
  }

  /** The threads of the programs are not in a try. */
  lemma NoTries(p: Program, c: Config, s: StateClient, s1: Client, i: nat)
    requires Same(p, c, s, s1) && i < |s.q.threads|
    ensures !InTry(s.q.threads[i])
  {
    hide ClientInv, S.Simulates;
    SameShape(p, c, s, s1);
    SameThread(c, s.q, s1.q, i);
    ClientPc(p, c, s1, i);
  }

  predicate InTry(pc: S.Pc) {
    || pc.TryPushLoad? || pc.TryPushCheck? || pc.TryPushClaim?
    || pc.TryPopLoad? || pc.TryPopCheck? || pc.TryPopClaim?
  }

  lemma ClientPc(p: Program, c: Config, s1: Client, i: nat)
    requires ClientInv(p, c, s1) && i < |s1.q.threads|
    ensures var pc := s1.q.threads[i];
            pc.Idle? || pc.Done? || pc.PushClaim? || pc.Put? || pc.PopClaim? || pc.Take?
  {
    hide Inv, GateOk, NoneLast, Conserved, WellFormed;
    if i < |p.scripts| {
      assert PusherOk(p, Pusher(s1, i), s1.todo[i], p.scripts[i]);
    } else {
      var j := i - |p.scripts|;
      assert ConsumerOk(p, Consumer(p, s1, j), s1.sums[j], s1.stopped[j], s1.got[j]);
    }
  }

  /** An access that changes anything either is seen by the other queue, or there is one less to come that is not. */
  lemma AccessEffect(c: Config, s: S.State, s1: State, s1': State, i: nat, weak: bool)
    requires S.Simulates(c, s, s1) && S.CanAccess(c, s, i) && S.Simulates(c, S.Access(c, s, i, weak), s1')
    requires S.Access(c, s, i, weak) != s && !InTry(s.threads[i])
    ensures var s' := S.Access(c, s, i, weak);
            && |s'.threads| == |s.threads| && s'.threads == s.threads[i := s'.threads[i]]
            && (s1' == s1 ==> Unseen(s'.threads[i]) < Unseen(s.threads[i]))
  {
    SameThread(c, s, s1, i);
    SameThread(c, S.Access(c, s, i, weak), s1', i);
    hide S.Simulates, Wrap;
  }

  lemma SimulateAccesses(p: Program, c: Config, s: StateClient, s': StateClient, s1: Client, i: nat, weak: bool)
    returns (s1': Client)
    requires Same(p, c, s, s1) && Accesses(p, c, s, s', i, weak)
    ensures Same(p, c, s', s1') && (s' != s ==> Measure(p, c, s', s1') < Measure(p, c, s, s1))
  {
    hide ClientInv, S.Simulates, S.Access, Potential, Sum, Unseen;
    SameShape(p, c, s, s1);
    if s' == s {
      s1' := s1;
    } else {
      var q1, weak1 := S.SimulateAccess(c, s.q, i, weak, s1.q);
      NoTries(p, c, s, s1, i);
      AccessEffect(c, s.q, s1.q, q1, i, weak);
      s1' := s1.(q := q1);
      if q1 == s1.q {
        UnseenUpdate(s.q.threads, i, s'.q.threads[i]);
      } else {
        assert QueueStep(p, c, s1, s1', i, weak1);
        assert Progress(p, c, s1, s1');
        SeenStep(p, c, s, s', s1, s1', i);
      }
    }
  }

  /**
   * Every step of the program with `AtomicQueue2` is one with `AtomicQueue`, or
   * not seen there, and if it changes anything, it brings the end nearer.
   */
  lemma SimulateStep(p: Program, c: Config, s: StateClient, s': StateClient, s1: Client) returns (s1': Client)
    requires Same(p, c, s, s1) && StateNext(p, c, s, s')
    ensures Same(p, c, s', s1') && (s' != s ==> Measure(p, c, s', s1') < Measure(p, c, s, s1))
  {
    hide Same, PusherCalls, ConsumerCalls, ConsumerSums, Accesses;
    if i: nat :| PusherCalls(p, c, s, s', i) {
      s1' := SimulatePusherCalls(p, c, s, s', s1, i);
    } else if j: nat :| ConsumerCalls(p, c, s, s', j) {
      s1' := SimulateConsumerCalls(p, c, s, s', s1, j);
    } else if j: nat :| ConsumerSums(p, c, s, s', j) {
      s1' := SimulateConsumerSums(p, c, s, s', s1, j);
    } else {
      var i: nat, weak: bool :| Accesses(p, c, s, s', i, weak);
      s1' := SimulateAccesses(p, c, s, s', s1, i, weak);
    }
  }

  // ----- Every run -----

  lemma SimulateStart(p: Program, c: Config, s: StateClient) returns (s1: Client)
    requires WellFormed(p, c.nil) && StateInit(p, c, s)
    ensures Same(p, c, s, s1) && ClientInit(p, c, s1) && Sum(AllUnseen(s.q.threads)) == 0
  {
    hide WellFormed, S.Simulates, ClientInv;
    var q1 := S.SimulateInit(c, s.q);
    s1 := Client(q1, s.todo, s.sums, s.stopped, s.got);
    InitThreads(c, s.q, q1);
    ClientInitInv(p, c, s1);
    SumConstant(AllUnseen(s.q.threads), 0);
  }

  lemma InitThreads(c: Config, s: S.State, q1: State)
    requires S.Simulates(c, s, q1)
    ensures |q1.threads| == |s.threads| && Shape(c, q1)
  {
  }

  /** The number of steps of a run that are not spinning. */
  ghost function Effective(tr: seq<StateClient>): nat {
    if |tr| < 2 then 0
    else Effective(tr[..|tr| - 1]) + (if tr[|tr| - 1] != tr[|tr| - 2] then 1 else 0)
  }

  lemma RunBefore(p: Program, c: Config, tr: seq<StateClient>)
    requires StateRun(p, c, tr) && |tr| > 1
    ensures StateRun(p, c, tr[..|tr| - 1]) && StateNext(p, c, tr[|tr| - 2], tr[|tr| - 1])
  {
    hide StateNext;
    var n := |tr| - 1;
    assert StateNext(p, c, tr[n - 1], tr[n - 1 + 1]);
    forall k | 0 <= k < n - 1
      ensures StateNext(p, c, tr[..n][k], tr[..n][k + 1])
    {
      assert StateNext(p, c, tr[k], tr[k + 1]);
    }
  }

  /** Every run is that of the other program, up to the steps that are not seen there, and what it has spent so far. */
  lemma {:induction false} SimulateRun(p: Program, c: Config, tr: seq<StateClient>)
    returns (start1: Client, s1: Client)
    requires WellFormed(p, c.nil) && StateRun(p, c, tr)
    ensures ClientInit(p, c, start1) && Same(p, c, tr[|tr| - 1], s1) && ClientShape(p, c, s1)
    ensures Effective(tr) + Measure(p, c, tr[|tr| - 1], s1) <= 3 * Potential(p, c, start1)
    decreases |tr|
  {
    hide WellFormed, Same, StateNext, StateInit, ClientInit, Potential, Sum;
    if |tr| == 1 {
      s1 := SimulateStart(p, c, tr[0]);
      start1 := s1;
      SameShape(p, c, tr[0], s1);
    } else {
      var n := |tr| - 1;
      RunBefore(p, c, tr);
      var before;
      start1, before := SimulateRun(p, c, tr[..n]);
      s1 := SimulateStep(p, c, tr[n - 1], tr[n], before);
      SameShape(p, c, tr[n], s1);
      if tr[n] == tr[n - 1] {
        s1 := before;
      }
    }
  }

  ghost predicate EveryoneStopped(p: Program, s: StateClient) {
    |s.stopped| == p.consumers && forall j | 0 <= j < p.consumers :: s.stopped[j]
  }

  ghost predicate EveryoneDone(p: Program, s: StateClient) {
    && |s.todo| == |p.scripts| <= |s.q.threads|
    && forall i | 0 <= i < |p.scripts| :: PusherDone(s, i)
  }

  ghost function Gains(p: Program, s: StateClient): seq<int> {
    seq(|s.sums|, j requires 0 <= j < |s.sums| => s.sums[j] - p.bias)
  }

  /** What a program comes to when its consumers have all stopped. */
  ghost predicate Outcome(p: Program, c: Config, s: StateClient) {
    && EveryoneDone(p, s) && s.q.head == s.q.tail
    && (forall r | 0 <= r < |s.q.states| :: s.q.states[r] == EMPTY)
    && Bag(BagsOf(s.got)) == Bag(BagsOf(p.scripts)) && Sum(Gains(p, s)) == Sum(SumsOf(p.scripts))
  }

  /** A consumer that has stopped does nothing any more. */
  ghost predicate StoppedRest(p: Program, s: StateClient) {
    && |s.q.threads| == |p.scripts| + p.consumers && |s.stopped| == p.consumers
    && forall j: nat :: StopRests(p, s, j)
  }

  ghost predicate StopRests(p: Program, s: StateClient, j: nat)
    requires |s.q.threads| == |p.scripts| + p.consumers && |s.stopped| == p.consumers
  {
    j < p.consumers && s.stopped[j] ==> ConsumerAt(p, s, j).Done?
  }

  lemma NextStoppedRest(p: Program, c: Config, s: StateClient, s': StateClient)
    requires StoppedRest(p, s) && StateNext(p, c, s, s')
    ensures StoppedRest(p, s')
  {
    hide Wrap;
    forall j: nat
      ensures |s'.q.threads| == |p.scripts| + p.consumers && |s'.stopped| == p.consumers && StopRests(p, s', j)
    {
      assert StopRests(p, s, j);
    }
  }

  lemma {:induction false} RunStoppedRest(p: Program, c: Config, tr: seq<StateClient>, k: nat)
    requires StateRun(p, c, tr) && k < |tr|
    ensures StoppedRest(p, tr[k])
  {
    hide StateNext;
    if k > 0 {
      RunStoppedRest(p, c, tr, k - 1);
      assert StateNext(p, c, tr[k - 1], tr[k - 1 + 1]);
      NextStoppedRest(p, c, tr[k - 1], tr[k]);
    }
  }

  ghost predicate NobodyOwns(s: S.State) {
    forall i | 0 <= i < |s.threads| :: !S.Owns(s.threads[i])
  }

  /** While nobody owns a slot, both queues show the same. */
  lemma WithoutOwners(c: Config, s: S.State, s1: State)
    requires S.Simulates(c, s, s1) && NobodyOwns(s)
    ensures |s.states| == |s.cells| == |s1.cells| == c.size
    ensures forall r | 0 <= r < c.size :: s.states[r] == if s1.cells[r] == c.nil then EMPTY else STORED
    ensures |s1.threads| == |s.threads|
    ensures forall i | 0 <= i < |s.threads| :: Resting(s1.threads[i]) ==> S.Resting(s.threads[i])
  {
    assert |s1.cells| == c.size;
    hide Inv;
    forall r | 0 <= r < c.size
      ensures s.states[r] == if s1.cells[r] == c.nil then EMPTY else STORED
    {
      assert S.HasOwner(c, s, r);
      assert S.SameCell(c.nil, s.states[r], s.cells[r], s1.cells[r]);
    }
    forall i | 0 <= i < |s.threads|
      ensures Resting(s1.threads[i]) ==> S.Resting(s.threads[i])
    {
      assert S.SamePc(c, s.cells, s.threads[i], s1.threads[i]);
    }
  }

  lemma StoppedNobodyOwns(p: Program, c: Config, s: StateClient, s1: Client)
    requires Same(p, c, s, s1) && StoppedRest(p, s) && EveryoneStopped(p, s) && AllFinished(p, s1)
    ensures NobodyOwns(s.q)
  {
    hide ClientInv, S.Simulates;
    SameShape(p, c, s, s1);
    forall i | 0 <= i < |s.q.threads|
      ensures !S.Owns(s.q.threads[i])
    {
      SameThread(c, s.q, s1.q, i);
      if i < |p.scripts| {
        assert Finished(s1, i);
        PusherPc(p, c, s1, i);
      } else {
        assert StopRests(p, s, i - |p.scripts|);
      }
    }
  }

  lemma PusherPc(p: Program, c: Config, s1: Client, i: nat)
    requires ClientInv(p, c, s1) && i < |p.scripts|
    ensures i < |s1.q.threads| && (Resting(Pusher(s1, i)) ==> Pusher(s1, i) == Idle || Pusher(s1, i) == Done(Pushed))
  {
    hide Inv, GateOk, NoneLast, Conserved, WellFormed, ConsumersOk;
    assert PusherOk(p, Pusher(s1, i), s1.todo[i], p.scripts[i]);
  }

  lemma SameIndexes(c: Config, s: S.State, s1: State)
    requires S.Simulates(c, s, s1)
    ensures s.head == Wrap(s1.pushes) && s.tail == Wrap(s1.pops)
  {
    hide Wrap, SlotOk;
  }

  lemma EndsWell(p: Program, c: Config, s: StateClient, s1: Client)
    requires Same(p, c, s, s1) && StoppedRest(p, s) && EveryoneStopped(p, s)
    ensures Outcome(p, c, s)
  {
    hide ClientInv, S.Simulates, NobodyOwns, StoppedRest, Sum, Bag, Wrap;
    EndOutcome(p, c, s1);
    StoppedNobodyOwns(p, c, s, s1);
    WithoutOwners(c, s.q, s1.q);
    SameIndexes(c, s.q, s1.q);
    SameShape(p, c, s, s1);
    assert Gains(p, s) == Totals(p, s1);
    forall i | 0 <= i < |p.scripts|
      ensures PusherDone(s, i)
    {
      assert Finished(s1, i);
    }
  }

  // ----- Never stuck -----

  ghost predicate Advances(p: Program, c: Config, s: StateClient, s': StateClient) {
    StateNext(p, c, s, s') && s' != s
  }

  lemma OwnerAdvances(p: Program, c: Config, s: StateClient, i: nat)
    requires StateShape(p, c, s) && i < |s.q.threads| && S.Owns(s.q.threads[i])
    ensures exists s' :: Advances(p, c, s, s')
  {
    S.OwnersGoOn(c, s.q, i);
    var s' := s.(q := S.Access(c, s.q, i, false));
    assert Accesses(p, c, s, s', i, false);
    assert Advances(p, c, s, s');
  }

  /** A thread of the other queue that is not blocked there is not blocked here, when nobody owns a slot. */
  lemma AccessAdvances(p: Program, c: Config, s: StateClient, s1: Client, i: nat)
    requires StateShape(p, c, s) && S.Simulates(c, s.q, s1.q) && NobodyOwns(s.q) && i < |s.q.threads| == |s1.q.threads|
    requires match s1.q.threads[i]
             case PushClaim(_) => true
             case PopClaim => true
             case Put(_, head, _) => |s1.q.cells| == c.size && s1.q.cells[Slot(c, head)] == c.nil
             case Take(tail, _) => |s1.q.cells| == c.size && s1.q.cells[Slot(c, tail)] != c.nil
             case _ => false
    ensures exists s' :: Advances(p, c, s, s')
  {
    hide Wrap;
    SameThread(c, s.q, s1.q, i);
    WithoutOwners(c, s.q, s1.q);
    hide S.Simulates;
    assert !S.Owns(s.q.threads[i]);
    var s' := s.(q := S.Access(c, s.q, i, false));
    assert s'.q.threads[i] != s.q.threads[i];
    assert Accesses(p, c, s, s', i, false);
    assert Advances(p, c, s, s');
  }

  lemma PusherAdvances(p: Program, c: Config, s: StateClient, s1: Client, i: nat)
    requires Same(p, c, s, s1) && NobodyOwns(s.q) && ClientShape(p, c, s1) && i < |p.scripts|
    requires !PusherBlocked(p, c, s1, i)
    ensures exists s' :: Advances(p, c, s, s')
  {
    hide ClientInv, S.Simulates, NobodyOwns;
    SameShape(p, c, s, s1);
    WithoutOwners(c, s.q, s1.q);
    ClientPcOfPusher(p, c, s1, i);
    if Resting(Pusher(s1, i)) {
      var s' := s.(q := S.Goto(s.q, i, S.PushClaim(s.todo[i][0])), todo := s.todo[i := s.todo[i][1..]]);
      MayBeginThere(p, c, s, s1, i);
      assert PusherCalls(p, c, s, s', i);
      assert s'.todo[i] != s.todo[i];
      assert Advances(p, c, s, s');
    } else {
      AccessAdvances(p, c, s, s1, i);
    }
  }

  lemma ClientPcOfPusher(p: Program, c: Config, s1: Client, i: nat)
    requires ClientInv(p, c, s1) && i < |p.scripts|
    ensures i < |s1.q.threads|
    ensures var pc := Pusher(s1, i); Resting(pc) || pc.PushClaim? || pc.Put?
  {
    hide Inv, GateOk, NoneLast, Conserved, WellFormed, ConsumersOk;
    assert PusherOk(p, Pusher(s1, i), s1.todo[i], p.scripts[i]);
  }

  lemma MayBeginThere(p: Program, c: Config, s: StateClient, s1: Client, i: nat)
    requires StateShape(p, c, s) && ClientShape(p, c, s1) && S.Simulates(c, s.q, s1.q) && NobodyOwns(s.q)
    requires s1.todo == s.todo && GateOpen(p, s1, i)
    ensures MayBegin(p, s, i)
  {
    hide S.Simulates, NobodyOwns;
    WithoutOwners(c, s.q, s1.q);
    if p.gated && i == |p.scripts| - 1 {
      forall k | 0 <= k < |p.scripts| - 1
        ensures PusherDone(s, k)
      {
        assert Finished(s1, k);
      }
    }
  }

  lemma ConsumerAdvances(p: Program, c: Config, s: StateClient, s1: Client, j: nat)
    requires Same(p, c, s, s1) && NobodyOwns(s.q) && ClientShape(p, c, s1) && j < p.consumers
    requires !ConsumerBlocked(p, c, s1, j)
    ensures exists s' :: Advances(p, c, s, s')
  {
    hide ClientInv, S.Simulates;
    SameShape(p, c, s, s1);
    var t := |p.scripts| + j;
    ClientPcOfConsumer(p, c, s1, j);
    SameThread(c, s.q, s1.q, t);
    assert !S.Owns(s.q.threads[t]);
    if Consumer(p, s1, j).Idle? {
      var s' := s.(q := S.Goto(s.q, t, S.PopClaim));
      assert ConsumerCalls(p, c, s, s', j);
      assert s'.q.threads[t] != s.q.threads[t];
      assert Advances(p, c, s, s');
    } else if Consumer(p, s1, j).Done? {
      SumsAdvances(p, c, s, j);
    } else {
      AccessAdvances(p, c, s, s1, t);
    }
  }

  lemma SumsAdvances(p: Program, c: Config, s: StateClient, j: nat)
    requires StateShape(p, c, s) && j < p.consumers && !s.stopped[j]
    requires ConsumerAt(p, s, j).Done? && ConsumerAt(p, s, j).result.Popped?
    ensures exists s' :: Advances(p, c, s, s')
  {
    var v := ConsumerAt(p, s, j).result.v;
    var s' := s.(sums := s.sums[j := s.sums[j] + v], stopped := s.stopped[j := v == p.stop],
                 got := s.got[j := s.got[j] + [v]],
                 q := if v == p.stop then s.q else S.Goto(s.q, |p.scripts| + j, S.PopClaim));
    assert ConsumerSums(p, c, s, s', j);
    assert s'.got[j] != s.got[j];
    assert Advances(p, c, s, s');
  }

  lemma ClientPcOfConsumer(p: Program, c: Config, s1: Client, j: nat)
    requires ClientInv(p, c, s1) && j < p.consumers
    ensures |p.scripts| + j < |s1.q.threads|
    ensures var pc := Consumer(p, s1, j);
            pc.Idle? || pc.PopClaim? || pc.Take? || (pc.Done? && pc.result.Popped?)
  {
    hide Inv, GateOk, NoneLast, Conserved, WellFormed, PushersOk;
    assert ConsumerOk(p, Consumer(p, s1, j), s1.sums[j], s1.stopped[j], s1.got[j]);
  }

  lemma StuckMeansEnded(p: Program, c: Config, s: StateClient, s1: Client)
    requires Same(p, c, s, s1) && StoppedRest(p, s)
    ensures (exists s' :: Advances(p, c, s, s')) || (EveryoneStopped(p, s) && EveryoneDone(p, s))
  {
    hide ClientInv, S.Simulates, StoppedRest, Advances, PusherBlocked, ConsumerBlocked;
    SameShape(p, c, s, s1);
    if i: nat :| i < |s.q.threads| && S.Owns(s.q.threads[i]) {
      OwnerAdvances(p, c, s, i);
    } else if i: nat :| i < |p.scripts| && !PusherBlocked(p, c, s1, i) {
      PusherAdvances(p, c, s, s1, i);
    } else if j: nat :| j < p.consumers && !ConsumerBlocked(p, c, s1, j) {
      ConsumerAdvances(p, c, s, s1, j);
    } else {
      StuckHasEnded(p, c, s1);
      EndsWell(p, c, s, s1);
    }
  }

  /**
   * A well-formed client program with `AtomicQueue2`, in every run: it is not
   * stuck before all of its threads have ended; all but so many of its steps
   * are spinning; and when all consumers have stopped, the queue is empty, each
   * element was popped exactly once, and the sums are right.
   */
  lemma EveryRunIsCorrect(p: Program, c: Config, tr: seq<StateClient>) returns (start1: Client)
    requires WellFormed(p, c.nil) && StateRun(p, c, tr)
    ensures var s := tr[|tr| - 1];
            && ((exists s' :: Advances(p, c, s, s')) || (EveryoneStopped(p, s) && EveryoneDone(p, s)))
            && (EveryoneStopped(p, s) ==> Outcome(p, c, s))
    ensures ClientInit(p, c, start1) && Effective(tr) <= 3 * Potential(p, c, start1)
  {
    hide WellFormed, StateRun, Same, Outcome, Advances, EveryoneStopped, EveryoneDone;
    hide StoppedRest, Potential, Measure, ClientInit;
    var s1;
    start1, s1 := SimulateRun(p, c, tr);
    RunNotEmpty(p, c, tr);
    var s := tr[|tr| - 1];
    RunStoppedRest(p, c, tr, |tr| - 1);
    MeasureNonNegative(p, c, s, s1);
    StuckMeansEnded(p, c, s, s1);
    if EveryoneStopped(p, s) {
      EndsWell(p, c, s, s1);
    }
    InitShape(p, c, start1);
  }

  lemma RunNotEmpty(p: Program, c: Config, tr: seq<StateClient>)
    requires StateRun(p, c, tr)
    ensures |tr| > 0
  {
  }

  lemma InitShape(p: Program, c: Config, start1: Client)
    requires ClientInit(p, c, start1)
    ensures ClientShape(p, c, start1)
  {
  }

  // ----- The two programs -----

  /** What the threads of the benchmark leave in their states: nothing for producers, the sums for consumers. */
  function SumsOfThreads(s: StateClient, nThreads: nat): seq<int> {
    Copies(0, nThreads) + s.sums
  }

  /**
   * The benchmark with `AtomicQueue2`, in every run: never stuck, a bounded
   * number of steps that are not spinning, and at the end an empty queue and
   * the checksum that the benchmark expects.
   */
  lemma BenchmarkIsCorrect(nThreads: nat, n: nat, c: Config, tr: seq<StateClient>)
    requires n > 0 && c.nil == 0 && StateRun(Benchmark(nThreads, n), c, tr)
    ensures var p, s := Benchmark(nThreads, n), tr[|tr| - 1];
            && ((exists s' :: Advances(p, c, s, s')) || (EveryoneStopped(p, s) && EveryoneDone(p, s)))
            && Effective(tr) <= 3 * (nThreads * (6 * n + 3))
            && (EveryoneStopped(p, s) ==>
                  && Outcome(p, c, s)
                  && (forall x :: Bag(BagsOf(s.got))[x] == if 1 <= x <= n then nThreads else 0)
                  && Sum(AllUnbiased(SumsOfThreads(s, nThreads))) == nThreads * (n * (n + 1) / 2))
  {
    var p, s := Benchmark(nThreads, n), tr[|tr| - 1];
    forall x
      ensures Bag(BagsOf(p.scripts))[x] == if 1 <= x <= n then nThreads else 0
    {
      BenchmarkCount(nThreads, n, x);
    }
    hide Bag;
    BenchmarkWellFormed(nThreads, n);
    hide WellFormed, StateRun, Sum, Benchmark, Advances, EveryoneStopped, EveryoneDone, Potential;
    var start1 := EveryRunIsCorrect(p, c, tr);
    BenchmarkPotential(nThreads, n, c, start1);
    if EveryoneStopped(p, s) {
      BenchmarkEnds(nThreads, n, c, tr);
    }
  }

  lemma BenchmarkEnds(nThreads: nat, n: nat, c: Config, tr: seq<StateClient>)
    requires n > 0 && c.nil == 0 && StateRun(Benchmark(nThreads, n), c, tr)
    requires EveryoneStopped(Benchmark(nThreads, n), tr[|tr| - 1])
    ensures Sum(AllUnbiased(SumsOfThreads(tr[|tr| - 1], nThreads))) == nThreads * (n * (n + 1) / 2)
  {
    var p, s := Benchmark(nThreads, n), tr[|tr| - 1];
    BenchmarkWellFormed(nThreads, n);
    hide WellFormed, StateRun, Sum, Benchmark, Bag, ClientInv, AllUnbiased, Measure;
    var start1, s1 := SimulateRun(p, c, tr);
    EndOutcome(p, c, s1);
    BenchmarkChecksum(nThreads, n, c, s1);
    assert SumsOfThreads(s, nThreads) == ThreadSums(s1, nThreads);
  }

  /** The example with `AtomicQueue2`, in every run. */
  lemma ExampleIsCorrect(producers: nat, n: nat, consumers: nat, c: Config, tr: seq<StateClient>)
    requires consumers > 0 && !(0 <= c.nil <= n) && StateRun(Example(producers, n, consumers), c, tr)
    ensures var p, s := Example(producers, n, consumers), tr[|tr| - 1];
            && ((exists s' :: Advances(p, c, s, s')) || (EveryoneStopped(p, s) && EveryoneDone(p, s)))
            && (EveryoneStopped(p, s) ==>
                  && Outcome(p, c, s)
                  && (forall x :: Bag(BagsOf(s.got))[x]
                        == if 1 <= x <= n then producers else if x == 0 then consumers else 0)
                  && Sum(s.sums) == producers * (n * (n + 1) / 2))
  {
    var p, s := Example(producers, n, consumers), tr[|tr| - 1];
    forall x
      ensures Bag(BagsOf(p.scripts))[x] == if 1 <= x <= n then producers else if x == 0 then consumers else 0
    {
      ExampleCount(producers, n, consumers, x);
    }
    hide Bag;
    ExampleWellFormed(producers, n, consumers, c.nil);
    ExampleTotal(producers, n, consumers);
    assert Gains(p, s) == s.sums;
    hide WellFormed, StateRun, Sum, Example, Advances, EveryoneStopped, EveryoneDone;
    var start1 := EveryRunIsCorrect(p, c, tr);
  }
}
