/** What every run of a client program comes to: it is never stuck, and nothing is lost when it ends. */
module Outcomes {
  import opened Sums
  import opened Words
  import opened SlotMap
  import opened Protocol
  import opened Clients

  ghost predicate AllStopped(p: Program, s: Client) {
    |s.stopped| == p.consumers && forall j | 0 <= j < p.consumers :: s.stopped[j]
  }

  ghost predicate AllFinished(p: Program, s: Client) {
    && |s.todo| == |p.scripts| <= |s.q.threads|
    && forall i | 0 <= i < |p.scripts| :: Finished(s, i)
  }

  /** No step changes anything for this thread: it spins on its slot, waits for the others, or has ended. */
  ghost predicate PusherBlocked(p: Program, c: Config, s: Client, i: nat)
    requires ClientShape(p, c, s) && i < |p.scripts|
  {
    match Pusher(s, i)
    case PushClaim(_) => false
    case Put(_, head, _) => s.q.cells[Slot(c, head)] != c.nil
    case _ => s.todo[i] == [] || !GateOpen(p, s, i)
  }

  ghost predicate ConsumerBlocked(p: Program, c: Config, s: Client, j: nat)
    requires ClientShape(p, c, s) && j < p.consumers
  {
    match Consumer(p, s, j)
    case Take(tail, _) => s.q.cells[Slot(c, tail)] == c.nil
    case Done(_) => s.stopped[j]
    case _ => false
  }

  ghost predicate Stuck(p: Program, c: Config, s: Client)
    requires ClientShape(p, c, s)
  {
    && (forall i | 0 <= i < |p.scripts| :: PusherBlocked(p, c, s, i))
    && (forall j | 0 <= j < p.consumers :: ConsumerBlocked(p, c, s, j))
  }

  /** A step that is not spinning. */
  ghost predicate Progress(p: Program, c: Config, s: Client, s': Client) {
    ClientNext(p, c, s, s') && s' != s
  }

  lemma PusherProgress(p: Program, c: Config, s: Client, i: nat)
    requires ClientInv(p, c, s) && i < |p.scripts| && !PusherBlocked(p, c, s, i)
    ensures exists s' :: Progress(p, c, s, s')
  {
    hide WellFormed, Inv, ConsumersOk, GateOk, NoneLast, Conserved;
    assert PusherOk(p, Pusher(s, i), s.todo[i], p.scripts[i]);
    hide PushersOk;
    if Resting(Pusher(s, i)) {
      var s' := s.(q := Begin(s.q, i, Push(s.todo[i][0])), todo := s.todo[i := s.todo[i][1..]]);
      assert PusherBegins(p, c, s, s', i);
      assert s'.todo[i] != s.todo[i];
      assert Progress(p, c, s, s');
    } else {
      var s' := s.(q := Access(c, s.q, i, 0, false));
      assert QueueStep(p, c, s, s', i, false);
      assert Pusher(s', i) != Pusher(s, i);
      assert Progress(p, c, s, s');
    }
  }

  lemma ConsumerProgress(p: Program, c: Config, s: Client, j: nat)
    requires ClientInv(p, c, s) && j < p.consumers && !ConsumerBlocked(p, c, s, j)
    ensures exists s' :: Progress(p, c, s, s')
  {
    hide WellFormed, Inv, PushersOk, GateOk, NoneLast, Conserved;
    assert ConsumerOk(p, Consumer(p, s, j), s.sums[j], s.stopped[j], s.got[j]);
    hide ConsumersOk;
    var t, pc := |p.scripts| + j, Consumer(p, s, j);
    if pc.Idle? {
      var s' := s.(q := Begin(s.q, t, Pop));
      assert ConsumerBegins(p, c, s, s', j);
      assert Consumer(p, s', j) != pc;
      assert Progress(p, c, s, s');
    } else if pc.Done? {
      var v := pc.result.v;
      var s' := s.(sums := s.sums[j := s.sums[j] + v], stopped := s.stopped[j := v == p.stop],
                   got := s.got[j := s.got[j] + [v]], q := if v == p.stop then s.q else Begin(s.q, t, Pop));
      assert ConsumerAdds(p, c, s, s', j);
      assert s'.got[j] != s.got[j];
      assert Progress(p, c, s, s');
    } else {
      var s' := s.(q := Access(c, s.q, t, 0, false));
      assert QueueStep(p, c, s, s', t, false);
      assert Consumer(p, s', j) != pc;
      assert Progress(p, c, s, s');
    }
  }

  // ----- A stuck state has ended -----

  lemma PusherIsNoTaker(p: Program, c: Config, s: Client, i: nat)
    requires ClientShape(p, c, s) && PushersOk(p, s) && i < |p.scripts|
    ensures !s.q.threads[i].Take?
  {
    assert PusherOk(p, Pusher(s, i), s.todo[i], p.scripts[i]);
  }

  lemma ConsumerIsNoPutter(p: Program, c: Config, s: Client, j: nat)
    requires ClientShape(p, c, s) && ConsumersOk(p, c, s) && j < p.consumers
    ensures !s.q.threads[|p.scripts| + j].Put?
  {
    assert ConsumerOk(p, Consumer(p, s, j), s.sums[j], s.stopped[j], s.got[j]);
  }

  /** In a stuck state, whoever holds a slot on the other side of a full or an empty slot would be ready. */
  lemma NoTakerOfFullSlot(p: Program, c: Config, s: Client, r: nat)
    requires ClientInv(p, c, s) && Stuck(p, c, s) && r < c.size && s.q.cells[r] != c.nil
    ensures Pending(c, s.q.threads, Consumers, r) == 0
  {
    hide WellFormed, Inv, ConsumersOk, GateOk, NoneLast, Conserved, PushersOk;
    PendingHolder(c, s.q.threads, Consumers, r);
    forall t | 0 <= t < |s.q.threads|
      ensures !HoldsSlot(c, s.q.threads[t], Consumers, r)
    {
      if t < |p.scripts| {
        PusherIsNoTaker(p, c, s, t);
      } else {
        assert ConsumerBlocked(p, c, s, t - |p.scripts|);
      }
    }
  }

  lemma NoPutterOfEmptySlot(p: Program, c: Config, s: Client, r: nat)
    requires ClientInv(p, c, s) && Stuck(p, c, s) && r < c.size && s.q.cells[r] == c.nil
    ensures Pending(c, s.q.threads, Producers, r) == 0
  {
    hide WellFormed, Inv, ConsumersOk, GateOk, NoneLast, Conserved, PushersOk;
    PendingHolder(c, s.q.threads, Producers, r);
    forall t | 0 <= t < |s.q.threads|
      ensures !HoldsSlot(c, s.q.threads[t], Producers, r)
    {
      if t < |p.scripts| {
        assert PusherBlocked(p, c, s, t);
      } else {
        ConsumerIsNoPutter(p, c, s, t - |p.scripts|);
      }
    }
  }

  /** If a pusher spins on a full slot, the producers are ahead. */
  lemma SpinningPusherAhead(p: Program, c: Config, s: Client, i: nat)
    requires ClientInv(p, c, s) && Stuck(p, c, s) && i < |p.scripts| && Pusher(s, i).Put?
    ensures s.q.pops < s.q.pushes
  {
    hide WellFormed, PushersOk, ConsumersOk, GateOk, NoneLast, Conserved;
    var r := Slot(c, Pusher(s, i).head);
    assert PusherBlocked(p, c, s, i);
    NoTakerOfFullSlot(p, c, s, r);
    assert SlotOk(c, s.q, r);
    PendingHolder(c, s.q.threads, Producers, r);
    assert HoldsSlot(c, s.q.threads[i], Producers, r);
    if s.q.pushes <= s.q.pops {
      IssuedMonotone(c, s.q.pushes, s.q.pops, r);
    }
  }

  /** If a consumer spins on an empty slot, the consumers are ahead. */
  lemma SpinningConsumerAhead(p: Program, c: Config, s: Client, j: nat)
    requires ClientInv(p, c, s) && Stuck(p, c, s) && j < p.consumers && Consumer(p, s, j).Take?
    ensures s.q.pushes < s.q.pops
  {
    hide WellFormed, PushersOk, ConsumersOk, GateOk, NoneLast, Conserved;
    var r := Slot(c, Consumer(p, s, j).tail);
    assert ConsumerBlocked(p, c, s, j);
    NoPutterOfEmptySlot(p, c, s, r);
    assert SlotOk(c, s.q, r);
    PendingHolder(c, s.q.threads, Consumers, r);
    assert HoldsSlot(c, s.q.threads[|p.scripts| + j], Consumers, r);
    if s.q.pops <= s.q.pushes {
      IssuedMonotone(c, s.q.pops, s.q.pushes, r);
    }
  }

  // ----- Counting stop elements -----

  ghost function Counts(bags: seq<multiset<int>>, x: int): seq<int> {
    seq(|bags|, i requires 0 <= i < |bags| => bags[i][x])
  }

  lemma CountsSum(bags: seq<multiset<int>>, x: int)
    ensures Bag(bags)[x] == Sum(Counts(bags, x))
  {
    BagCount(bags, x);
    assert Counts(bags, x) == seq(|bags|, i requires 0 <= i < |bags| => bags[i][x]);
  }

  lemma CountAtLeast(bags: seq<multiset<int>>, i: nat, x: int)
    requires i < |bags|
    ensures bags[i][x] <= Bag(bags)[x]
  {
    CountsSum(bags, x);
    SumAtLeast(Counts(bags, x), i);
  }

  /** Every consumer that has stopped has got one stop element, and no other consumer has. */
  lemma StopsReceived(p: Program, c: Config, s: Client, j: nat)
    requires ClientShape(p, c, s) && ConsumersOk(p, c, s) && j < p.consumers
    requires s.stopped[j] || !Consumer(p, s, j).Done?
    ensures ReceivedBags(p, s)[j][p.stop] == if s.stopped[j] then 1 else 0
  {
    assert ConsumerOk(p, Consumer(p, s, j), s.sums[j], s.stopped[j], s.got[j]);
  }

  lemma AllStopsReceived(p: Program, c: Config, s: Client)
    requires ClientInv(p, c, s) && AllStopped(p, s)
    ensures Bag(RestBags(p, s))[p.stop] == 0 && Bag(CellBags(s.q.cells, c.nil))[p.stop] == 0
  {
    hide Inv, PushersOk, GateOk, NoneLast, Bag;
    forall j | 0 <= j < p.consumers
      ensures Counts(ReceivedBags(p, s), p.stop)[j] == 1
    {
      StopsReceived(p, c, s, j);
    }
    CountsSum(ReceivedBags(p, s), p.stop);
    SumConstant(Counts(ReceivedBags(p, s), p.stop), 1);
    assert Bag(ReceivedBags(p, s))[p.stop] == p.consumers;
  }

  lemma RestHasStop(p: Program, pc: Pc, todo: seq<int>, script: seq<int>)
    requires PusherOk(p, pc, todo, script) && EndsWithStop(p, script) && Rest(pc, todo) != []
    ensures multiset(Rest(pc, todo))[p.stop] > 0
  {
    var rest := Rest(pc, todo);
    assert rest[|rest| - 1] == script[|script| - 1];
    assert p.stop in rest;
  }

  lemma NoStopIsFinished(p: Program, c: Config, s: Client, i: nat)
    requires ClientShape(p, c, s) && PushersOk(p, s) && i < |p.scripts| && EndsWithStop(p, p.scripts[i])
    requires RestBags(p, s)[i][p.stop] == 0
    ensures Finished(s, i)
  {
    assert PusherOk(p, Pusher(s, i), s.todo[i], p.scripts[i]);
    if Rest(Pusher(s, i), s.todo[i]) != [] {
      RestHasStop(p, Pusher(s, i), s.todo[i], p.scripts[i]);
    }
  }

  /** Once all consumers have stopped, all pushers have finished, and no stop element is left in the queue. */
  lemma AllStoppedAllFinished(p: Program, c: Config, s: Client)
    requires ClientInv(p, c, s) && AllStopped(p, s)
    ensures AllFinished(p, s)
    ensures forall r | 0 <= r < c.size :: s.q.cells[r] != c.nil ==> s.q.cells[r] != p.stop
  {
    hide Inv, ConsumersOk, NoneLast, Conserved, Bag, PusherOk;
    AllStopsReceived(p, c, s);
    forall r | 0 <= r < c.size
      ensures s.q.cells[r] != c.nil ==> s.q.cells[r] != p.stop
    {
      CountAtLeast(CellBags(s.q.cells, c.nil), r, p.stop);
    }
    var m := |p.scripts| - 1;
    forall i | 0 <= i < |p.scripts| && EndsWithStop(p, p.scripts[i])
      ensures Finished(s, i)
    {
      CountAtLeast(RestBags(p, s), i, p.stop);
      NoStopIsFinished(p, c, s, i);
    }
    if p.gated {
      assert Finished(s, m);
      assert s.todo[m] != p.scripts[m];
    }
  }

  /** If the pushers have finished and the slots are empty, every consumer has got its stop element. */
  lemma {:induction false} AllPushedAllStopped(p: Program, c: Config, s: Client, j: nat)
    requires ClientInv(p, c, s) && AllFinished(p, s) && (forall r | 0 <= r < c.size :: s.q.cells[r] == c.nil)
    requires forall k | 0 <= k < p.consumers :: s.stopped[k] || !Consumer(p, s, k).Done?
    requires j < p.consumers
    ensures s.stopped[j]
  {
    hide Inv, PushersOk, GateOk, NoneLast, Bag;
    EmptyBags(CellBags(s.q.cells, c.nil));
    forall i | 0 <= i < |p.scripts|
      ensures RestBags(p, s)[i] == multiset{}
    {
      assert Finished(s, i);
    }
    EmptyBags(RestBags(p, s));
    var counts := Counts(ReceivedBags(p, s), p.stop);
    CountsSum(ReceivedBags(p, s), p.stop);
    forall k | 0 <= k < p.consumers
      ensures counts[k] == if s.stopped[k] then 1 else 0
    {
      StopsReceived(p, c, s, k);
    }
    assert Sum(counts) == p.consumers;
    AllOnes(counts, j);
  }

  /** Terms of at most 1 add up to their number only if all of them are 1. */
  lemma AllOnes(s: seq<int>, j: nat)
    requires (forall k | 0 <= k < |s| :: s[k] <= 1) && Sum(s) == |s| && j < |s|
    ensures s[j] == 1
  {
    SumUpdate(s, j, 1);
    SumAtMost(s[j := 1]);
  }

  lemma {:induction false} SumAtMost(s: seq<int>)
    requires forall k | 0 <= k < |s| :: s[k] <= 1
    ensures Sum(s) <= |s|
  {
    if s != [] {
      SumAtMost(s[1..]);
    }
  }

  // ----- The two main theorems -----

  lemma StuckPushersFinished(p: Program, c: Config, s: Client)
    requires ClientInv(p, c, s) && Stuck(p, c, s) && forall i | 0 <= i < |p.scripts| :: !Pusher(s, i).Put?
    ensures AllFinished(p, s)
  {
    hide WellFormed, Inv, ConsumersOk, GateOk, NoneLast, Conserved, PushersOk;
    var m := |p.scripts| - 1;
    forall i | 0 <= i < |p.scripts| && (p.gated ==> i != m)
      ensures Finished(s, i)
    {
      PusherRests(p, c, s, i);
      assert PusherBlocked(p, c, s, i);
    }
    if p.gated && |p.scripts| > 0 {
      PusherRests(p, c, s, m);
      assert PusherBlocked(p, c, s, m);
    }
  }

  lemma PusherRests(p: Program, c: Config, s: Client, i: nat)
    requires ClientShape(p, c, s) && PushersOk(p, s) && i < |p.scripts|
    requires PusherBlocked(p, c, s, i) && !Pusher(s, i).Put?
    ensures Resting(Pusher(s, i))
  {
    assert PusherOk(p, Pusher(s, i), s.todo[i], p.scripts[i]);
  }

  /** If a stuck state had an unstopped consumer although all pushers have finished, its slots would be empty. */
  lemma StuckSlotsEmpty(p: Program, c: Config, s: Client, j: nat, r: nat)
    requires ClientInv(p, c, s) && Stuck(p, c, s) && AllFinished(p, s)
    requires j < p.consumers && !s.stopped[j] && r < c.size
    ensures s.q.cells[r] == c.nil
  {
    hide WellFormed, PushersOk, GateOk, NoneLast, Conserved;
    assert ConsumerBlocked(p, c, s, j);
    SpinningConsumerAhead(p, c, s, j);
    IssuedMonotone(c, s.q.pushes, s.q.pops, r);
    assert SlotOk(c, s.q, r);
    if s.q.cells[r] != c.nil {
      NoTakerOfFullSlot(p, c, s, r);
      NoPutters(p, c, s, r);
    }
  }

  lemma NoPutters(p: Program, c: Config, s: Client, r: nat)
    requires ClientShape(p, c, s) && ConsumersOk(p, c, s) && AllFinished(p, s)
    ensures Pending(c, s.q.threads, Producers, r) == 0
  {
    hide ConsumersOk;
    PendingHolder(c, s.q.threads, Producers, r);
    forall t | 0 <= t < |s.q.threads|
      ensures !HoldsSlot(c, s.q.threads[t], Producers, r)
    {
      if t < |p.scripts| {
        assert Finished(s, t);
      } else {
        ConsumerIsNoPutter(p, c, s, t - |p.scripts|);
      }
    }
  }

  lemma StuckHasEnded(p: Program, c: Config, s: Client)
    requires ClientInv(p, c, s) && Stuck(p, c, s)
    ensures AllStopped(p, s) && AllFinished(p, s)
  {
    hide WellFormed, Inv, PushersOk, ConsumersOk, GateOk, NoneLast, Conserved, AllFinished;
    forall j | 0 <= j < p.consumers && !s.stopped[j]
      ensures Consumer(p, s, j).Take?
    {
      assert ConsumerBlocked(p, c, s, j);
    }
    if i: nat :| i < |p.scripts| && Pusher(s, i).Put? {
      SpinningPusherAhead(p, c, s, i);
      forall j | 0 <= j < p.consumers
        ensures s.stopped[j]
      {
        if !s.stopped[j] {
          SpinningConsumerAhead(p, c, s, j);
        }
      }
      AllStoppedAllFinished(p, c, s);
    } else {
      StuckPushersFinished(p, c, s);
      forall j | 0 <= j < p.consumers
        ensures s.stopped[j]
      {
        if !s.stopped[j] {
          forall r | 0 <= r < c.size
            ensures s.q.cells[r] == c.nil
          {
            StuckSlotsEmpty(p, c, s, j, r);
          }
          AllPushedAllStopped(p, c, s, j);
        }
      }
    }
  }

  /**
   * No run of a well-formed program ever gets stuck: in every state that it
   * reaches, unless all of its threads have ended, some step makes progress.
   */
  lemma NeverStuck(p: Program, c: Config, tr: seq<Client>, k: nat)
    requires WellFormed(p, c.nil) && ClientRun(p, c, tr) && k < |tr|
    ensures (AllStopped(p, tr[k]) && AllFinished(p, tr[k])) || exists s' :: Progress(p, c, tr[k], s')
  {
    hide WellFormed, ClientRun, ClientInv, PusherBlocked, ConsumerBlocked, Progress, AllStopped, AllFinished;
    var s := tr[k];
    ClientRunInv(p, c, tr, k);
    InvShape(p, c, s);
    if i: nat :| i < |p.scripts| && !PusherBlocked(p, c, s, i) {
      PusherProgress(p, c, s, i);
    } else if j: nat :| j < p.consumers && !ConsumerBlocked(p, c, s, j) {
      ConsumerProgress(p, c, s, j);
    } else {
      StuckHasEnded(p, c, s);
    }
  }

  lemma NoTakers(p: Program, c: Config, s: Client, r: nat)
    requires ClientShape(p, c, s) && PushersOk(p, s) && ConsumersOk(p, c, s) && AllStopped(p, s)
    ensures Pending(c, s.q.threads, Consumers, r) == 0
  {
    hide PushersOk;
    PendingHolder(c, s.q.threads, Consumers, r);
    forall t | 0 <= t < |s.q.threads|
      ensures !HoldsSlot(c, s.q.threads[t], Consumers, r)
    {
      if t < |p.scripts| {
        PusherIsNoTaker(p, c, s, t);
      } else {
        var j := t - |p.scripts|;
        assert ConsumerOk(p, Consumer(p, s, j), s.sums[j], s.stopped[j], s.got[j]);
      }
    }
  }

  /** When all consumers have stopped, a slot has been stored into and taken from as often as tickets were issued. */
  lemma EndCounts(p: Program, c: Config, s: Client, r: nat)
    requires ClientInv(p, c, s) && AllStopped(p, s) && r < c.size
    ensures Issued(c, s.q.pushes, r) == |s.q.stored[r]| && Issued(c, s.q.pops, r) == |s.q.taken[r]|
    ensures |s.q.taken[r]| <= |s.q.stored[r]| <= |s.q.taken[r]| + 1
    ensures s.q.cells[r] == c.nil <==> |s.q.taken[r]| == |s.q.stored[r]|
  {
    AllStoppedAllFinished(p, c, s);
    hide WellFormed, GateOk, NoneLast, Conserved, AllFinished, AllStopped;
    NoPutters(p, c, s, r);
    NoTakers(p, c, s, r);
    hide PushersOk, ConsumersOk;
    assert SlotOk(c, s.q, r);
  }

  /** Once all consumers have stopped, as many pops as pushes have been claimed. */
  lemma EndIndexes(p: Program, c: Config, s: Client)
    requires ClientInv(p, c, s) && AllStopped(p, s)
    ensures s.q.pushes == s.q.pops
  {
    hide WellFormed, Inv, NoneLast, GateOk, PushersOk, ConsumersOk, Conserved, AllStopped, Wrap, Issued;
    if s.q.pushes < s.q.pops {
      var r := SlotOf(c, s.q.pushes);
      EndCounts(p, c, s, r);
      IssuedNext(c, s.q.pushes, r);
      IssuedMonotone(c, s.q.pushes + 1, s.q.pops, r);
    } else {
      LastSlotIsEmpty(p, c, s);
    }
  }

  /** The slot of the last push ticket is not full: its element would neither be a stop nor be followed by another. */
  lemma LastSlotIsEmpty(p: Program, c: Config, s: Client)
    requires ClientInv(p, c, s) && AllStopped(p, s)
    ensures s.q.pushes <= s.q.pops
  {
    hide WellFormed, Inv, NoneLast, GateOk, PushersOk, ConsumersOk, Conserved, MoreToClaim;
    hide AllStopped, AllFinished, Wrap, Issued;
    AllStoppedAllFinished(p, c, s);
    NothingFollows(p, c, s);
    if s.q.pops < s.q.pushes {
      var r := SlotOf(c, s.q.pushes - 1);
      EndCounts(p, c, s, r);
      IssuedBeforeLast(c, s.q.pushes, s.q.pops, r);
      LastEntryIssued(p, c, s, r);
      IssuedBeforeLast(c, s.q.pushes, s.q.stored[r][|s.q.taken[r]|].issued, r);
    }
  }

  /** Before the last ticket was issued, its slot had received one ticket less. */
  lemma IssuedBeforeLast(c: Config, n: nat, m: nat, r: nat)
    requires m < n && r == SlotOf(c, n - 1)
    ensures Issued(c, m, r) < Issued(c, n, r)
  {
    hide Wrap;
    IssuedNext(c, n - 1, r);
    IssuedMonotone(c, m, n - 1, r);
  }

  lemma NothingFollows(p: Program, c: Config, s: Client)
    requires AllFinished(p, s)
    ensures !MoreToClaim(p, s)
  {
    forall i | 0 <= i < |p.scripts|
      ensures s.todo[i] == [] && !Pusher(s, i).PushClaim?
    {
      assert Finished(s, i);
    }
  }

  /** An element that is still in a slot was stored before the last push ticket was issued. */
  lemma LastEntryIssued(p: Program, c: Config, s: Client, r: nat)
    requires ClientShape(p, c, s) && Inv(c, s.q) && NoneLast(p, c, s) && !MoreToClaim(p, s)
    requires r < c.size && s.q.cells[r] != c.nil && s.q.cells[r] != p.stop && |s.q.taken[r]| < |s.q.stored[r]|
    ensures s.q.stored[r][|s.q.taken[r]|].issued < s.q.pushes
    ensures Issued(c, s.q.stored[r][|s.q.taken[r]|].issued, r) > |s.q.taken[r]|
  {
    hide MoreToClaim, Wrap, Issued;
    assert NotLast(p, c, s, r);
    assert SlotOk(c, s.q, r);
  }

  ghost function Concat(ss: seq<seq<int>>): seq<int> {
    if ss == [] then [] else ss[0] + Concat(ss[1..])
  }

  ghost function BagsOf(ss: seq<seq<int>>): seq<multiset<int>> {
    seq(|ss|, i requires 0 <= i < |ss| => multiset(ss[i]))
  }

  ghost function SumsOf(ss: seq<seq<int>>): seq<int> {
    seq(|ss|, i requires 0 <= i < |ss| => Sum(ss[i]))
  }

  lemma {:induction false} ConcatBag(ss: seq<seq<int>>)
    ensures multiset(Concat(ss)) == Bag(BagsOf(ss))
    ensures Sum(Concat(ss)) == Sum(SumsOf(ss))
  {
    if ss != [] {
      ConcatBag(ss[1..]);
      assert BagsOf(ss)[1..] == BagsOf(ss[1..]);
      assert SumsOf(ss)[1..] == SumsOf(ss[1..]);
      SumAppend(ss[0], Concat(ss[1..]));
    }
  }

  /** What the consumers have added up, without the bias. */
  ghost function Totals(p: Program, s: Client): seq<int> {
    seq(|s.sums|, j requires 0 <= j < |s.sums| => s.sums[j] - p.bias)
  }

  /**
   * In every run, whatever the interleaving and however producers overtake
   * each other, once all consumers have stopped: all pushers have finished, as
   * many pops as pushes were claimed, the queue is empty, every element was
   * popped exactly once, and the sums add up to the sum of all the scripts.
   */
  lemma ExactlyOnce(p: Program, c: Config, tr: seq<Client>, k: nat)
    requires WellFormed(p, c.nil) && ClientRun(p, c, tr) && k < |tr| && ClientShape(p, c, tr[k]) && AllStopped(p, tr[k])
    ensures AllFinished(p, tr[k]) && tr[k].q.pushes == tr[k].q.pops
    ensures forall r | 0 <= r < c.size :: tr[k].q.cells[r] == c.nil
    ensures Bag(BagsOf(tr[k].got)) == Bag(BagsOf(p.scripts))
    ensures Sum(Totals(p, tr[k])) == Sum(SumsOf(p.scripts))
  {
    hide WellFormed, ClientRun;
    ClientRunInv(p, c, tr, k);
    EndOutcome(p, c, tr[k]);
  }

  lemma EndOutcome(p: Program, c: Config, s: Client)
    requires ClientInv(p, c, s) && AllStopped(p, s)
    ensures AllFinished(p, s) && s.q.pushes == s.q.pops
    ensures forall r | 0 <= r < c.size :: s.q.cells[r] == c.nil
    ensures Bag(BagsOf(s.got)) == Bag(BagsOf(p.scripts))
    ensures Sum(Totals(p, s)) == Sum(SumsOf(p.scripts))
  {
    AllStoppedAllFinished(p, c, s);
    EndIndexes(p, c, s);
    forall r | 0 <= r < c.size
      ensures s.q.cells[r] == c.nil
    {
      EndCounts(p, c, s, r);
    }
    EndBags(p, c, s);
    ConcatBag(s.got);
    ConcatBag(p.scripts);
    SumOfBag(Concat(s.got), Concat(p.scripts));
    EndSums(p, c, s);
  }

  lemma EndSums(p: Program, c: Config, s: Client)
    requires ClientInv(p, c, s)
    ensures Totals(p, s) == SumsOf(s.got)
  {
    hide WellFormed, Inv, GateOk, PushersOk, Conserved, NoneLast;
    forall j | 0 <= j < p.consumers
      ensures Totals(p, s)[j] == SumsOf(s.got)[j]
    {
      assert ConsumerOk(p, Consumer(p, s, j), s.sums[j], s.stopped[j], s.got[j]);
    }
  }

  lemma EndBags(p: Program, c: Config, s: Client)
    requires ClientInv(p, c, s) && AllStopped(p, s) && AllFinished(p, s)
    requires forall r | 0 <= r < c.size :: s.q.cells[r] == c.nil
    ensures Bag(BagsOf(s.got)) == Bag(BagsOf(p.scripts))
  {
    hide WellFormed, Inv, GateOk, PushersOk, ConsumersOk, NoneLast, Bag;
    forall i | 0 <= i < |p.scripts|
      ensures RestBags(p, s)[i] == multiset{}
    {
      assert Finished(s, i);
    }
    EmptyBags(RestBags(p, s));
    EmptyBags(CellBags(s.q.cells, c.nil));
    assert ReceivedBags(p, s) == BagsOf(s.got);
    assert ScriptBags(p) == BagsOf(p.scripts);
  }
}
