/**
 * The two client programs of the repository, the throughput benchmark and the
 * example, as instances; and why they end.
 */
module Programs {
  import opened Sums
  import opened Words
  import opened SlotMap
  import opened Protocol
  import opened Clients
  import opened Outcomes

  // ----- Progress is bounded -----

  function PusherRank(pc: Pc, todo: seq<int>): int {
    6 * |todo| + (if pc.PushClaim? then 5 else if pc.Put? then 4 else 0)
  }

  function CellRank(cell: int, nil: int): int {
    if cell == nil then 0 else 3
  }

  function ConsumerRank(pc: Pc, stopped: bool): int {
    if stopped then 0 else if pc.PopClaim? then 2 else if pc.Take? then 1 else 3
  }

  ghost function PusherRanks(p: Program, s: Client): seq<int>
    requires |s.todo| == |p.scripts| <= |s.q.threads|
  {
    seq(|p.scripts|, i requires 0 <= i < |p.scripts| => PusherRank(Pusher(s, i), s.todo[i]))
  }

  ghost function CellRanks(cells: seq<int>, nil: int): seq<int> {
    seq(|cells|, r requires 0 <= r < |cells| => CellRank(cells[r], nil))
  }

  ghost function ConsumerRanks(p: Program, s: Client): seq<int>
    requires |s.stopped| == p.consumers && |s.q.threads| == |p.scripts| + p.consumers
  {
    seq(p.consumers, j requires 0 <= j < p.consumers => ConsumerRank(Consumer(p, s, j), s.stopped[j]))
  }

  /** An upper bound of the number of steps that are not spinning. */
  ghost function Potential(p: Program, c: Config, s: Client): int
    requires ClientShape(p, c, s)
  {
    Sum(PusherRanks(p, s)) + Sum(CellRanks(s.q.cells, c.nil)) + Sum(ConsumerRanks(p, s))
  }

  lemma PotentialNonNegative(p: Program, c: Config, s: Client)
    requires ClientShape(p, c, s)
    ensures Potential(p, c, s) >= 0
  {
    SumNonNegative(PusherRanks(p, s));
    SumNonNegative(CellRanks(s.q.cells, c.nil));
    SumNonNegative(ConsumerRanks(p, s));
  }

  lemma PusherRankChange(p: Program, c: Config, s: Client, s': Client, i: nat)
    requires ClientShape(p, c, s) && ClientShape(p, c, s') && OnlyPusher(p, s, s', i)
    ensures Sum(PusherRanks(p, s')) - Sum(PusherRanks(p, s))
         == PusherRank(Pusher(s', i), s'.todo[i]) - PusherRank(Pusher(s, i), s.todo[i])
    ensures Sum(ConsumerRanks(p, s')) == Sum(ConsumerRanks(p, s))
  {
    var x := PusherRank(Pusher(s', i), s'.todo[i]);
    assert PusherRanks(p, s') == PusherRanks(p, s)[i := x];
    SumUpdate(PusherRanks(p, s), i, x);
    assert ConsumerRanks(p, s') == ConsumerRanks(p, s);
  }

  lemma ConsumerRankChange(p: Program, c: Config, s: Client, s': Client, j: nat)
    requires ClientShape(p, c, s) && ClientShape(p, c, s') && OnlyConsumer(p, s, s', j)
    ensures Sum(ConsumerRanks(p, s')) - Sum(ConsumerRanks(p, s))
         == ConsumerRank(Consumer(p, s', j), s'.stopped[j]) - ConsumerRank(Consumer(p, s, j), s.stopped[j])
    ensures Sum(PusherRanks(p, s')) == Sum(PusherRanks(p, s))
  {
    var x := ConsumerRank(Consumer(p, s', j), s'.stopped[j]);
    assert ConsumerRanks(p, s') == ConsumerRanks(p, s)[j := x];
    SumUpdate(ConsumerRanks(p, s), j, x);
    assert forall i | 0 <= i < |p.scripts| :: Pusher(s', i) == Pusher(s, i);
    assert PusherRanks(p, s') == PusherRanks(p, s);
  }

  lemma CellRankChange(cells: seq<int>, nil: int, r: nat, v: int)
    requires r < |cells|
    ensures Sum(CellRanks(cells[r := v], nil)) - Sum(CellRanks(cells, nil))
         == CellRank(v, nil) - CellRank(cells[r], nil)
  {
    assert CellRanks(cells[r := v], nil) == CellRanks(cells, nil)[r := CellRank(v, nil)];
    SumUpdate(CellRanks(cells, nil), r, CellRank(v, nil));
  }

  lemma ClientStepDescends(p: Program, c: Config, s: Client, s': Client)
    requires ClientInv(p, c, s) && ClientShape(p, c, s') && ClientNext(p, c, s, s')
    requires !(exists i, weak :: QueueStep(p, c, s, s', i, weak))
    ensures Potential(p, c, s') < Potential(p, c, s)
  {
    hide WellFormed, Inv, GateOk, NoneLast, Conserved, Sum, PushersOk;
    if i: nat :| PusherBegins(p, c, s, s', i) {
      PusherRankChange(p, c, s, s', i);
    } else if j: nat :| ConsumerBegins(p, c, s, s', j) {
      assert ConsumerOk(p, Consumer(p, s, j), s.sums[j], s.stopped[j], s.got[j]);
      ConsumerRankChange(p, c, s, s', j);
    } else {
      var j: nat :| ConsumerAdds(p, c, s, s', j);
      ConsumerRankChange(p, c, s, s', j);
    }
  }

  lemma QueueStepDescends(p: Program, c: Config, s: Client, s': Client, t: nat, weak: bool)
    requires ClientInv(p, c, s) && ClientShape(p, c, s') && QueueStep(p, c, s, s', t, weak) && s' != s
    ensures Potential(p, c, s') < Potential(p, c, s)
  {
    hide WellFormed, GateOk, NoneLast, Conserved, Sum, SlotOk;
    assert PcOk(c, s.q.threads[t], s.q.pushes, s.q.pops);
    if t < |p.scripts| {
      assert PusherOk(p, Pusher(s, t), s.todo[t], p.scripts[t]);
      PusherRankChange(p, c, s, s', t);
      if Pusher(s, t).Put? {
        CellRankChange(s.q.cells, c.nil, Slot(c, Pusher(s, t).head), Pusher(s, t).e);
      }
    } else {
      var j := t - |p.scripts|;
      assert ConsumerOk(p, Consumer(p, s, j), s.sums[j], s.stopped[j], s.got[j]);
      ConsumerRankChange(p, c, s, s', j);
      if Consumer(p, s, j).Take? {
        CellRankChange(s.q.cells, c.nil, Slot(c, Consumer(p, s, j).tail), c.nil);
      }
    }
  }

  lemma ProgressDescends(p: Program, c: Config, s: Client, s': Client)
    requires ClientInv(p, c, s) && Progress(p, c, s, s')
    ensures ClientInv(p, c, s') && Potential(p, c, s') < Potential(p, c, s)
  {
    ClientNextKeepsInv(p, c, s, s');
    hide WellFormed, Inv, GateOk, NoneLast, Conserved, PushersOk, ConsumersOk, Potential;
    if i: nat, weak: bool :| QueueStep(p, c, s, s', i, weak) {
      QueueStepDescends(p, c, s, s', i, weak);
    } else {
      ClientStepDescends(p, c, s, s');
    }
  }

  /** The number of steps of a run that are not spinning. */
  ghost function Effective(tr: seq<Client>): nat {
    if |tr| < 2 then 0
    else Effective(tr[..|tr| - 1]) + (if tr[|tr| - 1] != tr[|tr| - 2] then 1 else 0)
  }

  /** In any run, at most as many steps as the initial potential are not spinning. */
  lemma {:induction false} BoundedProgress(p: Program, c: Config, tr: seq<Client>)
    requires WellFormed(p, c.nil) && ClientRun(p, c, tr)
    ensures ClientInv(p, c, tr[|tr| - 1]) && Effective(tr) + Potential(p, c, tr[|tr| - 1]) <= Potential(p, c, tr[0])
    ensures Effective(tr) <= Potential(p, c, tr[0])
    decreases |tr|
  {
    hide WellFormed, Inv, GateOk, NoneLast, Conserved, PushersOk, ConsumersOk, Potential, ClientInit;
    var n := |tr| - 1;
    ClientRunInv(p, c, tr, n);
    PotentialNonNegative(p, c, tr[n]);
    if n > 0 {
      var before := tr[..n];
      assert ClientRun(p, c, before) by {
        forall k | 0 <= k < |before| - 1
          ensures ClientNext(p, c, before[k], before[k + 1])
        {
          assert ClientNext(p, c, tr[k], tr[k + 1]);
        }
      }
      BoundedProgress(p, c, before);
      assert ClientNext(p, c, tr[n - 1], tr[n - 1 + 1]);
      if tr[n] != tr[n - 1] {
        ProgressDescends(p, c, tr[n - 1], tr[n]);
      }
    }
  }

  /** A sequence of steps that makes progress all the time. */
  ghost predicate Completion(p: Program, c: Config, tr: seq<Client>) {
    |tr| > 0 && forall k | 0 <= k < |tr| - 1 :: Progress(p, c, tr[k], tr[k + 1])
  }

  lemma SomeProgress(p: Program, c: Config, s: Client) returns (s': Client)
    requires ClientInv(p, c, s) && !(AllStopped(p, s) && AllFinished(p, s))
    ensures Progress(p, c, s, s')
  {
    hide WellFormed, Inv, GateOk, NoneLast, Conserved, PushersOk, ConsumersOk, AllStopped, AllFinished;
    if i: nat :| i < |p.scripts| && !PusherBlocked(p, c, s, i) {
      PusherProgress(p, c, s, i);
    } else if j: nat :| j < p.consumers && !ConsumerBlocked(p, c, s, j) {
      ConsumerProgress(p, c, s, j);
    } else {
      StuckHasEnded(p, c, s);
    }
    s' :| Progress(p, c, s, s');
  }

  /** Whatever has happened so far, the program can still be completed. */
  lemma {:induction false} CanComplete(p: Program, c: Config, s: Client) returns (tr: seq<Client>)
    requires ClientInv(p, c, s)
    ensures Completion(p, c, tr) && tr[0] == s && AllStopped(p, tr[|tr| - 1]) && AllFinished(p, tr[|tr| - 1])
    decreases Potential(p, c, s)
  {
    hide WellFormed, Inv, GateOk, NoneLast, Conserved, PushersOk, ConsumersOk;
    hide Potential, AllStopped, AllFinished, Progress;
    if AllStopped(p, s) && AllFinished(p, s) {
      tr := [s];
    } else {
      var s' := SomeProgress(p, c, s);
      ProgressDescends(p, c, s, s');
      PotentialNonNegative(p, c, s');
      var rest := CanComplete(p, c, s');
      tr := [s] + rest;
      forall k | 0 <= k < |tr| - 1
        ensures Progress(p, c, tr[k], tr[k + 1])
      {
        if k > 0 {
          assert Progress(p, c, rest[k - 1], rest[k - 1 + 1]);
        }
      }
    }
  }

  /** Every well-formed program has a run that completes. */
  lemma SomeRunCompletes(p: Program, c: Config) returns (tr: seq<Client>)
    requires WellFormed(p, c.nil) && c.Valid()
    ensures ClientRun(p, c, tr) && AllStopped(p, tr[|tr| - 1]) && AllFinished(p, tr[|tr| - 1])
  {
    hide WellFormed, AllStopped, AllFinished;
    var s := ClientStart(p, c);
    ClientInitInv(p, c, s);
    hide ClientInit, ClientInv;
    tr := CanComplete(p, c, s);
    forall k | 0 <= k < |tr| - 1
      ensures ClientNext(p, c, tr[k], tr[k + 1])
    {
      assert Progress(p, c, tr[k], tr[k + 1]);
    }
  }

  lemma ClientStart(p: Program, c: Config) returns (s: Client)
    requires c.Valid()
    ensures ClientInit(p, c, s)
  {
    var threads := seq(|p.scripts| + p.consumers, _ => Idle);
    var q := State(0, 0, seq(c.size, _ => c.nil), threads, 0, 0, seq(c.size, _ => []), seq(c.size, _ => []));
    s := Client(q, p.scripts, seq(p.consumers, _ => p.bias), seq(p.consumers, _ => false), seq(p.consumers, _ => []));
  }

  // ----- Scripts -----

  /** The elements n, n - 1, ..., 1. */
  function Countdown(n: nat): seq<int> {
    if n == 0 then [] else [n] + Countdown(n - 1)
  }

  lemma {:induction false} CountdownSum(n: nat)
    ensures Sum(Countdown(n)) == n * (n + 1) / 2
  {
    if n > 0 {
      CountdownSum(n - 1);
      TriangleStep(n);
    }
  }

  lemma TriangleStep(n: nat)
    requires n > 0
    ensures n * (n + 1) / 2 == n + (n - 1) * (n - 1 + 1) / 2
  {
    assert n * (n + 1) == (n - 1) * n + 2 * n;
  }

  lemma {:induction false} CountdownMembers(n: nat)
    ensures forall x | x in Countdown(n) :: 1 <= x <= n
    ensures n > 0 ==> multiset(Countdown(n))[1] == 1
    ensures |Countdown(n)| == n && (n > 0 ==> Countdown(n)[n - 1] == 1)
  {
    if n > 0 {
      var rest := Countdown(n - 1);
      assert Countdown(n) == [n] + rest;
      hide Countdown;
      CountdownMembers(n - 1);
      assert multiset([n] + rest) == multiset{n} + multiset(rest);
    }
  }

  lemma {:induction false} CountdownAt(n: nat, k: nat)
    requires k < n
    ensures |Countdown(n)| == n && Countdown(n)[k] == n - k
  {
    CountdownMembers(n);
    if k > 0 {
      CountdownAt(n - 1, k - 1);
    }
  }

  /** Every element from 1 to n is pushed once. */
  lemma {:induction false} CountdownCount(n: nat, x: int)
    ensures multiset(Countdown(n))[x] == if 1 <= x <= n then 1 else 0
  {
    if n > 0 {
      var rest := Countdown(n - 1);
      assert Countdown(n) == [n] + rest;
      hide Countdown;
      CountdownCount(n - 1, x);
      assert multiset([n] + rest) == multiset{n} + multiset(rest);
    }
  }

  /** The loop of a producer of the benchmark; what it pushes is its script. */
  method BenchmarkProducer(n: nat) returns (pushed: seq<int>)
    requires n > 0
    ensures pushed == Countdown(n)
  {
    var left := n;
    pushed := [left];
    left := left - 1;
    while left != 0
      invariant pushed + Countdown(left) == Countdown(n)
    {
      pushed := pushed + [left];
      left := left - 1;
    }
  }

  /** The loop of a producer of the example, which may have nothing to push. */
  method ExampleProducer(n: nat) returns (pushed: seq<int>)
    ensures pushed == Countdown(n)
  {
    var left := n;
    pushed := [];
    while left != 0
      invariant pushed + Countdown(left) == Countdown(n)
    {
      pushed := pushed + [left];
      left := left - 1;
    }
  }

  /** The loop of a consumer, given the elements that it pops: it adds them up to the first stop, from its bias on. */
  method ConsumerLoop(arriving: seq<int>, stop: int, bias: int) returns (sum: int, k: nat)
    requires stop in arriving
    ensures k < |arriving| && arriving[k] == stop && stop !in arriving[..k]
    ensures sum == bias + Sum(arriving[..k + 1])
  {
    k := 0;
    sum := bias + arriving[0];
    assert arriving[..1] == [arriving[0]];
    while arriving[k] != stop
      invariant k < |arriving| && stop !in arriving[..k] && stop in arriving[k..]
      invariant sum == bias + Sum(arriving[..k + 1])
      decreases |arriving| - k
    {
      assert arriving[k..] == [arriving[k]] + arriving[k + 1..];
      k := k + 1;
      SumAppend(arriving[..k], [arriving[k]]);
      assert arriving[..k + 1] == arriving[..k] + [arriving[k]];
      sum := sum + arriving[k];
    }
  }

  function Copies<T>(x: T, n: nat): seq<T> {
    seq(n, _ => x)
  }

  lemma BagOfCopies(script: seq<int>, n: nat, x: int)
    ensures Bag(BagsOf(Copies(script, n)))[x] == n * multiset(script)[x]
  {
    var bags := BagsOf(Copies(script, n));
    CountsSum(bags, x);
    SumConstant(Counts(bags, x), multiset(script)[x]);
  }

  lemma SumOfCopies(script: seq<int>, n: nat)
    ensures Sum(SumsOf(Copies(script, n))) == n * Sum(script)
  {
    SumConstant(SumsOf(Copies(script, n)), Sum(script));
  }

  // ----- The throughput benchmark -----

  /** n_threads producers push n .. 1, and as many consumers pop until they get a 1. The sums begin at 1. */
  function Benchmark(nThreads: nat, n: nat): Program {
    Program(Copies(Countdown(n), nThreads), false, 1, nThreads, 1)
  }

  /** What the benchmark is: the elements and their order, who stops, and at what. */
  lemma BenchmarkScripts(nThreads: nat, n: nat)
    ensures var p := Benchmark(nThreads, n);
            && |p.scripts| == p.consumers == nThreads && !p.gated && p.stop == 1 && p.bias == 1
            && (forall i | 0 <= i < nThreads :: |p.scripts[i]| == n)
            && forall i: nat, k: nat | i < nThreads && k < n :: p.scripts[i][k] == n - k
  {
    hide Countdown;
    var p := Benchmark(nThreads, n);
    CountdownMembers(n);
    forall i: nat, k: nat | i < nThreads && k < n
      ensures p.scripts[i][k] == n - k
    {
      assert p.scripts[i] == Countdown(n);
      CountdownAt(n, k);
    }
  }

  lemma BenchmarkCount(nThreads: nat, n: nat, x: int)
    ensures Bag(BagsOf(Benchmark(nThreads, n).scripts))[x] == if 1 <= x <= n then nThreads else 0
  {
    CountdownCount(n, x);
    hide Countdown, Bag;
    BagOfCopies(Countdown(n), nThreads, x);
    OnceOrNever(nThreads, multiset(Countdown(n))[x]);
  }

  lemma BenchmarkWellFormed(nThreads: nat, n: nat)
    requires n > 0
    ensures WellFormed(Benchmark(nThreads, n), 0)
  {
    CountdownMembers(n);
    BagOfCopies(Countdown(n), nThreads, 1);
    hide Countdown, Bag;
    var p := Benchmark(nThreads, n);
    assert ScriptBags(p) == BagsOf(p.scripts);
    forall i | 0 <= i < |p.scripts|
      ensures 0 !in p.scripts[i] && EndsWithStop(p, p.scripts[i])
    {
    }
  }

  /** The checksum of the benchmark: threads that have set their sum are consumers, and their sums are one too high. */
  function Unbiased(sum: int): int {
    if sum == 0 then 0 else sum - 1
  }

  ghost function AllUnbiased(sums: seq<int>): seq<int> {
    seq(|sums|, i requires 0 <= i < |sums| => Unbiased(sums[i]))
  }

  method Checksum(threadSums: seq<int>) returns (total: int)
    ensures total == Sum(AllUnbiased(threadSums))
  {
    total := 0;
    ghost var terms := AllUnbiased(threadSums);
    var i := 0;
    assert terms[..0] == [];
    while i < |threadSums|
      invariant 0 <= i <= |threadSums| && total == Sum(terms[..i])
    {
      SumAppend(terms[..i], [terms[i]]);
      assert terms[..i + 1] == terms[..i] + [terms[i]];
      var consumerSum := threadSums[i];
      if consumerSum != 0 {
        consumerSum := consumerSum - 1;
        total := total + consumerSum;
      }
      i := i + 1;
    }
    assert terms[..i] == terms;
  }

  /** What the threads of the benchmark leave in their states: nothing for producers, the sums for consumers. */
  function ThreadSums(s: Client, nThreads: nat): seq<int> {
    Copies(0, nThreads) + s.sums
  }

  lemma ReceivedArePositive(p: Program, c: Config, s: Client, j: nat)
    requires ClientShape(p, c, s) && j < p.consumers && Bag(BagsOf(s.got)) == Bag(BagsOf(p.scripts))
    requires forall i, x | 0 <= i < |p.scripts| && x in p.scripts[i] :: x > 0
    ensures Sum(s.got[j]) >= 0
  {
    forall k | 0 <= k < |s.got[j]|
      ensures s.got[j][k] >= 0
    {
      var x := s.got[j][k];
      CountAtLeast(BagsOf(s.got), j, x);
      assert multiset(s.got[j])[x] > 0;
      SomeMember(BagsOf(p.scripts), x);
      var i :| 0 <= i < |p.scripts| && x in BagsOf(p.scripts)[i];
      assert x in p.scripts[i];
    }
    SumNonNegative(s.got[j]);
  }

  lemma {:induction false} SomeMember(bags: seq<multiset<int>>, x: int)
    requires x in Bag(bags)
    ensures exists i :: 0 <= i < |bags| && x in bags[i]
  {
    if x in bags[0] {
    } else {
      SomeMember(bags[1..], x);
      var i :| 0 <= i < |bags[1..]| && x in bags[1..][i];
      assert x in bags[i + 1];
    }
  }

  lemma BenchmarkSumsAreSet(nThreads: nat, n: nat, c: Config, s: Client, j: nat)
    requires n > 0 && ClientInv(Benchmark(nThreads, n), c, s) && j < nThreads
    requires Bag(BagsOf(s.got)) == Bag(BagsOf(Benchmark(nThreads, n).scripts))
    ensures s.sums[j] > 0
  {
    hide WellFormed, Inv, GateOk, NoneLast, Conserved, PushersOk;
    var p := Benchmark(nThreads, n);
    CountdownMembers(n);
    assert ConsumerOk(p, Consumer(p, s, j), s.sums[j], s.stopped[j], s.got[j]);
    ReceivedArePositive(p, c, s, j);
  }

  /**
   * The benchmark, in every run, even if producers overtake each other by
   * whole laps: it is never stuck, at most 6 n + 3 steps per thread pair are not
   * spinning, and when all consumers have stopped the queue is empty and the
   * checksum is exactly the one that the benchmark expects.
   */
  lemma BenchmarkIsCorrect(nThreads: nat, n: nat, c: Config, tr: seq<Client>)
    requires n > 0 && c.nil == 0 && ClientRun(Benchmark(nThreads, n), c, tr)
    ensures var p, s := Benchmark(nThreads, n), tr[|tr| - 1];
            && ((AllStopped(p, s) && AllFinished(p, s)) || exists s' :: Progress(p, c, s, s'))
            && Effective(tr) <= nThreads * (6 * n + 3)
            && (AllStopped(p, s) ==>
                  && s.q.pushes == s.q.pops && (forall r | 0 <= r < |s.q.cells| :: s.q.cells[r] == c.nil)
                  && (forall x :: Bag(BagsOf(s.got))[x] == if 1 <= x <= n then nThreads else 0)
                  && Sum(AllUnbiased(ThreadSums(s, nThreads))) == nThreads * (n * (n + 1) / 2))
  {
    var p, s := Benchmark(nThreads, n), tr[|tr| - 1];
    forall x
      ensures Bag(BagsOf(p.scripts))[x] == if 1 <= x <= n then nThreads else 0
    {
      BenchmarkCount(nThreads, n, x);
    }
    hide Bag;
    BenchmarkWellFormed(nThreads, n);
    hide WellFormed;
    NeverStuck(p, c, tr, |tr| - 1);
    BoundedProgress(p, c, tr);
    BenchmarkPotential(nThreads, n, c, tr[0]);
    if AllStopped(p, s) {
      ExactlyOnce(p, c, tr, |tr| - 1);
      BenchmarkChecksum(nThreads, n, c, s);
    }
  }

  lemma BenchmarkPotential(nThreads: nat, n: nat, c: Config, s: Client)
    requires ClientInit(Benchmark(nThreads, n), c, s)
    ensures Potential(Benchmark(nThreads, n), c, s) == nThreads * (6 * n + 3)
  {
    var p := Benchmark(nThreads, n);
    CountdownMembers(n);
    SumConstant(PusherRanks(p, s), 6 * n);
    SumConstant(CellRanks(s.q.cells, c.nil), 0);
    SumConstant(ConsumerRanks(p, s), 3);
    assert nThreads * (6 * n + 3) == nThreads * (6 * n) + nThreads * 3;
  }

  lemma BenchmarkChecksum(nThreads: nat, n: nat, c: Config, s: Client)
    requires n > 0 && ClientInv(Benchmark(nThreads, n), c, s)
    requires Bag(BagsOf(s.got)) == Bag(BagsOf(Benchmark(nThreads, n).scripts))
    requires Sum(Totals(Benchmark(nThreads, n), s)) == Sum(SumsOf(Benchmark(nThreads, n).scripts))
    ensures Sum(AllUnbiased(ThreadSums(s, nThreads))) == nThreads * (n * (n + 1) / 2)
  {
    hide WellFormed, Inv, GateOk, NoneLast, Conserved, PushersOk, ConsumersOk;
    SumOfCopies(Countdown(n), nThreads);
    CountdownSum(n);
    forall j | 0 <= j < nThreads
      ensures s.sums[j] > 0
    {
      BenchmarkSumsAreSet(nThreads, n, c, s, j);
    }
    hide Countdown;
    UnbiasedTotals(nThreads, Benchmark(nThreads, n), s);
  }

  lemma UnbiasedTotals(nThreads: nat, p: Program, s: Client)
    requires p.bias == 1 && forall j | 0 <= j < |s.sums| :: s.sums[j] > 0
    ensures Sum(AllUnbiased(ThreadSums(s, nThreads))) == Sum(Totals(p, s))
  {
    assert AllUnbiased(ThreadSums(s, nThreads)) == Copies(0, nThreads) + Totals(p, s);
    SumAppend(Copies(0, nThreads), Totals(p, s));
    SumConstant(Copies(0, nThreads), 0);
  }

  // ----- The example -----

  /**
   * Producers push n .. 1; the main thread joins them and then pushes a 0 for
   * each of the consumers, which add up until they get it.
   */
  function Example(producers: nat, n: nat, consumers: nat): Program {
    Program(Copies(Countdown(n), producers) + [Copies(0, consumers)], true, 0, consumers, 0)
  }

  /** What the example is. */
  lemma ExampleScripts(producers: nat, n: nat, consumers: nat)
    ensures var p := Example(producers, n, consumers);
            && |p.scripts| == producers + 1 && p.consumers == consumers && p.gated && p.stop == 0 && p.bias == 0
            && p.scripts[producers] == Copies(0, consumers)
            && (forall i | 0 <= i < producers :: |p.scripts[i]| == n)
            && forall i: nat, k: nat | i < producers && k < n :: p.scripts[i][k] == n - k
  {
    hide Countdown;
    var p := Example(producers, n, consumers);
    CountdownMembers(n);
    forall i: nat, k: nat | i < producers && k < n
      ensures p.scripts[i][k] == n - k
    {
      assert p.scripts[i] == Countdown(n);
      CountdownAt(n, k);
    }
  }

  lemma ExampleCount(producers: nat, n: nat, consumers: nat, x: int)
    ensures Bag(BagsOf(Example(producers, n, consumers).scripts))[x]
         == if 1 <= x <= n then producers else if x == 0 then consumers else 0
  {
    CountdownCount(n, x);
    hide Countdown, Bag;
    CountAppended(Countdown(n), producers, consumers, x);
  }

  lemma CountAppended(script: seq<int>, producers: nat, consumers: nat, x: int)
    requires multiset(script)[x] <= 1
    ensures Bag(BagsOf(Copies(script, producers) + [Copies(0, consumers)]))[x]
         == (if multiset(script)[x] == 1 then producers else 0) + (if x == 0 then consumers else 0)
  {
    var data, stops := BagsOf(Copies(script, producers)), multiset(Copies(0, consumers));
    BagOfCopies(script, producers, x);
    ZerosOnly(consumers, x);
    AppendedBag(Copies(script, producers), Copies(0, consumers));
    hide Copies, BagsOf, Bag;
    OnceOrNever(producers, multiset(script)[x]);
  }

  lemma AppendedBag(scripts: seq<seq<int>>, last: seq<int>)
    ensures Bag(BagsOf(scripts + [last])) == Bag(BagsOf(scripts)) + multiset(last)
  {
    assert BagsOf(scripts + [last]) == BagsOf(scripts) + [multiset(last)];
    BagAppend(BagsOf(scripts), [multiset(last)]);
    assert Bag([multiset(last)]) == multiset(last);
  }

  lemma OnceOrNever(n: nat, count: nat)
    requires count <= 1
    ensures n * count == if count == 1 then n else 0
  {
  }

  lemma {:induction false} ZerosOnly(n: nat, x: int)
    ensures multiset(Copies(0, n))[x] == if x == 0 then n else 0
  {
    if n > 0 {
      ZerosOnly(n - 1, x);
      assert Copies(0, n) == [0] + Copies(0, n - 1);
    }
  }

  lemma {:induction false} ZerosCount(n: nat)
    ensures multiset(Copies(0, n))[0] == n && Sum(Copies(0, n)) == 0
  {
    if n > 0 {
      ZerosCount(n - 1);
      assert Copies(0, n) == [0] + Copies(0, n - 1);
    }
  }

  lemma ExampleStops(producers: nat, n: nat, consumers: nat)
    ensures Bag(BagsOf(Example(producers, n, consumers).scripts))[0] == consumers
  {
    CountdownMembers(n);
    hide Countdown;
    StopsAppended(Countdown(n), producers, consumers);
  }

  lemma StopsAppended(script: seq<int>, producers: nat, consumers: nat)
    requires 0 !in script
    ensures Bag(BagsOf(Copies(script, producers) + [Copies(0, consumers)]))[0] == consumers
  {
    CountAppended(script, producers, consumers, 0);
  }

  lemma ExampleTotal(producers: nat, n: nat, consumers: nat)
    ensures Sum(SumsOf(Example(producers, n, consumers).scripts)) == producers * (n * (n + 1) / 2)
  {
    var data, stops := Copies(Countdown(n), producers), Copies(0, consumers);
    CountdownSum(n);
    ZerosCount(consumers);
    SumOfCopies(Countdown(n), producers);
    assert SumsOf(data + [stops]) == SumsOf(data) + [0];
    SumAppend(SumsOf(data), [0]);
  }

  lemma ExampleWellFormed(producers: nat, n: nat, consumers: nat, nil: int)
    requires consumers > 0 && !(0 <= nil <= n)
    ensures WellFormed(Example(producers, n, consumers), nil)
  {
    var p := Example(producers, n, consumers);
    CountdownMembers(n);
    ExampleStops(producers, n, consumers);
    hide Countdown, Bag;
    assert ScriptBags(p) == BagsOf(p.scripts);
    forall i | 0 <= i < |p.scripts|
      ensures nil !in p.scripts[i]
    {
    }
  }

  lemma UnbiasedSums(p: Program, s: Client)
    requires p.bias == 0
    ensures Totals(p, s) == s.sums
  {
  }

  /**
   * The example, in every run: it is never stuck, and once all consumers have
   * stopped the queue is empty, as many pops as pushes were claimed, every
   * element was popped exactly once, and the total is the expected one.
   */
  lemma ExampleIsCorrect(producers: nat, n: nat, consumers: nat, c: Config, tr: seq<Client>)
    requires consumers > 0 && !(0 <= c.nil <= n) && ClientRun(Example(producers, n, consumers), c, tr)
    ensures var p, s := Example(producers, n, consumers), tr[|tr| - 1];
            && ((AllStopped(p, s) && AllFinished(p, s)) || exists s' :: Progress(p, c, s, s'))
            && (AllStopped(p, s) ==>
                  && s.q.pushes == s.q.pops && (forall r | 0 <= r < |s.q.cells| :: s.q.cells[r] == c.nil)
                  && (forall x :: Bag(BagsOf(s.got))[x]
                        == if 1 <= x <= n then producers else if x == 0 then consumers else 0)
                  && Sum(s.sums) == producers * (n * (n + 1) / 2))
  {
    var p, s := Example(producers, n, consumers), tr[|tr| - 1];
    forall x
      ensures Bag(BagsOf(p.scripts))[x] == if 1 <= x <= n then producers else if x == 0 then consumers else 0
    {
      ExampleCount(producers, n, consumers, x);
    }
    hide Bag;
    ExampleWellFormed(producers, n, consumers, c.nil);
    ExampleTotal(producers, n, consumers);
    UnbiasedSums(p, s);
    hide WellFormed, Example;
    NeverStuck(p, c, tr, |tr| - 1);
    if AllStopped(p, s) {
      ClientRunInv(p, c, tr, |tr| - 1);
      ExactlyOnce(p, c, tr, |tr| - 1);
    }
  }
}
