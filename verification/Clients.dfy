/**
 * Client programs over the optimistic push and pop. Some threads push the
 * elements of their scripts, others pop until they get a stop element.
 */
module Clients {
  import opened Sums
  import opened SlotMap
  import opened Protocol

  /**
   * The scripts are pushed by one thread each. If `gated`, the last script is
   * the one of the main thread, which begins it only after it has joined all
   * the other ones. Every consumer starts its sum at `bias`.
   */
  datatype Program = Program(scripts: seq<seq<int>>, gated: bool, stop: int, consumers: nat, bias: int)

  ghost predicate EndsWithStop(p: Program, script: seq<int>) {
    script != [] && script[|script| - 1] == p.stop
  }

  ghost function ScriptBags(p: Program): seq<multiset<int>> {
    seq(|p.scripts|, i requires 0 <= i < |p.scripts| => multiset(p.scripts[i]))
  }

  /**
   * There is one stop element for every consumer. No thread pushes anything
   * after all the stop elements: each script ends with one, or the last one
   * does and begins after all the other ones.
   */
  ghost predicate WellFormed(p: Program, nil: int) {
    && (forall i | 0 <= i < |p.scripts| :: nil !in p.scripts[i])
    && (p.gated ==> p.scripts != [] && EndsWithStop(p, p.scripts[|p.scripts| - 1]))
    && (!p.gated ==> forall i | 0 <= i < |p.scripts| :: EndsWithStop(p, p.scripts[i]))
    && Bag(ScriptBags(p))[p.stop] == p.consumers
  }

  /**
   * The queue, what is left of each script, and each consumer's sum and
   * whether it has stopped. `got` is history: the elements a consumer has popped.
   * The threads of the queue are the pushers first, then the consumers.
   */
  datatype Client = Client(q: State, todo: seq<seq<int>>, sums: seq<int>, stopped: seq<bool>, got: seq<seq<int>>)

  ghost predicate ClientShape(p: Program, c: Config, s: Client) {
    && Shape(c, s.q) && |s.todo| == |p.scripts|
    && |s.sums| == |s.stopped| == |s.got| == p.consumers
    && |s.q.threads| == |p.scripts| + p.consumers
  }

  ghost predicate ClientInit(p: Program, c: Config, s: Client) {
    && ClientShape(p, c, s) && Init(c, s.q) && s.todo == p.scripts
    && forall j | 0 <= j < p.consumers :: s.sums[j] == p.bias && !s.stopped[j] && s.got[j] == []
  }

  function Pusher(s: Client, i: nat): Pc
    requires i < |s.q.threads|
  {
    s.q.threads[i]
  }

  function Consumer(p: Program, s: Client, j: nat): Pc
    requires |p.scripts| + j < |s.q.threads|
  {
    s.q.threads[|p.scripts| + j]
  }

  // ----- Steps -----

  ghost predicate Finished(s: Client, i: nat)
    requires i < |s.todo| && i < |s.q.threads|
  {
    s.todo[i] == [] && Resting(Pusher(s, i))
  }

  ghost predicate GateOpen(p: Program, s: Client, i: nat)
    requires |s.todo| == |p.scripts| <= |s.q.threads|
  {
    p.gated && i == |p.scripts| - 1 ==> forall k | 0 <= k < |p.scripts| - 1 :: Finished(s, k)
  }

  /** A pusher calls push with the next element of its script. */
  ghost predicate PusherBegins(p: Program, c: Config, s: Client, s': Client, i: nat) {
    && ClientShape(p, c, s) && i < |p.scripts| && Resting(Pusher(s, i)) && s.todo[i] != [] && GateOpen(p, s, i)
    && s' == s.(q := Begin(s.q, i, Push(s.todo[i][0])), todo := s.todo[i := s.todo[i][1..]])
  }

  /** A consumer calls pop for the first time. */
  ghost predicate ConsumerBegins(p: Program, c: Config, s: Client, s': Client, j: nat) {
    && ClientShape(p, c, s) && j < p.consumers && Consumer(p, s, j).Idle?
    && s' == s.(q := Begin(s.q, |p.scripts| + j, Pop))
  }

  /** A consumer adds the popped element to its sum, and stops or calls pop again. */
  ghost predicate ConsumerAdds(p: Program, c: Config, s: Client, s': Client, j: nat) {
    && ClientShape(p, c, s) && j < p.consumers && !s.stopped[j]
    && Consumer(p, s, j).Done? && Consumer(p, s, j).result.Popped?
    && var v := Consumer(p, s, j).result.v;
       s' == s.(sums := s.sums[j := s.sums[j] + v], stopped := s.stopped[j := v == p.stop],
                got := s.got[j := s.got[j] + [v]],
                q := if v == p.stop then s.q else Begin(s.q, |p.scripts| + j, Pop))
  }

  /** A thread performs the next atomic access of the operation it is in. */
  ghost predicate QueueStep(p: Program, c: Config, s: Client, s': Client, i: nat, weak: bool) {
    ClientShape(p, c, s) && CanAccess(c, s.q, i, 0) && s' == s.(q := Access(c, s.q, i, 0, weak))
  }

  ghost predicate ClientNext(p: Program, c: Config, s: Client, s': Client) {
    || (exists i :: PusherBegins(p, c, s, s', i))
    || (exists j :: ConsumerBegins(p, c, s, s', j))
    || (exists j :: ConsumerAdds(p, c, s, s', j))
    || (exists i, weak :: QueueStep(p, c, s, s', i, weak))
  }

  ghost predicate ClientRun(p: Program, c: Config, tr: seq<Client>) {
    && |tr| > 0 && ClientInit(p, c, tr[0])
    && forall k | 0 <= k < |tr| - 1 :: ClientNext(p, c, tr[k], tr[k + 1])
  }

  // ----- Where the elements are -----

  function InFlight(pc: Pc): seq<int> {
    match pc
    case PushClaim(e) => [e]
    case Put(e, _, _) => [e]
    case _ => []
  }

  /** What a pusher has not stored yet. */
  function Rest(pc: Pc, todo: seq<int>): seq<int> {
    InFlight(pc) + todo
  }

  /** What a consumer has popped, whether or not it has added it. */
  function Received(pc: Pc, stopped: bool, got: seq<int>): seq<int> {
    if pc.Done? && pc.result.Popped? && !stopped then got + [pc.result.v] else got
  }

  ghost function RestBags(p: Program, s: Client): seq<multiset<int>>
    requires |s.todo| == |p.scripts| <= |s.q.threads|
  {
    seq(|p.scripts|, i requires 0 <= i < |p.scripts| => multiset(Rest(Pusher(s, i), s.todo[i])))
  }

  ghost function CellBags(cells: seq<int>, nil: int): seq<multiset<int>> {
    seq(|cells|, r requires 0 <= r < |cells| => if cells[r] == nil then multiset{} else multiset{cells[r]})
  }

  ghost function ReceivedBags(p: Program, s: Client): seq<multiset<int>>
    requires |s.stopped| == |s.got| == p.consumers && |s.q.threads| == |p.scripts| + p.consumers
  {
    seq(p.consumers, j requires 0 <= j < p.consumers => multiset(Received(Consumer(p, s, j), s.stopped[j], s.got[j])))
  }

  /** Every element of the scripts is in exactly one place. */
  ghost predicate Conserved(p: Program, c: Config, s: Client)
    requires ClientShape(p, c, s)
  {
    Bag(RestBags(p, s)) + Bag(CellBags(s.q.cells, c.nil)) + Bag(ReceivedBags(p, s)) == Bag(ScriptBags(p))
  }

  // ----- The invariant -----

  ghost predicate PusherOk(p: Program, pc: Pc, todo: seq<int>, script: seq<int>) {
    && (pc.Idle? || pc.PushClaim? || pc.Put? || pc == Done(Pushed))
    && |Rest(pc, todo)| <= |script| && Rest(pc, todo) == script[|script| - |Rest(pc, todo)|..]
  }

  ghost predicate ConsumerOk(p: Program, pc: Pc, sum: int, stopped: bool, got: seq<int>) {
    && (pc.Idle? || pc.PopClaim? || pc.Take? || (pc.Done? && pc.result.Popped?))
    && (stopped ==> pc.Done?)
    && sum == p.bias + Sum(got)
    && multiset(got)[p.stop] == if stopped then 1 else 0
  }

  /** The main thread has not begun before it has joined all the other pushers. */
  ghost predicate GateOk(p: Program, s: Client)
    requires |s.todo| == |p.scripts| <= |s.q.threads|
  {
    p.gated && p.scripts != [] ==>
      var m := |p.scripts| - 1;
      s.todo[m] == p.scripts[m] || forall k | 0 <= k < m :: Finished(s, k)
  }

  /** A pusher has yet to claim a ticket. */
  ghost predicate MoreToClaim(p: Program, s: Client)
    requires |s.todo| == |p.scripts| <= |s.q.threads|
  {
    exists i | 0 <= i < |p.scripts| :: s.todo[i] != [] || Pusher(s, i).PushClaim?
  }

  /**
   * An element other than stop in a slot is not the last one that will be
   * pushed: a ticket has been or will be issued after its store.
   */
  ghost predicate NotLast(p: Program, c: Config, s: Client, r: nat)
    requires ClientShape(p, c, s) && r < c.size
  {
    s.q.cells[r] != c.nil && s.q.cells[r] != p.stop && |s.q.taken[r]| < |s.q.stored[r]| ==>
      s.q.stored[r][|s.q.taken[r]|].issued < s.q.pushes || MoreToClaim(p, s)
  }

  ghost predicate PushersOk(p: Program, s: Client)
    requires |s.todo| == |p.scripts| <= |s.q.threads|
  {
    forall i | 0 <= i < |p.scripts| :: PusherOk(p, Pusher(s, i), s.todo[i], p.scripts[i])
  }

  ghost predicate ConsumersOk(p: Program, c: Config, s: Client)
    requires ClientShape(p, c, s)
  {
    forall j | 0 <= j < p.consumers :: ConsumerOk(p, Consumer(p, s, j), s.sums[j], s.stopped[j], s.got[j])
  }

  ghost predicate NoneLast(p: Program, c: Config, s: Client)
    requires ClientShape(p, c, s)
  {
    forall r | 0 <= r < c.size :: NotLast(p, c, s, r)
  }

  ghost predicate ClientInv(p: Program, c: Config, s: Client) {
    && WellFormed(p, c.nil) && ClientShape(p, c, s) && Inv(c, s.q)
    && PushersOk(p, s) && ConsumersOk(p, c, s) && GateOk(p, s) && NoneLast(p, c, s) && Conserved(p, c, s)
  }

  lemma InvShape(p: Program, c: Config, s: Client)
    requires ClientInv(p, c, s)
    ensures ClientShape(p, c, s) && WellFormed(p, c.nil)
  {
  }

  // ----- Initial states -----

  lemma {:induction false} EmptyBags(s: seq<multiset<int>>)
    requires forall i | 0 <= i < |s| :: s[i] == multiset{}
    ensures Bag(s) == multiset{}
  {
    if s != [] {
      EmptyBags(s[1..]);
    }
  }

  lemma InitConserved(p: Program, c: Config, s: Client)
    requires ClientInit(p, c, s)
    ensures Conserved(p, c, s)
  {
    hide Bag, Issued, SlotOf;
    EmptyBags(CellBags(s.q.cells, c.nil));
    EmptyBags(ReceivedBags(p, s));
    InitRest(p, c, s);
  }

  lemma InitRest(p: Program, c: Config, s: Client)
    requires ClientInit(p, c, s)
    ensures RestBags(p, s) == ScriptBags(p)
  {
    hide Bag, Issued, SlotOf, Shape;
    forall i | 0 <= i < |p.scripts|
      ensures Rest(Pusher(s, i), s.todo[i]) == p.scripts[i]
    {
    }
  }

  lemma InitClientsOk(p: Program, c: Config, s: Client)
    requires WellFormed(p, c.nil) && ClientInit(p, c, s)
    ensures ClientShape(p, c, s) && PushersOk(p, s) && ConsumersOk(p, c, s)
  {
    hide Issued, SlotOf;
    forall i | 0 <= i < |p.scripts|
      ensures PusherOk(p, Pusher(s, i), s.todo[i], p.scripts[i])
    {
      assert Rest(Pusher(s, i), s.todo[i]) == p.scripts[i];
    }
  }

  lemma ClientInitInv(p: Program, c: Config, s: Client)
    requires WellFormed(p, c.nil) && ClientInit(p, c, s)
    ensures ClientInv(p, c, s)
  {
    hide Conserved, Inv, PushersOk, ConsumersOk, WellFormed;
    InitInv(c, s.q);
    InitClientsOk(p, c, s);
    InitConserved(p, c, s);
    assert NoneLast(p, c, s);
  }

  // ----- Bags under steps -----

  lemma RestBagsUpdate(p: Program, s: Client, s': Client, i: nat)
    requires |s.todo| == |s'.todo| == |p.scripts| <= |s.q.threads| == |s'.q.threads| && i < |p.scripts|
    requires forall k | 0 <= k < |p.scripts| && k != i :: Pusher(s', k) == Pusher(s, k) && s'.todo[k] == s.todo[k]
    ensures Bag(RestBags(p, s')) + RestBags(p, s)[i] == Bag(RestBags(p, s)) + RestBags(p, s')[i]
  {
    assert RestBags(p, s') == RestBags(p, s)[i := RestBags(p, s')[i]];
    BagUpdate(RestBags(p, s), i, RestBags(p, s')[i]);
  }

  lemma SameRest(p: Program, s: Client, s': Client)
    requires |s.todo| == |s'.todo| == |p.scripts| <= |s.q.threads| == |s'.q.threads|
    requires forall k | 0 <= k < |p.scripts| :: Rest(Pusher(s', k), s'.todo[k]) == Rest(Pusher(s, k), s.todo[k])
    ensures RestBags(p, s') == RestBags(p, s)
  {
  }

  lemma CellBagsUpdate(cells: seq<int>, nil: int, r: nat, v: int)
    requires r < |cells|
    ensures Bag(CellBags(cells[r := v], nil)) + CellBags(cells, nil)[r]
         == Bag(CellBags(cells, nil)) + CellBags(cells[r := v], nil)[r]
  {
    var x := CellBags(cells[r := v], nil)[r];
    assert CellBags(cells[r := v], nil) == CellBags(cells, nil)[r := x];
    BagUpdate(CellBags(cells, nil), r, x);
  }

  lemma ReceivedBagsUpdate(p: Program, s: Client, s': Client, j: nat)
    requires |s.stopped| == |s.got| == p.consumers && |s.q.threads| == |p.scripts| + p.consumers
    requires |s'.stopped| == |s'.got| == p.consumers && |s'.q.threads| == |p.scripts| + p.consumers && j < p.consumers
    requires forall k | 0 <= k < p.consumers && k != j ::
               Consumer(p, s', k) == Consumer(p, s, k) && s'.stopped[k] == s.stopped[k] && s'.got[k] == s.got[k]
    ensures Bag(ReceivedBags(p, s')) + ReceivedBags(p, s)[j] == Bag(ReceivedBags(p, s)) + ReceivedBags(p, s')[j]
  {
    assert ReceivedBags(p, s') == ReceivedBags(p, s)[j := ReceivedBags(p, s')[j]];
    BagUpdate(ReceivedBags(p, s), j, ReceivedBags(p, s')[j]);
  }

  lemma SameReceived(p: Program, s: Client, s': Client)
    requires |s.stopped| == |s.got| == p.consumers && |s.q.threads| == |p.scripts| + p.consumers
    requires |s'.stopped| == |s'.got| == p.consumers && |s'.q.threads| == |p.scripts| + p.consumers
    requires forall k | 0 <= k < p.consumers ::
               var now := Received(Consumer(p, s', k), s'.stopped[k], s'.got[k]);
               now == Received(Consumer(p, s, k), s.stopped[k], s.got[k])
    ensures ReceivedBags(p, s') == ReceivedBags(p, s)
  {
  }

  // ----- Steps keep the invariant -----

  lemma SameBagsConserve(p: Program, c: Config, s: Client, s': Client)
    requires ClientShape(p, c, s) && ClientShape(p, c, s') && Conserved(p, c, s) && s'.q.cells == s.q.cells
    requires forall k | 0 <= k < |p.scripts| :: Rest(Pusher(s', k), s'.todo[k]) == Rest(Pusher(s, k), s.todo[k])
    requires forall k | 0 <= k < p.consumers ::
               var now := Received(Consumer(p, s', k), s'.stopped[k], s'.got[k]);
               now == Received(Consumer(p, s, k), s.stopped[k], s.got[k])
    ensures Conserved(p, c, s')
  {
    hide Rest, Received;
    SameRest(p, s, s');
    SameReceived(p, s, s');
  }

  /** What it takes for a step that leaves the slots alone to keep the invariant on them. */
  lemma SameSlotsNoneLast(p: Program, c: Config, s: Client, s': Client)
    requires ClientShape(p, c, s) && ClientShape(p, c, s') && Inv(c, s.q) && NoneLast(p, c, s)
    requires s'.q.cells == s.q.cells && s'.q.stored == s.q.stored && s'.q.taken == s.q.taken
    requires s.q.pushes <= s'.q.pushes
    requires MoreToClaim(p, s) ==> MoreToClaim(p, s') || s.q.pushes < s'.q.pushes
    ensures NoneLast(p, c, s')
  {
    hide MoreToClaim, LogsOk, TicketsOk;
    forall r | 0 <= r < c.size
      ensures NotLast(p, c, s', r)
    {
      assert NotLast(p, c, s, r);
      assert SlotOk(c, s.q, r);
    }
  }

  /** Only pusher i, and what it has to do, differs. */
  ghost predicate OnlyPusher(p: Program, s: Client, s': Client, i: nat) {
    && |s.q.threads| == |s'.q.threads| == |p.scripts| + p.consumers
    && |s.todo| == |s'.todo| == |p.scripts| && i < |p.scripts|
    && s'.sums == s.sums && s'.stopped == s.stopped && s'.got == s.got
    && (forall k | 0 <= k < |s.q.threads| && k != i :: s'.q.threads[k] == s.q.threads[k])
    && (forall k | 0 <= k < |p.scripts| && k != i :: s'.todo[k] == s.todo[k])
  }

  /** Only consumer j differs. */
  ghost predicate OnlyConsumer(p: Program, s: Client, s': Client, j: nat) {
    && |s.q.threads| == |s'.q.threads| == |p.scripts| + p.consumers && s'.todo == s.todo && j < p.consumers
    && |s.sums| == |s.stopped| == |s.got| == |s'.sums| == |s'.stopped| == |s'.got| == p.consumers
    && (forall k | 0 <= k < |s.q.threads| && k != |p.scripts| + j :: s'.q.threads[k] == s.q.threads[k])
    && (forall k | 0 <= k < p.consumers && k != j ::
          s'.sums[k] == s.sums[k] && s'.stopped[k] == s.stopped[k] && s'.got[k] == s.got[k])
  }

  lemma PusherFrame(p: Program, c: Config, s: Client, s': Client, i: nat)
    requires ClientShape(p, c, s) && ClientShape(p, c, s') && OnlyPusher(p, s, s', i)
    requires PushersOk(p, s) && ConsumersOk(p, c, s) && GateOk(p, s)
    requires PusherOk(p, Pusher(s', i), s'.todo[i], p.scripts[i])
    requires !Finished(s, i)
    requires p.gated && i == |p.scripts| - 1 ==> forall k | 0 <= k < i :: Finished(s, k)
    ensures PushersOk(p, s') && ConsumersOk(p, c, s') && GateOk(p, s')
  {
    hide PusherOk, ConsumerOk;
    forall k | 0 <= k < |p.scripts|
      ensures PusherOk(p, Pusher(s', k), s'.todo[k], p.scripts[k])
    {
      assert k != i ==> PusherOk(p, Pusher(s, k), s.todo[k], p.scripts[k]);
    }
    forall j | 0 <= j < p.consumers
      ensures ConsumerOk(p, Consumer(p, s', j), s'.sums[j], s'.stopped[j], s'.got[j])
    {
      assert ConsumerOk(p, Consumer(p, s, j), s.sums[j], s.stopped[j], s.got[j]);
    }
    var m := |p.scripts| - 1;
    if p.gated && i < m {
      assert s.todo[m] == p.scripts[m];
    } else if p.gated {
      forall k | 0 <= k < m
        ensures Finished(s', k)
      {
        assert Finished(s, k);
      }
    }
  }

  lemma ConsumerFrame(p: Program, c: Config, s: Client, s': Client, j: nat)
    requires ClientShape(p, c, s) && ClientShape(p, c, s') && OnlyConsumer(p, s, s', j)
    requires PushersOk(p, s) && ConsumersOk(p, c, s) && GateOk(p, s)
    requires ConsumerOk(p, Consumer(p, s', j), s'.sums[j], s'.stopped[j], s'.got[j])
    ensures PushersOk(p, s') && ConsumersOk(p, c, s') && GateOk(p, s')
    ensures MoreToClaim(p, s') <==> MoreToClaim(p, s)
  {
    hide PusherOk, ConsumerOk;
    assert forall i | 0 <= i < |p.scripts| :: Pusher(s', i) == Pusher(s, i);
    forall i | 0 <= i < |p.scripts|
      ensures PusherOk(p, Pusher(s', i), s'.todo[i], p.scripts[i])
    {
      assert PusherOk(p, Pusher(s, i), s.todo[i], p.scripts[i]);
    }
    forall k | 0 <= k < p.consumers
      ensures ConsumerOk(p, Consumer(p, s', k), s'.sums[k], s'.stopped[k], s'.got[k])
    {
      assert k != j ==> ConsumerOk(p, Consumer(p, s, k), s.sums[k], s.stopped[k], s.got[k]);
    }
    assert forall k | 0 <= k < |p.scripts| :: Finished(s', k) <==> Finished(s, k);
  }

  /** A pusher that has an element in flight has begun, so the main thread has joined the others. */
  lemma BegunIsJoined(p: Program, c: Config, s: Client, i: nat)
    requires ClientShape(p, c, s) && PushersOk(p, s) && GateOk(p, s)
    requires i < |p.scripts| && InFlight(Pusher(s, i)) != []
    ensures p.gated && i == |p.scripts| - 1 ==> forall k | 0 <= k < i :: Finished(s, k)
  {
    assert PusherOk(p, Pusher(s, i), s.todo[i], p.scripts[i]);
  }

  /** The next element of a script is in flight when it is not to be done any more. */
  lemma NextOfScript(p: Program, pc: Pc, todo: seq<int>, script: seq<int>)
    requires PusherOk(p, pc, todo, script) && Resting(pc) && todo != []
    ensures Rest(PushClaim(todo[0]), todo[1..]) == Rest(pc, todo)
    ensures PusherOk(p, PushClaim(todo[0]), todo[1..], script) && todo[0] in script
  {
    assert Rest(pc, todo) == todo && Rest(PushClaim(todo[0]), todo[1..]) == todo;
  }

  lemma PusherBeginsKeepsInv(p: Program, c: Config, s: Client, s': Client, i: nat)
    requires ClientInv(p, c, s) && PusherBegins(p, c, s, s', i)
    ensures ClientInv(p, c, s')
  {
    hide Conserved, Inv, NoneLast, ConsumersOk, GateOk, PusherOk;
    assert PusherOk(p, Pusher(s, i), s.todo[i], p.scripts[i]);
    hide PushersOk;
    NextOfScript(p, Pusher(s, i), s.todo[i], p.scripts[i]);
    GotoKeepsInv(c, s.q, i, PushClaim(s.todo[i][0]));
    PusherFrame(p, c, s, s', i);
    hide GateOpen, WellFormed;
    SameBagsConserve(p, c, s, s');
    assert Pusher(s', i).PushClaim?;
    SameSlotsNoneLast(p, c, s, s');
  }

  lemma ConsumerBeginsKeepsInv(p: Program, c: Config, s: Client, s': Client, j: nat)
    requires ClientInv(p, c, s) && ConsumerBegins(p, c, s, s', j)
    ensures ClientInv(p, c, s')
  {
    hide Conserved, Inv, NoneLast, PushersOk, GateOk;
    assert ConsumerOk(p, Consumer(p, s, j), s.sums[j], s.stopped[j], s.got[j]);
    hide ConsumersOk;
    GotoKeepsInv(c, s.q, |p.scripts| + j, PopClaim);
    ConsumerFrame(p, c, s, s', j);
    hide ConsumerOk, WellFormed;
    SameBagsConserve(p, c, s, s');
    SameSlotsNoneLast(p, c, s, s');
  }

  lemma ConsumerAddsKeepsInv(p: Program, c: Config, s: Client, s': Client, j: nat)
    requires ClientInv(p, c, s) && ConsumerAdds(p, c, s, s', j)
    ensures ClientInv(p, c, s')
  {
    hide Conserved, Inv, NoneLast, PushersOk, GateOk;
    assert ConsumerOk(p, Consumer(p, s, j), s.sums[j], s.stopped[j], s.got[j]);
    hide ConsumersOk;
    var v := Consumer(p, s, j).result.v;
    if v != p.stop {
      GotoKeepsInv(c, s.q, |p.scripts| + j, PopClaim);
    }
    SumAppend(s.got[j], [v]);
    ConsumerFrame(p, c, s, s', j);
    hide ConsumerOk, WellFormed;
    SameBagsConserve(p, c, s, s');
    SameSlotsNoneLast(p, c, s, s');
  }

  lemma ClaimingPusher(p: Program, c: Config, s: Client, i: nat)
    requires ClientInv(p, c, s) && i < |p.scripts| && Pusher(s, i).PushClaim?
    ensures Pusher(s, i).e != c.nil && PusherOk(p, Pusher(s, i), s.todo[i], p.scripts[i])
  {
    hide Conserved, NoneLast, ConsumersOk, GateOk, SlotOk;
    assert PcOk(c, s.q.threads[i], s.q.pushes, s.q.pops);
  }

  lemma ClaimPushKeepsClientInv(p: Program, c: Config, s: Client, s': Client, i: nat)
    requires ClientInv(p, c, s) && i < |p.scripts| && Pusher(s, i).PushClaim?
    requires s' == s.(q := ClaimPush(s.q, i, Pusher(s, i).e))
    ensures ClientInv(p, c, s')
  {
    hide Conserved, NoneLast, ConsumersOk, Inv, PushersOk;
    ClaimingPusher(p, c, s, i);
    BegunIsJoined(p, c, s, i);
    ClaimPushKeepsInv(c, s.q, i, Pusher(s, i).e);
    PusherFrame(p, c, s, s', i);
    hide GateOk, PusherOk, WellFormed;
    SameBagsConserve(p, c, s, s');
    SameSlotsNoneLast(p, c, s, s');
  }

  lemma ClaimPopKeepsClientInv(p: Program, c: Config, s: Client, s': Client, j: nat)
    requires ClientInv(p, c, s) && j < p.consumers && Consumer(p, s, j).PopClaim?
    requires s' == s.(q := ClaimPop(s.q, |p.scripts| + j))
    ensures ClientInv(p, c, s')
  {
    hide Conserved, Inv, NoneLast, PushersOk, GateOk;
    assert ConsumerOk(p, Consumer(p, s, j), s.sums[j], s.stopped[j], s.got[j]);
    hide ConsumersOk;
    ClaimPopKeepsInv(c, s.q, |p.scripts| + j);
    ConsumerFrame(p, c, s, s', j);
    hide ConsumerOk, WellFormed;
    SameBagsConserve(p, c, s, s');
    SameSlotsNoneLast(p, c, s, s');
  }

  /** An element moves from a pusher into a slot. */
  lemma StoreConserves(p: Program, c: Config, s: Client, s': Client, i: nat, r: nat, e: int)
    requires ClientShape(p, c, s) && ClientShape(p, c, s') && Conserved(p, c, s)
    requires OnlyPusher(p, s, s', i) && s'.todo == s.todo
    requires InFlight(Pusher(s, i)) == [e] && InFlight(Pusher(s', i)) == []
    requires r < c.size && e != c.nil && s.q.cells[r] == c.nil && s'.q.cells == s.q.cells[r := e]
    ensures Conserved(p, c, s')
  {
    hide Bag;
    RestBagsUpdate(p, s, s', i);
    CellBagsUpdate(s.q.cells, c.nil, r, e);
    SameReceived(p, s, s');
    assert RestBags(p, s)[i] == multiset{e} + RestBags(p, s')[i];
    assert CellBags(s'.q.cells, c.nil)[r] == multiset{e} && CellBags(s.q.cells, c.nil)[r] == multiset{};
    Move(Bag(RestBags(p, s)), Bag(RestBags(p, s')), RestBags(p, s')[i],
         Bag(CellBags(s.q.cells, c.nil)), Bag(CellBags(s'.q.cells, c.nil)), e);
  }

  /** Taking e out of one bag and putting it into another. */
  lemma Move(a: multiset<int>, a': multiset<int>, x: multiset<int>, b: multiset<int>, b': multiset<int>, e: int)
    requires a' + (multiset{e} + x) == a + x && b' == b + multiset{e}
    ensures a' + b' == a + b
  {
    forall v
      ensures (a' + multiset{e})[v] == a[v]
    {
      assert (a' + (multiset{e} + x))[v] == (a + x)[v];
    }
    assert a' + multiset{e} == a;
  }

  /** An element moves from a slot to a consumer. */
  lemma RemoveConserves(p: Program, c: Config, s: Client, s': Client, j: nat, r: nat, e: int)
    requires ClientShape(p, c, s) && ClientShape(p, c, s') && Conserved(p, c, s)
    requires OnlyConsumer(p, s, s', j) && s'.got == s.got && s'.stopped == s.stopped && !s.stopped[j]
    requires !Consumer(p, s, j).Done? && Consumer(p, s', j) == Done(Popped(e))
    requires r < c.size && e != c.nil && s.q.cells[r] == e && s'.q.cells == s.q.cells[r := c.nil]
    ensures Conserved(p, c, s')
  {
    hide Bag;
    ReceivedBagsUpdate(p, s, s', j);
    CellBagsUpdate(s.q.cells, c.nil, r, c.nil);
    forall k | 0 <= k < |p.scripts|
      ensures Pusher(s', k) == Pusher(s, k)
    {
    }
    SameRest(p, s, s');
    assert ReceivedBags(p, s')[j] == multiset{e} + ReceivedBags(p, s)[j];
    assert CellBags(s.q.cells, c.nil)[r] == multiset{e} && CellBags(s'.q.cells, c.nil)[r] == multiset{};
    var rest, cells, cells' := Bag(RestBags(p, s)), Bag(CellBags(s.q.cells, c.nil)), Bag(CellBags(s'.q.cells, c.nil));
    var got, got' := Bag(ReceivedBags(p, s)), Bag(ReceivedBags(p, s'));
    Move(got', got, ReceivedBags(p, s)[j], cells', cells, e);
    assert rest + cells + got == rest + (got + cells) && rest + cells' + got' == rest + (got' + cells');
  }

  lemma NotLastOfScript(p: Program, pc: Pc, todo: seq<int>, script: seq<int>)
    requires PusherOk(p, pc, todo, script) && EndsWithStop(p, script)
    requires pc.Put? && pc.e != p.stop
    ensures todo != []
  {
    var rest := Rest(pc, todo);
    assert rest[|rest| - 1] == script[|script| - 1];
    assert rest[0] == pc.e;
  }

  /** After a pusher has stored an element other than stop, some pusher has more to claim. */
  lemma MoreAfterStore(p: Program, c: Config, s: Client, i: nat)
    requires ClientShape(p, c, s) && WellFormed(p, c.nil) && PushersOk(p, s) && GateOk(p, s)
    requires i < |p.scripts| && Pusher(s, i).Put? && Pusher(s, i).e != p.stop
    ensures exists k :: 0 <= k < |p.scripts| && s.todo[k] != []
  {
    hide PusherOk;
    assert PusherOk(p, Pusher(s, i), s.todo[i], p.scripts[i]);
    var m := |p.scripts| - 1;
    if p.gated && i < m {
      assert !Finished(s, i);
      assert s.todo[m] == p.scripts[m];
    } else {
      NotLastOfScript(p, Pusher(s, i), s.todo[i], p.scripts[i]);
    }
  }

  lemma StoreNoneLast(p: Program, c: Config, s: Client, s': Client, i: nat, r: nat)
    requires ClientShape(p, c, s) && ClientShape(p, c, s') && WellFormed(p, c.nil) && Inv(c, s.q)
    requires PushersOk(p, s) && GateOk(p, s) && NoneLast(p, c, s)
    requires i < |p.scripts| && Pusher(s, i).Put? && r == Slot(c, Pusher(s, i).head) && s.q.cells[r] == c.nil
    requires s' == s.(q := Store(c, s.q, i, Pusher(s, i).e, Pusher(s, i).head, Pusher(s, i).ticket))
    ensures NoneLast(p, c, s')
  {
    hide WellFormed, GateOk, PushersOk, TicketsOk;
    if Pusher(s, i).e != p.stop {
      MoreAfterStore(p, c, s, i);
    }
    forall k | 0 <= k < c.size
      ensures NotLast(p, c, s', k)
    {
      assert NotLast(p, c, s, k);
      assert SlotOk(c, s.q, k);
      if MoreToClaim(p, s) {
        var u :| 0 <= u < |p.scripts| && (s.todo[u] != [] || Pusher(s, u).PushClaim?);
        assert s'.todo[u] != [] || Pusher(s', u).PushClaim?;
      }
    }
  }

  lemma StoreKeepsClientInv(p: Program, c: Config, s: Client, s': Client, i: nat)
    requires ClientInv(p, c, s) && i < |p.scripts| && Pusher(s, i).Put?
    requires s.q.cells[Slot(c, Pusher(s, i).head)] == c.nil
    requires s' == s.(q := Store(c, s.q, i, Pusher(s, i).e, Pusher(s, i).head, Pusher(s, i).ticket))
    ensures ClientInv(p, c, s')
  {
    hide Conserved, NoneLast, ConsumersOk, SlotOk;
    var Put(e, head, ticket) := Pusher(s, i);
    assert PusherOk(p, Pusher(s, i), s.todo[i], p.scripts[i]);
    assert PcOk(c, Pusher(s, i), s.q.pushes, s.q.pops);
    hide Inv, PushersOk;
    StoreKeepsInv(c, s.q, i);
    BegunIsJoined(p, c, s, i);
    PusherFrame(p, c, s, s', i);
    hide GateOk, PusherOk, WellFormed;
    StoreConserves(p, c, s, s', i, Slot(c, head), e);
    StoreNoneLast(p, c, s, s', i, Slot(c, head));
  }

  lemma RemoveNoneLast(p: Program, c: Config, s: Client, s': Client, j: nat, r: nat)
    requires ClientShape(p, c, s) && ClientShape(p, c, s') && NoneLast(p, c, s) && j < p.consumers
    requires Consumer(p, s, j).Take? && r == Slot(c, Consumer(p, s, j).tail)
    requires s' == s.(q := Remove(c, s.q, |p.scripts| + j, Consumer(p, s, j).tail, Consumer(p, s, j).ticket))
    ensures NoneLast(p, c, s')
  {
    assert forall i | 0 <= i < |p.scripts| :: Pusher(s', i) == Pusher(s, i);
    forall k | 0 <= k < c.size
      ensures NotLast(p, c, s', k)
    {
      assert NotLast(p, c, s, k);
      assert MoreToClaim(p, s) <==> MoreToClaim(p, s');
    }
  }

  lemma RemoveKeepsClientInv(p: Program, c: Config, s: Client, s': Client, j: nat)
    requires ClientInv(p, c, s) && j < p.consumers && Consumer(p, s, j).Take?
    requires s.q.cells[Slot(c, Consumer(p, s, j).tail)] != c.nil
    requires s' == s.(q := Remove(c, s.q, |p.scripts| + j, Consumer(p, s, j).tail, Consumer(p, s, j).ticket))
    ensures ClientInv(p, c, s')
  {
    hide Conserved, Inv, NoneLast, PushersOk, GateOk;
    var Take(tail, ticket) := Consumer(p, s, j);
    assert ConsumerOk(p, Consumer(p, s, j), s.sums[j], s.stopped[j], s.got[j]);
    hide ConsumersOk;
    RemoveKeepsInv(c, s.q, |p.scripts| + j);
    ConsumerFrame(p, c, s, s', j);
    hide ConsumerOk, WellFormed;
    RemoveConserves(p, c, s, s', j, Slot(c, tail), s.q.cells[Slot(c, tail)]);
    RemoveNoneLast(p, c, s, s', j, Slot(c, tail));
  }

  lemma QueueStepKeepsInv(p: Program, c: Config, s: Client, s': Client, t: nat, weak: bool)
    requires ClientInv(p, c, s) && QueueStep(p, c, s, s', t, weak)
    ensures ClientInv(p, c, s')
  {
    hide Conserved, Inv, NoneLast, GateOk, WellFormed;
    if t < |p.scripts| {
      assert PusherOk(p, Pusher(s, t), s.todo[t], p.scripts[t]);
      hide PushersOk, ConsumersOk;
      if Pusher(s, t).PushClaim? {
        ClaimPushKeepsClientInv(p, c, s, s', t);
      } else if s' != s {
        StoreKeepsClientInv(p, c, s, s', t);
      }
    } else {
      var j := t - |p.scripts|;
      assert ConsumerOk(p, Consumer(p, s, j), s.sums[j], s.stopped[j], s.got[j]);
      hide PushersOk, ConsumersOk;
      if Consumer(p, s, j).PopClaim? {
        ClaimPopKeepsClientInv(p, c, s, s', j);
      } else if s' != s {
        RemoveKeepsClientInv(p, c, s, s', j);
      }
    }
  }

  lemma ClientNextKeepsInv(p: Program, c: Config, s: Client, s': Client)
    requires ClientInv(p, c, s) && ClientNext(p, c, s, s')
    ensures ClientInv(p, c, s')
  {
    hide ClientInv;
    if i: nat :| PusherBegins(p, c, s, s', i) {
      PusherBeginsKeepsInv(p, c, s, s', i);
    } else if j: nat :| ConsumerBegins(p, c, s, s', j) {
      ConsumerBeginsKeepsInv(p, c, s, s', j);
    } else if j: nat :| ConsumerAdds(p, c, s, s', j) {
      ConsumerAddsKeepsInv(p, c, s, s', j);
    } else {
      var i: nat, weak: bool :| QueueStep(p, c, s, s', i, weak);
      QueueStepKeepsInv(p, c, s, s', i, weak);
    }
  }

  lemma {:induction false} ClientRunInv(p: Program, c: Config, tr: seq<Client>, k: nat)
    requires WellFormed(p, c.nil) && ClientRun(p, c, tr) && k < |tr|
    ensures ClientInv(p, c, tr[k])
  {
    hide ClientInv, WellFormed, ClientInit;
    if k == 0 {
      ClientInitInv(p, c, tr[0]);
    } else {
      ClientRunInv(p, c, tr, k - 1);
      assert ClientNext(p, c, tr[k - 1], tr[k - 1 + 1]);
      ClientNextKeepsInv(p, c, tr[k - 1], tr[k]);
    }
  }
}
