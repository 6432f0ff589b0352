/**
 * The order of delivery. Tickets number the pushes and the pops, but a slot
 * serves whichever of the threads that hold tickets for it comes first.
 */
module Delivery {
  import opened Words
  import opened SlotMap
  import opened Protocol

  // ----- One side of the queue -----

  datatype Ticket = NoTicket | Ticket(t: nat)

  /** How many tickets have been issued, the used ones of every slot in order of use, and what each thread holds. */
  datatype View = View(count: nat, used: seq<seq<nat>>, held: seq<Ticket>)

  function TicketOf(pc: Pc, side: Side): Ticket {
    match side
    case Producers => if pc.Put? then Ticket(pc.ticket) else NoTicket
    case Consumers => if pc.Take? then Ticket(pc.ticket) else NoTicket
  }

  function EntryTickets(log: seq<Entry>): seq<nat> {
    seq(|log|, k requires 0 <= k < |log| => log[k].ticket)
  }

  function ExitTickets(log: seq<Exit>): seq<nat> {
    seq(|log|, k requires 0 <= k < |log| => log[k].ticket)
  }

  function ViewOf(s: State, side: Side): View {
    var held := seq(|s.threads|, i requires 0 <= i < |s.threads| => TicketOf(s.threads[i], side));
    match side
    case Producers => View(s.pushes, seq(|s.stored|, r requires 0 <= r < |s.stored| => EntryTickets(s.stored[r])), held)
    case Consumers => View(s.pops, seq(|s.taken|, r requires 0 <= r < |s.taken| => ExitTickets(s.taken[r])), held)
  }

  ghost predicate Claims(v: View, v': View, i: nat) {
    i < |v.held| && v.held[i] == NoTicket && v' == v.(count := v.count + 1, held := v.held[i := Ticket(v.count)])
  }

  ghost predicate Uses(c: Config, v: View, v': View, i: nat) {
    && i < |v.held| && v.held[i].Ticket?
    && var t := v.held[i].t; var r := SlotOf(c, t);
       r < |v.used| && v' == v.(used := v.used[r := v.used[r] + [t]], held := v.held[i := NoTicket])
  }

  ghost predicate ViewNext(c: Config, v: View, v': View) {
    v' == v || (exists i :: Claims(v, v', i)) || (exists i :: Uses(c, v, v', i))
  }

  lemma GotoView(s: State, i: nat, pc: Pc, side: Side)
    requires i < |s.threads| && TicketOf(s.threads[i], side) == TicketOf(pc, side)
    ensures ViewOf(Goto(s, i, pc), side) == ViewOf(s, side)
  {
    assert ViewOf(Goto(s, i, pc), side).held == ViewOf(s, side).held;
  }

  lemma ClaimPushView(s: State, i: nat, e: int)
    requires i < |s.threads| && !s.threads[i].Put? && !s.threads[i].Take?
    ensures Claims(ViewOf(s, Producers), ViewOf(ClaimPush(s, i, e), Producers), i)
    ensures ViewOf(ClaimPush(s, i, e), Consumers) == ViewOf(s, Consumers)
  {
    hide Wrap;
    var s' := ClaimPush(s, i, e);
    assert ViewOf(s', Producers).held == ViewOf(s, Producers).held[i := Ticket(s.pushes)];
    assert ViewOf(s', Consumers).held == ViewOf(s, Consumers).held;
  }

  lemma ClaimPopView(s: State, i: nat)
    requires i < |s.threads| && !s.threads[i].Put? && !s.threads[i].Take?
    ensures Claims(ViewOf(s, Consumers), ViewOf(ClaimPop(s, i), Consumers), i)
    ensures ViewOf(ClaimPop(s, i), Producers) == ViewOf(s, Producers)
  {
    hide Wrap;
    var s' := ClaimPop(s, i);
    assert ViewOf(s', Consumers).held == ViewOf(s, Consumers).held[i := Ticket(s.pops)];
    assert ViewOf(s', Producers).held == ViewOf(s, Producers).held;
  }

  lemma StoreView(c: Config, s: State, i: nat)
    requires Inv(c, s) && i < |s.threads| && s.threads[i].Put?
    ensures var s' := Store(c, s, i, s.threads[i].e, s.threads[i].head, s.threads[i].ticket);
            Uses(c, ViewOf(s, Producers), ViewOf(s', Producers), i) && ViewOf(s', Consumers) == ViewOf(s, Consumers)
  {
    hide Wrap, SlotOk;
    var Put(e, head, t) := s.threads[i];
    var s' := Store(c, s, i, e, head, t);
    var r := Slot(c, head);
    assert PcOk(c, s.threads[i], s.pushes, s.pops);
    var v, v' := ViewOf(s, Producers), ViewOf(s', Producers);
    assert EntryTickets(s'.stored[r]) == EntryTickets(s.stored[r]) + [t];
    assert v'.used == v.used[r := v.used[r] + [t]];
    assert v'.held == v.held[i := NoTicket];
    assert ViewOf(s', Consumers).held == ViewOf(s, Consumers).held;
  }

  lemma RemoveView(c: Config, s: State, i: nat)
    requires Inv(c, s) && i < |s.threads| && s.threads[i].Take?
    ensures var s' := Remove(c, s, i, s.threads[i].tail, s.threads[i].ticket);
            Uses(c, ViewOf(s, Consumers), ViewOf(s', Consumers), i) && ViewOf(s', Producers) == ViewOf(s, Producers)
  {
    hide Wrap, SlotOk;
    var Take(tail, t) := s.threads[i];
    var s' := Remove(c, s, i, tail, t);
    var r := Slot(c, tail);
    assert PcOk(c, s.threads[i], s.pushes, s.pops);
    var v, v' := ViewOf(s, Consumers), ViewOf(s', Consumers);
    assert ExitTickets(s'.taken[r]) == ExitTickets(s.taken[r]) + [t];
    assert v'.used == v.used[r := v.used[r] + [t]];
    assert v'.held == v.held[i := NoTicket];
    assert ViewOf(s', Producers).held == ViewOf(s, Producers).held;
  }

  /** A step of the protocol claims a ticket, uses one, or does nothing to a side. */
  lemma StepView(c: Config, s: State, s': State, side: Side)
    requires Inv(c, s) && Next(c, s, s')
    ensures ViewNext(c, ViewOf(s, side), ViewOf(s', side))
  {
    hide ViewOf, Wrap, SlotOk, LooksFull, LooksEmpty, Claims, Uses;
    if i: nat, op: Op :| BeginStep(c, s, s', i, op) {
      GotoView(s, i, Start(op), side);
    } else {
      var i: nat, lag: nat, weak: bool :| AccessStep(c, s, s', i, lag, weak);
      if s.threads[i].Put? {
        if s' != s { StoreView(c, s, i); }
      } else if s.threads[i].Take? {
        if s' != s { RemoveView(c, s, i); }
      } else if s'.threads[i].Put? {
        ClaimPushView(s, i, s.threads[i].e);
      } else if s'.threads[i].Take? {
        ClaimPopView(s, i);
      } else {
        GotoView(s, i, s'.threads[i], side);
      }
    }
  }

  // ----- Who holds which ticket -----

  ghost predicate Held(v: View, t: nat) {
    Ticket(t) in v.held
  }

  /** A ticket that has been issued is held or has been used on its slot. */
  ghost predicate Located(c: Config, v: View, t: nat)
    requires c.Valid() && |v.used| == c.size
  {
    t < v.count ==> Held(v, t) || t in v.used[SlotOf(c, t)]
  }

  /** A ticket used on a slot was issued for it, and is not held any more. */
  ghost predicate Spent(c: Config, v: View, r: nat, t: nat)
    requires r < |v.used|
  {
    t in v.used[r] ==> t < v.count && SlotOf(c, t) == r && !Held(v, t)
  }

  /** Every issued ticket is accounted for, and no two threads hold the same one. */
  ghost predicate Accounted(c: Config, v: View) {
    && c.Valid() && |v.used| == c.size
    && (forall t: nat :: Located(c, v, t))
    && (forall t: nat :: Held(v, t) ==> t < v.count)
    && (forall r: nat, t: nat | r < c.size :: Spent(c, v, r, t))
    && (forall i, j | 0 <= i < j < |v.held| && v.held[i].Ticket? :: v.held[i] != v.held[j])
  }

  lemma ViewNextAccounted(c: Config, v: View, v': View)
    requires Accounted(c, v) && ViewNext(c, v, v')
    ensures Accounted(c, v')
  {
    if i: nat :| Claims(v, v', i) {
      ClaimAccounted(c, v, v', i);
    } else if i: nat :| Uses(c, v, v', i) {
      UseAccounted(c, v, v', i);
    }
  }

  lemma ClaimAccounted(c: Config, v: View, v': View, i: nat)
    requires Accounted(c, v) && Claims(v, v', i)
    ensures Accounted(c, v')
  {
    hide Wrap;
    forall t: nat
      ensures Held(v', t) <==> Held(v, t) || t == v.count
    {
      HeldAfter(v.held, i, Ticket(v.count), t);
    }
    forall j, k | 0 <= j < k < |v'.held| && v'.held[j].Ticket?
      ensures v'.held[j] != v'.held[k]
    {
      if j == i && v.held[k].Ticket? {
        assert Held(v, v.held[k].t);
      }
      if k == i {
        assert Held(v, v.held[j].t);
      }
    }
    forall t: nat
      ensures Located(c, v', t)
    {
      assert Located(c, v, t);
    }
    forall r: nat, t: nat | r < c.size
      ensures Spent(c, v', r, t)
    {
      assert Spent(c, v, r, t);
    }
  }

  lemma UseAccounted(c: Config, v: View, v': View, i: nat)
    requires Accounted(c, v) && Uses(c, v, v', i)
    ensures Accounted(c, v')
  {
    hide Wrap;
    var u := v.held[i].t;
    assert Held(v, u);
    forall t: nat
      ensures Held(v', t) <==> Held(v, t) && t != u
    {
      HeldAfter(v.held, i, NoTicket, t);
    }
    var r := SlotOf(c, u);
    forall t: nat
      ensures Located(c, v', t)
    {
      assert Located(c, v, t);
      if t == u {
        assert v'.used[r][|v.used[r]|] == u;
      }
    }
    forall r': nat, t: nat | r' < c.size
      ensures Spent(c, v', r', t)
    {
      assert Spent(c, v, r', t);
    }
  }

  /** Which tickets are held after thread i has exchanged the one it holds for another. */
  lemma HeldAfter(held: seq<Ticket>, i: nat, x: Ticket, t: nat)
    requires i < |held|
    requires forall j, k | 0 <= j < k < |held| && held[j].Ticket? :: held[j] != held[k]
    ensures Ticket(t) in held[i := x] <==> x == Ticket(t) || (Ticket(t) in held && held[i] != Ticket(t))
  {
    if Ticket(t) in held && held[i] != Ticket(t) {
      var j :| 0 <= j < |held| && held[j] == Ticket(t);
      assert held[i := x][j] == Ticket(t);
    }
    if x == Ticket(t) {
      assert held[i := x][i] == x;
    }
    if Ticket(t) in held[i := x] && x != Ticket(t) {
      var j :| 0 <= j < |held| && held[i := x][j] == Ticket(t);
      assert j != i && held[j] == Ticket(t);
    }
  }

  // ----- Order of use -----

  /** On every slot, the k-th use is of the k-th ticket issued for it. */
  ghost predicate InOrder(c: Config, v: View) {
    && |v.used| == c.size
    && forall r, k | 0 <= r < c.size && 0 <= k < |v.used[r]| :: Issued(c, v.used[r][k], r) == k
  }

  /** A ticket is used while an older one of the same slot is still held. */
  ghost predicate Overtakes(c: Config, v: View, v': View) {
    exists i, j :: Uses(c, v, v', i) && Older(c, v, j, i)
  }

  ghost predicate Older(c: Config, v: View, j: nat, i: nat) {
    && i < |v.held| && j < |v.held| && v.held[i].Ticket? && v.held[j].Ticket?
    && v.held[j].t < v.held[i].t && SlotOf(c, v.held[j].t) == SlotOf(c, v.held[i].t)
  }

  ghost predicate ViewRun(c: Config, vs: seq<View>) {
    && |vs| > 0 && Accounted(c, vs[0]) && (forall r | 0 <= r < c.size :: vs[0].used[r] == [])
    && forall k | 0 <= k < |vs| - 1 :: ViewNext(c, vs[k], vs[k + 1])
  }

  lemma {:induction false} ViewRunAccounted(c: Config, vs: seq<View>, k: nat)
    requires ViewRun(c, vs) && k < |vs|
    ensures Accounted(c, vs[k])
  {
    if k > 0 {
      ViewRunAccounted(c, vs, k - 1);
      assert ViewNext(c, vs[k - 1], vs[k - 1 + 1]);
      ViewNextAccounted(c, vs[k - 1], vs[k]);
    }
  }

  /** While uses are in order, the next ticket to be used in order is the oldest one that is held. */
  lemma HeldRank(c: Config, v: View, t: nat)
    requires Accounted(c, v) && InOrder(c, v) && Held(v, t)
    ensures Issued(c, t, SlotOf(c, t)) >= |v.used[SlotOf(c, t)]|
  {
    hide Wrap;
    var r := SlotOf(c, t);
    var k := Issued(c, t, r);
    if k < |v.used[r]| {
      var u := v.used[r][k];
      assert Spent(c, v, r, u);
      SameRank(c, t, u);
    }
  }

  lemma UsedRank(c: Config, v: View, t: nat)
    requires Accounted(c, v) && InOrder(c, v) && t < v.count && !Held(v, t)
    ensures Issued(c, t, SlotOf(c, t)) < |v.used[SlotOf(c, t)]|
  {
    var r := SlotOf(c, t);
    assert Located(c, v, t);
    var k :| 0 <= k < |v.used[r]| && v.used[r][k] == t;
    assert Issued(c, v.used[r][k], r) == k;
  }

  lemma SameRank(c: Config, t: nat, u: nat)
    requires c.Valid() && SlotOf(c, t) == SlotOf(c, u) && Issued(c, t, SlotOf(c, t)) == Issued(c, u, SlotOf(c, t))
    ensures t == u
  {
    if t < u {
      SameSlotApart(c, t, u);
    } else if u < t {
      SameSlotApart(c, u, t);
    }
  }

  /** The ticket of slot r that has k predecessors there. */
  lemma {:induction false} TicketOfRank(c: Config, n: nat, r: nat, k: nat) returns (u: nat)
    requires k < Issued(c, n, r)
    ensures u < n && SlotOf(c, u) == r && Issued(c, u, r) == k
    decreases n
  {
    hide Wrap;
    if SlotOf(c, n - 1) == r && Issued(c, n - 1, r) == k {
      u := n - 1;
    } else {
      u := TicketOfRank(c, n - 1, r, k);
    }
  }

  /** A use keeps the order if and only if it does not overtake. */
  lemma UseKeepsOrderIff(c: Config, v: View, v': View, i: nat)
    requires Accounted(c, v) && InOrder(c, v) && Uses(c, v, v', i)
    ensures InOrder(c, v') <==> !(exists j :: Older(c, v, j, i))
  {
    hide Wrap;
    var t := v.held[i].t;
    var r := SlotOf(c, t);
    var n := |v.used[r]|;
    assert Held(v, t);
    HeldRank(c, v, t);
    if j: nat :| Older(c, v, j, i) {
      var u := v.held[j].t;
      assert Held(v, u);
      HeldRank(c, v, u);
      SameSlotApart(c, u, t);
      assert v'.used[r][n] == t;
      assert !InOrder(c, v');
    } else if Issued(c, t, r) != n {
      var u := TicketOfRank(c, t, r, n);
      if Held(v, u) {
        var j :| 0 <= j < |v.held| && v.held[j] == Ticket(u);
        assert Older(c, v, j, i);
      } else {
        UsedRank(c, v, u);
        assert false;
      }
    } else {
      forall r', k | 0 <= r' < c.size && 0 <= k < |v'.used[r']|
        ensures Issued(c, v'.used[r'][k], r') == k
      {
        if r' == r && k == n {
        } else {
          assert v'.used[r'][k] == v.used[r'][k];
        }
      }
    }
  }

  lemma StepKeepsOrderIff(c: Config, v: View, v': View)
    requires Accounted(c, v) && ViewNext(c, v, v')
    ensures InOrder(c, v') <==> InOrder(c, v) && !Overtakes(c, v, v')
  {
    hide Wrap;
    if i: nat :| Claims(v, v', i) {
      assert forall j | 0 <= j < |v.held| :: !Uses(c, v, v', j);
    } else if i: nat :| Uses(c, v, v', i) {
      if InOrder(c, v') {
        UsePrefix(c, v, v', i);
      }
      if InOrder(c, v) {
        UseKeepsOrderIff(c, v, v', i);
        if j: nat :| Older(c, v, j, i) {
          assert Overtakes(c, v, v');
        }
        if i': nat, j: nat :| Uses(c, v, v', i') && Older(c, v, j, i') {
          UseKeepsOrderIff(c, v, v', i');
        }
      }
    } else {
      assert v' == v;
    }
  }

  /** What is out of order stays so. */
  lemma UsePrefix(c: Config, v: View, v': View, i: nat)
    requires Accounted(c, v) && Uses(c, v, v', i) && InOrder(c, v')
    ensures InOrder(c, v)
  {
    hide Wrap;
    forall r, k | 0 <= r < c.size && 0 <= k < |v.used[r]|
      ensures Issued(c, v.used[r][k], r) == k
    {
      assert v'.used[r][k] == v.used[r][k];
    }
  }

  /** In step k, a thread uses its ticket before the holder of an older ticket of the same slot. */
  ghost predicate OvertakesAt(c: Config, vs: seq<View>, k: nat)
    requires k + 1 < |vs|
  {
    Overtakes(c, vs[k], vs[k + 1])
  }

  lemma {:induction false} ViewRunOrderIff(c: Config, vs: seq<View>, n: nat)
    requires ViewRun(c, vs) && n < |vs|
    ensures InOrder(c, vs[n]) <==> forall k | 0 <= k < n :: !OvertakesAt(c, vs, k)
  {
    if n == 0 {
      assert forall r | 0 <= r < c.size :: vs[0].used[r] == [];
    } else {
      hide InOrder, Accounted, Overtakes, ViewNext;
      ViewRunOrderIff(c, vs, n - 1);
      ViewRunAccounted(c, vs, n - 1);
      assert ViewNext(c, vs[n - 1], vs[n - 1 + 1]);
      StepKeepsOrderIff(c, vs[n - 1], vs[n]);
      assert OvertakesAt(c, vs, n - 1) <==> Overtakes(c, vs[n - 1], vs[n]);
    }
  }

  // ----- Runs of the protocol -----

  function Views(tr: seq<State>, side: Side): seq<View> {
    seq(|tr|, k requires 0 <= k < |tr| => ViewOf(tr[k], side))
  }

  lemma RunViews(c: Config, tr: seq<State>, side: Side)
    requires Run(c, tr)
    ensures ViewRun(c, Views(tr, side))
  {
    var vs := Views(tr, side);
    forall k | 0 <= k < |vs| - 1
      ensures ViewNext(c, vs[k], vs[k + 1])
    {
      RunInv(c, tr, k);
      StepView(c, tr[k], tr[k + 1], side);
    }
  }

  /**
   * In any run, the tickets of every slot have been used in the order in which
   * they were issued, the first one first, if and only if no thread has ever
   * overtaken the holder of an older ticket of its slot.
   */
  lemma OrderIffNoOvertaking(c: Config, tr: seq<State>, side: Side)
    requires Run(c, tr)
    ensures InOrder(c, ViewOf(tr[|tr| - 1], side))
       <==> forall k | 0 <= k < |tr| - 1 :: !OvertakesAt(c, Views(tr, side), k)
  {
    hide ViewOf, Overtakes, InOrder;
    RunViews(c, tr, side);
    var vs := Views(tr, side);
    ViewRunOrderIff(c, vs, |tr| - 1);
    assert vs[|tr| - 1] == ViewOf(tr[|tr| - 1], side);
  }

  /** The k-th pop from slot r has returned exactly the element of the push with the same ticket. */
  ghost predicate DeliversAt(s: State, r: nat, k: nat) {
    r < |s.taken| == |s.stored| && k < |s.taken[r]| ==>
      && k < |s.stored[r]| && s.taken[r][k].ticket == s.stored[r][k].ticket && s.taken[r][k].v == s.stored[r][k].v
  }

  ghost predicate DeliversByTicket(c: Config, s: State) {
    Shape(c, s) && forall r: nat, k: nat :: DeliversAt(s, r, k)
  }

  /**
   * The k-th take from slot r and the k-th store there used tickets with the
   * same number of predecessors on the slot.
   */
  ghost predicate SameRanks(c: Config, s: State, r: nat, k: nat) {
    r < |s.taken| == |s.stored| && k < |s.taken[r]| && k < |s.stored[r]| ==>
      Issued(c, s.stored[r][k].ticket, r) == Issued(c, s.taken[r][k].ticket, r)
  }

  /** The log of a slot only has tickets of the slot. */
  lemma TicketsOfSlot(c: Config, s: State, r: nat, k: nat)
    requires Inv(c, s) && Accounted(c, ViewOf(s, Producers)) && Accounted(c, ViewOf(s, Consumers)) && r < c.size
    ensures k < |s.stored[r]| ==> SlotOf(c, s.stored[r][k].ticket) == r
    ensures k < |s.taken[r]| ==> SlotOf(c, s.taken[r][k].ticket) == r
  {
    hide Wrap, Issued, Inv;
    var p, q := ViewOf(s, Producers), ViewOf(s, Consumers);
    if k < |s.stored[r]| {
      assert p.used[r][k] == s.stored[r][k].ticket;
      assert Spent(c, p, r, s.stored[r][k].ticket);
    }
    if k < |s.taken[r]| {
      assert q.used[r][k] == s.taken[r][k].ticket;
      assert Spent(c, q, r, s.taken[r][k].ticket);
    }
  }

  /**
   * In any reachable state, every pop has returned the element of the push with
   * its ticket if and only if the stores and the takes of every slot have used
   * its tickets in the same order, whether or not that is the ticket order.
   */
  lemma DeliversIff(c: Config, s: State)
    requires Inv(c, s) && Accounted(c, ViewOf(s, Producers)) && Accounted(c, ViewOf(s, Consumers))
    ensures DeliversByTicket(c, s) <==> forall r: nat, k: nat :: SameRanks(c, s, r, k)
  {
    hide Accounted, ViewOf, Wrap;
    forall r: nat, k: nat
      ensures DeliversAt(s, r, k) <==> SameRanks(c, s, r, k)
    {
      if r < c.size && k < |s.taken[r]| {
        assert SlotOk(c, s, r);
        TicketsOfSlot(c, s, r, k);
        if SameRanks(c, s, r, k) {
          SameRank(c, s.stored[r][k].ticket, s.taken[r][k].ticket);
        }
      }
    }
  }

  /** The k-th store of slot r used its k-th ticket. */
  ghost predicate StoreInOrder(c: Config, s: State, r: nat, k: nat) {
    r < |s.stored| && k < |s.stored[r]| ==> Issued(c, s.stored[r][k].ticket, r) == k
  }

  ghost predicate TakeInOrder(c: Config, s: State, r: nat, k: nat) {
    r < |s.taken| && k < |s.taken[r]| ==> Issued(c, s.taken[r][k].ticket, r) == k
  }

  lemma InOrderIff(c: Config, s: State)
    requires Inv(c, s)
    ensures InOrder(c, ViewOf(s, Producers)) <==> forall r: nat, k: nat :: StoreInOrder(c, s, r, k)
    ensures InOrder(c, ViewOf(s, Consumers)) <==> forall r: nat, k: nat :: TakeInOrder(c, s, r, k)
  {
    hide Wrap, Issued;
    var p, q := ViewOf(s, Producers), ViewOf(s, Consumers);
    forall r: nat, k: nat
      ensures StoreInOrder(c, s, r, k) <==>
                (r < c.size && k < |p.used[r]| ==> Issued(c, p.used[r][k], r) == k)
      ensures TakeInOrder(c, s, r, k) <==>
                (r < c.size && k < |q.used[r]| ==> Issued(c, q.used[r][k], r) == k)
    {
    }
  }

  /** With both sides in order, so is the delivery. */
  lemma InOrderDelivers(c: Config, s: State)
    requires Inv(c, s) && Accounted(c, ViewOf(s, Producers)) && Accounted(c, ViewOf(s, Consumers))
    requires InOrder(c, ViewOf(s, Producers)) && InOrder(c, ViewOf(s, Consumers))
    ensures DeliversByTicket(c, s)
  {
    hide Accounted, ViewOf, InOrder, Inv, DeliversByTicket;
    InOrderIff(c, s);
    DeliversIff(c, s);
    forall r: nat, k: nat
      ensures SameRanks(c, s, r, k)
    {
      assert StoreInOrder(c, s, r, k) && TakeInOrder(c, s, r, k);
    }
  }

  /** Every element that has been stored has been taken. */
  ghost predicate Drained(s: State) {
    |s.stored| == |s.taken| && forall r | 0 <= r < |s.stored| :: |s.stored[r]| == |s.taken[r]|
  }

  /**
   * In any run in which no consumer has overtaken another, once the slots are
   * empty: every pop has returned the element of the push with its ticket if
   * and only if no producer has overtaken another.
   */
  lemma DeliveryIffNoOvertaking(c: Config, tr: seq<State>)
    requires Run(c, tr) && Drained(tr[|tr| - 1])
    requires forall k | 0 <= k < |tr| - 1 :: !OvertakesAt(c, Views(tr, Consumers), k)
    ensures DeliversByTicket(c, tr[|tr| - 1])
       <==> forall k | 0 <= k < |tr| - 1 :: !OvertakesAt(c, Views(tr, Producers), k)
  {
    hide Accounted, ViewOf, InOrder, Overtakes, Inv, DeliversByTicket;
    var s := tr[|tr| - 1];
    OrderIffNoOvertaking(c, tr, Producers);
    OrderIffNoOvertaking(c, tr, Consumers);
    RunInv(c, tr, |tr| - 1);
    RunAccounted(c, tr, Producers);
    RunAccounted(c, tr, Consumers);
    InOrderIff(c, s);
    DeliversIff(c, s);
    DrainedRanks(c, s);
  }

  lemma RunAccounted(c: Config, tr: seq<State>, side: Side)
    requires Run(c, tr)
    ensures Accounted(c, ViewOf(tr[|tr| - 1], side))
  {
    hide ViewOf, Accounted;
    RunViews(c, tr, side);
    ViewRunAccounted(c, Views(tr, side), |tr| - 1);
  }

  lemma DrainedRanks(c: Config, s: State)
    requires Drained(s) && forall r: nat, k: nat :: TakeInOrder(c, s, r, k)
    ensures (forall r: nat, k: nat :: SameRanks(c, s, r, k)) <==> (forall r: nat, k: nat :: StoreInOrder(c, s, r, k))
  {
    hide Issued;
    forall r: nat, k: nat
      ensures SameRanks(c, s, r, k) <==> StoreInOrder(c, s, r, k)
    {
      assert TakeInOrder(c, s, r, k);
    }
  }

  /** In no state of the run does any thread but p hold a ticket of the given side. */
  ghost predicate OnlyOne(tr: seq<State>, side: Side, p: nat) {
    forall k | 0 <= k < |tr| :: Alone(tr[k], side, p)
  }

  ghost predicate Alone(s: State, side: Side, p: nat) {
    forall i | 0 <= i < |s.threads| && i != p :: TicketOf(s.threads[i], side) == NoTicket
  }

  /** A thread that is alone on its side has nobody to overtake, nor to be overtaken by. */
  lemma AloneInOrder(c: Config, tr: seq<State>, side: Side, p: nat)
    requires Run(c, tr) && OnlyOne(tr, side, p)
    ensures forall k | 0 <= k < |tr| - 1 :: !OvertakesAt(c, Views(tr, side), k)
  {
    var vs := Views(tr, side);
    forall k | 0 <= k < |tr| - 1
      ensures !OvertakesAt(c, vs, k)
    {
      assert Alone(tr[k], side, p);
      NobodyOlder(c, vs[k], vs[k + 1], p);
    }
  }

  lemma NobodyOlder(c: Config, v: View, v': View, p: nat)
    requires forall i | 0 <= i < |v.held| && i != p :: v.held[i] == NoTicket
    ensures !Overtakes(c, v, v')
  {
    hide Wrap;
  }

  /**
   * With one thread on each side, the queue for many producers and consumers
   * delivers the element of every push to the pop with the same ticket.
   */
  lemma OnePerSideDelivers(c: Config, tr: seq<State>, p: nat, q: nat)
    requires Run(c, tr) && OnlyOne(tr, Producers, p) && OnlyOne(tr, Consumers, q)
    ensures DeliversByTicket(c, tr[|tr| - 1])
  {
    hide Accounted, ViewOf, InOrder, Overtakes, Inv, DeliversByTicket, OnlyOne;
    AloneInOrder(c, tr, Producers, p);
    AloneInOrder(c, tr, Consumers, q);
    OrderIffNoOvertaking(c, tr, Producers);
    OrderIffNoOvertaking(c, tr, Consumers);
    RunInv(c, tr, |tr| - 1);
    RunAccounted(c, tr, Producers);
    RunAccounted(c, tr, Consumers);
    InOrderDelivers(c, tr[|tr| - 1]);
  }

  /** No ticket is issued a lap after one that has not been used yet. */
  ghost predicate NoLap(c: Config, v: View) {
    forall i | 0 <= i < |v.held| && v.held[i].Ticket? :: v.count <= v.held[i].t + c.size
  }

  lemma NoLapNoOvertaking(c: Config, v: View, v': View)
    requires Accounted(c, v) && NoLap(c, v)
    ensures !Overtakes(c, v, v')
  {
    if i: nat, j: nat :| Uses(c, v, v', i) && Older(c, v, j, i) {
      SameSlotApart(c, v.held[j].t, v.held[i].t);
      assert Held(v, v.held[i].t);
    }
  }

  /**
   * In runs in which no ticket is ever issued a lap after an unused one, on
   * either side, every pop gets the element of the push with the same ticket.
   */
  lemma NoLapDelivery(c: Config, tr: seq<State>)
    requires Run(c, tr)
    requires forall j | 0 <= j < |tr| - 1 :: NoLap(c, ViewOf(tr[j], Producers)) && NoLap(c, ViewOf(tr[j], Consumers))
    ensures DeliversByTicket(c, tr[|tr| - 1])
  {
    hide ViewOf, InOrder, Wrap;
    NoLapInOrder(c, tr, Producers);
    NoLapInOrder(c, tr, Consumers);
    RunInv(c, tr, |tr| - 1);
    InOrderDelivers(c, tr[|tr| - 1]);
  }

  lemma NoLapInOrder(c: Config, tr: seq<State>, side: Side)
    requires Run(c, tr) && forall j | 0 <= j < |tr| - 1 :: NoLap(c, ViewOf(tr[j], side))
    ensures InOrder(c, ViewOf(tr[|tr| - 1], side)) && Accounted(c, ViewOf(tr[|tr| - 1], side))
  {
    hide ViewOf, InOrder, Accounted, Overtakes, NoLap;
    RunViews(c, tr, side);
    forall k | 0 <= k < |tr| - 1
      ensures !OvertakesAt(c, Views(tr, side), k)
    {
      ViewRunAccounted(c, Views(tr, side), k);
      NoLapNoOvertaking(c, ViewOf(tr[k], side), ViewOf(tr[k + 1], side));
    }
    OrderIffNoOvertaking(c, tr, side);
    ViewRunAccounted(c, Views(tr, side), |tr| - 1);
  }
}
