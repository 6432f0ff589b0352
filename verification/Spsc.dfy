/**
 * The single-producer-single-consumer mode of both queues, at the granularity
 * of its plain loads and stores. The indexes advance before the slots are
 * touched, and a slot is tested and changed in separate accesses.
 *
 * The fields `pushed` and `popped` are history. Only stale loads refer to it.
 */
module Spsc {
  import opened Words
  import opened SlotMap
  import Q = Protocol

  /** Slots of atomic elements, where a reserved value means empty, or slots of plain elements with a state each. */
  datatype Kind = NilSlots | StateSlots

  datatype Producer =
    | ProducerIdle
    | ProducerDone(result: Q.Result)
    | PushLoad(e: int)
    | TryPushLoad(e: int)
    | TryPushCheck(e: int, head: u32)
    | AdvanceHead(e: int, head: u32)
    | PutWait(e: int, head: u32)
    | PutWrite(e: int, head: u32)
    | PutRelease(e: int, head: u32)

  datatype Consumer =
    | ConsumerIdle
    | ConsumerDone(result: Q.Result)
    | PopLoad
    | TryPopLoad
    | TryPopCheck(tail: u32)
    | AdvanceTail(tail: u32)
    | TakeWait(tail: u32)
    | TakeRead(tail: u32)
    | TakeRelease(tail: u32, v: int)

  /** A slot state is whether it is STORED; the other two states do not occur in this mode. */
  datatype State = State(
    head: u32, tail: u32, cells: seq<int>, stored: seq<bool>, producer: Producer, consumer: Consumer,
    pushed: seq<int>, popped: seq<int>)

  ghost predicate Shape(c: Config, s: State) {
    c.Valid() && |s.cells| == |s.stored| == c.size
  }

  ghost predicate Init(c: Config, kind: Kind, s: State) {
    && Shape(c, s) && s.head == 0 && s.tail == 0
    && (forall r | 0 <= r < c.size :: !Occupied(c, kind, s, r))
    && s.producer == ProducerIdle && s.consumer == ConsumerIdle && s.pushed == [] && s.popped == []
  }

  // ----- Steps -----

  predicate Putting(p: Producer) {
    p.PutWait? || p.PutWrite? || p.PutRelease?
  }

  predicate Taking(p: Consumer) {
    p.TakeWait? || p.TakeRead? || p.TakeRelease?
  }

  /** How often an index has been advanced. */
  function Heads(s: State): nat {
    |s.pushed| + if Putting(s.producer) then 1 else 0
  }

  function Tails(s: State): nat {
    |s.popped| + if Taking(s.consumer) then 1 else 0
  }

  predicate Occupied(c: Config, kind: Kind, s: State, r: nat)
    requires r < |s.cells| == |s.stored|
  {
    if kind == NilSlots then s.cells[r] != c.nil else s.stored[r]
  }

  ghost predicate ProducerBegins(c: Config, kind: Kind, s: State, s': State, e: int, optimistic: bool) {
    && (s.producer.ProducerIdle? || s.producer.ProducerDone?) && (kind == NilSlots ==> e != c.nil)
    && s' == s.(producer := if optimistic then PushLoad(e) else TryPushLoad(e))
  }

  ghost predicate ConsumerBegins(s: State, s': State, optimistic: bool) {
    && (s.consumer.ConsumerIdle? || s.consumer.ConsumerDone?)
    && s' == s.(consumer := if optimistic then PopLoad else TryPopLoad)
  }

  /** The next access of the producer. It may see the consumer's index as it was `lag` advances ago. */
  ghost function Produce(c: Config, kind: Kind, s: State, lag: nat): State
    requires Shape(c, s) && lag <= Tails(s)
  {
    match s.producer
    case PushLoad(e) => s.(producer := AdvanceHead(e, s.head))
    case TryPushLoad(e) => s.(producer := TryPushCheck(e, s.head))
    case TryPushCheck(e, head) =>
      var tail := if lag == 0 then s.tail else Wrap(Tails(s) - lag);
      s.(producer := if LooksFull(head, tail, c.size) then ProducerDone(Q.Full) else AdvanceHead(e, head))
    case AdvanceHead(e, head) => s.(head := Wrap(head + 1), producer := PutWait(e, head))
    case PutWait(e, head) => if Occupied(c, kind, s, Slot(c, head)) then s else s.(producer := PutWrite(e, head))
    case PutWrite(e, head) =>
      var s' := s.(cells := s.cells[Slot(c, head) := e]);
      if kind == NilSlots then s'.(producer := ProducerDone(Q.Pushed), pushed := s.pushed + [e])
      else s'.(producer := PutRelease(e, head))
    case PutRelease(e, head) =>
      s.(stored := s.stored[Slot(c, head) := true], producer := ProducerDone(Q.Pushed), pushed := s.pushed + [e])
    case _ => s
  }

  /** The next access of the consumer. */
  ghost function Consume(c: Config, kind: Kind, s: State, lag: nat): State
    requires Shape(c, s) && lag <= Heads(s)
  {
    match s.consumer
    case PopLoad => s.(consumer := AdvanceTail(s.tail))
    case TryPopLoad => s.(consumer := TryPopCheck(s.tail))
    case TryPopCheck(tail) =>
      var head := if lag == 0 then s.head else Wrap(Heads(s) - lag);
      s.(consumer := if LooksEmpty(head, tail) then ConsumerDone(Q.Empty) else AdvanceTail(tail))
    case AdvanceTail(tail) => s.(tail := Wrap(tail + 1), consumer := TakeWait(tail))
    case TakeWait(tail) =>
      if !Occupied(c, kind, s, Slot(c, tail)) then s
      else s.(consumer := if kind == NilSlots then TakeRelease(tail, s.cells[Slot(c, tail)]) else TakeRead(tail))
    case TakeRead(tail) => s.(consumer := TakeRelease(tail, s.cells[Slot(c, tail)]))
    case TakeRelease(tail, v) =>
      var s' := s.(consumer := ConsumerDone(Q.Popped(v)), popped := s.popped + [v]);
      if kind == NilSlots then s'.(cells := s.cells[Slot(c, tail) := c.nil])
      else s'.(stored := s.stored[Slot(c, tail) := false])
    case _ => s
  }

  ghost predicate Produces(c: Config, kind: Kind, s: State, s': State, lag: nat) {
    Shape(c, s) && lag <= Tails(s) && s' == Produce(c, kind, s, lag)
  }

  ghost predicate Consumes(c: Config, kind: Kind, s: State, s': State, lag: nat) {
    Shape(c, s) && lag <= Heads(s) && s' == Consume(c, kind, s, lag)
  }

  ghost predicate Next(c: Config, kind: Kind, s: State, s': State) {
    || (exists e, optimistic :: ProducerBegins(c, kind, s, s', e, optimistic))
    || (exists optimistic :: ConsumerBegins(s, s', optimistic))
    || (exists lag :: Produces(c, kind, s, s', lag))
    || (exists lag :: Consumes(c, kind, s, s', lag))
  }

  ghost predicate Run(c: Config, kind: Kind, tr: seq<State>) {
    && |tr| > 0 && Init(c, kind, tr[0])
    && forall k | 0 <= k < |tr| - 1 :: Next(c, kind, tr[k], tr[k + 1])
  }

  // ----- The invariant -----

  /** The elements in the slots, oldest first. */
  function Contents(s: State): seq<int>
    requires |s.popped| <= |s.pushed|
  {
    s.pushed[|s.popped|..]
  }

  /** The slot of ticket t, if t is in the window of the next `size` pops, holds the element pushed with t. */
  ghost predicate SlotOk(c: Config, kind: Kind, s: State, t: nat)
    requires Shape(c, s)
  {
    |s.popped| <= t < |s.popped| + c.size ==>
      && (Occupied(c, kind, s, SlotOf(c, t)) <==> t < |s.pushed|)
      && (t < |s.pushed| ==> s.cells[SlotOf(c, t)] == s.pushed[t])
  }

  ghost predicate ProducerOk(c: Config, kind: Kind, s: State)
    requires Shape(c, s)
  {
    match s.producer
    case PushLoad(e) => kind == NilSlots ==> e != c.nil
    case TryPushLoad(e) => kind == NilSlots ==> e != c.nil
    case TryPushCheck(e, head) => head == Wrap(|s.pushed|) && (kind == NilSlots ==> e != c.nil)
    case AdvanceHead(e, head) => head == Wrap(|s.pushed|) && (kind == NilSlots ==> e != c.nil)
    case PutWait(e, head) => head == Wrap(|s.pushed|) && (kind == NilSlots ==> e != c.nil)
    case PutWrite(e, head) =>
      head == Wrap(|s.pushed|) && (kind == NilSlots ==> e != c.nil) && |s.pushed| < |s.popped| + c.size
    case PutRelease(e, head) =>
      && head == Wrap(|s.pushed|) && kind == StateSlots && |s.pushed| < |s.popped| + c.size
      && s.cells[Slot(c, head)] == e
    case _ => true
  }

  ghost predicate ConsumerOk(c: Config, kind: Kind, s: State)
    requires Shape(c, s)
  {
    match s.consumer
    case TryPopCheck(tail) => tail == Wrap(|s.popped|)
    case AdvanceTail(tail) => tail == Wrap(|s.popped|)
    case TakeWait(tail) => tail == Wrap(|s.popped|)
    case TakeRead(tail) => tail == Wrap(|s.popped|) && |s.popped| < |s.pushed| && kind == StateSlots
    case TakeRelease(tail, v) => tail == Wrap(|s.popped|) && |s.popped| < |s.pushed| && v == s.pushed[|s.popped|]
    case _ => true
  }

  ghost predicate Inv(c: Config, kind: Kind, s: State) {
    && Shape(c, s)
    && s.head == Wrap(Heads(s)) && s.tail == Wrap(Tails(s))
    && |s.popped| <= |s.pushed| <= |s.popped| + c.size
    && s.popped == s.pushed[..|s.popped|]
    && (forall t: nat :: SlotOk(c, kind, s, t))
    && ProducerOk(c, kind, s) && ConsumerOk(c, kind, s)
  }

  /**
   * The slot for the next push is occupied exactly if the queue is full, the
   * one for the next pop unless it is empty.
   */
  lemma BlockedIff(c: Config, kind: Kind, s: State)
    requires Inv(c, kind, s)
    ensures Occupied(c, kind, s, SlotOf(c, |s.pushed|)) <==> |Contents(s)| == c.size
    ensures !Occupied(c, kind, s, SlotOf(c, |s.popped|)) <==> Contents(s) == []
    ensures Contents(s) != [] ==> s.cells[SlotOf(c, |s.popped|)] == Contents(s)[0]
  {
    hide Wrap;
    assert SlotOk(c, kind, s, |s.popped|);
    assert SlotOk(c, kind, s, |s.pushed|);
    SlotNextLap(c, |s.popped|);
  }

  /** A push is completed: the element follows all others. */
  lemma StoreKeepsSlots(c: Config, kind: Kind, s: State, s': State, e: int)
    requires Inv(c, kind, s) && Shape(c, s') && |s.pushed| < |s.popped| + c.size
    requires s'.pushed == s.pushed + [e] && s'.popped == s.popped
    requires forall r | 0 <= r < c.size && r != SlotOf(c, |s.pushed|) ::
               s'.cells[r] == s.cells[r] && s'.stored[r] == s.stored[r]
    requires Occupied(c, kind, s', SlotOf(c, |s.pushed|)) && s'.cells[SlotOf(c, |s.pushed|)] == e
    ensures forall t: nat :: SlotOk(c, kind, s', t)
  {
    hide Wrap;
    forall t: nat
      ensures SlotOk(c, kind, s', t)
    {
      assert SlotOk(c, kind, s, t);
      if |s.popped| <= t < |s.popped| + c.size && t != |s.pushed| {
        WindowDistinct(c, |s.popped|, t, |s.pushed|);
      }
    }
  }

  /** A pop is completed: the slot of the oldest element becomes the free slot of the ticket a lap later. */
  lemma ClearKeepsSlots(c: Config, kind: Kind, s: State, s': State)
    requires Inv(c, kind, s) && Shape(c, s') && |s.popped| < |s.pushed|
    requires s'.pushed == s.pushed && |s'.popped| == |s.popped| + 1
    requires forall r | 0 <= r < c.size && r != SlotOf(c, |s.popped|) ::
               s'.cells[r] == s.cells[r] && s'.stored[r] == s.stored[r]
    requires !Occupied(c, kind, s', SlotOf(c, |s.popped|))
    ensures forall t: nat :: SlotOk(c, kind, s', t)
  {
    hide Wrap;
    forall t: nat
      ensures SlotOk(c, kind, s', t)
    {
      assert SlotOk(c, kind, s, t);
      SlotNextLap(c, |s.popped|);
      if |s'.popped| <= t < |s.popped| + c.size {
        WindowDistinct(c, |s.popped|, t, |s.popped|);
      }
    }
  }

  lemma ProduceKeepsInv(c: Config, kind: Kind, s: State, lag: nat)
    requires Inv(c, kind, s) && lag <= Tails(s)
    ensures Inv(c, kind, Produce(c, kind, s, lag))
  {
    if s.producer.PutWrite? || s.producer.PutRelease? {
      PutKeepsInv(c, kind, s, lag);
    } else {
      hide Wrap, LooksFull, SlotOk, Occupied;
      WrapNext(|s.pushed|);
      BlockedIff(c, kind, s);
      KeepsSlots(c, kind, s, Produce(c, kind, s, lag));
    }
  }

  lemma PutKeepsInv(c: Config, kind: Kind, s: State, lag: nat)
    requires Inv(c, kind, s) && lag <= Tails(s) && (s.producer.PutWrite? || s.producer.PutRelease?)
    ensures Inv(c, kind, Produce(c, kind, s, lag))
  {
    hide Wrap, SlotOk;
    var s', e := Produce(c, kind, s, lag), s.producer.e;
    if s.producer.PutWrite? && kind == StateSlots {
      WriteKeepsSlots(c, s, s', e);
    } else {
      StoreKeepsSlots(c, kind, s, s', e);
    }
  }

  lemma KeepsSlots(c: Config, kind: Kind, s: State, s': State)
    requires Inv(c, kind, s) && s'.cells == s.cells && s'.stored == s.stored
    requires s'.pushed == s.pushed && s'.popped == s.popped
    ensures forall t: nat :: SlotOk(c, kind, s', t)
  {
    hide Wrap;
    forall t: nat
      ensures SlotOk(c, kind, s', t)
    {
      assert SlotOk(c, kind, s, t);
    }
  }

  /** Writing to the cell of a slot that is not STORED is not visible. */
  lemma WriteKeepsSlots(c: Config, s: State, s': State, e: int)
    requires Inv(c, StateSlots, s) && |s.pushed| < |s.popped| + c.size
    requires s'.cells == s.cells[SlotOf(c, |s.pushed|) := e] && s'.stored == s.stored
    requires s'.pushed == s.pushed && s'.popped == s.popped
    ensures forall t: nat :: SlotOk(c, StateSlots, s', t)
  {
    hide Wrap;
    forall t: nat
      ensures SlotOk(c, StateSlots, s', t)
    {
      assert SlotOk(c, StateSlots, s, t);
      if |s.popped| <= t < |s.pushed| {
        WindowDistinct(c, |s.popped|, t, |s.pushed|);
      }
    }
  }

  lemma ConsumeKeepsInv(c: Config, kind: Kind, s: State, lag: nat)
    requires Inv(c, kind, s) && lag <= Heads(s)
    ensures Inv(c, kind, Consume(c, kind, s, lag))
  {
    hide Wrap, LooksEmpty, SlotOk;
    var s' := Consume(c, kind, s, lag);
    WrapNext(|s.popped|);
    BlockedIff(c, kind, s);
    match s.consumer
    case TakeRelease(_, _) =>
      ClearKeepsSlots(c, kind, s, s');
      ClearKeepsProducer(c, kind, s, s');
    case TakeWait(_) => KeepsSlots(c, kind, s, s');
    case TakeRead(_) => KeepsSlots(c, kind, s, s');
    case AdvanceTail(_) => KeepsSlots(c, kind, s, s');
    case PopLoad => KeepsSlots(c, kind, s, s');
    case TryPopLoad => KeepsSlots(c, kind, s, s');
    case TryPopCheck(_) => KeepsSlots(c, kind, s, s');
    case ConsumerIdle =>
    case ConsumerDone(_) =>
  }

  lemma ClearKeepsProducer(c: Config, kind: Kind, s: State, s': State)
    requires Inv(c, kind, s) && Shape(c, s') && s'.producer == s.producer
    requires s'.pushed == s.pushed && |s'.popped| == |s.popped| + 1
    requires kind == StateSlots ==> s'.cells == s.cells
    ensures ProducerOk(c, kind, s')
  {
    hide Wrap, SlotOk;
  }

  lemma InitInv(c: Config, kind: Kind, s: State)
    requires Init(c, kind, s)
    ensures Inv(c, kind, s)
  {
  }

  lemma NextKeepsInv(c: Config, kind: Kind, s: State, s': State)
    requires Inv(c, kind, s) && Next(c, kind, s, s')
    ensures Inv(c, kind, s')
  {
    hide Wrap, LooksFull, LooksEmpty, SlotOk;
    if lag: nat :| Produces(c, kind, s, s', lag) {
      ProduceKeepsInv(c, kind, s, lag);
    } else if lag: nat :| Consumes(c, kind, s, s', lag) {
      ConsumeKeepsInv(c, kind, s, lag);
    } else {
      KeepsSlots(c, kind, s, s');
    }
  }

  lemma {:induction false} RunInv(c: Config, kind: Kind, tr: seq<State>, k: nat)
    requires Run(c, kind, tr) && k < |tr|
    ensures Inv(c, kind, tr[k])
  {
    if k == 0 {
      InitInv(c, kind, tr[0]);
    } else {
      RunInv(c, kind, tr, k - 1);
      assert Next(c, kind, tr[k - 1], tr[k - 1 + 1]);
      NextKeepsInv(c, kind, tr[k - 1], tr[k]);
    }
  }

  // ----- A first-in-first-out queue -----

  predicate Stores(p: Producer) {
    p == ProducerDone(Q.Pushed)
  }

  predicate Yields(p: Consumer) {
    p.ConsumerDone? && p.result.Popped?
  }

  /**
   * What a step is to a bounded first-in-first-out queue of elements and its
   * two callers: nothing at all, a push that returns when its element is in
   * the queue, or a pop that returns the oldest element.
   */
  ghost predicate FifoStep(c: Config, s: State, s': State)
    requires |s.popped| <= |s.pushed| && |s'.popped| <= |s'.pushed|
  {
    || (&& s'.pushed == s.pushed && s'.popped == s.popped
        && (Stores(s'.producer) ==> s'.producer == s.producer) && (Yields(s'.consumer) ==> s'.consumer == s.consumer))
    || (exists e :: Stores(s'.producer) && s'.pushed == s.pushed + [e] && s'.popped == s.popped
          && |Contents(s)| < c.size && Contents(s') == Contents(s) + [e])
    || (&& Contents(s) != [] && s'.consumer == ConsumerDone(Q.Popped(Contents(s)[0]))
        && s'.pushed == s.pushed && s'.popped == s.popped + [Contents(s)[0]] && Contents(s') == Contents(s)[1..])
  }

  lemma ProduceIsFifoStep(c: Config, kind: Kind, s: State, lag: nat)
    requires Inv(c, kind, s) && lag <= Tails(s)
    ensures |Produce(c, kind, s, lag).popped| <= |Produce(c, kind, s, lag).pushed|
    ensures FifoStep(c, s, Produce(c, kind, s, lag))
  {
    hide Wrap, LooksFull, SlotOk, Occupied;
    var s' := Produce(c, kind, s, lag);
    if s'.pushed != s.pushed {
      var e := s.producer.e;
      assert s'.pushed == s.pushed + [e] && Contents(s') == Contents(s) + [e];
    }
  }

  lemma ConsumeIsFifoStep(c: Config, kind: Kind, s: State, lag: nat)
    requires Inv(c, kind, s) && lag <= Heads(s)
    ensures |Consume(c, kind, s, lag).popped| <= |Consume(c, kind, s, lag).pushed|
    ensures FifoStep(c, s, Consume(c, kind, s, lag))
  {
    hide Wrap, LooksEmpty, SlotOk, Occupied;
    var s' := Consume(c, kind, s, lag);
    if s'.popped != s.popped {
      assert Contents(s') == Contents(s)[1..];
    }
  }

  lemma NextIsFifoStep(c: Config, kind: Kind, s: State, s': State)
    requires Inv(c, kind, s) && Next(c, kind, s, s')
    ensures Inv(c, kind, s') && FifoStep(c, s, s')
  {
    NextKeepsInv(c, kind, s, s');
    hide Wrap, SlotOk, Occupied, ProducerOk, ConsumerOk, Produce, Consume;
    if lag: nat :| Produces(c, kind, s, s', lag) {
      ProduceIsFifoStep(c, kind, s, lag);
    } else if lag: nat :| Consumes(c, kind, s, s', lag) {
      ConsumeIsFifoStep(c, kind, s, lag);
    }
  }

  /**
   * In every interleaving, with optimistic operations and tries mixed and
   * loads of the other side's index as stale as they may be: the elements
   * popped are a prefix of the elements pushed, at most `size` elements are in
   * between, and every step is a step of a first-in-first-out queue.
   */
  lemma RunIsFifo(c: Config, kind: Kind, tr: seq<State>, k: nat)
    requires Run(c, kind, tr) && k < |tr|
    ensures tr[k].popped <= tr[k].pushed
    ensures |tr[k].pushed| <= |tr[k].popped| + c.size
    ensures k + 1 < |tr| ==> |tr[k + 1].popped| <= |tr[k + 1].pushed| && FifoStep(c, tr[k], tr[k + 1])
  {
    RunInv(c, kind, tr, k);
    if k + 1 < |tr| {
      NextIsFifoStep(c, kind, tr[k], tr[k + 1]);
    }
  }

  /** The plain cell that the producer writes is never the one that the consumer reads. */
  lemma NoDataRace(c: Config, s: State)
    requires Inv(c, StateSlots, s) && s.producer.PutWrite? && s.consumer.TakeRead?
    ensures Slot(c, s.producer.head) != Slot(c, s.consumer.tail)
  {
    hide Wrap;
    WindowDistinct(c, |s.popped|, |s.popped|, |s.pushed|);
  }

  ghost predicate GivesUpPush(c: Config, kind: Kind, s: State)
    requires Shape(c, s)
  {
    Produce(c, kind, s, 0).producer == ProducerDone(Q.Full)
  }

  ghost predicate GivesUpPop(c: Config, kind: Kind, s: State)
    requires Shape(c, s)
  {
    Consume(c, kind, s, 0).consumer == ConsumerDone(Q.Empty)
  }

  /**
   * With a current load of the consumer's index, `try_push` gives up exactly if
   * the queue is full and the consumer has not yet begun to take an element.
   * The signed difference is the true one, although pops run ahead.
   */
  lemma FullIsJustified(c: Config, kind: Kind, s: State)
    requires Inv(c, kind, s) && s.producer.TryPushCheck?
    ensures GivesUpPush(c, kind, s) <==> |Contents(s)| == c.size && !Taking(s.consumer)
  {
    hide SlotOk, AsSigned, Sub;
    TryPushLooksFullIff(c, s.producer.head, s.tail, |s.pushed|, Tails(s));
  }

  lemma TryPushLooksFullIff(c: Config, head: u32, tail: u32, heads: nat, tails: nat)
    requires c.Valid() && head == Wrap(heads) && tail == Wrap(tails) && -1 <= heads - tails <= c.size
    ensures LooksFull(head, tail, c.size) <==> heads - tails >= c.size
  {
    SignedDifference(heads, tails);
  }

  /** Likewise, `try_pop` gives up exactly if the queue is empty and the producer has not begun to put an element. */
  lemma EmptyIsJustified(c: Config, kind: Kind, s: State)
    requires Inv(c, kind, s) && s.consumer.TryPopCheck?
    ensures GivesUpPop(c, kind, s) <==> Contents(s) == [] && !Putting(s.producer)
  {
    hide SlotOk, AsSigned, Sub;
    TryPopLooksEmptyIff(c, s.head, s.consumer.tail, Heads(s), |s.popped|);
  }

  lemma TryPopLooksEmptyIff(c: Config, head: u32, tail: u32, heads: nat, tails: nat)
    requires c.Valid() && head == Wrap(heads) && tail == Wrap(tails) && 0 <= heads - tails <= c.size + 1
    ensures LooksEmpty(head, tail) <==> heads == tails
  {
    assert c.Congruent(0, WORD);
    SignedDifference(heads, tails);
  }

  /**
   * The producer waits exactly while the queue is full, and the consumer
   * exactly while it is empty, so that never both of them wait in vain.
   */
  lemma NeverBothWait(c: Config, kind: Kind, s: State)
    requires Inv(c, kind, s)
    ensures s.producer.PutWait? ==> (Produce(c, kind, s, 0) == s <==> |Contents(s)| == c.size)
    ensures s.consumer.TakeWait? ==> (Consume(c, kind, s, 0) == s <==> Contents(s) == [])
    ensures s.producer.PutWait? && s.consumer.TakeWait? ==> Produce(c, kind, s, 0) != s || Consume(c, kind, s, 0) != s
  {
    hide Wrap, SlotOk;
    BlockedIff(c, kind, s);
  }

  // ----- Answers -----

  predicate ProducerBusy(s: State) {
    !s.producer.ProducerIdle? && !s.producer.ProducerDone?
  }

  predicate ConsumerBusy(s: State) {
    !s.consumer.ConsumerIdle? && !s.consumer.ConsumerDone?
  }

  /** In step b, the producer has called push, or `try_push`, with e, and up to state k it has not returned. */
  ghost predicate InPush(c: Config, kind: Kind, tr: seq<State>, b: nat, k: nat, e: int, optimistic: bool) {
    && b < k < |tr| && ProducerBegins(c, kind, tr[b], tr[b + 1], e, optimistic)
    && forall j | b < j <= k :: ProducerBusy(tr[j])
  }

  ghost predicate InPop(tr: seq<State>, b: nat, k: nat, optimistic: bool) {
    && b < k < |tr| && ConsumerBegins(tr[b], tr[b + 1], optimistic)
    && forall j | b < j <= k :: ConsumerBusy(tr[j])
  }

  /** Where the producer may be in such a call. */
  predicate PcOfPush(p: Producer, e: int, optimistic: bool) {
    || ((p.AdvanceHead? || p.PutWait? || p.PutWrite? || p.PutRelease?) && p.e == e)
    || (if optimistic then p == PushLoad(e) else (p.TryPushLoad? || p.TryPushCheck?) && p.e == e)
  }

  predicate PcOfPop(p: Consumer, optimistic: bool) {
    || p.AdvanceTail? || p.TakeWait? || p.TakeRead? || p.TakeRelease?
    || (if optimistic then p.PopLoad? else p.TryPopLoad? || p.TryPopCheck?)
  }

  /** The producer gives up, and does nothing else, after a test with some past value of the tail. */
  ghost predicate GivesUpFull(c: Config, s: State, s': State) {
    && s.producer.TryPushCheck? && c.Valid() && s' == s.(producer := ProducerDone(Q.Full))
    && exists now: nat :: now <= Tails(s) && LooksFull(s.producer.head, Wrap(now), c.size)
  }

  ghost predicate GivesUpEmpty(s: State, s': State) {
    && s.consumer.TryPopCheck? && s' == s.(consumer := ConsumerDone(Q.Empty))
    && exists now: nat :: now <= Heads(s) && LooksEmpty(Wrap(now), s.consumer.tail)
  }

  /** From state s0 on, the producer has pushed e and nothing else, and returns. */
  ghost predicate HasPushed(s0: State, s': State, e: int) {
    s'.producer == ProducerDone(Q.Pushed) && s'.pushed == s0.pushed + [e]
  }

  /** From state s0 on, the consumer has popped one element, the oldest one, and returns it. */
  ghost predicate HasPopped(s0: State, s: State, s': State) {
    && |s.popped| < |s.pushed|
    && var v := s.pushed[|s.popped|];
       s'.consumer == ConsumerDone(Q.Popped(v)) && s'.popped == s0.popped + [v]
  }

  /** A step of the producer in its call. */
  lemma ProduceInCall(c: Config, kind: Kind, s: State, lag: nat, e: int, optimistic: bool)
    requires Inv(c, kind, s) && lag <= Tails(s) && ProducerBusy(s) && PcOfPush(s.producer, e, optimistic)
    ensures var s' := Produce(c, kind, s, lag);
            if ProducerBusy(s') then PcOfPush(s'.producer, e, optimistic) && s'.pushed == s.pushed
            else HasPushed(s, s', e) || (!optimistic && GivesUpFull(c, s, s'))
  {
    hide SlotOk, LooksFull, Wrap, Occupied;
  }

  lemma ConsumeInCall(c: Config, kind: Kind, s: State, lag: nat, optimistic: bool)
    requires Inv(c, kind, s) && lag <= Heads(s) && ConsumerBusy(s) && PcOfPop(s.consumer, optimistic)
    ensures var s' := Consume(c, kind, s, lag);
            if ConsumerBusy(s') then PcOfPop(s'.consumer, optimistic) && s'.popped == s.popped
            else HasPopped(s, s, s') || (!optimistic && GivesUpEmpty(s, s'))
  {
    hide SlotOk, LooksEmpty, Wrap, Occupied;
  }

  /** Every step is one of the producer or one of the consumer, and leaves the other one alone. */
  lemma StepOfOne(c: Config, kind: Kind, s: State, s': State)
    requires Next(c, kind, s, s')
    ensures || (&& s'.producer == s.producer && s'.pushed == s.pushed
                && (ConsumerBusy(s) ==> SomeConsumes(c, kind, s, s')))
            || (&& s'.consumer == s.consumer && s'.popped == s.popped
                && (ProducerBusy(s) ==> SomeProduces(c, kind, s, s')))
  {
    hide Wrap, LooksFull, LooksEmpty, Occupied;
    if lag: nat :| Produces(c, kind, s, s', lag) {
      assert SomeProduces(c, kind, s, s');
    } else if lag: nat :| Consumes(c, kind, s, s', lag) {
      assert SomeConsumes(c, kind, s, s');
    }
  }

  ghost predicate SomeProduces(c: Config, kind: Kind, s: State, s': State) {
    exists lag :: Produces(c, kind, s, s', lag)
  }

  ghost predicate SomeConsumes(c: Config, kind: Kind, s: State, s': State) {
    exists lag :: Consumes(c, kind, s, s', lag)
  }

  lemma PushStep(c: Config, kind: Kind, s: State, s': State, e: int, optimistic: bool)
    requires Inv(c, kind, s) && Next(c, kind, s, s') && ProducerBusy(s) && PcOfPush(s.producer, e, optimistic)
    ensures if ProducerBusy(s') then PcOfPush(s'.producer, e, optimistic) && s'.pushed == s.pushed
            else HasPushed(s, s', e) || (!optimistic && GivesUpFull(c, s, s'))
  {
    hide Next, Inv, Produce, HasPushed, GivesUpFull;
    StepOfOne(c, kind, s, s');
    if s'.producer != s.producer || s'.pushed != s.pushed {
      var lag: nat :| Produces(c, kind, s, s', lag);
      ProduceInCall(c, kind, s, lag, e, optimistic);
    }
  }

  lemma PopStep(c: Config, kind: Kind, s: State, s': State, optimistic: bool)
    requires Inv(c, kind, s) && Next(c, kind, s, s') && ConsumerBusy(s) && PcOfPop(s.consumer, optimistic)
    ensures if ConsumerBusy(s') then PcOfPop(s'.consumer, optimistic) && s'.popped == s.popped
            else HasPopped(s, s, s') || (!optimistic && GivesUpEmpty(s, s'))
  {
    hide Next, Inv, Consume, HasPopped, GivesUpEmpty;
    StepOfOne(c, kind, s, s');
    if s'.consumer != s.consumer || s'.popped != s.popped {
      var lag: nat :| Consumes(c, kind, s, s', lag);
      ConsumeInCall(c, kind, s, lag, optimistic);
    }
  }

  lemma PushStart(c: Config, kind: Kind, s: State, s': State, e: int, optimistic: bool)
    requires ProducerBegins(c, kind, s, s', e, optimistic)
    ensures PcOfPush(s'.producer, e, optimistic) && s'.pushed == s.pushed
  {
  }

  lemma PopStart(s: State, s': State, optimistic: bool)
    requires ConsumerBegins(s, s', optimistic)
    ensures PcOfPop(s'.consumer, optimistic) && s'.popped == s.popped
  {
  }

  lemma {:induction false} PushPath(c: Config, kind: Kind, tr: seq<State>, b: nat, k: nat, e: int, optimistic: bool)
    requires Run(c, kind, tr) && InPush(c, kind, tr, b, k, e, optimistic)
    ensures PcOfPush(tr[k].producer, e, optimistic) && tr[k].pushed == tr[b].pushed
    decreases k
  {
    hide Next, Inv, PcOfPush, ProducerBegins;
    if k == b + 1 {
      PushStart(c, kind, tr[b], tr[k], e, optimistic);
    } else {
      PushPath(c, kind, tr, b, k - 1, e, optimistic);
      RunInv(c, kind, tr, k - 1);
      assert Next(c, kind, tr[k - 1], tr[k - 1 + 1]) && ProducerBusy(tr[k - 1]) && ProducerBusy(tr[k]);
      PushStep(c, kind, tr[k - 1], tr[k], e, optimistic);
    }
  }

  lemma {:induction false} PopPath(c: Config, kind: Kind, tr: seq<State>, b: nat, k: nat, optimistic: bool)
    requires Run(c, kind, tr) && InPop(tr, b, k, optimistic)
    ensures PcOfPop(tr[k].consumer, optimistic) && tr[k].popped == tr[b].popped
    decreases k
  {
    hide Next, Inv, PcOfPop, ConsumerBegins;
    if k == b + 1 {
      PopStart(tr[b], tr[k], optimistic);
    } else {
      PopPath(c, kind, tr, b, k - 1, optimistic);
      RunInv(c, kind, tr, k - 1);
      assert Next(c, kind, tr[k - 1], tr[k - 1 + 1]) && ConsumerBusy(tr[k - 1]) && ConsumerBusy(tr[k]);
      PopStep(c, kind, tr[k - 1], tr[k], optimistic);
    }
  }

  /**
   * In every run, a call of push returns when it has pushed the element that it
   * was called with, just once; a `try_push` may also return without, after a
   * test. So the elements pushed are those of the successful calls, in order.
   */
  lemma PushIsAnswered(c: Config, kind: Kind, tr: seq<State>, b: nat, k: nat, e: int, optimistic: bool)
    requires Run(c, kind, tr) && InPush(c, kind, tr, b, k, e, optimistic) && k + 1 < |tr| && !ProducerBusy(tr[k + 1])
    ensures HasPushed(tr[b], tr[k + 1], e) || (!optimistic && GivesUpFull(c, tr[k], tr[k + 1]))
  {
    hide Next, Inv, PcOfPush, ProducerBegins, GivesUpFull;
    PushPath(c, kind, tr, b, k, e, optimistic);
    RunInv(c, kind, tr, k);
    assert Next(c, kind, tr[k], tr[k + 1]) && ProducerBusy(tr[k]);
    PushStep(c, kind, tr[k], tr[k + 1], e, optimistic);
  }

  /** And a call of pop returns the oldest element, just once. */
  lemma PopIsAnswered(c: Config, kind: Kind, tr: seq<State>, b: nat, k: nat, optimistic: bool)
    requires Run(c, kind, tr) && InPop(tr, b, k, optimistic) && k + 1 < |tr| && !ConsumerBusy(tr[k + 1])
    ensures HasPopped(tr[b], tr[k], tr[k + 1]) || (!optimistic && GivesUpEmpty(tr[k], tr[k + 1]))
  {
    hide Next, Inv, PcOfPop, ConsumerBegins, GivesUpEmpty;
    PopPath(c, kind, tr, b, k, optimistic);
    RunInv(c, kind, tr, k);
    assert Next(c, kind, tr[k], tr[k + 1]) && ConsumerBusy(tr[k]);
    PopStep(c, kind, tr[k], tr[k + 1], optimistic);
  }

  /** While a side is at rest, what it has pushed or popped, and its last result, stay as they are. */
  lemma RestStays(c: Config, kind: Kind, s: State, s': State)
    requires Next(c, kind, s, s')
    ensures !ProducerBusy(s) ==> s'.pushed == s.pushed && (s'.producer == s.producer || ProducerBusy(s'))
    ensures !ConsumerBusy(s) ==> s'.popped == s.popped && (s'.consumer == s.consumer || ConsumerBusy(s'))
  {
    hide Wrap, LooksFull, LooksEmpty, Occupied;
  }

  // ----- Progress -----

  /** How many accesses are still to come, at most, without those that wait. */
  function ProducerRank(p: Producer): nat {
    match p
    case TryPushLoad(_) => 6
    case TryPushCheck(_, _) => 5
    case PushLoad(_) => 5
    case AdvanceHead(_, _) => 4
    case PutWait(_, _) => 3
    case PutWrite(_, _) => 2
    case PutRelease(_, _) => 1
    case _ => 0
  }

  function ConsumerRank(p: Consumer): nat {
    match p
    case TryPopLoad => 6
    case TryPopCheck(_) => 5
    case PopLoad => 5
    case AdvanceTail(_) => 4
    case TakeWait(_) => 3
    case TakeRead(_) => 2
    case TakeRelease(_, _) => 1
    case _ => 0
  }

  /** Every access of the producer in a call brings it nearer to its return, unless it waits in a full queue. */
  lemma ProducerAdvances(c: Config, kind: Kind, s: State, lag: nat)
    requires Inv(c, kind, s) && ProducerBusy(s) && lag <= Tails(s)
    ensures var s' := Produce(c, kind, s, lag);
            if s.producer.PutWait? && |Contents(s)| == c.size then s' == s
            else ProducerRank(s'.producer) < ProducerRank(s.producer)
  {
    hide SlotOk, LooksFull, Wrap;
    BlockedIff(c, kind, s);
  }

  lemma ConsumerAdvances(c: Config, kind: Kind, s: State, lag: nat)
    requires Inv(c, kind, s) && ConsumerBusy(s) && lag <= Heads(s)
    ensures var s' := Consume(c, kind, s, lag);
            if s.consumer.TakeWait? && Contents(s) == [] then s' == s
            else ConsumerRank(s'.consumer) < ConsumerRank(s.consumer)
  {
    hide SlotOk, LooksEmpty, Wrap;
    BlockedIff(c, kind, s);
  }

  /** A load of the other index may return any value that it has had, and the test decides on that value. */
  lemma LoadsMayBeStale(c: Config, kind: Kind, s: State)
    requires Inv(c, kind, s)
    ensures forall lag: nat | lag <= Tails(s) && s.producer.TryPushCheck? ::
              var full := LooksFull(s.producer.head, Wrap(Tails(s) - lag), c.size);
              Produce(c, kind, s, lag).producer == ProducerDone(Q.Full) <==> full
    ensures forall lag: nat | lag <= Heads(s) && s.consumer.TryPopCheck? ::
              var empty := LooksEmpty(Wrap(Heads(s) - lag), s.consumer.tail);
              Consume(c, kind, s, lag).consumer == ConsumerDone(Q.Empty) <==> empty
  {
    hide SlotOk, LooksFull, LooksEmpty, Wrap;
  }

  ghost predicate Steps(c: Config, kind: Kind, tr: seq<State>) {
    |tr| > 0 && forall k | 0 <= k < |tr| - 1 :: Next(c, kind, tr[k], tr[k + 1])
  }

  lemma OneStepMore(c: Config, kind: Kind, s: State, rest: seq<State>)
    requires Steps(c, kind, rest) && Next(c, kind, s, rest[0])
    ensures Steps(c, kind, [s] + rest)
  {
    hide Next;
    var tr := [s] + rest;
    forall k | 0 <= k < |tr| - 1
      ensures Next(c, kind, tr[k], tr[k + 1])
    {
      if k > 0 {
        assert Next(c, kind, rest[k - 1], rest[k - 1 + 1]);
      }
    }
  }

  /** In a queue with room, a call of the producer can be finished by the producer alone. */
  lemma {:induction false} FinishPush(c: Config, kind: Kind, s: State, e: int) returns (tr: seq<State>)
    requires Inv(c, kind, s) && ProducerBusy(s) && PcOfPush(s.producer, e, true) && |Contents(s)| < c.size
    ensures Steps(c, kind, tr) && tr[0] == s && |tr| <= 1 + ProducerRank(s.producer)
    ensures HasPushed(s, tr[|tr| - 1], e) && tr[|tr| - 1].consumer == s.consumer
    decreases ProducerRank(s.producer)
  {
    hide Next, Inv, Produce, PcOfPush, ProducerRank;
    ProducerShape(c, kind, s);
    var s' := Produce(c, kind, s, 0);
    ProducerAdvances(c, kind, s, 0);
    ProduceInCall(c, kind, s, 0, e, true);
    ProducesNext(c, kind, s);
    if ProducerBusy(s') {
      var rest := FinishPush(c, kind, s', e);
      tr := [s] + rest;
      OneStepMore(c, kind, s, rest);
    } else {
      tr := [s, s'];
    }
  }

  lemma ProducerShape(c: Config, kind: Kind, s: State)
    requires Inv(c, kind, s)
    ensures Shape(c, s) && |s.popped| <= |s.pushed|
  {
  }

  lemma ProducesNext(c: Config, kind: Kind, s: State)
    requires Inv(c, kind, s)
    ensures Shape(c, s) && Next(c, kind, s, Produce(c, kind, s, 0)) && Inv(c, kind, Produce(c, kind, s, 0))
    ensures Produce(c, kind, s, 0).consumer == s.consumer && Produce(c, kind, s, 0).popped == s.popped
  {
    ProduceKeepsInv(c, kind, s, 0);
    assert Produces(c, kind, s, Produce(c, kind, s, 0), 0);
    hide Inv, Wrap, LooksFull, Occupied;
  }

  /** In a queue with elements, a call of the consumer can be finished by the consumer alone. */
  lemma {:induction false} FinishPop(c: Config, kind: Kind, s: State) returns (tr: seq<State>)
    requires Inv(c, kind, s) && ConsumerBusy(s) && PcOfPop(s.consumer, true) && Contents(s) != []
    ensures Steps(c, kind, tr) && tr[0] == s && |tr| <= 1 + ConsumerRank(s.consumer)
    ensures HasPopped(s, s, tr[|tr| - 1]) && tr[|tr| - 1].producer == s.producer
    decreases ConsumerRank(s.consumer)
  {
    hide Next, Inv, Consume, PcOfPop, ConsumerRank;
    ProducerShape(c, kind, s);
    var s' := Consume(c, kind, s, 0);
    ConsumerAdvances(c, kind, s, 0);
    ConsumeInCall(c, kind, s, 0, true);
    ConsumesNext(c, kind, s);
    if ConsumerBusy(s') {
      var rest := FinishPop(c, kind, s');
      tr := [s] + rest;
      OneStepMore(c, kind, s, rest);
    } else {
      tr := [s, s'];
    }
  }

  lemma ConsumesNext(c: Config, kind: Kind, s: State)
    requires Inv(c, kind, s)
    ensures Shape(c, s) && Next(c, kind, s, Consume(c, kind, s, 0)) && Inv(c, kind, Consume(c, kind, s, 0))
    ensures Consume(c, kind, s, 0).producer == s.producer && Consume(c, kind, s, 0).pushed == s.pushed
  {
    ConsumeKeepsInv(c, kind, s, 0);
    assert Consumes(c, kind, s, Consume(c, kind, s, 0), 0);
    hide Inv, Wrap, LooksEmpty, Occupied;
  }

  /** Whatever has happened before, a producer at rest can push an element into a queue with room, on its own. */
  lemma PushOnce(c: Config, kind: Kind, s: State, e: int) returns (tr: seq<State>)
    requires Inv(c, kind, s) && !ProducerBusy(s) && |Contents(s)| < c.size && (kind == NilSlots ==> e != c.nil)
    ensures Steps(c, kind, tr) && tr[0] == s && |tr| <= 7 && HasPushed(s, tr[|tr| - 1], e)
  {
    var s' := s.(producer := PushLoad(e));
    assert ProducerBegins(c, kind, s, s', e, true);
    NextKeepsInv(c, kind, s, s');
    hide Next, Inv;
    var rest := FinishPush(c, kind, s', e);
    tr := [s] + rest;
    OneStepMore(c, kind, s, rest);
  }

  /** And a consumer at rest can pop the oldest element of a queue that is not empty. */
  lemma PopOnce(c: Config, kind: Kind, s: State) returns (tr: seq<State>)
    requires Inv(c, kind, s) && !ConsumerBusy(s) && Contents(s) != []
    ensures Steps(c, kind, tr) && tr[0] == s && |tr| <= 7 && HasPopped(s, s, tr[|tr| - 1])
  {
    var s' := s.(consumer := PopLoad);
    assert ConsumerBegins(s, s', true);
    NextKeepsInv(c, kind, s, s');
    hide Next, Inv;
    var rest := FinishPop(c, kind, s');
    tr := [s] + rest;
    OneStepMore(c, kind, s, rest);
  }
}
