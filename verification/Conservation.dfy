/** Nothing is lost, duplicated or corrupted: what has been stored is what has been taken plus what is in the slots. */
module Conservation {
  import opened SlotMap
  import opened Protocol

  function StoredValues(log: seq<Entry>): seq<int> {
    seq(|log|, k requires 0 <= k < |log| => log[k].v)
  }

  function TakenValues(log: seq<Exit>): seq<int> {
    seq(|log|, k requires 0 <= k < |log| => log[k].v)
  }

  function Content(cell: int, nil: int): seq<int> {
    if cell == nil then [] else [cell]
  }

  ghost function AllStored(stored: seq<seq<Entry>>): multiset<int> {
    if stored == [] then multiset{} else multiset(StoredValues(stored[0])) + AllStored(stored[1..])
  }

  ghost function AllTaken(taken: seq<seq<Exit>>): multiset<int> {
    if taken == [] then multiset{} else multiset(TakenValues(taken[0])) + AllTaken(taken[1..])
  }

  ghost function AllContents(cells: seq<int>, nil: int): multiset<int> {
    if cells == [] then multiset{} else multiset(Content(cells[0], nil)) + AllContents(cells[1..], nil)
  }

  /** The values stored in a slot are the ones taken from it, in the same order, and then the one it holds. */
  lemma SlotIsFifo(nil: int, cell: int, stored: seq<Entry>, taken: seq<Exit>)
    requires LogsOk(nil, cell, stored, taken)
    ensures StoredValues(stored) == TakenValues(taken) + Content(cell, nil)
  {
  }

  lemma {:induction false} SlotsConserve(nil: int, cells: seq<int>, stored: seq<seq<Entry>>, taken: seq<seq<Exit>>)
    requires |cells| == |stored| == |taken|
    requires forall r | 0 <= r < |cells| :: LogsOk(nil, cells[r], stored[r], taken[r])
    ensures AllStored(stored) == AllTaken(taken) + AllContents(cells, nil)
  {
    if cells != [] {
      SlotIsFifo(nil, cells[0], stored[0], taken[0]);
      assert multiset(StoredValues(stored[0])) == multiset(TakenValues(taken[0])) + multiset(Content(cells[0], nil));
      SlotsConserve(nil, cells[1..], stored[1..], taken[1..]);
    }
  }

  /** Conservation, in every state of every run that mixes all the operations freely. */
  lemma RunConserves(c: Config, tr: seq<State>, k: nat)
    requires Run(c, tr) && k < |tr|
    ensures AllStored(tr[k].stored) == AllTaken(tr[k].taken) + AllContents(tr[k].cells, c.nil)
    ensures |tr[k].stored| == |tr[k].taken| == |tr[k].cells| == c.size
    ensures forall r | 0 <= r < c.size ::
              StoredValues(tr[k].stored[r]) == TakenValues(tr[k].taken[r]) + Content(tr[k].cells[r], c.nil)
  {
    RunInv(c, tr, k);
    var s := tr[k];
    forall r | 0 <= r < c.size
      ensures LogsOk(c.nil, s.cells[r], s.stored[r], s.taken[r])
      ensures StoredValues(s.stored[r]) == TakenValues(s.taken[r]) + Content(s.cells[r], c.nil)
    {
      assert SlotOk(c, s, r);
      SlotIsFifo(c.nil, s.cells[r], s.stored[r], s.taken[r]);
    }
    SlotsConserve(c.nil, s.cells, s.stored, s.taken);
  }
}
