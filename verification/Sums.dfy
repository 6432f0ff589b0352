/** Finite sums and bags, and how one changed term changes them. */
module Sums {
  ghost function Sum(s: seq<int>): int {
    if s == [] then 0 else s[0] + Sum(s[1..])
  }

  lemma SumUpdate(s: seq<int>, i: nat, x: int)
    requires i < |s|
    ensures Sum(s[i := x]) == Sum(s) - s[i] + x
  {
    if i == 0 {
      assert s[i := x][1..] == s[1..];
    } else {
      SumUpdate(s[1..], i - 1, x);
      assert s[i := x][1..] == s[1..][i - 1 := x];
    }
  }

  lemma {:induction false} SumAppend(a: seq<int>, b: seq<int>)
    ensures Sum(a + b) == Sum(a) + Sum(b)
  {
    if a == [] {
      assert a + b == b;
    } else {
      SumAppend(a[1..], b);
      assert (a + b)[1..] == a[1..] + b;
    }
  }

  /** Non-negative terms: the sum is at least each of them, and zero only if all are. */
  lemma {:induction false} SumAtLeast(s: seq<int>, i: nat)
    requires forall k :: 0 <= k < |s| ==> s[k] >= 0
    requires i < |s|
    ensures Sum(s) >= s[i]
  {
    SumNonNegative(s[1..]);
    if i > 0 {
      SumAtLeast(s[1..], i - 1);
    }
  }

  lemma {:induction false} SumNonNegative(s: seq<int>)
    requires forall k :: 0 <= k < |s| ==> s[k] >= 0
    ensures Sum(s) >= 0
  {
    if s != [] {
      SumNonNegative(s[1..]);
    }
  }

  lemma {:induction false} SumConstant(s: seq<int>, x: int)
    requires forall k :: 0 <= k < |s| ==> s[k] == x
    ensures Sum(s) == |s| * x
  {
    if s != [] {
      SumConstant(s[1..], x);
    }
  }

  /** Sums depend only on the bag of their terms. */
  lemma {:induction false} SumOfBag(a: seq<int>, b: seq<int>)
    requires multiset(a) == multiset(b)
    ensures Sum(a) == Sum(b)
  {
    if a == [] {
      assert |multiset(b)| == 0;
    } else {
      assert a[0] in multiset(b);
      var i :| 0 <= i < |b| && b[i] == a[0];
      var rest := b[..i] + b[i + 1..];
      SameRest(a, b, i);
      SumOfBag(a[1..], rest);
      SumWithout(b, i);
    }
  }

  lemma SameRest(a: seq<int>, b: seq<int>, i: nat)
    requires multiset(a) == multiset(b) && a != [] && i < |b| && b[i] == a[0]
    ensures multiset(a[1..]) == multiset(b[..i] + b[i + 1..])
  {
    assert a == [a[0]] + a[1..];
    assert b == b[..i] + [b[i]] + b[i + 1..];
    assert multiset(a[1..]) == multiset(a) - multiset{a[0]};
    assert multiset(b[..i] + b[i + 1..]) == multiset(b) - multiset{b[i]};
  }

  lemma SumWithout(b: seq<int>, i: nat)
    requires i < |b|
    ensures Sum(b) == b[i] + Sum(b[..i] + b[i + 1..])
  {
    SumAppend(b[..i], b[i..]);
    SumAppend(b[..i], b[i + 1..]);
    assert b[..i] + b[i..] == b;
    assert b[i..][1..] == b[i + 1..];
  }

  ghost function Bag(s: seq<multiset<int>>): multiset<int> {
    if s == [] then multiset{} else s[0] + Bag(s[1..])
  }

  lemma BagUpdate(s: seq<multiset<int>>, i: nat, x: multiset<int>)
    requires i < |s|
    ensures Bag(s[i := x]) + s[i] == Bag(s) + x
  {
    if i == 0 {
      assert s[i := x][1..] == s[1..];
    } else {
      BagUpdate(s[1..], i - 1, x);
      assert s[i := x][1..] == s[1..][i - 1 := x];
      calc {
        Bag(s[i := x]) + s[i];
        s[0] + Bag(s[1..][i - 1 := x]) + s[i];
        s[0] + (Bag(s[1..][i - 1 := x]) + s[1..][i - 1]);
        s[0] + (Bag(s[1..]) + x);
        Bag(s) + x;
      }
    }
  }

  lemma {:induction false} BagAppend(a: seq<multiset<int>>, b: seq<multiset<int>>)
    ensures Bag(a + b) == Bag(a) + Bag(b)
  {
    if a == [] {
      assert a + b == b;
    } else {
      BagAppend(a[1..], b);
      assert (a + b)[1..] == a[1..] + b;
    }
  }

  /** How often a value occurs in a bag of bags. */
  lemma {:induction false} BagCount(s: seq<multiset<int>>, x: int)
    ensures Bag(s)[x] == Sum(seq(|s|, i requires 0 <= i < |s| => s[i][x]))
  {
    if s != [] {
      BagCount(s[1..], x);
      assert seq(|s|, i requires 0 <= i < |s| => s[i][x])[1..]
          == seq(|s[1..]|, i requires 0 <= i < |s[1..]| => s[1..][i][x]);
    }
  }
}
