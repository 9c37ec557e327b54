/** Sequences of items addressed to calls, and how the in-place edits of a vector
    change the bag of calls they hold. */
module Bags {

  /** One call to `dispatch`. */
  type CallId = nat

  /** Something travelling with a call's reply sender. */
  datatype Addressed<+T> = Addressed(call: CallId, item: T)

  /** The calls of a sequence, with multiplicity. */
  function Bag<T>(s: seq<Addressed<T>>): multiset<CallId> {
    if s == [] then multiset{} else Bag(s[..|s| - 1]) + multiset{s[|s| - 1].call}
  }

  /** `Vec::swap_remove`: the last element takes the removed one's place. */
  function SwapRemove<T>(s: seq<T>, i: nat): (r: seq<T>)
    requires i < |s|
    ensures |r| == |s| - 1
  {
    s[i := s[|s| - 1]][..|s| - 1]
  }

  lemma SwapRemoveAt<T>(s: seq<T>, i: nat)
    requires i < |s|
    ensures forall j | 0 <= j < |s| - 1 :: SwapRemove(s, i)[j] == if j == i then s[|s| - 1] else s[j]
    ensures forall x <- SwapRemove(s, i) :: x in s
  {
  }

  lemma BagAppend<T>(s: seq<Addressed<T>>, x: Addressed<T>)
    ensures Bag(s + [x]) == Bag(s) + multiset{x.call}
  {
    assert (s + [x])[..|s|] == s;
  }

  lemma {:induction false} BagTail<T>(s: seq<Addressed<T>>)
    requires s != []
    ensures Bag(s[1..]) + multiset{s[0].call} == Bag(s)
  {
    var front := s[..|s| - 1];
    if front != [] {
      assert s[1..][..|s[1..]| - 1] == front[1..];
      BagTail(front);
    }
  }

  lemma AddBoth(a: multiset<CallId>, b: multiset<CallId>, c: multiset<CallId>, d: multiset<CallId>,
      e: multiset<CallId>)
    requires a + b == c + d
    ensures (a + e) + b == (c + e) + d
  {
    assert (a + e) + b == (a + b) + e;
    assert (c + e) + d == (c + d) + e;
  }

  lemma {:induction false} BagUpdate<T>(s: seq<Addressed<T>>, i: nat, x: Addressed<T>)
    requires i < |s|
    ensures Bag(s[i := x]) + multiset{s[i].call} == Bag(s) + multiset{x.call}
  {
    var n := |s| - 1;
    if i == n {
      assert s[i := x][..n] == s[..n];
    } else {
      assert s[i := x][..n] == s[..n][i := x];
      BagUpdate(s[..n], i, x);
      var b0, b1, last := Bag(s[..n]), Bag(s[..n][i := x]), multiset{s[n].call};
      assert Bag(s) == b0 + last;
      assert Bag(s[i := x]) == b1 + last;
      AddBoth(b1, multiset{s[i].call}, b0, multiset{x.call}, last);
    }
  }

  lemma SwapRemoveIs<T>(s: seq<T>, i: nat)
    requires i < |s|
    ensures SwapRemove(s, i) == if i == |s| - 1 then s[..|s| - 1] else s[..|s| - 1][i := s[|s| - 1]]
  {
  }

  lemma BagSwapRemove<T>(s: seq<Addressed<T>>, i: nat)
    requires i < |s|
    ensures Bag(SwapRemove(s, i)) + multiset{s[i].call} == Bag(s)
  {
    var n := |s| - 1;
    SwapRemoveIs(s, i);
    hide SwapRemove;
    assert Bag(s) == Bag(s[..n]) + multiset{s[n].call};
    hide Bag;
    if i != n {
      BagUpdate(s[..n], i, s[n]);
    }
  }

  /** A call in a sequence counts, and in two positions counts twice. */
  lemma BagAt<T>(s: seq<Addressed<T>>, i: nat)
    requires i < |s|
    ensures Bag(s)[s[i].call] >= 1
    ensures forall j | 0 <= j < |s| && j != i && s[j].call == s[i].call :: Bag(s)[s[i].call] >= 2
  {
    BagSwapRemove(s, i);
    forall j | 0 <= j < |s| && j != i && s[j].call == s[i].call
      ensures Bag(s)[s[i].call] >= 2
    {
      var rest := SwapRemove(s, i);
      var k := if j == |s| - 1 then i else j;
      assert rest[k] == s[j];
      BagSwapRemove(rest, k);
    }
  }
}
