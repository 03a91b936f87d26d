/** Enumerable.OrderBy, which every stage uses to walk events by time: a
    stable sort, given here as the order in which indices are visited. */
module Ordering {
  /** Index i is visited before index j: a smaller key first, equal keys in
      their original order. */
  predicate Before(keys: seq<real>, i: nat, j: nat)
    requires i < |keys| && j < |keys|
  {
    keys[i] < keys[j] || (keys[i] == keys[j] && i < j)
  }

  /** `order` visits every index of `keys` once, stably sorted by key. */
  predicate StableOrder(keys: seq<real>, order: seq<nat>)
  {
    |order| == |keys| && Sorted(keys, order) &&
    (forall i :: 0 <= i < |keys| ==> i in order)
  }

  /** OrderBy, as an insertion sort that places each index after every
      earlier index whose key is not larger. */
  method OrderBy(keys: seq<real>) returns (order: seq<nat>)
    ensures StableOrder(keys, order)
  {
    order := [];
    var i := 0;
    while i < |keys|
      invariant 0 <= i <= |keys|
      invariant |order| == i
      invariant forall k :: 0 <= k < |order| ==> order[k] < i
      invariant Sorted(keys, order)
      invariant forall j :: 0 <= j < i ==> j in order
    {
      var p := |order|;
      while p > 0 && keys[order[p - 1]] > keys[i]
        invariant 0 <= p <= |order|
        invariant forall k :: p <= k < |order| ==> keys[order[k]] > keys[i]
      {
        p := p - 1;
      }
      InsertKeepsOrder(keys, order, i, p);
      var next := order[..p] + [i] + order[p..];
      order := next;
      i := i + 1;
    }
  }

  /** In a stable order, the keys never decrease along the visit. */
  lemma StableOrderMonotone(keys: seq<real>, order: seq<nat>, a: nat, b: nat)
    requires StableOrder(keys, order)
    requires a <= b < |order|
    ensures keys[order[a]] <= keys[order[b]]
  {
    if a < b {
      assert Before(keys, order[a], order[b]);
    }
  }

  /** Sorted runs of a stable order. */
  predicate Sorted(keys: seq<real>, order: seq<nat>)
  {
    (forall k :: 0 <= k < |order| ==> order[k] < |keys|) &&
    (forall a, b :: 0 <= a < b < |order| ==> Before(keys, order[a], order[b]))
  }

  /** Inserting index i (larger than every index placed so far) after the
      entries whose key is not larger keeps the run sorted and adds i. */
  lemma InsertKeepsOrder(keys: seq<real>, order: seq<nat>, i: nat, p: nat)
    requires Sorted(keys, order) && i < |keys| && p <= |order|
    requires forall k :: 0 <= k < |order| ==> order[k] < i
    requires forall k :: p <= k < |order| ==> keys[order[k]] > keys[i]
    requires p > 0 ==> keys[order[p - 1]] <= keys[i]
    ensures Sorted(keys, order[..p] + [i] + order[p..])
    ensures forall j :: j in order || j == i ==> j in order[..p] + [i] + order[p..]
  {
    var next := order[..p] + [i] + order[p..];
    forall a, b | 0 <= a < b < |next|
      ensures Before(keys, next[a], next[b])
    {
      if a < p && b == p {
        assert keys[order[a]] <= keys[order[p - 1]] by {
          if a < p - 1 {
            assert Before(keys, order[a], order[p - 1]);
          }
        }
      } else if a < p && b > p {
        assert next[b] == order[b - 1];
      } else if a == p {
        assert next[b] == order[b - 1];
      } else if a > p {
        assert next[a] == order[a - 1] && next[b] == order[b - 1];
      }
    }
    forall j | j in order || j == i
      ensures j in next
    {
      if j in order {
        var k :| 0 <= k < |order| && order[k] == j;
        if k < p {
          assert next[k] == j;
        } else {
          assert next[k + 1] == j;
        }
      } else {
        assert next[p] == j;
      }
    }
  }

  /** Every index whose key is below the key visited at position k is
      visited before position k. */
  lemma SmallerKeysFirst(keys: seq<real>, order: seq<nat>, k: nat, x: real)
    requires StableOrder(keys, order) && k < |order| && x < keys[order[k]]
    ensures forall q :: 0 <= q < |order| && keys[order[q]] <= x ==> q < k
  {
    forall q | k <= q < |order|
      ensures keys[order[q]] > x
    {
      StableOrderMonotone(keys, order, k, q);
    }
  }

  /** Visit positions follow the keys: an index no later by key and index
      than another is visited no later. */
  lemma VisitedInKeyOrder(keys: seq<real>, order: seq<nat>, a: nat, b: nat)
    requires StableOrder(keys, order) && a < |order| && b < |order|
    requires keys[order[a]] < keys[order[b]] || (keys[order[a]] == keys[order[b]] && order[a] <= order[b])
    ensures a <= b
  {
  }

  /** A stable order visits no index twice. */
  lemma StableOrderDistinct(keys: seq<real>, order: seq<nat>)
    requires StableOrder(keys, order)
    ensures forall a, b :: 0 <= a < |order| && 0 <= b < |order| && a != b ==> order[a] != order[b]
  {
    forall a, b | 0 <= a < |order| && 0 <= b < |order| && a != b
      ensures order[a] != order[b]
    {
      if a < b {
        assert Before(keys, order[a], order[b]);
      } else {
        assert Before(keys, order[b], order[a]);
      }
    }
  }

  /** Where the insertion sort places a new key x among the first p visited
      entries: after the last one whose key is not larger. */
  function InsertPosition(keys: seq<real>, order: seq<nat>, x: real, p: nat): (r: nat)
    requires p <= |order| && forall k :: 0 <= k < |order| ==> order[k] < |keys|
    ensures r <= p
    ensures forall k :: r <= k < p ==> keys[order[k]] > x
    ensures r > 0 ==> keys[order[r - 1]] <= x
  {
    if p > 0 && keys[order[p - 1]] > x then InsertPosition(keys, order, x, p - 1) else p
  }

  /** The stable order as a function: the order OrderBy computes. */
  function StableSort(keys: seq<real>): (order: seq<nat>)
    ensures StableOrder(keys, order)
  {
    if keys == [] then []
    else
      var n := |keys| - 1;
      var o := StableSort(keys[..n]);
      SortedExtends(keys, o, n);
      var p := InsertPosition(keys, o, keys[n], |o|);
      InsertKeepsOrder(keys, o, n, p);
      assert forall j :: 0 <= j < |keys| ==> j in o || j == n;
      o[..p] + [n] + o[p..]
  }

  /** A run sorted for a prefix of the keys stays sorted for all of them. */
  lemma SortedExtends(keys: seq<real>, order: seq<nat>, n: nat)
    requires n <= |keys| && StableOrder(keys[..n], order)
    ensures Sorted(keys, order) && forall k :: 0 <= k < |order| ==> order[k] < n
  {
    forall a, b | 0 <= a < b < |order|
      ensures Before(keys, order[a], order[b])
    {
      assert Before(keys[..n], order[a], order[b]);
    }
  }

  /** There is only one stable order: the keys and the tie-break on indices
      decide every position. */
  lemma {:induction false} StableOrderUnique(keys: seq<real>, o1: seq<nat>, o2: seq<nat>)
    requires StableOrder(keys, o1) && StableOrder(keys, o2)
    ensures o1 == o2
  {
    SamePrefix(keys, o1, o2, |o1|);
  }

  lemma {:induction false} SamePrefix(keys: seq<real>, o1: seq<nat>, o2: seq<nat>, n: nat)
    requires StableOrder(keys, o1) && StableOrder(keys, o2) && n <= |o1|
    ensures forall k :: 0 <= k < n ==> o1[k] == o2[k]
  {
    if n > 0 {
      SamePrefix(keys, o1, o2, n - 1);
      SamePosition(keys, o1, o2, n - 1);
    }
  }

  /** When two stable orders agree before position p they agree at p: each
      visits the other's entry at p no earlier than p, and the entry that
      comes first by key and index is the same in both. */
  lemma SamePosition(keys: seq<real>, o1: seq<nat>, o2: seq<nat>, p: nat)
    requires StableOrder(keys, o1) && StableOrder(keys, o2) && p < |o1|
    requires forall k :: 0 <= k < p ==> o1[k] == o2[k]
    ensures o1[p] == o2[p]
  {
    StableOrderDistinct(keys, o1);
    var x, y := o1[p], o2[p];
    assert x < |keys| && y < |keys|;
    assert x in o2 && y in o1;
    var qx :| 0 <= qx < |o2| && o2[qx] == x;
    var qy :| 0 <= qy < |o1| && o1[qy] == y;
    forall k | 0 <= k < p
      ensures o2[k] != x
    {
      assert o2[k] == o1[k];
    }
    assert qx >= p;
  }

  /** The elements of xs in the order `order` visits them: what iterating
      an ordered sequence yields. */
  function Arranged<T>(xs: seq<T>, order: seq<nat>): (r: seq<T>)
    requires forall k :: 0 <= k < |order| ==> order[k] < |xs|
    ensures |r| == |order|
  {
    seq(|order|, k requires 0 <= k < |order| => xs[order[k]])
  }

  /** A sequence arranged in a stable order holds the same elements: the
      sort neither loses nor invents an entry. */
  lemma {:induction false} ArrangedMembers<T>(xs: seq<T>, keys: seq<real>, order: seq<nat>)
    requires |keys| == |xs| && StableOrder(keys, order)
    ensures forall x :: x in xs <==> x in Arranged(xs, order)
  {
    var r := Arranged(xs, order);
    forall x | x in xs ensures x in r {
      var i :| 0 <= i < |xs| && xs[i] == x;
      assert i in order;
      var k :| 0 <= k < |order| && order[k] == i;
      assert r[k] == x;
    }
  }
}
