/** The order theory behind the sift loops of `container/heap`, on the sequence of keys alone. */
module HeapOrder {

  function Parent(i: nat): (p: nat)
    requires 1 <= i
    ensures p < i
  {
    (i - 1) / 2
  }

  predicate LinkHolds(keys: seq<int>, c: nat)
    requires 1 <= c < |keys|
  {
    keys[Parent(c)] <= keys[c]
  }

  /** No key is smaller than the key at its parent's position. */
  ghost predicate Ordered(keys: seq<int>) {
    forall c | 1 <= c < |keys| :: LinkHolds(keys, c)
  }

  /** Among the first `n` keys, every link whose parent is at least `lo` holds. */
  ghost predicate OrderedFrom(keys: seq<int>, n: nat, lo: nat)
    requires n <= |keys|
  {
    forall c | 1 <= c < n && lo <= Parent(c) :: LinkHolds(keys, c)
  }

  /** As `OrderedFrom`, save the links that touch `hole`; below the hole, keys still respect the hole's parent. */
  ghost predicate OrderedAround(keys: seq<int>, n: nat, lo: nat, hole: nat)
    requires n <= |keys| && hole <= n
  {
    && (forall c | 1 <= c < n && lo <= Parent(c) && c != hole && Parent(c) != hole :: LinkHolds(keys, c))
    && (1 <= hole && lo <= Parent(hole) ==>
          forall c | 1 <= c < n && Parent(c) == hole :: keys[Parent(hole)] <= keys[c])
  }

  /** The links from `i` to its children hold. */
  ghost predicate ChildrenHold(keys: seq<int>, n: nat, i: nat)
    requires n <= |keys|
  {
    forall c | 1 <= c < n && Parent(c) == i :: LinkHolds(keys, c)
  }

  function Swapped<T>(s: seq<T>, i: nat, j: nat): (r: seq<T>)
    requires i < |s| && j < |s|
    ensures |r| == |s|
  {
    s[i := s[j]][j := s[i]]
  }

  /** One turn of `up`: the hole moves to its parent. */
  lemma HoleLifts(keys: seq<int>, n: nat, j: nat)
    requires 1 <= j < n <= |keys| && !LinkHolds(keys, j)
    requires OrderedAround(keys, n, 0, j) && ChildrenHold(keys, n, j)
    ensures var r := Swapped(keys, Parent(j), j);
            OrderedAround(r, n, 0, Parent(j)) && ChildrenHold(r, n, Parent(j))
  {
    var r, p := Swapped(keys, Parent(j), j), Parent(j);
    forall c | 1 <= c < n && c != p
      ensures LinkHolds(r, c)
      ensures 1 <= p && Parent(c) == p ==> r[Parent(p)] <= r[c]
    {
      if 1 <= p {
        assert LinkHolds(keys, p);
      }
      if c != j {
        assert LinkHolds(keys, c);
      }
    }
  }

  /** The loop of `up` stops where the link above the hole holds. */
  lemma UpDone(keys: seq<int>, n: nat, j: nat)
    requires j < n <= |keys| && (j == 0 || LinkHolds(keys, j))
    requires OrderedAround(keys, n, 0, j) && ChildrenHold(keys, n, j)
    ensures OrderedFrom(keys, n, 0)
  {
  }

  /** In an ordered heap the root holds a least key. */
  lemma {:induction false} RootIsLeast(keys: seq<int>, i: nat)
    requires Ordered(keys) && i < |keys|
    ensures keys[0] <= keys[i]
  {
    if i > 0 {
      RootIsLeast(keys, Parent(i));
      assert LinkHolds(keys, i);
    }
  }

  /** `j` is the child of `i` that `down` compares with: no later than the other child. */
  ghost predicate SmallestChild(keys: seq<int>, n: nat, i: nat, j: nat)
    requires n <= |keys|
  {
    && (j == 2 * i + 1 || j == 2 * i + 2)
    && j < n
    && keys[j] <= keys[2 * i + 1]
    && (2 * i + 2 < n ==> keys[j] <= keys[2 * i + 2])
  }

  /** One turn of `down`: the hole moves to the smallest child, and its upward link holds. */
  lemma HoleSinks(keys: seq<int>, n: nat, lo: nat, i: nat, j: nat)
    requires n <= |keys| && i < n && lo <= i
    requires SmallestChild(keys, n, i, j) && keys[j] < keys[i]
    requires OrderedAround(keys, n, lo, i)
    ensures var r := Swapped(keys, i, j);
            OrderedAround(r, n, lo, j) && LinkHolds(r, j) && (i == 0 || Parent(i) < lo || LinkHolds(r, i))
  {
    var r := Swapped(keys, i, j);
    assert Parent(j) == i;
    assert forall c | 1 <= c < n && Parent(c) == i :: c == 2 * i + 1 || c == 2 * i + 2;
    forall c | 1 <= c < n && lo <= Parent(c) && c != j && Parent(c) != j
      ensures LinkHolds(r, c)
    {
      if c != i && Parent(c) != i {
        assert LinkHolds(keys, c);
      }
    }
    forall c | 1 <= c < n && Parent(c) == j
      ensures r[Parent(j)] <= r[c]
    {
      assert LinkHolds(keys, c);
    }
  }

  /** The loop of `down` stops where the links below the hole hold. */
  lemma DownDone(keys: seq<int>, n: nat, i: nat)
    requires n <= |keys| && (2 * i + 1 < n ==> keys[i] <= keys[2 * i + 1])
    requires 2 * i + 2 < n ==> keys[i] <= keys[2 * i + 2]
    ensures ChildrenHold(keys, n, i)
  {
    assert forall c | 1 <= c < n && Parent(c) == i :: c == 2 * i + 1 || c == 2 * i + 2;
  }

  lemma DownOrders(keys: seq<int>, n: nat, lo: nat, i: nat)
    requires n <= |keys| && i < n && OrderedAround(keys, n, lo, i) && ChildrenHold(keys, n, i)
    requires i == 0 || Parent(i) < lo || LinkHolds(keys, i)
    ensures OrderedFrom(keys, n, lo)
  {
  }

  /** After an append, only the link of the new key may be wrong. */
  lemma AppendLeavesHole(keys: seq<int>, key: int)
    requires Ordered(keys)
    ensures var n := |keys| + 1;
            OrderedAround(keys + [key], n, 0, n - 1) && ChildrenHold(keys + [key], n, n - 1)
  {
    forall c | 1 <= c < |keys|
      ensures LinkHolds(keys + [key], c)
    {
      assert LinkHolds(keys, c);
    }
  }

  /** Exchanging position `i` with the last one leaves a hole at `i` in the rest. */
  lemma SwapLeavesHole(keys: seq<int>, i: nat)
    requires Ordered(keys) && i < |keys|
    ensures OrderedAround(Swapped(keys, i, |keys| - 1), |keys| - 1, 0, i)
  {
    var n := |keys| - 1;
    var r := Swapped(keys, i, n);
    forall c | 1 <= c < n
      ensures c != i && Parent(c) != i ==> LinkHolds(r, c)
      ensures 1 <= i && Parent(c) == i ==> r[Parent(i)] <= r[c]
    {
      assert LinkHolds(keys, c);
      if 1 <= i {
        assert LinkHolds(keys, i);
      }
    }
  }

  /** A changed key leaves a hole at its position. */
  lemma RekeyLeavesHole(keys: seq<int>, i: nat, key: int)
    requires Ordered(keys) && i < |keys|
    ensures OrderedAround(keys[i := key], |keys|, 0, i)
  {
    forall c | 1 <= c < |keys|
      ensures c != i && Parent(c) != i ==> LinkHolds(keys[i := key], c)
      ensures 1 <= i && Parent(c) == i ==> keys[Parent(i)] <= keys[c]
    {
      assert LinkHolds(keys, c);
      if 1 <= i {
        assert LinkHolds(keys, i);
      }
    }
  }

  lemma OrderedPrefix(keys: seq<int>, n: nat)
    requires n <= |keys| && OrderedFrom(keys, n, 0)
    ensures Ordered(keys[..n])
  {
    forall c | 1 <= c < n
      ensures LinkHolds(keys[..n], c)
    {
      assert LinkHolds(keys, c);
    }
  }

}
