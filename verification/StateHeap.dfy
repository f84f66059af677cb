/** The scheduler's heap of states (`internal/services/scheduler/heap.go`) and the loops of Go's
  * `container/heap` that drive it through `Less`, `Swap`, `Push` and `Pop`. */
module StateHeaps {
  import opened Domain
  import opened Jobs
  import opened HeapOrder

  class State {
    var checkJob: CheckJob
    var nextDue: Time
    var inFlight: bool
    var index: int

    constructor (checkJob: CheckJob, nextDue: Time, index: int)
      ensures this.checkJob == checkJob && this.nextDue == nextDue && !inFlight && this.index == index
    {
      this.checkJob, this.nextDue, this.index := checkJob, nextDue, index;
      inFlight := false;
    }
  }

  class StateHeap {
    var items: seq<State>

    /** The states on the heap. */
    ghost var members: set<State>

    /** The due times at the heap's positions. */
    ghost var keys: seq<Time>

    constructor ()
      ensures items == [] && members == {} && keys == []
    {
      items, members, keys := [], {}, [];
    }

    ghost predicate Contained()
      reads this
    {
      forall i | 0 <= i < |items| :: items[i] in members
    }

    /** Each state on the heap sits at exactly one position, the one it carries. */
    ghost predicate Linked()
      reads this, members`index
    {
      && Contained()
      && (forall i | 0 <= i < |items| :: items[i].index == i)
      && (forall s | s in members :: 0 <= s.index < |items| && items[s.index] == s)
    }

    /** The keys are the due times, but for those of `odd`. */
    ghost predicate Keyed(odd: set<State>)
      reads this, items`nextDue
    {
      && |keys| == |items|
      && forall i | 0 <= i < |items| && items[i] !in odd :: keys[i] == items[i].nextDue
    }

    /** The back-indices and the heap order, together. */
    ghost predicate WellFormed()
      reads this, members`index, members`nextDue
    {
      Linked() && Keyed({}) && Ordered(keys)
    }

    predicate Less(i: nat, j: nat)
      requires i < |items| && j < |items|
      reads this, items
    {
      items[i].nextDue < items[j].nextDue
    }

    method Swap(i: nat, j: nat)
      requires i < |items| && j < |items| && Contained() && Keyed({})
      modifies this`items, this`keys, members`index
      ensures items == Swapped(old(items), i, j) && keys == Swapped(old(keys), i, j)
      ensures Contained() && Keyed({}) && (old(Linked()) ==> Linked())
    {
      items := items[i := items[j]][j := items[i]];
      keys := Swapped(keys, i, j);
      items[i].index := i;
      items[j].index := j;
    }

    /** `heap.go` Push: append and record the position. */
    method Push(item: State)
      requires Contained() && Keyed({})
      modifies this, item`index
      ensures items == old(items) + [item] && item.index == |old(items)|
      ensures members == old(members) + {item} && keys == old(keys) + [item.nextDue]
      ensures Contained() && Keyed({})
      ensures old(Linked()) && item !in old(members) ==> Linked()
    {
      item.index := |items|;
      items := items + [item];
      members := members + {item};
      keys := keys + [item.nextDue];
    }

    /** `heap.go` Pop: drop the last state and clear its position. */
    method Pop() returns (item: State)
      requires items != [] && Linked() && Keyed({})
      modifies this, members`index
      ensures old(items) == items + [item] && item.index == -1
      ensures members == old(members) - {item} && item in old(members)
      ensures keys == old(keys)[..|items|]
      ensures Linked() && Keyed({})
    {
      item := items[|items| - 1];
      item.index := -1;
      items := items[..|items| - 1];
      members := members - {item};
      keys := keys[..|items|];
    }

    /** `up`: lift the state at `start` while it is due before its parent. */
    method Up(start: nat, ghost n: nat)
      requires start < n <= |items| <= n + 1 && Contained() && Keyed({})
      modifies this`items, this`keys, members`index
      ensures |items| == old(|items|) && (n < |items| ==> items[n] == old(items)[n])
      ensures Contained() && Keyed({}) && (old(Linked()) ==> Linked())
      ensures old(OrderedAround(keys, n, 0, start) && ChildrenHold(keys, n, start)) ==> OrderedFrom(keys, n, 0)
    {
      ghost var ready := OrderedAround(keys, n, 0, start) && ChildrenHold(keys, n, start);
      ghost var linked := Linked();
      var j: nat := start;
      while true
        invariant |items| == old(|items|) && j < n
        invariant n < |items| ==> items[n] == old(items)[n]
        invariant Contained() && Keyed({}) && (linked ==> Linked())
        invariant ready ==> OrderedAround(keys, n, 0, j) && ChildrenHold(keys, n, j)
        decreases j
      {
        // (j - 1) / 2 truncates to 0 at the root
        var i: nat := if j == 0 then 0 else (j - 1) / 2;
        if i == j || !Less(j, i) {
          break;
        }
        if ready { HoleLifts(keys, n, j); }
        Swap(i, j);
        j := i;
      }
      if ready { UpDone(keys, n, j); }
    }

    /** One turn of `down`'s loop: exchange the state at `i` with its smaller child, if that one is due earlier. */
    method DownTurn(i: nat, n: nat, ghost lo: nat) returns (j: nat)
      requires i <= n <= |items| && lo <= i && Contained() && Keyed({})
      modifies this`items, this`keys, members`index
      ensures |items| == old(|items|) && (n < |items| ==> items[n] == old(items)[n])
      ensures Contained() && Keyed({}) && (old(Linked()) ==> Linked())
      ensures j == i ==> items == old(items) && keys == old(keys) && ChildrenHold(keys, n, i)
      ensures j != i ==> i < j < n
      ensures j != i && old(OrderedAround(keys, n, lo, i)) ==> OrderedAround(keys, n, lo, j) && LinkHolds(keys, j)
    {
      j := 2 * i + 1;
      if j < n {
        if j + 1 < n && Less(j + 1, j) {
          j := j + 1;
        }
        if Less(j, i) {
          if OrderedAround(keys, n, lo, i) { HoleSinks(keys, n, lo, i, j); }
          Swap(i, j);
          return;
        }
      }
      DownDone(keys, n, i);
      j := i;
    }

    /** `down`: sink the state at `start` within the first `n` positions; reports whether it moved. */
    method Down(start: nat, n: nat, ghost lo: nat) returns (moved: bool)
      requires start <= n <= |items| <= n + 1 && lo <= start && Contained() && Keyed({})
      modifies this`items, this`keys, members`index
      ensures |items| == old(|items|) && (n < |items| ==> items[n] == old(items)[n])
      ensures Contained() && Keyed({}) && (old(Linked()) ==> Linked())
      ensures !moved ==> items == old(items) && keys == old(keys) && ChildrenHold(keys, n, start)
      ensures moved && old(OrderedAround(keys, n, lo, start)) ==> OrderedFrom(keys, n, lo)
    {
      ghost var ready, linked := OrderedAround(keys, n, lo, start), Linked();
      var i := start;
      while true
        invariant start <= i <= n && |items| == old(|items|)
        invariant n < |items| ==> items[n] == old(items)[n]
        invariant i == start ==> items == old(items) && keys == old(keys)
        invariant start < i ==> i < n
        invariant Contained() && Keyed({}) && (linked ==> Linked())
        invariant ready ==> OrderedAround(keys, n, lo, i) && (start < i ==> LinkHolds(keys, i))
        decreases n - i
      {
        var j := DownTurn(i, n, lo);
        if j == i {
          break;
        }
        i := j;
      }
      moved := i > start;
      if ready && moved { DownOrders(keys, n, lo, i); }
    }

    /** `heap.Init`: sink every inner position, last one first. */
    method Init()
      requires Linked() && Keyed({})
      modifies this`items, this`keys, members`index
      ensures |items| == old(|items|) && WellFormed()
    {
      var n := |items|;
      var i := n / 2 - 1;
      while i >= 0
        invariant -1 <= i < n && |items| == n
        invariant Linked() && Keyed({}) && OrderedFrom(keys, n, i + 1)
      {
        var moved := Down(i, n, i);
        i := i - 1;
      }
    }

    /** The tail of `heap.Fix` and `heap.Remove`: sink, and lift what did not sink. */
    method Resift(i: nat, n: nat)
      requires i < n <= |items| <= n + 1 && Linked() && Keyed({}) && OrderedAround(keys, n, 0, i)
      modifies this`items, this`keys, members`index
      ensures |items| == old(|items|) && (n < |items| ==> items[n] == old(items)[n])
      ensures Linked() && Keyed({}) && OrderedFrom(keys, n, 0)
    {
      var moved := Down(i, n, 0);
      if !moved {
        Up(i, n);
      }
    }

    /** `heap.Push`. A stranger joins a well-formed heap; a state already on it breaks the back-indices. */
    method HeapPush(item: State)
      requires Linked() && Keyed({item}) && Ordered(keys)
      modifies this, members`index, item`index
      ensures members == old(members) + {item}
      ensures item !in old(members) ==> WellFormed()
      ensures item in old(members) ==> !Linked()
    {
      ghost var stranger := item !in members;
      LinkedCount();
      if item in members {
        keys := keys[item.index := item.nextDue];
      }
      ghost var before := keys;
      Push(item);
      if stranger { AppendLeavesHole(before, item.nextDue); }
      Up(|items| - 1, |items|);
      LinkedCount();
    }

    /** `heap.Pop`: the state at the root leaves. */
    method HeapPop() returns (item: State)
      requires items != [] && WellFormed()
      modifies this, members`index
      ensures item == old(items[0]) && item.index == -1 && |items| == old(|items|) - 1
      ensures members == old(members) - {item} && item in old(members)
      ensures WellFormed()
    {
      ghost var before := keys;
      var n := |items| - 1;
      Swap(0, n);
      SwapLeavesHole(before, 0);
      var moved := Down(0, n, 0);
      OrderedPrefix(keys, n);
      item := Pop();
    }

    /** `heap.Remove`. */
    method Remove(i: nat) returns (item: State)
      requires i < |items| && WellFormed()
      modifies this, members`index
      ensures item == old(items[i]) && item.index == -1
      ensures members == old(members) - {item} && item in old(members)
      ensures WellFormed()
    {
      ghost var before := keys;
      var n := |items| - 1;
      if n != i {
        Swap(i, n);
        SwapLeavesHole(before, i);
        Resift(i, n);
      }
      OrderedPrefix(keys, n);
      item := Pop();
    }

    /** `heap.Fix`, after the due time of the state at `i` changed. */
    method Fix(i: nat)
      requires i < |items| && Linked() && Keyed({items[i]}) && Ordered(keys)
      modifies this`items, this`keys, members`index
      ensures WellFormed()
    {
      RekeyLeavesHole(keys, i, items[i].nextDue);
      keys := keys[i := items[i].nextDue];
      Resift(i, |items|);
    }

    lemma LinkedCount()
      ensures Linked() ==> |items| == |members|
    {
      if Linked() { CountMembers(items, members); }
    }

    /** The root of a well-formed heap is due no later than any state on it. */
    lemma RootIsEarliest(s: State)
      requires WellFormed() && s in members
      ensures items[0].nextDue <= s.nextDue
    {
      RootIsLeast(keys, s.index);
    }
  }

  lemma {:induction false} CountMembers(items: seq<State>, members: set<State>)
    requires forall i | 0 <= i < |items| :: items[i] in members && items[i].index == i
    requires forall s | s in members :: 0 <= s.index < |items| && items[s.index] == s
    ensures |items| == |members|
  {
    if items != [] {
      var n := |items| - 1;
      CountMembers(items[..n], members - {items[n]});
    }
  }
}
