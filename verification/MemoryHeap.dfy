/**
 * The pending heap of the in-memory backend: a binary heap in an array, ordered
 * by (RunAt, push number), with the sift-up and sift-down of container/heap.
 */
module MemoryHeap {
  import opened Wrappers
  import opened WorkQueue

  /** The number counts the pushes of a queue, so no two items compare equal. */
  datatype Item = Item(task: Task, number: nat)

  predicate Less(a: Item, b: Item) {
    if a.task.runAt != b.task.runAt then a.task.runAt < b.task.runAt else a.number < b.number
  }

  // ---------- The sorted queue the heap stands for ----------

  ghost predicate Sorted(q: seq<Item>) {
    forall i, j :: 0 <= i < j < |q| ==> Less(q[i], q[j])
  }

  /** x goes after everything that is not greater. */
  function InsertSorted(q: seq<Item>, x: Item): seq<Item> {
    if q == [] || Less(x, q[0]) then [x] + q else [q[0]] + InsertSorted(q[1..], x)
  }

  predicate Fresh(q: seq<Item>, number: nat) {
    forall i :: 0 <= i < |q| ==> q[i].number != number
  }

  lemma {:induction false} InsertAdds(q: seq<Item>, x: Item)
    ensures multiset(InsertSorted(q, x)) == multiset(q) + multiset{x}
    ensures forall y :: y in InsertSorted(q, x) <==> y == x || y in q
  {
    if q != [] && !Less(x, q[0]) {
      InsertAdds(q[1..], x);
      assert q == [q[0]] + q[1..];
    }
  }

  lemma {:induction false} InsertKeepsSorted(q: seq<Item>, x: Item)
    requires Sorted(q) && Fresh(q, x.number)
    ensures Sorted(InsertSorted(q, x))
  {
    if q == [] || Less(x, q[0]) {
      assert forall i :: 0 < i < |q| ==> Less(q[0], q[i]);
    } else {
      InsertKeepsSorted(q[1..], x);
      InsertAdds(q[1..], x);
      var rest := InsertSorted(q[1..], x);
      forall i | 0 <= i < |rest| ensures Less(q[0], rest[i]) {
        assert rest[i] in rest;
      }
    }
  }

  /** Whatever is not greater than x, or was pushed earlier for the same time, stays ahead of x. */
  lemma {:induction false} InsertIsFifo(q: seq<Item>, x: Item, i: nat)
    requires Sorted(q) && i < |q| && !Less(x, q[i])
    ensures i < |InsertSorted(q, x)| && InsertSorted(q, x)[i] == q[i]
  {
    if i > 0 {
      assert Less(q[0], q[i]);
      InsertIsFifo(q[1..], x, i - 1);
    }
  }

  // ---------- Heap order on sequences ----------

  function Parent(k: nat): nat
    requires k > 0
  {
    (k - 1) / 2
  }

  ghost predicate Heap(s: seq<Item>) {
    forall k :: 0 < k < |s| ==> !Less(s[k], s[Parent(k)])
  }

  /** Heap order everywhere but between j and its parent. */
  ghost predicate HeapButUp(s: seq<Item>, j: nat) {
    && j < |s|
    && (forall k :: 0 < k < |s| && k != j ==> !Less(s[k], s[Parent(k)]))
    && (forall k :: 0 < k < |s| && 0 < j && Parent(k) == j ==> !Less(s[k], s[Parent(j)]))
  }

  /** Heap order everywhere but between i and its children. */
  ghost predicate HeapButDown(s: seq<Item>, i: nat) {
    && (forall k :: 0 < k < |s| && Parent(k) != i ==> !Less(s[k], s[Parent(k)]))
    && (forall k :: 0 < k < |s| && 0 < i && Parent(k) == i ==> !Less(s[k], s[Parent(i)]))
  }

  function Swapped(s: seq<Item>, i: nat, j: nat): seq<Item>
    requires i < |s| && j < |s|
  {
    s[i := s[j]][j := s[i]]
  }

  lemma SwapPermutes(s: seq<Item>, i: nat, j: nat)
    requires i < |s| && j < |s|
    ensures multiset(Swapped(s, i, j)) == multiset(s)
  {
  }

  lemma UpStep(s: seq<Item>, j: nat)
    requires HeapButUp(s, j) && 0 < j && Less(s[j], s[Parent(j)])
    ensures HeapButUp(Swapped(s, j, Parent(j)), Parent(j))
  {
    var p := Parent(j);
    assert 0 < p ==> !Less(s[p], s[Parent(p)]);
  }

  lemma DownStep(s: seq<Item>, i: nat, j: nat)
    requires HeapButDown(s, i) && 0 < j < |s| && Parent(j) == i && Less(s[j], s[i])
    requires forall k :: 0 < k < |s| && Parent(k) == i ==> !Less(s[k], s[j])
    ensures HeapButDown(Swapped(s, i, j), j)
  {
  }

  lemma NoLesserChild(s: seq<Item>, i: nat, j: nat)
    requires HeapButDown(s, i) && 0 < j < |s| && Parent(j) == i && !Less(s[j], s[i])
    requires forall k :: 0 < k < |s| && Parent(k) == i ==> !Less(s[k], s[j])
    ensures Heap(s)
  {
  }

  lemma {:induction false} RootIsLeast(s: seq<Item>, k: nat)
    requires Heap(s) && k < |s|
    ensures !Less(s[k], s[0])
  {
    if k > 0 {
      RootIsLeast(s, Parent(k));
      assert !Less(s[k], s[Parent(k)]);
    }
  }

  /** The root of the heap is the head of the sorted queue with the same items. */
  lemma RootIsHead(s: seq<Item>, q: seq<Item>)
    requires Heap(s) && Sorted(q) && multiset(s) == multiset(q) && s != []
    ensures q != [] && s[0] == q[0]
  {
    SameLength(s, q);
    assert q[0] in multiset(s);
    assert s[0] in multiset(q);
    var k :| 0 <= k < |s| && s[k] == q[0];
    var j :| 0 <= j < |q| && q[j] == s[0];
    RootIsLeast(s, k);
    SortedHead(q, j);
  }

  lemma SameLength(s: seq<Item>, q: seq<Item>)
    requires multiset(s) == multiset(q)
    ensures |s| == |q|
  {
    assert |s| == |multiset(s)| == |multiset(q)| == |q|;
  }

  lemma SortedHead(q: seq<Item>, j: nat)
    requires Sorted(q) && j < |q|
    ensures j == 0 || Less(q[0], q[j])
  {
  }

  class PendingHeap {
    var items: array<Item>
    var len: nat
    ghost var queue: seq<Item>

    ghost predicate Shaped()
      reads this, items
    {
      len <= items.Length && Sorted(queue)
    }

    ghost predicate Valid()
      reads this, items
    {
      Shaped() && Heap(items[..len]) && multiset(items[..len]) == multiset(queue)
    }

    constructor ()
      ensures Valid() && fresh(items) && queue == []
    {
      new;
      items := new Item[8](_ => Item(Task(0, "", 0, 0, 0, 0, "", None), 0));
      len, queue := 0, [];
    }

    method Swap(i: nat, j: nat)
      requires i < len <= items.Length && j < len
      modifies items
      ensures items[..len] == Swapped(old(items[..len]), i, j)
    {
      items[i], items[j] := items[j], items[i];
    }

    method Up(start: nat)
      requires Shaped() && start < len && HeapButUp(items[..len], start)
      modifies items
      ensures Heap(items[..len]) && multiset(items[..len]) == multiset(old(items[..len]))
    {
      var j: nat := start;
      while j > 0
        invariant j < len && HeapButUp(items[..len], j)
        invariant multiset(items[..len]) == multiset(old(items[..len]))
      {
        var i := Parent(j);
        if !Less(items[j], items[i]) {
          break;
        }
        UpStep(items[..len], j);
        SwapPermutes(items[..len], j, i);
        Swap(j, i);
        j := i;
      }
    }

    /** The lesser child of i. */
    method LesserChild(i: nat) returns (j: nat)
      requires 2 * i + 1 < len <= items.Length
      ensures 0 < j < len && Parent(j) == i
      ensures forall k :: 0 < k < len && Parent(k) == i ==> !Less(items[..len][k], items[..len][j])
    {
      j := 2 * i + 1;
      if j + 1 < len && Less(items[j + 1], items[j]) {
        j := j + 1;
      }
    }

    method Down(start: nat)
      requires Shaped() && HeapButDown(items[..len], start)
      modifies items
      ensures Heap(items[..len]) && multiset(items[..len]) == multiset(old(items[..len]))
    {
      var i := start;
      while 2 * i + 1 < len
        invariant HeapButDown(items[..len], i)
        invariant multiset(items[..len]) == multiset(old(items[..len]))
        decreases len - i
      {
        var j := LesserChild(i);
        if !Less(items[j], items[i]) {
          assert Heap(items[..len]) by { NoLesserChild(items[..len], i, j); }
          return;
        }
        DownStep(items[..len], i, j);
        SwapPermutes(items[..len], i, j);
        Swap(i, j);
        i := j;
      }
    }

    /** Room for one more item, as append makes it. */
    method Grow()
      requires Valid()
      modifies this
      ensures Valid() && len < items.Length && queue == old(queue) && len == old(len)
      ensures items == old(items) || fresh(items)
    {
      if len == items.Length {
        var bigger := new Item[2 * len + 1](_ => Item(Task(0, "", 0, 0, 0, 0, "", None), 0));
        for k := 0 to len
          invariant forall i :: 0 <= i < k ==> bigger[i] == items[i]
          invariant items == old(items) && len == old(len) && queue == old(queue) && Valid()
          modifies bigger
        {
          bigger[k] := items[k];
        }
        assert bigger[..len] == items[..len];
        items := bigger;
      }
    }

    method Push(x: Item)
      requires Valid() && Fresh(queue, x.number)
      modifies this, items
      ensures Valid() && queue == InsertSorted(old(queue), x)
      ensures items == old(items) || fresh(items)
    {
      Grow();
      AppendLast(x);
      InsertKeepsSorted(queue, x);
      InsertAdds(queue, x);
      queue := InsertSorted(queue, x);
      Up(len - 1);
    }

    method AppendLast(x: Item)
      requires Valid() && len < items.Length
      modifies this, items
      ensures len == old(len) + 1 && items == old(items) && queue == old(queue)
      ensures Shaped() && HeapButUp(items[..len], len - 1) && multiset(items[..len]) == multiset(queue) + multiset{x}
    {
      ghost var before := items[..len];
      items[len] := x;
      len := len + 1;
      assert items[..len] == before + [x];
    }

    method IsEmpty() returns (empty: bool)
      requires Valid()
      ensures empty <==> queue == []
    {
      SameLength(items[..len], queue);
      empty := len == 0;
    }

    method Peek() returns (x: Item)
      requires Valid() && queue != []
      ensures x == queue[0]
    {
      SameLength(items[..len], queue);
      RootIsHead(items[..len], queue);
      x := items[0];
    }

    method Pop() returns (x: Item)
      requires Valid() && queue != []
      modifies this, items
      ensures Valid() && x == old(queue)[0] && queue == old(queue)[1..]
      ensures items == old(items)
    {
      x := Peek();
      CutRoot();
      Down(0);
    }

    method SwapRoot()
      requires 0 < len <= items.Length
      modifies items
      ensures RootLast(old(items[..len]), items[..len])
    {
      SwapPermutes(items[..len], 0, len - 1);
      Swap(0, len - 1);
    }

    /** Exchanges the root with the last item and drops it; the new root is yet to sink. */
    method CutRoot()
      requires Valid() && queue != []
      modifies this, items
      ensures items == old(items) && len == old(len) - 1 && queue == old(queue)[1..]
      ensures Shaped() && HeapButDown(items[..len], 0) && multiset(items[..len]) == multiset(queue)
    {
      ghost var before := items[..len];
      SameLength(before, queue);
      SwapRoot();
      ghost var swapped := items[..len];
      RerootedIsHeapButDown(before, swapped);
      RerootedBag(before, swapped, queue);
      len := len - 1;
      queue := queue[1..];
      assert items[..len] == swapped[..len];
    }
  }

  lemma BagOfInit(s: seq<Item>)
    requires s != []
    ensures multiset(s[..|s| - 1]) == multiset(s) - multiset{s[|s| - 1]}
  {
    assert s == s[..|s| - 1] + [s[|s| - 1]];
  }

  lemma BagOfTail(s: seq<Item>)
    requires s != []
    ensures multiset(s[1..]) == multiset(s) - multiset{s[0]}
  {
    assert s == [s[0]] + s[1..];
  }

  /** t is s with its root and its last item exchanged. */
  ghost predicate RootLast(s: seq<Item>, t: seq<Item>) {
    && s != [] && |t| == |s| && multiset(t) == multiset(s)
    && t[|s| - 1] == s[0] && t[0] == s[|s| - 1]
    && forall k :: 0 < k < |s| - 1 ==> t[k] == s[k]
  }

  lemma RerootedIsHeapButDown(s: seq<Item>, t: seq<Item>)
    requires Heap(s) && RootLast(s, t)
    ensures HeapButDown(t[..|s| - 1], 0)
  {
  }

  /** Cutting the root off the end leaves the rest of the sorted queue. */
  lemma RerootedBag(s: seq<Item>, t: seq<Item>, q: seq<Item>)
    requires Heap(s) && RootLast(s, t) && Sorted(q) && multiset(s) == multiset(q)
    ensures q != [] && multiset(t[..|s| - 1]) == multiset(q[1..])
  {
    RootIsHead(s, q);
    BagOfInit(t);
    BagOfTail(q);
  }
}
