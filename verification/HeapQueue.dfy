/** The priority queue that the caches use: entries with a due time, least first.
    Entries with equal times come out in no particular order. */
module HeapQueue {

  datatype Timed<K> = Timed(at: real, key: K)

  function Parent(i: nat): nat
    requires i > 0
  {
    (i - 1) / 2
  }

  /** Entry `i` is due no earlier than its parent. */
  predicate Ordered<K>(h: seq<Timed<K>>, i: nat)
    requires 0 < i < |h|
  {
    h[Parent(i)].at <= h[i].at
  }

  predicate IsHeap<K>(h: seq<Timed<K>>) {
    forall i: nat | 0 < i < |h| :: Ordered(h, i)
  }

  lemma {:induction false} TopIsLeast<K>(h: seq<Timed<K>>, i: nat)
    requires IsHeap(h) && i < |h|
    ensures h[0].at <= h[i].at
  {
    if i > 0 {
      assert Ordered(h, i);
      TopIsLeast(h, Parent(i));
    }
  }

  function Swap<K>(h: seq<Timed<K>>, i: nat, j: nat): (r: seq<Timed<K>>)
    requires i < |h| && j < |h|
    ensures |r| == |h| && multiset(r) == multiset(h)
  {
    h[i := h[j]][j := h[i]]
  }

  /** Entry `i` is due no earlier than its grandparent, if it has one. */
  predicate OrderedPast<K>(h: seq<Timed<K>>, i: nat)
    requires 0 < i < |h|
  {
    Parent(i) > 0 ==> h[Parent(Parent(i))].at <= h[i].at
  }

  /** A heap except that entry `k` may be due before its parent. */
  ghost predicate Rising<K>(h: seq<Timed<K>>, k: nat) {
    && (forall i: nat | 0 < i < |h| && i != k :: Ordered(h, i))
    && (forall i: nat | 0 < i < |h| && Parent(i) == k :: OrderedPast(h, i))
  }

  /** From `lo` on a heap, except that entry `k` may be due after its children. */
  ghost predicate Sinking<K>(h: seq<Timed<K>>, lo: nat, k: nat) {
    && (forall i: nat | 0 < i < |h| && lo <= Parent(i) && Parent(i) != k :: Ordered(h, i))
    && (k > lo && k > 0 ==> lo <= Parent(k))
    && (k > lo ==> forall i: nat | 0 < i < |h| && Parent(i) == k :: OrderedPast(h, i))
  }

  lemma RiseOne<K>(h: seq<Timed<K>>, k: nat)
    requires 0 < k < |h| && Rising(h, k) && !Ordered(h, k)
    ensures Rising(Swap(h, k, Parent(k)), Parent(k))
  {
    var r := Swap(h, k, Parent(k));
    forall i: nat | 0 < i < |r| && i != Parent(k) ensures Ordered(r, i) {
      if i != k { assert Ordered(h, i); }
      if Parent(i) == k { assert OrderedPast(h, i); }
    }
    forall i: nat | 0 < i < |r| && Parent(i) == Parent(k) ensures OrderedPast(r, i) {
      if i != k { assert Ordered(h, i); }
      if Parent(k) > 0 { assert Ordered(h, Parent(k)); }
    }
  }

  lemma SinkOne<K>(h: seq<Timed<K>>, lo: nat, k: nat, child: nat)
    requires lo <= k < |h| && 0 < child < |h| && Parent(child) == k && Sinking(h, lo, k)
    requires !Ordered(h, child)
    requires forall i: nat | 0 < i < |h| && Parent(i) == k :: h[child].at <= h[i].at
    ensures Sinking(Swap(h, k, child), lo, child)
  {
    var r := Swap(h, k, child);
    forall i: nat | 0 < i < |r| && lo <= Parent(i) && Parent(i) != child ensures Ordered(r, i) {
      if Parent(i) != k { assert Ordered(h, i); }
      if i == k { assert OrderedPast(h, child); }
    }
    forall i: nat | 0 < i < |r| && Parent(i) == child ensures OrderedPast(r, i) {
      assert Ordered(h, i);
    }
  }

  method Push<K>(h: seq<Timed<K>>, x: Timed<K>) returns (r: seq<Timed<K>>)
    requires IsHeap(h)
    ensures IsHeap(r) && multiset(r) == multiset(h) + multiset{x}
  {
    r := h + [x];
    var k: nat := |h|;
    forall i: nat | 0 < i < |r| && i != k ensures Ordered(r, i) {
      assert Ordered(h, i);
    }
    while k > 0 && !Ordered(r, k)
      invariant k < |r| == |h| + 1 && Rising(r, k)
      invariant multiset(r) == multiset(h) + multiset{x}
    {
      RiseOne(r, k);
      r := Swap(r, k, Parent(k));
      k := Parent(k);
    }
  }

  method SiftDown<K>(h: seq<Timed<K>>, start: nat) returns (r: seq<Timed<K>>)
    requires start < |h| && Sinking(h, start, start)
    ensures |r| == |h| && multiset(r) == multiset(h)
    ensures forall i: nat | 0 < i < |r| && start <= Parent(i) :: Ordered(r, i)
  {
    r := h;
    var k := start;
    while 2 * k + 1 < |r|
      invariant start <= k < |r| == |h| && multiset(r) == multiset(h)
      invariant Sinking(r, start, k)
    {
      var child := 2 * k + 1;
      if child + 1 < |r| && r[child + 1].at < r[child].at {
        child := child + 1;
      }
      if Ordered(r, child) {
        return;
      }
      SinkOne(r, start, k, child);
      r := Swap(r, k, child);
      k := child;
    }
  }

  method Pop<K>(h: seq<Timed<K>>) returns (top: Timed<K>, r: seq<Timed<K>>)
    requires |h| > 0 && IsHeap(h)
    ensures top == h[0] && IsHeap(r) && multiset(h) == multiset(r) + multiset{top} && |r| == |h| - 1
  {
    top := h[0];
    var last := h[|h| - 1];
    r := h[..|h| - 1];
    assert h == r + [last];
    if |r| > 0 {
      assert r == [top] + r[1..];
      r := r[0 := last];
      assert r == [last] + r[1..];
      forall i: nat | 0 < i < |r| && Parent(i) != 0 ensures Ordered(r, i) {
        assert Ordered(h, i);
      }
      r := SiftDown(r, 0);
    }
  }

  method Heapify<K>(h: seq<Timed<K>>) returns (r: seq<Timed<K>>)
    ensures IsHeap(r) && multiset(r) == multiset(h) && |r| == |h|
  {
    r := h;
    var k := |h| / 2;
    while k > 0
      invariant 0 <= k <= |h| / 2 && |r| == |h| && multiset(r) == multiset(h)
      invariant forall i: nat | 0 < i < |r| && k <= Parent(i) :: Ordered(r, i)
    {
      k := k - 1;
      r := SiftDown(r, k);
    }
  }
}
