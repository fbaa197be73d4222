/** Binary min-heaps in a slice: sifting up, sifting down and heapifying.  The scan
    window (pkg/acor/scan.go) writes these loops by hand; the composite merge uses the
    same ones through container/heap. */
module Heaps {

  /** The edge into `c` is ordered. */
  ghost predicate Edge<T>(q: seq<T>, key: T -> int, c: int)
    requires 0 < c < |q|
  {
    key(q[(c - 1) / 2]) <= key(q[c])
  }

  /** Every edge whose parent index is at least `lo` is ordered. */
  ghost predicate HeapFrom<T>(q: seq<T>, key: T -> int, lo: int) {
    forall c {:trigger Edge(q, key, c)} :: 0 < c < |q| && (c - 1) / 2 >= lo ==> Edge(q, key, c)
  }

  ghost predicate Heap<T>(q: seq<T>, key: T -> int) { HeapFrom(q, key, 0) }

  /** The root of a heap is a minimum. */
  lemma {:induction false} RootIsLeast<T>(q: seq<T>, key: T -> int, i: nat)
    requires Heap(q, key) && i < |q|
    ensures key(q[0]) <= key(q[i])
  {
    if i > 0 {
      assert Edge(q, key, i);
      RootIsLeast(q, key, (i - 1) / 2);
    }
  }

  function Swap<T>(q: seq<T>, i: nat, j: nat): seq<T>
    requires i < |q| && j < |q|
  {
    q[i := q[j]][j := q[i]]
  }

  lemma SwapKeeps<T>(q: seq<T>, i: nat, j: nat)
    requires i < |q| && j < |q|
    ensures |Swap(q, i, j)| == |q| && multiset(Swap(q, i, j)) == multiset(q)
  {
  }

  /** `c` fits under the parent of `i`. */
  ghost predicate Under<T>(q: seq<T>, key: T -> int, i: int, c: int)
    requires 0 < i < |q| && 0 <= c < |q|
  {
    key(q[(i - 1) / 2]) <= key(q[c])
  }

  // ----- sifting down -----

  /** All edges from `lo` on are ordered, except those out of `i`; and what hangs
      below `i` fits under `i`'s parent. */
  ghost predicate Sinking<T>(q: seq<T>, key: T -> int, lo: nat, i: nat) {
    && (forall c {:trigger Edge(q, key, c)} :: 0 < c < |q| && (c - 1) / 2 >= lo && (c - 1) / 2 != i ==> Edge(q, key, c))
    && (lo < i < |q| ==> forall c {:trigger Under(q, key, i, c)} :: 0 < c < |q| && (c - 1) / 2 == i ==> Under(q, key, i, c))
  }

  /** Orders the edges out of `lo`, given those further down. */
  method SiftDown<T>(q: seq<T>, key: T -> int, lo: nat) returns (r: seq<T>)
    requires lo < |q| && HeapFrom(q, key, lo + 1)
    ensures |r| == |q| && multiset(r) == multiset(q) && HeapFrom(r, key, lo)
  {
    hide Edge, Under;
    r := q;
    var i := lo;
    while i * 2 + 1 < |r|
      invariant lo <= i < |r| == |q| && multiset(r) == multiset(q) && Sinking(r, key, lo, i)
      decreases |r| - i
    {
      var child := i * 2 + 1;
      if child + 1 < |r| && key(r[child + 1]) < key(r[child]) { child := child + 1; }
      if key(r[i]) <= key(r[child]) {
        Settled(r, key, lo, i, child);
        return;
      }
      SwapKeeps(r, i, child);
      Sink(r, key, lo, i, child);
      r := Swap(r, i, child);
      i := child;
    }
  }

  lemma Settled<T>(q: seq<T>, key: T -> int, lo: nat, i: nat, child: nat)
    requires lo <= i < |q| && Sinking(q, key, lo, i) && child < |q| && key(q[i]) <= key(q[child])
    requires 2 * i + 1 < |q| ==> key(q[child]) <= key(q[2 * i + 1])
    requires 2 * i + 2 < |q| ==> key(q[child]) <= key(q[2 * i + 2])
    ensures HeapFrom(q, key, lo)
  {
    forall c | 0 < c < |q| && (c - 1) / 2 >= lo ensures Edge(q, key, c) {
      if (c - 1) / 2 == i { assert c == 2 * i + 1 || c == 2 * i + 2; }
    }
  }

  lemma Sink<T>(q: seq<T>, key: T -> int, lo: nat, i: nat, child: nat)
    requires lo <= i < |q| && Sinking(q, key, lo, i)
    requires child < |q| && (child == 2 * i + 1 || child == 2 * i + 2) && key(q[child]) < key(q[i])
    requires 2 * i + 1 < |q| ==> key(q[child]) <= key(q[2 * i + 1])
    requires 2 * i + 2 < |q| ==> key(q[child]) <= key(q[2 * i + 2])
    ensures Sinking(Swap(q, i, child), key, lo, child)
  {
    var r := Swap(q, i, child);
    forall c | 0 < c < |r| && (c - 1) / 2 >= lo && (c - 1) / 2 != child ensures Edge(r, key, c) {
      if (c - 1) / 2 == i {
        assert c == 2 * i + 1 || c == 2 * i + 2;
      } else {
        assert Edge(q, key, c);
        if c == i { assert Under(q, key, i, child); }
      }
    }
    forall c | 0 < c < |r| && (c - 1) / 2 == child ensures Under(r, key, child, c) {
      assert Edge(q, key, c);
    }
  }

  // ----- sifting up -----

  /** All edges are ordered except the one into `i`, and `i`'s children fit under its parent. */
  ghost predicate Rising<T>(q: seq<T>, key: T -> int, i: nat) {
    && (forall c {:trigger Edge(q, key, c)} :: 0 < c < |q| && c != i ==> Edge(q, key, c))
    && (0 < i < |q| ==> forall c {:trigger Under(q, key, i, c)} :: 0 < c < |q| && (c - 1) / 2 == i ==> Under(q, key, i, c))
  }

  /** Appends an element and lifts it to its place. */
  method Push<T>(q: seq<T>, key: T -> int, x: T) returns (r: seq<T>)
    requires Heap(q, key)
    ensures |r| == |q| + 1 && multiset(r) == multiset(q) + multiset{x} && Heap(r, key)
  {
    hide Edge, Under, Heap, HeapFrom, Rising;
    r := q + [x];
    var i := |r| - 1;
    Appended(q, key, x);
    while i > 0
      invariant 0 <= i < |r| == |q| + 1 && multiset(r) == multiset(q) + multiset{x} && Rising(r, key, i)
    {
      var parent := (i - 1) / 2;
      if key(r[parent]) <= key(r[i]) { break; }
      SwapKeeps(r, parent, i);
      Rise(r, key, i);
      r := Swap(r, parent, i);
      i := parent;
    }
    Risen(r, key, i);
  }

  lemma Appended<T>(q: seq<T>, key: T -> int, x: T)
    requires Heap(q, key)
    ensures Rising(q + [x], key, |q|)
  {
    forall c | 0 < c < |q| ensures Edge(q + [x], key, c) { assert Edge(q, key, c); }
  }

  lemma Risen<T>(q: seq<T>, key: T -> int, i: nat)
    requires i < |q| && Rising(q, key, i) && (i > 0 ==> key(q[(i - 1) / 2]) <= key(q[i]))
    ensures Heap(q, key)
  {
  }

  lemma Rise<T>(q: seq<T>, key: T -> int, i: nat)
    requires 0 < i < |q| && Rising(q, key, i) && key(q[(i - 1) / 2]) > key(q[i])
    ensures Rising(Swap(q, (i - 1) / 2, i), key, (i - 1) / 2)
  {
    var p := (i - 1) / 2;
    var r := Swap(q, p, i);
    forall c | 0 < c < |r| && c != p ensures Edge(r, key, c) {
      if (c - 1) / 2 == i { assert Under(q, key, i, c); }
      else if c != i { assert Edge(q, key, c); }
    }
    if p > 0 {
      assert Edge(q, key, p);
      forall c | 0 < c < |r| && (c - 1) / 2 == p ensures Under(r, key, p, c) {
        if c != i { assert Edge(q, key, c); }
      }
    }
  }

  // ----- the heap operations -----

  /** Removes the least element. */
  method Pop<T>(q: seq<T>, key: T -> int) returns (r: seq<T>)
    requires Heap(q, key) && |q| > 0
    ensures |r| == |q| - 1 && multiset(r) + multiset{q[0]} == multiset(q) && Heap(r, key)
  {
    var last := |q| - 1;
    r := q[0 := q[last]][..last];
    SwapKeeps(q, 0, last);
    assert Swap(q, 0, last) == r + [q[0]];
    if |r| > 0 {
      HeadChanged(q, key, r);
      r := SiftDown(r, key, 0);
    }
  }

  lemma HeadChanged<T>(q: seq<T>, key: T -> int, t: seq<T>)
    requires Heap(q, key) && |t| <= |q| && forall i :: 0 < i < |t| ==> t[i] == q[i]
    ensures HeapFrom(t, key, 1)
  {
    forall c | 0 < c < |t| && (c - 1) / 2 >= 1 ensures Edge(t, key, c) { assert Edge(q, key, c); }
  }

  /** Replaces the least element. */
  method Replace<T>(q: seq<T>, key: T -> int, x: T) returns (r: seq<T>)
    requires Heap(q, key) && |q| > 0
    ensures |r| == |q| && multiset(r) == multiset(q[0 := x]) && Heap(r, key)
  {
    HeadChanged(q, key, q[0 := x]);
    r := SiftDown(q[0 := x], key, 0);
  }

  /** Makes a heap of any slice. */
  method Init<T>(q: seq<T>, key: T -> int) returns (r: seq<T>)
    ensures |r| == |q| && multiset(r) == multiset(q) && Heap(r, key)
  {
    r := q;
    var i := |q| / 2;
    while i > 0
      invariant 0 <= i <= |q| / 2 && |r| == |q| && multiset(r) == multiset(q) && HeapFrom(r, key, i)
    {
      i := i - 1;
      r := SiftDown(r, key, i);
    }
  }
}
