/**
 * The binary-heap algorithm of Go's container/heap, which
 * app/queue/priority_queue.go plugs its Len/Less/Swap/Push/Pop into. The
 * package itself is not part of the repository; this is the standard
 * algorithm it implements (up, down, Push, Pop, Fix).
 *
 * Each operation is given twice: as a function on the job sequence, which
 * is what the lemmas below are about, and as a method that runs the loop
 * on a PriorityQueue object through its Less and Swap, proved to produce
 * exactly what the function describes.
 */
module ContainerHeap {
  import opened Jobs
  import opened PriorityQueues

  /** Index of the parent of node `k` in the implicit binary tree. */
  function Parent(k: nat): nat
    requires k > 0
  {
    (k - 1) / 2
  }

  lemma ParentOfChild(k: nat, i: nat)
    requires k > 0
    ensures Parent(k) == i <==> k == 2 * i + 1 || k == 2 * i + 2
  {
  }

  /** Heap order on `s[..n]`: no element goes ahead of its parent. */
  ghost predicate IsHeap(s: seq<Job>, n: nat)
  {
    n <= |s| && forall k :: 0 < k < n ==> !JobLess(s[k], s[Parent(k)])
  }

  /** Heap order on `s[..n]` except possibly between `x` and its parent. */
  ghost predicate HeapBut(s: seq<Job>, n: nat, x: nat)
  {
    n <= |s| && forall k :: 0 < k < n && k != x ==> !JobLess(s[k], s[Parent(k)])
  }

  /** Heap order on `s[..n]` except possibly on the edges that touch `x`. */
  ghost predicate HeapExcept(s: seq<Job>, n: nat, x: nat)
  {
    n <= |s| && forall k :: 0 < k < n && k != x && Parent(k) != x ==> !JobLess(s[k], s[Parent(k)])
  }

  /** The children of `x` do not go ahead of the parent of `x`. */
  ghost predicate Bridged(s: seq<Job>, n: nat, x: nat)
  {
    n <= |s| && x < |s| &&
    (0 < x ==> forall k :: 0 < k < n && Parent(k) == x ==> !JobLess(s[k], s[Parent(x)]))
  }

  /** The children of `x` do not go ahead of `x`. */
  ghost predicate ChildrenNotLess(s: seq<Job>, n: nat, x: nat)
  {
    n <= |s| && x < |s| && forall k :: 0 < k < n && Parent(k) == x ==> !JobLess(s[k], s[x])
  }

  /** `up(h, j)`: moves the element at `j` toward the root while it goes ahead of its parent. */
  function SiftedUp(s: seq<Job>, j: nat): (r: seq<Job>)
    requires j < |s|
    ensures |r| == |s|
    ensures r[j + 1..] == s[j + 1..]
    decreases j
  {
    // for j == 0, Go's (j - 1) / 2 truncates to 0: the root is its own parent
    if j == 0 then s
    else
      var i := Parent(j);
      if !JobLess(s[j], s[i]) then s
      else SiftedUp(Swapped(s, i, j), i)
  }

  /**
   * `down(h, i, n)`: moves the element at `i` away from the root, inside
   * `s[..n]`, while one of its children goes ahead of it. Returns the new
   * sequence and the index where the element came to rest; Go's boolean
   * result is "that index is greater than `i`".
   */
  function SiftedDown(s: seq<Job>, i: nat, n: nat): (r: (seq<Job>, nat))
    requires n <= |s| && i < |s|
    ensures |r.0| == |s|
    ensures r.0[n..] == s[n..]
    ensures i <= r.1 < |s|
    decreases n - i
  {
    var j1 := 2 * i + 1;
    if j1 >= n then (s, i)
    else
      var j := SmallerChild(s, i, n);
      if !JobLess(s[j], s[i]) then (s, i)
      else SiftedDown(Swapped(s, i, j), j, n)
  }

  /** `heap.Push`: append, then move the new element up. */
  function PushedHeap(s: seq<Job>, x: Job): (r: seq<Job>)
    ensures |r| == |s| + 1
  {
    SiftedUp(s + [x], |s|)
  }

  /** `heap.Pop`: swap the root with the last element, move it down, then remove the last element. */
  function PoppedHeap(s: seq<Job>): (r: (Job, seq<Job>))
    requires |s| > 0
    ensures |r.1| == |s| - 1
  {
    var n := |s| - 1;
    var t := SiftedDown(Swapped(s, 0, n), 0, n).0;
    (t[n], t[..n])
  }

  /** `heap.Fix`: after the element at `i` changed, move it down, or else up. */
  function FixedHeap(s: seq<Job>, i: nat): (r: seq<Job>)
    requires i < |s|
    ensures |r| == |s|
  {
    var d := SiftedDown(s, i, |s|);
    if d.1 > i then d.0 else SiftedUp(d.0, i)
  }

  // ---------------------------------------------------------------------
  // The jobs stay the same
  // ---------------------------------------------------------------------

  lemma {:induction false} SiftedUpPermutes(s: seq<Job>, j: nat)
    requires j < |s|
    ensures multiset(SiftedUp(s, j)) == multiset(s)
    decreases j
  {
    if j > 0 && JobLess(s[j], s[Parent(j)]) {
      SwappedPermutes(s, Parent(j), j);
      SiftedUpPermutes(Swapped(s, Parent(j), j), Parent(j));
    }
  }

  lemma {:induction false} SiftedDownPermutes(s: seq<Job>, i: nat, n: nat)
    requires n <= |s| && i < |s|
    ensures multiset(SiftedDown(s, i, n).0) == multiset(s)
    decreases n - i
  {
    if 2 * i + 1 < n {
      var j := SmallerChild(s, i, n);
      if JobLess(s[j], s[i]) {
        SwappedPermutes(s, i, j);
        SiftedDownPermutes(Swapped(s, i, j), j, n);
      }
    }
  }

  /** `heap.Push` adds exactly the new job. */
  lemma PushedHeapContents(s: seq<Job>, x: Job)
    ensures multiset(PushedHeap(s, x)) == multiset(s) + multiset{x}
  {
    SiftedUpPermutes(s + [x], |s|);
  }

  /** `heap.Pop` removes exactly the job it returns. */
  lemma PoppedHeapContents(s: seq<Job>)
    requires |s| > 0
    ensures multiset(PoppedHeap(s).1) + multiset{PoppedHeap(s).0} == multiset(s)
  {
    var n := |s| - 1;
    SwappedPermutes(s, 0, n);
    SiftedDownPermutes(Swapped(s, 0, n), 0, n);
    var t := SiftedDown(Swapped(s, 0, n), 0, n).0;
    assert t == t[..n] + [t[n]];
  }

  /** `heap.Fix` keeps the same jobs. */
  lemma FixedHeapPermutes(s: seq<Job>, i: nat)
    requires i < |s|
    ensures multiset(FixedHeap(s, i)) == multiset(s)
  {
    SiftedDownPermutes(s, i, |s|);
    var d := SiftedDown(s, i, |s|);
    if d.1 <= i {
      SiftedUpPermutes(d.0, i);
    }
  }

  // ---------------------------------------------------------------------
  // Heap order
  // ---------------------------------------------------------------------

  /** The root of a heap is a minimal element: nothing goes ahead of it. */
  lemma {:induction false} HeapRootIsMinimal(s: seq<Job>, n: nat, k: nat)
    requires IsHeap(s, n) && k < n
    ensures !JobLess(s[k], s[0])
    decreases k
  {
    if k > 0 {
      HeapRootIsMinimal(s, n, Parent(k));
    }
  }

  /** `up` restores heap order when only the edge above `j` may be broken. */
  lemma {:induction false} SiftedUpRestoresHeap(s: seq<Job>, j: nat)
    requires j < |s| && HeapBut(s, |s|, j) && Bridged(s, |s|, j)
    ensures IsHeap(SiftedUp(s, j), |s|)
    decreases j
  {
    if j > 0 && JobLess(s[j], s[Parent(j)]) {
      var i := Parent(j);
      var t := Swapped(s, i, j);
      forall k | 0 < k < |t| && k != i
        ensures !JobLess(t[k], t[Parent(k)])
      {
        if k == j {
        } else if Parent(k) == j {
          assert t[k] == s[k];
        } else if Parent(k) == i {
          assert t[k] == s[k];
        } else {
          assert t[k] == s[k] && t[Parent(k)] == s[Parent(k)];
        }
      }
      if 0 < i {
        forall k | 0 < k < |t| && Parent(k) == i
          ensures !JobLess(t[k], t[Parent(i)])
        {
          assert t[Parent(i)] == s[Parent(i)];
          if k != j {
            assert t[k] == s[k];
          }
        }
      }
      SiftedUpRestoresHeap(t, i);
    }
  }

  /** What holds at each step of `down` started at `i0`, now at `i`. */
  ghost predicate DownInvariant(s: seq<Job>, i0: nat, i: nat, n: nat)
  {
    i0 <= i < |s| && HeapExcept(s, n, i) && Bridged(s, n, i) &&
    (i0 < i < n ==> !JobLess(s[i], s[Parent(i)]))
  }

  /** The child `down` picks at `i`: the right one only when it goes ahead of the left one. */
  function SmallerChild(s: seq<Job>, i: nat, n: nat): (j: nat)
    requires n <= |s| && 2 * i + 1 < n
    ensures j == 2 * i + 1 || j == 2 * i + 2
    ensures j < n && Parent(j) == i
  {
    var j1 := 2 * i + 1;
    if j1 + 1 < n && JobLess(s[j1 + 1], s[j1]) then j1 + 1 else j1
  }

  /** No child of `i` goes ahead of the one `down` picks. */
  lemma SmallerChildGoesFirst(s: seq<Job>, i: nat, n: nat)
    requires n <= |s| && 2 * i + 1 < n
    ensures forall k :: 0 < k < n && Parent(k) == i ==> !JobLess(s[k], s[SmallerChild(s, i, n)])
  {
    forall k | 0 < k < n && Parent(k) == i ensures k == 2 * i + 1 || k == 2 * i + 2 {
      ParentOfChild(k, i);
    }
  }

  /** One swap of `down` keeps its invariant, one level further down. */
  lemma DownStepKeepsInvariant(s: seq<Job>, i0: nat, i: nat, n: nat)
    requires n <= |s| && DownInvariant(s, i0, i, n) && 2 * i + 1 < n
    requires JobLess(s[SmallerChild(s, i, n)], s[i])
    ensures DownInvariant(Swapped(s, i, SmallerChild(s, i, n)), i0, SmallerChild(s, i, n), n)
  {
    var j := SmallerChild(s, i, n);
    var t := Swapped(s, i, j);
    SmallerChildGoesFirst(s, i, n);
    forall k | 0 < k < n && k != j && Parent(k) != j
      ensures !JobLess(t[k], t[Parent(k)])
    {
      if k == i {
        assert t[Parent(i)] == s[Parent(i)];
      } else if Parent(k) == i {
        assert t[k] == s[k];
      } else {
        assert t[k] == s[k] && t[Parent(k)] == s[Parent(k)];
      }
    }
    forall k | 0 < k < n && Parent(k) == j
      ensures !JobLess(t[k], t[Parent(j)])
    {
      ParentOfChild(k, j);
      assert t[k] == s[k];
    }
  }

  /** Where `down` stops, the element's children respect it. */
  lemma DownStopRespected(s: seq<Job>, i: nat, n: nat)
    requires n <= |s| && i < |s|
    requires 2 * i + 1 >= n || !JobLess(s[SmallerChild(s, i, n)], s[i])
    ensures ChildrenNotLess(s, n, i)
  {
    if 2 * i + 1 < n {
      SmallerChildGoesFirst(s, i, n);
    }
    forall k | 0 < k < n && Parent(k) == i ensures !JobLess(s[k], s[i]) {
      ParentOfChild(k, i);
    }
  }

  /**
   * `down` restores heap order on `s[..n]` when only the edges around its
   * starting point may be broken; if it does not move the element, every
   * child already respects it.
   */
  lemma {:induction false} SiftedDownRestoresHeap(s: seq<Job>, i0: nat, i: nat, n: nat)
    requires n <= |s| && DownInvariant(s, i0, i, n)
    ensures SiftedDown(s, i, n).1 > i0 ==> IsHeap(SiftedDown(s, i, n).0, n)
    ensures SiftedDown(s, i, n).1 == i0 ==> SiftedDown(s, i, n).0 == s && ChildrenNotLess(s, n, i0)
    decreases n - i
  {
    if 2 * i + 1 < n && JobLess(s[SmallerChild(s, i, n)], s[i]) {
      var j := SmallerChild(s, i, n);
      assert SiftedDown(s, i, n) == SiftedDown(Swapped(s, i, j), j, n);
      DownStepKeepsInvariant(s, i0, i, n);
      SiftedDownRestoresHeap(Swapped(s, i, j), i0, j, n);
    } else {
      assert SiftedDown(s, i, n) == (s, i);
      DownStopRespected(s, i, n);
    }
  }

  /** `heap.Push` keeps heap order. */
  lemma PushedHeapKeepsHeap(s: seq<Job>, x: Job)
    requires IsHeap(s, |s|)
    ensures IsHeap(PushedHeap(s, x), |s| + 1)
  {
    var t := s + [x];
    forall k | 0 < k < |t| ensures Parent(k) != |s| {
      ParentOfChild(k, |s|);
    }
    SiftedUpRestoresHeap(t, |s|);
  }

  /**
   * `heap.Pop` on a heap returns its root, which no element goes ahead of,
   * and leaves a heap of the other elements.
   */
  lemma PoppedHeapTakesMinimum(s: seq<Job>)
    requires |s| > 0 && IsHeap(s, |s|)
    ensures PoppedHeap(s).0 == s[0]
    ensures forall k :: 0 <= k < |s| ==> !JobLess(s[k], PoppedHeap(s).0)
    ensures IsHeap(PoppedHeap(s).1, |s| - 1)
  {
    var n := |s| - 1;
    var t0 := Swapped(s, 0, n);
    forall k | 0 < k < n && Parent(k) != 0
      ensures !JobLess(t0[k], t0[Parent(k)])
    {
      assert t0[k] == s[k] && t0[Parent(k)] == s[Parent(k)];
    }
    assert DownInvariant(t0, 0, 0, n);
    SiftedDownRestoresHeap(t0, 0, 0, n);
    var t := SiftedDown(t0, 0, n).0;
    assert t[n] == t0[n];
    forall k | 0 <= k < |s| ensures !JobLess(s[k], s[0]) {
      HeapRootIsMinimal(s, |s|, k);
    }
    assert IsHeap(t[..n], n);
  }

  /**
   * `heap.Fix` restores heap order when only the edges around `i` may be
   * broken. When no child goes ahead of the new element, `down` leaves it
   * in place and the element only moves toward the root: every position
   * after `i` is untouched.
   */
  lemma FixedHeapRestoresHeap(s: seq<Job>, i: nat)
    requires i < |s| && HeapExcept(s, |s|, i) && Bridged(s, |s|, i)
    ensures IsHeap(FixedHeap(s, i), |s|)
    ensures ChildrenNotLess(s, |s|, i) ==> FixedHeap(s, i)[i + 1..] == s[i + 1..]
  {
    SiftedDownRestoresHeap(s, i, i, |s|);
    var d := SiftedDown(s, i, |s|);
    if d.1 == i {
      SiftedUpRestoresHeap(s, i);
    }
    if ChildrenNotLess(s, |s|, i) && 2 * i + 1 < |s| {
      assert !JobLess(s[SmallerChild(s, i, |s|)], s[i]);
    }
  }

  // ---------------------------------------------------------------------
  // The algorithm, run in place on a PriorityQueue
  // ---------------------------------------------------------------------

  method Up(pq: PriorityQueue, j0: nat)
    requires j0 < |pq.items|
    modifies pq
    ensures pq.items == SiftedUp(old(pq.items), j0)
  {
    var j: nat := j0;
    while true
      invariant j < |pq.items|
      invariant SiftedUp(pq.items, j) == SiftedUp(old(pq.items), j0)
      decreases j
    {
      if j == 0 {
        break;
      }
      var i: nat := (j - 1) / 2;
      if !pq.Less(j, i) {
        break;
      }
      pq.Swap(i, j);
      j := i;
    }
  }

  method Down(pq: PriorityQueue, i0: nat, n: nat) returns (moved: bool)
    requires n <= |pq.items| && i0 < |pq.items|
    modifies pq
    ensures pq.items == SiftedDown(old(pq.items), i0, n).0
    ensures moved <==> SiftedDown(old(pq.items), i0, n).1 > i0
  {
    var i := i0;
    while true
      invariant i0 <= i < |pq.items| && n <= |pq.items|
      invariant SiftedDown(pq.items, i, n) == SiftedDown(old(pq.items), i0, n)
      decreases n - i
    {
      var j1 := 2 * i + 1;
      if j1 >= n {
        break;
      }
      var j := j1;
      if j1 + 1 < n && pq.Less(j1 + 1, j1) {
        j := j1 + 1;
      }
      assert j == SmallerChild(pq.items, i, n);
      if !pq.Less(j, i) {
        break;
      }
      ghost var before := pq.items;
      pq.Swap(i, j);
      assert SiftedDown(before, i, n) == SiftedDown(pq.items, j, n);
      i := j;
    }
    moved := i > i0;
  }

  /** `heap.Push(h, x)`. */
  method Push(pq: PriorityQueue, x: Job)
    modifies pq
    ensures pq.items == PushedHeap(old(pq.items), x)
  {
    pq.Push(x);
    Up(pq, pq.Len() - 1);
  }

  /** `heap.Pop(h)`; Go panics on an empty heap. */
  method Pop(pq: PriorityQueue) returns (x: Job)
    requires |pq.items| > 0
    modifies pq
    ensures (x, pq.items) == PoppedHeap(old(pq.items))
  {
    var n := pq.Len() - 1;
    pq.Swap(0, n);
    var _ := Down(pq, 0, n);
    x := pq.Pop();
  }

  /** `heap.Fix(h, i)`. */
  method Fix(pq: PriorityQueue, i: nat)
    requires i < |pq.items|
    modifies pq
    ensures pq.items == FixedHeap(old(pq.items), i)
  {
    var moved := Down(pq, i, pq.Len());
    if !moved {
      Up(pq, i);
    }
  }
}
