/**
 * The slice of jobs that the fair queue keeps heap-ordered
 * (app/queue/priority_queue.go). Smaller means served first: a job goes
 * ahead of another when its priority is smaller, or when the priorities
 * are equal and it was stamped strictly earlier.
 */
module PriorityQueues {
  import opened Jobs

  /** The comparison behind `PriorityQueue.Less`, on the jobs themselves. */
  predicate JobLess(a: Job, b: Job)
  {
    if a.priority == b.priority then a.insertionTime < b.insertionTime else a.priority < b.priority
  }

  /** `Less` is the lexicographic order on (priority, insertionTime). */
  lemma JobLessIsLexicographic(a: Job, b: Job)
    ensures JobLess(a, b) <==>
      a.priority < b.priority || (a.priority == b.priority && a.insertionTime < b.insertionTime)
  {
  }

  /** `Less` is irreflexive and transitive, and total on jobs with distinct stamps. */
  lemma JobLessIsStrictOrder(a: Job, b: Job, c: Job)
    ensures !JobLess(a, a)
    ensures JobLess(a, b) ==> !JobLess(b, a)
    ensures JobLess(a, b) && JobLess(b, c) ==> JobLess(a, c)
    ensures a.insertionTime != b.insertionTime ==> JobLess(a, b) || JobLess(b, a)
  {
  }

  /** `s` with positions `i` and `j` exchanged. */
  function Swapped(s: seq<Job>, i: nat, j: nat): (r: seq<Job>)
    requires i < |s| && j < |s|
    ensures |r| == |s|
    ensures r[i] == s[j] && r[j] == s[i]
  {
    s[i := s[j]][j := s[i]]
  }

  /** Exchanging two positions keeps the same jobs. */
  lemma SwappedPermutes(s: seq<Job>, i: nat, j: nat)
    requires i < |s| && j < |s|
    ensures multiset(Swapped(s, i, j)) == multiset(s)
  {
  }

  /** `PriorityQueue`: a growable slice of jobs, updated in place. */
  class PriorityQueue {
    var items: seq<Job>

    /** `make(PriorityQueue, 0, initialCapacity)`: the capacity is only a size hint. */
    constructor (initialCapacity: nat)
      ensures items == []
    {
      items := [];
    }

    function Len(): (n: nat)
      reads this
      ensures n == |items|
    {
      |items|
    }

    predicate Less(i: nat, j: nat)
      reads this
      requires i < |items| && j < |items|
      ensures Less(i, j) <==> JobLess(items[i], items[j])
    {
      if items[i].priority == items[j].priority then items[i].insertionTime < items[j].insertionTime
      else items[i].priority < items[j].priority
    }

    /** Exchanges positions `i` and `j`; nothing else changes. */
    method Swap(i: nat, j: nat)
      requires i < |items| && j < |items|
      modifies this
      ensures items == Swapped(old(items), i, j)
    {
      items := items[i := items[j]][j := items[i]];
    }

    /** Appends `x`: one more element, the earlier ones untouched. */
    method Push(x: Job)
      modifies this
      ensures items == old(items) + [x]
    {
      items := items + [x];
    }

    /** Removes and returns the last element; the prefix is untouched. */
    method Pop() returns (x: Job)
      requires |items| > 0
      modifies this
      ensures x == old(items)[|old(items)| - 1]
      ensures items == old(items)[..|old(items)| - 1]
    {
      var last := |items| - 1;
      x := items[last];
      items := items[..last];
    }
  }
}
