/**
 * The two orders that the queue's own tests fix
 * (app/queue/honest_priority_queue_test.go), derived from the model. Every
 * closure in those tests is the same no-op, written `Runnable(0)`; the
 * tests build the queue with no priority chats, and the clock starts at 0.
 * The heap is followed step by step: each lemma below takes one Push or
 * one Pop from a spelled-out state to the next.
 */
module HonestQueueScenarios {
  import opened Wrappers
  import opened Jobs
  import opened PriorityQueues
  import opened ContainerHeap
  import opened HonestQueue

  /** Push a job for each user in `userIDs`, in order, ignoring the answers. */
  function PushAll(st: QueueState, userIDs: seq<int>): QueueState
    decreases |userIDs|
  {
    if userIDs == [] then st
    else PushAll(PushStep(st, userIDs[0], Runnable(0)).0, userIDs[1..])
  }

  /** Pop `n` times (stopping early on an empty queue); the owners of the popped jobs, -1 for nil. */
  function PoppedOwners(st: QueueState, n: nat): seq<int>
    decreases n
  {
    if n == 0 || |st.queue| == 0 then []
    else
      var (st', job) := PopStep(st);
      [if job.Some? then job.value.userID else -1] + PoppedOwners(st', n - 1)
  }

  /** One more Pop that returns `job`. */
  lemma OwnersStep(st: QueueState, n: nat, st': QueueState, job: Job)
    requires n > 0 && |st.queue| > 0 && PopStep(st) == (st', Some(job))
    ensures PoppedOwners(st, n) == [job.userID] + PoppedOwners(st', n - 1)
  {
  }

  function J(userID: int, priority: int, stamp: int): Job
  {
    Job(Runnable(0), userID, priority, stamp)
  }

  // ---------------------------------------------------------------------
  // One step of each heap routine, for sequences spelled out below
  // ---------------------------------------------------------------------

  lemma UpStops(s: seq<Job>, j: nat)
    requires j < |s| && (j == 0 || !JobLess(s[j], s[Parent(j)]))
    ensures SiftedUp(s, j) == s
  {
  }

  lemma UpSwaps(s: seq<Job>, j: nat)
    requires 0 < j < |s| && JobLess(s[j], s[Parent(j)])
    ensures SiftedUp(s, j) == SiftedUp(Swapped(s, Parent(j), j), Parent(j))
  {
  }

  lemma DownAtLeaf(s: seq<Job>, i: nat, n: nat)
    requires n <= |s| && i < |s| && 2 * i + 1 >= n
    ensures SiftedDown(s, i, n) == (s, i)
  {
  }

  lemma DownStops(s: seq<Job>, i: nat, n: nat)
    requires n <= |s| && i < |s| && 2 * i + 1 < n && !JobLess(s[SmallerChild(s, i, n)], s[i])
    ensures SiftedDown(s, i, n) == (s, i)
  {
  }

  lemma DownSwaps(s: seq<Job>, i: nat, n: nat, j: nat)
    requires n <= |s| && i < |s| && 2 * i + 1 < n && j == SmallerChild(s, i, n) && JobLess(s[j], s[i])
    ensures SiftedDown(s, i, n) == SiftedDown(Swapped(s, i, j), j, n)
  {
  }

  lemma PoppedHeapIs(s: seq<Job>)
    requires |s| > 0
    ensures var t := SiftedDown(Swapped(s, 0, |s| - 1), 0, |s| - 1).0;
      PoppedHeap(s) == (t[|s| - 1], t[..|s| - 1])
  {
  }

  /** `heap.Fix` on a leaf that does not go ahead of its parent leaves the heap as it is. */
  lemma FixLeafStays(s: seq<Job>, i: nat)
    requires i < |s| && 2 * i + 1 >= |s| && (i == 0 || !JobLess(s[i], s[Parent(i)]))
    ensures FixedHeap(s, i) == s
  {
    DownAtLeaf(s, i, |s|);
    UpStops(s, i);
  }

  lemma PromoteEnds(s: seq<Job>, userID: int, clock: int)
    ensures Promote(s, userID, |s|, clock) == (s, clock)
  {
  }

  lemma PromoteSkips(s: seq<Job>, userID: int, i: nat, clock: int)
    requires i < |s| && s[i].userID != userID
    ensures Promote(s, userID, i, clock) == Promote(s, userID, i + 1, clock)
  {
  }

  lemma PromoteFixes(s: seq<Job>, userID: int, i: nat, clock: int)
    requires i < |s| && s[i].userID == userID
    ensures Promote(s, userID, i, clock) ==
      Promote(FixedHeap(s[i := Promoted(s[i], clock)], i), userID, i + 1, clock + 1)
  {
  }

  /** Pop on a state whose popped head is not banned, with what `heap.Pop` gives spelled out. */
  lemma PopServes(st: QueueState, job: Job, rest: seq<Job>)
    requires |st.queue| > 0 && PoppedHeap(st.queue) == (job, rest) && job.userID !in st.banned
    ensures PopStep(st) == (Served(st.(queue := rest), job), Some(job))
  {
  }

  lemma PushAccepts(st: QueueState, userID: int, priority: int)
    requires !st.maintenance && |st.queue| <= QueueLimit && userID !in st.priorityChats
    requires Backlog(st.users, userID) == priority <= MaxBacklogPriority
    ensures PushStep(st, userID, Runnable(0)).0 ==
      st.(queue := PushedHeap(st.queue, J(userID, priority, st.clock)),
          users := st.users[userID := priority + 1],
          banned := st.banned - {userID},
          clock := st.clock + 1)
  {
  }

  // ---------------------------------------------------------------------
  // Users 1, 2 and 3 push one job each
  // ---------------------------------------------------------------------

  lemma InsertionOrderPush1()
    ensures PushStep(QueueState([], map[], {}, false, {}, 0), 1, Runnable(0)).0 ==
      QueueState([J(1, 0, 0)], map[1 := 1], {}, false, {}, 1)
  {
    PushAccepts(QueueState([], map[], {}, false, {}, 0), 1, 0);
    UpStops([J(1, 0, 0)], 0);
  }
  lemma InsertionOrderPush2()
    ensures PushStep(QueueState([J(1, 0, 0)], map[1 := 1], {}, false, {}, 1), 2, Runnable(0)).0 ==
      QueueState([J(1, 0, 0), J(2, 0, 1)], map[1 := 1, 2 := 1], {}, false, {}, 2)
  {
    PushAccepts(QueueState([J(1, 0, 0)], map[1 := 1], {}, false, {}, 1), 2, 0);
    UpStops([J(1, 0, 0), J(2, 0, 1)], 1);
  }
  lemma InsertionOrderPush3()
    ensures PushStep(QueueState([J(1, 0, 0), J(2, 0, 1)], map[1 := 1, 2 := 1], {}, false, {}, 2), 3, Runnable(0)).0 ==
      QueueState([J(1, 0, 0), J(2, 0, 1), J(3, 0, 2)], map[1 := 1, 2 := 1, 3 := 1], {}, false, {}, 3)
  {
    PushAccepts(QueueState([J(1, 0, 0), J(2, 0, 1)], map[1 := 1, 2 := 1], {}, false, {}, 2), 3, 0);
    UpStops([J(1, 0, 0), J(2, 0, 1), J(3, 0, 2)], 2);
  }
  lemma InsertionOrderPushesFrom2()
    ensures PushAll(QueueState([J(1, 0, 0), J(2, 0, 1)], map[1 := 1, 2 := 1], {}, false, {}, 2), [3]) ==
      QueueState([J(1, 0, 0), J(2, 0, 1), J(3, 0, 2)], map[1 := 1, 2 := 1, 3 := 1], {}, false, {}, 3)
  {
    InsertionOrderPush3();
    assert [3][1..] == [];
  }
  lemma InsertionOrderPushesFrom1()
    ensures PushAll(QueueState([J(1, 0, 0)], map[1 := 1], {}, false, {}, 1), [2, 3]) ==
      QueueState([J(1, 0, 0), J(2, 0, 1), J(3, 0, 2)], map[1 := 1, 2 := 1, 3 := 1], {}, false, {}, 3)
  {
    InsertionOrderPush2();
    assert [2, 3][1..] == [3];
    InsertionOrderPushesFrom2();
  }
  lemma InsertionOrderPushesFrom0()
    ensures PushAll(QueueState([], map[], {}, false, {}, 0), [1, 2, 3]) ==
      QueueState([J(1, 0, 0), J(2, 0, 1), J(3, 0, 2)], map[1 := 1, 2 := 1, 3 := 1], {}, false, {}, 3)
  {
    InsertionOrderPush1();
    assert [1, 2, 3][1..] == [2, 3];
    InsertionOrderPushesFrom1();
  }
  lemma InsertionOrderHeap1()
    ensures PoppedHeap([J(1, 0, 0), J(2, 0, 1), J(3, 0, 2)]) == (J(1, 0, 0), [J(2, 0, 1), J(3, 0, 2)])
  {
    PoppedHeapIs([J(1, 0, 0), J(2, 0, 1), J(3, 0, 2)]);
    assert Swapped([J(1, 0, 0), J(2, 0, 1), J(3, 0, 2)], 0, 2) == [J(3, 0, 2), J(2, 0, 1), J(1, 0, 0)];
    assert SmallerChild([J(3, 0, 2), J(2, 0, 1), J(1, 0, 0)], 0, 2) == 1;
    DownSwaps([J(3, 0, 2), J(2, 0, 1), J(1, 0, 0)], 0, 2, 1);
    assert Swapped([J(3, 0, 2), J(2, 0, 1), J(1, 0, 0)], 0, 1) == [J(2, 0, 1), J(3, 0, 2), J(1, 0, 0)];
    DownAtLeaf([J(2, 0, 1), J(3, 0, 2), J(1, 0, 0)], 1, 2);
    assert [J(2, 0, 1), J(3, 0, 2), J(1, 0, 0)][..2] == [J(2, 0, 1), J(3, 0, 2)];
  }
  lemma InsertionOrderPromote1()
    ensures Promote([J(2, 0, 1), J(3, 0, 2)], 1, 0, 3) == ([J(2, 0, 1), J(3, 0, 2)], 3)
  {
    PromoteSkips([J(2, 0, 1), J(3, 0, 2)], 1, 0, 3);
    PromoteSkips([J(2, 0, 1), J(3, 0, 2)], 1, 1, 3);
    PromoteEnds([J(2, 0, 1), J(3, 0, 2)], 1, 3);
  }
  lemma InsertionOrderPop1()
    ensures PopStep(QueueState([J(1, 0, 0), J(2, 0, 1), J(3, 0, 2)], map[1 := 1, 2 := 1, 3 := 1], {}, false, {}, 3)) ==
      (QueueState([J(2, 0, 1), J(3, 0, 2)], map[2 := 1, 3 := 1], {}, false, {}, 3), Some(J(1, 0, 0)))
  {
    InsertionOrderHeap1();
    PopServes(QueueState([J(1, 0, 0), J(2, 0, 1), J(3, 0, 2)], map[1 := 1, 2 := 1, 3 := 1], {}, false, {}, 3), J(1, 0, 0), [J(2, 0, 1), J(3, 0, 2)]);
    InsertionOrderPromote1();
    assert Settled(map[1 := 1, 2 := 1, 3 := 1], 1) == map[2 := 1, 3 := 1];
  }
  lemma InsertionOrderHeap2()
    ensures PoppedHeap([J(2, 0, 1), J(3, 0, 2)]) == (J(2, 0, 1), [J(3, 0, 2)])
  {
    PoppedHeapIs([J(2, 0, 1), J(3, 0, 2)]);
    assert Swapped([J(2, 0, 1), J(3, 0, 2)], 0, 1) == [J(3, 0, 2), J(2, 0, 1)];
    DownAtLeaf([J(3, 0, 2), J(2, 0, 1)], 0, 1);
    assert [J(3, 0, 2), J(2, 0, 1)][..1] == [J(3, 0, 2)];
  }
  lemma InsertionOrderPromote2()
    ensures Promote([J(3, 0, 2)], 2, 0, 3) == ([J(3, 0, 2)], 3)
  {
    PromoteSkips([J(3, 0, 2)], 2, 0, 3);
    PromoteEnds([J(3, 0, 2)], 2, 3);
  }
  lemma InsertionOrderPop2()
    ensures PopStep(QueueState([J(2, 0, 1), J(3, 0, 2)], map[2 := 1, 3 := 1], {}, false, {}, 3)) ==
      (QueueState([J(3, 0, 2)], map[3 := 1], {}, false, {}, 3), Some(J(2, 0, 1)))
  {
    InsertionOrderHeap2();
    PopServes(QueueState([J(2, 0, 1), J(3, 0, 2)], map[2 := 1, 3 := 1], {}, false, {}, 3), J(2, 0, 1), [J(3, 0, 2)]);
    InsertionOrderPromote2();
    assert Settled(map[2 := 1, 3 := 1], 2) == map[3 := 1];
  }
  lemma InsertionOrderHeap3()
    ensures PoppedHeap([J(3, 0, 2)]) == (J(3, 0, 2), [])
  {
    PoppedHeapIs([J(3, 0, 2)]);
    assert Swapped([J(3, 0, 2)], 0, 0) == [J(3, 0, 2)];
    DownAtLeaf([J(3, 0, 2)], 0, 0);
    assert [J(3, 0, 2)][..0] == [];
  }
  lemma InsertionOrderPromote3()
    ensures Promote([], 3, 0, 3) == ([], 3)
  {
    PromoteEnds([], 3, 3);
  }
  lemma InsertionOrderPop3()
    ensures PopStep(QueueState([J(3, 0, 2)], map[3 := 1], {}, false, {}, 3)) ==
      (QueueState([], map[], {}, false, {}, 3), Some(J(3, 0, 2)))
  {
    InsertionOrderHeap3();
    PopServes(QueueState([J(3, 0, 2)], map[3 := 1], {}, false, {}, 3), J(3, 0, 2), []);
    InsertionOrderPromote3();
    assert Settled(map[3 := 1], 3) == map[];
  }
  lemma InsertionOrderOwners3(count: nat)
    requires count >= 2
    ensures PoppedOwners(QueueState([J(3, 0, 2)], map[3 := 1], {}, false, {}, 3), count) == [3] + PoppedOwners(QueueState([], map[], {}, false, {}, 3), count - 1)
  {
    InsertionOrderPop3();
    OwnersStep(QueueState([J(3, 0, 2)], map[3 := 1], {}, false, {}, 3), count, QueueState([], map[], {}, false, {}, 3), J(3, 0, 2));
  }
  lemma InsertionOrderPopsFrom2(count: nat)
    requires count >= 2
    ensures PoppedOwners(QueueState([J(3, 0, 2)], map[3 := 1], {}, false, {}, 3), count) == [3]
  {
    calc {
      PoppedOwners(QueueState([J(3, 0, 2)], map[3 := 1], {}, false, {}, 3), count);
    == { InsertionOrderOwners3(count); }
      [3] + PoppedOwners(QueueState([], map[], {}, false, {}, 3), count - 1);
    == { assert PoppedOwners(QueueState([], map[], {}, false, {}, 3), count - 1) == []; }
      [3] + [];
    ==
      [3];
    }
  }
  lemma InsertionOrderOwners2(count: nat)
    requires count >= 3
    ensures PoppedOwners(QueueState([J(2, 0, 1), J(3, 0, 2)], map[2 := 1, 3 := 1], {}, false, {}, 3), count) == [2] + PoppedOwners(QueueState([J(3, 0, 2)], map[3 := 1], {}, false, {}, 3), count - 1)
  {
    InsertionOrderPop2();
    OwnersStep(QueueState([J(2, 0, 1), J(3, 0, 2)], map[2 := 1, 3 := 1], {}, false, {}, 3), count, QueueState([J(3, 0, 2)], map[3 := 1], {}, false, {}, 3), J(2, 0, 1));
  }
  lemma InsertionOrderPopsFrom1(count: nat)
    requires count >= 3
    ensures PoppedOwners(QueueState([J(2, 0, 1), J(3, 0, 2)], map[2 := 1, 3 := 1], {}, false, {}, 3), count) == [2] + [3]
  {
    calc {
      PoppedOwners(QueueState([J(2, 0, 1), J(3, 0, 2)], map[2 := 1, 3 := 1], {}, false, {}, 3), count);
    == { InsertionOrderOwners2(count); }
      [2] + PoppedOwners(QueueState([J(3, 0, 2)], map[3 := 1], {}, false, {}, 3), count - 1);
    == { InsertionOrderPopsFrom2(count - 1); }
      [2] + [3];
    }
  }
  lemma InsertionOrderOwners1(count: nat)
    requires count >= 4
    ensures PoppedOwners(QueueState([J(1, 0, 0), J(2, 0, 1), J(3, 0, 2)], map[1 := 1, 2 := 1, 3 := 1], {}, false, {}, 3), count) == [1] + PoppedOwners(QueueState([J(2, 0, 1), J(3, 0, 2)], map[2 := 1, 3 := 1], {}, false, {}, 3), count - 1)
  {
    InsertionOrderPop1();
    OwnersStep(QueueState([J(1, 0, 0), J(2, 0, 1), J(3, 0, 2)], map[1 := 1, 2 := 1, 3 := 1], {}, false, {}, 3), count, QueueState([J(2, 0, 1), J(3, 0, 2)], map[2 := 1, 3 := 1], {}, false, {}, 3), J(1, 0, 0));
  }
  lemma InsertionOrderPopsFrom0(count: nat)
    requires count >= 4
    ensures PoppedOwners(QueueState([J(1, 0, 0), J(2, 0, 1), J(3, 0, 2)], map[1 := 1, 2 := 1, 3 := 1], {}, false, {}, 3), count) == [1] + ([2] + [3])
  {
    calc {
      PoppedOwners(QueueState([J(1, 0, 0), J(2, 0, 1), J(3, 0, 2)], map[1 := 1, 2 := 1, 3 := 1], {}, false, {}, 3), count);
    == { InsertionOrderOwners1(count); }
      [1] + PoppedOwners(QueueState([J(2, 0, 1), J(3, 0, 2)], map[2 := 1, 3 := 1], {}, false, {}, 3), count - 1);
    == { InsertionOrderPopsFrom1(count - 1); }
      [1] + ([2] + [3]);
    }
  }

  /**
   * `TestHonestJobQueue_InsertionOrder`: users 1, 2 and 3 push one job
   * each; three jobs are queued, they come out in the order 1, 2, 3, and
   * the queue is then empty.
   */
  lemma InsertionOrder()
    ensures |PushAll(Empty({}, 0), [1, 2, 3]).queue| == 3
    ensures PoppedOwners(PushAll(Empty({}, 0), [1, 2, 3]), 4) == [1, 2, 3]
  {
    InsertionOrderPushesFrom0();
    calc {
      PoppedOwners(PushAll(Empty({}, 0), [1, 2, 3]), 4);
    == { InsertionOrderPopsFrom0(4); }
      [1] + ([2] + [3]);
    ==
      [1, 2, 3];
    }
  }

  // ---------------------------------------------------------------------
  // User 1 pushes three jobs, then user 3 one, then user 2 two
  // ---------------------------------------------------------------------

  lemma RepeatUsersPush1()
    ensures PushStep(QueueState([], map[], {}, false, {}, 0), 1, Runnable(0)).0 ==
      QueueState([J(1, 0, 0)], map[1 := 1], {}, false, {}, 1)
  {
    PushAccepts(QueueState([], map[], {}, false, {}, 0), 1, 0);
    UpStops([J(1, 0, 0)], 0);
  }
  lemma RepeatUsersPush2()
    ensures PushStep(QueueState([J(1, 0, 0)], map[1 := 1], {}, false, {}, 1), 1, Runnable(0)).0 ==
      QueueState([J(1, 0, 0), J(1, 1, 1)], map[1 := 2], {}, false, {}, 2)
  {
    PushAccepts(QueueState([J(1, 0, 0)], map[1 := 1], {}, false, {}, 1), 1, 1);
    UpStops([J(1, 0, 0), J(1, 1, 1)], 1);
  }
  lemma RepeatUsersPush3()
    ensures PushStep(QueueState([J(1, 0, 0), J(1, 1, 1)], map[1 := 2], {}, false, {}, 2), 1, Runnable(0)).0 ==
      QueueState([J(1, 0, 0), J(1, 1, 1), J(1, 2, 2)], map[1 := 3], {}, false, {}, 3)
  {
    PushAccepts(QueueState([J(1, 0, 0), J(1, 1, 1)], map[1 := 2], {}, false, {}, 2), 1, 2);
    UpStops([J(1, 0, 0), J(1, 1, 1), J(1, 2, 2)], 2);
  }
  lemma RepeatUsersPush4()
    ensures PushStep(QueueState([J(1, 0, 0), J(1, 1, 1), J(1, 2, 2)], map[1 := 3], {}, false, {}, 3), 3, Runnable(0)).0 ==
      QueueState([J(1, 0, 0), J(3, 0, 3), J(1, 2, 2), J(1, 1, 1)], map[1 := 3, 3 := 1], {}, false, {}, 4)
  {
    PushAccepts(QueueState([J(1, 0, 0), J(1, 1, 1), J(1, 2, 2)], map[1 := 3], {}, false, {}, 3), 3, 0);
    UpSwaps([J(1, 0, 0), J(1, 1, 1), J(1, 2, 2), J(3, 0, 3)], 3);
    assert Swapped([J(1, 0, 0), J(1, 1, 1), J(1, 2, 2), J(3, 0, 3)], 1, 3) == [J(1, 0, 0), J(3, 0, 3), J(1, 2, 2), J(1, 1, 1)];
    UpStops([J(1, 0, 0), J(3, 0, 3), J(1, 2, 2), J(1, 1, 1)], 1);
  }
  lemma RepeatUsersPush5()
    ensures PushStep(QueueState([J(1, 0, 0), J(3, 0, 3), J(1, 2, 2), J(1, 1, 1)], map[1 := 3, 3 := 1], {}, false, {}, 4), 2, Runnable(0)).0 ==
      QueueState([J(1, 0, 0), J(3, 0, 3), J(1, 2, 2), J(1, 1, 1), J(2, 0, 4)], map[1 := 3, 3 := 1, 2 := 1], {}, false, {}, 5)
  {
    PushAccepts(QueueState([J(1, 0, 0), J(3, 0, 3), J(1, 2, 2), J(1, 1, 1)], map[1 := 3, 3 := 1], {}, false, {}, 4), 2, 0);
    UpStops([J(1, 0, 0), J(3, 0, 3), J(1, 2, 2), J(1, 1, 1), J(2, 0, 4)], 4);
  }
  lemma RepeatUsersPush6()
    ensures PushStep(QueueState([J(1, 0, 0), J(3, 0, 3), J(1, 2, 2), J(1, 1, 1), J(2, 0, 4)], map[1 := 3, 3 := 1, 2 := 1], {}, false, {}, 5), 2, Runnable(0)).0 ==
      QueueState([J(1, 0, 0), J(3, 0, 3), J(2, 1, 5), J(1, 1, 1), J(2, 0, 4), J(1, 2, 2)], map[1 := 3, 3 := 1, 2 := 2], {}, false, {}, 6)
  {
    PushAccepts(QueueState([J(1, 0, 0), J(3, 0, 3), J(1, 2, 2), J(1, 1, 1), J(2, 0, 4)], map[1 := 3, 3 := 1, 2 := 1], {}, false, {}, 5), 2, 1);
    UpSwaps([J(1, 0, 0), J(3, 0, 3), J(1, 2, 2), J(1, 1, 1), J(2, 0, 4), J(2, 1, 5)], 5);
    assert Swapped([J(1, 0, 0), J(3, 0, 3), J(1, 2, 2), J(1, 1, 1), J(2, 0, 4), J(2, 1, 5)], 2, 5) == [J(1, 0, 0), J(3, 0, 3), J(2, 1, 5), J(1, 1, 1), J(2, 0, 4), J(1, 2, 2)];
    UpStops([J(1, 0, 0), J(3, 0, 3), J(2, 1, 5), J(1, 1, 1), J(2, 0, 4), J(1, 2, 2)], 2);
  }
  lemma RepeatUsersPushesFrom5()
    ensures PushAll(QueueState([J(1, 0, 0), J(3, 0, 3), J(1, 2, 2), J(1, 1, 1), J(2, 0, 4)], map[1 := 3, 3 := 1, 2 := 1], {}, false, {}, 5), [2]) ==
      QueueState([J(1, 0, 0), J(3, 0, 3), J(2, 1, 5), J(1, 1, 1), J(2, 0, 4), J(1, 2, 2)], map[1 := 3, 3 := 1, 2 := 2], {}, false, {}, 6)
  {
    RepeatUsersPush6();
    assert [2][1..] == [];
  }
  lemma RepeatUsersPushesFrom4()
    ensures PushAll(QueueState([J(1, 0, 0), J(3, 0, 3), J(1, 2, 2), J(1, 1, 1)], map[1 := 3, 3 := 1], {}, false, {}, 4), [2, 2]) ==
      QueueState([J(1, 0, 0), J(3, 0, 3), J(2, 1, 5), J(1, 1, 1), J(2, 0, 4), J(1, 2, 2)], map[1 := 3, 3 := 1, 2 := 2], {}, false, {}, 6)
  {
    RepeatUsersPush5();
    assert [2, 2][1..] == [2];
    RepeatUsersPushesFrom5();
  }
  lemma RepeatUsersPushesFrom3()
    ensures PushAll(QueueState([J(1, 0, 0), J(1, 1, 1), J(1, 2, 2)], map[1 := 3], {}, false, {}, 3), [3, 2, 2]) ==
      QueueState([J(1, 0, 0), J(3, 0, 3), J(2, 1, 5), J(1, 1, 1), J(2, 0, 4), J(1, 2, 2)], map[1 := 3, 3 := 1, 2 := 2], {}, false, {}, 6)
  {
    RepeatUsersPush4();
    assert [3, 2, 2][1..] == [2, 2];
    RepeatUsersPushesFrom4();
  }
  lemma RepeatUsersPushesFrom2()
    ensures PushAll(QueueState([J(1, 0, 0), J(1, 1, 1)], map[1 := 2], {}, false, {}, 2), [1, 3, 2, 2]) ==
      QueueState([J(1, 0, 0), J(3, 0, 3), J(2, 1, 5), J(1, 1, 1), J(2, 0, 4), J(1, 2, 2)], map[1 := 3, 3 := 1, 2 := 2], {}, false, {}, 6)
  {
    RepeatUsersPush3();
    assert [1, 3, 2, 2][1..] == [3, 2, 2];
    RepeatUsersPushesFrom3();
  }
  lemma RepeatUsersPushesFrom1()
    ensures PushAll(QueueState([J(1, 0, 0)], map[1 := 1], {}, false, {}, 1), [1, 1, 3, 2, 2]) ==
      QueueState([J(1, 0, 0), J(3, 0, 3), J(2, 1, 5), J(1, 1, 1), J(2, 0, 4), J(1, 2, 2)], map[1 := 3, 3 := 1, 2 := 2], {}, false, {}, 6)
  {
    RepeatUsersPush2();
    assert [1, 1, 3, 2, 2][1..] == [1, 3, 2, 2];
    RepeatUsersPushesFrom2();
  }
  lemma RepeatUsersPushesFrom0()
    ensures PushAll(QueueState([], map[], {}, false, {}, 0), [1, 1, 1, 3, 2, 2]) ==
      QueueState([J(1, 0, 0), J(3, 0, 3), J(2, 1, 5), J(1, 1, 1), J(2, 0, 4), J(1, 2, 2)], map[1 := 3, 3 := 1, 2 := 2], {}, false, {}, 6)
  {
    RepeatUsersPush1();
    assert [1, 1, 1, 3, 2, 2][1..] == [1, 1, 3, 2, 2];
    RepeatUsersPushesFrom1();
  }
  lemma RepeatUsersHeap1()
    ensures PoppedHeap([J(1, 0, 0), J(3, 0, 3), J(2, 1, 5), J(1, 1, 1), J(2, 0, 4), J(1, 2, 2)]) == (J(1, 0, 0), [J(3, 0, 3), J(2, 0, 4), J(2, 1, 5), J(1, 1, 1), J(1, 2, 2)])
  {
    PoppedHeapIs([J(1, 0, 0), J(3, 0, 3), J(2, 1, 5), J(1, 1, 1), J(2, 0, 4), J(1, 2, 2)]);
    assert Swapped([J(1, 0, 0), J(3, 0, 3), J(2, 1, 5), J(1, 1, 1), J(2, 0, 4), J(1, 2, 2)], 0, 5) == [J(1, 2, 2), J(3, 0, 3), J(2, 1, 5), J(1, 1, 1), J(2, 0, 4), J(1, 0, 0)];
    assert SmallerChild([J(1, 2, 2), J(3, 0, 3), J(2, 1, 5), J(1, 1, 1), J(2, 0, 4), J(1, 0, 0)], 0, 5) == 1;
    DownSwaps([J(1, 2, 2), J(3, 0, 3), J(2, 1, 5), J(1, 1, 1), J(2, 0, 4), J(1, 0, 0)], 0, 5, 1);
    assert Swapped([J(1, 2, 2), J(3, 0, 3), J(2, 1, 5), J(1, 1, 1), J(2, 0, 4), J(1, 0, 0)], 0, 1) == [J(3, 0, 3), J(1, 2, 2), J(2, 1, 5), J(1, 1, 1), J(2, 0, 4), J(1, 0, 0)];
    assert SmallerChild([J(3, 0, 3), J(1, 2, 2), J(2, 1, 5), J(1, 1, 1), J(2, 0, 4), J(1, 0, 0)], 1, 5) == 4;
    DownSwaps([J(3, 0, 3), J(1, 2, 2), J(2, 1, 5), J(1, 1, 1), J(2, 0, 4), J(1, 0, 0)], 1, 5, 4);
    assert Swapped([J(3, 0, 3), J(1, 2, 2), J(2, 1, 5), J(1, 1, 1), J(2, 0, 4), J(1, 0, 0)], 1, 4) == [J(3, 0, 3), J(2, 0, 4), J(2, 1, 5), J(1, 1, 1), J(1, 2, 2), J(1, 0, 0)];
    DownAtLeaf([J(3, 0, 3), J(2, 0, 4), J(2, 1, 5), J(1, 1, 1), J(1, 2, 2), J(1, 0, 0)], 4, 5);
    assert [J(3, 0, 3), J(2, 0, 4), J(2, 1, 5), J(1, 1, 1), J(1, 2, 2), J(1, 0, 0)][..5] == [J(3, 0, 3), J(2, 0, 4), J(2, 1, 5), J(1, 1, 1), J(1, 2, 2)];
  }
  lemma RepeatUsersPromote1()
    ensures Promote([J(3, 0, 3), J(2, 0, 4), J(2, 1, 5), J(1, 1, 1), J(1, 2, 2)], 1, 0, 6) == ([J(3, 0, 3), J(2, 0, 4), J(2, 1, 5), J(1, 0, 6), J(1, 1, 7)], 8)
  {
    PromoteSkips([J(3, 0, 3), J(2, 0, 4), J(2, 1, 5), J(1, 1, 1), J(1, 2, 2)], 1, 0, 6);
    PromoteSkips([J(3, 0, 3), J(2, 0, 4), J(2, 1, 5), J(1, 1, 1), J(1, 2, 2)], 1, 1, 6);
    PromoteSkips([J(3, 0, 3), J(2, 0, 4), J(2, 1, 5), J(1, 1, 1), J(1, 2, 2)], 1, 2, 6);
    PromoteFixes([J(3, 0, 3), J(2, 0, 4), J(2, 1, 5), J(1, 1, 1), J(1, 2, 2)], 1, 3, 6);
    assert [J(3, 0, 3), J(2, 0, 4), J(2, 1, 5), J(1, 1, 1), J(1, 2, 2)][3 := Promoted(J(1, 1, 1), 6)] == [J(3, 0, 3), J(2, 0, 4), J(2, 1, 5), J(1, 0, 6), J(1, 2, 2)];
    FixLeafStays([J(3, 0, 3), J(2, 0, 4), J(2, 1, 5), J(1, 0, 6), J(1, 2, 2)], 3);
    PromoteFixes([J(3, 0, 3), J(2, 0, 4), J(2, 1, 5), J(1, 0, 6), J(1, 2, 2)], 1, 4, 7);
    assert [J(3, 0, 3), J(2, 0, 4), J(2, 1, 5), J(1, 0, 6), J(1, 2, 2)][4 := Promoted(J(1, 2, 2), 7)] == [J(3, 0, 3), J(2, 0, 4), J(2, 1, 5), J(1, 0, 6), J(1, 1, 7)];
    FixLeafStays([J(3, 0, 3), J(2, 0, 4), J(2, 1, 5), J(1, 0, 6), J(1, 1, 7)], 4);
    PromoteEnds([J(3, 0, 3), J(2, 0, 4), J(2, 1, 5), J(1, 0, 6), J(1, 1, 7)], 1, 8);
  }
  lemma RepeatUsersPop1()
    ensures PopStep(QueueState([J(1, 0, 0), J(3, 0, 3), J(2, 1, 5), J(1, 1, 1), J(2, 0, 4), J(1, 2, 2)], map[1 := 3, 3 := 1, 2 := 2], {}, false, {}, 6)) ==
      (QueueState([J(3, 0, 3), J(2, 0, 4), J(2, 1, 5), J(1, 0, 6), J(1, 1, 7)], map[1 := 2, 3 := 1, 2 := 2], {}, false, {}, 8), Some(J(1, 0, 0)))
  {
    RepeatUsersHeap1();
    PopServes(QueueState([J(1, 0, 0), J(3, 0, 3), J(2, 1, 5), J(1, 1, 1), J(2, 0, 4), J(1, 2, 2)], map[1 := 3, 3 := 1, 2 := 2], {}, false, {}, 6), J(1, 0, 0), [J(3, 0, 3), J(2, 0, 4), J(2, 1, 5), J(1, 1, 1), J(1, 2, 2)]);
    RepeatUsersPromote1();
    assert Settled(map[1 := 3, 3 := 1, 2 := 2], 1) == map[1 := 2, 3 := 1, 2 := 2];
  }
  lemma RepeatUsersHeap2()
    ensures PoppedHeap([J(3, 0, 3), J(2, 0, 4), J(2, 1, 5), J(1, 0, 6), J(1, 1, 7)]) == (J(3, 0, 3), [J(2, 0, 4), J(1, 0, 6), J(2, 1, 5), J(1, 1, 7)])
  {
    PoppedHeapIs([J(3, 0, 3), J(2, 0, 4), J(2, 1, 5), J(1, 0, 6), J(1, 1, 7)]);
    assert Swapped([J(3, 0, 3), J(2, 0, 4), J(2, 1, 5), J(1, 0, 6), J(1, 1, 7)], 0, 4) == [J(1, 1, 7), J(2, 0, 4), J(2, 1, 5), J(1, 0, 6), J(3, 0, 3)];
    assert SmallerChild([J(1, 1, 7), J(2, 0, 4), J(2, 1, 5), J(1, 0, 6), J(3, 0, 3)], 0, 4) == 1;
    DownSwaps([J(1, 1, 7), J(2, 0, 4), J(2, 1, 5), J(1, 0, 6), J(3, 0, 3)], 0, 4, 1);
    assert Swapped([J(1, 1, 7), J(2, 0, 4), J(2, 1, 5), J(1, 0, 6), J(3, 0, 3)], 0, 1) == [J(2, 0, 4), J(1, 1, 7), J(2, 1, 5), J(1, 0, 6), J(3, 0, 3)];
    assert SmallerChild([J(2, 0, 4), J(1, 1, 7), J(2, 1, 5), J(1, 0, 6), J(3, 0, 3)], 1, 4) == 3;
    DownSwaps([J(2, 0, 4), J(1, 1, 7), J(2, 1, 5), J(1, 0, 6), J(3, 0, 3)], 1, 4, 3);
    assert Swapped([J(2, 0, 4), J(1, 1, 7), J(2, 1, 5), J(1, 0, 6), J(3, 0, 3)], 1, 3) == [J(2, 0, 4), J(1, 0, 6), J(2, 1, 5), J(1, 1, 7), J(3, 0, 3)];
    DownAtLeaf([J(2, 0, 4), J(1, 0, 6), J(2, 1, 5), J(1, 1, 7), J(3, 0, 3)], 3, 4);
    assert [J(2, 0, 4), J(1, 0, 6), J(2, 1, 5), J(1, 1, 7), J(3, 0, 3)][..4] == [J(2, 0, 4), J(1, 0, 6), J(2, 1, 5), J(1, 1, 7)];
  }
  lemma RepeatUsersPromote2()
    ensures Promote([J(2, 0, 4), J(1, 0, 6), J(2, 1, 5), J(1, 1, 7)], 3, 0, 8) == ([J(2, 0, 4), J(1, 0, 6), J(2, 1, 5), J(1, 1, 7)], 8)
  {
    PromoteSkips([J(2, 0, 4), J(1, 0, 6), J(2, 1, 5), J(1, 1, 7)], 3, 0, 8);
    PromoteSkips([J(2, 0, 4), J(1, 0, 6), J(2, 1, 5), J(1, 1, 7)], 3, 1, 8);
    PromoteSkips([J(2, 0, 4), J(1, 0, 6), J(2, 1, 5), J(1, 1, 7)], 3, 2, 8);
    PromoteSkips([J(2, 0, 4), J(1, 0, 6), J(2, 1, 5), J(1, 1, 7)], 3, 3, 8);
    PromoteEnds([J(2, 0, 4), J(1, 0, 6), J(2, 1, 5), J(1, 1, 7)], 3, 8);
  }
  lemma RepeatUsersPop2()
    ensures PopStep(QueueState([J(3, 0, 3), J(2, 0, 4), J(2, 1, 5), J(1, 0, 6), J(1, 1, 7)], map[1 := 2, 3 := 1, 2 := 2], {}, false, {}, 8)) ==
      (QueueState([J(2, 0, 4), J(1, 0, 6), J(2, 1, 5), J(1, 1, 7)], map[1 := 2, 2 := 2], {}, false, {}, 8), Some(J(3, 0, 3)))
  {
    RepeatUsersHeap2();
    PopServes(QueueState([J(3, 0, 3), J(2, 0, 4), J(2, 1, 5), J(1, 0, 6), J(1, 1, 7)], map[1 := 2, 3 := 1, 2 := 2], {}, false, {}, 8), J(3, 0, 3), [J(2, 0, 4), J(1, 0, 6), J(2, 1, 5), J(1, 1, 7)]);
    RepeatUsersPromote2();
    assert Settled(map[1 := 2, 3 := 1, 2 := 2], 3) == map[1 := 2, 2 := 2];
  }
  lemma RepeatUsersHeap3()
    ensures PoppedHeap([J(2, 0, 4), J(1, 0, 6), J(2, 1, 5), J(1, 1, 7)]) == (J(2, 0, 4), [J(1, 0, 6), J(1, 1, 7), J(2, 1, 5)])
  {
    PoppedHeapIs([J(2, 0, 4), J(1, 0, 6), J(2, 1, 5), J(1, 1, 7)]);
    assert Swapped([J(2, 0, 4), J(1, 0, 6), J(2, 1, 5), J(1, 1, 7)], 0, 3) == [J(1, 1, 7), J(1, 0, 6), J(2, 1, 5), J(2, 0, 4)];
    assert SmallerChild([J(1, 1, 7), J(1, 0, 6), J(2, 1, 5), J(2, 0, 4)], 0, 3) == 1;
    DownSwaps([J(1, 1, 7), J(1, 0, 6), J(2, 1, 5), J(2, 0, 4)], 0, 3, 1);
    assert Swapped([J(1, 1, 7), J(1, 0, 6), J(2, 1, 5), J(2, 0, 4)], 0, 1) == [J(1, 0, 6), J(1, 1, 7), J(2, 1, 5), J(2, 0, 4)];
    DownAtLeaf([J(1, 0, 6), J(1, 1, 7), J(2, 1, 5), J(2, 0, 4)], 1, 3);
    assert [J(1, 0, 6), J(1, 1, 7), J(2, 1, 5), J(2, 0, 4)][..3] == [J(1, 0, 6), J(1, 1, 7), J(2, 1, 5)];
  }
  lemma RepeatUsersPromote3()
    ensures Promote([J(1, 0, 6), J(1, 1, 7), J(2, 1, 5)], 2, 0, 8) == ([J(1, 0, 6), J(1, 1, 7), J(2, 0, 8)], 9)
  {
    PromoteSkips([J(1, 0, 6), J(1, 1, 7), J(2, 1, 5)], 2, 0, 8);
    PromoteSkips([J(1, 0, 6), J(1, 1, 7), J(2, 1, 5)], 2, 1, 8);
    PromoteFixes([J(1, 0, 6), J(1, 1, 7), J(2, 1, 5)], 2, 2, 8);
    assert [J(1, 0, 6), J(1, 1, 7), J(2, 1, 5)][2 := Promoted(J(2, 1, 5), 8)] == [J(1, 0, 6), J(1, 1, 7), J(2, 0, 8)];
    FixLeafStays([J(1, 0, 6), J(1, 1, 7), J(2, 0, 8)], 2);
    PromoteEnds([J(1, 0, 6), J(1, 1, 7), J(2, 0, 8)], 2, 9);
  }
  lemma RepeatUsersPop3()
    ensures PopStep(QueueState([J(2, 0, 4), J(1, 0, 6), J(2, 1, 5), J(1, 1, 7)], map[1 := 2, 2 := 2], {}, false, {}, 8)) ==
      (QueueState([J(1, 0, 6), J(1, 1, 7), J(2, 0, 8)], map[1 := 2, 2 := 1], {}, false, {}, 9), Some(J(2, 0, 4)))
  {
    RepeatUsersHeap3();
    PopServes(QueueState([J(2, 0, 4), J(1, 0, 6), J(2, 1, 5), J(1, 1, 7)], map[1 := 2, 2 := 2], {}, false, {}, 8), J(2, 0, 4), [J(1, 0, 6), J(1, 1, 7), J(2, 1, 5)]);
    RepeatUsersPromote3();
    assert Settled(map[1 := 2, 2 := 2], 2) == map[1 := 2, 2 := 1];
  }
  lemma RepeatUsersHeap4()
    ensures PoppedHeap([J(1, 0, 6), J(1, 1, 7), J(2, 0, 8)]) == (J(1, 0, 6), [J(2, 0, 8), J(1, 1, 7)])
  {
    PoppedHeapIs([J(1, 0, 6), J(1, 1, 7), J(2, 0, 8)]);
    assert Swapped([J(1, 0, 6), J(1, 1, 7), J(2, 0, 8)], 0, 2) == [J(2, 0, 8), J(1, 1, 7), J(1, 0, 6)];
    assert SmallerChild([J(2, 0, 8), J(1, 1, 7), J(1, 0, 6)], 0, 2) == 1;
    DownStops([J(2, 0, 8), J(1, 1, 7), J(1, 0, 6)], 0, 2);
    assert [J(2, 0, 8), J(1, 1, 7), J(1, 0, 6)][..2] == [J(2, 0, 8), J(1, 1, 7)];
  }
  lemma RepeatUsersPromote4()
    ensures Promote([J(2, 0, 8), J(1, 1, 7)], 1, 0, 9) == ([J(2, 0, 8), J(1, 0, 9)], 10)
  {
    PromoteSkips([J(2, 0, 8), J(1, 1, 7)], 1, 0, 9);
    PromoteFixes([J(2, 0, 8), J(1, 1, 7)], 1, 1, 9);
    assert [J(2, 0, 8), J(1, 1, 7)][1 := Promoted(J(1, 1, 7), 9)] == [J(2, 0, 8), J(1, 0, 9)];
    FixLeafStays([J(2, 0, 8), J(1, 0, 9)], 1);
    PromoteEnds([J(2, 0, 8), J(1, 0, 9)], 1, 10);
  }
  lemma RepeatUsersPop4()
    ensures PopStep(QueueState([J(1, 0, 6), J(1, 1, 7), J(2, 0, 8)], map[1 := 2, 2 := 1], {}, false, {}, 9)) ==
      (QueueState([J(2, 0, 8), J(1, 0, 9)], map[1 := 1, 2 := 1], {}, false, {}, 10), Some(J(1, 0, 6)))
  {
    RepeatUsersHeap4();
    PopServes(QueueState([J(1, 0, 6), J(1, 1, 7), J(2, 0, 8)], map[1 := 2, 2 := 1], {}, false, {}, 9), J(1, 0, 6), [J(2, 0, 8), J(1, 1, 7)]);
    RepeatUsersPromote4();
    assert Settled(map[1 := 2, 2 := 1], 1) == map[1 := 1, 2 := 1];
  }
  lemma RepeatUsersHeap5()
    ensures PoppedHeap([J(2, 0, 8), J(1, 0, 9)]) == (J(2, 0, 8), [J(1, 0, 9)])
  {
    PoppedHeapIs([J(2, 0, 8), J(1, 0, 9)]);
    assert Swapped([J(2, 0, 8), J(1, 0, 9)], 0, 1) == [J(1, 0, 9), J(2, 0, 8)];
    DownAtLeaf([J(1, 0, 9), J(2, 0, 8)], 0, 1);
    assert [J(1, 0, 9), J(2, 0, 8)][..1] == [J(1, 0, 9)];
  }
  lemma RepeatUsersPromote5()
    ensures Promote([J(1, 0, 9)], 2, 0, 10) == ([J(1, 0, 9)], 10)
  {
    PromoteSkips([J(1, 0, 9)], 2, 0, 10);
    PromoteEnds([J(1, 0, 9)], 2, 10);
  }
  lemma RepeatUsersPop5()
    ensures PopStep(QueueState([J(2, 0, 8), J(1, 0, 9)], map[1 := 1, 2 := 1], {}, false, {}, 10)) ==
      (QueueState([J(1, 0, 9)], map[1 := 1], {}, false, {}, 10), Some(J(2, 0, 8)))
  {
    RepeatUsersHeap5();
    PopServes(QueueState([J(2, 0, 8), J(1, 0, 9)], map[1 := 1, 2 := 1], {}, false, {}, 10), J(2, 0, 8), [J(1, 0, 9)]);
    RepeatUsersPromote5();
    assert Settled(map[1 := 1, 2 := 1], 2) == map[1 := 1];
  }
  lemma RepeatUsersHeap6()
    ensures PoppedHeap([J(1, 0, 9)]) == (J(1, 0, 9), [])
  {
    PoppedHeapIs([J(1, 0, 9)]);
    assert Swapped([J(1, 0, 9)], 0, 0) == [J(1, 0, 9)];
    DownAtLeaf([J(1, 0, 9)], 0, 0);
    assert [J(1, 0, 9)][..0] == [];
  }
  lemma RepeatUsersPromote6()
    ensures Promote([], 1, 0, 10) == ([], 10)
  {
    PromoteEnds([], 1, 10);
  }
  lemma RepeatUsersPop6()
    ensures PopStep(QueueState([J(1, 0, 9)], map[1 := 1], {}, false, {}, 10)) ==
      (QueueState([], map[], {}, false, {}, 10), Some(J(1, 0, 9)))
  {
    RepeatUsersHeap6();
    PopServes(QueueState([J(1, 0, 9)], map[1 := 1], {}, false, {}, 10), J(1, 0, 9), []);
    RepeatUsersPromote6();
    assert Settled(map[1 := 1], 1) == map[];
  }
  lemma RepeatUsersOwners6(count: nat)
    requires count >= 2
    ensures PoppedOwners(QueueState([J(1, 0, 9)], map[1 := 1], {}, false, {}, 10), count) == [1] + PoppedOwners(QueueState([], map[], {}, false, {}, 10), count - 1)
  {
    RepeatUsersPop6();
    OwnersStep(QueueState([J(1, 0, 9)], map[1 := 1], {}, false, {}, 10), count, QueueState([], map[], {}, false, {}, 10), J(1, 0, 9));
  }
  lemma RepeatUsersPopsFrom5(count: nat)
    requires count >= 2
    ensures PoppedOwners(QueueState([J(1, 0, 9)], map[1 := 1], {}, false, {}, 10), count) == [1]
  {
    calc {
      PoppedOwners(QueueState([J(1, 0, 9)], map[1 := 1], {}, false, {}, 10), count);
    == { RepeatUsersOwners6(count); }
      [1] + PoppedOwners(QueueState([], map[], {}, false, {}, 10), count - 1);
    == { assert PoppedOwners(QueueState([], map[], {}, false, {}, 10), count - 1) == []; }
      [1] + [];
    ==
      [1];
    }
  }
  lemma RepeatUsersOwners5(count: nat)
    requires count >= 3
    ensures PoppedOwners(QueueState([J(2, 0, 8), J(1, 0, 9)], map[1 := 1, 2 := 1], {}, false, {}, 10), count) == [2] + PoppedOwners(QueueState([J(1, 0, 9)], map[1 := 1], {}, false, {}, 10), count - 1)
  {
    RepeatUsersPop5();
    OwnersStep(QueueState([J(2, 0, 8), J(1, 0, 9)], map[1 := 1, 2 := 1], {}, false, {}, 10), count, QueueState([J(1, 0, 9)], map[1 := 1], {}, false, {}, 10), J(2, 0, 8));
  }
  lemma RepeatUsersPopsFrom4(count: nat)
    requires count >= 3
    ensures PoppedOwners(QueueState([J(2, 0, 8), J(1, 0, 9)], map[1 := 1, 2 := 1], {}, false, {}, 10), count) == [2] + [1]
  {
    calc {
      PoppedOwners(QueueState([J(2, 0, 8), J(1, 0, 9)], map[1 := 1, 2 := 1], {}, false, {}, 10), count);
    == { RepeatUsersOwners5(count); }
      [2] + PoppedOwners(QueueState([J(1, 0, 9)], map[1 := 1], {}, false, {}, 10), count - 1);
    == { RepeatUsersPopsFrom5(count - 1); }
      [2] + [1];
    }
  }
  lemma RepeatUsersOwners4(count: nat)
    requires count >= 4
    ensures PoppedOwners(QueueState([J(1, 0, 6), J(1, 1, 7), J(2, 0, 8)], map[1 := 2, 2 := 1], {}, false, {}, 9), count) == [1] + PoppedOwners(QueueState([J(2, 0, 8), J(1, 0, 9)], map[1 := 1, 2 := 1], {}, false, {}, 10), count - 1)
  {
    RepeatUsersPop4();
    OwnersStep(QueueState([J(1, 0, 6), J(1, 1, 7), J(2, 0, 8)], map[1 := 2, 2 := 1], {}, false, {}, 9), count, QueueState([J(2, 0, 8), J(1, 0, 9)], map[1 := 1, 2 := 1], {}, false, {}, 10), J(1, 0, 6));
  }
  lemma RepeatUsersPopsFrom3(count: nat)
    requires count >= 4
    ensures PoppedOwners(QueueState([J(1, 0, 6), J(1, 1, 7), J(2, 0, 8)], map[1 := 2, 2 := 1], {}, false, {}, 9), count) == [1] + ([2] + [1])
  {
    calc {
      PoppedOwners(QueueState([J(1, 0, 6), J(1, 1, 7), J(2, 0, 8)], map[1 := 2, 2 := 1], {}, false, {}, 9), count);
    == { RepeatUsersOwners4(count); }
      [1] + PoppedOwners(QueueState([J(2, 0, 8), J(1, 0, 9)], map[1 := 1, 2 := 1], {}, false, {}, 10), count - 1);
    == { RepeatUsersPopsFrom4(count - 1); }
      [1] + ([2] + [1]);
    }
  }
  lemma RepeatUsersOwners3(count: nat)
    requires count >= 5
    ensures PoppedOwners(QueueState([J(2, 0, 4), J(1, 0, 6), J(2, 1, 5), J(1, 1, 7)], map[1 := 2, 2 := 2], {}, false, {}, 8), count) == [2] + PoppedOwners(QueueState([J(1, 0, 6), J(1, 1, 7), J(2, 0, 8)], map[1 := 2, 2 := 1], {}, false, {}, 9), count - 1)
  {
    RepeatUsersPop3();
    OwnersStep(QueueState([J(2, 0, 4), J(1, 0, 6), J(2, 1, 5), J(1, 1, 7)], map[1 := 2, 2 := 2], {}, false, {}, 8), count, QueueState([J(1, 0, 6), J(1, 1, 7), J(2, 0, 8)], map[1 := 2, 2 := 1], {}, false, {}, 9), J(2, 0, 4));
  }
  lemma RepeatUsersPopsFrom2(count: nat)
    requires count >= 5
    ensures PoppedOwners(QueueState([J(2, 0, 4), J(1, 0, 6), J(2, 1, 5), J(1, 1, 7)], map[1 := 2, 2 := 2], {}, false, {}, 8), count) == [2] + ([1] + ([2] + [1]))
  {
    calc {
      PoppedOwners(QueueState([J(2, 0, 4), J(1, 0, 6), J(2, 1, 5), J(1, 1, 7)], map[1 := 2, 2 := 2], {}, false, {}, 8), count);
    == { RepeatUsersOwners3(count); }
      [2] + PoppedOwners(QueueState([J(1, 0, 6), J(1, 1, 7), J(2, 0, 8)], map[1 := 2, 2 := 1], {}, false, {}, 9), count - 1);
    == { RepeatUsersPopsFrom3(count - 1); }
      [2] + ([1] + ([2] + [1]));
    }
  }
  lemma RepeatUsersOwners2(count: nat)
    requires count >= 6
    ensures PoppedOwners(QueueState([J(3, 0, 3), J(2, 0, 4), J(2, 1, 5), J(1, 0, 6), J(1, 1, 7)], map[1 := 2, 3 := 1, 2 := 2], {}, false, {}, 8), count) == [3] + PoppedOwners(QueueState([J(2, 0, 4), J(1, 0, 6), J(2, 1, 5), J(1, 1, 7)], map[1 := 2, 2 := 2], {}, false, {}, 8), count - 1)
  {
    RepeatUsersPop2();
    OwnersStep(QueueState([J(3, 0, 3), J(2, 0, 4), J(2, 1, 5), J(1, 0, 6), J(1, 1, 7)], map[1 := 2, 3 := 1, 2 := 2], {}, false, {}, 8), count, QueueState([J(2, 0, 4), J(1, 0, 6), J(2, 1, 5), J(1, 1, 7)], map[1 := 2, 2 := 2], {}, false, {}, 8), J(3, 0, 3));
  }
  lemma RepeatUsersPopsFrom1(count: nat)
    requires count >= 6
    ensures PoppedOwners(QueueState([J(3, 0, 3), J(2, 0, 4), J(2, 1, 5), J(1, 0, 6), J(1, 1, 7)], map[1 := 2, 3 := 1, 2 := 2], {}, false, {}, 8), count) == [3] + ([2] + ([1] + ([2] + [1])))
  {
    calc {
      PoppedOwners(QueueState([J(3, 0, 3), J(2, 0, 4), J(2, 1, 5), J(1, 0, 6), J(1, 1, 7)], map[1 := 2, 3 := 1, 2 := 2], {}, false, {}, 8), count);
    == { RepeatUsersOwners2(count); }
      [3] + PoppedOwners(QueueState([J(2, 0, 4), J(1, 0, 6), J(2, 1, 5), J(1, 1, 7)], map[1 := 2, 2 := 2], {}, false, {}, 8), count - 1);
    == { RepeatUsersPopsFrom2(count - 1); }
      [3] + ([2] + ([1] + ([2] + [1])));
    }
  }
  lemma RepeatUsersOwners1(count: nat)
    requires count >= 7
    ensures PoppedOwners(QueueState([J(1, 0, 0), J(3, 0, 3), J(2, 1, 5), J(1, 1, 1), J(2, 0, 4), J(1, 2, 2)], map[1 := 3, 3 := 1, 2 := 2], {}, false, {}, 6), count) == [1] + PoppedOwners(QueueState([J(3, 0, 3), J(2, 0, 4), J(2, 1, 5), J(1, 0, 6), J(1, 1, 7)], map[1 := 2, 3 := 1, 2 := 2], {}, false, {}, 8), count - 1)
  {
    RepeatUsersPop1();
    OwnersStep(QueueState([J(1, 0, 0), J(3, 0, 3), J(2, 1, 5), J(1, 1, 1), J(2, 0, 4), J(1, 2, 2)], map[1 := 3, 3 := 1, 2 := 2], {}, false, {}, 6), count, QueueState([J(3, 0, 3), J(2, 0, 4), J(2, 1, 5), J(1, 0, 6), J(1, 1, 7)], map[1 := 2, 3 := 1, 2 := 2], {}, false, {}, 8), J(1, 0, 0));
  }
  lemma RepeatUsersPopsFrom0(count: nat)
    requires count >= 7
    ensures PoppedOwners(QueueState([J(1, 0, 0), J(3, 0, 3), J(2, 1, 5), J(1, 1, 1), J(2, 0, 4), J(1, 2, 2)], map[1 := 3, 3 := 1, 2 := 2], {}, false, {}, 6), count) == [1] + ([3] + ([2] + ([1] + ([2] + [1]))))
  {
    calc {
      PoppedOwners(QueueState([J(1, 0, 0), J(3, 0, 3), J(2, 1, 5), J(1, 1, 1), J(2, 0, 4), J(1, 2, 2)], map[1 := 3, 3 := 1, 2 := 2], {}, false, {}, 6), count);
    == { RepeatUsersOwners1(count); }
      [1] + PoppedOwners(QueueState([J(3, 0, 3), J(2, 0, 4), J(2, 1, 5), J(1, 0, 6), J(1, 1, 7)], map[1 := 2, 3 := 1, 2 := 2], {}, false, {}, 8), count - 1);
    == { RepeatUsersPopsFrom1(count - 1); }
      [1] + ([3] + ([2] + ([1] + ([2] + [1]))));
    }
  }

  /**
   * `TestHonestJobQueue_RepeatUsers`: user 1 pushes three jobs, user 3
   * one, user 2 two; six jobs are queued and they come out owned by
   * 1, 3, 2, 1, 2, 1, after which the queue is empty.
   */
  lemma RepeatUsers()
    ensures |PushAll(Empty({}, 0), [1, 1, 1, 3, 2, 2]).queue| == 6
    ensures PoppedOwners(PushAll(Empty({}, 0), [1, 1, 1, 3, 2, 2]), 7) == [1, 3, 2, 1, 2, 1]
  {
    RepeatUsersPushesFrom0();
    calc {
      PoppedOwners(PushAll(Empty({}, 0), [1, 1, 1, 3, 2, 2]), 7);
    == { RepeatUsersPopsFrom0(7); }
      [1] + ([3] + ([2] + ([1] + ([2] + [1]))));
    ==
      [1, 3, 2, 1, 2, 1];
    }
  }
}
