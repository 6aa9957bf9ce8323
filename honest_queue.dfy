/**
 * The fairness-aware job queue (app/queue/honest_priority_queue.go).
 *
 * A job's priority is its owner's backlog at submission time, so a user's
 * first job ties with everybody's first job and later ones queue behind.
 * Each time one of a user's jobs is popped, that user's remaining jobs move
 * up one level and are restamped. The queue also keeps a set of banned
 * users, a maintenance flag and a set of chats that always go first.
 *
 * The mutex is dropped: the model is single-threaded. `time.Now()` is a
 * logical clock, the field `clock`, which holds the next reading and
 * advances by one on every reading.
 *
 * QueueState and the Step functions describe each operation on plain
 * values; the HonestJobQueue class runs the code and is proved to produce
 * exactly what they describe. The lemmas state what the code promises.
 */
module HonestQueue {
  import opened Wrappers
  import opened Jobs
  import opened PriorityQueues
  import ContainerHeap

  /** Push is refused once more than this many jobs are queued. */
  const QueueLimit := 2000
  /** Push is refused when the new job's priority would exceed this. */
  const MaxBacklogPriority := 2
  /** The fixed priority of a job from one of the priority chats. */
  const PriorityChatPriority := -2

  datatype PushError = Maintenance | TooManyQueued | TooOften

  datatype QueueState = QueueState(
    queue: seq<Job>,
    users: map<int, int>,
    banned: set<int>,
    maintenance: bool,
    priorityChats: set<int>,
    clock: int)

  /** `users[userID]` as Go reads it: 0 for a missing key. */
  function Backlog(users: map<int, int>, userID: int): int
  {
    if userID in users then users[userID] else 0
  }

  /** `NewHonestJobQueue(initialCapacity, priorityChats)`, with the clock at `clock`. */
  function Empty(priorityChats: set<int>, clock: int): QueueState
  {
    QueueState([], map[], {}, false, priorityChats, clock)
  }

  /** What the queue is expected to keep: heap order and stamps older than the clock. */
  ghost predicate Inv(st: QueueState)
  {
    ContainerHeap.IsHeap(st.queue, |st.queue|) &&
    forall k :: 0 <= k < |st.queue| ==> st.queue[k].insertionTime < st.clock
  }

  /** The priority `Push` computes for `userID`. */
  function PriorityFor(st: QueueState, userID: int): int
  {
    if userID in st.priorityChats then PriorityChatPriority else Backlog(st.users, userID)
  }

  /** `Push(userID, runnable)`: the new state and the error, `None` for nil. */
  function PushStep(st: QueueState, userID: int, runnable: Runnable): (QueueState, Option<PushError>)
  {
    if st.maintenance then (st, Some(Maintenance))
    else if |st.queue| > QueueLimit then (st, Some(TooManyQueued))
    else
      var priority := PriorityFor(st, userID);
      if priority > MaxBacklogPriority then
        // the rejected submission still decrements the counter
        (st.(users := st.users[userID := Backlog(st.users, userID) - 1]), Some(TooOften))
      else (Admitted(st, userID, priority, runnable), None)
  }

  /** The accepting tail of `Push`: the ban is lifted, the job counted, stamped and pushed. */
  function Admitted(st: QueueState, userID: int, priority: int, runnable: Runnable): QueueState
  {
    var job := NewJob(userID, priority, runnable, st.clock);
    st.(queue := ContainerHeap.PushedHeap(st.queue, job),
        users := st.users[userID := priority + 1],
        banned := st.banned - {userID},
        clock := st.clock + 1)
  }

  /** A queued job of the popped user, moved up one level and restamped at `now`. */
  function Promoted(j: Job, now: int): (p: Job)
    ensures p.runnable == j.runnable && p.userID == j.userID
    ensures p.priority == j.priority - 1 && p.insertionTime == now
  {
    j.(priority := j.priority - 1, insertionTime := now)
  }

  /**
   * One iteration of `updatePriorities(userID)` at position `i`, with
   * `clock` the next reading: a job of `userID` found there is promoted and
   * `heap.Fix` is called on it. Returns the sequence and the next reading.
   */
  function PromoteAt(s: seq<Job>, userID: int, i: nat, clock: int): (r: (seq<Job>, int))
    requires i < |s|
    ensures |r.0| == |s|
  {
    if s[i].userID != userID then (s, clock)
    else (ContainerHeap.FixedHeap(s[i := Promoted(s[i], clock)], i), clock + 1)
  }

  /** `updatePriorities(userID)` from position `i` on: the loop visits the positions in order. */
  function Promote(s: seq<Job>, userID: int, i: nat, clock: int): (r: (seq<Job>, int))
    requires i <= |s|
    ensures |r.0| == |s|
    decreases |s| - i
  {
    if i == |s| then (s, clock)
    else
      var next := PromoteAt(s, userID, i, clock);
      Promote(next.0, userID, i + 1, next.1)
  }

  /** The backlog after one of `userID`'s jobs left: decremented, and deleted at zero. */
  function Settled(users: map<int, int>, userID: int): (r: map<int, int>)
    ensures userID in r <==> Backlog(users, userID) != 1
    ensures userID in r ==> r[userID] == Backlog(users, userID) - 1
    ensures forall u :: u != userID ==> (u in r <==> u in users) && (u in r ==> r[u] == users[u])
  {
    var left := Backlog(users, userID) - 1;
    if left == 0 then users - {userID} else users[userID := left]
  }

  /**
   * `Pop()`; Go's `heap.Pop` panics on an empty queue. When the first
   * popped job's owner is banned, the loop condition is never re-read, so
   * every remaining job is popped and discarded and nil is returned.
   */
  function PopStep(st: QueueState): (QueueState, Option<Job>)
    requires |st.queue| > 0
  {
    var (job, rest) := ContainerHeap.PoppedHeap(st.queue);
    if job.userID in st.banned then (st.(queue := []), None)
    else (Served(st.(queue := rest), job), Some(job))
  }

  /** The tail of `Pop` once `job` has left the queue: settle the owner's backlog and promote the owner's other jobs. */
  function Served(st: QueueState, job: Job): QueueState
  {
    var (promoted, clock) := Promote(st.queue, job.userID, 0, st.clock);
    st.(queue := promoted, users := Settled(st.users, job.userID), clock := clock)
  }

  // ---------------------------------------------------------------------
  // Promotion, position by position
  // ---------------------------------------------------------------------

  /** Number of jobs of `userID` in `s`. */
  function CountOf(s: seq<Job>, userID: int): nat
  {
    if s == [] then 0
    else CountOf(s[..|s| - 1], userID) + (if s[|s| - 1].userID == userID then 1 else 0)
  }

  /**
   * `s` with every job of `userID` promoted, the first one (by position)
   * stamped `now`, the next `now + 1`, and so on.
   */
  function PromotedAll(s: seq<Job>, userID: int, now: int): seq<Job>
  {
    if s == [] then []
    else
      var init, last := s[..|s| - 1], s[|s| - 1];
      PromotedAll(init, userID, now) +
      [if last.userID == userID then Promoted(last, now + CountOf(init, userID)) else last]
  }

  /** What `PromotedAll` does at each position. */
  lemma {:induction false} PromotedAllAt(s: seq<Job>, userID: int, now: int)
    ensures |PromotedAll(s, userID, now)| == |s|
    ensures forall k :: 0 <= k < |s| ==>
      PromotedAll(s, userID, now)[k] ==
        if s[k].userID == userID then Promoted(s[k], now + CountOf(s[..k], userID)) else s[k]
  {
    if s != [] {
      var init := s[..|s| - 1];
      PromotedAllAt(init, userID, now);
      forall k | 0 <= k < |s| - 1 ensures s[..k] == init[..k] && s[k] == init[k] {
      }
    }
  }

  /**
   * Promoting the job at `i` of a heap only makes it go ahead of more jobs:
   * `heap.Fix` then restores heap order without touching the positions
   * after `i`.
   */
  lemma PromotedFixStaysBehind(t: seq<Job>, i: nat, clock: int)
    requires i < |t| && ContainerHeap.IsHeap(t, |t|)
    ensures var f := ContainerHeap.FixedHeap(t[i := Promoted(t[i], clock)], i);
            ContainerHeap.IsHeap(f, |t|) && f[i + 1..] == t[i + 1..]
  {
    var u := t[i := Promoted(t[i], clock)];
    forall k | 0 < k < |u| && k != i && ContainerHeap.Parent(k) != i
      ensures !JobLess(u[k], u[ContainerHeap.Parent(k)])
    {
    }
    if 0 < i {
      forall k | 0 < k < |u| && ContainerHeap.Parent(k) == i
        ensures !JobLess(u[k], u[ContainerHeap.Parent(i)])
      {
      }
    }
    assert ContainerHeap.ChildrenNotLess(u, |u|, i);
    ContainerHeap.FixedHeapRestoresHeap(u, i);
  }

  /** Extending the sequence by one job extends `PromotedAll` and `CountOf` by that job. */
  lemma PromotedAllSnoc(a: seq<Job>, x: Job, userID: int, now: int)
    ensures CountOf(a + [x], userID) == CountOf(a, userID) + (if x.userID == userID then 1 else 0)
    ensures PromotedAll(a + [x], userID, now) ==
      PromotedAll(a, userID, now) + [if x.userID == userID then Promoted(x, now + CountOf(a, userID)) else x]
  {
    assert (a + [x])[..|a + [x]| - 1] == a;
  }

  /** Replacing the `x` at `i` by `y` replaces it in the multiset too. */
  lemma ReplaceInMultiset(t: seq<Job>, i: nat, pre: seq<Job>, x: Job, y: Job, rest: seq<Job>)
    requires i < |t| && t[i] == x
    requires multiset(t) == multiset(pre + ([x] + rest))
    ensures multiset(t[i := y]) == multiset(pre + [y] + rest)
  {
    assert multiset(pre + ([x] + rest)) == multiset(pre) + multiset{x} + multiset(rest);
    assert multiset(pre + [y] + rest) == multiset(pre) + multiset{y} + multiset(rest);
  }

  /** The multiset bookkeeping of one step of the promotion loop; `y` is what the step puts at `i`. */
  lemma PromoteStepContents(s0: seq<Job>, userID: int, c0: int, t: seq<Job>, i: nat, clock: int, y: Job)
    requires i < |s0| && |t| == |s0| && t[i] == s0[i]
    requires multiset(t) == multiset(PromotedAll(s0[..i], userID, c0) + s0[i..])
    requires clock == c0 + CountOf(s0[..i], userID)
    requires y == if s0[i].userID == userID then Promoted(s0[i], clock) else s0[i]
    ensures multiset(t[i := y]) == multiset(PromotedAll(s0[..i + 1], userID, c0) + s0[i + 1..])
  {
    var x := s0[i];
    var p := PromotedAll(s0[..i], userID, c0);
    assert PromotedAll(s0[..i + 1], userID, c0) == p + [y] by {
      assert s0[..i + 1] == s0[..i] + [x];
      PromotedAllSnoc(s0[..i], x, userID, c0);
    }
    assert s0[i..] == [x] + s0[i + 1..];
    ReplaceInMultiset(t, i, p, x, y, s0[i + 1..]);
  }

  /** The clock bookkeeping of one step of the promotion loop. */
  lemma CountOfStep(s0: seq<Job>, userID: int, i: nat)
    requires i < |s0|
    ensures CountOf(s0[..i + 1], userID) == CountOf(s0[..i], userID) + (if s0[i].userID == userID then 1 else 0)
  {
    assert s0[..i + 1] == s0[..i] + [s0[i]];
    PromotedAllSnoc(s0[..i], s0[i], userID, 0);
  }

  /** What holds before the promotion loop visits position `i` of the sequence that started as `s0`. */
  ghost predicate PromoteInvariant(s0: seq<Job>, userID: int, c0: int, t: seq<Job>, i: nat, clock: int)
  {
    i <= |s0| && |t| == |s0| && ContainerHeap.IsHeap(t, |t|) &&
    t[i..] == s0[i..] &&
    multiset(t) == multiset(PromotedAll(s0[..i], userID, c0) + s0[i..]) &&
    clock == c0 + CountOf(s0[..i], userID)
  }

  /** The loop passes over a job of another user. */
  lemma SkipKeepsInvariant(s0: seq<Job>, userID: int, c0: int, t: seq<Job>, i: nat, clock: int)
    requires i < |s0| && PromoteInvariant(s0, userID, c0, t, i, clock)
    requires t[i].userID != userID
    ensures PromoteInvariant(s0, userID, c0, t, i + 1, clock)
  {
    assert t[i] == s0[i];
    CountOfStep(s0, userID, i);
    PromoteStepContents(s0, userID, c0, t, i, clock, s0[i]);
    assert t[i := s0[i]] == t;
  }

  /** The loop promotes a job of the popped user and fixes the heap. */
  lemma PromoteOneKeepsInvariant(s0: seq<Job>, userID: int, c0: int, t: seq<Job>, i: nat, clock: int)
    requires i < |s0| && PromoteInvariant(s0, userID, c0, t, i, clock)
    requires t[i].userID == userID
    ensures PromoteInvariant(s0, userID, c0, ContainerHeap.FixedHeap(t[i := Promoted(t[i], clock)], i), i + 1, clock + 1)
  {
    var u := t[i := Promoted(t[i], clock)];
    var f := ContainerHeap.FixedHeap(u, i);
    assert t[i] == s0[i];
    CountOfStep(s0, userID, i);
    assert multiset(u) == multiset(PromotedAll(s0[..i + 1], userID, c0) + s0[i + 1..]) by {
      PromoteStepContents(s0, userID, c0, t, i, clock, Promoted(s0[i], clock));
    }
    assert ContainerHeap.IsHeap(f, |t|) && f[i + 1..] == t[i + 1..] by {
      PromotedFixStaysBehind(t, i, clock);
    }
    ContainerHeap.FixedHeapPermutes(u, i);
    assert t[i + 1..] == s0[i + 1..] by {
      assert t[i + 1..] == t[i..][1..];
    }
  }

  lemma {:induction false} PromoteFrom(s0: seq<Job>, userID: int, c0: int, t: seq<Job>, i: nat, clock: int)
    requires PromoteInvariant(s0, userID, c0, t, i, clock)
    ensures ContainerHeap.IsHeap(Promote(t, userID, i, clock).0, |s0|)
    ensures multiset(Promote(t, userID, i, clock).0) == multiset(PromotedAll(s0, userID, c0))
    ensures Promote(t, userID, i, clock).1 == c0 + CountOf(s0, userID)
    decreases |s0| - i
  {
    if i == |s0| {
      assert s0[..i] == s0;
      assert s0[i..] == [];
      assert PromotedAll(s0, userID, c0) + [] == PromotedAll(s0, userID, c0);
    } else {
      if t[i].userID != userID {
        SkipKeepsInvariant(s0, userID, c0, t, i, clock);
      } else {
        PromoteOneKeepsInvariant(s0, userID, c0, t, i, clock);
      }
      var next := PromoteAt(t, userID, i, clock);
      PromoteFrom(s0, userID, c0, next.0, i + 1, next.1);
    }
  }

  /**
   * The promotion loop keeps heap order, promotes every job of `userID`
   * exactly once (the jobs it moves only move toward the root, behind the
   * loop's position, so none is seen twice) and leaves every other job as
   * it was.
   */
  lemma PromoteIsPromotedAll(s: seq<Job>, userID: int, clock: int)
    requires ContainerHeap.IsHeap(s, |s|)
    ensures ContainerHeap.IsHeap(Promote(s, userID, 0, clock).0, |s|)
    ensures multiset(Promote(s, userID, 0, clock).0) == multiset(PromotedAll(s, userID, clock))
    ensures Promote(s, userID, 0, clock).1 == clock + CountOf(s, userID)
  {
    assert s[..0] == [];
    assert s[0..] == s;
    PromoteFrom(s, userID, clock, s, 0, clock);
  }

  /** Stamps below `now` stay below `now + CountOf(s, userID)` after promotion; promoted ones are at least `now`. */
  lemma {:induction false} PromotedAllStamps(s: seq<Job>, userID: int, now: int)
    requires forall k :: 0 <= k < |s| ==> s[k].insertionTime < now
    ensures |PromotedAll(s, userID, now)| == |s|
    ensures forall k :: 0 <= k < |s| ==> PromotedAll(s, userID, now)[k].insertionTime < now + CountOf(s, userID)
    ensures forall k :: 0 <= k < |s| && s[k].userID == userID ==> now <= PromotedAll(s, userID, now)[k].insertionTime
  {
    if s != [] {
      var init := s[..|s| - 1];
      PromotedAllStamps(init, userID, now);
      PromotedAllSnoc(init, s[|s| - 1], userID, now);
      assert init + [s[|s| - 1]] == s;
    }
  }

  // ---------------------------------------------------------------------
  // What Push and Pop promise
  // ---------------------------------------------------------------------

  /** While the maintenance flag is set, Push fails and changes nothing. */
  lemma PushInMaintenance(st: QueueState, userID: int, runnable: Runnable)
    requires st.maintenance
    ensures PushStep(st, userID, runnable) == (st, Some(Maintenance))
  {
  }

  /**
   * The global limit: with more than 2000 jobs queued Push fails and
   * changes nothing; with 2000 queued (the 2001st job) it is not refused
   * for that reason.
   */
  lemma PushQueueLimit(st: QueueState, userID: int, runnable: Runnable)
    requires !st.maintenance
    ensures PushStep(st, userID, runnable).1 == Some(TooManyQueued) <==> |st.queue| > QueueLimit
    ensures |st.queue| > QueueLimit ==> PushStep(st, userID, runnable).0 == st
  {
  }

  /** Push succeeds exactly when maintenance is off, the global limit is not exceeded and the priority is at most 2. */
  lemma PushAcceptedIff(st: QueueState, userID: int, runnable: Runnable)
    ensures PushStep(st, userID, runnable).1 == None <==>
      !st.maintenance && |st.queue| <= QueueLimit && PriorityFor(st, userID) <= MaxBacklogPriority
  {
  }

  /**
   * A successful Push adds exactly one job, owned by the caller, carrying
   * the priority the backlog (or the priority-chat rule) gave it and the
   * current clock reading; the backlog becomes that priority plus one, the
   * caller's ban is lifted, and heap order and the stamps stay valid.
   */
  lemma PushAccepted(st: QueueState, userID: int, runnable: Runnable)
    requires Inv(st) && PushStep(st, userID, runnable).1 == None
    ensures var st' := PushStep(st, userID, runnable).0;
      var priority := PriorityFor(st, userID);
      multiset(st'.queue) == multiset(st.queue) + multiset{NewJob(userID, priority, runnable, st.clock)} &&
      st'.users == st.users[userID := priority + 1] &&
      st'.banned == st.banned - {userID} &&
      st'.maintenance == st.maintenance && st'.priorityChats == st.priorityChats &&
      st'.clock == st.clock + 1 &&
      Inv(st')
  {
    var job := NewJob(userID, PriorityFor(st, userID), runnable, st.clock);
    ContainerHeap.PushedHeapKeepsHeap(st.queue, job);
    ContainerHeap.PushedHeapContents(st.queue, job);
    var q := ContainerHeap.PushedHeap(st.queue, job);
    forall k | 0 <= k < |q| ensures q[k].insertionTime < st.clock + 1 {
      assert q[k] in multiset(q);
      if q[k] != job {
        assert q[k] in multiset(st.queue);
      }
    }
  }

  /**
   * A priority chat gets priority -2 whatever its backlog, is never refused
   * by the per-user limit, and its backlog entry is written as -1.
   */
  lemma PushFromPriorityChat(st: QueueState, userID: int, runnable: Runnable)
    requires userID in st.priorityChats && !st.maintenance && |st.queue| <= QueueLimit
    ensures PushStep(st, userID, runnable).1 == None
    ensures PushStep(st, userID, runnable).0.users[userID] == -1
    ensures multiset(PushStep(st, userID, runnable).0.queue) ==
      multiset(st.queue) + multiset{NewJob(userID, PriorityChatPriority, runnable, st.clock)}
  {
    ContainerHeap.PushedHeapContents(st.queue, NewJob(userID, PriorityChatPriority, runnable, st.clock));
  }

  /**
   * A user with three counted jobs is refused and gets no job, but the
   * refusal still lowers the user's backlog by one.
   */
  lemma PushOverBacklog(st: QueueState, userID: int, runnable: Runnable)
    requires !st.maintenance && |st.queue| <= QueueLimit
    requires userID !in st.priorityChats && Backlog(st.users, userID) > MaxBacklogPriority
    ensures PushStep(st, userID, runnable) ==
      (st.(users := st.users[userID := Backlog(st.users, userID) - 1]), Some(TooOften))
  {
  }

  /** Push keeps heap order and the stamps below the clock, whatever it answers. */
  lemma PushKeepsInv(st: QueueState, userID: int, runnable: Runnable)
    requires Inv(st)
    ensures Inv(PushStep(st, userID, runnable).0)
  {
    if PushStep(st, userID, runnable).1 == None {
      PushAccepted(st, userID, runnable);
    }
  }

  /**
   * When the first popped job's owner is banned, Pop discards every queued
   * job, whoever owns it, returns nil and touches nothing else: not the
   * backlog, not the ban.
   */
  lemma PopBannedHeadDrains(st: QueueState)
    requires |st.queue| > 0 && ContainerHeap.PoppedHeap(st.queue).0.userID in st.banned
    ensures PopStep(st) == (st.(queue := []), None)
  {
  }

  /**
   * Otherwise Pop returns the head of the heap, which no queued job goes
   * ahead of; the owner's backlog goes down by one (the entry is deleted at
   * zero) and nothing but the queue, the backlog and the clock changes.
   */
  lemma PopServesMinimum(st: QueueState)
    requires Inv(st) && |st.queue| > 0 && st.queue[0].userID !in st.banned
    ensures PopStep(st).1 == Some(st.queue[0])
    ensures forall k :: 0 <= k < |st.queue| ==> !JobLess(st.queue[k], st.queue[0])
    ensures PopStep(st).0.users == Settled(st.users, st.queue[0].userID)
    ensures PopStep(st).0.banned == st.banned && PopStep(st).0.maintenance == st.maintenance
    ensures PopStep(st).0.priorityChats == st.priorityChats
  {
    ContainerHeap.PoppedHeapTakesMinimum(st.queue);
  }

  /**
   * After Pop returns a job of user U, the other queued jobs are the ones
   * left by `heap.Pop` with each of U's jobs promoted once (one priority
   * level up, restamped with a fresh reading at or after the old clock),
   * the other users' jobs untouched (see PromotedAllAt); heap order holds
   * and the stamps stay below the clock.
   */
  lemma PopPromotesOwnersJobs(st: QueueState)
    requires Inv(st) && |st.queue| > 0 && st.queue[0].userID !in st.banned
    ensures var rest := ContainerHeap.PoppedHeap(st.queue).1;
      var st' := PopStep(st).0;
      var u := st.queue[0].userID;
      multiset(st'.queue) == multiset(PromotedAll(rest, u, st.clock)) &&
      st'.clock == st.clock + CountOf(rest, u) &&
      Inv(st')
  {
    ContainerHeap.PoppedHeapTakesMinimum(st.queue);
    var (job, rest) := ContainerHeap.PoppedHeap(st.queue);
    ContainerHeap.PoppedHeapContents(st.queue);
    PromoteIsPromotedAll(rest, job.userID, st.clock);
    var st' := PopStep(st).0;
    var all := PromotedAll(rest, job.userID, st.clock);
    forall k | 0 <= k < |rest| ensures rest[k].insertionTime < st.clock {
      assert rest[k] in multiset(st.queue);
    }
    PromotedAllStamps(rest, job.userID, st.clock);
    forall k | 0 <= k < |st'.queue| ensures st'.queue[k].insertionTime < st'.clock {
      assert st'.queue[k] in multiset(all);
      var m :| 0 <= m < |all| && all[m] == st'.queue[k];
    }
  }

  /** Pop keeps heap order and the stamps below the clock. */
  lemma PopKeepsInv(st: QueueState)
    requires Inv(st) && |st.queue| > 0
    ensures Inv(PopStep(st).0)
  {
    ContainerHeap.PoppedHeapTakesMinimum(st.queue);
    if st.queue[0].userID !in st.banned {
      PopPromotesOwnersJobs(st);
    }
  }

  // ---------------------------------------------------------------------
  // The queue object
  // ---------------------------------------------------------------------

  class HonestJobQueue {
    const queue: PriorityQueue
    var users: map<int, int>
    var banned: set<int>
    var maintenance: bool
    const priorityChats: set<int>
    /** The next reading of the logical clock that stands in for `time.Now()`. */
    var clock: int

    ghost function State(): QueueState
      reads this, queue
    {
      QueueState(queue.items, users, banned, maintenance, priorityChats, clock)
    }

    ghost predicate Valid()
      reads this, queue
    {
      Inv(State())
    }

    /** `NewHonestJobQueue(initialCapacity, priorityChats)`, with the clock starting at `clock`. */
    constructor (initialCapacity: nat, priorityChats: seq<int>, clock: int)
      ensures Valid() && fresh(queue)
      ensures State() == Empty((set c | c in priorityChats), clock)
    {
      var chats: set<int> := {};
      for k := 0 to |priorityChats|
        invariant chats == set c | c in priorityChats[..k]
      {
        assert priorityChats[..k + 1] == priorityChats[..k] + [priorityChats[k]];
        chats := chats + {priorityChats[k]};
      }
      assert priorityChats[..|priorityChats|] == priorityChats;
      this.queue := new PriorityQueue(initialCapacity);
      this.users := map[];
      this.banned := {};
      this.maintenance := false;
      this.priorityChats := chats;
      this.clock := clock;
    }

    /** `time.Now()`: the current reading; the clock moves on. */
    method Now() returns (t: int)
      modifies this
      ensures t == old(clock) && clock == old(clock) + 1
      ensures queue.items == old(queue.items) && users == old(users) && banned == old(banned)
      ensures maintenance == old(maintenance)
    {
      t := clock;
      clock := clock + 1;
    }

    /**
     * Marks `userID` banned, so that Pop drops that user's jobs. The ban is
     * lifted by the user's next successful Push, not when the jobs are gone.
     */
    method BanUser(userID: int)
      modifies this
      ensures State() == old(State()).(banned := old(banned) + {userID})
    {
      banned := banned + {userID};
    }

    /** `updatePriorities(userID)`: promote every queued job of `userID`, in position order. */
    method UpdatePriorities(userID: int)
      modifies this, queue
      ensures (queue.items, clock) == Promote(old(queue.items), userID, 0, old(clock))
      ensures users == old(users) && banned == old(banned) && maintenance == old(maintenance)
    {
      var i := 0;
      while i < queue.Len()
        invariant 0 <= i <= |queue.items|
        invariant Promote(queue.items, userID, i, clock) == Promote(old(queue.items), userID, 0, old(clock))
        invariant users == old(users) && banned == old(banned) && maintenance == old(maintenance)
        decreases |queue.items| - i
      {
        PromoteJobAt(userID, i);
        i := i + 1;
      }
    }

    /** One iteration of the loop in `updatePriorities`. */
    method PromoteJobAt(userID: int, i: nat)
      requires i < |queue.items|
      modifies this, queue
      ensures (queue.items, clock) == PromoteAt(old(queue.items), userID, i, old(clock))
      ensures users == old(users) && banned == old(banned) && maintenance == old(maintenance)
    {
      var job := queue.items[i];
      if job.userID == userID {
        var now := Now();
        queue.items := queue.items[i := Promoted(job, now)];
        ContainerHeap.Fix(queue, i);
      }
    }

    function Len(): (n: nat)
      reads this, queue
      ensures n == |State().queue|
    {
      queue.Len()
    }

    /** (jobs queued, users with a backlog entry). */
    function Stats(): (r: (nat, nat))
      reads this, queue
      ensures r == (|State().queue|, |State().users|)
    {
      (queue.Len(), |users|)
    }

    method Pop() returns (job: Option<Job>)
      requires Valid() && |queue.items| > 0
      modifies this, queue
      ensures Valid()
      ensures (State(), job) == PopStep(old(State()))
    {
      PopKeepsInv(State());
      var j := ContainerHeap.Pop(queue);
      // the condition is evaluated once, before the loop, and never again
      var ok := j.userID in banned;
      while ok
        invariant ok <==> ContainerHeap.PoppedHeap(old(queue.items)).0.userID in old(banned)
        invariant !ok ==> (j, queue.items) == ContainerHeap.PoppedHeap(old(queue.items))
        invariant users == old(users) && banned == old(banned) && maintenance == old(maintenance)
        invariant clock == old(clock)
        decreases |queue.items|
      {
        if queue.Len() == 0 {
          return None;
        }
        j := ContainerHeap.Pop(queue);
      }
      Serve(j);
      return Some(j);
    }

    /** The tail of `Pop` after the served job left the heap. */
    method Serve(j: Job)
      modifies this, queue
      ensures State() == Served(old(State()), j)
    {
      var left := Backlog(users, j.userID) - 1;
      users := users[j.userID := left];
      if left == 0 {
        users := users - {j.userID};
      }
      UpdatePriorities(j.userID);
    }

    method ToggleMaintenance() returns (m: bool)
      modifies this
      ensures m == !old(maintenance)
      ensures State() == old(State()).(maintenance := m)
    {
      maintenance := !maintenance;
      m := maintenance;
    }

    method Push(userID: int, runnable: Runnable) returns (err: Option<PushError>)
      requires Valid()
      modifies this, queue
      ensures Valid()
      ensures (State(), err) == PushStep(old(State()), userID, runnable)
    {
      ghost var st := State();
      PushKeepsInv(st, userID, runnable);
      if maintenance {
        return Some(Maintenance);
      }
      if queue.Len() > QueueLimit {
        return Some(TooManyQueued);
      }
      var priority := Backlog(users, userID);
      if userID in priorityChats {
        priority := PriorityChatPriority;
      }
      assert priority == PriorityFor(st, userID);
      if priority > MaxBacklogPriority {
        users := users[userID := Backlog(users, userID) - 1];
        return Some(TooOften);
      }
      Admit(userID, priority, runnable);
      return None;
    }

    /** The accepting tail of `Push`: lift the ban, count the job, stamp it and push it. */
    method Admit(userID: int, priority: int, runnable: Runnable)
      modifies this, queue
      ensures State() == Admitted(old(State()), userID, priority, runnable)
    {
      // a user who sends something is evidently reachable again
      if userID in banned {
        banned := banned - {userID};
      }
      users := users[userID := priority + 1];
      var now := Now();
      var job := NewJob(userID, priority, runnable, now);
      ContainerHeap.Push(queue, job);
      assert queue.items == Admitted(old(State()), userID, priority, runnable).queue;
    }
  }
}
