/**
 * Two places where the fair queue (app/queue/honest_priority_queue.go)
 * does not do what it evidently means to, each shown on the code as
 * written (module HonestQueue) and next to a corrected definition with the
 * intended property proved.
 *
 * 1. Pop reads the ban condition once, so a banned job at the head drains
 *    the whole queue; the comment on BanUser says only the banned user's
 *    jobs are dropped as they come up.
 * 2. A refused Push still decrements the user's counter, so the counter
 *    falls behind the number of jobs the user has queued and the next
 *    Push is let through: a user gets a fourth job in.
 */
module HonestQueueIntended {
  import opened Wrappers
  import opened Jobs
  import opened PriorityQueues
  import opened HonestQueue
  import ContainerHeap

  // ---------------------------------------------------------------------
  // Counting a user's jobs
  // ---------------------------------------------------------------------

  lemma {:induction false} CountOfAppend(a: seq<Job>, b: seq<Job>, userID: int)
    ensures CountOf(a + b, userID) == CountOf(a, userID) + CountOf(b, userID)
    decreases |b|
  {
    if b == [] {
      assert a + b == a;
    } else {
      var init := b[..|b| - 1];
      assert (a + b)[..|a + b| - 1] == a + init;
      CountOfAppend(a, init, userID);
    }
  }

  /** The count depends only on which jobs are queued, not on their positions. */
  lemma {:induction false} CountOfMultiset(a: seq<Job>, b: seq<Job>, userID: int)
    requires multiset(a) == multiset(b)
    ensures CountOf(a, userID) == CountOf(b, userID)
    decreases |a|
  {
    if a == [] {
      assert |multiset(b)| == 0;
    } else {
      var init, x := a[..|a| - 1], a[|a| - 1];
      assert a == init + [x];
      assert x in multiset(b);
      var i :| 0 <= i < |b| && b[i] == x;
      var rest := b[..i] + b[i + 1..];
      assert b == b[..i] + [x] + b[i + 1..];
      assert multiset(a) == multiset(init) + multiset{x};
      assert multiset(b) == multiset(b[..i]) + multiset{x} + multiset(b[i + 1..]);
      assert multiset(rest) == multiset(b[..i]) + multiset(b[i + 1..]);
      assert multiset(init) == multiset(a) - multiset{x};
      assert multiset(rest) == multiset(b) - multiset{x};
      CountOfMultiset(init, rest, userID);
      CountOfAppend(b[..i] + [x], b[i + 1..], userID);
      CountOfAppend(b[..i], [x], userID);
      CountOfAppend(b[..i], b[i + 1..], userID);
      assert [x][..0] == [];
    }
  }

  /** Adding one job to the heap adds one to its owner's count and nothing to anyone else's. */
  lemma PushedHeapCount(s: seq<Job>, job: Job, userID: int)
    ensures CountOf(ContainerHeap.PushedHeap(s, job), userID) ==
      CountOf(s, userID) + (if job.userID == userID then 1 else 0)
  {
    ContainerHeap.PushedHeapContents(s, job);
    assert multiset(s + [job]) == multiset(s) + multiset{job};
    CountOfMultiset(ContainerHeap.PushedHeap(s, job), s + [job], userID);
    assert (s + [job])[..|s + [job]| - 1] == s;
  }

  /** The per-user counters agree with the queue: every ordinary user's counter is the number of that user's queued jobs. */
  ghost predicate Counted(st: QueueState)
  {
    forall u :: u !in st.priorityChats ==> Backlog(st.users, u) == CountOf(st.queue, u)
  }

  // ---------------------------------------------------------------------
  // Push: a refusal should change nothing
  // ---------------------------------------------------------------------

  /** Push with the refusal leaving the state as it was. */
  function PushRefusingCleanly(st: QueueState, userID: int, runnable: Runnable): (r: (QueueState, Option<PushError>))
    ensures r.1 == PushStep(st, userID, runnable).1
    ensures r.1.Some? ==> r.0 == st
  {
    var (next, err) := PushStep(st, userID, runnable);
    if err.Some? then (st, err) else (next, None)
  }

  /** The corrected Push keeps the counters in agreement with the queue. */
  lemma CleanPushKeepsCounted(st: QueueState, userID: int, runnable: Runnable)
    requires Counted(st)
    ensures Counted(PushRefusingCleanly(st, userID, runnable).0)
  {
    var (next, err) := PushRefusingCleanly(st, userID, runnable);
    if err == None {
      var job := NewJob(userID, PriorityFor(st, userID), runnable, st.clock);
      forall u | u !in next.priorityChats ensures Backlog(next.users, u) == CountOf(next.queue, u) {
        PushedHeapCount(st.queue, job, u);
      }
    }
  }

  /**
   * The bound the per-user limit is there to keep: no ordinary user (one
   * that is not a priority chat) has more jobs queued than the backlog
   * counts, and no backlog exceeds three.
   */
  ghost predicate Capped(st: QueueState)
  {
    forall u :: u !in st.priorityChats ==>
      CountOf(st.queue, u) <= Backlog(st.users, u) <= MaxBacklogPriority + 1
  }

  /** The corrected Push keeps every ordinary user within the cap. */
  lemma CleanPushKeepsCapped(st: QueueState, userID: int, runnable: Runnable)
    requires Capped(st)
    ensures Capped(PushRefusingCleanly(st, userID, runnable).0)
  {
    var (next, err) := PushRefusingCleanly(st, userID, runnable);
    if err == None {
      var job := NewJob(userID, PriorityFor(st, userID), runnable, st.clock);
      forall u | u !in next.priorityChats
        ensures CountOf(next.queue, u) <= Backlog(next.users, u) <= MaxBacklogPriority + 1
      {
        PushedHeapCount(st.queue, job, u);
      }
    }
  }

  /**
   * As written: a user with three counted jobs is refused, the refusal
   * lowers the counter to 2, and the next Push is accepted with priority
   * 2. The user now has four jobs queued while the counter says three.
   */
  lemma RefusalLetsFourthJobIn(st: QueueState, u: int, runnable: Runnable)
    requires Counted(st) && u !in st.priorityChats && CountOf(st.queue, u) == MaxBacklogPriority + 1
    requires !st.maintenance && |st.queue| <= QueueLimit
    ensures PushStep(st, u, runnable).1 == Some(TooOften)
    ensures var st1 := PushStep(st, u, runnable).0;
      var st2 := PushStep(st1, u, runnable).0;
      PushStep(st1, u, runnable).1 == None &&
      CountOf(st2.queue, u) == MaxBacklogPriority + 2 &&
      Backlog(st2.users, u) == MaxBacklogPriority + 1 &&
      !Counted(st2) && !Capped(st2)
  {
    var st1 := PushStep(st, u, runnable).0;
    var job := NewJob(u, PriorityFor(st1, u), runnable, st1.clock);
    PushedHeapCount(st1.queue, job, u);
  }

  // ---------------------------------------------------------------------
  // Pop: drop only the banned users' jobs
  // ---------------------------------------------------------------------

  /**
   * Pop dropping the banned users' jobs as they come up, as the comment on
   * BanUser describes it: a job of a banned user that comes up is dropped
   * (and its owner's counter settled), and the first job of a user who is
   * not banned is served. The ban itself is left alone; the next Push from
   * that user lifts it, as in the source.
   */
  function PopSkippingBanned(st: QueueState): (r: (QueueState, Option<Job>))
    requires |st.queue| > 0
    ensures r.1.Some? ==> r.1.value.userID !in st.banned
    ensures r.0.banned == st.banned && r.0.maintenance == st.maintenance && r.0.priorityChats == st.priorityChats
    ensures |r.0.queue| < |st.queue|
    decreases |st.queue|
  {
    var (job, rest) := ContainerHeap.PoppedHeap(st.queue);
    if job.userID !in st.banned then (Served(st.(queue := rest), job), Some(job))
    else
      var dropped := st.(queue := rest, users := Settled(st.users, job.userID));
      if rest == [] then (dropped, None) else PopSkippingBanned(dropped)
  }

  /** One round of the corrected Pop, as far as the job it returns is concerned. */
  lemma PopSkippingBannedRound(st: QueueState)
    requires |st.queue| > 0
    ensures var (job, rest) := ContainerHeap.PoppedHeap(st.queue);
      PopSkippingBanned(st).1 ==
        if job.userID !in st.banned then Some(job)
        else if rest == [] then None
        else PopSkippingBanned(st.(queue := rest, users := Settled(st.users, job.userID))).1
  {
  }

  /**
   * `job` is what a Pop that skips the jobs of `banned` users should return
   * from the jobs `s`: nothing only when every job belongs to a banned user,
   * otherwise one of the jobs of a user who is not banned, with no other
   * such job going ahead of it.
   */
  predicate ServesFirstAllowed(s: seq<Job>, banned: set<int>, job: Option<Job>)
  {
    (job.None? <==> forall k :: 0 <= k < |s| ==> s[k].userID in banned) &&
    (job.Some? ==> job.value.userID !in banned) &&
    (job.Some? ==> exists k :: 0 <= k < |s| && s[k] == job.value) &&
    (job.Some? ==> forall k :: 0 <= k < |s| && s[k].userID !in banned ==> !JobLess(s[k], job.value))
  }

  /** A job of `s` other than the one taken out is still among `rest`. */
  lemma StillQueued(s: seq<Job>, rest: seq<Job>, dropped: Job, k: int) returns (m: int)
    requires multiset(rest) + multiset{dropped} == multiset(s)
    requires 0 <= k < |s| && s[k] != dropped
    ensures 0 <= m < |rest| && rest[m] == s[k]
  {
    assert s[k] in multiset(s);
    assert s[k] in multiset(rest);
    m :| 0 <= m < |rest| && rest[m] == s[k];
  }

  /** Every job of `rest` was among `s`. */
  lemma WasQueued(s: seq<Job>, rest: seq<Job>, dropped: Job, m: int) returns (k: int)
    requires multiset(rest) + multiset{dropped} == multiset(s)
    requires 0 <= m < |rest|
    ensures 0 <= k < |s| && s[k] == rest[m]
  {
    assert rest[m] in multiset(rest);
    assert rest[m] in multiset(s);
    k :| 0 <= k < |s| && s[k] == rest[m];
  }

  /** Dropping a banned user's job from the jobs does not change what should be served. */
  lemma DroppingBannedJobKeepsChoice(s: seq<Job>, rest: seq<Job>, dropped: Job, banned: set<int>, job: Option<Job>)
    requires multiset(rest) + multiset{dropped} == multiset(s) && dropped.userID in banned
    requires ServesFirstAllowed(rest, banned, job)
    ensures ServesFirstAllowed(s, banned, job)
  {
    if job.Some? {
      forall k | 0 <= k < |s| && s[k].userID !in banned ensures !JobLess(s[k], job.value) {
        var m := StillQueued(s, rest, dropped, k);
      }
      var m :| 0 <= m < |rest| && rest[m] == job.value;
      var k := WasQueued(s, rest, dropped, m);
    } else {
      forall k | 0 <= k < |s| ensures s[k].userID in banned {
        if s[k] != dropped {
          var m := StillQueued(s, rest, dropped, k);
        }
      }
    }
  }

  /** The corrected Pop serves the first job of a user who is not banned, and nothing only when there is none. */
  lemma {:induction false} PopSkippingBannedServesFirstAllowed(st: QueueState)
    requires |st.queue| > 0 && ContainerHeap.IsHeap(st.queue, |st.queue|)
    ensures ServesFirstAllowed(st.queue, st.banned, PopSkippingBanned(st).1)
    decreases |st.queue|
  {
    var (job, rest) := ContainerHeap.PoppedHeap(st.queue);
    ContainerHeap.PoppedHeapTakesMinimum(st.queue);
    PopSkippingBannedRound(st);
    if job.userID !in st.banned {
      assert st.queue[0] == job;
    } else if rest == [] {
      assert |st.queue| == 1;
    } else {
      ContainerHeap.PoppedHeapContents(st.queue);
      var dropped := st.(queue := rest, users := Settled(st.users, job.userID));
      PopSkippingBannedServesFirstAllowed(dropped);
      DroppingBannedJobKeepsChoice(st.queue, rest, job, st.banned, PopSkippingBanned(dropped).1);
    }
  }

  /**
   * A banned user's job at the head of the queue with another user's job
   * behind it: as written, Pop returns nil and the other user's job is
   * gone; the corrected Pop serves that job.
   */
  lemma BanDrainLosesWaitingJob()
    ensures var banned := Job(Runnable(0), 1, 0, 0);
      var waiting := Job(Runnable(1), 2, 0, 1);
      var st := QueueState([banned, waiting], map[1 := 1, 2 := 1], {1}, false, {}, 2);
      PopStep(st) == (st.(queue := []), None) &&
      PopSkippingBanned(st).1 == Some(waiting)
  {
    var banned := Job(Runnable(0), 1, 0, 0);
    var waiting := Job(Runnable(1), 2, 0, 1);
    assert Swapped([banned, waiting], 0, 1) == [waiting, banned];
    assert ContainerHeap.SiftedDown([waiting, banned], 0, 1) == ([waiting, banned], 0);
    assert [waiting, banned][..1] == [waiting];
    assert ContainerHeap.PoppedHeap([banned, waiting]) == (banned, [waiting]);
    assert Swapped([waiting], 0, 0) == [waiting];
    assert ContainerHeap.SiftedDown([waiting], 0, 0) == ([waiting], 0);
    assert ContainerHeap.PoppedHeap([waiting]) == (waiting, []);
  }

  // ---------------------------------------------------------------------
  // The cap across every operation
  // ---------------------------------------------------------------------

  /** Putting a job with the same owner at `i` leaves every user's count as it was. */
  lemma {:induction false} CountOfUpdate(s: seq<Job>, i: nat, y: Job, v: int)
    requires i < |s| && y.userID == s[i].userID
    ensures CountOf(s[i := y], v) == CountOf(s, v)
    decreases |s|
  {
    var n := |s| - 1;
    if i == n {
      assert s[i := y][..n] == s[..n];
    } else {
      assert s[i := y][..n] == s[..n][i := y];
      CountOfUpdate(s[..n], i, y, v);
    }
  }

  /** One step of `updatePriorities` moves jobs and restamps them but changes no user's count. */
  lemma PromoteAtCount(s: seq<Job>, userID: int, i: nat, clock: int, v: int)
    requires i < |s|
    ensures CountOf(PromoteAt(s, userID, i, clock).0, v) == CountOf(s, v)
  {
    if s[i].userID == userID {
      var u := s[i := Promoted(s[i], clock)];
      CountOfUpdate(s, i, Promoted(s[i], clock), v);
      ContainerHeap.FixedHeapPermutes(u, i);
      CountOfMultiset(ContainerHeap.FixedHeap(u, i), u, v);
    }
  }

  /** `updatePriorities` changes no user's count. */
  lemma {:induction false} PromoteCount(s: seq<Job>, userID: int, i: nat, clock: int, v: int)
    requires i <= |s|
    ensures CountOf(Promote(s, userID, i, clock).0, v) == CountOf(s, v)
    decreases |s| - i
  {
    if i < |s| {
      var next := PromoteAt(s, userID, i, clock);
      PromoteAtCount(s, userID, i, clock, v);
      PromoteCount(next.0, userID, i + 1, next.1, v);
    }
  }

  /** `heap.Pop` takes one job away from its owner's count and none from anyone else's. */
  lemma PoppedHeapCount(s: seq<Job>, v: int)
    requires |s| > 0
    ensures CountOf(ContainerHeap.PoppedHeap(s).1, v) + (if ContainerHeap.PoppedHeap(s).0.userID == v then 1 else 0)
      == CountOf(s, v)
  {
    var (job, rest) := ContainerHeap.PoppedHeap(s);
    ContainerHeap.PoppedHeapContents(s);
    assert multiset(rest + [job]) == multiset(s);
    CountOfMultiset(rest + [job], s, v);
    CountOfAppend(rest, [job], v);
    assert [job][..0] == [];
  }

  /** Taking the head job out and settling its owner's backlog keeps the cap. */
  lemma TakeOutKeepsCapped(st: QueueState)
    requires |st.queue| > 0 && Capped(st)
    ensures var (job, rest) := ContainerHeap.PoppedHeap(st.queue);
      Capped(st.(queue := rest, users := Settled(st.users, job.userID)))
  {
    forall u | u !in st.priorityChats {
      PoppedHeapCount(st.queue, u);
    }
  }

  /** Serving a job settles its owner's backlog and changes no count; the served state is capped when the settled one is. */
  lemma ServedKeepsCapped(st: QueueState, job: Job)
    requires Capped(st.(users := Settled(st.users, job.userID)))
    ensures Capped(Served(st, job))
  {
    forall u | u !in st.priorityChats {
      PromoteCount(st.queue, job.userID, 0, st.clock, u);
    }
  }

  /** Pop as written keeps the cap: serving settles the owner, and the ban drain only takes jobs away. */
  lemma PopKeepsCapped(st: QueueState)
    requires |st.queue| > 0 && Capped(st)
    ensures Capped(PopStep(st).0)
  {
    var (job, rest) := ContainerHeap.PoppedHeap(st.queue);
    if job.userID !in st.banned {
      TakeOutKeepsCapped(st);
      ServedKeepsCapped(st.(queue := rest), job);
    }
  }

  /** The corrected Pop keeps the cap too: each dropped job settles its owner like a served one. */
  lemma {:induction false} PopSkippingBannedKeepsCapped(st: QueueState)
    requires |st.queue| > 0 && Capped(st)
    ensures Capped(PopSkippingBanned(st).0)
    decreases |st.queue|
  {
    var (job, rest) := ContainerHeap.PoppedHeap(st.queue);
    TakeOutKeepsCapped(st);
    if job.userID !in st.banned {
      ServedKeepsCapped(st.(queue := rest), job);
    } else if rest != [] {
      PopSkippingBannedKeepsCapped(st.(queue := rest, users := Settled(st.users, job.userID)));
    }
  }

  /** A call on the queue, with Push and Pop corrected. */
  datatype Call = PushCall(userID: int, runnable: Runnable) | PopCall | BanCall(userID: int) | ToggleCall

  /**
   * The state after one call. `heap.Pop` panics on an empty queue; a Pop
   * on an empty queue leaves the state as it is here.
   */
  function CorrectedCall(st: QueueState, call: Call): (r: QueueState)
    ensures r.priorityChats == st.priorityChats
  {
    match call
    case PushCall(userID, runnable) => PushRefusingCleanly(st, userID, runnable).0
    case PopCall => if |st.queue| == 0 then st else PopSkippingBanned(st).0
    case BanCall(userID) => st.(banned := st.banned + {userID})
    case ToggleCall => st.(maintenance := !st.maintenance)
  }

  /** The state after the calls, in order. */
  function CorrectedRun(st: QueueState, calls: seq<Call>): (r: QueueState)
    ensures r.priorityChats == st.priorityChats
    decreases |calls|
  {
    if calls == [] then st else CorrectedRun(CorrectedCall(st, calls[0]), calls[1..])
  }

  /** Every call keeps the cap. */
  lemma CorrectedCallKeepsCapped(st: QueueState, call: Call)
    requires Capped(st)
    ensures Capped(CorrectedCall(st, call))
  {
    match call
    case PushCall(userID, runnable) => CleanPushKeepsCapped(st, userID, runnable);
    case PopCall => if |st.queue| > 0 { PopSkippingBannedKeepsCapped(st); }
    case BanCall(_) =>
    case ToggleCall =>
  }

  lemma {:induction false} CorrectedRunKeepsCapped(st: QueueState, calls: seq<Call>)
    requires Capped(st)
    ensures Capped(CorrectedRun(st, calls))
    decreases |calls|
  {
    if calls != [] {
      CorrectedCallKeepsCapped(st, calls[0]);
      CorrectedRunKeepsCapped(CorrectedCall(st, calls[0]), calls[1..]);
    }
  }

  /**
   * With the corrected Push and Pop, whatever calls a new queue receives,
   * no ordinary user ever has more than three jobs queued.
   */
  lemma NeverOverThreeJobs(priorityChats: set<int>, clock: int, calls: seq<Call>, u: int)
    requires u !in priorityChats
    ensures CountOf(CorrectedRun(Empty(priorityChats, clock), calls).queue, u) <= MaxBacklogPriority + 1
  {
    CorrectedRunKeepsCapped(Empty(priorityChats, clock), calls);
  }
}
