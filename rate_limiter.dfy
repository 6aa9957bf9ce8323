/**
 * The per-chat rate limiter of app/tools/rate_limiter.go.
 *
 * Each chat has a window that opens at its first message and lasts
 * `TimePeriodSeconds`; every message inside the window adds one to the
 * window's count, and the first message at or past its end opens a new
 * window. Callers refuse to process a message whose count exceeds
 * `AllowedOverTime`, and tell the user how many seconds remain.
 * The mutex that guards the map is left out; every call is modelled as
 * atomic.
 */
module RateLimiting {
  import opened GoInts

  const AllowedOverTime: int := 3
  const TimePeriodSeconds: int := 300

  /** The window of one chat: when it opened and how many messages it has seen. */
  datatype MessageRange = MessageRange(startUtc: int, count: int)

  /** What callers do with the count: serve the message while it is at most `AllowedOverTime`. */
  predicate Allowed(count: int)
  {
    count <= AllowedOverTime
  }

  /** Every stored window has seen at least one message. */
  predicate CountsPositive(rates: map<int, MessageRange>)
  {
    forall u :: u in rates ==> rates[u].count >= 1
  }

  /**
   * One call of `GetRateOverPeriod(userId, utc)` on the map `rates`: the new
   * map, the count returned and the seconds returned. The difference and
   * the remaining seconds are `int64` subtractions and wrap around.
   */
  function RateStep(rates: map<int, MessageRange>, userId: int, utc: int): (r: (map<int, MessageRange>, int, int))
    ensures r.0.Keys == rates.Keys + {userId}
    ensures forall u :: u in rates && u != userId ==> r.0[u] == rates[u]
    ensures r.0[userId].count == r.1
    ensures IsInt64(r.2)
  {
    if userId !in rates then (rates[userId := MessageRange(utc, 1)], 1, 0)
    else
      var window := rates[userId];
      var diff := Wrap64(utc - window.startUtc);
      var updated := if diff < TimePeriodSeconds then MessageRange(window.startUtc, window.count + 1)
                     else MessageRange(utc, 1);
      (rates[userId := updated], updated.count, Wrap64(TimePeriodSeconds - diff))
  }

  /** A step keeps every count positive, and the count it returns is positive too. */
  lemma RateStepCountsPositive(rates: map<int, MessageRange>, userId: int, utc: int)
    requires CountsPositive(rates)
    ensures CountsPositive(RateStep(rates, userId, utc).0)
    ensures RateStep(rates, userId, utc).1 >= 1
  {
  }

  /** A chat's first message opens a window at `utc`, is counted once and waits for nothing. */
  lemma FirstMessage(rates: map<int, MessageRange>, userId: int, utc: int)
    requires userId !in rates
    ensures RateStep(rates, userId, utc).0[userId] == MessageRange(utc, 1)
    ensures RateStep(rates, userId, utc).1 == 1 && Allowed(RateStep(rates, userId, utc).1)
    ensures RateStep(rates, userId, utc).2 == 0
  {
  }

  /**
   * A message less than `TimePeriodSeconds` after the window opened keeps
   * the window, adds one to its count and reports the seconds left in it,
   * which lie in 1..TimePeriodSeconds.
   */
  lemma WithinWindow(rates: map<int, MessageRange>, userId: int, utc: int)
    requires userId in rates && IsInt64(utc) && IsInt64(rates[userId].startUtc)
    requires rates[userId].startUtc <= utc < rates[userId].startUtc + TimePeriodSeconds
    ensures RateStep(rates, userId, utc).0[userId] == MessageRange(rates[userId].startUtc, rates[userId].count + 1)
    ensures RateStep(rates, userId, utc).1 == rates[userId].count + 1
    ensures RateStep(rates, userId, utc).2 == rates[userId].startUtc + TimePeriodSeconds - utc
    ensures 0 < RateStep(rates, userId, utc).2 <= TimePeriodSeconds
  {
  }

  /**
   * A message `TimePeriodSeconds` or more after the window opened opens a
   * new window, which allows it (as long as the difference fits in an
   * `int64`; past that it wraps around to a negative number).
   */
  lemma NewWindow(rates: map<int, MessageRange>, userId: int, utc: int)
    requires userId in rates && IsInt64(utc) && IsInt64(rates[userId].startUtc)
    requires rates[userId].startUtc + TimePeriodSeconds <= utc <= rates[userId].startUtc + MaxInt64
    ensures RateStep(rates, userId, utc).0[userId] == MessageRange(utc, 1)
    ensures RateStep(rates, userId, utc).1 == 1 && Allowed(RateStep(rates, userId, utc).1)
    ensures RateStep(rates, userId, utc).2 <= 0
  {
  }

  /**
   * A timestamp before the window's start (a clock that went back) still
   * counts the message in the old window, and the seconds reported exceed
   * the whole period.
   */
  lemma ClockWentBack(rates: map<int, MessageRange>, userId: int, utc: int)
    requires userId in rates && IsInt64(utc) && IsInt64(rates[userId].startUtc)
    requires utc < rates[userId].startUtc && rates[userId].startUtc - utc <= MaxInt64 - TimePeriodSeconds
    ensures RateStep(rates, userId, utc).1 == rates[userId].count + 1
    ensures RateStep(rates, userId, utc).2 > TimePeriodSeconds
  {
  }

  /** The counts returned for a run of calls by one chat at the timestamps `utcs`, and the map after them. */
  function Burst(rates: map<int, MessageRange>, userId: int, utcs: seq<int>): (r: (map<int, MessageRange>, seq<int>))
    ensures |r.1| == |utcs|
    decreases |utcs|
  {
    if utcs == [] then (rates, [])
    else
      var (next, count, _) := RateStep(rates, userId, utcs[0]);
      var (last, counts) := Burst(next, userId, utcs[1..]);
      (last, [count] + counts)
  }

  /** Inside one window the counts go up by one per call, whether or not a call was refused. */
  lemma {:induction false} BurstInWindowCounts(rates: map<int, MessageRange>, userId: int, utcs: seq<int>)
    requires userId in rates && IsInt64(rates[userId].startUtc)
    requires forall i :: 0 <= i < |utcs| ==>
      IsInt64(utcs[i]) && rates[userId].startUtc <= utcs[i] < rates[userId].startUtc + TimePeriodSeconds
    ensures forall i :: 0 <= i < |utcs| ==> Burst(rates, userId, utcs).1[i] == rates[userId].count + i + 1
    decreases |utcs|
  {
    if utcs != [] {
      WithinWindow(rates, userId, utcs[0]);
      var next := RateStep(rates, userId, utcs[0]).0;
      BurstInWindowCounts(next, userId, utcs[1..]);
      var counts := Burst(rates, userId, utcs).1;
      forall i | 0 <= i < |utcs| ensures counts[i] == rates[userId].count + i + 1 {
        if i > 0 {
          assert counts[i] == Burst(next, userId, utcs[1..]).1[i - 1];
        }
      }
    }
  }

  /**
   * A chat the limiter has not seen sends messages all within
   * `TimePeriodSeconds` of its first: the first `AllowedOverTime` are
   * served and every later one is refused.
   */
  lemma BurstFromNewChat(rates: map<int, MessageRange>, userId: int, utcs: seq<int>)
    requires userId !in rates && |utcs| >= 1
    requires forall i :: 0 <= i < |utcs| ==> IsInt64(utcs[i]) && utcs[0] <= utcs[i] < utcs[0] + TimePeriodSeconds
    ensures forall i :: 0 <= i < |utcs| ==> Burst(rates, userId, utcs).1[i] == i + 1
    ensures forall i :: 0 <= i < |utcs| ==> (Allowed(Burst(rates, userId, utcs).1[i]) <==> i < AllowedOverTime)
  {
    var next := RateStep(rates, userId, utcs[0]).0;
    FirstMessage(rates, userId, utcs[0]);
    BurstInWindowCounts(next, userId, utcs[1..]);
    var counts := Burst(rates, userId, utcs).1;
    forall i | 0 <= i < |utcs| ensures counts[i] == i + 1 {
      if i > 0 {
        assert counts[i] == Burst(next, userId, utcs[1..]).1[i - 1];
      }
    }
  }

  /** `RateLimiter`: the windows of all chats seen so far. */
  class RateLimiter {
    var usersRate: map<int, MessageRange>

    /** `NewRateLimiter()`: no chat has a window. */
    constructor()
      ensures usersRate == map[]
    {
      usersRate := map[];
    }

    /** `GetRateOverPeriod(userId, utc)`: records the message and returns the window's count and the seconds left in it. */
    method GetRateOverPeriod(userId: int, utc: int) returns (count: int, wait: int)
      modifies this
      ensures (usersRate, count, wait) == RateStep(old(usersRate), userId, utc)
    {
      if userId !in usersRate {
        usersRate := usersRate[userId := MessageRange(utc, 1)];
        return 1, 0;
      }
      var messageRange := usersRate[userId];
      var diff := Wrap64(utc - messageRange.startUtc);
      var updatedStamp: MessageRange;
      if diff < TimePeriodSeconds {
        updatedStamp := MessageRange(messageRange.startUtc, messageRange.count + 1);
      } else {
        updatedStamp := MessageRange(utc, 1);
      }
      usersRate := usersRate[userId := updatedStamp];
      count, wait := updatedStamp.count, Wrap64(TimePeriodSeconds - diff);
    }
  }
}
