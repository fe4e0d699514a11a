/**
 The sliding-window limiter in front of the text model (integrations/ai/providers.py), against
 its meaning on the full history of grants. Times are seconds.
 */
module RateLimiter {
  import opened Common

  const WINDOW: real := 60.0

  // ----- the limiter on values --------------------------------------------------

  /** The popleft loop. */
  function Expire(queue: seq<real>, now: real): seq<real> {
    if queue != [] && now - queue[0] >= WINDOW then Expire(queue[1..], now) else queue
  }

  function Grants(limit: int, queue: seq<real>, now: real): bool {
    |Expire(queue, now)| < limit
  }

  function QueueAfter(limit: int, queue: seq<real>, now: real): seq<real> {
    var kept := Expire(queue, now);
    if |kept| < limit then kept + [now] else kept
  }

  // ----- the history ------------------------------------------------------------

  /** Grants younger than the window at `now`. */
  function Recent(grants: seq<real>, now: real): nat {
    if grants == [] then 0
    else Recent(grants[..|grants| - 1], now) + (if now - grants[|grants| - 1] < WINDOW then 1 else 0)
  }

  /** Grants in the half-open window of the given width that starts at `from`. */
  function InWindow(grants: seq<real>, from: real, width: real): nat {
    if grants == [] then 0
    else
      var g := grants[|grants| - 1];
      InWindow(grants[..|grants| - 1], from, width) + (if from <= g < from + width then 1 else 0)
  }

  /** The queue is what is left of the history after dropping grants that had expired by `last`. */
  ghost predicate Tracks(queue: seq<real>, grants: seq<real>, last: real) {
    && |queue| <= |grants|
    && queue == grants[|grants| - |queue|..]
    && (forall i | 0 <= i < |grants| - |queue| :: last - grants[i] >= WINDOW)
    && (forall i, j | 0 <= i <= j < |grants| :: grants[i] <= grants[j])
    && (forall i | 0 <= i < |grants| :: grants[i] <= last)
  }

  lemma {:induction false} ExpireTracks(queue: seq<real>, grants: seq<real>, last: real, now: real)
    requires Tracks(queue, grants, last) && last <= now
    ensures Tracks(Expire(queue, now), grants, now)
    ensures forall i | 0 <= i < |Expire(queue, now)| :: now - Expire(queue, now)[i] < WINDOW
    decreases |queue|
  {
    if queue != [] && now - queue[0] >= WINDOW {
      var k := |grants| - |queue|;
      assert queue[0] == grants[k];
      assert queue[1..] == grants[k + 1..];
      assert Tracks(queue[1..], grants, now);
      ExpireTracks(queue[1..], grants, now, now);
    } else if queue != [] {
      var k := |grants| - |queue|;
      forall i | 0 <= i < |queue| ensures now - queue[i] < WINDOW {
        assert queue[0] == grants[k] && queue[i] == grants[k + i];
      }
    }
  }

  /** A history whose first part has expired and whose rest has not: the rest is what counts. */
  lemma {:induction false} RecentIsRest(grants: seq<real>, k: nat, now: real)
    requires k <= |grants|
    requires forall i | 0 <= i < k :: now - grants[i] >= WINDOW
    requires forall i | k <= i < |grants| :: now - grants[i] < WINDOW
    ensures Recent(grants, now) == |grants| - k
  {
    if grants != [] {
      var init := grants[..|grants| - 1];
      RecentIsRest(init, if k < |grants| then k else k - 1, now);
    }
  }

  /**
   With clock reads in lock order, the deque answers exactly the question asked of the full history:
   a call is granted if and only if fewer than `limit` grants are younger than sixty seconds.
   */
  lemma DequeCountsRecent(limit: int, queue: seq<real>, grants: seq<real>, last: real, now: real)
    requires Tracks(queue, grants, last) && last <= now
    ensures Grants(limit, queue, now) <==> Recent(grants, now) < limit
    ensures var grants' := if Grants(limit, queue, now) then grants + [now] else grants;
            Tracks(QueueAfter(limit, queue, now), grants', now)
  {
    ExpireTracks(queue, grants, last, now);
    var kept := Expire(queue, now);
    var k := |grants| - |kept|;
    assert forall i | k <= i < |grants| :: grants[i] == kept[i - k];
    RecentIsRest(grants, k, now);
    if |kept| < limit {
      GrantTracks(kept, grants, now);
    }
  }

  lemma GrantTracks(kept: seq<real>, grants: seq<real>, now: real)
    requires Tracks(kept, grants, now)
    ensures Tracks(kept + [now], grants + [now], now)
  {
    var k := |grants| - |kept|;
    assert (grants + [now])[k..] == kept + [now];
    forall i, j | 0 <= i <= j <= |grants| ensures (grants + [now])[i] <= (grants + [now])[j] {
      if j < |grants| {
        assert grants[i] <= grants[j];
      }
    }
  }

  // ----- whole runs -------------------------------------------------------------

  datatype State = State(queue: seq<real>, grants: seq<real>)

  function Step(limit: int, s: State, now: real): State {
    State(QueueAfter(limit, s.queue, now), if Grants(limit, s.queue, now) then s.grants + [now] else s.grants)
  }

  /** The state after a sequence of calls with the given clock readings, in lock order. */
  function After(limit: int, clock: seq<real>): State {
    if clock == [] then State([], []) else Step(limit, After(limit, clock[..|clock| - 1]), clock[|clock| - 1])
  }

  /** A later reading is at most `skew` seconds older than an earlier one. */
  predicate Skewed(clock: seq<real>, skew: real) {
    forall i, j | 0 <= i <= j < |clock| :: clock[i] <= clock[j] + skew
  }

  lemma {:induction false} OrderedRunTracks(limit: int, clock: seq<real>)
    requires Skewed(clock, 0.0)
    ensures var s := After(limit, clock);
            if clock == [] then s == State([], []) else Tracks(s.queue, s.grants, clock[|clock| - 1])
  {
    if clock != [] {
      var init := clock[..|clock| - 1];
      var now := clock[|clock| - 1];
      OrderedRunTracks(limit, init);
      var s := After(limit, init);
      DequeCountsRecent(limit, s.queue, s.grants, if init == [] then now else init[|init| - 1], now);
    }
  }

  /** A refusal happens exactly when `limit` grants of the whole history are younger than sixty seconds. */
  lemma RefusedExactlyWhenFull(limit: int, clock: seq<real>, now: real)
    requires Skewed(clock + [now], 0.0)
    ensures var s := After(limit, clock);
            !Grants(limit, s.queue, now) <==> Recent(s.grants, now) >= limit
  {
    var all := clock + [now];
    assert forall i | 0 <= i < |clock| :: all[i] == clock[i];
    assert all[|clock|] == now;
    assert Skewed(clock, 0.0) by {
      forall i, j | 0 <= i <= j < |clock| ensures clock[i] <= clock[j] + 0.0 {
        assert all[i] <= all[j] + 0.0;
      }
    }
    OrderedRunTracks(limit, clock);
    var s := After(limit, clock);
    var last := if clock == [] then now else clock[|clock| - 1];
    if clock != [] {
      assert all[|clock| - 1] <= all[|clock|] + 0.0;
    }
    DequeCountsRecent(limit, s.queue, s.grants, last, now);
  }

  // ----- the window, for clock readings out of lock order -------------------------

  /** What the queue dropped had expired at some reading, and no reading so far exceeds `high`. */
  ghost predicate Dropped(s: State, high: real) {
    && |s.queue| <= |s.grants|
    && s.queue == s.grants[|s.grants| - |s.queue|..]
    && (forall i | 0 <= i < |s.grants| - |s.queue| :: high - s.grants[i] >= WINDOW)
  }

  lemma {:induction false} ExpireDrops(queue: seq<real>, grants: seq<real>, high: real, now: real)
    requires Dropped(State(queue, grants), high) && now <= high
    ensures Dropped(State(Expire(queue, now), grants), high)
    decreases |queue|
  {
    if queue != [] && now - queue[0] >= WINDOW {
      assert queue[0] == grants[|grants| - |queue|];
      assert queue[1..] == grants[|grants| - |queue| + 1..];
      ExpireDrops(queue[1..], grants, high, now);
    }
  }

  lemma GrantDrops(s: State, high: real, now: real)
    requires Dropped(s, high)
    ensures Dropped(State(s.queue + [now], s.grants + [now]), high)
  {
    assert (s.grants + [now])[|s.grants| - |s.queue|..] == s.queue + [now];
  }

  /** Grants before position `k` lie below the window, so it holds at most the rest. */
  lemma {:induction false} WindowIsInRest(grants: seq<real>, k: nat, from: real, width: real)
    requires k <= |grants|
    requires forall i | 0 <= i < k :: grants[i] < from
    ensures InWindow(grants, from, width) <= |grants| - k
  {
    if grants != [] {
      WindowIsInRest(grants[..|grants| - 1], if k < |grants| then k else k - 1, from, width);
    }
  }

  lemma {:induction false} RunDrops(limit: nat, clock: seq<real>, skew: real, high: real, from: real)
    requires skew >= 0.0 && Skewed(clock, skew)
    requires forall i | 0 <= i < |clock| :: clock[i] <= high
    requires clock == [] || exists i | 0 <= i < |clock| :: clock[i] == high
    ensures Dropped(After(limit, clock), high)
    ensures InWindow(After(limit, clock).grants, from, WINDOW - skew) <= limit
  {
    if clock != [] {
      var init := clock[..|clock| - 1];
      var now := clock[|clock| - 1];
      RunDrops(limit, init, skew, Highest(init), from);
      var s := After(limit, init);
      assert Dropped(s, high) by {
        assert init != [] ==> Highest(init) <= high;
      }
      CallDrops(limit, s, skew, high, now, from);
    }
  }

  /** One call, made when no reading so far exceeds `high` and this one is at most `skew` below it. */
  lemma CallDrops(limit: nat, s: State, skew: real, high: real, now: real, from: real)
    requires skew >= 0.0 && now <= high <= now + skew && Dropped(s, high)
    requires InWindow(s.grants, from, WINDOW - skew) <= limit
    ensures Dropped(Step(limit, s, now), high)
    ensures InWindow(Step(limit, s, now).grants, from, WINDOW - skew) <= limit
  {
    ExpireDrops(s.queue, s.grants, high, now);
    var kept := Expire(s.queue, now);
    if |kept| < limit {
      GrantDrops(State(kept, s.grants), high, now);
      assert Step(limit, s, now) == State(kept + [now], s.grants + [now]);
      GrantInWindow(limit, State(kept, s.grants), skew, high, now, from);
    } else {
      assert Step(limit, s, now) == State(kept, s.grants);
    }
  }

  lemma GrantInWindow(limit: nat, s: State, skew: real, high: real, now: real, from: real)
    requires high <= now + skew && Dropped(s, high) && |s.queue| < limit
    requires InWindow(s.grants, from, WINDOW - skew) <= limit
    ensures InWindow(s.grants + [now], from, WINDOW - skew) <= limit
  {
    InWindowAppend(s.grants, now, from, WINDOW - skew);
    if from <= now < from + (WINDOW - skew) {
      WindowIsInRest(s.grants, |s.grants| - |s.queue|, from, WINDOW - skew);
    }
  }

  lemma InWindowAppend(grants: seq<real>, now: real, from: real, width: real)
    ensures InWindow(grants + [now], from, width)
         == InWindow(grants, from, width) + (if from <= now < from + width then 1 else 0)
  {
    AppendedLast(grants, now);
  }

  /** The largest reading so far. */
  function Highest(clock: seq<real>): (h: real)
    ensures forall i | 0 <= i < |clock| :: clock[i] <= h
    ensures clock == [] || exists i | 0 <= i < |clock| :: clock[i] == h
  {
    if clock == [] then 0.0
    else
      var h := Highest(clock[..|clock| - 1]);
      if |clock| == 1 || clock[|clock| - 1] > h then clock[|clock| - 1] else h
  }

  /**
   The clock is read before the lock is taken, so readings can reach the lock out of order. When they
   are late by at most `skew` seconds, every half-open window of sixty seconds less `skew` holds at
   most `limit` grants; readings in lock order (`skew` 0) give the full sixty seconds.
   */
  lemma WindowLimit(limit: nat, clock: seq<real>, skew: real, from: real)
    requires skew >= 0.0 && Skewed(clock, skew)
    ensures InWindow(After(limit, clock).grants, from, WINDOW - skew) <= limit
  {
    RunDrops(limit, clock, skew, Highest(clock), from);
  }

  /** A queue of one is the last grant, and no grant is later. */
  ghost predicate Single(s: State) {
    && (s.grants == [] ==> s.queue == [])
    && (s.grants != [] ==> s.queue == [s.grants[|s.grants| - 1]])
    && forall i | 0 <= i < |s.grants| :: s.grants[i] <= s.grants[|s.grants| - 1]
  }

  lemma SingleGrant(s: State, now: real, from: real)
    requires Single(s) && Grants(1, s.queue, now) && InWindow(s.grants, from, WINDOW) <= 1
    ensures Step(1, s, now) == State([now], s.grants + [now]) && Single(State([now], s.grants + [now]))
    ensures InWindow(s.grants + [now], from, WINDOW) <= 1
  {
    assert Expire(s.queue, now) == [];
    InWindowAppend(s.grants, now, from, WINDOW);
    assert forall i | 0 <= i < |s.grants| :: s.grants[i] <= now - WINDOW;
    if from <= now < from + WINDOW {
      WindowIsInRest(s.grants, |s.grants|, from, WINDOW);
    }
  }

  lemma {:induction false} SingleRun(clock: seq<real>, from: real)
    ensures Single(After(1, clock)) && InWindow(After(1, clock).grants, from, WINDOW) <= 1
  {
    if clock != [] {
      SingleRun(clock[..|clock| - 1], from);
      var s := After(1, clock[..|clock| - 1]);
      var now := clock[|clock| - 1];
      if Grants(1, s.queue, now) {
        SingleGrant(s, now, from);
      } else {
        assert s.queue[1..] == [] && Expire([], now) == [];
        assert Step(1, s, now) == s;
      }
    }
  }

  /** With a limit of one, a late call always finds the queue full: no reading order breaks the window. */
  lemma WindowLimitOfOne(clock: seq<real>, from: real)
    ensures InWindow(After(1, clock).grants, from, WINDOW) <= 1
  {
    SingleRun(clock, from);
  }

  // ----- the bound cannot be improved ---------------------------------------------

  function Copies(n: nat, t: real): seq<real> {
    seq(n, _ => t)
  }

  lemma AfterAppend(limit: int, clock: seq<real>, now: real)
    ensures After(limit, clock + [now]) == Step(limit, After(limit, clock), now)
  {
    AppendedLast(clock, now);
  }

  /** As many calls as are allowed, all at time 0. */
  lemma {:induction false} Burst(limit: nat, n: nat)
    requires n <= limit
    ensures After(limit, Copies(n, 0.0)) == State(Copies(n, 0.0), Copies(n, 0.0))
  {
    if n > 0 {
      Burst(limit, n - 1);
      AfterAppend(limit, Copies(n - 1, 0.0), 0.0);
      assert Copies(n - 1, 0.0) + [0.0] == Copies(n, 0.0);
    }
  }

  lemma {:induction false} BurstExpires(n: nat)
    ensures Expire(Copies(n, 0.0), WINDOW) == []
  {
    if n > 0 {
      assert Copies(n, 0.0)[1..] == Copies(n - 1, 0.0);
      BurstExpires(n - 1);
    }
  }

  lemma {:induction false} BurstInWindow(n: nat, width: real)
    requires width > 0.0
    ensures InWindow(Copies(n, 0.0), 0.0, width) == n
  {
    if n > 0 {
      BurstInWindow(n - 1, width);
      InWindowAppend(Copies(n - 1, 0.0), 0.0, 0.0, width);
      assert Copies(n - 1, 0.0) + [0.0] == Copies(n, 0.0);
    }
  }

  /** A burst, a call that clears the queue, and a late call that the emptied queue cannot refuse. */
  lemma BurstThenLate(limit: nat, skew: real)
    requires limit >= 2 && 0.0 <= skew <= WINDOW
    ensures var clock := Copies(limit, 0.0) + [WINDOW] + [WINDOW - skew];
            Skewed(clock, skew) && After(limit, clock).grants == clock
  {
    var burst := Copies(limit, 0.0);
    Burst(limit, limit);
    AfterAppend(limit, burst, WINDOW);
    BurstClears(limit, burst);
    AfterAppend(limit, burst + [WINDOW], WINDOW - skew);
    LateGrant(limit, burst + [WINDOW], skew);
    BurstIsSkewed(limit, skew);
  }

  lemma BurstClears(limit: nat, grants: seq<real>)
    requires limit >= 1
    ensures Step(limit, State(Copies(limit, 0.0), grants), WINDOW) == State([WINDOW], grants + [WINDOW])
  {
    BurstExpires(limit);
  }

  lemma LateGrant(limit: nat, grants: seq<real>, skew: real)
    requires limit >= 2 && skew >= 0.0
    ensures Step(limit, State([WINDOW], grants), WINDOW - skew).grants == grants + [WINDOW - skew]
  {
    assert Expire([WINDOW], WINDOW - skew) == [WINDOW];
  }

  lemma BurstIsSkewed(n: nat, skew: real)
    requires 0.0 <= skew <= WINDOW
    ensures Skewed(Copies(n, 0.0) + [WINDOW] + [WINDOW - skew], skew)
  {
  }

  lemma LateCallFits(limit: nat, skew: real, width: real)
    requires limit >= 2 && 0.0 <= skew <= WINDOW && width > WINDOW - skew
    ensures InWindow(Copies(limit, 0.0) + [WINDOW] + [WINDOW - skew], 0.0, width) > limit
  {
    var burst := Copies(limit, 0.0);
    BurstInWindow(limit, width);
    InWindowAppend(burst, WINDOW, 0.0, width);
    InWindowAppend(burst + [WINDOW], WINDOW - skew, 0.0, width);
  }

  lemma {:induction false} WiderHoldsMore(grants: seq<real>, from: real, narrow: real, wide: real)
    requires narrow <= wide
    ensures InWindow(grants, from, narrow) <= InWindow(grants, from, wide)
  {
    if grants != [] {
      WiderHoldsMore(grants[..|grants| - 1], from, narrow, wide);
    }
  }

  /**
   The exact guarantee: with readings late by at most `skew`, windows of a given width always respect
   the limit, of two or more, if and only if the width is at most sixty seconds less `skew`.
   */
  lemma WindowLimitExactly(limit: nat, skew: real, width: real)
    requires limit >= 2 && 0.0 <= skew <= WINDOW
    ensures width <= WINDOW - skew <==>
            forall clock: seq<real>, from: real :: Skewed(clock, skew) ==>
              InWindow(After(limit, clock).grants, from, width) <= limit
  {
    if width <= WINDOW - skew {
      forall clock: seq<real>, from: real | Skewed(clock, skew)
        ensures InWindow(After(limit, clock).grants, from, width) <= limit
      {
        WindowLimit(limit, clock, skew, from);
        WiderHoldsMore(After(limit, clock).grants, from, width, WINDOW - skew);
      }
    } else {
      BurstThenLate(limit, skew);
      LateCallFits(limit, skew, width);
    }
  }

  // ----- the limiter as it runs -------------------------------------------------

  class Limiter {
    const limit: int
    var timestamps: seq<real>

    constructor (limit: int)
      ensures this.limit == limit && timestamps == []
    {
      this.limit := limit;
      timestamps := [];
    }

    /** The body of `acquire` under the lock; `now` was read before the lock was taken. */
    method Acquire(now: real) returns (granted: bool)
      modifies this
      ensures granted == Grants(limit, old(timestamps), now)
      ensures timestamps == QueueAfter(limit, old(timestamps), now)
    {
      while timestamps != [] && now - timestamps[0] >= WINDOW
        invariant Expire(timestamps, now) == Expire(old(timestamps), now)
        decreases |timestamps|
      {
        timestamps := timestamps[1..];
      }
      if |timestamps| >= limit {
        return false;
      }
      timestamps := timestamps + [now];
      granted := true;
    }
  }
}
