/** The per-connection limiter: at most 200 frames per one-second window, or the connection ends. */
module RateLimit {

  /** Instants are nanoseconds. */
  const RATE_LIMIT_WINDOW: int := 1_000_000_000
  const RATE_LIMIT_MAX: nat := 200

  /** `open` until a frame too many ends the connection. */
  datatype Limiter = Limiter(count: nat, windowStart: int, open: bool)

  /** A frame arrives: a new window if the old one is over, then the frame counts. */
  function Arrive(s: Limiter, now: int): Limiter {
    if !s.open then s
    else
      var t := if now - s.windowStart >= RATE_LIMIT_WINDOW then Limiter(0, now, true) else s;
      Limiter(t.count + 1, t.windowStart, t.count < RATE_LIMIT_MAX)
  }

  predicate NonDecreasing(times: seq<int>) { forall i, j :: 0 <= i < j < |times| ==> times[i] <= times[j] }

  /** Arrivals no earlier than `from`, in order. */
  predicate NoEarlier(times: seq<int>, from: int) { NonDecreasing(times) && (times != [] ==> from <= times[0]) }

  /** How many of the arrivals in `lo <= t < hi` pass the limiter. */
  function Passed(s: Limiter, times: seq<int>, lo: int, hi: int): nat
    decreases |times|
  {
    if times == [] then 0
    else
      var s' := Arrive(s, times[0]);
      (if s'.open && lo <= times[0] < hi then 1 else 0) + Passed(s', times[1..], lo, hi)
  }

  /** How many arrivals pass within the window that starts at `at`. */
  function PassedInWindow(s: Limiter, times: seq<int>, at: int): nat
    decreases |times|
  {
    if times == [] then 0
    else
      var s' := Arrive(s, times[0]);
      (if s'.open && s'.windowStart == at then 1 else 0) + PassedInWindow(s', times[1..], at)
  }

  lemma AfterRest(times: seq<int>, from: int)
    requires times != [] && NoEarlier(times, from)
    ensures NoEarlier(times[1..], times[0])
  {
    assert forall i, j :: 0 <= i < j < |times[1..]| ==> times[1..][i] <= times[1..][j];
  }

  lemma {:induction false} PassedLate(s: Limiter, times: seq<int>, lo: int, hi: int)
    requires NoEarlier(times, hi)
    ensures Passed(s, times, lo, hi) == 0
    decreases |times|
  {
    if times != [] {
      AfterRest(times, hi);
      PassedLate(Arrive(s, times[0]), times[1..], lo, hi);
    }
  }

  ghost function Left(s: Limiter): nat { if s.open && s.count <= RATE_LIMIT_MAX then RATE_LIMIT_MAX - s.count else 0 }

  /** A window opened inside the interval is the last one to matter. */
  lemma {:induction false} PassedFromInside(s: Limiter, times: seq<int>, lo: int)
    requires NoEarlier(times, s.windowStart) && lo <= s.windowStart
    ensures Passed(s, times, lo, lo + RATE_LIMIT_WINDOW) <= Left(s)
    decreases |times|
  {
    if times != [] {
      var s' := Arrive(s, times[0]);
      AfterRest(times, s.windowStart);
      if s.open && times[0] - s.windowStart >= RATE_LIMIT_WINDOW {
        PassedLate(s, times, lo, lo + RATE_LIMIT_WINDOW);
      } else {
        assert NoEarlier(times[1..], s'.windowStart);
        PassedFromInside(s', times[1..], lo);
      }
    }
  }

  /** All arrivals fall at or after `lo`, the window may have opened before. */
  lemma {:induction false} PassedAcross(s: Limiter, times: seq<int>, lo: int)
    requires NoEarlier(times, lo) && s.windowStart <= lo
    ensures Passed(s, times, lo, lo + RATE_LIMIT_WINDOW) <= Left(s) + RATE_LIMIT_MAX
    decreases |times|
  {
    if times != [] {
      var s' := Arrive(s, times[0]);
      AfterRest(times, lo);
      if s'.windowStart == s.windowStart {
        assert NoEarlier(times[1..], lo);
        PassedAcross(s', times[1..], lo);
      } else {
        PassedFromInside(s', times[1..], lo);
      }
    }
  }

  /** At most 400 frames pass in any half-open second, wherever it starts. */
  lemma {:induction false} RateBound(s: Limiter, times: seq<int>, lo: int)
    requires NoEarlier(times, s.windowStart)
    ensures Passed(s, times, lo, lo + 1_000_000_000) <= 400
    decreases |times|
  {
    if times == [] {
    } else if times[0] < lo {
      var s' := Arrive(s, times[0]);
      AfterRest(times, s.windowStart);
      assert NoEarlier(times[1..], s'.windowStart);
      RateBound(s', times[1..], lo);
    } else if s.windowStart <= lo {
      PassedAcross(s, times, lo);
    } else {
      PassedFromInside(s, times, lo);
    }
  }

  /** At most 200 frames pass in any one window. */
  lemma {:induction false} WindowBound(s: Limiter, times: seq<int>, at: int)
    requires NoEarlier(times, s.windowStart)
    ensures PassedInWindow(s, times, at) <= if at == s.windowStart then Left(s) else 200
    ensures PassedInWindow(s, times, at) <= 200
    ensures at < s.windowStart ==> PassedInWindow(s, times, at) == 0
    decreases |times|
  {
    if times != [] {
      AfterRest(times, s.windowStart);
      var s' := Arrive(s, times[0]);
      assert NoEarlier(times[1..], s'.windowStart);
      WindowBound(s', times[1..], at);
    }
  }

  function Repeat(t: int, n: nat): seq<int> { seq(n, _ => t) }

  lemma {:induction false} PassedRepeat(s: Limiter, t: int, n: nat, rest: seq<int>, lo: int, hi: int)
    requires s.open && s.count + n <= RATE_LIMIT_MAX && s.windowStart <= t < s.windowStart + RATE_LIMIT_WINDOW && lo <= t < hi
    ensures Passed(s, Repeat(t, n) + rest, lo, hi) == n + Passed(Limiter(s.count + n, s.windowStart, true), rest, lo, hi)
    decreases n
  {
    var times := Repeat(t, n) + rest;
    if n == 0 {
      assert times == rest;
    } else {
      assert times[0] == t && times[1..] == Repeat(t, n - 1) + rest;
      PassedRepeat(Arrive(s, t), t, n - 1, rest, lo, hi);
    }
  }

  /** 400 is reached: 200 frames at the end of one window, 200 at the start of the next. */
  lemma RateBoundReached() returns (times: seq<int>)
    ensures NoEarlier(times, 0) && Passed(Limiter(0, 0, true), times, 999_999_999, 1_999_999_999) == 400
  {
    var W, lo, hi := RATE_LIMIT_WINDOW, RATE_LIMIT_WINDOW - 1, 2 * RATE_LIMIT_WINDOW - 1;
    var later := Repeat(W, RATE_LIMIT_MAX);
    times := Repeat(W - 1, RATE_LIMIT_MAX) + later;
    PassedRepeat(Limiter(0, 0, true), W - 1, RATE_LIMIT_MAX, later, lo, hi);
    var full, next := Limiter(RATE_LIMIT_MAX, 0, true), Limiter(1, W, true);
    assert later[0] == W && later[1..] == Repeat(W, RATE_LIMIT_MAX - 1) + [];
    assert Arrive(full, W) == next;
    PassedRepeat(next, W, RATE_LIMIT_MAX - 1, [], lo, hi);
  }

  class RateLimiter {
    var rateCount: nat
    var rateWindowStart: int
    ghost var open: bool

    ghost function View(): Limiter
      reads this
    {
      Limiter(rateCount, rateWindowStart, open)
    }

    constructor (now: int)
      ensures View() == Limiter(0, now, true)
    {
      rateCount, rateWindowStart := 0, now;
      open := true;
    }

    /** Counts one frame; false ends the connection. */
    method Allow(now: int) returns (ok: bool)
      requires open
      modifies this
      ensures View() == Arrive(old(View()), now) && ok == open
    {
      if now - rateWindowStart >= RATE_LIMIT_WINDOW {
        rateCount := 0;
        rateWindowStart := now;
      }
      rateCount := rateCount + 1;
      ok := rateCount <= RATE_LIMIT_MAX;
      open := ok;
    }
  }
}
