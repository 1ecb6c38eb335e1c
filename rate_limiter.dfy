/** The leaky-bucket, fixed-window and sliding-window rate limiters of
    rate_limiter.py.

    The clock `time.time()` is an integer `now` passed to each call and read
    once per call, so instants are whole seconds. Window sizes and the leak
    rate are real numbers, as the floats of the source. */
module RateLimiting {
  import opened Common

  /** `{'allowed', 'queue_size'}` of the leaky bucket. */
  datatype Admission = Admission(allowed: bool, queueSize: int)

  /** `{'allowed', 'remaining'}` of the fixed window, and the sliding window's
      answer, which has `retry_after` only on a denial. */
  datatype Decision = Decision(allowed: bool, remaining: int, retryAfter: Option<int>)

  /** Python's `int(x)`: truncation toward zero. */
  function Trunc(x: real): int
  {
    if x >= 0.0 then x.Floor else -((-x).Floor)
  }

  /** Python's `int(a / b)` for a positive `b`: the quotient truncated toward zero. */
  function TruncDiv(a: int, b: int): (q: int)
    requires b > 0
    ensures a >= 0 ==> q == a / b
    ensures a < 0 ==> q == -((-a) / b)
  {
    if a >= 0 then a / b else -((-a) / b)
  }

  // ---------------------------------------------------------------------------
  // Leaky bucket
  // ---------------------------------------------------------------------------

  /** `LeakyBucket`: a queue of admitted request times that leaks at
      `leak_rate` requests per second. */
  class LeakyBucket {
    const capacity: int
    const leakRate: real
    var queue: seq<int>
    var lastLeak: int

    /** The queue never holds more than `capacity` requests. */
    ghost predicate Valid()
      reads this
    {
      |queue| <= Max(0, capacity)
    }

    constructor(capacity: int, leakRate: real, now: int)
      ensures Valid() && queue == [] && lastLeak == now
      ensures this.capacity == capacity && this.leakRate == leakRate
    {
      this.capacity := capacity;
      this.leakRate := leakRate;
      queue := [];
      lastLeak := now;
    }

    /** The number of requests `_leak` removes at time `now`. */
    function LeakCount(now: int): (n: int)
      reads this
      ensures n == Min(Trunc((now - lastLeak) as real * leakRate), |queue|)
    {
      Min(Trunc((now - lastLeak) as real * leakRate), |queue|)
    }

    /** `_leak`: removes the `min(k, len(queue))` oldest requests, with
        `k = int(elapsed * leak_rate)`, none when that is negative. */
    method Leak(now: int)
      modifies this
      ensures queue == old(queue)[Max(0, old(LeakCount(now)))..]
      ensures old(Valid()) ==> Valid()
      ensures lastLeak == now
    {
      var toRemove := Trunc((now - lastLeak) as real * leakRate);
      var n := Min(toRemove, |queue|);
      var i := 0;
      while i < n
        invariant 0 <= i <= Max(0, n)
        invariant queue == old(queue)[i..]
      {
        queue := queue[1..];
        i := i + 1;
      }
      lastLeak := now;
    }

    /** `try_add`: leaks first, then admits iff the queue is below capacity. */
    method TryAdd(now: int) returns (r: Admission)
      requires Valid()
      modifies this
      ensures Valid() && lastLeak == now
      ensures var leaked := old(queue)[Max(0, old(LeakCount(now)))..];
              if |leaked| < capacity then
                r == Admission(true, |leaked| + 1) && queue == leaked + [now]
              else
                r == Admission(false, |leaked|) && queue == leaked
    {
      Leak(now);
      if |queue| < capacity {
        queue := queue + [now];
        return Admission(true, |queue|);
      }
      r := Admission(false, |queue|);
    }

    /** `get_queue_size`: the queue length after leaking. */
    method GetQueueSize(now: int) returns (n: int)
      requires Valid()
      modifies this
      ensures Valid() && n == |queue| && queue == old(queue)[Max(0, old(LeakCount(now)))..]
      ensures n <= Max(0, capacity)
    {
      Leak(now);
      n := |queue|;
    }
  }

  // ---------------------------------------------------------------------------
  // Fixed window
  // ---------------------------------------------------------------------------

  /** `_get_current_window`: `int(now / window_size) * int(window_size)`;
      a window size of 0 raises `ZeroDivisionError`. */
  function CurrentWindow(now: int, windowSize: real): (r: Result<int>)
    ensures r.Err? <==> windowSize == 0.0
    ensures r.Err? ==> r.message == "float division by zero"
    ensures 0.0 < windowSize < 1.0 ==> r == Ok(0)
  {
    if windowSize == 0.0 then Err("float division by zero")
    else Ok(Trunc(now as real / windowSize) * Trunc(windowSize))
  }

  /** `x.Floor` is the one integer within 1 below `x`. */
  lemma FloorUnique(x: real, q: int)
    requires q as real <= x < q as real + 1.0
    ensures x.Floor == q
  {
  }

  /** Multiplying by a positive number keeps an order in both directions. */
  lemma ScaleBack(u: real, v: real, m: real)
    requires m > 0.0
    ensures u * m < v * m ==> u < v
    ensures u * m <= v * m ==> u <= v
  {
  }

  /** A real `x` with `q * m <= x * m < (q + 1) * m` for a positive `m` rounds
      down to `q`. */
  lemma FloorOfScaled(x: real, m: real, q: int)
    requires m > 0.0 && (q as real) * m <= x * m < ((q + 1) as real) * m
    ensures x.Floor == q
  {
    ScaleBack(q as real, x, m);
    ScaleBack(x, (q + 1) as real, m);
    FloorUnique(x, q);
  }

  /** Converting to a real commutes with multiplication. */
  lemma ProductAsReal(a: int, b: int)
    ensures (a * b) as real == (a as real) * (b as real)
  {
  }

  /** The real quotient of two integers rounds down to their integer quotient. */
  lemma RealQuotientFloor(a: int, n: int)
    requires n > 0
    ensures (a as real / n as real).Floor == a / n
  {
    var q := a / n;
    var x, m := a as real / n as real, n as real;
    assert x * m == a as real;
    assert q * n <= a < (q + 1) * n;
    ProductAsReal(q, n);
    ProductAsReal(q + 1, n);
    FloorOfScaled(x, m, q);
  }

  /** For a whole number of seconds `n`, the window start is the truncated
      integer quotient times `n`. */
  lemma WholeWindow(now: int, n: int)
    requires n > 0
    ensures CurrentWindow(now, n as real) == Ok(TruncDiv(now, n) * n)
  {
    FloorUnique(n as real, n);
    if now >= 0 {
      RealQuotientFloor(now, n);
    } else {
      RealQuotientFloor(-now, n);
      assert -(now as real / n as real) == (-now) as real / n as real;
    }
  }

  /** With a whole window of `n` seconds, a non-negative instant lies in the
      window that starts at most `n - 1` seconds before it, at or after 0. */
  lemma WholeWindowBounds(now: int, n: int)
    requires now >= 0 && n > 0
    ensures var w := CurrentWindow(now, n as real).value; 0 <= w <= now < w + n
  {
    WholeWindow(now, n);
    WindowBounds(now, n);
  }

  /** The window of a non-negative instant starts at or before it and at or
      after 0. */
  lemma WindowBounds(now: int, windowSize: int)
    requires now >= 0 && windowSize > 0
    ensures var q := now / windowSize; q >= 0 && q * windowSize <= now < q * windowSize + windowSize
  {
    var q, r := now / windowSize, now % windowSize;
    assert q * windowSize == now - r;
    MulNegative(q, windowSize);
  }

  /** A negative multiple of `n` is at most `-n`. */
  lemma MulNegative(d: int, n: int)
    requires n > 0
    ensures d <= -1 ==> d * n <= -n
  {
    if d <= -1 {
      MulAtLeast(-d, n);
      assert (-d) * n == -(d * n);
    }
  }

  /** Every instant of a whole window of `n` seconds maps to that window's
      start, so requests in the same window share one counter. */
  lemma SameWindow(now: int, start: int, n: int)
    requires n > 0 && start >= 0 && start % n == 0
    requires start <= now < start + n
    ensures CurrentWindow(now, n as real) == Ok(start)
  {
    WholeWindow(now, n);
    var k := start / n;
    DivModUnique(start, n, k, 0);
    DivModUnique(now, n, k, now - start);
  }

  /** The windows `_cleanup` keeps: those starting at or after
      `current - window_size`. */
  function Kept(windows: map<int, int>, current: int, windowSize: real): (r: map<int, int>)
    ensures forall w :: w in r <==> w in windows && w as real >= current as real - windowSize
    ensures forall w :: w in r ==> r[w] == windows[w]
  {
    map w | w in windows && w as real >= current as real - windowSize :: windows[w]
  }

  /** A window size strictly between 0 and 1 truncates to 0, so every
      instant is in window 0 and cleanup never drops that window: its count
      only grows, and once it reaches `max_requests` no request is admitted
      again. */
  lemma SubSecondWindowNeverResets(windows: map<int, int>, now: int, windowSize: real)
    requires 0.0 < windowSize < 1.0 && 0 in windows
    ensures CurrentWindow(now, windowSize) == Ok(0)
    ensures 0 in Kept(windows, 0, windowSize) && Kept(windows, 0, windowSize)[0] == windows[0]
  {
  }

  /** `FixedWindow`: a request count per window start. */
  class FixedWindow {
    const maxRequests: int
    const windowSize: real
    var windows: map<int, int>

    /** No window ever counts more than `max_requests` requests. */
    ghost predicate Valid()
      reads this
    {
      forall w :: w in windows ==> 0 < windows[w] <= maxRequests
    }

    constructor(maxRequests: int, windowSize: real)
      ensures Valid() && windows == map[]
      ensures this.maxRequests == maxRequests && this.windowSize == windowSize
    {
      this.maxRequests := maxRequests;
      this.windowSize := windowSize;
      windows := map[];
    }

    /** `_cleanup`: deletes exactly the windows that start before
        `current - window_size`, or raises with nothing deleted when the
        window size is 0. The result is the current window it computed. */
    method Cleanup(now: int) returns (r: Result<int>)
      requires Valid()
      modifies this
      ensures Valid() && r == CurrentWindow(now, windowSize)
      ensures r.Err? ==> windows == old(windows)
      ensures r.Ok? ==> windows == Kept(old(windows), r.value, windowSize)
    {
      r := CurrentWindow(now, windowSize);
      if r.Err? {
        return;
      }
      var current := r.value;
      var toRemove := set w | w in windows && (w as real) < (current as real) - windowSize;
      while toRemove != {}
        invariant Valid()
        invariant toRemove <= old(windows).Keys
        invariant forall w :: w in toRemove ==> (w as real) < (current as real) - windowSize
        invariant forall w :: w in windows <==>
                    w in old(windows) && (w as real >= current as real - windowSize || w in toRemove)
        invariant forall w :: w in windows ==> windows[w] == old(windows)[w]
        decreases |toRemove|
      {
        var w :| w in toRemove;
        windows := windows - {w};
        toRemove := toRemove - {w};
      }
      var kept := Kept(old(windows), current, windowSize);
      forall w ensures w in windows <==> w in kept {
        assert w !in toRemove;
      }
      assert windows.Keys == kept.Keys;
    }

    /** `try_request`: admits iff the current window has counted fewer than
        `max_requests`, counting the request and reporting how many remain; a
        denial counts nothing and reports none remaining. A window size of 0
        raises before anything changes. */
    method TryRequest(now: int) returns (r: Result<Decision>)
      requires Valid()
      modifies this
      ensures Valid()
      ensures var cw := CurrentWindow(now, windowSize);
              cw.Err? ==> r == Err(cw.message) && windows == old(windows)
      ensures var cw := CurrentWindow(now, windowSize);
              cw.Ok? ==>
                var w := cw.value;
                var kept := Kept(old(windows), w, windowSize);
                var count := if w in kept then kept[w] else 0;
                if count < maxRequests then
                  r == Ok(Decision(true, maxRequests - count - 1, None)) && windows == kept[w := count + 1]
                else
                  r == Ok(Decision(false, 0, None)) && windows == kept
    {
      var cw := CurrentWindow(now, windowSize);
      if cw.Err? {
        return Err(cw.message);
      }
      var window := cw.value;
      var _ := Cleanup(now);
      var count := if window in windows then windows[window] else 0;
      if count < maxRequests {
        windows := windows[window := count + 1];
        return Ok(Decision(true, maxRequests - count - 1, None));
      }
      r := Ok(Decision(false, 0, None));
    }

    /** `get_count`: the count of the current window after cleaning up, or
        the cleanup's error with nothing changed. */
    method GetCount(now: int) returns (n: Result<int>)
      requires Valid()
      modifies this
      ensures Valid()
      ensures var cw := CurrentWindow(now, windowSize);
              cw.Err? ==> n == Err(cw.message) && windows == old(windows)
      ensures var cw := CurrentWindow(now, windowSize);
              cw.Ok? ==>
                && windows == Kept(old(windows), cw.value, windowSize)
                && n == Ok(if cw.value in windows then windows[cw.value] else 0)
                && 0 <= n.value <= Max(0, maxRequests)
    {
      var cleaned := Cleanup(now);
      if cleaned.Err? {
        return Err(cleaned.message);
      }
      var cw := CurrentWindow(now, windowSize);
      var window := cw.value;
      n := Ok(if window in windows then windows[window] else 0);
    }
  }

  // ---------------------------------------------------------------------------
  // Sliding window
  // ---------------------------------------------------------------------------

  /** The timestamps still inside the window at `now`, in order. */
  function InWindow(requests: seq<int>, now: int, windowSize: real): (r: seq<int>)
    ensures |r| <= |requests|
    ensures forall i :: 0 <= i < |r| ==> ((now - r[i]) as real) < windowSize
    ensures forall t :: t in requests && ((now - t) as real) < windowSize ==> t in r
    ensures forall t :: t in r ==> t in requests
  {
    if requests == [] then []
    else if ((now - requests[0]) as real) < windowSize then [requests[0]] + InWindow(requests[1..], now, windowSize)
    else InWindow(requests[1..], now, windowSize)
  }

  /** Filtering twice at the same instant keeps the same timestamps. */
  lemma {:induction false} InWindowIdempotent(requests: seq<int>, now: int, windowSize: real)
    ensures InWindow(InWindow(requests, now, windowSize), now, windowSize) == InWindow(requests, now, windowSize)
  {
    if requests != [] {
      InWindowIdempotent(requests[1..], now, windowSize);
    }
  }

  /** A timestamp that has left the window never comes back: filtering at
      `earlier` and then at `later` is the same as filtering at `later`. */
  lemma {:induction false} InWindowLater(requests: seq<int>, earlier: int, later: int, windowSize: real)
    requires earlier <= later
    ensures InWindow(InWindow(requests, earlier, windowSize), later, windowSize) == InWindow(requests, later, windowSize)
  {
    if requests != [] {
      InWindowLater(requests[1..], earlier, later, windowSize);
    }
  }

  /** `SlidingWindow`: the timestamps of the admitted requests. */
  class SlidingWindow {
    const maxRequests: int
    const windowSize: real
    var requests: seq<int>

    /** No more than `max_requests` timestamps are ever kept. */
    ghost predicate Valid()
      reads this
    {
      |requests| <= Max(0, maxRequests)
    }

    constructor(maxRequests: int, windowSize: real)
      ensures Valid() && requests == []
      ensures this.maxRequests == maxRequests && this.windowSize == windowSize
    {
      this.maxRequests := maxRequests;
      this.windowSize := windowSize;
      requests := [];
    }

    /** `try_request`: keeps the timestamps inside the window, then admits
        and records `now` iff fewer than `max_requests` remain. A denial
        reports when the oldest kept request leaves the window. */
    method TryRequest(now: int) returns (r: Decision)
      requires Valid()
      modifies this
      ensures Valid()
      ensures var kept := InWindow(old(requests), now, windowSize);
              if |kept| < maxRequests then
                r == Decision(true, maxRequests - |kept| - 1, None) && requests == kept + [now]
              else
                && requests == kept
                && r.allowed == false && r.remaining == 0
                && r.retryAfter == Some(if kept == [] then 0 else Max(0, Trunc(windowSize - (now - kept[0]) as real)))
    {
      requests := InWindow(requests, now, windowSize);
      if |requests| < maxRequests {
        requests := requests + [now];
        return Decision(true, maxRequests - |requests|, None);
      }
      var retryAfter := 0;
      if requests != [] {
        var oldest := requests[0];
        var waitTime := windowSize - (now - oldest) as real;
        retryAfter := Max(0, Trunc(waitTime));
      }
      r := Decision(false, 0, Some(retryAfter));
    }

    /** `get_count`: the number of timestamps inside the window. */
    method GetCount(now: int) returns (n: int)
      requires Valid()
      modifies this
      ensures Valid()
      ensures requests == InWindow(old(requests), now, windowSize) && n == |requests|
    {
      requests := InWindow(requests, now, windowSize);
      n := |requests|;
    }
  }
}
