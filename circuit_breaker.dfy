/** The circuit breaker and the retry-with-backoff helper of circuit_breaker.py.

    The clock is an integer number of seconds `now`, read once per call; the
    protected function is an oracle: its outcome is passed in as a `Result`,
    and the breaker reports whether it called it. The random jitter of the
    backoff is a draw in `[-1, 1]` scaling ten per cent of the delay. */
module CircuitBreaking {
  import opened Common

  type Value = string

  datatype CircuitState = Closed | Open | HalfOpen

  const OpenError := "Circuit breaker is OPEN"

  /** The fields of a `CircuitBreaker` that change. */
  datatype Breaker = Breaker(
    state: CircuitState,
    failureCount: int,
    successCount: int,
    lastFailureTime: Option<int>,
    nextAttemptTime: Option<int>,
    failures: seq<int>,
    successes: seq<int>)

  /** The state of a new or reset breaker. */
  function InitialBreaker(): Breaker
  {
    Breaker(Closed, 0, 0, None, None, [], [])
  }

  /** The configuration: `failure_threshold`, `reset_timeout`, `monitoring_window`. */
  datatype Config = Config(failureThreshold: int, resetTimeout: int, monitoringWindow: int)

  /** The records newer than `cutoff`, in order. */
  function After(records: seq<int>, cutoff: int): (r: seq<int>)
    ensures |r| <= |records|
    ensures forall i :: 0 <= i < |r| ==> r[i] > cutoff
    ensures forall t :: t in records && t > cutoff ==> t in r
    ensures forall t :: t in r ==> t in records
  {
    if records == [] then []
    else if records[0] > cutoff then [records[0]] + After(records[1..], cutoff)
    else After(records[1..], cutoff)
  }

  /** `_clean_old_records`: keeps the records of the monitoring window. */
  function CleanStep(b: Breaker, c: Config, now: int): Breaker
  {
    var cutoff := now - c.monitoringWindow;
    b.(failures := After(b.failures, cutoff), successes := After(b.successes, cutoff))
  }

  /** `_on_success`. */
  function OnSuccess(b: Breaker, c: Config, now: int): Breaker
  {
    var b1 := CleanStep(b.(successes := b.successes + [now]), c, now);
    match b1.state
    case HalfOpen =>
      if b1.successCount + 1 >= 2 then b1.(state := Closed, failureCount := 0, successCount := 0)
      else b1.(successCount := b1.successCount + 1)
    case Closed => b1.(failureCount := 0)
    case Open => b1
  }

  /** `_on_failure`. */
  function OnFailure(b: Breaker, c: Config, now: int): Breaker
  {
    var b1 := CleanStep(b.(failures := b.failures + [now]), c, now);
    var b2 := b1.(failureCount := b1.failureCount + 1, lastFailureTime := Some(now));
    match b2.state
    case HalfOpen => b2.(state := Open, nextAttemptTime := Some(now + c.resetTimeout))
    case Closed =>
      if b2.failureCount >= c.failureThreshold then b2.(state := Open, nextAttemptTime := Some(now + c.resetTimeout))
      else b2
    case Open => b2
  }

  /** `_check_state`: an open breaker whose timeout has passed goes half-open. */
  function CheckState(b: Breaker, now: int): Breaker
  {
    if b.state == Open && b.nextAttemptTime.Some? && now >= b.nextAttemptTime.value then
      b.(state := HalfOpen, successCount := 0)
    else b
  }

  /** Whether `execute` refuses to call the function. */
  predicate Rejects(b: Breaker, now: int)
  {
    var b1 := CheckState(b, now);
    b1.state == Open && b1.nextAttemptTime.Some? && now < b1.nextAttemptTime.value
  }

  /** `execute` with the function's outcome `outcome`: the new state, the
      result, and whether the function was called. */
  function ExecuteStep(b: Breaker, c: Config, now: int, outcome: Result<Value>): (Breaker, Result<Value>, bool)
  {
    var b1 := CheckState(b, now);
    if Rejects(b, now) then (b1, Err(OpenError), false)
    else
      var b2 := if b1.state == Open then b1.(state := HalfOpen, successCount := 0) else b1;
      if outcome.Ok? then (OnSuccess(b2, c, now), outcome, true)
      else (OnFailure(b2, c, now), outcome, true)
  }

  // ---------------------------------------------------------------------------
  // Properties
  // ---------------------------------------------------------------------------

  /** A closed breaker has fewer failures than the threshold, a half-open one
      fewer than two successes, and an open one knows when to try again. */
  ghost predicate BreakerInv(b: Breaker, c: Config)
  {
    && b.failureCount >= 0 && b.successCount >= 0
    && (b.state == Closed ==> b.failureCount < Max(1, c.failureThreshold))
    && (b.state == HalfOpen ==> b.successCount < 2)
    && (b.state == Open ==> b.nextAttemptTime.Some?)
  }

  lemma ExecuteKeepsInv(b: Breaker, c: Config, now: int, outcome: Result<Value>)
    requires BreakerInv(b, c)
    ensures BreakerInv(ExecuteStep(b, c, now, outcome).0, c)
  {
  }

  lemma InitialInv(c: Config)
    ensures BreakerInv(InitialBreaker(), c)
  {
  }

  /** In the closed state a success clears the failure count, and the failure
      that reaches the threshold opens the breaker until `now + reset_timeout`. */
  lemma ClosedTransitions(b: Breaker, c: Config, now: int)
    requires b.state == Closed
    ensures var r := OnSuccess(b, c, now); r.state == Closed && r.failureCount == 0
    ensures var r := OnFailure(b, c, now);
            r.failureCount == b.failureCount + 1
            && (r.state == Open <==> b.failureCount + 1 >= c.failureThreshold)
            && (r.state == Open ==> r.nextAttemptTime == Some(now + c.resetTimeout))
  {
  }

  /** Before its retry time an open breaker refuses without calling the
      function and without changing state. */
  lemma OpenRejects(b: Breaker, c: Config, now: int, outcome: Result<Value>)
    requires b.state == Open && b.nextAttemptTime.Some? && now < b.nextAttemptTime.value
    ensures ExecuteStep(b, c, now, outcome) == (b, Err(OpenError), false)
  {
  }

  /** From its retry time on, an open breaker goes half-open with the success
      count cleared, and then calls the function. */
  lemma OpenToHalfOpen(b: Breaker, now: int)
    requires b.state == Open && b.nextAttemptTime.Some? && now >= b.nextAttemptTime.value
    ensures CheckState(b, now) == b.(state := HalfOpen, successCount := 0)
    ensures !Rejects(b, now)
  {
  }

  /** In the half-open state any failure reopens the breaker, and the second
      success closes it with both counts cleared. */
  lemma HalfOpenTransitions(b: Breaker, c: Config, now: int)
    requires b.state == HalfOpen
    ensures var r := OnFailure(b, c, now); r.state == Open && r.nextAttemptTime == Some(now + c.resetTimeout)
    ensures b.successCount == 0 ==> var r := OnSuccess(b, c, now); r.state == HalfOpen && r.successCount == 1
    ensures b.successCount == 1 ==>
              var r := OnSuccess(b, c, now); r.state == Closed && r.failureCount == 0 && r.successCount == 0
  {
  }

  /** Two successes in a row close a half-open breaker. */
  lemma TwoSuccessesClose(b: Breaker, c: Config, now1: int, now2: int)
    requires b.state == HalfOpen && b.successCount == 0
    ensures var r := OnSuccess(OnSuccess(b, c, now1), c, now2);
            r.state == Closed && r.failureCount == 0 && r.successCount == 0
  {
  }

  // ---------------------------------------------------------------------------
  // The breaker object
  // ---------------------------------------------------------------------------

  class CircuitBreaker {
    const failureThreshold: int
    const resetTimeout: int
    const monitoringWindow: int
    var state: CircuitState
    var failureCount: int
    var successCount: int
    var lastFailureTime: Option<int>
    var nextAttemptTime: Option<int>
    var failures: seq<int>
    var successes: seq<int>

    function Cfg(): Config
    {
      Config(failureThreshold, resetTimeout, monitoringWindow)
    }

    function View(): Breaker
      reads this
    {
      Breaker(state, failureCount, successCount, lastFailureTime, nextAttemptTime, failures, successes)
    }

    ghost predicate Valid()
      reads this
    {
      BreakerInv(View(), Cfg())
    }

    constructor(failureThreshold: int, resetTimeout: int, monitoringWindow: int)
      ensures Valid() && View() == InitialBreaker()
      ensures Cfg() == Config(failureThreshold, resetTimeout, monitoringWindow)
    {
      this.failureThreshold := failureThreshold;
      this.resetTimeout := resetTimeout;
      this.monitoringWindow := monitoringWindow;
      state := Closed;
      failureCount := 0;
      successCount := 0;
      lastFailureTime := None;
      nextAttemptTime := None;
      failures := [];
      successes := [];
    }

    /** `execute`: `called` tells whether the protected function ran. */
    method Execute(now: int, outcome: Result<Value>) returns (r: Result<Value>, called: bool)
      modifies this
      ensures old(Valid()) ==> Valid()
      ensures (View(), r, called) == ExecuteStep(old(View()), Cfg(), now, outcome)
    {
      if Valid() {
        ExecuteKeepsInv(View(), Cfg(), now, outcome);
      }
      CheckStateNow(now);
      if state == Open {
        if nextAttemptTime.Some? && now < nextAttemptTime.value {
          return Err(OpenError), false;
        } else {
          state := HalfOpen;
          successCount := 0;
        }
      }
      called := true;
      r := outcome;
      if outcome.Ok? {
        OnSuccessNow(now);
      } else {
        OnFailureNow(now);
      }
    }

    method OnSuccessNow(now: int)
      modifies this
      ensures View() == OnSuccess(old(View()), Cfg(), now)
    {
      successes := successes + [now];
      CleanOldRecords(now);
      if state == HalfOpen {
        successCount := successCount + 1;
        if successCount >= 2 {
          state := Closed;
          failureCount := 0;
          successCount := 0;
        }
      } else if state == Closed {
        failureCount := 0;
      }
    }

    method OnFailureNow(now: int)
      modifies this
      ensures View() == OnFailure(old(View()), Cfg(), now)
    {
      failures := failures + [now];
      CleanOldRecords(now);
      failureCount := failureCount + 1;
      lastFailureTime := Some(now);
      if state == HalfOpen {
        state := Open;
        nextAttemptTime := Some(now + resetTimeout);
      } else if state == Closed {
        if failureCount >= failureThreshold {
          state := Open;
          nextAttemptTime := Some(now + resetTimeout);
        }
      }
    }

    method CheckStateNow(now: int)
      modifies this
      ensures View() == CheckState(old(View()), now)
    {
      if state == Open {
        if nextAttemptTime.Some? && now >= nextAttemptTime.value {
          state := HalfOpen;
          successCount := 0;
        }
      }
    }

    method CleanOldRecords(now: int)
      modifies this
      ensures View() == CleanStep(old(View()), Cfg(), now)
    {
      var cutoff := now - monitoringWindow;
      failures := After(failures, cutoff);
      successes := After(successes, cutoff);
    }

    /** `reset`: every field back to its initial value. */
    method Reset()
      modifies this
      ensures Valid() && View() == InitialBreaker()
    {
      state := Closed;
      failureCount := 0;
      successCount := 0;
      lastFailureTime := None;
      nextAttemptTime := None;
      failures := [];
      successes := [];
    }
  }

  // ---------------------------------------------------------------------------
  // Retry with exponential backoff
  // ---------------------------------------------------------------------------

  function Pow2(n: nat): (p: nat)
    ensures p >= 1
  {
    if n == 0 then 1 else 2 * Pow2(n - 1)
  }

  /** Python's `int(x)`: truncation toward zero. */
  function Trunc(x: real): int
  {
    if x >= 0.0 then x.Floor else -((-x).Floor)
  }

  /** The capped exponential delay `min(base_delay * 2 ** attempt, max_delay)`. */
  function CappedDelay(baseDelay: int, maxDelay: int, attempt: nat): int
  {
    Min(baseDelay * Pow2(attempt), maxDelay)
  }

  /** `_calculate_delay`, with `draw` in `[-1, 1]` standing for the uniform
      jitter draw as a fraction of ten per cent of the delay. */
  function CalculateDelay(baseDelay: int, maxDelay: int, jitter: bool, attempt: nat, draw: real): (d: int)
    requires -1.0 <= draw <= 1.0
    ensures d >= 0
    ensures !jitter ==> d == Max(0, CappedDelay(baseDelay, maxDelay, attempt))
  {
    var delay := CappedDelay(baseDelay, maxDelay, attempt) as real;
    var withJitter := if jitter then delay + draw * (delay * 0.1) else delay;
    Max(0, Trunc(withJitter))
  }

  /** Without jitter the delay never shrinks from one attempt to the next,
      and never exceeds `max_delay` once that is non-negative; a negative
      base delay gives 0 every time. */
  lemma {:induction false} DelayMonotone(baseDelay: int, maxDelay: int, a: nat, b: nat)
    requires a <= b
    ensures CalculateDelay(baseDelay, maxDelay, false, a, 0.0) <= CalculateDelay(baseDelay, maxDelay, false, b, 0.0)
    ensures maxDelay >= 0 ==> CalculateDelay(baseDelay, maxDelay, false, b, 0.0) <= maxDelay
    ensures baseDelay < 0 ==> CalculateDelay(baseDelay, maxDelay, false, b, 0.0) == 0
  {
    Pow2Monotone(a, b);
    if baseDelay >= 0 {
      assert baseDelay * Pow2(a) <= baseDelay * Pow2(b) by {
        MulMonotone(baseDelay, Pow2(a), Pow2(b));
      }
    } else {
      assert baseDelay * Pow2(b) < 0 by {
        MulMonotone(-baseDelay, 1, Pow2(b));
        assert (-baseDelay) * Pow2(b) == -(baseDelay * Pow2(b));
      }
      assert baseDelay * Pow2(a) < 0 by {
        MulMonotone(-baseDelay, 1, Pow2(a));
        assert (-baseDelay) * Pow2(a) == -(baseDelay * Pow2(a));
      }
    }
  }

  lemma {:induction false} Pow2Monotone(a: nat, b: nat)
    requires a <= b
    ensures Pow2(a) <= Pow2(b)
  {
    if a < b {
      Pow2Monotone(a, b - 1);
    }
  }

  lemma MulMonotone(x: int, y: int, z: int)
    requires x >= 0 && y <= z
    ensures x * y <= x * z
  {
  }

  /** The index of the first success among the first `n` outcomes, or `n`. */
  function FirstSuccess(outcomes: seq<Result<Value>>, n: nat): (i: nat)
    requires n <= |outcomes|
    ensures i <= n
    ensures forall j :: 0 <= j < i ==> outcomes[j].Err?
    ensures i < n ==> outcomes[i].Ok?
  {
    if n == 0 then 0
    else
      var i := FirstSuccess(outcomes, n - 1);
      if i < n - 1 then i else if outcomes[n - 1].Ok? then n - 1 else n
  }

  /** Raised by `raise last_error` when no attempt was made. */
  const NoAttemptError := "exceptions must derive from BaseException"

  class RetryWithBackoff {
    const maxRetries: int
    const baseDelay: int
    const maxDelay: int
    const jitter: bool

    constructor(maxRetries: int, baseDelay: int, maxDelay: int, jitter: bool)
      ensures this.maxRetries == maxRetries && this.baseDelay == baseDelay
      ensures this.maxDelay == maxDelay && this.jitter == jitter
    {
      this.maxRetries := maxRetries;
      this.baseDelay := baseDelay;
      this.maxDelay := maxDelay;
      this.jitter := jitter;
    }

    /** `execute`: `outcomes[a]` is what the function does on attempt `a` and
        `draws[a]` the jitter draw after it. The function is called until it
        succeeds, at most `max_retries + 1` times; the result is the first
        success or else the last error, and `delays` are the back-off delays
        slept between attempts. */
    method Execute(outcomes: seq<Result<Value>>, draws: seq<real>) returns (r: Result<Value>, calls: nat, delays: seq<int>)
      requires |outcomes| >= maxRetries + 1 && |draws| >= maxRetries + 1
      requires forall a :: 0 <= a < |draws| ==> -1.0 <= draws[a] <= 1.0
      ensures var n := if maxRetries < 0 then 0 else maxRetries + 1;
              var f := FirstSuccess(outcomes, n);
              && calls == (if f < n then f + 1 else n)
              && calls <= n
              && r == (if f < n then outcomes[f] else if n == 0 then Err(NoAttemptError) else outcomes[n - 1])
              && |delays| == (if n == 0 then 0 else Min(f, n - 1))
              && forall a :: 0 <= a < |delays| ==> delays[a] == CalculateDelay(baseDelay, maxDelay, jitter, a, draws[a])
    {
      var n: nat := if maxRetries < 0 then 0 else maxRetries + 1;
      var lastError: Option<string> := None;
      calls := 0;
      delays := [];
      var attempt: nat := 0;
      while attempt < n
        invariant attempt <= n && calls == attempt
        invariant FirstSuccess(outcomes, attempt) == attempt
        invariant attempt > 0 ==> lastError == Some(outcomes[attempt - 1].message)
        invariant attempt == 0 ==> lastError == None
        invariant |delays| == (if n == 0 then 0 else Min(attempt, n - 1))
        invariant forall a :: 0 <= a < |delays| ==> delays[a] == CalculateDelay(baseDelay, maxDelay, jitter, a, draws[a])
      {
        calls := calls + 1;
        if outcomes[attempt].Ok? {
          return outcomes[attempt], calls, delays;
        }
        lastError := Some(outcomes[attempt].message);
        if attempt < maxRetries {
          var delay := CalculateDelay(baseDelay, maxDelay, jitter, attempt, draws[attempt]);
          delays := delays + [delay];
        }
        attempt := attempt + 1;
      }
      if lastError.None? {
        return Err(NoAttemptError), calls, delays;
      }
      r := Err(lastError.value);
    }
  }
}
