/** `RetryPolicy` and the `with_retry` decorator of backend/app/infrastructure/llm/retry_policy.py.
    Delays are exact reals, `random.random()` is a parameter `rand` giving the draw made before
    each attempt's sleep, and the wrapped coroutine is a parameter `call` giving each attempt's
    outcome. */
module RetryPolicy {
  import opened Wrappers

  datatype Policy = Policy(maxAttempts: int, initialDelay: real, maxDelay: real,
                           exponentialBase: real, jitter: bool)

  /** The constructor's defaults and the three predefined decorators. */
  const DefaultPolicy := Policy(3, 1.0, 60.0, 2.0, true)
  const StandardRetry := Policy(3, 1.0, 10.0, 2.0, true)
  const AggressiveRetry := Policy(5, 0.5, 30.0, 2.0, true)
  const ConservativeRetry := Policy(2, 2.0, 60.0, 2.0, true)

  function Pow(b: real, n: nat): (r: real)
    ensures b >= 0.0 ==> r >= 0.0
    ensures b >= 1.0 ==> r >= 1.0
  {
    if n == 0 then 1.0 else b * Pow(b, n - 1)
  }

  function Min(a: real, b: real): real {
    if a <= b then a else b
  }

  /** The delay before jitter: `min(initial_delay * base ** attempt, max_delay)`. */
  function BaseDelay(p: Policy, attempt: nat): real {
    Min(p.initialDelay * Pow(p.exponentialBase, attempt), p.maxDelay)
  }

  /** With a base of at least 1 the un-jittered delay never shrinks from one attempt to the next. */
  lemma BaseDelayGrows(p: Policy, attempt: nat)
    requires p.initialDelay >= 0.0 && p.exponentialBase >= 1.0
    ensures BaseDelay(p, attempt) <= BaseDelay(p, attempt + 1)
  {
    var x := Pow(p.exponentialBase, attempt);
    var y := Pow(p.exponentialBase, attempt + 1);
    assert y == p.exponentialBase * x;
    assert x <= y by {
      MulNonneg(p.exponentialBase - 1.0, x);
      assert y - x == (p.exponentialBase - 1.0) * x;
    }
    assert p.initialDelay * x <= p.initialDelay * y by {
      MulNonneg(p.initialDelay, y - x);
      assert p.initialDelay * y - p.initialDelay * x == p.initialDelay * (y - x);
    }
    MinMonotone(p.initialDelay * x, p.initialDelay * y, p.maxDelay);
  }

  lemma MinMonotone(a: real, b: real, m: real)
    requires a <= b
    ensures Min(a, m) <= Min(b, m)
  {
  }

  lemma MulNonneg(a: real, b: real)
    requires a >= 0.0 && b >= 0.0
    ensures a * b >= 0.0
  {
  }

  /** `calculate_delay(attempt)` given the draw `random` from [0, 1). */
  function CalculateDelay(p: Policy, attempt: nat, random: real): (d: real)
    requires 0.0 <= random < 1.0
    ensures !p.jitter ==> d == BaseDelay(p, attempt)
    ensures p.jitter && BaseDelay(p, attempt) >= 0.0 ==> BaseDelay(p, attempt) / 2.0 <= d <= BaseDelay(p, attempt)
    ensures d <= p.maxDelay || BaseDelay(p, attempt) < 0.0
  {
    var delay := BaseDelay(p, attempt);
    if p.jitter then
      var f := 0.5 + random * 0.5;
      assert delay * f - delay / 2.0 == delay * (random * 0.5);
      assert delay - delay * f == delay * (0.5 - random * 0.5);
      if delay >= 0.0 then
        MulNonneg(delay, random * 0.5);
        MulNonneg(delay, 0.5 - random * 0.5);
        delay * f
      else delay * f
    else delay
  }

  /** What an attempt raised. `WithResponse` is an exception carrying a `response`, whose
      `status_code` may be missing. */
  datatype Failure = TimeoutError | ConnectionFailure | WithResponse(statusCode: Option<int>) | OtherFailure

  const RetryableStatuses: set<int> := {408, 429, 500, 502, 503, 504}

  /** `should_retry` */
  function ShouldRetry(e: Failure): (ok: bool)
    ensures e.TimeoutError? || e.ConnectionFailure? ==> ok
    ensures ok && e.WithResponse? ==>
      e.statusCode.Some? && (e.statusCode.value == 408 || e.statusCode.value == 429
                             || (500 <= e.statusCode.value <= 504 && e.statusCode.value != 501))
    ensures e.OtherFailure? ==> !ok
  {
    e.TimeoutError? || e.ConnectionFailure?
    || (e.WithResponse? && e.statusCode.Some? && e.statusCode.value in RetryableStatuses)
  }

  /** Timeouts and connection errors are retried, and so are responses with one of the six
      statuses; a response without a status and any other exception are not. */
  lemma ShouldRetryCases(status: int)
    ensures ShouldRetry(TimeoutError) && ShouldRetry(ConnectionFailure)
    ensures ShouldRetry(WithResponse(Some(status))) <==> status in RetryableStatuses
    ensures !ShouldRetry(WithResponse(None)) && !ShouldRetry(OtherFailure)
    ensures status < 408 ==> !ShouldRetry(WithResponse(Some(status)))
  {
  }

  /** The outcome of one awaited call of the wrapped function. */
  datatype Outcome<T> = Returned(value: T) | Raised(failure: Failure)

  /** What the wrapper raises: the last failure re-raised, or the `TypeError` ("exceptions must
      derive from BaseException") of `raise last_exception` while `last_exception` is still None. */
  datatype Raise = Reraised(failure: Failure) | NoneNotException

  /** `raise last_exception` */
  function Raising(last: Option<Failure>): (e: Raise)
    ensures e.NoneNotException? <==> last.None?
    ensures last.Some? ==> e == Reraised(last.value)
  {
    if last.Some? then Reraised(last.value) else NoneNotException
  }

  /** The wrapper from attempt `attempt` on: the result, the attempts made in all, and the sleeps
      taken. */
  function Run<T>(p: Policy, call: nat -> Outcome<T>, rand: nat -> real, attempt: nat)
    : (Result<T, Raise>, nat, seq<real>)
    requires forall j :: 0.0 <= rand(j) < 1.0
    decreases p.maxAttempts - attempt
  {
    if attempt >= p.maxAttempts then (Err(NoneNotException), attempt, [])
    else
      var outcome := call(attempt);
      if outcome.Returned? then (Ok(outcome.value), attempt + 1, [])
      else if !ShouldRetry(outcome.failure) then (Err(Reraised(outcome.failure)), attempt + 1, [])
      else if attempt == p.maxAttempts - 1 then (Err(Reraised(outcome.failure)), attempt + 1, [])
      else
        var rest := Run(p, call, rand, attempt + 1);
        (rest.0, rest.1, [CalculateDelay(p, attempt, rand(attempt))] + rest.2)
  }

  /** The sleeps after attempts `a` to `b - 1`. */
  function Sleeps(p: Policy, rand: nat -> real, a: nat, b: nat): (s: seq<real>)
    requires a <= b
    requires forall j :: 0.0 <= rand(j) < 1.0
    ensures |s| == b - a
    ensures forall j :: 0 <= j < b - a ==> s[j] == CalculateDelay(p, a + j, rand(a + j))
    decreases b - a
  {
    if a == b then [] else [CalculateDelay(p, a, rand(a))] + Sleeps(p, rand, a + 1, b)
  }

  /** What the wrapper promises from attempt `a` on: it stops within the attempts allowed, every
      attempt but the last raised a retryable failure, the last one's value is returned and its
      failure re-raised, a retryable failure is raised only at the last allowed attempt, and
      there is a sleep after every attempt but the last. */
  lemma {:induction false} RunFrom<T>(p: Policy, call: nat -> Outcome<T>, rand: nat -> real, a: nat)
    requires forall j :: 0.0 <= rand(j) < 1.0
    requires a < p.maxAttempts
    ensures var res := Run(p, call, rand, a); var n := res.1;
      && a + 1 <= n <= p.maxAttempts
      && (forall j :: a <= j < n - 1 ==> call(j).Raised? && ShouldRetry(call(j).failure))
      && (res.0.Ok? <==> call(n - 1).Returned?)
      && (res.0.Ok? ==> res.0.value == call(n - 1).value)
      && (res.0.Err? ==> res.0.error == Reraised(call(n - 1).failure))
      && (res.0.Err? && ShouldRetry(call(n - 1).failure) ==> n == p.maxAttempts)
      && res.2 == Sleeps(p, rand, a, n - 1)
    decreases p.maxAttempts - a
  {
    var outcome := call(a);
    if outcome.Raised? && ShouldRetry(outcome.failure) && a < p.maxAttempts - 1 {
      RunFrom(p, call, rand, a + 1);
    }
  }

  /** The decorator does not call the function at all when `max_attempts` is not positive, and
      then `raise None` fails with a `TypeError`. */
  lemma RunNoAttempts<T>(p: Policy, call: nat -> Outcome<T>, rand: nat -> real)
    requires forall j :: 0.0 <= rand(j) < 1.0
    requires p.maxAttempts <= 0
    ensures Run(p, call, rand, 0) == (Err(NoneNotException), 0, [])
  {
  }

  /** A function that succeeds at once is called once, with no sleep. */
  lemma RunFirstSuccess<T>(p: Policy, call: nat -> Outcome<T>, rand: nat -> real)
    requires forall j :: 0.0 <= rand(j) < 1.0
    requires p.maxAttempts >= 1 && call(0).Returned?
    ensures Run(p, call, rand, 0) == (Ok(call(0).value), 1, [])
  {
  }

  /** `with_retry(...)(func)(*args)`: the attempt loop carrying `last_exception`. */
  method WithRetry<T>(p: Policy, call: nat -> Outcome<T>, rand: nat -> real)
    returns (r: Result<T, Raise>, attempts: nat, sleeps: seq<real>)
    requires forall j :: 0.0 <= rand(j) < 1.0
    ensures (r, attempts, sleeps) == Run(p, call, rand, 0)
  {
    var lastException: Option<Failure> := None;
    sleeps := [];
    var attempt: nat := 0;
    assert sleeps + Run(p, call, rand, 0).2 == Run(p, call, rand, 0).2;
    while attempt < p.maxAttempts
      invariant attempt == 0 ==> lastException == None && sleeps == []
      invariant attempt < p.maxAttempts ==>
        var rest := Run(p, call, rand, attempt);
        Run(p, call, rand, 0) == (rest.0, rest.1, sleeps + rest.2)
      invariant attempt > 0 && attempt >= p.maxAttempts ==>
        Run(p, call, rand, 0) == (Err(Raising(lastException)), attempt, sleeps)
      decreases p.maxAttempts - attempt
    {
      var outcome := call(attempt);
      if outcome.Returned? {
        assert sleeps + [] == sleeps;
        return Ok(outcome.value), attempt + 1, sleeps;
      }
      lastException := Some(outcome.failure);
      if !ShouldRetry(outcome.failure) {
        assert sleeps + [] == sleeps;
        return Err(Raising(lastException)), attempt + 1, sleeps;
      }
      if attempt < p.maxAttempts - 1 {
        var delay := CalculateDelay(p, attempt, rand(attempt));
        var rest := Run(p, call, rand, attempt + 1);
        assert (sleeps + [delay]) + rest.2 == sleeps + ([delay] + rest.2);
        sleeps := sleeps + [delay];
      } else {
        assert sleeps + [] == sleeps;
      }
      attempt := attempt + 1;
    }
    r, attempts := Err(Raising(lastException)), attempt;
  }
}
