/**
 * The `retry(max_attempts, delay)` decorator of pwa/src/utils/decorators.py.
 *
 * The decorated function is seen through its outcomes: `op(k)` is what its
 * (k+1)-th invocation returns or raises. Sleeping is recorded as an event in
 * the wrapper's trace rather than taken as time.
 */
module Retry {
  import opened Outcomes

  const DefaultMaxAttempts: int := 3
  const DefaultDelay: real := 1.0

  /** The decorated function: the outcome of its k-th invocation, counting from 0. */
  type Operation<T> = nat -> Outcome<T>

  /** The two wrappers `retry` can hand back. */
  datatype Mode = AsyncWrapper | SyncWrapper

  /** What a wrapper does that can be observed, in order. */
  datatype Event =
    | Invoked(attempt: nat)       // the wrapped function is called for attempt `attempt`
    | Slept(seconds: real)        // `await asyncio.sleep(seconds)`: a real pause
    | SleepCreated(seconds: real) // `asyncio.sleep(seconds)` without `await`: a coroutine made and dropped, no pause

  /** How a wrapper call ends. */
  datatype Final<T> =
    | Returned(value: T)    // the wrapped function's own return value
    | Reraised(error: Exc)  // an exception propagating out of the wrapper
    | ImplicitNone          // the loop ran no iteration and the wrapper fell off its end

  /** The wrapper `retry(maxAttempts, delay)` puts around a function. */
  datatype Decorated = Decorated(maxAttempts: int, delay: real, mode: Mode)

  /** `retry(maxAttempts, delay)(func)`: coroutine functions get the async wrapper, all others the sync one. */
  function Retry(maxAttempts: int, delay: real, isCoroutineFunction: bool): (d: Decorated)
    ensures d.mode == AsyncWrapper <==> isCoroutineFunction
    ensures d.maxAttempts == maxAttempts && d.delay == delay
  {
    Decorated(maxAttempts, delay, if isCoroutineFunction then AsyncWrapper else SyncWrapper)
  }

  /** The event the `except` branch records before the next attempt. */
  function Pause(d: Decorated): Event {
    match d.mode
    case AsyncWrapper => Slept(d.delay)
    case SyncWrapper => SleepCreated(d.delay)
  }

  /** An outcome the loop retries: an exception that `except Exception` catches. */
  predicate Retryable<T>(o: Outcome<T>) {
    o.Raised? && o.error.IsException()
  }

  /**
   * Number of invocations when the loop is at invocation index `k` (attempt
   * k+1) and every earlier invocation was retried: the loop stops at the first
   * invocation that is not retried, or at the last allowed attempt.
   */
  function CallsFrom<T>(op: Operation<T>, maxAttempts: int, k: nat): (n: nat)
    requires k < maxAttempts
    ensures k < n <= maxAttempts
    decreases maxAttempts - k
  {
    if k == maxAttempts - 1 || !Retryable(op(k)) then k + 1 else CallsFrom(op, maxAttempts, k + 1)
  }

  /** Number of times a wrapper calls the decorated function. */
  function Calls<T>(op: Operation<T>, maxAttempts: int): nat {
    if maxAttempts < 1 then 0 else CallsFrom(op, maxAttempts, 0)
  }

  /** How the wrapper ends after `Calls` invocations: the last invocation's outcome, unchanged. */
  function Settle<T>(op: Operation<T>, maxAttempts: int): Final<T> {
    var n := Calls(op, maxAttempts);
    if n == 0 then ImplicitNone
    else match op(n - 1)
      case Ok(v) => Returned(v)
      case Raised(e) => Reraised(e)
  }

  /** The trace of `n` invocations: attempt 1, then a pause before each further attempt. */
  function Schedule(n: nat, pause: Event): seq<Event> {
    if n == 0 then [] else if n == 1 then [Invoked(1)] else Schedule(n - 1, pause) + [pause, Invoked(n)]
  }

  /**
   * `async_wrapper` / `sync_wrapper`: the `for attempt in range(1, max_attempts + 1)`
   * loop with its `try`/`except Exception`, early return and sleep.
   */
  method Call<T>(d: Decorated, op: Operation<T>) returns (result: Final<T>, trace: seq<Event>)
    ensures result == Settle(op, d.maxAttempts)
    ensures trace == Schedule(Calls(op, d.maxAttempts), Pause(d))
  {
    trace := [];
    var attempt := 1;
    while attempt <= d.maxAttempts
      invariant 1 <= attempt
      invariant attempt > 1 ==> attempt <= d.maxAttempts
      invariant attempt > 1 ==> Calls(op, d.maxAttempts) == CallsFrom(op, d.maxAttempts, attempt - 1)
      invariant trace == if attempt == 1 then [] else Schedule(attempt - 1, Pause(d)) + [Pause(d)]
      decreases d.maxAttempts - attempt
    {
      trace := trace + [Invoked(attempt)];
      var outcome := op(attempt - 1);
      match outcome {
        case Ok(v) =>
          return Returned(v), trace;
        case Raised(e) =>
          if !e.IsException() || attempt == d.maxAttempts {
            return Reraised(e), trace;
          }
          trace := trace + [Pause(d)];
      }
      attempt := attempt + 1;
    }
    result := ImplicitNone;
  }

  /** `Calls` is the index of the first invocation that ends the loop, and no other number is. */
  lemma {:induction false} CallsIsFirstStop<T>(op: Operation<T>, maxAttempts: int, n: nat)
    requires maxAttempts >= 1
    ensures Calls(op, maxAttempts) == n <==>
      && 1 <= n <= maxAttempts
      && (forall j :: 0 <= j < n - 1 ==> Retryable(op(j)))
      && (n == maxAttempts || !Retryable(op(n - 1)))
  {
    CallsFromIsFirstStop(op, maxAttempts, 0, n);
  }

  lemma {:induction false} CallsFromIsFirstStop<T>(op: Operation<T>, maxAttempts: int, k: nat, n: nat)
    requires k < maxAttempts
    ensures CallsFrom(op, maxAttempts, k) == n <==>
      && k + 1 <= n <= maxAttempts
      && (forall j :: k <= j < n - 1 ==> Retryable(op(j)))
      && (n == maxAttempts || !Retryable(op(n - 1)))
    decreases maxAttempts - k
  {
    if k == maxAttempts - 1 || !Retryable(op(k)) {
    } else {
      CallsFromIsFirstStop(op, maxAttempts, k + 1, n);
      if n == k + 1 {
        assert !(n == maxAttempts || !Retryable(op(n - 1)));
      }
    }
  }

  /** The first invocation that returns ends the loop and its value is returned unchanged. */
  lemma ReturnsFirstSuccess<T>(op: Operation<T>, maxAttempts: int, k: nat)
    requires k < maxAttempts && op(k).Ok?
    requires forall j :: 0 <= j < k ==> Retryable(op(j))
    ensures Calls(op, maxAttempts) == k + 1
    ensures Settle(op, maxAttempts) == Returned(op(k).value)
  {
    CallsIsFirstStop(op, maxAttempts, k + 1);
  }

  /** When every attempt raises an `Exception`, all `maxAttempts` are made and the last exception is re-raised. */
  lemma ReraisesLastFailure<T>(op: Operation<T>, maxAttempts: int)
    requires maxAttempts >= 1
    requires forall j :: 0 <= j < maxAttempts ==> Retryable(op(j))
    ensures Calls(op, maxAttempts) == maxAttempts
    ensures Retryable(op(maxAttempts - 1)) && Settle(op, maxAttempts) == Reraised(op(maxAttempts - 1).error)
  {
    CallsIsFirstStop(op, maxAttempts, maxAttempts);
  }

  /** Something that does not derive from `Exception` is not retried: it propagates from the attempt that raised it. */
  lemma NonExceptionPropagatesAtOnce<T>(op: Operation<T>, maxAttempts: int, k: nat)
    requires k < maxAttempts && op(k).Raised? && !op(k).error.IsException()
    requires forall j :: 0 <= j < k ==> Retryable(op(j))
    ensures Calls(op, maxAttempts) == k + 1
    ensures Settle(op, maxAttempts) == Reraised(op(k).error)
  {
    CallsIsFirstStop(op, maxAttempts, k + 1);
  }

  /** With `maxAttempts < 1` the range is empty: nothing is called, nothing is recorded, `None` is returned. */
  lemma EmptyRangeCallsNothing<T>(d: Decorated, op: Operation<T>)
    requires d.maxAttempts < 1
    ensures Calls(op, d.maxAttempts) == 0
    ensures Settle(op, d.maxAttempts) == ImplicitNone
    ensures Schedule(Calls(op, d.maxAttempts), Pause(d)) == []
  {
  }

  /**
   * The shape of every trace: invocations sit at the even positions,
   * numbered 1, 2, ... in order, and a pause sits between each two of them,
   * so `n` invocations carry exactly `n - 1` pauses, none after the last.
   */
  lemma {:induction false} ScheduleShape(n: nat, pause: Event)
    requires n >= 1
    ensures |Schedule(n, pause)| == 2 * n - 1
    ensures forall i :: 0 <= i < |Schedule(n, pause)| ==>
      Schedule(n, pause)[i] == if i % 2 == 0 then Invoked(i / 2 + 1) else pause
  {
    if n > 1 {
      ScheduleShape(n - 1, pause);
    }
  }

  /** Number of real pauses (`await asyncio.sleep`) in a trace. */
  function RealPauses(trace: seq<Event>): nat {
    if trace == [] then 0
    else RealPauses(trace[..|trace| - 1]) + (if trace[|trace| - 1].Slept? then 1 else 0)
  }

  lemma {:induction false} RealPausesOfSchedule(n: nat, pause: Event)
    requires n >= 1
    ensures RealPauses(Schedule(n, pause)) == if pause.Slept? then n - 1 else 0
  {
    if n > 1 {
      var s := Schedule(n, pause);
      var prev := Schedule(n - 1, pause);
      assert s[..|s| - 1] == prev + [pause];
      assert (prev + [pause])[..|prev|] == prev;
      RealPausesOfSchedule(n - 1, pause);
    }
  }

  /** The async wrapper that fails `n` times in total awaits exactly `n - 1` sleeps of `delay` seconds. */
  lemma AsyncWrapperSleepsBetweenAttempts<T>(maxAttempts: int, delay: real, op: Operation<T>)
    requires maxAttempts >= 1
    ensures var d := Retry(maxAttempts, delay, true);
      RealPauses(Schedule(Calls(op, maxAttempts), Pause(d))) == Calls(op, maxAttempts) - 1
  {
    RealPausesOfSchedule(Calls(op, maxAttempts), Slept(delay));
  }

  /**
   * The sync wrapper calls `asyncio.sleep(delay)` without awaiting it: it
   * creates one coroutine per retried attempt but never pauses.
   */
  lemma SyncWrapperNeverPauses<T>(maxAttempts: int, delay: real, op: Operation<T>)
    requires maxAttempts >= 1
    ensures var d := Retry(maxAttempts, delay, false);
      && RealPauses(Schedule(Calls(op, maxAttempts), Pause(d))) == 0
      && (Calls(op, maxAttempts) >= 2 ==> Schedule(Calls(op, maxAttempts), Pause(d))[1] == SleepCreated(delay))
  {
    var n := Calls(op, maxAttempts);
    RealPausesOfSchedule(n, SleepCreated(delay));
    ScheduleShape(n, SleepCreated(delay));
  }

  /**
   * The pause both wrappers evidently intend between attempts, as the
   * docstring ("Delay between retries in seconds") and the log line
   * ("retrying in {delay}s") describe: a real sleep of `delay` seconds.
   */
  function IntendedPause(d: Decorated): Event {
    Slept(d.delay)
  }

  /** With the intended pause, either wrapper that invokes `n` times pauses `n - 1` times. */
  lemma IntendedPauseSleepsBetweenAttempts<T>(d: Decorated, op: Operation<T>)
    requires d.maxAttempts >= 1
    ensures RealPauses(Schedule(Calls(op, d.maxAttempts), IntendedPause(d))) == Calls(op, d.maxAttempts) - 1
    ensures d.mode == AsyncWrapper ==> IntendedPause(d) == Pause(d)
  {
    RealPausesOfSchedule(Calls(op, d.maxAttempts), IntendedPause(d));
  }

  /** With the default policy and three failures the wrapper calls three times and re-raises the third exception. */
  method ThreeFailuresExhaustDefaultPolicy(e1: Exc, e2: Exc, e3: Exc) returns (result: Final<int>, trace: seq<Event>)
    requires e1.IsException() && e2.IsException() && e3.IsException()
    ensures result == Reraised(e3)
    ensures trace == [Invoked(1), Slept(DefaultDelay), Invoked(2), Slept(DefaultDelay), Invoked(3)]
  {
    var op: Operation<int> := k => if k == 0 then Raised(e1) else if k == 1 then Raised(e2) else Raised(e3);
    var d := Retry(DefaultMaxAttempts, DefaultDelay, true);
    ReraisesLastFailure(op, DefaultMaxAttempts);
    result, trace := Call(d, op);
  }
}
