/**
 * Python values shared by every part of the model: `Optional` fields, raised
 * exceptions and the outcome of a call that either returns or raises.
 */
module Outcomes {

  /** An `Optional[...]` class field: `None` or a handle. */
  datatype Option<+T> = None | Some(value: T)

  /**
   * A raised Python exception, by class. `Foreign` stands for whatever a
   * backend library raises; `derivesFromException` is false only for classes
   * that derive from `BaseException` directly (KeyboardInterrupt, SystemExit,
   * and `asyncio.CancelledError` since Python 3.8), which an
   * `except Exception` clause does not catch.
   */
  datatype Exc =
    | RuntimeError(message: string)
    | AssertionError(message: string)
    | ValueError(message: string)
    | TypeError(message: string)
    | AttributeError(name: string)
    | Foreign(id: nat, derivesFromException: bool)
  {
    /** True iff `except Exception` catches this exception. */
    predicate IsException() {
      !Foreign? || derivesFromException
    }
  }

  /** What a call does: return a value or raise. Calls returning `None` use `Outcome<()>`. */
  datatype Outcome<+T> = Ok(value: T) | Raised(error: Exc) {

    predicate IsFailure() {
      Raised?
    }

    function PropagateFailure<U>(): Outcome<U>
      requires Raised?
    {
      Raised(error)
    }

    function Extract(): T
      requires Ok?
    {
      value
    }
  }

  /** The outcome of a `None`-returning call that returned. */
  const Done: Outcome<()> := Ok(())

  /**
   * The outcome of `try: <call> except Exception: <log>`: an exception that
   * derives from `Exception` is swallowed, anything else propagates.
   */
  function Swallowed(o: Outcome<()>): (r: Outcome<()>)
    ensures r.Raised? <==> o.Raised? && !o.error.IsException()
    ensures r.Raised? ==> r == o
  {
    if o.Raised? && !o.error.IsException() then o else Done
  }
}
