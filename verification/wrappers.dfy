/** Small result types shared by the model of the ingestion pipeline. */
module Wrappers {

  /** A value that may be absent, as Python's `None` or an unset environment variable. */
  datatype Option<+T> = None | Some(value: T) {
    function GetOr(default: T): T {
      if Some? then value else default
    }
  }

  /** The Python exception classes the pipeline tells apart. `except (ValueError, KeyError)`
      in the parser catches only the first; the other two escape to the per-symbol catch-all. */
  datatype Exception = ValueError | TypeError | AttributeError

  /** A Python call that either returns a value or raises. Failure-compatible, so `:-` propagates a raise. */
  datatype Outcome<+T> = Return(value: T) | Raise(exc: Exception) {
    predicate IsFailure() {
      Raise?
    }

    function PropagateFailure<U>(): Outcome<U>
      requires Raise?
    {
      Raise(exc)
    }

    function Extract(): T
      requires Return?
    {
      value
    }
  }
}
