/** Optional values and the outcome of a step that can throw. */
module Outcomes {

  /** Absent or present. A nullable store field uses `None` for `null`. */
  datatype Option<+T> = None | Some(value: T) {

    /** The present value, else `fallback`. */
    function GetOr(fallback: T): T {
      if Some? then value else fallback
    }
  }

  /** Either the value a step produced or the exception it threw. The three
      members below let `:-` stop at the first exception. */
  datatype Result<+T, +E> = Ok(value: T) | Err(error: E) {

    predicate IsFailure() {
      !Ok?
    }

    function PropagateFailure<U>(): Result<U, E>
      requires !Ok?
    {
      Err(error)
    }

    function Extract(): T
      requires Ok?
    {
      value
    }
  }
}
