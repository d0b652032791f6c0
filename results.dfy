/** Failure-compatible result and option types shared by the model. */
module Results {

  /** A value, or the reason the operation threw. */
  datatype Result<+T, +E> = Success(value: T) | Failure(error: E) {

    predicate IsFailure() {
      Failure?
    }

    function PropagateFailure<U>(): Result<U, E>
      requires Failure?
    {
      Failure(error)
    }

    function Extract(): T
      requires Success?
    {
      value
    }
  }

  /** What a script throws: a `TypeError` from reading a property of
      `undefined`, or the bare `throw Error` of a failed check. */
  datatype Exception = TypeError | ErrorThrown

  /** How an awaited script function ends: it returns, it throws, or it
      waits forever on an event listener that never resolves. */
  datatype Completion<+T> = Returned(value: T) | Threw(error: Exception) | Waiting

  /** A value that may be absent (`undefined` in the scripts). */
  datatype Option<+T> = None | Some(value: T)
}
