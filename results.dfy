/** Option and Result values for the module boundary: a JavaScript `null`
    or `undefined` becomes `None`, a thrown `Error` becomes `Failure`. */
module Results {

  datatype Option<+T> = None | Some(value: T) {
    function GetOr(default: T): T {
      if Some? then value else default
    }
  }

  /** The outcome of an operation that may throw; `error` is the message. */
  datatype Result<+T> = Success(value: T) | Failure(error: string) {
    predicate IsFailure() {
      Failure?
    }

    function PropagateFailure<U>(): Result<U>
      requires Failure?
    {
      Failure(error)
    }

    function Extract(): T
      requires Success?
    {
      value
    }
  }

  /** The outcome of a statement that returns nothing but may throw. */
  datatype Outcome = Pass | Fail(error: string)
}
