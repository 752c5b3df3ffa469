/** Failure-compatible wrappers used to model Python's exceptions and `None`. */
module Results {

  /** A value that may be absent, as the module-level `model` global may be `None`. */
  datatype Option<+T> = None | Some(value: T)

  /** The outcome of a step that may raise: `Failure` carries the exception's text. */
  datatype Result<+R> = Success(value: R) | Failure(error: string) {

    predicate IsFailure() {
      Failure?
    }

    function PropagateFailure<U>(): (r: Result<U>)
      requires Failure?
    {
      Failure(error)
    }

    function Extract(): (v: R)
      requires Success?
    {
      value
    }
  }
}
