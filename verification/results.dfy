/** Failure-compatible wrappers used across the model: `Option` for a value
    that may be absent (a decoder that does not match, a dictionary key that
    is missing) and `Result` for an operation that raises a `ValueError`. */
module Results {

  datatype Option<+T> = None | Some(value: T) {

    predicate IsFailure() {
      None?
    }

    function PropagateFailure<U>(): Option<U>
      requires None?
    {
      None
    }

    function Extract(): T
      requires Some?
    {
      value
    }
  }

  /** `Err` carries the message the source puts into its `ValueError`. */
  datatype Result<+T> = Ok(value: T) | Err(message: string)
}
