/** Outcomes shared by every module: a value or nothing, a value or an error. */
module Wrappers {

  /** Usable with `:-` in functions that stop at the first missing value. */
  datatype Option<+T> = None | Some(value: T) {
    predicate IsFailure() {
      None?
    }

    function PropagateFailure<U>(): Option<U>
      requires None?
    {
      None
    }

    function Extract(): T
      requires Some?
    {
      value
    }
  }

  datatype Result<+T, +E> = Ok(value: T) | Err(error: E)
}
