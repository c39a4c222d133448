/** Absent values and failures, used where the to-do list answers "nothing"
    (an empty list, no matching title) or raises an error. */
module Wrappers {

  /** A value that may be absent (Ruby's `nil`). */
  datatype Option<+T> = None | Some(value: T)

  /** A value, or the error that was raised instead of producing it. */
  datatype Result<+T, +E> = Success(value: T) | Failure(error: E) {

    /** Forgets the error: a failure becomes an absent value. */
    function ToOption(): Option<T>
    {
      match this
      case Success(v) => Some(v)
      case Failure(_) => None
    }
  }

  /** Success without a value, or the error that was raised. */
  datatype Outcome<+E> = Pass | Fail(error: E)
}
