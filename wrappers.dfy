/** Nullable values and the outcome of an operation that may throw. */
module Wrappers {

  /** A value that may be null. */
  datatype Option<+T> = None | Some(value: T)

  /** The exceptions the modelled code can raise. */
  datatype Error =
    | ArgumentOutOfRange   // String.PadLeft/PadRight with a negative width, String.Substring past the end
    | InvalidOperation     // Enumerable.First on an empty sequence

  /** The result of an operation that either returns a value or throws. */
  datatype Result<+T> = Ok(value: T) | Err(error: Error) {

    predicate IsFailure() {
      Err?
    }

    function PropagateFailure<U>(): Result<U>
      requires Err?
    {
      Err(error)
    }

    function Extract(): T
      requires Ok?
    {
      value
    }
  }
}
