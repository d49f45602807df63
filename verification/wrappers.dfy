/**
 Result carriers shared by the other modules.
 */
module Wrappers {
  datatype Option<+T> = None | Some(value: T)

  /** `Err` stands for a raised exception; the error says which one. */
  datatype Result<+T, +E> = Ok(value: T) | Err(error: E) {
    predicate IsFailure() {
      Err?
    }

    function PropagateFailure<U>(): Result<U, E>
      requires Err?
    {
      Err(error)
    }

    function Extract(): T
      requires Ok?
    {
      value
    }
  }
}
