/** Result and option types shared by every module. */
module Wrappers {

  type byte = b: nat | b < 256

  /** The Rust `Option`. */
  datatype Option<+T> = None | Some(value: T)

  /** The Rust `Result`; usable with `:-`. */
  datatype Result<+T, +E> = Ok(value: T) | Err(error: E) {

    predicate IsFailure() {
      Err?
    }

    function PropagateFailure<U>(): Result<U, E>
      requires Err?
    {
      Err(error)
    }

    function Extract(): T
      requires Ok?
    {
      value
    }
  }
}
