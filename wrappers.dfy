/** Option and Result, the two failure-compatible wrappers the menu model uses.
    Result plays the part of Rust's `Result<_, Box<dyn Error>>`, and its
    IsFailure/PropagateFailure/Extract members let `:-` stand for Rust's `?`. */
module Wrappers {

  datatype Option<+T> = None | Some(value: T)

  datatype Result<+T, +E> = Ok(value: T) | Err(error: E) {

    predicate IsFailure() {
      Err?
    }

    function PropagateFailure<U>(): Result<U, E>
      requires Err?
    {
      Err(error)
    }

    function Extract(): T
      requires Ok?
    {
      value
    }
  }
}
