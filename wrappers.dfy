/** Failure-carrying values shared by the whole model.
    Every `panic!`, `unreachable!` and failed assertion of the autograd core
    becomes an `Err`/`Fail` carrying one of the `Error` kinds below. */
module Wrappers {

  /** The ways an operation of the core can fail. */
  datatype Error =
    | OutOfRange        // a handle's id indexes no record of the table
    | TypeMismatch      // a tag-narrowing conversion met the other element type
    | InvalidBackward   // backward on a volatile variable
    | NoGradRequired    // backward on a variable that does not require a gradient
    | DirtyVariable     // gradient accumulation into a record marked dirty
    | IndexOutOfBounds  // `list[0]` / `list.remove(0)` / `size()[k]` on too short a list
    | ShapeMismatch     // an elementwise product of tensors of different sizes

  datatype Option<+T> = None | Some(value: T)

  datatype Result<+T> = Ok(value: T) | Err(error: Error)

  /** The result of an operation that returns nothing but may fail. */
  datatype Outcome = Pass | Fail(error: Error)
}
