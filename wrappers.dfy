/** Failure-compatible wrappers shared by the model: `Option` stands for a
    JavaScript value that may be `null`/`undefined`, `Result` for a call that
    either returns a value or throws an `Error` carrying a message. */
module Wrappers {

  datatype Option<+T> = None | Some(value: T)

  datatype Result<+R, +E> = Success(value: R) | Failure(error: E)
}
