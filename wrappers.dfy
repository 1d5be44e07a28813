/** The shapes the model uses for Go's multiple results: a value that may be
    `nil`, a value-or-`error`, and the `error` itself. */
module Wrappers {

  /** A Go `error` value; the model keeps only its message. */
  datatype Error = Error(message: string)

  datatype Option<+T> = None | Some(value: T)

  datatype Result<+T> = Ok(value: T) | Fail(error: Error)
}
