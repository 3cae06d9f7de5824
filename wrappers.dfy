/** Optional values and results with an error message, used wherever the Go code
    returns a value together with an `error` (the error's text is its `Error()` string). */
module Wrappers {

  datatype Option<+T> = None | Some(value: T)

  datatype Result<+T> = Ok(value: T) | Err(error: string)

  /** The error of a Go function that returns only `error`: `None` stands for `nil`. */
  type Failure = Option<string>
}
