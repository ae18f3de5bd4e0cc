/** Values that stand for Go's `nil`-able results and `error` values. */
module Wrappers {

  /** A Go pointer or interface that may be `nil`. */
  datatype Option<+T> = None | Some(value: T)

  /** A call that produces either a value or a Go `error`. */
  datatype Result<+T, +E> = Success(value: T) | Failure(error: E)

  /** A Go `error`: only its message is observable. */
  datatype Error = Error(message: string)
}
