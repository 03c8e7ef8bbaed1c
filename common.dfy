/** Optional values and success/failure results shared by every module. */
module Common {

  /** A value that may be absent: JavaScript's `undefined`/`null`, or a missing object key. */
  datatype Option<T> = None | Some(value: T)

  /** The outcome of an operation that can throw: the thrown error's message on failure. */
  datatype Result<T> = Success(value: T) | Failure(message: string)
}
