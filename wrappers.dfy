/** Optional values and results shared by the other modules. */
module Wrappers {

  /** A value that may be absent (a JavaScript optional property or `undefined`). */
  datatype Option<+T> = None | Some(value: T)

  /** The outcome of an operation that may throw. */
  datatype Result<+T, +E> = Ok(value: T) | Err(error: E)

  /** An optional string is truthy in JavaScript when it is present and not empty. */
  predicate TruthyText(o: Option<string>)
  {
    o.Some? && o.value != ""
  }
}
