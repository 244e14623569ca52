/** Optional values and results with an error, shared by the other modules. */
module Wrappers {

  /** A value that may be absent (`null` in the component, `None` in the server). */
  datatype Option<+T> = None | Some(value: T)

  /** The outcome of a step that may raise: a value or the text of the exception. */
  datatype Result<+R, +E> = Success(value: R) | Failure(error: E)
}
