/** The optional-value and success-or-error datatypes used across the model
    (a JavaScript `undefined` becomes `None`, a thrown `Error` becomes `Failure`). */
module Wrappers {

  datatype Option<+T> = None | Some(value: T)

  datatype Result<+T, +E> = Success(value: T) | Failure(error: E)
}
