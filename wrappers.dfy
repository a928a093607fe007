/** Option and Result values shared by every module of the model. Go returns
    `(value, error)` pairs and nil pointers; the model spells those out as
    these two datatypes. */
module Wrappers {

  datatype Option<+T> = None | Some(value: T)

  datatype Result<+T, +E> = Success(value: T) | Failure(error: E) {
    predicate IsFailure() {
      Failure?
    }
  }
}
