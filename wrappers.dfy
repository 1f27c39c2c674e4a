/** Option and Result values shared by every module of the model. */
module Wrappers {

  datatype Option<+T> = None | Some(value: T)

  /** The outcome of a validation: the narrowed value or a description of the failure. */
  datatype Result<+T> = Success(value: T) | Failure(error: string)
}
