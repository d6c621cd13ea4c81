/** Option and Result values for absent data and for the errors the desktop code throws. */
module Wrappers {

  datatype Option<+T> = None | Some(value: T)

  /** `Failure(message)` stands for a thrown `Error(message)` or a rejected promise. */
  datatype Result<+R> = Success(value: R) | Failure(error: string)
}
