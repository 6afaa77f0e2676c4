/** Option and Result, shared by every module of the model. */
module Wrappers {

  /** An optional value; `None` also stands for a JavaScript `undefined` and for an
      omitted Python keyword argument. */
  datatype Option<+T> = None | Some(value: T)

  /** Either a value or an error; the programs' exceptions become `Failure`. */
  datatype Result<+R, +E> = Success(value: R) | Failure(error: E)
}
