/** Option and Result values shared by every module of the model.
    A Go `(T, error)` pair, a rejected TypeScript promise and a JavaScript
    `null` all become one of these two datatypes. */
module Outcome {

  datatype Option<T> = None | Some(value: T)

  /** `Err` carries the error text the source builds for that path. */
  datatype Result<T> = Ok(value: T) | Err(error: string)
}
