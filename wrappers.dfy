/** Option and Result values shared by the other modules.
    Go reports failures as an `error` whose text is `err.Error()`; the model
    keeps only that text. */
module Wrappers {

  datatype Option<+T> = None | Some(value: T)

  /** The outcome of a Go call that returns `(T, error)`. */
  datatype Result<+T> = Ok(value: T) | Err(msg: string)
}
