/** Types shared by every module of the model. */
module Prelude {

  datatype Option<+T> = None | Some(value: T)

  datatype Result<+T, +E> = Ok(value: T) | Err(error: E)

  /** What one call of `Future::poll` returns. */
  datatype Poll<+T> = Pending | Ready(value: T)
}
