/** Option and Result, the two failure-carrying shapes the model uses for
    JavaScript's `null`/`undefined` and for thrown errors. */
module Wrappers {

  datatype Option<+T> = None | Some(value: T) {
    function GetOr(default: T): T {
      match this
      case Some(v) => v
      case None => default
    }
  }

  datatype Result<+T, +E> = Ok(value: T) | Err(error: E)

  /** The outcome of a call into code outside the model (an RPC, a library
      routine): it either returns a value or throws. */
  datatype Call<+T> = Returned(value: T) | Threw
}
