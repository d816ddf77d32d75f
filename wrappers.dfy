// Option and error wrappers shared by every module of the model.
module Wrappers {
  datatype Option<T> = None | Some(value: T)
  {
    function UnwrapOr(default: T): (r: T)
      ensures Some? ==> r == value
      ensures None? ==> r == default
    {
      if Some? then value else default
    }
  }

  /** Instants are RFC 3339 text in the source; the model keeps them as numbers
      whose order is the order of the texts. */
  type Timestamp = int

  /** The outcome of an operation that fails with an error message (Rust's `Result<T, String>` shape). */
  datatype Outcome<T> = Ok(value: T) | Err(message: string)
}
