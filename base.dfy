/** Failure-carrying values shared by every module of the model. */
module Base {

  datatype Option<T> = None | Some(value: T)

  /** The Java exceptions the modelled code raises. */
  datatype Exception =
    | UnsupportedOperation   // UnsupportedOperationException
    | ClassCast              // a failed (BoolVar) cast
    | IndexOutOfBounds       // ArrayIndexOutOfBoundsException
    | NullPointer            // a call through a null reference

  /** Normal completion, or an exception thrown to the caller. */
  datatype Outcome = Pass | Fail(error: Exception)

  /** A constructed value, or the exception its construction raised. */
  datatype Result<T> = Ok(value: T) | Err(error: Exception)
}
