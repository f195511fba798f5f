/** The value-or-error shape every fallible step of the action returns
    (`ResultOrErrorMessage<T>`, a `RequireExactlyOne` of `value` and
    `errorMessage`), and the value-or-undefined shape of `T | undefined`. */
module Results {

  /** Exactly one of a success value or an error message. */
  datatype ResultOrError<+T> = Ok(value: T) | Err(message: string)

  /** A JavaScript `T | undefined`. */
  datatype Option<+T> = None | Some(value: T)
}
