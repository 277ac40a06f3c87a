/** Small wrappers shared by the job model: optional values (Python's None),
    the two exception kinds the job handle raises, and a success-or-failure
    outcome for the operations that raise them. */
module Options {

  /** A value that may be Python's None. */
  datatype Option<T> = None | Some(value: T)

  /** The exceptions raised by the job handle itself (not by the service). */
  datatype Failure =
    | ValueError(message: string)
    | RuntimeError(message: string)

  /** The result of an operation that either returns a value or raises. */
  datatype Outcome<T> = Ok(value: T) | Err(error: Failure)
}
