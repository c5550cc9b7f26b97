/** The small part of java.lang the helpers rely on: nullable references,
    exceptions, and calls that either return or throw. */
module Lang {

  /** A Java reference that may be `null`. */
  datatype Option<+T> = None | Some(value: T)

  /** The exception classes the core throws or lets through unchanged.
      Exception messages are not modelled; external code (OPC UA client,
      user handlers, key stores) throws an exception told apart by a code. */
  datatype Exception =
    | IllegalStateException
    | IllegalArgumentException
    | NullPointerException
    | UnsupportedOperationException
    | ClassCastException
    | NoSuchElementException
    | NumberFormatException
    | InvalidPropertiesFormatException
    | ProviderException
    | OpcUaException(code: nat)
    | GeneralSecurityException(code: nat)
    | ExternalException(code: nat)

  /** A call that returns a value or throws. */
  datatype Result<+T> = Ok(value: T) | Err(error: Exception)

  /** A `void` call that returns normally or throws. */
  datatype Outcome = Pass | Fail(error: Exception)
}
