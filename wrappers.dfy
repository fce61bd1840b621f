/** Failure-carrying results shared by every codec of the model. */
module Wrappers {

  datatype Option<+T> = None | Some(value: T)

  /** Why a decode failed, naming the key that failed.
      FormatError: a well-formed JSON value that does not match the field's
      grammar (a non-numeric integer string, a bad duration suffix, an
      unparsable timestamp, a missing required sub-key, invalid base64).
      TypeError: a JSON value of the wrong kind for the field (a number where
      a string is expected, say).
      NotAnObject: the record itself is not a JSON object. */
  datatype DecodeError =
    | FormatError(key: string)
    | TypeError(key: string)
    | NotAnObject

  /** A decode result: either the decoded value or the first error met.
      There is no partial result: an error discards the whole record. */
  datatype Result<+T> = Ok(value: T) | Err(error: DecodeError) {

    predicate IsFailure() {
      Err?
    }

    function PropagateFailure<U>(): Result<U>
      requires Err?
    {
      Err(error)
    }

    function Extract(): T
      requires Ok?
    {
      value
    }
  }
}
