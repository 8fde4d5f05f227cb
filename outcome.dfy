/** Failure values shared by the model: an optional value, and the result of an
    operation that raises one of the Python exceptions the program relies on. */
module Outcome {

  datatype Option<+T> = None | Some(value: T)

  /** The exceptions the program raises or meets; every one of them is caught
      (or fatal) by its caller, so they are modelled as values. */
  datatype Error =
    | KeyError(key: string)   // a dict lookup or a provider field that is missing
    | IndexError              // a row or a comma-separated field that does not exist
    | ZeroClose               // a reference close of zero (an infinite move in floats)

  datatype Result<+T> = Ok(value: T) | Err(error: Error)
}
