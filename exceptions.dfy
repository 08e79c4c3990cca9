/** The Python exceptions the statistics engine can raise, and the wrappers that
    carry them out of an operation instead of a value. */
module Exceptions {

  datatype Error =
    | KeyError(key: string)              // a dictionary lookup of a missing key
    | AttributeError(attribute: string)  // an attribute read on an object that lacks it
    | ZeroDivisionError                  // a division by zero

  datatype Result<T> = Ok(value: T) | Err(error: Error)

  datatype Option<T> = None | Some(value: T)

  /** How a statement-level operation ended: normally, or by raising. */
  datatype Outcome = Normal | Raised(error: Error)
}
