/** Optional values, and the exceptions of the modelled code as values. */
module Wrappers {

  datatype Option<+T> = None | Some(value: T)

  /** The classes of exception the modelled functions raise. */
  datatype ErrorKind =
    | ValueError        // an argument out of range
    | EnvironmentError  // a credential variable is missing
    | Exception         // an upstream status other than 200
    | AttributeError    // an attribute looked up on the wrong kind of object
    | TypeError         // a value of the wrong type handed to a library call

  /** A raised exception: its class and the text `str(e)` gives. */
  datatype Error = Error(kind: ErrorKind, message: string)

  /** Either a returned value or a raised exception. */
  datatype Result<+T> = Ok(value: T) | Err(error: Error) {
    predicate IsFailure() { Err? }

    function PropagateFailure<U>(): Result<U>
      requires Err?
    {
      Err(error)
    }

    function Extract(): T
      requires Ok?
    {
      value
    }
  }
}
