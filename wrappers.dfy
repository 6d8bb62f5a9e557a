/** Option and Result, the failure-carrying return types used across the model. */
module Wrappers {

  datatype Option<+T> = None | Some(value: T)

  datatype Result<+T, +E> = Success(value: T) | Failure(error: E)

  /** The ways an operation of the core can fail.  A Python exception the source
      raises on purpose is `ValidationError`, `IIBError`, `DisallowedKeys` or
      `InvalidState`; one it
      does not catch (a KeyError, ValueError or AttributeError) is `Crash`. */
  datatype Error =
    | ValidationError(message: string)
    | DisallowedKeys(keys: set<string>)  // a ValidationError listing the keys, in set order
    | IIBError(message: string)
    | InvalidState(name: string)         // the ValidationError of RequestStateMapping.validate_state
    | Crash(exception: string)
}
