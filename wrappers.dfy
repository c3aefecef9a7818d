/** Optional values and results, standing in for Python's `None` and for raised exceptions. */
module Wrappers {

  /** `None` is Python's `None`; `Some(v)` is a present value. */
  datatype Option<+T> = None | Some(value: T)

  /** The outcome of a call that either returns a value or raises. */
  datatype Result<+T, +E> = Ok(value: T) | Err(error: E)
}

/** The Python exceptions that the modelled code raises or lets through. */
module Exceptions {

  datatype Exception =
    | ValueError(message: string)
    | KeyError(key: string)
    | ZeroDivisionError
    | NotImplementedError(message: string)
    | AttributeError(name: string)
      /** An `Exception` subclass raised by code the caller supplies (a scoring function, a subclass, a foreign object). */
    | Raised(description: string)
}
