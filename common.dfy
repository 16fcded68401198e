/** Value wrappers shared by the modules of this model. */
module Common {

  /** A value that may be absent: JavaScript's `null` / `undefined` versus a present value. */
  datatype Option<+T> = None | Some(value: T)

  /** The outcome of an operation that either returns a value or throws. */
  datatype Result<+T, +E> = Success(value: T) | Failure(error: E)

  /** The JavaScript exceptions that the modelled code can raise. */
  datatype Fault =
    | TypeError                    // a property was read from `undefined` or `null`
    | ReferenceError(name: string) // a binding was referenced where it is not in scope
}
