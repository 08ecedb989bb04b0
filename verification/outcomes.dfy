/** Optional values and the failures the modelled code can raise. */
module Outcomes {

  /** Python's `None` or a present value. */
  datatype Option<+T> = None | Some(value: T)

  /** The exceptions the modelled code raises, as values. */
  datatype Error =
    | NotScalar        // `float(t)` on a tensor with other than one element
    | NoneHasNoClone   // `.clone()` called on `None`
    | ReshapeMismatch  // `reshape` to a shape whose size differs from the tensor's
    | Singular         // `inverse()` of a zero (singular) scalar matrix

  /** Either the value an operation returns or the exception it raises. */
  datatype Result<+T> = Ok(value: T) | Err(error: Error) {

    predicate IsFailure() { Err? }

    function PropagateFailure<U>(): Result<U>
      requires Err?
    {
      Err(error)
    }

    function Extract(): T
      requires Ok?
    {
      value
    }
  }
}
