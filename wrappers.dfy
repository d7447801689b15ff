/** Option and Result values, and the Python exceptions the modelled code can raise. */
module Wrappers {

  datatype Option<+T> = None | Some(value: T)

  datatype Result<+T, +E> = Ok(value: T) | Err(error: E)

  /** The built-in Python exceptions the modelled code raises (and, in places, catches). */
  datatype PyError =
    | TypeError          // an unsupported operand, or len() of a value without one
    | ValueError         // tuple unpacking with the wrong number of values
    | AttributeError     // a method called on a value that lacks it
    | IndexError         // subscript out of range
    | ZeroDivisionError  // division by a zero length
}
