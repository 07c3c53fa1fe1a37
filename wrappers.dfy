/** Option and Result: the "value or nothing" and "value or error" shapes
    that Go expresses with zero values and (value, err) pairs. */
module Wrappers {

  datatype Option<+T> = None | Some(value: T)

  datatype Result<+T, +E> = Ok(value: T) | Err(error: E)
}
