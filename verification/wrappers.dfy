/** The two failure-carrying shapes the model needs: an optional value, and a
    value-or-error result standing for a Python call that returns or raises. */
module Wrappers {

  datatype Option<+T> = None | Some(value: T)

  datatype Result<+T, +E> = Ok(value: T) | Err(error: E)

}
