/** Option and Result: the "present or absent" and "value or error" shapes the gateway's Go code
    expresses with comma-ok type assertions, nil pointers and `(value, error)` returns. */
module Wrappers {

  datatype Option<+T> = None | Some(value: T)

  datatype Result<+T, +E> = Ok(value: T) | Err(error: E)
}
