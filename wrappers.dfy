/** Option and Result values, standing in for `undefined` and for thrown errors. */
module Wrappers {

  datatype Option<+T> = None | Some(value: T) {

    /** Turns a missing value into the given error. */
    function ToResult<E>(error: E): Result<T, E>
    {
      match this
      case Some(v) => Ok(v)
      case None => Err(error)
    }
  }

  datatype Result<+T, +E> = Ok(value: T) | Err(error: E)
}
