/** Small shared wrappers: an optional value, a result, and the outcome of a
    step that may raise. */
module Outcomes {
  datatype Option<T> = None | Some(value: T)

  datatype Result<T, E> = Ok(value: T) | Err(error: E)

  /** How a Python method that returns nothing ends: normally, or by raising. */
  datatype Status<E> = Done | Raised(error: E)
}
