/** Option and Result values standing in for the source's `undefined`/`null`
    and for the exceptions and `Err` returns of its operations. */
module Outcomes {

  datatype Option<T> = None | Some(value: T)

  datatype Result<T, E> = Ok(value: T) | Err(error: E)

  /** The outcome of an operation that returns nothing on success. */
  datatype Outcome<E> = Pass | Fail(error: E)

  /** The value of `o`, or `default` when absent: TypeScript's `o ?? default`. */
  function GetOr<T>(o: Option<T>, default: T): T
  {
    match o
    case Some(v) => v
    case None => default
  }
}
