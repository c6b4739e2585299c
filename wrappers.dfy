/** Option and Result values shared by every module of the model. */
module Wrappers {

  datatype Option<T> = None | Some(value: T)

  /** The outcome of an operation that may fail with an error of type E. */
  datatype Result<T, E> = Ok(value: T) | Err(error: E)
  {
    predicate IsFailure()
    {
      Err?
    }

    function PropagateFailure<U>(): Result<U, E>
      requires Err?
    {
      Err(error)
    }

    function Extract(): T
      requires Ok?
    {
      value
    }
  }

  /** An HTTP error as raised by a route handler: a status code and its detail text. */
  datatype HttpError = HttpError(status: int, detail: string)

  /** Python's truthiness of an optional string: None and "" are falsy. */
  predicate TruthyString(v: Option<string>)
  {
    v.Some? && v.value != ""
  }

  /** Python's truthiness of an optional integer: None and 0 are falsy. */
  predicate TruthyInt(v: Option<int>)
  {
    v.Some? && v.value != 0
  }

  /** Python's `v or d` for an optional value whose falsy values are given by `falsy`. */
  function OrDefault<T>(v: Option<T>, falsy: T -> bool, d: T): (r: T)
    ensures v.Some? && !falsy(v.value) ==> r == v.value
    ensures (v.None? || falsy(v.value)) ==> r == d
  {
    if v.Some? && !falsy(v.value) then v.value else d
  }
}
