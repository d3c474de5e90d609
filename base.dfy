/** Small value types shared by every module of the model. */
module Base {

  /** A value that may be missing: JavaScript's `undefined`/`null`, or a failed parse. */
  datatype Option<+T> = None | Some(value: T)

  /** The outcome of a call into the record store: the rows it returned, or the error it raised. */
  datatype Fetch<+T> = Fetched(rows: T) | FetchError(message: string)

  function Min(a: int, b: int): int { if a <= b then a else b }

  function Max(a: int, b: int): int { if a >= b then a else b }

  function MinReal(a: real, b: real): real { if a <= b then a else b }

  function AbsReal(x: real): real { if x < 0.0 then -x else x }
}
