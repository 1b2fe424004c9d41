/** Small vocabulary shared by every module. */
module Wrappers {

  datatype Option<+T> = None | Some(value: T)

  datatype Result<+T, +E> = Success(value: T) | Failure(error: E)

  function Max(a: int, b: int): int { if a >= b then a else b }

  function Min(a: int, b: int): int { if a <= b then a else b }

  /** JavaScript's `x ?? d`. */
  function OrElse<T>(o: Option<T>, d: T): T { if o.Some? then o.value else d }
}
