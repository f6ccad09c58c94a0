// Small value types shared by every module.
module Prelude {

  datatype Option<+T> = None | Some(value: T)

  datatype Result<+T, +E> = Success(value: T) | Failure(error: E)

  function Max(a: int, b: int): int {
    if a < b then b else a
  }
}
