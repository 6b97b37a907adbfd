/** Wrappers used throughout the model: `Option` stands for
    the source's `T | null | undefined`, `Result` for "a value or a thrown error". */
module Wrappers {

  datatype Option<+T> = None | Some(value: T)

  datatype Result<+T, +E> = Success(value: T) | Failure(error: E)
}
