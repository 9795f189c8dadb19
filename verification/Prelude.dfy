/** Types shared by every module. */
module Prelude {
  datatype Option<+T> = None | Some(value: T)

  datatype Result<+T, +E> = Success(value: T) | Failure(error: E)

  /** Configuration and PEM payloads. Go converts freely between `[]byte` and `string`; one type serves for both. */
  type Bytes = string
}
