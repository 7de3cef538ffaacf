/** Machine integer widths and the error/option wrappers shared by the producer model. */
module Types {

  /** Go's `byte`. */
  newtype byte = b: int | 0 <= b < 0x100

  /** Go's `int16`, the width of sarama's RequiredAcks. */
  newtype int16 = x: int | -0x8000 <= x < 0x8000

  /** Go's `int32`, the width of a partition number. */
  newtype int32 = x: int | -0x8000_0000 <= x < 0x8000_0000

  /** Go's `int64`, the width of an offset. */
  newtype int64 = x: int | -0x8000_0000_0000_0000 <= x < 0x8000_0000_0000_0000

  datatype Option<+T> = None | Some(value: T)

  /** A Go `error`, identified by its message text. */
  datatype Error = Error(message: string)

  /** A Go `(T, error)` pair where exactly one side is meaningful. */
  datatype Result<+T> = Ok(value: T) | Err(error: Error)
}
