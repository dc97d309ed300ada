/**
 * Error and result types of the SM4 engine. The error-kind type lives in a
 * separate module of the crate (`crate::sm4::error`). The cipher only ever
 * produces `ErrorBlockSize`; `ErrorKeySize` is modelled, but no code path
 * produces it.
 */
module Sm4Types {

  /** The two error kinds of the SM4 engine. */
  datatype Sm4Error = ErrorKeySize | ErrorBlockSize

  /** `Sm4Result<T>`: either a value or one of the two errors. */
  datatype Result<+T> = Ok(value: T) | Err(error: Sm4Error)
}
