/** Types shared by every module: Rust's Option and Result, fixed-width integers. */
module Common {

  /** `Option<T>`: a value that may be absent. */
  datatype Option<+T> = None | Some(value: T)

  /** `Result<T, E>`: either a value or the error that replaced it. */
  datatype Result<+T, +E> = Ok(value: T) | Err(error: E)

  /** `num_enum::TryFromPrimitiveError`: the number that no variant of the target enum names. */
  datatype TryFromPrimitiveError<N> = TryFromPrimitiveError(number: N)

  /** `u32` and `u64` fields that the model only stores and compares. */
  type U32 = x: int | 0 <= x < 0x1_0000_0000
  type U64 = x: int | 0 <= x < 0x1_0000_0000_0000_0000
}
