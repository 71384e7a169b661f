/** Small datatypes shared by the models. */
module Common {
  datatype Option<+T> = None | Some(value: T)

  datatype Result<+T, +E> = Ok(value: T) | Err(error: E)

  /** One more than the largest 32-bit unsigned value. */
  const TWO_32 := 0x1_0000_0000

  /** The largest 64-bit unsigned value. */
  const U64_MAX := 0xFFFF_FFFF_FFFF_FFFF

  type Byte = x: int | 0 <= x < 256

  type U32 = n: nat | n < TWO_32

  type U64 = n: nat | n <= U64_MAX
}
