/** Machine integers and the two stock result types used by every module. */
module Base {

  type u4 = x: int | 0 <= x < 0x10
  type u7 = x: int | 0 <= x < 0x80
  type u8 = x: int | 0 <= x < 0x100
  type u16 = x: int | 0 <= x < 0x1_0000
  type u28 = x: int | 0 <= x < 0x1000_0000
  type u32 = x: int | 0 <= x < 0x1_0000_0000
  type u64 = x: int | 0 <= x < 0x1_0000_0000_0000_0000
  type i8 = x: int | -0x80 <= x < 0x80
  type i16 = x: int | -0x8000 <= x < 0x8000

  const U16_MAX: u16 := 0xFFFF
  const U32_MAX: u32 := 0xFFFF_FFFF
  const U64_MAX: u64 := 0xFFFF_FFFF_FFFF_FFFF
  /** A Rust slice never holds more than `isize::MAX` bytes. */
  const ISIZE_MAX: nat := 0x7FFF_FFFF_FFFF_FFFF

  type Bytes = seq<u8>

  datatype Option<+T> = None | Some(value: T)

  /** The outcome of a fallible operation; `:-` propagates the error, as `?` does. */
  datatype Result<+T, +E> = Ok(value: T) | Err(error: E) {
    predicate IsFailure() {
      Err?
    }

    function PropagateFailure<U>(): Result<U, E>
      requires Err?
    {
      Err(error)
    }

    function Extract(): T
      requires Ok?
    {
      value
    }
  }

  function Max(a: int, b: int): int {
    if a < b then b else a
  }
}
