/** Small result types shared by every module. */
module Base {

  datatype Option<+T> = None | Some(value: T)

  /** A value, or the public error that stopped the computation. */
  datatype Result<+T, +E> = Ok(value: T) | Refused(error: E)

  newtype byte = x: int | 0 <= x < 256

  type Bytes = seq<byte>

  function Min(a: int, b: int): int {
    if a <= b then a else b
  }

  function RealMax(a: real, b: real): real {
    if a >= b then a else b
  }

  function RealMin(a: real, b: real): real {
    if a <= b then a else b
  }
}
