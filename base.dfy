/** Small value types shared by every module of the model. */
module Base {

  datatype Option<+T> = None | Some(value: T)

  datatype Result<+T, +E> = Success(value: T) | Failure(error: E)

  /** Go's `uint` on the 64-bit platforms the middleware runs on. */
  const UintLimit: nat := 0x1_0000_0000_0000_0000

  type Uint = x: int | 0 <= x < UintLimit

  /** `x + n` as Go computes it on `uint`: modulo 2^64. */
  function UintAdd(x: Uint, n: Uint): (r: Uint)
    ensures x + n < UintLimit ==> r == x + n
    ensures x + n >= UintLimit ==> r == x + n - UintLimit
  {
    (x + n) % UintLimit
  }

  function Max(a: int, b: int): int
  {
    if a >= b then a else b
  }
}
