/** Values shared by the three models: optional values (Java's nullable
    references) and the ranges and narrowing of Java's `int` and `long`. */
module Common {

  /** A Java reference that may be null. */
  datatype Option<T> = None | Some(value: T)

  const TWO_TO_THE_32: int := 0x1_0000_0000
  const INT_MIN: int := -0x8000_0000
  const INT_MAX: int := 0x7FFF_FFFF

  /** Java `int`. */
  type Int32 = x: int | INT_MIN <= x <= INT_MAX

  /** Java `long`. */
  type Int64 = x: int | -0x8000_0000_0000_0000 <= x <= 0x7FFF_FFFF_FFFF_FFFF

  /** Java's two's-complement narrowing to `int`: the cast `(int) x` and the
      wrap-around of `int` arithmetic keep the low 32 bits of `x`. */
  function ToInt32(x: int): (r: Int32)
    ensures (x - r) % TWO_TO_THE_32 == 0
    ensures INT_MIN <= x <= INT_MAX ==> r == x
  {
    var low := x % TWO_TO_THE_32;
    if low <= INT_MAX then low else low - TWO_TO_THE_32
  }
}
