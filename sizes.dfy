/** The value types shared by the size selection and the comparator. */
module Sizes {

  /** Kotlin's `Int`: a signed 32-bit integer. */
  type Int32 = x: int | -0x8000_0000 <= x < 0x8000_0000

  /** `android.util.Size`: a width and a height, each an `Int`. */
  datatype Size = Size(width: Int32, height: Int32)

  /** The exact (unbounded) area of a size. */
  function Area(s: Size): int {
    s.width * s.height
  }
}
