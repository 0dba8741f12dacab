/** Scalar types of the C++ side, with their widths written out. */
module Values {

  /** A C++ `float`, kept as its IEEE-754 single-precision bit pattern.
      Floats are only stored and copied here, never computed with. */
  type Float = bv32

  /** The bit pattern of `float()`, that is +0.0. */
  const FloatZero: Float := 0

  /** C++ `int64_t`. */
  newtype Int64 = x: int | -0x8000_0000_0000_0000 <= x < 0x8000_0000_0000_0000

  /** C++ `int` (32 bits on the platforms the library targets). */
  newtype Int32 = x: int | -0x8000_0000 <= x < 0x8000_0000
}
