/** The fixed-width integer type of the C# fields (`Quantity`, `Page`, `PageSize`). */
module Numbers {
  const Int32Min: int := -0x8000_0000
  const Int32Max: int := 0x7FFF_FFFF

  /** A C# `int`. No arithmetic is done on these values, so wrap-around never arises. */
  type Int32 = x: int | Int32Min <= x <= Int32Max
}
