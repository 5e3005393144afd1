/** Go's built-in value shapes that the rest of the model needs. */
module GoTypes {

  const MinInt: int := -0x8000_0000_0000_0000
  const MaxInt: int := 0x7fff_ffff_ffff_ffff

  /** Go's `int` on a 64-bit target. */
  type Int = x: int | MinInt <= x <= MaxInt

  /** A Go byte. */
  type Byte = x: int | 0 <= x < 256

  /** A value that may be absent: a nil pointer or a nil `error`. */
  datatype Option<+T> = None | Some(value: T)
}
