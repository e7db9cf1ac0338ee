/**
 * Integer helpers shared by the modules: the range of a C# `int`, the
 * wrap-around of its unchecked arithmetic, and the minimum and maximum.
 */
module Numbers {

  /** `int.MinValue` and `int.MaxValue`. */
  const IntMin: int := -0x8000_0000
  const IntMax: int := 0x7FFF_FFFF

  /** A C# `int`: a signed 32-bit integer. */
  type Int32 = x: int | IntMin <= x <= IntMax

  /**
   * Unchecked `int` arithmetic: the exact result brought back into the range
   * of an `int` by adding or removing multiples of 2^32.
   */
  function Wrap32(x: int): (r: Int32)
    ensures (x - r) % 0x1_0000_0000 == 0
    ensures IntMin <= x <= IntMax ==> r == x
  {
    var r := (x - IntMin) % 0x1_0000_0000 + IntMin;
    assert x - r == (x - IntMin) / 0x1_0000_0000 * 0x1_0000_0000;
    r
  }

  function Min(a: int, b: int): int { if a <= b then a else b }

  function Max(a: int, b: int): int { if a >= b then a else b }
}
