/**
 * The C++ `int` of the programs modelled here: a 32-bit two's complement
 * integer. Signed overflow is undefined behaviour in C++, so arithmetic on
 * it is only defined where the mathematical result is representable.
 */
module CppInt {
  newtype Int32 = x: int | -0x8000_0000 <= x < 0x8000_0000

  /** Whether the mathematical sum of a and b is an int. */
  predicate SumFits(a: Int32, b: Int32) {
    -0x8000_0000 <= a as int + b as int < 0x8000_0000
  }
}
