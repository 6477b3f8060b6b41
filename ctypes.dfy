/** The C integer types the tone generator computes with, and the constants
    of src/john-blund.c (sample rate, latency, block length). */
module CTypes {
  import opened Arith

  /** 2^64: `size_t` arithmetic wraps modulo this value. */
  const SIZE_MOD: int := 0x1_0000_0000_0000_0000

  /** The range of a 64-bit `long int`. */
  const LONG_MIN: int := -0x8000_0000_0000_0000
  const LONG_MAX: int := 0x7fff_ffff_ffff_ffff

  /** The range of a 32-bit `int`. */
  const INT_MIN: int := -0x8000_0000
  const INT_MAX: int := 0x7fff_ffff

  /** `uint32_t`, the sample type UTYPE. */
  type Word = x: int | 0 <= x < 0x1_0000_0000

  /** `size_t`. */
  type Size = x: int | 0 <= x < SIZE_MOD

  /** `long int`. */
  type Long = x: int | LONG_MIN <= x <= LONG_MAX

  /** `int`, also the range of the frame counts the audio driver returns. */
  type CInt = x: int | INT_MIN <= x <= INT_MAX

  /** Sample rate in Hz. */
  const SAMPLE_RATE: int := 52000

  /** Requested device latency in microseconds. */
  const LATENCY: int := 100000

  /** Length of one block in milliseconds. */
  const DURATION: int := 1000

  /** Frames per block: the macro `N`, SAMPLE_RATE / 1000 * DURATION, whose
      value `BlockLength` checks. */
  const N: int := 52000

  function Abs(x: int): (r: nat)
    ensures r == x || r == -x
  {
    if x < 0 then -x else x
  }

  /** C's `/` on integers: the quotient is truncated toward zero. */
  function CDiv(a: int, b: int): (q: int)
    requires b != 0
    ensures Abs(q) == Abs(a) / Abs(b)
    ensures q > 0 ==> (a > 0) == (b > 0)
    ensures q < 0 ==> (a > 0) != (b > 0)
  {
    var x, y := Abs(a), Abs(b);
    var m := x / y;
    DivBounds(x, y);
    if (a < 0) == (b < 0) then m else -m
  }

  /** Conversion to `size_t` (reduction modulo 2^64, `ToSizeIsMod`) of a
      value less than 2^64 away from the `size_t` range, as are all the sums
      and products the program converts. */
  function ToSize(x: int): (r: Size)
    requires -SIZE_MOD <= x < 2 * SIZE_MOD
  {
    if x < 0 then x + SIZE_MOD
    else if x < SIZE_MOD then x
    else x - SIZE_MOD
  }

  lemma ToSizeIsMod(x: int)
    requires -SIZE_MOD <= x < 2 * SIZE_MOD
    ensures ToSize(x) == x % SIZE_MOD
  {
  }

  /** One block is one second of audio at 52000 Hz. */
  lemma BlockLength()
    ensures N == SAMPLE_RATE / 1000 * DURATION && N == SAMPLE_RATE * DURATION / 1000
  {
  }
}
