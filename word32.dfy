/**
 * Arduino `unsigned long` arithmetic: 32-bit values whose subtraction,
 * addition and multiplication wrap modulo 2^32.
 */
module Word32 {

  const MODULUS: int := 0x1_0000_0000

  /** An `unsigned long` value. */
  type ULong = x: int | 0 <= x < MODULUS

  /** Wrapping addition `a + b`. */
  function Add(a: ULong, b: ULong): (r: ULong)
    ensures a + b < MODULUS ==> r == a + b
    ensures a + b >= MODULUS ==> r == a + b - MODULUS
  {
    (a + b) % MODULUS
  }

  /**
   * Wrapping subtraction `a - b`: the distance travelled by a free-running
   * counter from `b` to `a`, so that adding it back to `b` gives `a`.
   */
  function Sub(a: ULong, b: ULong): (r: ULong)
    ensures Add(b, r) == a
    ensures b <= a ==> r == a - b
    ensures a < b ==> r == a - b + MODULUS
  {
    (a - b) % MODULUS
  }

  /** Wrapping multiplication `a * b`. */
  function Mul(a: ULong, b: ULong): (r: ULong)
    ensures a * b < MODULUS ==> r == a * b
    ensures (a * b - r) % MODULUS == 0
  {
    (a * b) % MODULUS
  }

  /**
   * The elapsed time `now - start` is recovered exactly even when the
   * counter wrapped between `start` and `now`.
   */
  lemma SubAfterAdd(start: ULong, d: ULong)
    ensures Sub(Add(start, d), start) == d
  {
    if start + d >= MODULUS {
      assert Add(start, d) == start + d - MODULUS;
    }
  }
}
