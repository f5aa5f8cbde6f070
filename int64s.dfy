/**
 * Go's fixed-width signed integers. Dafny integers are unbounded, so the
 * two's-complement wrap-around of `int64` arithmetic and of the `int32(x)`
 * conversion is written out here.
 */
module Int64s {

  const MIN: int := -0x8000_0000_0000_0000
  const MAX: int := 0x7FFF_FFFF_FFFF_FFFF
  const MODULUS: int := 0x1_0000_0000_0000_0000

  const MIN32: int := -0x8000_0000
  const MAX32: int := 0x7FFF_FFFF
  const MODULUS32: int := 0x1_0000_0000

  predicate InRange(x: int) {
    MIN <= x <= MAX
  }

  /** A Go `int64` value (also used for Go's 64-bit `int` and for `time.Duration`). */
  type Int64 = x: int | -0x8000_0000_0000_0000 <= x <= 0x7FFF_FFFF_FFFF_FFFF

  /** The `int64` that two's-complement arithmetic leaves for the mathematical value `x`. */
  function Wrap(x: int): (r: Int64)
    ensures InRange(x) ==> r == x
    ensures (x - r) % MODULUS == 0
  {
    (x - MIN) % MODULUS + MIN
  }

  /** Wrapping an intermediate result does not change the final wrapped value. */
  lemma WrapAdd(x: int, y: int)
    ensures Wrap(Wrap(x) + y) == Wrap(x + y)
  {
    var q := (x - MIN) / MODULUS;
    assert Wrap(x) == x - MODULUS * q;
    ModShift(x + y - MIN, q);
  }

  lemma ModShift(a: int, q: int)
    ensures (a - MODULUS * q) % MODULUS == a % MODULUS
  {
    var r := a % MODULUS;
    var d := a / MODULUS;
    assert a - MODULUS * q == MODULUS * (d - q) + r;
  }

  /** Go's `int32(x)` conversion: keep the low 32 bits, read them as signed. */
  function Wrap32(x: int): (r: int)
    ensures MIN32 <= r <= MAX32
    ensures MIN32 <= x <= MAX32 ==> r == x
    ensures (x - r) % MODULUS32 == 0
  {
    (x - MIN32) % MODULUS32 + MIN32
  }
}
