/**
 * The fixed-width integers of a 64-bit Rust target, modelled on unbounded `int`:
 * `usize`/`u64` are ranges of naturals, `i64` a signed range, and the truncating
 * cast `as i64` and wrapping i64 arithmetic are written out as two's-complement
 * wrap-around.
 */
module MachineInts {

  const TWO_TO_THE_63: int := 0x8000_0000_0000_0000
  const TWO_TO_THE_64: int := 0x1_0000_0000_0000_0000

  const I64_MIN: int := -TWO_TO_THE_63
  const I64_MAX: int := TWO_TO_THE_63 - 1
  const USIZE_MAX: int := TWO_TO_THE_64 - 1
  const U64_MAX: int := TWO_TO_THE_64 - 1
  /** No allocation (and so no `Vec` or `String`) may exceed `isize::MAX` bytes. */
  const ISIZE_MAX: int := I64_MAX

  type Usize = x: int | 0 <= x <= USIZE_MAX
  type U64 = x: int | 0 <= x <= U64_MAX
  type I64 = x: int | I64_MIN <= x <= I64_MAX

  /** The i64 that has the same low 64 bits as `x` (two's complement). */
  function WrapI64(x: int): (r: I64)
    ensures (x - r) % TWO_TO_THE_64 == 0
    ensures I64_MIN <= x <= I64_MAX ==> r == x
  {
    var y := x - I64_MIN;
    var r := y % TWO_TO_THE_64 + I64_MIN;
    assert x - r == TWO_TO_THE_64 * (y / TWO_TO_THE_64);
    r
  }

  /** `x as i64` for a `usize` x: values above `i64::MAX` become negative. */
  function UsizeAsI64(x: Usize): (r: I64)
    ensures x <= I64_MAX ==> r == x
    ensures x > I64_MAX ==> r == x - TWO_TO_THE_64
  {
    WrapI64(x)
  }

  /** `a - b` on i64 as built without overflow checks (Rust's release profile): wraps. */
  function WrappingSubI64(a: I64, b: I64): (r: I64)
    ensures I64_MIN <= a - b <= I64_MAX ==> r == a - b
    ensures a - b > I64_MAX ==> r == a - b - TWO_TO_THE_64
    ensures a - b < I64_MIN ==> r == a - b + TWO_TO_THE_64
  {
    WrapI64(a - b)
  }
}
