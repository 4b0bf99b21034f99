/**
 * The 32-bit `int` of the C sources, written out over Dafny's unbounded
 * integers. Every place where the C code could leave the 32-bit range says
 * explicitly which of these helpers it uses.
 */
module Int32 {
  const INT_MIN: int := -0x8000_0000
  const INT_MAX: int := 0x7fff_ffff
  const LONG_MIN: int := -0x8000_0000_0000_0000
  const LONG_MAX: int := 0x7fff_ffff_ffff_ffff

  predicate IsInt32(x: int) { INT_MIN <= x <= INT_MAX }

  /** Two's-complement truncation to 32 bits (what the hardware does on overflow). */
  function Wrap32(x: int): (r: int)
    ensures IsInt32(r)
    ensures IsInt32(x) ==> r == x
  {
    var m := x % 0x1_0000_0000;
    if m > INT_MAX then m - 0x1_0000_0000 else m
  }

  /** The truncation keeps the value modulo 2^32. */
  lemma Wrap32Congruent(x: int)
    ensures (Wrap32(x) - x) % 0x1_0000_0000 == 0
  {
  }

  /**
   * `abs` of <stdlib.h> on a 32-bit int. `abs(INT_MIN)` is undefined in C;
   * on two's-complement targets it yields INT_MIN itself, which is modelled.
   */
  function CAbs(x: int): (r: int)
    requires IsInt32(x)
    ensures IsInt32(r)
    ensures x != INT_MIN ==> r >= 0 && (r == x || r == -x)
    ensures x == INT_MIN ==> r < 0
  {
    if x == INT_MIN then INT_MIN else if x < 0 then -x else x
  }

  /** Unary minus on a 32-bit int, wrapping `-INT_MIN` to INT_MIN. */
  function Negate(x: int): (r: int)
    requires IsInt32(x)
    ensures IsInt32(r)
    ensures x != INT_MIN ==> r == -x
    ensures x == INT_MIN ==> r == x
  {
    Wrap32(-x)
  }

  /** Saturation into [lo, hi]: the conversion of `strtol` on overflow. */
  function Saturate(x: int, lo: int, hi: int): (r: int)
    requires lo <= hi
    ensures lo <= r <= hi
    ensures lo <= x <= hi ==> r == x
    ensures x < lo ==> r == lo
    ensures x > hi ==> r == hi
  {
    if x < lo then lo else if x > hi then hi else x
  }
}
