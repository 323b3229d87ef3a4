/** Signed 64-bit integers. */
module Integers {

  const TWO63: int := 0x8000_0000_0000_0000

  /** 64-bit addition wraps around. */
  function Int64(x: int): (r: int)
    ensures -TWO63 <= r < TWO63
    ensures -TWO63 <= x < TWO63 ==> r == x
    ensures (r - x) % 0x1_0000_0000_0000_0000 == 0
  {
    (x + TWO63) % (2 * TWO63) - TWO63
  }
}
