// Numbers that several components share.
module Arithmetic {

  /** A 64-bit word takes values below this. */
  const WORD64: nat := 0x1_0000_0000_0000_0000

  function Pow2(k: nat): (r: nat)
    ensures r >= 1
  {
    if k == 0 then 1 else 2 * Pow2(k - 1)
  }
}
