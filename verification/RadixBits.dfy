// 32-bit keys and masks as bit sequences, most significant bit first.
module RadixBits {

  /** The bit looked at after i steps of the search loops: 0x80000000 shifted right i times. */
  function BitAt(i: nat): bv32 {
    if i == 0 then 0x80000000 else BitAt(i - 1) >> 1
  }

  /** bit >>= 1 and key & bit, as the loops use them. */
  function Shifted(bit: bv32): bv32 { bit >> 1 }

  predicate Hits(word: bv32, bit: bv32) { word & bit != 0 }

  ghost function Bits(key: bv32): (s: seq<bool>)
    ensures |s| == 32
  {
    seq(32, i requires 0 <= i < 32 => Hits(key, BitAt(i)))
  }

  /** The mask selects exactly the first m bits. */
  ghost predicate Selects(mask: bv32, m: nat) {
    m <= 32 && forall i :: 0 <= i <= 32 ==> (Hits(mask, BitAt(i)) <==> i < m)
  }

  /** What one turn of a search loop reads and does. */
  lemma OneBit(key: bv32, i: nat)
    ensures BitAt(i + 1) == Shifted(BitAt(i))
    ensures i < 32 ==> Bits(key)[i] == Hits(key, BitAt(i)) && Bits(key)[..i] + [Bits(key)[i]] == Bits(key)[..i + 1]
  {
  }

  // ---------- There is such a mask for every length ----------

  ghost function Mask(m: nat): bv32 {
    if m == 0 then 0 else Mask(m - 1) | BitAt(m - 1)
  }

  /** The mask so far is all the bits above the next one. */
  ghost predicate JustAbove(mask: bv32, bit: bv32) { mask == !((bit << 1) - 1) && bit & (bit - 1) == 0 }

  lemma AboveStep(mask: bv32, bit: bv32)
    requires JustAbove(mask, bit) && bit > 1
    ensures JustAbove(mask | bit, bit >> 1) && bit >> 1 != 0
  {
  }

  /** Down to the last one, every step finds a bit; after 32 steps none is left. */
  lemma BitsRunOut(i: nat)
    requires i <= 32
    ensures i < 31 ==> BitAt(i) > 1
    ensures i == 31 ==> BitAt(i) == 1
    ensures i == 32 ==> BitAt(i) == 0
  {
    assert BitAt(0) == 0x80000000;
    assert BitAt(1) == 0x40000000;
    assert BitAt(2) == 0x20000000;
    assert BitAt(3) == 0x10000000;
    assert BitAt(4) == 0x08000000;
    assert BitAt(5) == 0x04000000;
    assert BitAt(6) == 0x02000000;
    assert BitAt(7) == 0x01000000;
    assert BitAt(8) == 0x00800000;
    assert BitAt(9) == 0x00400000;
    assert BitAt(10) == 0x00200000;
    assert BitAt(11) == 0x00100000;
    assert BitAt(12) == 0x00080000;
    assert BitAt(13) == 0x00040000;
    assert BitAt(14) == 0x00020000;
    assert BitAt(15) == 0x00010000;
    assert BitAt(16) == 0x00008000;
    assert BitAt(17) == 0x00004000;
    assert BitAt(18) == 0x00002000;
    assert BitAt(19) == 0x00001000;
    assert BitAt(20) == 0x00000800;
    assert BitAt(21) == 0x00000400;
    assert BitAt(22) == 0x00000200;
    assert BitAt(23) == 0x00000100;
    assert BitAt(24) == 0x00000080;
    assert BitAt(25) == 0x00000040;
    assert BitAt(26) == 0x00000020;
    assert BitAt(27) == 0x00000010;
    assert BitAt(28) == 0x00000008;
    assert BitAt(29) == 0x00000004;
    assert BitAt(30) == 0x00000002;
    assert BitAt(31) == 0x00000001;
    assert BitAt(32) == 0x00000000;
  }

  lemma {:induction false} MaskAbove(m: nat)
    requires m <= 31
    ensures JustAbove(Mask(m), BitAt(m))
  {
    if m > 0 {
      MaskAbove(m - 1);
      BitsRunOut(m - 1);
      AboveStep(Mask(m - 1), BitAt(m - 1));
    }
  }

  lemma {:induction false} MaskHas(m: nat, i: nat)
    requires i < m <= 32
    ensures Hits(Mask(m), BitAt(i))
  {
    hide Hits, BitAt;
    if i == m - 1 {
      BitsRunOut(i);
      OrHas(Mask(i), BitAt(i));
    } else {
      MaskHas(m - 1, i);
      OrKeeps(Mask(m - 1), BitAt(m - 1), BitAt(i));
    }
  }

  lemma OrHas(x: bv32, b: bv32)
    requires b != 0
    ensures Hits(x | b, b)
  {
  }

  lemma OrKeeps(x: bv32, y: bv32, b: bv32)
    requires Hits(x, b)
    ensures Hits(x | y, b)
  {
  }

  lemma {:induction false} MaskLacks(m: nat, i: nat)
    requires m <= i <= 32 && m <= 31
    ensures !Hits(Mask(m), BitAt(i))
    decreases i
  {
    hide Hits, BitAt, Mask, JustAbove, Shifted;
    MaskAbove(m);
    if i == m {
      TopNotBelow(Mask(m), BitAt(m));
    } else {
      MaskLacks(m, i - 1);
      OneBit(0, i - 1);
      ShiftStaysBelow(Mask(m), BitAt(m), BitAt(i - 1));
    }
  }

  lemma TopNotBelow(mask: bv32, bit: bv32)
    requires JustAbove(mask, bit)
    ensures !Hits(mask, bit)
  {
  }

  lemma ShiftStaysBelow(mask: bv32, bit: bv32, x: bv32)
    requires JustAbove(mask, bit) && !Hits(mask, x)
    ensures !Hits(mask, Shifted(x))
  {
  }

  lemma NoBitNoHit(mask: bv32)
    ensures !Hits(mask, 0)
  {
  }

  /** Every prefix length has its contiguous mask. */
  lemma MaskSelects(m: nat)
    requires m <= 32
    ensures Selects(Mask(m), m)
  {
    hide Hits, BitAt, Mask;
    forall i | 0 <= i <= 32 ensures Hits(Mask(m), BitAt(i)) <==> i < m {
      if i < m {
        MaskHas(m, i);
      } else if m <= 31 {
        MaskLacks(m, i);
      } else {
        BitsRunOut(32);
        NoBitNoHit(Mask(m));
      }
    }
  }
}
