// The flags of a chunk page as the source keeps them: in the 64-bit words at the start of a SMALL page,
// in the slab word of an EXACT page, in the upper half of the slab word of a BIG page.
module SlabWords {
  import opened SlabChunks

  const FULLWORD: bv64 := 0xffff_ffff_ffff_ffff
  const MAPSHIFT: nat := 32
  const MAPMASK: bv64 := 0xffff_ffff_0000_0000
  const SHIFTMASK: bv64 := 0xf

  // ---------- One word ----------

  /** 1 << i, which is 0 for i = 64. */
  function Bit(i: nat): bv64 { if i == 0 then 1 else Doubled(Bit(i - 1)) }

  function Doubled(m: bv64): bv64 { m << 1 }

  predicate Hits(w: bv64, m: bv64) { And(w, m) != 0 }

  function With(w: bv64, m: bv64): bv64 { w | m }

  function Without(w: bv64, m: bv64): bv64 { w & !m }

  /** (1 << k) - 1. */
  function Low(k: nat): bv64 { Below(Bit(k)) }

  function Below(m: bv64): bv64 { m - 1 }

  function And(w: bv64, v: bv64): bv64 { w & v }

  function Not(w: bv64): bv64 { !w }

  predicate Single(m: bv64) { m & (m - 1) == 0 }

  lemma BitUnfold(k: nat)
    ensures Bit(k + 1) == Doubled(Bit(k)) && Bit(0) == 1
  {
  }

  function Up8(m: bv64): bv64 { m << 8 }

  lemma EightDoublings(m: bv64)
    ensures Doubled(Doubled(Doubled(Doubled(Doubled(Doubled(Doubled(Doubled(m)))))))) == Up8(m)
  {
  }

  lemma Eight(i: nat)
    ensures Bit(i + 8) == Up8(Bit(i))
  {
    hide Bit, Doubled, Up8;
    BitUnfold(i);
    BitUnfold(i + 1);
    BitUnfold(i + 2);
    BitUnfold(i + 3);
    BitUnfold(i + 4);
    BitUnfold(i + 5);
    BitUnfold(i + 6);
    BitUnfold(i + 7);
    EightDoublings(Bit(i));
  }

  function Up32(m: bv64): bv64 { m << 32 }

  lemma FourTimesEight(m: bv64)
    ensures Up8(Up8(Up8(Up8(m)))) == Up32(m)
  {
  }

  lemma UpperHalf(i: nat)
    ensures Bit(i + 32) == Up32(Bit(i))
  {
    hide Bit, Up8, Up32;
    Eight(i);
    Eight(i + 8);
    Eight(i + 16);
    Eight(i + 24);
    FourTimesEight(Bit(i));
  }

  /** The loops' bit runs out after 64 turns and not before. */
  lemma BitsRunOut()
    ensures Bit(64) == 0 && Bit(63) != 0 && Bit(0) == 1
  {
    hide Bit;
    BitUnfold(0);
    UpperHalf(0);
    UpperHalf(32);
    Eight(0);
    Eight(8);
    Eight(16);
    Eight(24);
    Eight(32);
    Eight(40);
    Eight(48);
    assert Bit(56) == 1 << 56;
    BitUnfold(56);
    BitUnfold(57);
    BitUnfold(58);
    BitUnfold(59);
    BitUnfold(60);
    BitUnfold(61);
    BitUnfold(62);
    assert Bit(59) == 1 << 59;
  }

  lemma {:induction false} BitNotZero(i: nat)
    requires i < 64
    ensures Bit(i) != 0
    decreases 64 - i
  {
    if i == 63 {
      BitsRunOut();
    } else {
      BitNotZero(i + 1);
    }
  }

  lemma {:induction false} BitSingle(i: nat)
    ensures Single(Bit(i))
  {
    if i > 0 {
      BitSingle(i - 1);
      DoubledSingle(Bit(i - 1));
    }
  }

  lemma DoubledSingle(m: bv64)
    requires Single(m)
    ensures Single(Doubled(m))
  {
  }

  lemma {:induction false} BitsApart(i: nat, j: nat)
    requires i < j
    ensures And(Bit(i), Bit(j)) == 0
  {
    hide Doubled;
    if i == 0 {
      DoubledEven(Bit(j - 1));
    } else {
      BitsApart(i - 1, j - 1);
      DoubledApart(Bit(i - 1), Bit(j - 1));
    }
  }

  lemma DoubledEven(m: bv64)
    ensures And(1, Doubled(m)) == 0
  {
  }

  lemma DoubledApart(a: bv64, b: bv64)
    requires And(a, b) == 0
    ensures And(Doubled(a), Doubled(b)) == 0
  {
  }

  lemma WithHits(w: bv64, i: nat, j: nat)
    requires i < 64 && j < 64
    ensures Hits(With(w, Bit(i)), Bit(j)) <==> i == j || Hits(w, Bit(j))
    ensures Hits(Without(w, Bit(i)), Bit(j)) <==> i != j && Hits(w, Bit(j))
  {
    hide Bit, Hits, With, Without;
    BitNotZero(i);
    if i < j { BitsApart(i, j); } else if j < i { BitsApart(j, i); }
    AndTurns(Bit(i), Bit(j));
    if i != j { OtherBit(w, Bit(i), Bit(j)); } else { SameBit(w, Bit(i)); }
  }

  lemma AndTurns(a: bv64, b: bv64)
    ensures And(a, b) == And(b, a)
  {
  }

  lemma OtherBit(w: bv64, a: bv64, b: bv64)
    requires And(a, b) == 0
    ensures Hits(With(w, a), b) == Hits(Without(w, a), b) == Hits(w, b)
  {
    hide With, Without, And;
    OtherWith(w, a, b);
    OtherWithout(w, a, b);
  }

  lemma OtherWith(w: bv64, a: bv64, b: bv64)
    requires And(a, b) == 0
    ensures And(With(w, a), b) == And(w, b)
  {
    hide With, And;
    AndOr(b, w, a);
    AndTurns(b, w);
    AndTurns(b, a);
    AndTurns(b, With(w, a));
    WithNone(And(w, b));
  }

  lemma WithNone(w: bv64)
    ensures With(w, 0) == With(0, w) == w
  {
  }

  lemma OtherWithout(w: bv64, a: bv64, b: bv64)
    requires And(a, b) == 0
    ensures And(Without(w, a), b) == And(w, b)
  {
    assert b & !a == b;
    assert (w & !a) & b == w & (b & !a);
  }

  lemma SameBit(w: bv64, a: bv64)
    requires a != 0
    ensures Hits(With(w, a), a) && !Hits(Without(w, a), a)
  {
  }

  /** and, not, the all-ones word and 0, bit by bit. */
  lemma OpHits(w: bv64, v: bv64, j: nat)
    requires j < 64
    ensures Hits(And(w, v), Bit(j)) <==> Hits(w, Bit(j)) && Hits(v, Bit(j))
    ensures Hits(Not(w), Bit(j)) <==> !Hits(w, Bit(j))
    ensures Hits(FULLWORD, Bit(j)) && !Hits(0, Bit(j))
  {
    hide Bit, Hits, Single, And, Not;
    BitNotZero(j);
    BitSingle(j);
    SingleOps(w, v, Bit(j));
  }

  lemma SingleOps(w: bv64, v: bv64, m: bv64)
    requires Single(m) && m != 0
    ensures Hits(And(w, v), m) <==> Hits(w, m) && Hits(v, m)
    ensures Hits(Not(w), m) <==> !Hits(w, m)
    ensures Hits(FULLWORD, m) && !Hits(0, m)
  {
    hide Single, And, Not;
    SingleAnd(w, m);
    SingleAnd(v, m);
    AndOnBit(w, v, m);
    NotOnBit(w, m);
    BitConstants(m);
  }

  lemma AndOnBit(w: bv64, v: bv64, m: bv64)
    requires And(w, m) == 0 || And(w, m) == m
    requires And(v, m) == 0 || And(v, m) == m
    ensures And(And(w, v), m) == if And(w, m) == 0 then 0 else And(v, m)
  {
    if v & m == 0 { AndClear(w, v, m); } else { AndSet(w, v, m); }
  }

  lemma AndClear(w: bv64, v: bv64, m: bv64)
    requires v & m == 0
    ensures w & v & m == 0
  {
  }

  lemma AndSet(w: bv64, v: bv64, m: bv64)
    requires v & m == m
    ensures w & v & m == w & m
  {
  }

  lemma NotOnBit(w: bv64, m: bv64)
    requires And(w, m) == 0 || And(w, m) == m
    ensures And(Not(w), m) == if And(w, m) == 0 then m else 0
  {
    if w & m == 0 { NotClear(w, m); } else { NotSet(w, m); }
  }

  lemma NotClear(w: bv64, m: bv64)
    requires w & m == 0
    ensures !w & m == m
  {
  }

  lemma NotSet(w: bv64, m: bv64)
    requires w & m == m
    ensures !w & m == 0
  {
  }

  lemma BitConstants(m: bv64)
    ensures And(FULLWORD, m) == m && And(0, m) == 0
  {
  }

  lemma SingleAnd(w: bv64, m: bv64)
    requires Single(m)
    ensures And(w, m) == 0 || And(w, m) == m
  {
  }

  lemma LowNext(k: nat)
    ensures Low(k + 1) == With(Low(k), Bit(k)) && Low(0) == 0
  {
    hide Bit, Single, With;
    BitSingle(k);
    BelowNext(Bit(k));
    assert Bit(k + 1) == Doubled(Bit(k)) && Bit(0) == 1 by { BitUnfold(k); }
  }

  lemma BelowNext(m: bv64)
    requires Single(m)
    ensures Below(Doubled(m)) == With(Below(m), m)
  {
  }

  lemma {:induction false} LowHits(k: nat, j: nat)
    requires k <= 64 && j < 64
    ensures Hits(Low(k), Bit(j)) <==> j < k
  {
    hide Bit, Hits, Low, With;
    if k == 0 {
      LowNext(0);
      OpHits(0, 0, j);
    } else {
      LowNext(k - 1);
      LowHits(k - 1, j);
      WithHits(Low(k - 1), k - 1, j);
    }
  }

  /** Words with the same bits are equal. */
  lemma SameBits(w: bv64, v: bv64)
    requires forall j :: 0 <= j < 64 ==> Hits(w, Bit(j)) == Hits(v, Bit(j))
    ensures w == v
  {
    hide Bit, Hits, Below;
    SameLow(w, v, 64);
    BitsRunOut();
    LowAll(w, v);
  }

  lemma LowAll(w: bv64, v: bv64)
    requires And(w, Below(0)) == And(v, Below(0))
    ensures w == v
  {
    AllOnes(w);
    AllOnes(v);
  }

  lemma AllOnes(w: bv64)
    ensures And(w, Below(0)) == w
  {
  }

  lemma {:induction false} SameLow(w: bv64, v: bv64, k: nat)
    requires k <= 64 && forall j :: 0 <= j < 64 ==> Hits(w, Bit(j)) == Hits(v, Bit(j))
    ensures And(w, Low(k)) == And(v, Low(k))
  {
    hide Bit, Hits, Low, With, Single, And;
    LowNext(0);
    if k == 0 {
      AndZero(w);
      AndZero(v);
    } else {
      LowNext(k - 1);
      SameLow(w, v, k - 1);
      BitSingle(k - 1);
      HitsAlike(w, v, Bit(k - 1));
      SameOnBit(w, v, Low(k - 1), Bit(k - 1));
    }
  }

  lemma AndZero(w: bv64)
    ensures And(w, 0) == 0
  {
  }

  lemma SameOnBit(w: bv64, v: bv64, low: bv64, m: bv64)
    requires And(w, low) == And(v, low) && And(w, m) == And(v, m)
    ensures And(w, With(low, m)) == And(v, With(low, m))
  {
    AndOr(w, low, m);
    AndOr(v, low, m);
  }

  lemma AndOr(w: bv64, low: bv64, m: bv64)
    ensures And(w, With(low, m)) == With(And(w, low), And(w, m))
  {
    assert w & (low | m) == (w & low) | (w & m);
  }

  lemma HitsAlike(w: bv64, v: bv64, m: bv64)
    requires Single(m) && Hits(w, m) == Hits(v, m)
    ensures And(w, m) == And(v, m)
  {
    hide Single;
    SingleAnd(w, m);
    SingleAnd(v, m);
  }

  ghost predicate AllHit(w: bv64) { forall j :: 0 <= j < 64 ==> Hits(w, Bit(j)) }

  ghost predicate NoneHit(w: bv64) { forall j :: 0 <= j < 64 ==> !Hits(w, Bit(j)) }

  lemma WordFull(w: bv64)
    ensures w == FULLWORD <==> AllHit(w)
  {
    hide Bit, Hits;
    forall j | 0 <= j < 64 ensures Hits(FULLWORD, Bit(j)) { OpHits(0, 0, j); }
    if AllHit(w) { SameBits(w, FULLWORD); }
  }

  lemma WordEmpty(w: bv64)
    ensures w == 0 <==> NoneHit(w)
  {
    hide Bit, Hits;
    forall j | 0 <= j < 64 ensures !Hits(0, Bit(j)) { OpHits(0, 0, j); }
    if NoneHit(w) { SameBits(w, 0); }
  }

  // ---------- The three layouts ----------

  /** The bits of a BIG page's chunks in its slab word. */
  function MapBits(shift: nat): bv64 { Up32(Low(Count(shift))) }

  lemma UpperBelow(m: bv64)
    ensures Up32(Below(m)) == And(Below(Up32(m)), Not(Below(Up32(1))))
    ensures MAPMASK == Not(Below(Up32(1)))
  {
  }

  lemma MapBitsHit(shift: nat, j: nat)
    requires EXACTSHIFT < shift && j < 64
    ensures Hits(MapBits(shift), Bit(j)) <==> MAPSHIFT <= j < MAPSHIFT + Count(shift)
    ensures Hits(MAPMASK, Bit(j)) <==> MAPSHIFT <= j
  {
    CountsFit(shift);
    hide Bit, Hits, Below, Up32, Count, And, Not;
    var c := Count(shift);
    BitUnfold(0);
    UpperHalf(c);
    UpperHalf(0);
    UpperBelow(Bit(c));
    LowHits(32 + c, j);
    LowHits(32, j);
    OpHits(Low(32 + c), Not(Low(32)), j);
    OpHits(Low(32), 0, j);
  }

  lemma CountsFit(shift: nat)
    ensures EXACTSHIFT < shift ==> Count(shift) <= 32
    ensures shift == EXACTSHIFT ==> Count(shift) == 64
    ensures MINSHIFT <= shift < EXACTSHIFT ==> Count(shift) == 64 * (Count(shift) / 64) && 1 <= Count(shift) / 64
  {
  }

  ghost function WordFlags(w: bv64, from: nat, count: nat): (flags: seq<bool>)
    ensures |flags| == count
  {
    seq(count, i requires 0 <= i < count => Hits(w, Bit(from + i)))
  }

  ghost function SmallFlags(ws: seq<bv64>): (flags: seq<bool>)
    ensures |flags| == 64 * |ws|
  {
    seq(64 * |ws|, k requires 0 <= k < 64 * |ws| => Hits(ws[k / 64], Bit(k % 64)))
  }

  /** Besides its chunks' flags, the word of a BIG page holds the shift and nothing else. */
  ghost predicate BigWord(w: bv64, shift: nat) {
    && And(w, SHIFTMASK) == ShiftBits(shift)
    && forall j :: MAPSHIFT + Count(shift) <= j < 64 ==> !Hits(w, Bit(j))
  }

  function ShiftBits(shift: nat): bv64 {
    if shift == 7 then 7 else if shift == 8 then 8 else if shift == 9 then 9 else if shift == 10 then 10 else 11
  }

  /** The words hold the flags. */
  ghost predicate Holds(ws: seq<bv64>, shift: nat, flags: seq<bool>) {
    && |flags| == Count(shift)
    && if shift < EXACTSHIFT then |ws| == Count(shift) / 64 && flags == SmallFlags(ws)
       else if shift == EXACTSHIFT then |ws| == 1 && flags == WordFlags(ws[0], 0, 64)
       else |ws| == 1 && flags == WordFlags(ws[0], MAPSHIFT, Count(shift)) && BigWord(ws[0], shift)
  }

  lemma WordFlip(w: bv64, from: nat, count: nat, i: nat)
    requires from + count <= 64 && i < count
    ensures WordFlags(With(w, Bit(from + i)), from, count) == WordFlags(w, from, count)[i := true]
    ensures WordFlags(Without(w, Bit(from + i)), from, count) == WordFlags(w, from, count)[i := false]
  {
    hide Bit, Hits, With, Without;
    forall b | from <= b < from + count
      ensures Hits(With(w, Bit(from + i)), Bit(b)) <==> b == from + i || Hits(w, Bit(b))
      ensures Hits(Without(w, Bit(from + i)), Bit(b)) <==> b != from + i && Hits(w, Bit(b))
    {
      WithHits(w, from + i, b);
    }
  }

  lemma SmallFlip(ws: seq<bv64>, n: nat, i: nat)
    requires n < |ws| && i < 64
    ensures SmallFlags(ws[n := With(ws[n], Bit(i))]) == SmallFlags(ws)[64 * n + i := true]
    ensures SmallFlags(ws[n := Without(ws[n], Bit(i))]) == SmallFlags(ws)[64 * n + i := false]
  {
    hide Bit, Hits, With, Without;
    forall b | 0 <= b < 64
      ensures Hits(With(ws[n], Bit(i)), Bit(b)) <==> b == i || Hits(ws[n], Bit(b))
      ensures Hits(Without(ws[n], Bit(i)), Bit(b)) <==> b != i && Hits(ws[n], Bit(b))
    {
      WithHits(ws[n], i, b);
    }
  }

  lemma BigFlip(w: bv64, shift: nat, i: nat)
    requires EXACTSHIFT < shift && BigWord(w, shift) && i < Count(shift)
    ensures BigWord(With(w, Bit(MAPSHIFT + i)), shift) && BigWord(Without(w, Bit(MAPSHIFT + i)), shift)
  {
    CountsFit(shift);
    hide Bit, Hits, With, Without, And, Count;
    UpperHalf(i);
    NibbleStays(w, Bit(i));
    forall j | MAPSHIFT + Count(shift) <= j < 64
      ensures !Hits(With(w, Bit(MAPSHIFT + i)), Bit(j)) && !Hits(Without(w, Bit(MAPSHIFT + i)), Bit(j))
    {
      WithHits(w, MAPSHIFT + i, j);
    }
  }

  lemma NibbleStays(w: bv64, m: bv64)
    ensures And(With(w, Up32(m)), SHIFTMASK) == And(Without(w, Up32(m)), SHIFTMASK) == And(w, SHIFTMASK)
  {
  }

  // ---------- Taking a chunk ----------

  ghost predicate AllSet(flags: seq<bool>, from: int,
                         to: int) { forall i :: from <= i < to && 0 <= i < |flags| ==> flags[i] }

  /** The first bit from `from` on that is clear, among those of the mask. */
  method FirstClearBit(w: bv64, from: nat, mask: bv64, ghost k: nat) returns (i: nat, m: bv64)
    requires from <= k < 64 && !Hits(w, Bit(k)) && forall j :: from <= j <= k ==> Hits(mask, Bit(j))
    ensures from + i <= k && m == Bit(from + i) && !Hits(w, m)
    ensures forall j :: from <= j < from + i ==> Hits(w, Bit(j))
  {
    hide Bit, Hits;
    m, i := Bit(from), 0;
    while Hits(mask, m) && Hits(w, m)
      invariant from + i <= k && m == Bit(from + i)
      invariant forall j :: from <= j < from + i ==> Hits(w, Bit(j))
      decreases k - i
    {
      BitUnfold(from + i);
      m := Doubled(m);
      i := i + 1;
    }
  }

  /** Takes the first free chunk of a page; says whether that was the last one. */
  method TakeBit(ws: seq<bv64>, shift: nat, ghost flags: seq<bool>) returns (ws': seq<bv64>, i: nat, full: bool)
    requires MINSHIFT <= shift <= MAXSHIFT && Holds(ws, shift, flags) && HasClear(flags)
    ensures i < |flags| && !flags[i] && AllSet(flags, 0, i)
    ensures Holds(ws', shift, flags[i := true]) && (full <==> !HasClear(flags[i := true]))
  {
    CountsFit(shift);
    hide Bit, Hits, With, Count, MapBits, BigWord;
    if shift < EXACTSHIFT {
      ws', i, full := TakeSmall(ws);
      return;
    }
    if shift == EXACTSHIFT {
      ws', i, full := TakeExact(ws[0]);
    } else {
      ws', i, full := TakeBig(ws[0], shift);
    }
  }

  method TakeExact(w: bv64) returns (ws': seq<bv64>, i: nat, full: bool)
    requires HasClear(WordFlags(w, 0, 64))
    ensures i < 64 && !WordFlags(w, 0, 64)[i] && AllSet(WordFlags(w, 0, 64), 0, i)
    ensures |ws'| == 1 && WordFlags(ws'[0], 0, 64) == WordFlags(w, 0, 64)[i := true]
    ensures full <==> !HasClear(WordFlags(w, 0, 64)[i := true])
  {
    hide Bit, Hits, With;
    ghost var flags := WordFlags(w, 0, 64);
    ghost var k: nat :| k < |flags| && !flags[k];
    forall j | 0 <= j < 64 ensures Hits(FULLWORD, Bit(j)) { OpHits(0, 0, j); }
    var m;
    i, m := FirstClearBit(w, 0, FULLWORD, k);
    WordFlip(w, 0, 64, i);
    ws' := [With(w, m)];
    full := ws'[0] == FULLWORD;
    WordFull(ws'[0]);
    AllHitFlags(ws'[0]);
  }

  method TakeBig(w: bv64, shift: nat) returns (ws': seq<bv64>, i: nat, full: bool)
    requires EXACTSHIFT < shift && BigWord(w, shift) && HasClear(WordFlags(w, MAPSHIFT, Count(shift)))
    ensures i < Count(shift) && !WordFlags(w, MAPSHIFT, Count(shift))[i]
    ensures AllSet(WordFlags(w, MAPSHIFT, Count(shift)), 0, i)
    ensures |ws'| == 1 && BigWord(ws'[0], shift)
    ensures WordFlags(ws'[0], MAPSHIFT, Count(shift)) == WordFlags(w, MAPSHIFT, Count(shift))[i := true]
    ensures full <==> !HasClear(WordFlags(w, MAPSHIFT, Count(shift))[i := true])
  {
    CountsFit(shift);
    hide Bit, Hits, With, Count, MapBits, BigWord, And;
    ghost var flags := WordFlags(w, MAPSHIFT, Count(shift));
    ghost var k: nat :| k < |flags| && !flags[k];
    forall j | 0 <= j < 64 ensures Hits(MapBits(shift), Bit(j)) <==> MAPSHIFT <= j < MAPSHIFT + Count(shift) {
      MapBitsHit(shift, j);
    }
    var m;
    i, m := FirstClearBit(w, MAPSHIFT, MapBits(shift), MAPSHIFT + k);
    WordFlip(w, MAPSHIFT, Count(shift), i);
    BigFlip(w, shift, i);
    ws' := [With(w, m)];
    BigFull(ws'[0], shift);
    full := And(ws'[0], MAPMASK) == MapBits(shift);
  }

  lemma AllHitFlags(w: bv64)
    ensures AllHit(w) <==> !HasClear(WordFlags(w, 0, 64))
  {
    hide Bit, Hits;
    var flags := WordFlags(w, 0, 64);
    if !HasClear(flags) {
      forall j | 0 <= j < 64 ensures Hits(w, Bit(j)) { assert flags[j]; }
    }
  }

  lemma BigFull(w: bv64, shift: nat)
    requires EXACTSHIFT < shift && BigWord(w, shift)
    ensures And(w, MAPMASK) == MapBits(shift) <==> !HasClear(WordFlags(w, MAPSHIFT, Count(shift)))
  {
    CountsFit(shift);
    hide Bit, Hits, And, Count, MapBits;
    var flags := WordFlags(w, MAPSHIFT, Count(shift));
    forall j | 0 <= j < 64
      ensures Hits(And(w, MAPMASK), Bit(j)) <==> MAPSHIFT <= j && Hits(w, Bit(j))
      ensures Hits(MapBits(shift), Bit(j)) <==> MAPSHIFT <= j < MAPSHIFT + Count(shift)
    {
      MapBitsHit(shift, j);
      OpHits(w, MAPMASK, j);
    }
    if !HasClear(flags) {
      forall j | MAPSHIFT <= j < MAPSHIFT + Count(shift) ensures Hits(w, Bit(j)) { assert flags[j - MAPSHIFT]; }
      SameBits(And(w, MAPMASK), MapBits(shift));
    }
  }

  lemma ClearIn(w: bv64) returns (k: nat)
    requires w != FULLWORD
    ensures k < 64 && !Hits(w, Bit(k))
  {
    hide Bit, Hits;
    WordFull(w);
    k :| 0 <= k < 64 && !Hits(w, Bit(k));
  }

  method TakeSmall(ws: seq<bv64>) returns (ws': seq<bv64>, i: nat, full: bool)
    requires HasClear(SmallFlags(ws))
    ensures i < 64 * |ws| && !SmallFlags(ws)[i] && AllSet(SmallFlags(ws), 0, i)
    ensures |ws'| == |ws| && SmallFlags(ws') == SmallFlags(ws)[i := true]
    ensures full <==> !HasClear(SmallFlags(ws)[i := true])
  {
    hide Bit, Hits, With, SmallFlags;
    ghost var flags := SmallFlags(ws);
    var n := 0;
    while n < |ws| && ws[n] == FULLWORD
      invariant 0 <= n <= |ws| && AllSet(flags, 0, 64 * n)
    {
      SmallWord(ws, n);
      n := n + 1;
    }
    SmallWord(ws, n);
    ghost var k := ClearIn(ws[n]);
    forall j | 0 <= j < 64 ensures Hits(FULLWORD, Bit(j)) { OpHits(0, 0, j); }
    var b, m := FirstClearBit(ws[n], 0, FULLWORD, k);
    assert forall j :: 64 * n <= j < 64 * n + b ==> flags[j] == Hits(ws[n], Bit(j - 64 * n));
    SmallFlip(ws, n, b);
    ws' := ws[n := With(ws[n], m)];
    i := n * 64 + b;
    ghost var flags' := SmallFlags(ws');
    SmallWord(ws', n);
    full := ws'[n] == FULLWORD;
    if full {
      var r := n + 1;
      while r < |ws'| && ws'[r] == FULLWORD
        invariant n < r <= |ws'| && AllSet(flags', 0, 64 * r)
      {
        SmallWord(ws', r);
        r := r + 1;
      }
      full := r == |ws'|;
      if !full { SmallWord(ws', r); }
    }
  }

  lemma SmallAt(ws: seq<bv64>, n: nat, j: nat)
    requires n < |ws| && j < 64
    ensures SmallFlags(ws)[64 * n + j] == Hits(ws[n], Bit(j))
  {
    hide Bit, Hits;
    WordAndBit(n, j);
  }

  lemma WordAndBit(n: nat, j: nat)
    requires j < 64
    ensures (64 * n + j) / 64 == n && (64 * n + j) % 64 == j
  {
  }

  ghost predicate NoneSetIn(flags: seq<bool>, from: int,
                            to: int) { forall i :: from <= i < to && 0 <= i < |flags| ==> !flags[i] }

  /** A full word is 64 set flags in a row, and 0 is 64 clear ones. */
  lemma SmallWord(ws: seq<bv64>, n: nat)
    requires n < |ws|
    ensures ws[n] == FULLWORD <==> AllSet(SmallFlags(ws), 64 * n, 64 * n + 64)
    ensures ws[n] == 0 <==> NoneSetIn(SmallFlags(ws), 64 * n, 64 * n + 64)
    ensures forall j :: 0 <= j < 64 ==> SmallFlags(ws)[64 * n + j] == Hits(ws[n], Bit(j))
  {
    hide Bit, Hits, SmallFlags;
    WordFull(ws[n]);
    WordEmpty(ws[n]);
    var flags := SmallFlags(ws);
    forall j | 0 <= j < 64 ensures flags[64 * n + j] == Hits(ws[n], Bit(j)) { SmallAt(ws, n, j); }
    forall k | 64 * n <= k < 64 * n + 64 ensures flags[k] == Hits(ws[n], Bit(k - 64 * n)) { SmallAt(ws, n, k - 64 * n);
      }
  }

  // ---------- Giving a chunk up ----------

  /** The word and the bit that hold the flag of chunk i. */
  function WordOf(i: nat, shift: nat): nat { if shift < EXACTSHIFT then i / 64 else 0 }

  function BitOf(i: nat, shift: nat): bv64 {
    if shift < EXACTSHIFT then Bit(i % 64) else if shift == EXACTSHIFT then Bit(i) else Bit(MAPSHIFT + i)
  }

  lemma FlagAtBit(ws: seq<bv64>, shift: nat, flags: seq<bool>, i: nat)
    requires MINSHIFT <= shift <= MAXSHIFT && Holds(ws, shift, flags) && i < |flags|
    ensures WordOf(i, shift) < |ws| && (Hits(ws[WordOf(i, shift)], BitOf(i, shift)) <==> flags[i])
  {
    CountsFit(shift);
    hide Bit, Hits, Count;
  }

  lemma BitCleared(ws: seq<bv64>, shift: nat, flags: seq<bool>, i: nat)
    requires MINSHIFT <= shift <= MAXSHIFT && Holds(ws, shift, flags) && i < |flags|
    ensures WordOf(i, shift) < |ws|
    ensures Holds(ws[WordOf(i, shift) := Without(ws[WordOf(i, shift)], BitOf(i, shift))], shift, flags[i := false])
  {
    CountsFit(shift);
    hide Bit, Hits, Count, Without, BigWord;
    if shift < EXACTSHIFT {
      SmallFlip(ws, i / 64, i % 64);
    } else if shift == EXACTSHIFT {
      WordFlip(ws[0], 0, 64, i);
    } else {
      WordFlip(ws[0], MAPSHIFT, Count(shift), i);
      BigFlip(ws[0], shift, i);
    }
  }

  /** Clears the flag of chunk i; says whether no flag after the bitmap's own is left. */
  method DropBit(ws: seq<bv64>, shift: nat, i: nat, ghost flags: seq<bool>) returns (ws': seq<bv64>, none: bool)
    requires MINSHIFT <= shift <= MAXSHIFT && Holds(ws, shift, flags) && i < |flags|
    ensures Holds(ws', shift, flags[i := false]) && (none <==> !AnySet(flags[i := false], Reserved(shift)))
  {
    hide Holds, WordOf, BitOf, Without;
    BitCleared(ws, shift, flags, i);
    ws' := ws[WordOf(i, shift) := Without(ws[WordOf(i, shift)], BitOf(i, shift))];
    none := NoneSet(ws', shift, flags[i := false]);
  }

  method NoneSet(ws: seq<bv64>, shift: nat, ghost flags: seq<bool>) returns (none: bool)
    requires MINSHIFT <= shift <= MAXSHIFT && Holds(ws, shift, flags)
    ensures none <==> !AnySet(flags, Reserved(shift))
  {
    CountsFit(shift);
    hide Bit, Hits, Count, Low, BigWord, And, Not;
    if shift < EXACTSHIFT {
      BitmapFits(shift);
      hide Reserved;
      var r := Reserved(shift);
      none := And(ws[0], Not(Low(r))) == 0;
      FirstWordNone(ws, r);
      if none {
        var n := 1;
        while n < |ws| && ws[n] == 0
          invariant 1 <= n <= |ws| && NoneSetIn(flags, r, 64 * n)
        {
          SmallWord(ws, n);
          n := n + 1;
        }
        none := n == |ws|;
        if !none {
          SmallWord(ws, n);
        }
      }
    } else if shift == EXACTSHIFT {
      none := ws[0] == 0;
      WordEmpty(ws[0]);
      NoneHitFlags(ws[0]);
    } else {
      none := And(ws[0], MAPMASK) == 0;
      BigNone(ws[0], shift);
    }
  }

  lemma FirstWordNone(ws: seq<bv64>, r: nat)
    requires |ws| >= 1 && r < 64
    ensures And(ws[0], Not(Low(r))) == 0 <==> NoneSetIn(SmallFlags(ws), r, 64)
  {
    hide Bit, Hits, Low, And, Not, SmallFlags;
    var w := And(ws[0], Not(Low(r)));
    forall j | 0 <= j < 64 ensures Hits(w, Bit(j)) <==> r <= j && SmallFlags(ws)[j] {
      OpHits(ws[0], Not(Low(r)), j);
      OpHits(Low(r), 0, j);
      LowHits(r, j);
      SmallAt(ws, 0, j);
    }
    WordEmpty(w);
  }

  lemma NoneHitFlags(w: bv64)
    ensures NoneHit(w) <==> !AnySet(WordFlags(w, 0, 64), 0)
  {
    hide Bit, Hits;
    var flags := WordFlags(w, 0, 64);
    if !AnySet(flags, 0) {
      forall j | 0 <= j < 64 ensures !Hits(w, Bit(j)) { assert !flags[j]; }
    }
  }

  lemma BigNone(w: bv64, shift: nat)
    requires EXACTSHIFT < shift && BigWord(w, shift)
    ensures And(w, MAPMASK) == 0 <==> !AnySet(WordFlags(w, MAPSHIFT, Count(shift)), 0)
  {
    CountsFit(shift);
    hide Bit, Hits, And, Count;
    var flags := WordFlags(w, MAPSHIFT, Count(shift));
    forall j | 0 <= j < 64 ensures Hits(And(w, MAPMASK), Bit(j)) <==> MAPSHIFT <= j && Hits(w, Bit(j)) {
      MapBitsHit(shift, j);
      OpHits(w, MAPMASK, j);
    }
    WordEmpty(And(w, MAPMASK));
    if !AnySet(flags, 0) {
      forall j | MAPSHIFT <= j < MAPSHIFT + Count(shift) ensures !Hits(w, Bit(j)) { assert !flags[j - MAPSHIFT]; }
    }
  }

  // ---------- A new page, and memset ----------

  /** The words of a page just cut up: the bitmap's own chunks and the first after them are taken. There
      are fewer than 64 of them, so the source's loop over full words (lines 385-388) does not run. */
  method FreshWords(shift: nat) returns (ws: seq<bv64>)
    requires MINSHIFT <= shift <= MAXSHIFT
    ensures Holds(ws, shift, seq(Count(shift), i => i <= Reserved(shift)))
  {
    CountsFit(shift);
    hide Bit, Hits, Count, Low, BigWord;
    ghost var flags := seq(Count(shift), i => i <= Reserved(shift));
    if shift < EXACTSHIFT {
      BitmapFits(shift);
      ws := seq(Count(shift) / 64, _ => 0)[0 := Low(Reserved(shift) + 1)];
      hide Reserved;
      forall k | 0 <= k < Count(shift) ensures Hits(ws[k / 64], Bit(k % 64)) == flags[k] {
        LowHits(Reserved(shift) + 1, k % 64);
        OpHits(0, 0, k % 64);
      }
    } else if shift == EXACTSHIFT {
      ws := [1];
      FreshExact();
    } else {
      ws := [With(Bit(MAPSHIFT), ShiftBits(shift))];
      FreshBig(shift);
    }
  }

  lemma FreshExact()
    ensures WordFlags(1, 0, 64) == seq(64, i => i <= 0)
  {
    hide Bit, Hits, With;
    BitUnfold(0);
    WithNone(1);
    forall j | 0 <= j < 64 ensures Hits(1, Bit(j)) <==> j == 0 {
      WithHits(0, 0, j);
      OpHits(0, 0, j);
    }
  }

  lemma FreshBig(shift: nat)
    requires EXACTSHIFT < shift <= MAXSHIFT
    ensures BigWord(With(Bit(MAPSHIFT), ShiftBits(shift)), shift)
    ensures WordFlags(With(Bit(MAPSHIFT), ShiftBits(shift)), MAPSHIFT, Count(shift)) == seq(Count(shift), i => i <= 0)
  {
    CountsFit(shift);
    var w := With(Bit(MAPSHIFT), ShiftBits(shift));
    BigNibble(ShiftBits(shift));
    hide Bit, Hits, With, Count, And, ShiftBits;
    UpperHalf(0);
    BitUnfold(0);
    forall j | MAPSHIFT <= j < 64 ensures Hits(w, Bit(j)) <==> j == MAPSHIFT {
      UpperHalf(j - MAPSHIFT);
      LowApart(shift, Bit(j - MAPSHIFT));
      OtherBit(Bit(MAPSHIFT), ShiftBits(shift), Bit(j));
      WithNone(Bit(MAPSHIFT));
      WithHits(0, MAPSHIFT, j);
      OpHits(0, 0, j);
    }
  }

  lemma BigNibble(n: bv64)
    requires n <= SHIFTMASK
    ensures And(With(Up32(1), n), SHIFTMASK) == n
  {
  }

  lemma LowApart(shift: nat, m: bv64)
    ensures And(ShiftBits(shift), Up32(m)) == 0
  {
  }

  /** memset over chunk i clears the words that lie in it. */
  method ZeroChunk(ws: seq<bv64>, shift: nat, i: nat, ghost flags: seq<bool>) returns (ws': seq<bv64>)
    requires MINSHIFT <= shift <= MAXSHIFT && Holds(ws, shift, flags)
    ensures Holds(ws', shift, Zeroed(flags, i, shift))
  {
    CountsFit(shift);
    hide Bit, Hits, Count, BigWord;
    ws' := ws;
    if shift < EXACTSHIFT {
      ws' := seq(|ws|, n requires 0 <= n < |ws| => if 8 * n / ChunkSize(shift) == i then 0 else ws[n]);
      forall k | 0 <= k < 64 * |ws| ensures Hits(ws'[k / 64], Bit(k % 64)) == Zeroed(flags, i, shift)[k] {
        SameChunk(k, shift);
        OpHits(0, 0, k % 64);
      }
    }
  }

  /** A flag's byte and its word lie in the same chunk. */
  lemma SameChunk(k: nat, shift: nat)
    requires MINSHIFT <= shift < EXACTSHIFT
    ensures k / 8 / ChunkSize(shift) == 8 * (k / 64) / ChunkSize(shift)
  {
    if shift == 3 {
    } else if shift == 4 {
    } else {
    }
  }

  // ---------- All pages ----------

  /** The words of every chunk page hold its flags. */
  ghost predicate Stored(ws: seq<seq<bv64>>, shifts: map<int, nat>, maps: seq<seq<bool>>) {
    |ws| == |maps| && forall p :: p in shifts && 0 <= p < |ws| ==> Holds(ws[p], shifts[p], maps[p])
  }

  lemma StoredAt(ws: seq<seq<bv64>>, shifts: map<int, nat>, maps: seq<seq<bool>>, p: int)
    requires Stored(ws, shifts, maps) && p in shifts && 0 <= p < |ws|
    ensures |ws| == |maps| && Holds(ws[p], shifts[p], maps[p])
  {
  }

  /** New words for page p, and possibly a new shift or none. */
  lemma StoredSet(ws: seq<seq<bv64>>, shifts: map<int, nat>, shifts': map<int, nat>, maps: seq<seq<bool>>, p: nat,
                  w: seq<bv64>, flags: seq<bool>)
    requires Stored(ws, shifts, maps) && p < |ws| && (p in shifts' ==> Holds(w, shifts'[p], flags))
    requires forall q :: q in shifts' && q != p ==> q in shifts && shifts'[q] == shifts[q]
    ensures Stored(ws[p := w], shifts', maps[p := flags])
  {
    hide Holds;
  }

  /** Whether an EXACT page is full is read off its word. */
  lemma ExactFull(ws: seq<bv64>, flags: seq<bool>)
    requires Holds(ws, EXACTSHIFT, flags)
    ensures |ws| == 1 && (ws[0] == FULLWORD <==> !HasClear(flags))
  {
    CountsFit(EXACTSHIFT);
    hide Bit, Hits, Count;
    WordFull(ws[0]);
    AllHitFlags(ws[0]);
  }
}
