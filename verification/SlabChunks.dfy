// Chunks inside pages: which blocks are handed out, as a map from address to size. Addresses are
// byte offsets from the page-aligned start of the pool; a page is 4096 bytes.
module SlabChunks {
  import opened SlabLists
  import opened SlabRuns
  import opened SlabRecords

  const PAGESIZE: nat := 4096
  const MAXCHUNK: nat := 2048
  const MINSHIFT: nat := 3
  const EXACTSHIFT: nat := 6
  const MAXSHIFT: nat := 11

  function ChunkSize(shift: nat): (r: nat)
    ensures 8 <= r <= MAXCHUNK
  {
    if shift <= 3 then 8 else if shift == 4 then 16 else if shift == 5 then 32 else if shift == 6 then 64
    else if shift == 7 then 128 else if shift == 8 then 256 else if shift == 9 then 512
    else if shift == 10 then 1024 else 2048
  }

  function Count(shift: nat): (r: nat)
    ensures r >= 2
  {
    PAGESIZE / ChunkSize(shift)
  }

  /** Chunks at the start of a SMALL page that hold its bitmap. */
  function Reserved(shift: nat): nat {
    if shift >= EXACTSHIFT then 0
    else
      var n := Count(shift) / (ChunkSize(shift) * 8);
      if n == 0 then 1 else n
  }

  /** The bitmap, one bit a chunk, fits in the chunks set aside for it, and needs them all. */
  lemma BitmapFits(shift: nat)
    requires MINSHIFT <= shift < EXACTSHIFT
    ensures (Reserved(shift) - 1) * ChunkSize(shift) * 8 < Count(shift) <= Reserved(shift) * ChunkSize(shift) * 8
    ensures Reserved(shift) + 1 < 64 <= Count(shift)
  {
  }

  function Addr(p: int, i: nat, shift: nat): int { p * PAGESIZE + i * ChunkSize(shift) }

  lemma TimesSize(i: int, shift: nat)
    ensures i * ChunkSize(shift) % ChunkSize(shift) == 0 && i * ChunkSize(shift) / ChunkSize(shift) == i
  {
    if shift <= 3 {
    } else if shift == 4 {
    } else if shift == 5 {
    } else if shift == 6 {
    } else if shift == 7 {
    } else if shift == 8 {
    } else if shift == 9 {
    } else if shift == 10 {
    } else {
    }
  }

  lemma LastChunkFits(i: nat, shift: nat)
    requires i < Count(shift)
    ensures i * ChunkSize(shift) + ChunkSize(shift) <= PAGESIZE
  {
    if shift <= 3 {
    } else if shift == 4 {
    } else if shift == 5 {
    } else if shift == 6 {
    } else if shift == 7 {
    } else if shift == 8 {
    } else if shift == 9 {
    } else if shift == 10 {
    } else {
    }
  }

  /** Page and chunk number can be read back off an address. */
  lemma AddrParts(p: int, i: nat, shift: nat)
    requires i < Count(shift)
    ensures Addr(p, i, shift) / PAGESIZE == p && Addr(p, i, shift) % PAGESIZE == i * ChunkSize(shift)
    ensures i * ChunkSize(shift) % ChunkSize(shift) == 0 && i * ChunkSize(shift) / ChunkSize(shift) == i
    ensures i * ChunkSize(shift) + ChunkSize(shift) <= PAGESIZE
  {
    hide ChunkSize, Count;
    TimesSize(i, shift);
    LastChunkFits(i, shift);
    PageParts(p, i * ChunkSize(shift));
  }

  lemma PageParts(p: int, o: int)
    requires 0 <= o < PAGESIZE
    ensures (p * PAGESIZE + o) / PAGESIZE == p && (p * PAGESIZE + o) % PAGESIZE == o
  {
  }

  lemma AddrBack(a: int, shift: nat)
    requires a % PAGESIZE % ChunkSize(shift) == 0
    ensures a % PAGESIZE / ChunkSize(shift) < Count(shift)
    ensures a == Addr(a / PAGESIZE, a % PAGESIZE / ChunkSize(shift), shift)
  {
  }

  // ---------- Live blocks ----------

  /** Allocated runs, the shift of each chunk page, and each page's chunk flags. */
  datatype Chunks = Chunks(alloc: map<int, nat>, shifts: map<int, nat>, maps: seq<seq<bool>>)

  ghost predicate LiveChunk(c: Chunks, p: int, i: int) {
    p in c.shifts && 0 <= p < |c.maps| && Reserved(c.shifts[p]) <= i < |c.maps[p]| && c.maps[p][i]
  }

  ghost predicate IsLive(c: Chunks, a: int) {
    var p := a / PAGESIZE;
    p in c.alloc
    && if p in c.shifts
       then a % PAGESIZE % ChunkSize(c.shifts[p]) == 0 && LiveChunk(c, p, a % PAGESIZE / ChunkSize(c.shifts[p]))
       else a % PAGESIZE == 0
  }

  ghost function SizeAt(c: Chunks, a: int): nat
    requires IsLive(c, a)
  {
    var p := a / PAGESIZE;
    if p in c.shifts then ChunkSize(c.shifts[p]) else c.alloc[p] * PAGESIZE
  }

  ghost predicate Inside(a: int, n: nat) { 0 <= a < n * PAGESIZE }

  ghost function Live(c: Chunks, n: nat): map<int, nat> {
    map a | 0 <= a < n * PAGESIZE && Inside(a, n) && IsLive(c, a) :: SizeAt(c, a)
  }

  ghost predicate ChunkOk(c: Chunks, p: int) {
    p in c.shifts ==>
      p in c.alloc && c.alloc[p] == 1 && MINSHIFT <= c.shifts[p] <= MAXSHIFT
      && 0 <= p < |c.maps| && |c.maps[p]| == Count(c.shifts[p])
      && (forall i :: 0 <= i < Reserved(c.shifts[p]) ==> c.maps[p][i])
      && (exists i :: LiveChunk(c, p, i))
  }

  ghost predicate ChunksOk(c: Chunks) { forall p {:trigger ChunkOk(c, p)} :: ChunkOk(c, p) }

  // ---------- Flipping one chunk flag ----------

  ghost function WithFlag(c: Chunks, p: int, i: nat, v: bool): Chunks
    requires 0 <= p < |c.maps| && i < |c.maps[p]|
  {
    c.(maps := c.maps[p := c.maps[p][i := v]])
  }

  lemma FlagAt(c: Chunks, p: int, i: nat, v: bool, a: int)
    requires p in c.shifts && ChunkOk(c, p) && Reserved(c.shifts[p]) <= i < |c.maps[p]|
    ensures IsLive(WithFlag(c, p, i, v), a) <==> if a == Addr(p, i, c.shifts[p]) then v else IsLive(c, a)
  {
    hide ChunkSize, Count, Reserved;
    var shift := c.shifts[p];
    AddrParts(p, i, shift);
    if a / PAGESIZE == p && a % PAGESIZE % ChunkSize(shift) == 0 {
      AddrBack(a, shift);
    }
  }

  lemma FlagSet(c: Chunks, n: nat, p: int, i: nat)
    requires p in c.shifts && ChunkOk(c, p) && p < n && Reserved(c.shifts[p]) <= i < |c.maps[p]| && !c.maps[p][i]
    ensures var a := Addr(p, i, c.shifts[p]);
      a !in Live(c, n) && Live(WithFlag(c, p, i, true), n) == Live(c, n)[a := ChunkSize(c.shifts[p])]
  {
    var c', a0 := WithFlag(c, p, i, true), Addr(p, i, c.shifts[p]);
    AddrParts(p, i, c.shifts[p]);
    assert !IsLive(c, a0) && Inside(a0, n);
    hide ChunkSize, Count, Reserved, LiveChunk, ChunkOk, IsLive, WithFlag;
    forall a ensures IsLive(c', a) <==> a == a0 || IsLive(c, a) {
      FlagAt(c, p, i, true, a);
    }
    WithFlagSame(c, p, i, true);
    LiveAdded(c, c', n, a0, ChunkSize(c.shifts[p]));
  }

  lemma WithFlagSame(c: Chunks, p: int, i: nat, v: bool)
    requires 0 <= p < |c.maps| && i < |c.maps[p]|
    ensures WithFlag(c, p, i, v).alloc == c.alloc && WithFlag(c, p, i, v).shifts == c.shifts
  {
  }

  /** If one more address is live, the map of live blocks gains that address. */
  lemma LiveAdded(c: Chunks, c': Chunks, n: nat, a0: int, size: nat)
    requires forall a :: IsLive(c', a) <==> a == a0 || IsLive(c, a)
    requires forall a :: IsLive(c, a) && IsLive(c', a) && a != a0 ==> SizeAt(c', a) == SizeAt(c, a)
    requires Inside(a0, n) && IsLive(c', a0) && SizeAt(c', a0) == size
    ensures Live(c', n) == Live(c, n)[a0 := size]
  {
    hide IsLive, SizeAt;
  }

  lemma LiveRemoved(c: Chunks, c': Chunks, n: nat, a0: int)
    requires forall a :: IsLive(c', a) <==> a != a0 && IsLive(c, a)
    requires forall a :: IsLive(c, a) && IsLive(c', a) ==> SizeAt(c', a) == SizeAt(c, a)
    ensures Live(c', n) == Live(c, n) - {a0}
  {
    hide IsLive, SizeAt;
  }

  lemma FlagClear(c: Chunks, n: nat, p: int, i: nat)
    requires p in c.shifts && ChunkOk(c, p) && Reserved(c.shifts[p]) <= i < |c.maps[p]|
    ensures Live(WithFlag(c, p, i, false), n) == Live(c, n) - {Addr(p, i, c.shifts[p])}
  {
    var c', a0 := WithFlag(c, p, i, false), Addr(p, i, c.shifts[p]);
    forall a ensures IsLive(c', a) <==> a != a0 && IsLive(c, a) {
      FlagAt(c, p, i, false, a);
    }
    LiveRemoved(c, c', n, a0);
  }

  // ---------- Whole pages and runs ----------

  ghost function WithRun(c: Chunks, p: int, k: nat): Chunks { c.(alloc := c.alloc[p := k]) }

  lemma RunAdded(c: Chunks, n: nat, p: int, k: nat)
    requires ChunkOk(c, p) && p !in c.alloc && 0 <= p < n
    ensures p * PAGESIZE !in Live(c, n) && Live(WithRun(c, p, k), n) == Live(c, n)[p * PAGESIZE := k * PAGESIZE]
  {
    var c', a0 := WithRun(c, p, k), p * PAGESIZE;
    assert a0 / PAGESIZE == p && a0 % PAGESIZE == 0 && Inside(a0, n);
    forall a ensures IsLive(c', a) <==> a == a0 || IsLive(c, a) {
    }
    LiveAdded(c, c', n, a0, k * PAGESIZE);
  }

  ghost function WithoutRun(c: Chunks, p: int): Chunks { c.(alloc := c.alloc - {p}, shifts := c.shifts - {p}) }

  lemma RunDropped(c: Chunks, n: nat, p: int)
    requires p in c.alloc && p !in c.shifts
    ensures Live(WithoutRun(c, p), n) == Live(c, n) - {p * PAGESIZE}
  {
    var c', a0 := WithoutRun(c, p), p * PAGESIZE;
    assert a0 / PAGESIZE == p && a0 % PAGESIZE == 0;
    forall a ensures IsLive(c', a) <==> a != a0 && IsLive(c, a) {
    }
    LiveRemoved(c, c', n, a0);
  }

  /** A page with no live chunk can go without any block being lost. */
  lemma EmptyPageDropped(c: Chunks, n: nat, p: int)
    requires p in c.alloc && p in c.shifts && forall i :: !LiveChunk(c, p, i)
    ensures Live(WithoutRun(c, p), n) == Live(c, n)
  {
    var c' := WithoutRun(c, p);
    forall a ensures IsLive(c', a) <==> IsLive(c, a) {
    }
    forall a | IsLive(c, a) && IsLive(c', a) ensures SizeAt(c', a) == SizeAt(c, a) {
    }
    hide IsLive, SizeAt;
  }

  ghost function WithPage(c: Chunks, p: int, shift: nat, flags: seq<bool>): Chunks
    requires 0 <= p < |c.maps|
  {
    Chunks(c.alloc[p := 1], c.shifts[p := shift], c.maps[p := flags])
  }

  /** A new chunk page: its bitmap chunks and the first chunk after them are taken. */
  ghost predicate FreshFlags(flags: seq<bool>, shift: nat) {
    |flags| == Count(shift) && forall i :: 0 <= i < |flags| ==> flags[i] == (i <= Reserved(shift))
  }

  lemma FreshAt(c: Chunks, p: int, shift: nat, flags: seq<bool>, a: int)
    requires 0 <= p < |c.maps| && p !in c.alloc && FreshFlags(flags, shift) && Reserved(shift) < Count(shift)
    ensures IsLive(WithPage(c, p, shift, flags), a) <==>
      a == Addr(p, Reserved(shift), shift) || (a / PAGESIZE != p && IsLive(c, a))
  {
    hide ChunkSize, Count, Reserved;
    AddrParts(p, Reserved(shift), shift);
    if a / PAGESIZE == p && a % PAGESIZE % ChunkSize(shift) == 0 {
      AddrBack(a, shift);
    }
  }

  lemma PageAdded(c: Chunks, n: nat, p: int, shift: nat, flags: seq<bool>)
    requires 0 <= p < n == |c.maps| && p !in c.alloc && ChunkOk(c, p) && FreshFlags(flags, shift)
    requires MINSHIFT <= shift <= MAXSHIFT
    ensures var a := Addr(p, Reserved(shift), shift);
      a !in Live(c, n) && Live(WithPage(c, p, shift, flags), n) == Live(c, n)[a := ChunkSize(shift)]
  {
    var c', a0 := WithPage(c, p, shift, flags), Addr(p, Reserved(shift), shift);
    AddrParts(p, Reserved(shift), shift);
    hide ChunkSize, Count, Reserved;
    assert !IsLive(c, a0) && Inside(a0, n);
    forall a ensures IsLive(c', a) <==> a == a0 || IsLive(c, a) {
      FreshAt(c, p, shift, flags, a);
    }
    LiveAdded(c, c', n, a0, ChunkSize(shift));
  }

  // ---------- Blocks do not overlap ----------

  /** A live block lies within its run. */
  lemma BlockInRun(c: Chunks, a: int)
    requires IsLive(c, a) && ChunkOk(c, a / PAGESIZE)
    ensures var p := a / PAGESIZE; p * PAGESIZE <= a && a + SizeAt(c, a) <= (p + c.alloc[p]) * PAGESIZE
  {
    hide Count, Reserved;
    var p := a / PAGESIZE;
    if p in c.shifts {
      AddrBack(a, c.shifts[p]);
      AddrParts(p, a % PAGESIZE / ChunkSize(c.shifts[p]), c.shifts[p]);
    }
  }

  lemma ChunksApart(p: int, i: nat, j: nat, shift: nat)
    requires i < j
    ensures Addr(p, i, shift) + ChunkSize(shift) <= Addr(p, j, shift)
  {
  }

  /** No two live blocks overlap. */
  lemma LiveDisjoint(c: Chunks, runs: Runs, n: nat, a: int, b: int)
    requires Tiles(runs, n) && c.alloc == Allocated(runs) && ChunksOk(c) && IsLive(c, a) && IsLive(c, b) && a < b
    ensures a + SizeAt(c, a) <= b
  {
    hide Count, Reserved, ChunkSize;
    var p, q := a / PAGESIZE, b / PAGESIZE;
    assert ChunkOk(c, p) && ChunkOk(c, q);
    BlockInRun(c, a);
    BlockInRun(c, b);
    if p != q {
      assert p < q && End(runs, p) <= q;
    } else if p in c.shifts {
      var shift := c.shifts[p];
      AddrBack(a, shift);
      AddrBack(b, shift);
      var i, j := a % PAGESIZE / ChunkSize(shift), b % PAGESIZE / ChunkSize(shift);
      if i < j { ChunksApart(p, i, j, shift); } else if j < i { ChunksApart(p, j, i, shift); }
    }
  }

  /** No live block overlaps the bitmap at the start of its SMALL page. */
  lemma BitmapClear(c: Chunks, a: int)
    requires IsLive(c, a) && a / PAGESIZE in c.shifts && MINSHIFT <= c.shifts[a / PAGESIZE] < EXACTSHIFT
    ensures a / PAGESIZE * PAGESIZE + Count(c.shifts[a / PAGESIZE]) / 8 <= a
  {
    var p := a / PAGESIZE;
    var shift := c.shifts[p];
    var i := a % PAGESIZE / ChunkSize(shift);
    BitmapFits(shift);
    AddrBack(a, shift);
    ChunksUpTo(Reserved(shift), i, shift);
  }

  lemma ChunksUpTo(r: nat, i: nat, shift: nat)
    requires r <= i
    ensures r * ChunkSize(shift) <= i * ChunkSize(shift)
  {
  }

  // ---------- Counting ----------

  ghost function UsedIn(c: Chunks, n: nat, shift: nat): set<int> {
    set a | a in Live(c, n) && a / PAGESIZE in c.shifts && c.shifts[a / PAGESIZE] == shift
  }

  ghost function PagesIn(c: Chunks, shift: nat): set<int> { set p | p in c.shifts && c.shifts[p] == shift }

  function Capacity(shift: nat): nat { if Count(shift) <= Reserved(shift) then 0 else Count(shift) - Reserved(shift) }

  /** used and total of a slot count its live chunks and its pages' chunks. */
  ghost predicate SlotOk(c: Chunks, n: nat, used: int, total: int, slot: nat) {
    used == |UsedIn(c, n, slot + 3)| && total == Capacity(slot + 3) * |PagesIn(c, slot + 3)|
  }

  ghost predicate CountsOk(c: Chunks, n: nat, used: seq<int>, total: seq<int>) {
    |used| == |total| == 9 && forall slot :: 0 <= slot < 9 ==> SlotOk(c, n, used[slot], total[slot], slot)
  }

  /** One chunk more, or one chunk less, in a slot's page. */
  lemma CountChunk(c: Chunks, c': Chunks, n: nat, a: int, size: nat, used: seq<int>, total: seq<int>)
    requires CountsOk(c, n, used, total) && c'.shifts == c.shifts
    requires a !in Live(c, n) && Live(c', n) == Live(c, n)[a := size]
    requires a / PAGESIZE in c.shifts && MINSHIFT <= c.shifts[a / PAGESIZE] <= MAXSHIFT
    ensures var slot := c.shifts[a / PAGESIZE] - 3; CountsOk(c', n, used[slot := used[slot] + 1], total)
  {
    hide Live, Capacity;
    var shift := c.shifts[a / PAGESIZE];
    var used' := used[shift - 3 := used[shift - 3] + 1];
    forall slot | 0 <= slot < 9 ensures SlotOk(c', n, used'[slot], total[slot], slot) {
      assert SlotOk(c, n, used[slot], total[slot], slot) && PagesIn(c', slot + 3) == PagesIn(c, slot + 3);
      assert UsedIn(c', n, slot + 3) == UsedIn(c, n, slot + 3) + if slot + 3 == shift then {a} else {};
    }
  }

  lemma CountChunkGone(c: Chunks, c': Chunks, n: nat, a: int, used: seq<int>, total: seq<int>)
    requires CountsOk(c, n, used, total) && c'.shifts == c.shifts
    requires a in Live(c, n) && Live(c', n) == Live(c, n) - {a}
    requires a / PAGESIZE in c.shifts && MINSHIFT <= c.shifts[a / PAGESIZE] <= MAXSHIFT
    ensures var slot := c.shifts[a / PAGESIZE] - 3; CountsOk(c', n, used[slot := used[slot] - 1], total)
  {
    hide Live, Capacity;
    var shift := c.shifts[a / PAGESIZE];
    var used' := used[shift - 3 := used[shift - 3] - 1];
    forall slot | 0 <= slot < 9 ensures SlotOk(c', n, used'[slot], total[slot], slot) {
      assert SlotOk(c, n, used[slot], total[slot], slot) && PagesIn(c', slot + 3) == PagesIn(c, slot + 3);
      assert UsedIn(c', n, slot + 3) == UsedIn(c, n, slot + 3) - if slot + 3 == shift then {a} else {};
    }
  }

  /** A run of pages that is no chunk page counts in no slot. */
  lemma CountRun(c: Chunks, c': Chunks, n: nat, p: int, used: seq<int>, total: seq<int>)
    requires CountsOk(c, n, used, total) && c'.shifts == c.shifts && p !in c.shifts
    requires Live(c', n) - {p * PAGESIZE} == Live(c, n) - {p * PAGESIZE}
    ensures CountsOk(c', n, used, total)
  {
    hide Live, Capacity;
    var a0 := p * PAGESIZE;
    assert a0 / PAGESIZE == p;
    forall a | a != a0 ensures a in Live(c', n) <==> a in Live(c, n) {
      assert a in Live(c', n) - {a0} <==> a in Live(c, n) - {a0};
    }
    forall slot | 0 <= slot < 9 ensures SlotOk(c', n, used[slot], total[slot], slot) {
      assert SlotOk(c, n, used[slot], total[slot], slot) && PagesIn(c', slot + 3) == PagesIn(c, slot + 3);
      assert UsedIn(c', n, slot + 3) == UsedIn(c, n, slot + 3);
    }
  }

  ghost predicate NoneOn(c: Chunks, n: nat, p: int) { forall b :: b in Live(c, n) ==> b / PAGESIZE != p }

  lemma OneMore(k: nat, m: nat)
    ensures k * (m + 1) == k * m + k
  {
  }

  lemma PageSets(c: Chunks, c': Chunks, n: nat, p: int, a: int, shift: nat, sh: nat)
    requires p !in c.shifts && c'.shifts == c.shifts[p := shift] && a / PAGESIZE == p && NoneOn(c, n, p)
    requires Live(c', n) == Live(c, n)[a := ChunkSize(shift)]
    ensures PagesIn(c', sh) == PagesIn(c, sh) + if sh == shift then {p} else {}
    ensures UsedIn(c', n, sh) == UsedIn(c, n, sh) + if sh == shift then {a} else {}
    ensures p !in PagesIn(c, sh) && a !in UsedIn(c, n, sh)
  {
    hide Live;
    forall b ensures b in UsedIn(c', n, sh) <==> b in UsedIn(c, n, sh) || (sh == shift && b == a) {
    }
  }

  lemma PageSlot(c: Chunks, c': Chunks, n: nat, p: int, a: int, shift: nat, used: int, total: int, slot: nat)
    requires SlotOk(c, n, used, total, slot) && p !in c.shifts && c'.shifts == c.shifts[p := shift] && a / PAGESIZE == p
    requires NoneOn(c, n, p)
    requires Live(c', n) == Live(c, n)[a := ChunkSize(shift)]
    ensures if slot + 3 == shift then SlotOk(c', n, used + 1, total + Capacity(shift), slot)
      else SlotOk(c', n, used, total, slot)
  {
    hide Live, Capacity, UsedIn, PagesIn, NoneOn;
    PageSets(c, c', n, p, a, shift, slot + 3);
    OneMore(Capacity(shift), |PagesIn(c, shift)|);
  }

  lemma CountPage(c: Chunks, c': Chunks, n: nat, p: int, a: int, shift: nat, used: seq<int>, total: seq<int>)
    requires CountsOk(c, n, used, total) && MINSHIFT <= shift <= MAXSHIFT && p !in c.shifts
    requires c'.shifts == c.shifts[p := shift]
    requires Live(c', n) == Live(c, n)[a := ChunkSize(shift)] && a / PAGESIZE == p && NoneOn(c, n, p)
    ensures CountsOk(c', n, used[shift - 3 := used[shift - 3] + 1],
      total[shift - 3 := total[shift - 3] + Capacity(shift)])
  {
    hide Live, Capacity, NoneOn, SlotOk;
    var used', total' := used[shift - 3 := used[shift - 3] + 1], total[shift - 3 := total[shift - 3] + Capacity(shift)];
    forall slot | 0 <= slot < 9 ensures SlotOk(c', n, used'[slot], total'[slot], slot) {
      PageSlot(c, c', n, p, a, shift, used[slot], total[slot], slot);
    }
  }

  lemma CountPageGone(c: Chunks, c': Chunks, n: nat, p: int, used: seq<int>, total: seq<int>)
    requires CountsOk(c, n, used, total) && p in c.shifts && MINSHIFT <= c.shifts[p] <= MAXSHIFT
    requires c'.shifts == c.shifts - {p}
    requires Live(c', n) == Live(c, n) && NoneOn(c, n, p)
    ensures var slot := c.shifts[p] - 3; CountsOk(c', n, used, total[slot := total[slot] - Capacity(c.shifts[p])])
  {
    hide Live, Capacity;
    var shift := c.shifts[p];
    var total' := total[shift - 3 := total[shift - 3] - Capacity(shift)];
    forall slot | 0 <= slot < 9 ensures SlotOk(c', n, used[slot], total'[slot], slot) {
      assert SlotOk(c, n, used[slot], total[slot], slot);
      assert PagesIn(c', slot + 3) == PagesIn(c, slot + 3) - if slot + 3 == shift then {p} else {};
      assert UsedIn(c', n, slot + 3) == UsedIn(c, n, slot + 3);
      OneMore(Capacity(shift), |PagesIn(c', shift)|);
    }
  }

  // ---------- How descriptors and lists record chunk pages ----------

  ghost predicate HasClear(flags: seq<bool>) { exists i :: 0 <= i < |flags| && !flags[i] }

  /** The descriptor of a chunk page states its kind and, but for EXACT pages, its shift. */
  ghost predicate PageOk(s: Pages, c: Chunks, p: int) {
    p in c.alloc ==>
      0 <= p < |s| && (p in c.shifts <==> s[p].kind != PAGE)
      && (p in c.shifts ==>
        c.shifts[p] >= 2 && s[p].kind == KindOf(c.shifts[p] - 2) && (s[p].kind != EXACT ==> s[p].slab == c.shifts[p]))
  }

  ghost predicate SlotLists(lists: seq<seq<nat>>, c: Chunks) {
    |lists| == LISTS
    && forall g, x :: 1 <= g < LISTS ==>
      (x in lists[g] <==> x in c.shifts && c.shifts[x] == g + 2 && 0 <= x < |c.maps| && HasClear(c.maps[x]))
  }

  ghost predicate PagesOk(s: Pages, c: Chunks) { forall p {:trigger PageOk(s, c, p)} :: PageOk(s, c, p) }

  /** The chunk pages match their descriptors, and a slot's list holds its pages with a chunk free. */
  ghost predicate Matched(s: Pages, lists: seq<seq<nat>>, c: Chunks) {
    ChunksOk(c) && PagesOk(s, c) && SlotLists(lists, c)
  }

  // ---------- Each operation keeps chunk pages, descriptors and lists matched ----------

  ghost predicate SameWords(s: Pages, s': Pages, alloc: map<int, nat>) {
    |s| == |s'| && forall q :: q in alloc ==> 0 <= q < |s| && s'[q].slab == s[q].slab && s'[q].kind == s[q].kind
  }

  lemma SameWordsOf(s: Pages, s': Pages, runs: Runs)
    requires SameBusy(s, s', runs)
    ensures SameWords(s, s', Allocated(runs))
  {
  }

  lemma MatchRun(s: Pages, s': Pages, lists: seq<seq<nat>>, lists': seq<seq<nat>>, c: Chunks, p: int, k: nat)
    requires Matched(s, lists, c) && SameWords(s, s', c.alloc) && p !in c.alloc && 0 <= p < |s'| && s'[p].kind == PAGE
    requires |lists'| == LISTS && forall g :: 1 <= g < LISTS ==> lists'[g] == lists[g]
    ensures Matched(s', lists', WithRun(c, p, k))
  {
    var c' := WithRun(c, p, k);
    assert ChunkOk(c, p);
    forall q ensures ChunkOk(c', q) && PageOk(s', c', q) {
      assert ChunkOk(c, q) && PageOk(s, c, q);
      assert forall i :: LiveChunk(c', q, i) <==> LiveChunk(c, q, i);
    }
  }

  lemma MatchRunGone(s: Pages, s': Pages, lists: seq<seq<nat>>, lists': seq<seq<nat>>, c: Chunks, p: int)
    requires Matched(s, lists, c) && p !in c.shifts && SameWords(s, s', c.alloc - {p})
    requires |lists'| == LISTS && forall g, x :: 1 <= g < LISTS ==> (x in lists'[g] <==> x in lists[g] && x != p)
    ensures Matched(s', lists', WithoutRun(c, p))
  {
    var c' := WithoutRun(c, p);
    forall q ensures ChunkOk(c', q) && PageOk(s', c', q) {
      assert ChunkOk(c, q) && PageOk(s, c, q);
      assert forall i :: LiveChunk(c', q, i) <==> LiveChunk(c, q, i);
    }
  }

  /** Setting or clearing a flag of page p; p is listed afterwards exactly when it has a chunk free. */
  lemma MatchFlag(s: Pages, s': Pages, lists: seq<seq<nat>>, lists': seq<seq<nat>>, c: Chunks, p: int, i: nat, v: bool,
                  j: int)
    requires Matched(s, lists, c) && SameWords(s, s', c.alloc) && p in c.shifts && 0 <= p < |c.maps|
    requires Reserved(c.shifts[p]) <= i < |c.maps[p]|
    requires LiveChunk(WithFlag(c, p, i, v), p, j)
    requires |lists'| == LISTS && forall g, x :: 1 <= g < LISTS && x != p ==> (x in lists'[g] <==> x in lists[g])
    requires forall g :: 1 <= g < LISTS ==> (p in lists'[g] <==> c.shifts[p] == g + 2 && HasClear(c.maps[p][i := v]))
    ensures Matched(s', lists', WithFlag(c, p, i, v))
  {
    hide Count, Reserved, KindOf, HasClear;
    var c' := WithFlag(c, p, i, v);
    forall q ensures ChunkOk(c', q) && PageOk(s', c', q) {
      assert ChunkOk(c, q) && PageOk(s, c, q);
      if q != p { assert forall k :: LiveChunk(c', q, k) <==> LiveChunk(c, q, k); }
    }
  }

  /** A page just allocated becomes a chunk page, alone in its slot's list. */
  lemma MatchPage(s: Pages, s': Pages, lists: seq<seq<nat>>, lists': seq<seq<nat>>, c: Chunks, p: int, shift: nat,
                  flags: seq<bool>)
    requires Matched(s, lists, c) && SameWords(s, s', c.alloc) && p !in c.alloc && 0 <= p < |c.maps| && p < |s'|
    requires MINSHIFT <= shift <= MAXSHIFT && FreshFlags(flags, shift)
    requires s'[p].kind == KindOf(shift - 2) && s'[p].slab == shift
    requires |lists'| == LISTS && lists[shift - 2] == [] && p !in lists[shift - 2] && lists'[shift - 2] == [p]
    requires forall g :: 1 <= g < LISTS && g != shift - 2 ==> lists'[g] == lists[g]
    ensures Matched(s', lists', WithPage(c, p, shift, flags))
  {
    var c', r := WithPage(c, p, shift, flags), Reserved(shift);
    assert r + 1 < Count(shift);
    assert flags[r] && !flags[r + 1] && LiveChunk(c', p, r);
    hide Count, Reserved;
    assert ChunkOk(c, p);
    forall q ensures ChunkOk(c', q) && PageOk(s', c', q) {
      assert ChunkOk(c, q) && PageOk(s, c, q);
      if q != p { assert forall k :: LiveChunk(c', q, k) <==> LiveChunk(c, q, k); }
    }
  }

  /** The last chunk of page p goes, and the page with it. */
  lemma MatchPageGone(s: Pages, s': Pages, lists: seq<seq<nat>>, lists': seq<seq<nat>>, c: Chunks, p: int, i: nat)
    requires Matched(s, lists, c) && p in c.shifts && 0 <= p < |c.maps| && i < |c.maps[p]|
    requires SameWords(s, s', c.alloc - {p})
    requires |lists'| == LISTS && forall g, x :: 1 <= g < LISTS ==> (x in lists'[g] <==> x in lists[g] && x != p)
    ensures Matched(s', lists', WithoutRun(WithFlag(c, p, i, false), p))
  {
    hide Count, Reserved, KindOf, HasClear;
    var c' := WithoutRun(WithFlag(c, p, i, false), p);
    forall q ensures ChunkOk(c', q) && PageOk(s', c', q) {
      assert ChunkOk(c, q) && PageOk(s, c, q);
      if q != p { assert forall k :: LiveChunk(c', q, k) <==> LiveChunk(c, q, k); }
    }
  }

  lemma KeepMatched(s: Pages, s': Pages, lists: seq<seq<nat>>, lists': seq<seq<nat>>, c: Chunks)
    requires Matched(s, lists, c) && SameWords(s, s', c.alloc) && |lists'| == LISTS
    requires forall g :: 1 <= g < LISTS ==> lists'[g] == lists[g]
    ensures Matched(s', lists', c)
  {
    forall p ensures PageOk(s', c, p) { assert PageOk(s, c, p); }
  }

  lemma ChunkOkAt(s: Pages, lists: seq<seq<nat>>, c: Chunks, p: int)
    requires Matched(s, lists, c)
    ensures ChunkOk(c, p) && PageOk(s, c, p) && (p in c.shifts ==> p in c.alloc)
  {
  }

  lemma SlotPagesAllocated(s: Pages, n: nat, runs: Runs, lists: seq<seq<nat>>)
    requires Recorded(s, n, runs, lists, NIL)
    ensures |lists| == LISTS && forall g, x :: 1 <= g < LISTS && x in lists[g] ==> x in Allocated(runs)
  {
    forall g, x | 1 <= g < LISTS && x in lists[g] ensures x in Allocated(runs) {
      var i :| 0 <= i < |lists[g]| && lists[g][i] == x;
      BusyChunk(s, n, runs, lists, g, i);
    }
  }

  lemma EmptySlab(s: Pages, runs: Runs, lists: seq<seq<nat>>, c: Chunks, n: nat, used: seq<int>, total: seq<int>)
    requires Recorded(s, n, runs, lists, NIL) && Allocated(runs) == map[] && c.alloc == map[] && c.shifts == map[]
    requires |used| == |total| == 9 && forall i :: 0 <= i < 9 ==> used[i] == 0 && total[i] == 0
    ensures Matched(s, lists, c) && CountsOk(c, n, used, total) && Live(c, n) == map[]
  {
    forall p ensures ChunkOk(c, p) && PageOk(s, c, p) {
    }
    SlotPagesAllocated(s, n, runs, lists);
    forall slot | 0 <= slot < 9 ensures SlotOk(c, n, used[slot], total[slot], slot) {
      assert UsedIn(c, n, slot + 3) == {} && PagesIn(c, slot + 3) == {};
    }
  }

  /** A page in a slot's list is a chunk page of that slot with a chunk free. */
  lemma ListedChunk(s: Pages, lists: seq<seq<nat>>, c: Chunks, shift: nat, i: nat)
    requires Matched(s, lists, c) && MINSHIFT <= shift <= MAXSHIFT && |lists| == LISTS && i < |lists[shift - 2]|
    ensures var p := lists[shift - 2][i];
      p in c.shifts && c.shifts[p] == shift && p < |c.maps| && HasClear(c.maps[p]) && ChunkOk(c, p)
      && |c.maps[p]| == Count(shift) && (shift < EXACTSHIFT ==> |c.maps[p]| % 64 == 0)
  {
    assert ChunkOk(c, lists[shift - 2][i]);
  }

  lemma ClearNotReserved(c: Chunks, p: int, i: nat)
    requires p in c.shifts && ChunkOk(c, p) && i < |c.maps[p]| && !c.maps[p][i]
    ensures Reserved(c.shifts[p]) <= i < Count(c.shifts[p])
  {
  }

  lemma FlagNowSet(c: Chunks, p: int, i: nat)
    requires p in c.shifts && ChunkOk(c, p) && Reserved(c.shifts[p]) <= i < |c.maps[p]|
    ensures LiveChunk(WithFlag(c, p, i, true), p, i)
  {
  }

  lemma SlotMembers(s: Pages, lists: seq<seq<nat>>, c: Chunks, p: int)
    requires Matched(s, lists, c) && |lists| == LISTS && p in c.shifts && 0 <= p < |c.maps|
    ensures forall g :: 1 <= g < LISTS ==> (p in lists[g] <==> c.shifts[p] == g + 2 && HasClear(c.maps[p]))
  {
  }

  lemma FreshFlagsOf(shift: nat)
    ensures FreshFlags(seq(Count(shift), i => i <= Reserved(shift)), shift)
  {
  }

  lemma ReservedFits(shift: nat)
    requires MINSHIFT <= shift <= MAXSHIFT
    ensures Reserved(shift) + 1 < Count(shift) && Capacity(shift) == Count(shift) - Reserved(shift)
  {
  }

  /** A page just taken from the page allocator was nobody's and is in no list. */
  lemma NewPageFacts(s: Pages, s1: Pages, n: nat, lists: seq<seq<nat>>, runs1: Runs, lists1: seq<seq<nat>>, c: Chunks,
                     p: nat)
    requires Matched(s, lists, c) && PoolOk(s1, n, runs1, lists1) && |c.maps| == n
    requires p !in c.alloc && Allocated(runs1) == c.alloc[p := 1] && p < |s1| && s1[p].next == NIL
    ensures p < n && p in runs1 && !runs1[p].free && runs1[p].len == 1 && !Listed(lists1, p)
    ensures p !in c.shifts && ChunkOk(c, p) && NoneOn(c, n, p)
  {
    hide Lists, RunOk, LiveChunk;
    assert p in Allocated(runs1);
    assert ChunkOk(c, p) && Follows(runs1, n, p);
    NextIffListed(s1, n, runs1, lists1, NIL, p);
  }

  /** A page cut up adds its first chunk after the bitmap to the live blocks, and to the counters. */
  lemma CutPage(c: Chunks, n: nat, p: int, shift: nat, flags: seq<bool>, used: seq<int>, total: seq<int>)
    requires CountsOk(c, n, used, total) && 0 <= p < n == |c.maps| && p !in c.alloc && p !in c.shifts && ChunkOk(c, p)
    requires NoneOn(c, n, p) && FreshFlags(flags, shift) && MINSHIFT <= shift <= MAXSHIFT
    ensures var a, c' := Addr(p, Reserved(shift), shift), WithPage(c, p, shift, flags);
      0 <= a && a / PAGESIZE == p && a !in Live(c, n) && Live(c', n) == Live(c, n)[a := ChunkSize(shift)]
      && CountsOk(c', n, used[shift - 3 := used[shift - 3] + 1], total[shift - 3 := total[shift - 3] + Capacity(shift)])
  {
    hide Live, NoneOn, CountsOk, ChunkOk, FreshFlags, ChunkSize, Count, Reserved, Capacity;
    ReservedFits(shift);
    AddrParts(p, Reserved(shift), shift);
    PageAdded(c, n, p, shift, flags);
    CountPage(c, WithPage(c, p, shift, flags), n, p, Addr(p, Reserved(shift), shift), shift, used, total);
  }

  lemma SameWordsAfter(s: Pages, s1: Pages, s2: Pages, alloc: map<int, nat>, runs1: Runs, p: int, slab: nat, kind: nat)
    requires SameWords(s, s1, alloc) && Allocated(runs1) == alloc[p := 1] && p !in alloc && 0 <= p < |s1|
    requires SameBusy(s1[p := Page(slab, NIL, NIL, kind)], s2, runs1)
    ensures SameWords(s, s2, alloc)
  {
    forall q | q in alloc ensures q in runs1 && !runs1[q].free {
      assert q in Allocated(runs1);
    }
  }

  // ---------- What the allocator's entry points read off ----------

  function PagesFor(size: nat): nat { size / PAGESIZE + if size % PAGESIZE != 0 then 1 else 0 }

  lemma PagesForEnough(size: nat)
    requires size > 0
    ensures PagesFor(size) >= 1 && PagesFor(size) * PAGESIZE >= size > (PagesFor(size) - 1) * PAGESIZE
  {
  }

  /** The slot that serves a small request: the smallest chunk size not below it. */
  ghost predicate SlotOf(size: nat, shift: nat) {
    MINSHIFT <= shift <= MAXSHIFT && size <= ChunkSize(shift) && forall k :: MINSHIFT <= k < shift ==>
      ChunkSize(k) < size
  }

  lemma SlotUnique(size: nat, shift: nat)
    requires SlotOf(size, shift)
    ensures forall k :: SlotOf(size, k) ==> k == shift
  {
    hide ChunkSize;
  }

  ghost predicate SlotFull(c: Chunks, shift: nat) {
    forall p :: p in c.shifts && c.shifts[p] == shift && 0 <= p < |c.maps| ==> !HasClear(c.maps[p])
  }

  lemma SlotFullIff(s: Pages, lists: seq<seq<nat>>, c: Chunks, shift: nat)
    requires Matched(s, lists, c) && |lists| == LISTS && MINSHIFT <= shift <= MAXSHIFT
    ensures SlotFull(c, shift) <==> lists[shift - 2] == []
  {
    hide HasClear;
    if lists[shift - 2] != [] {
      var x := lists[shift - 2][0];
      assert x in lists[shift - 2];
      assert x in c.shifts && c.shifts[x] == shift && HasClear(c.maps[x]);
    }
  }

  lemma SlotFirst(s: Pages, n: nat, runs: Runs, lists: seq<seq<nat>>, g: nat)
    requires Recorded(s, n, runs, lists, NIL) && g < LISTS
    ensures |lists| == LISTS && |s| == n + LISTS && 0 <= s[n + g].next < |s|
    ensures lists[g] == [] <==> s[s[n + g].next].next == s[n + g].next
    ensures lists[g] != [] ==> lists[g][0] == s[n + g].next
  {
    hide Tiles, RunOk, Lists, ListsMatch;
    SlotHead(s, n, runs, lists, g);
    if lists[g] != [] { ListedPage(s, n, lists, g, 0); }
  }

  lemma NotLive(c: Chunks, n: nat, a: int)
    ensures a !in Live(c, n) ==> Live(c, n) - {a} == Live(c, n)
  {
    hide Live;
  }

  lemma FreedWords(s: Pages, s': Pages, runs': Runs, alloc: map<int, nat>, p: int)
    requires SameBusy(s, s', runs') && Allocated(runs') == alloc - {p}
    ensures SameWords(s, s', alloc - {p})
  {
    forall q | q in alloc - {p} ensures q in runs' && !runs'[q].free {
      assert q in Allocated(runs');
    }
  }

  lemma LiveIff(c: Chunks, n: nat, a: int)
    ensures a in Live(c, n) <==> 0 <= a < n * PAGESIZE && IsLive(c, a)
  {
  }

  lemma BitmapInPage(shift: nat)
    ensures Count(shift) / 8 <= PAGESIZE
  {
  }

  lemma LiveSize(c: Chunks, n: nat, a: int)
    requires a in Live(c, n)
    ensures IsLive(c, a) && a / PAGESIZE in c.alloc && Live(c, n)[a] == SizeAt(c, a)
  {
  }

  lemma ShiftOf(s: Pages, c: Chunks, p: int)
    requires p in c.shifts && ChunkOk(c, p) && PageOk(s, c, p)
    ensures 0 <= p < |s| && c.shifts[p] == if s[p].kind == EXACT then EXACTSHIFT else s[p].slab
  {
    hide Count, Reserved;
  }

  /** A chunk page is in no list exactly when it has no chunk free. */
  lemma FullIffUnlisted(s: Pages, n: nat, runs: Runs, lists: seq<seq<nat>>, c: Chunks, p: nat)
    requires PoolOk(s, n, runs, lists) && Matched(s, lists, c) && c.alloc == Allocated(runs) && p in c.shifts
    ensures p < |s| && p < |c.maps| && (s[p].next == NIL <==> !HasClear(c.maps[p]))
  {
    hide Lists, RunOk, HasClear;
    assert ChunkOk(c, p) && PageOk(s, c, p) && p in Allocated(runs);
    NextIffListed(s, n, runs, lists, NIL, p);
    var g := c.shifts[p] - 2;
    assert p !in lists[0];
    assert HasClear(c.maps[p]) <==> p in lists[g];
  }

  /** What is known of a page when one of its chunks is freed. */
  lemma DropFacts(s: Pages, n: nat, runs: Runs, lists: seq<seq<nat>>, c: Chunks, p: nat)
    requires PoolOk(s, n, runs, lists) && Matched(s, lists, c) && c.alloc == Allocated(runs)
    requires p in c.shifts && |c.maps| == n && p < |c.maps|
    ensures MINSHIFT <= c.shifts[p] <= MAXSHIFT && p < n <= |s| && p in runs && !runs[p].free && runs[p].len == 1
    ensures s[p].kind == KindOf(c.shifts[p] - 2) && (Listed(lists, p) <==> HasClear(c.maps[p]))
  {
    hide Matched, PoolOk, Recorded, HasClear, Count, ChunkSize, Reserved, KindOf, Tiles, Listed, Live;
    ChunkOkAt(s, lists, c, p);
    PoolFacts(s, n, runs, lists);
    FullIffUnlisted(s, n, runs, lists, c, p);
    NextIffListed(s, n, runs, lists, NIL, p);
  }

  lemma LiveChunkAddr(c: Chunks, n: nat, p: int, i: nat)
    requires ChunkOk(c, p) && LiveChunk(c, p, i) && p < n
    ensures Addr(p, i, c.shifts[p]) in Live(c, n) && Addr(p, i, c.shifts[p]) / PAGESIZE == p
  {
    hide Reserved, ChunkSize, Count;
    AddrParts(p, i, c.shifts[p]);
    assert Inside(Addr(p, i, c.shifts[p]), n);
  }

  lemma LiveOne(c: Chunks, n: nat, p: int, i: nat)
    requires ChunkOk(c, p) && p in c.shifts && p < n && i < |c.maps[p]| && Reserved(c.shifts[p]) <= i && c.maps[p][i]
    ensures Addr(p, i, c.shifts[p]) in Live(c, n) && Addr(p, i, c.shifts[p]) / PAGESIZE == p
  {
    hide Reserved, Count, ChunkSize, Live;
    LiveChunkAddr(c, n, p, i);
  }

  /** An allocated page run holds a live block: itself, or a chunk of it. */
  lemma PageHasBlock(c: Chunks, n: nat, p: int)
    requires p in c.alloc && ChunkOk(c, p) && 0 <= p < n
    ensures exists a :: a in Live(c, n) && a / PAGESIZE == p
  {
    if p in c.shifts {
      var i :| LiveChunk(c, p, i);
      LiveChunkAddr(c, n, p, i);
    } else {
      var a := p * PAGESIZE;
      PageParts(p, 0);
      assert Inside(a, n) && IsLive(c, a);
      LiveIff(c, n, a);
    }
  }

  lemma NoPage(c: Chunks, p: int)
    requires ChunkOk(c, p) && p < 0
    ensures p !in c.shifts
  {
  }

  lemma NotMatched(s: Pages, lists: seq<seq<nat>>, c: Chunks, p: int)
    requires !ChunkOk(c, p)
    ensures !Matched(s, lists, c)
  {
  }

  ghost predicate AnySet(flags: seq<bool>, r: nat) { exists i :: r <= i < |flags| && flags[i] }

  lemma NoneLeft(c: Chunks, n: nat, p: int)
    requires p in c.shifts && 0 <= p < |c.maps| && !AnySet(c.maps[p], Reserved(c.shifts[p]))
    ensures NoneOn(c, n, p) && forall i :: !LiveChunk(c, p, i)
  {
    hide Count, ChunkSize, Reserved;
  }

  lemma OneLeft(c: Chunks, p: int) returns (i: int)
    requires p in c.shifts && 0 <= p < |c.maps| && AnySet(c.maps[p], Reserved(c.shifts[p]))
    ensures LiveChunk(c, p, i)
  {
    i :| Reserved(c.shifts[p]) <= i < |c.maps[p]| && c.maps[p][i];
  }

  lemma NowClear(flags: seq<bool>, i: nat)
    requires i < |flags|
    ensures HasClear(flags[i := false])
  {
    assert !flags[i := false][i];
  }

  lemma FreedWords2(s: Pages, s1: Pages, s2: Pages, runs: Runs, runs': Runs, p: int)
    requires SameBusy(s, s1, runs) && SameBusy(s1, s2, runs') && Allocated(runs') == Allocated(runs) - {p}
    ensures SameWords(s, s2, Allocated(runs) - {p})
  {
    SameWordsOf(s, s1, runs);
    FreedWords(s1, s2, runs', Allocated(runs), p);
  }

  // ---------- Freeing a chunk that holds the bitmap ----------

  /** The flags of a page after memset has zeroed chunk i: flag k of a SMALL page is kept in byte k / 8 of the page. */
  function Zeroed(flags: seq<bool>, i: nat, shift: nat): (r: seq<bool>)
    ensures |r| == |flags|
  {
    seq(|flags|, k requires 0 <= k < |flags| => flags[k] && !(shift < EXACTSHIFT && k / 8 / ChunkSize(shift) == i))
  }

  /** Zeroing a chunk after the bitmap leaves the flags alone. */
  lemma ZeroedAfterBitmap(flags: seq<bool>, i: nat, shift: nat)
    requires MINSHIFT <= shift <= MAXSHIFT && |flags| == Count(shift) && Reserved(shift) <= i
    ensures Zeroed(flags, i, shift) == flags
  {
    if shift < EXACTSHIFT { BitmapFits(shift); }
  }

  /** No live chunk of a page goes when the flag of a bitmap chunk is cleared. */
  lemma ReservedClear(c: Chunks, p: int, i: nat)
    requires p in c.shifts && ChunkOk(c, p) && i < Reserved(c.shifts[p])
    ensures i < |c.maps[p]| && c.maps[p][i] && AnySet(c.maps[p][i := false], Reserved(c.shifts[p]))
  {
    ReservedFits(c.shifts[p]);
    var j :| LiveChunk(c, p, j);
    assert c.maps[p][i := false][j];
  }

  /** The chunks once bitmap chunk i of page p has been freed. */
  ghost function WithHole(c: Chunks, p: int, i: nat): Chunks
    requires 0 <= p < |c.maps| && i < |c.maps[p]| && p in c.shifts
  {
    c.(maps := c.maps[p := Zeroed(c.maps[p][i := false], i, c.shifts[p])])
  }

  lemma HoleAt(c: Chunks, p: int, i: nat)
    requires 0 <= p < |c.maps| && i < |c.maps[p]| && p in c.shifts
    ensures var flags := WithHole(c, p, i).maps[p]; |flags| == |c.maps[p]| && !flags[i] && HasClear(flags)
  {
    assert !WithHole(c, p, i).maps[p][i];
  }

  /** The flag of block a is kept in chunk i of page p. */
  ghost predicate FlagIn(c: Chunks, a: int, p: int, i: nat) {
    p in c.shifts && a / PAGESIZE == p && a % PAGESIZE / ChunkSize(c.shifts[p]) / 8 / ChunkSize(c.shifts[p]) == i
  }

  /** Every live block whose flag is kept in the freed bitmap chunk is forgotten, and no other. */
  lemma HoleForgets(c: Chunks, n: nat, p: int, i: nat)
    requires p in c.shifts && ChunkOk(c, p) && i < Reserved(c.shifts[p])
    ensures i < |c.maps[p]| && !ChunkOk(WithHole(c, p, i), p)
    ensures forall a :: a in Live(WithHole(c, p, i), n) <==> a in Live(c, n) && !FlagIn(c, a, p, i)
  {
    ReservedFits(c.shifts[p]);
    var c' := WithHole(c, p, i);
    assert !c'.maps[p][i];
    hide ChunkSize, Count;
    forall a ensures a in Live(c', n) <==> a in Live(c, n) && !FlagIn(c, a, p, i) {
      LiveIff(c, n, a);
      LiveIff(c', n, a);
    }
  }

  /** Once a bitmap chunk's flag is clear, the first clear flag is one of the bitmap's own, and its chunk
      begins inside the bitmap. */
  lemma FirstClearInBitmap(flags: seq<bool>, shift: nat, i: nat, j: nat, page: int)
    requires MINSHIFT <= shift <= MAXSHIFT && i < Reserved(shift) && |flags| == Count(shift) && i < |flags| && !flags[i]
    requires j < |flags| && forall k :: 0 <= k < j ==> flags[k]
    ensures j < Reserved(shift) && page * PAGESIZE <= Addr(page, j, shift) < page * PAGESIZE + Count(shift) / 8
  {
  }
}
