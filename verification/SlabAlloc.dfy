// The slab allocator of module/stl/src/stl_slab.c: whole pages for large requests, power-of-two
// chunks for small ones. Bitmap words are modelled as sequences of flags, one a chunk.
module SlabAllocs {
  import opened Arithmetic
  import opened SlabLists
  import opened SlabRuns
  import opened SlabRecords
  import opened SlabPools
  import opened SlabChunks
  import opened SlabWords

  lemma {:induction false} Pow2Grows(j: nat, k: nat)
    requires j <= k
    ensures Pow2(j) <= Pow2(k)
    decreases k
  {
    if j < k { Pow2Grows(j, k - 1); }
  }

  lemma SizesArePowers(k: nat)
    requires MINSHIFT <= k <= MAXSHIFT
    ensures ChunkSize(k) == Pow2(k)
  {
    assert Pow2(3) == 8;
    assert Pow2(4) == 16;
    assert Pow2(5) == 32;
    assert Pow2(6) == 64;
    assert Pow2(7) == 128;
    assert Pow2(8) == 256;
    assert Pow2(9) == 512;
    assert Pow2(10) == 1024;
    assert Pow2(11) == 2048;
  }

  /** The smallest chunk size that holds the request. */
  method ShiftFor(size: nat) returns (shift: nat)
    requires size <= MAXCHUNK
    ensures MINSHIFT <= shift <= MAXSHIFT && size <= ChunkSize(shift)
    ensures forall k :: MINSHIFT <= k < shift ==> ChunkSize(k) < size
  {
    hide Bracket, Pow2;
    if size > 8 {
      shift := 1;
      var s: nat := (size - 1) / 2;
      BracketStart(size - 1);
      while s != 0
        invariant shift >= 1 && Pow2(shift - 1) <= size - 1
        invariant Bracket(s, Pow2(shift), size - 1)
        decreases s
      {
        Halve(s, Pow2(shift), size - 1);
        Doubled(shift);
        shift := shift + 1;
        s := s / 2;
      }
      BracketEnd(Pow2(shift), size - 1);
      ShiftBounds(shift, size);
    } else {
      shift := MINSHIFT;
    }
  }

  /** s is the quotient of x by p. */
  ghost predicate Bracket(s: nat, p: nat, x: nat) { s * p <= x < (s + 1) * p }

  lemma BracketStart(x: nat)
    ensures Bracket(x / 2, Pow2(1), x) && Pow2(0) == 1
  {
    assert Pow2(1) == 2;
  }

  lemma BracketEnd(p: nat, x: nat)
    requires Bracket(0, p, x)
    ensures x < p
  {
  }

  lemma Doubled(k: nat)
    ensures Pow2(k + 1) == 2 * Pow2(k)
  {
  }

  lemma Halve(s: nat, p: nat, x: nat)
    requires Bracket(s, p, x) && s != 0
    ensures Bracket(s / 2, 2 * p, x) && p <= x
  {
    assert s == 2 * (s / 2) + s % 2;
    assert s / 2 * (2 * p) == (2 * (s / 2)) * p;
    assert (s / 2 + 1) * (2 * p) == (2 * (s / 2) + 2) * p;
    MulUp(2 * (s / 2), s, p);
    MulUp(s + 1, 2 * (s / 2) + 2, p);
    MulUp(1, s, p);
  }

  lemma MulUp(a: nat, b: nat, p: nat)
    requires a <= b
    ensures a * p <= b * p
  {
  }

  lemma ShiftBounds(shift: nat, size: nat)
    requires shift >= 1 && Pow2(shift - 1) <= size - 1 < Pow2(shift) && 8 < size <= MAXCHUNK
    ensures MINSHIFT < shift <= MAXSHIFT && size <= ChunkSize(shift)
    ensures forall k :: MINSHIFT <= k < shift ==> ChunkSize(k) < size
  {
    SizesArePowers(3);
    SizesArePowers(11);
    if shift <= 3 { Pow2Grows(shift, 3); }
    if shift > 11 { Pow2Grows(11, shift - 1); }
    SizesArePowers(shift);
    forall k | MINSHIFT <= k < shift ensures ChunkSize(k) < size {
      SizesArePowers(k);
      Pow2Grows(k, shift - 1);
    }
  }

  /** A block of that size at addr overlaps none of the blocks. */
  ghost predicate ClearOf(blocks: map<int, nat>, addr: int, size: nat) {
    forall b :: b in blocks ==> b + blocks[b] <= addr || addr + size <= b
  }

  /** The lists after page p is put at the front of list g if it was full. */
  ghost predicate Led(lists: seq<seq<nat>>, lists': seq<seq<nat>>, g: int, p: nat, full: bool) {
    |lists| == LISTS && 1 <= g < LISTS && lists' == if full then lists[g := [p] + lists[g]] else lists
  }

  class Slab {
    const pool: PagePool
    const words: array<seq<bv64>>
    const used: array<int>
    const total: array<int>
    ghost var shifts: map<int, nat>
    ghost var maps: seq<seq<bool>>

    ghost function View(): Chunks
      reads this, pool
    {
      Chunks(Allocated(pool.runs), shifts, maps)
    }

    ghost predicate Valid()
      reads this, pool, pool.pages, words, used, total
    {
      used != total && |maps| == words.Length == pool.n && pool.Valid() && used.Length == 9 && total.Length == 9
      && Stored(words[..], shifts, maps)
      && Matched(pool.pages[..], pool.lists, View()) && CountsOk(View(), pool.n, used[..], total[..])
    }

    /** The blocks handed out: address to size. */
    ghost function Blocks(): map<int, nat>
      reads this, pool
    {
      Live(View(), pool.n)
    }

    constructor (n: nat)
      requires 1 <= n && n + 1 < START
      ensures Valid() && fresh(pool) && fresh(pool.pages) && fresh(words) && fresh(used) && fresh(total)
      ensures Blocks() == map[]
    {
      pool := new PagePool(n);
      words := new seq<bv64>[n](_ => []);
      used := new int[9](_ => 0);
      total := new int[9](_ => 0);
      shifts, maps := map[], seq(n, _ => []);
      new;
      EmptySlab(pool.pages[..], pool.runs, pool.lists, View(), pool.n, used[..], total[..]);
    }

    /** A large request: whole pages. */
    method AllocRun(k: nat) returns (addr: int)
      requires Valid() && k >= 1
      modifies this, pool, pool.pages
      ensures Valid() && (addr == NIL <==> !Fits(old(pool.runs), pool.n, k))
      ensures addr == NIL ==> Blocks() == old(Blocks())
      ensures addr == NIL ==> Allocated(pool.runs) == old(Allocated(pool.runs))
      ensures addr != NIL ==> addr !in old(Blocks()) && Blocks() == old(Blocks())[addr := k * PAGESIZE]
                              && Allocated(pool.runs) == old(Allocated(pool.runs))[addr / PAGESIZE := k]
    {
      hide Matched, CountsOk, Live, Allocated, SameBusy, PoolOk, FreePages, SameWords, IsLive, ChunkOk, PageOk, Fits,
        AllFree, Holds, Stored;
      ghost var c, s, lists := View(), pool.pages[..], pool.lists;
      var page := pool.AllocPages(k);
      SameWordsOf(s, pool.pages[..], old(pool.runs));
      if page == NIL {
        KeepMatched(s, pool.pages[..], lists, pool.lists, c);
        addr := NIL;
      } else {
        ChunkOkAt(s, lists, c, page);
        RunAdded(c, pool.n, page, k);
        CountRun(c, WithRun(c, page, k), pool.n, page, used[..], total[..]);
        MatchRun(s, pool.pages[..], lists, pool.lists, c, page, k);
        addr := page * PAGESIZE;
      }
    }

    /** The page heads its slot's list and has a chunk free; nothing is said of its reserved chunks. */
    ghost predicate Open(page: nat, shift: nat)
      reads this, pool, pool.pages, words, used, total
    {
      && pool.Valid() && MINSHIFT <= shift <= MAXSHIFT && pool.lists[shift - 2] != []
        && pool.lists[shift - 2][0] == page
      && used.Length == 9 && page < |maps| == words.Length && Holds(words[page], shift, maps[page])
        && HasClear(maps[page])
    }

    /** Takes the first free chunk of the first page in the slot's list. */
    method TakeChunk(page: nat, shift: nat) returns (addr: int)
      requires Open(page, shift)
      modifies pool`lists, pool.pages, this`maps, words, used
      ensures addr >= 0
      ensures exists i: nat :: i < |old(maps[page])| && !old(maps[page])[i] && AllSet(old(maps[page]), 0, i)
                               && addr == Addr(page, i, shift) && maps == old(maps)[page := old(maps[page])[i := true]]
      ensures old(Valid()) ==> Valid() && addr !in old(Blocks()) && Blocks() == old(Blocks())[addr := ChunkSize(shift)]
    {
      hide Matched, CountsOk, Live, Allocated, SameBusy, PoolOk, FreePages, SameWords, IsLive, ChunkOk, PageOk,
        ChunkSize, Count, Reserved, HasClear, AllSet, LiveChunk, Tiles, Recorded, Loose, Holds, Stored;
      ghost var c, s, lists, valid := View(), pool.pages[..], pool.lists, Valid();
      PoolFacts(s, pool.n, pool.runs, lists);
      var taken, i, full := TakeBit(words[page], shift, maps[page]);
      ghost var before := words[..];
      words[page] := taken;
      maps := maps[page := maps[page][i := true]];
      if full {
        pool.Delist(page, shift - 2, 0);
      } else {
        SameBusyRefl(s, pool.n, pool.runs);
      }
      used[shift - 3] := used[shift - 3] + 1;
      addr := page * PAGESIZE + i * ChunkSize(shift);
      if valid {
        ListedChunk(s, lists, c, shift, 0);
        StoredSet(before, shifts, shifts, c.maps, page, taken, maps[page]);
        assert words[..] == before[page := taken];
        ClearNotReserved(c, page, i);
        FlagNowSet(c, page, i);
        SameWordsOf(s, pool.pages[..], pool.runs);
        AddrParts(page, i, shift);
        FlagSet(c, pool.n, page, i);
        CountChunk(c, WithFlag(c, page, i, true), pool.n, addr, ChunkSize(shift), old(used[..]), total[..]);
        SlotMembers(s, lists, c, page);
        MatchFlag(s, pool.pages[..], lists, pool.lists, c, page, i, true, i);
      }
    }

    /** Writes the words of a page just cut up. */
    method MarkFresh(page: nat, shift: nat)
      requires page < |maps| == words.Length && MINSHIFT <= shift <= MAXSHIFT && Stored(words[..], shifts, maps)
      modifies this`maps, words
      ensures |maps| == |old(maps)| && maps == old(maps)[page := maps[page]] && FreshFlags(maps[page], shift)
      ensures Stored(words[..], shifts[page := shift], maps)
    {
      hide Holds, Stored, Count, Reserved, FreshFlags;
      ghost var before, flags := words[..], seq(Count(shift), i => i <= Reserved(shift));
      var cut := FreshWords(shift);
      FreshFlagsOf(shift);
      words[page] := cut;
      StoredSet(before, shifts, shifts[page := shift], maps, page, cut, flags);
      assert words[..] == before[page := cut];
      maps := maps[page := flags];
    }

    /** Cuts a page up when the slot has no page with a chunk free. */
    method NewChunkPage(shift: nat) returns (addr: int)
      requires Valid() && MINSHIFT <= shift <= MAXSHIFT && pool.lists[shift - 2] == []
      modifies this, pool, pool.pages, words, used, total
      ensures Valid() && (addr == NIL <==> !Fits(old(pool.runs), pool.n, 1))
      ensures addr == NIL ==> Blocks() == old(Blocks()) && Allocated(pool.runs) == old(Allocated(pool.runs))
      ensures addr != NIL ==> addr !in old(Blocks()) && Blocks() == old(Blocks())[addr := ChunkSize(shift)]
                              && Allocated(pool.runs) == old(Allocated(pool.runs))[addr / PAGESIZE := 1]
    {
      hide Matched, CountsOk, Live, Allocated, SameBusy, PoolOk, FreePages, SameWords, IsLive, ChunkOk, PageOk,
        ChunkSize, Count, Reserved, Capacity, FreshFlags, NoneOn, HasClear, Fits, AllFree, Tiles, Recorded, Loose,
        KindOf, Listed, Holds, Stored;
      ghost var c, s, lists, runs := View(), pool.pages[..], pool.lists, pool.runs;
      PoolFacts(s, pool.n, runs, lists);
      var page := pool.AllocPages(1);
      ghost var s1 := pool.pages[..];
      SameWordsOf(s, s1, runs);
      if page == NIL {
        KeepMatched(s, s1, lists, pool.lists, c);
        addr := NIL;
        return;
      }
      NewPageFacts(s, s1, pool.n, lists, pool.runs, pool.lists, c, page);
      pool.EnlistFresh(page, shift - 2, shift);
      MarkFresh(page, shift);
      total[shift - 3] := total[shift - 3] + Capacity(shift);
      used[shift - 3] := used[shift - 3] + 1;
      addr := page * PAGESIZE + Reserved(shift) * ChunkSize(shift);
      shifts := shifts[page := shift];
      CutPage(c, pool.n, page, shift, maps[page], old(used[..]), old(total[..]));
      SameWordsAfter(s, s1, pool.pages[..], c.alloc, pool.runs, page, shift, KindOf(shift - 2));
      MatchPage(s, pool.pages[..], lists, pool.lists, c, page, shift, maps[page]);
    }

    /** A block of exactly the size that serves the request, apart from every live block, or NIL exactly
        when there is no room: too few consecutive free pages for a large request; for a small one, no
        chunk free in the slot's pages and no free page. A small request takes a page only when no page
        of its slot has a chunk free. */
    method Alloc(size: nat) returns (addr: int)
      requires Valid()
      modifies this, pool, pool.pages, words, used, total
      ensures Valid()
      ensures addr == NIL ==> Blocks() == old(Blocks())
      ensures addr != NIL ==> addr !in old(Blocks()) && addr in Blocks() && Blocks()[addr] >= size
                              && Blocks() == old(Blocks())[addr := Blocks()[addr]]
      ensures addr != NIL ==> ClearOf(old(Blocks()), addr, Blocks()[addr])
      ensures size > MAXCHUNK && addr != NIL ==>
        Blocks()[addr] == PagesFor(size) * PAGESIZE
        && Allocated(pool.runs) == old(Allocated(pool.runs))[addr / PAGESIZE := PagesFor(size)]
      ensures size <= MAXCHUNK && addr != NIL ==>
        forall shift :: SlotOf(size, shift) ==>
          Blocks()[addr] == ChunkSize(shift)
          && Allocated(pool.runs) == if SlotFull(old(View()), shift)
                                     then old(Allocated(pool.runs))[addr / PAGESIZE := 1] else old(Allocated(pool.runs))
      ensures addr == NIL ==> Allocated(pool.runs) == old(Allocated(pool.runs))
      ensures size > MAXCHUNK ==> (addr == NIL <==> !Fits(old(pool.runs), pool.n, PagesFor(size)))
      ensures size <= MAXCHUNK ==>
        (addr == NIL <==> !Fits(old(pool.runs), pool.n, 1)
                          && forall shift :: SlotOf(size, shift) ==> SlotFull(old(View()), shift))
    {
      hide Matched, CountsOk, Live, Allocated, PoolOk, FreePages, Fits, Tiles, Recorded, Loose, ChunkSize, Holds,
        Stored;
      if size > MAXCHUNK {
        PagesForEnough(size);
        addr := AllocRun(size / PAGESIZE + if size % PAGESIZE != 0 then 1 else 0);
        if addr != NIL { NewApart(this, old(Blocks()), addr); }
        return;
      }
      var shift := ShiftFor(size);
      SlotUnique(size, shift);
      PoolFacts(pool.pages[..], pool.n, pool.runs, pool.lists);
      ghost var c := View();
      SlotFullIff(pool.pages[..], pool.lists, c, shift);
      SlotFirst(pool.pages[..], pool.n, pool.runs, pool.lists, shift - 2);
      var page := pool.pages[pool.n + 1 + (shift - MINSHIFT)].next;
      if pool.pages[page].next != page {
        ListedChunk(pool.pages[..], pool.lists, c, shift, 0);
        StoredAt(words[..], shifts, maps, page);
        addr := TakeChunk(page, shift);
      } else {
        addr := NewChunkPage(shift);
      }
      if addr != NIL { NewApart(this, old(Blocks()), addr); }
    }

    /** Whether the chunk at `page` is one of those that hold the page's own bitmap. */
    ghost predicate Guarded(addr: int)
      reads this
    {
      var p := addr / PAGESIZE;
      p in shifts && addr % PAGESIZE % ChunkSize(shifts[p]) == 0
        && addr % PAGESIZE / ChunkSize(shifts[p]) < Reserved(shifts[p])
    }

    /** The page is full or heads its slot's list. */
    ghost predicate Leads(p: int)
      reads this, pool
    {
      && p in shifts && 0 <= p < |maps| && |pool.lists| == LISTS && MINSHIFT <= shifts[p] <= MAXSHIFT
      && (!HasClear(maps[p]) || (pool.lists[shifts[p] - 2] != [] && pool.lists[shifts[p] - 2][0] == p))
    }

    /** The flag of block a is kept in the chunk at addr. */
    ghost predicate FlagBeside(a: int, addr: int)
      reads this, pool
    {
      var p := addr / PAGESIZE;
      p in shifts && FlagIn(View(), a, p, addr % PAGESIZE / ChunkSize(shifts[p]))
    }

    /** What freeing the bitmap chunk at addr makes of chunks c, the lists and the counters: the flags kept in
        that chunk are cleared, a page that was full heads its slot's list, and one chunk less counts as used. */
    ghost predicate HoledAt(p: int, i: nat, c: Chunks, lists: seq<seq<nat>>, u: seq<int>, t: seq<int>)
      reads this, pool, pool.pages, words, used, total
    {
      && p in c.shifts && MINSHIFT <= c.shifts[p] <= MAXSHIFT && 0 <= p < pool.n == |maps| == words.Length == |c.maps|
      && pool.Valid() && Stored(words[..], shifts, maps) && used.Length == 9 == |u| && total[..] == t
      && used[..] == u[c.shifts[p] - 3 := u[c.shifts[p] - 3] - 1]
      && i < |c.maps[p]| == Count(c.shifts[p]) && View() == WithHole(c, p, i)
      && Led(lists, pool.lists, c.shifts[p] - 2, p, !HasClear(c.maps[p]))
    }

    ghost predicate Holed(addr: int, c: Chunks, lists: seq<seq<nat>>, u: seq<int>, t: seq<int>)
      reads this, pool, pool.pages, words, used, total
    {
      var p := addr / PAGESIZE;
      p in c.shifts && HoledAt(p, addr % PAGESIZE / ChunkSize(c.shifts[p]), c, lists, u, t)
    }

    /** Gives up a live block; any other address, except that of a bitmap chunk, changes nothing. A bitmap
        chunk is freed like any other, and no address but such a one makes the allocator invalid. */
    method Free(addr: int)
      requires Valid() && addr < pool.n * PAGESIZE
      modifies this, pool, pool.pages, words, used, total
      ensures Valid() <==> !old(Guarded(addr))
      ensures !old(Guarded(addr)) ==> Blocks() == old(Blocks()) - {addr}
      ensures old(Guarded(addr)) ==>
        && Holed(addr, old(View()), old(pool.lists), old(used[..]), old(total[..]))
        && forall a :: a in Blocks() <==> a in old(Blocks()) && !old(FlagBeside(a, addr))
    {
      hide Matched, CountsOk, Live, Allocated, PoolOk, FreePages, Tiles, Recorded, Loose, ChunkSize, Count, Reserved,
        Capacity, SameBusy, SameWords, KindOf, HasClear, LiveChunk, ChunkOk, Holed, FlagIn, Holds, Stored;
      ghost var c, s, lists := View(), pool.pages[..], pool.lists;
      LiveIff(c, pool.n, addr);
      NotLive(c, pool.n, addr);
      var page := addr / PAGESIZE;
      ChunkOkAt(s, lists, c, page);
      if addr < 0 {
        NoPage(c, page);
        return;
      }
      PoolFacts(s, pool.n, pool.runs, lists);
      PageWord(s, pool.n, pool.runs, lists, page);
      if pool.pages[page].kind == PAGE {
        if addr % PAGESIZE != 0 { return; }
        if pool.pages[page].slab < START { return; }
        if pool.pages[page].slab == BUSY { return; }
        var size := pool.pages[page].slab - START;
        pool.FreeRun(page, size);
        FreedWords(s, pool.pages[..], pool.runs, c.alloc, page);
        RunDropped(c, pool.n, page);
        CountRun(c, WithoutRun(c, page), pool.n, page, used[..], total[..]);
        MatchRunGone(s, pool.pages[..], lists, pool.lists, c, page);
      } else {
        FreeChunk(addr, page);
      }
    }

    /** After a bitmap chunk is freed, the next chunk taken from its page begins inside the page's bitmap. */
    method BitmapHandedOut(addr: int) returns (a: int)
      requires Valid() && addr < pool.n * PAGESIZE && Guarded(addr)
      requires Leads(addr / PAGESIZE)
      modifies this, pool, pool.pages, words, used, total
      ensures var p := addr / PAGESIZE; p * PAGESIZE <= a < p * PAGESIZE + Count(old(shifts)[p]) / 8
    {
      hide Matched, CountsOk, Live, PoolOk, ChunkSize, Count, Reserved, FlagIn, Zeroed, Holds, Stored;
      ghost var c, s, lists := View(), pool.pages[..], pool.lists;
      var page := addr / PAGESIZE;
      ChunkOkAt(s, lists, c, page);
      ShiftOf(s, c, page);
      var shift := if pool.pages[page].kind == EXACT then EXACTSHIFT else pool.pages[page].slab;
      ghost var i := addr % PAGESIZE / ChunkSize(shift);
      Free(addr);
      HoleAt(c, page, i);
      StoredAt(words[..], shifts, maps, page);
      a := TakeChunk(page, shift);
      ghost var flags := WithHole(c, page, i).maps[page];
      ghost var j: nat :| j < |flags| && !flags[j] && AllSet(flags, 0, j) && a == Addr(page, j, shift);
      FirstClearInBitmap(flags, shift, i, j, page);
    }

    /** Frees a chunk: misaligned addresses and chunks already free are left alone. */
    method FreeChunk(addr: int, page: nat)
      requires Valid() && 0 <= addr < pool.n * PAGESIZE && page == addr / PAGESIZE && page in shifts
      modifies this, pool, pool.pages, words, used, total
      ensures Valid() <==> !old(Guarded(addr))
      ensures !old(Guarded(addr)) ==> Blocks() == old(Blocks()) - {addr}
      ensures old(Guarded(addr)) ==>
        && Holed(addr, old(View()), old(pool.lists), old(used[..]), old(total[..]))
        && forall a :: a in Blocks() <==> a in old(Blocks()) && !old(FlagBeside(a, addr))
    {
      hide Matched, CountsOk, Live, Allocated, PoolOk, FreePages, Tiles, Recorded, Loose, ChunkSize, Count, Reserved,
        HasClear, FlagIn, Zeroed, Holds, Stored, Hits, Bit, WordOf, BitOf, KindOf;
      ghost var c, s, lists := View(), pool.pages[..], pool.lists;
      PoolFacts(s, pool.n, pool.runs, lists);
      ChunkOkAt(s, lists, c, page);
      ShiftOf(s, c, page);
      LiveIff(c, pool.n, addr);
      NotLive(c, pool.n, addr);
      var shift := if pool.pages[page].kind == EXACT then EXACTSHIFT else pool.pages[page].slab;
      if addr % PAGESIZE % ChunkSize(shift) != 0 { return; }
      AddrBack(addr, shift);
      var i := addr % PAGESIZE / ChunkSize(shift);
      StoredAt(words[..], shifts, maps, page);
      FlagAtBit(words[page], shift, maps[page], i);
      if i < Reserved(shift) {
        HoleForgets(c, pool.n, page, i);
        ReservedClear(c, page, i);
      }
      assert Guarded(addr) ==> maps[page][i];
      if !Hits(words[page][WordOf(i, shift)], BitOf(i, shift)) { return; }
      ReleaseChunk(page, i, shift);
    }

    /** Drops a chunk whose flag is set and clears its memory. */
    method ReleaseChunk(page: nat, i: nat, shift: nat)
      requires Valid() && page in shifts && shifts[page] == shift && page < |maps| && i < |maps[page]| && maps[page][i]
      modifies this, pool, pool.pages, words, used, total
      ensures Reserved(shift) <= i ==> Valid() && Blocks() == old(Blocks()) - {Addr(page, i, shift)}
      ensures i < Reserved(shift) ==>
        !Valid() && HoledAt(page, i, old(View()), old(pool.lists), old(used[..]), old(total[..]))
    {
      hide Matched, CountsOk, Live, Allocated, PoolOk, FreePages, Tiles, Recorded, Loose, ChunkSize, Count, Reserved,
        HasClear, Zeroed, Holds, Stored, Hits, Bit, LiveChunk, KindOf;
      ghost var c, s, lists := View(), pool.pages[..], pool.lists;
      PoolFacts(s, pool.n, pool.runs, lists);
      ChunkOkAt(s, lists, c, page);
      ShiftOf(s, c, page);
      StoredAt(words[..], shifts, maps, page);
      var full: bool;
      if pool.pages[page].kind == EXACT {
        ExactFull(words[page], maps[page]);
        full := words[page][0] == FULLWORD;
      } else {
        full := pool.pages[page].next == NIL;
      }
      FullIffUnlisted(s, pool.n, pool.runs, lists, c, page);
      DropChunk(page, i, shift, full);
      ghost var flags := maps;
      ClearChunk(page, i, shift);
      if Reserved(shift) <= i {
        ZeroedAfterBitmap(flags[page], i, shift);
        assert maps == flags;
      } else {
        HoleForgets(c, pool.n, page, i);
        assert View() == WithHole(c, page, i);
        NotMatched(pool.pages[..], pool.lists, View(), page);
      }
    }

    /** memset over the freed chunk. */
    method ClearChunk(page: nat, i: nat, shift: nat)
      requires page < |maps| == words.Length && MINSHIFT <= shift <= MAXSHIFT && Holds(words[page], shift, maps[page])
      requires Stored(words[..], shifts, maps) && (page in shifts ==> shifts[page] == shift)
      modifies this`maps, words
      ensures maps == old(maps)[page := Zeroed(old(maps[page]), i, shift)] && Stored(words[..], shifts, maps)
    {
      hide Zeroed, Holds, Stored;
      var zeroed := ZeroChunk(words[page], shift, i, maps[page]);
      StoredSet(words[..], shifts, shifts, maps, page, zeroed, Zeroed(maps[page], i, shift));
      ghost var before := words[..];
      words[page] := zeroed;
      assert words[..] == before[page := zeroed];
      maps := maps[page := Zeroed(maps[page], i, shift)];
    }

    /** Clears the chunk's flag; a page that was full is listed again, a page left without a live
        chunk, and only such a page, is returned to the page allocator. */
    method DropChunk(page: nat, i: nat, shift: nat, full: bool)
      requires Valid() && page in shifts && shifts[page] == shift && page < |maps| && i < |maps[page]| && maps[page][i]
      requires full <==> !HasClear(maps[page])
      modifies this, pool, pool.pages, words, used, total
      ensures maps == old(maps)[page := old(maps[page])[i := false]] && |maps| == words.Length
      ensures Holds(words[page], shift, maps[page]) && Stored(words[..], shifts, maps)
      ensures page in shifts ==> shifts[page] == shift
      ensures Reserved(shift) <= i ==> Valid() && Blocks() == old(Blocks()) - {Addr(page, i, shift)}
      ensures page in Allocated(pool.runs) <==> AnySet(old(maps[page])[i := false], Reserved(shift))
      ensures i < Reserved(shift) ==>
        && pool.Valid() && View() == WithFlag(old(View()), page, i, false)
        && Led(old(pool.lists), pool.lists, shift - 2, page, full)
        && 0 <= shift - 3 < used.Length && used[..] == old(used[..])[shift - 3 := old(used[shift - 3]) - 1]
          && total[..] == old(total[..])
    {
      hide Matched, CountsOk, Live, Allocated, SameBusy, PoolOk, FreePages, SameWords, IsLive, ChunkOk, PageOk,
        ChunkSize, Count, Reserved, Capacity, HasClear, Tiles, Recorded, Loose, KindOf, Listed, LiveChunk, AnySet,
        Holds, Stored;
      ghost var c, s, lists := View(), pool.pages[..], pool.lists;
      PoolFacts(s, pool.n, pool.runs, lists);
      ChunkOkAt(s, lists, c, page);
      DropFacts(s, pool.n, pool.runs, lists, c, page);
      SlotMembers(s, lists, c, page);
      NowClear(c.maps[page], i);
      if full {
        pool.Enlist(page, shift - 2);
      } else {
        SameBusyRefl(s, pool.n, pool.runs);
      }
      StoredAt(words[..], shifts, maps, page);
      ghost var before := words[..];
      var dropped, none := DropBit(words[page], shift, i, maps[page]);
      words[page] := dropped;
      maps := maps[page := maps[page][i := false]];
      StoredSet(before, shifts, shifts, c.maps, page, dropped, maps[page]);
      assert words[..] == before[page := dropped];
      used[shift - 3] := used[shift - 3] - 1;
      if i < Reserved(shift) {
        ReservedClear(c, page, i);
      } else {
        LiveOne(c, pool.n, page, i);
        FlagClear(c, pool.n, page, i);
        CountChunkGone(c, WithFlag(c, page, i, false), pool.n, Addr(page, i, shift), old(used[..]), total[..]);
      }
      if none {
        ReturnPage(page, shift, c, i, s, lists);
      } else if Reserved(shift) <= i {
        ghost var j := OneLeft(View(), page);
        SameWordsOf(s, pool.pages[..], pool.runs);
        MatchFlag(s, pool.pages[..], lists, pool.lists, c, page, i, false, j);
      }
    }

    /** The page whose last chunk was freed goes back to the page allocator. */
    method ReturnPage(page: nat, shift: nat, ghost c: Chunks, ghost i: nat, ghost s: Pages, ghost lists: seq<seq<nat>>)
      requires used != total && |maps| == words.Length == pool.n && pool.Valid() && used.Length == 9
      requires total.Length == 9
      requires Stored(words[..], shifts, maps)
      requires Matched(s, lists, c) && page in c.shifts && c.shifts[page] == shift && MINSHIFT <= shift <= MAXSHIFT
      requires page < |c.maps| == |maps| && i < |c.maps[page]| && View() == WithFlag(c, page, i, false)
      requires page in Allocated(pool.runs) && Allocated(pool.runs)[page] == 1
      requires SameBusy(s, pool.pages[..], pool.runs) && CountsOk(View(), pool.n, used[..], total[..])
      requires |pool.lists| == LISTS == |lists|
      requires forall g, x :: 1 <= g < LISTS && x != page ==> (x in pool.lists[g] <==> x in lists[g])
      requires !AnySet(maps[page], Reserved(shift))
      modifies this, pool, pool.pages, total
      ensures Valid() && Blocks() == old(Blocks()) && page !in Allocated(pool.runs)
      ensures maps == old(maps) && shifts == old(shifts) - {page}
    {
      hide Matched, CountsOk, Live, Allocated, SameBusy, PoolOk, FreePages, SameWords, IsLive, ChunkOk, PageOk,
        ChunkSize, Count, Reserved, Capacity, NoneOn, Tiles, Recorded, Loose, KindOf, Listed, LiveChunk, AnySet,
        Holds, Stored;
      ghost var c', s1 := View(), pool.pages[..];
      NoneLeft(c', pool.n, page);
      EmptyPageDropped(c', pool.n, page);
      CountPageGone(c', WithoutRun(c', page), pool.n, page, used[..], total[..]);
      pool.FreeRun(page, 1);
      total[shift - 3] := total[shift - 3] - Capacity(shift);
      StoredSet(words[..], shifts, shifts - {page}, maps, page, words[page], maps[page]);
      assert words[..][page := words[page]] == words[..] && maps[page := maps[page]] == maps;
      shifts := shifts - {page};
      FreedWords2(s, s1, pool.pages[..], old(pool.runs), pool.runs, page);
      MatchPageGone(s, pool.pages[..], lists, pool.lists, c, page, i);
    }
  }

  /** No two live blocks of an allocator overlap. */
  lemma BlocksDisjoint(s: Slab, a: int, b: int)
    requires s.Valid() && a in s.Blocks() && b in s.Blocks() && a < b
    ensures a + s.Blocks()[a] <= b
  {
    hide Live, Recorded, Loose, Count, Reserved, ChunkSize, FreePages, CountsOk, IsLive, SizeAt;
    var c := s.View();
    LiveIff(c, s.pool.n, a);
    LiveIff(c, s.pool.n, b);
    PoolFacts(s.pool.pages[..], s.pool.n, s.pool.runs, s.pool.lists);
    LiveDisjoint(c, s.pool.runs, s.pool.n, a, b);
    LiveSize(c, s.pool.n, a);
  }

  /** Nothing leaks: when every block has been given up, every page is free. */
  lemma NoLeak(s: Slab)
    requires s.Valid() && s.Blocks() == map[]
    ensures Allocated(s.pool.runs) == map[] && FreePages(s.pool.runs, s.pool.n) == Interval(0, s.pool.n)
  {
    hide Live, IsLive, Reserved, ChunkSize, Count, CountsOk;
    var c, n := s.View(), s.pool.n;
    PoolFacts(s.pool.pages[..], n, s.pool.runs, s.pool.lists);
    forall p | p in c.alloc ensures false {
      assert ChunkOk(c, p) && Follows(s.pool.runs, n, p);
      PageHasBlock(c, n, p);
    }
    AllFreeWhenNone(s.pool.runs, n);
  }

  lemma NewApart(s: Slab, before: map<int, nat>, addr: int)
    requires s.Valid() && addr !in before && addr in s.Blocks() && s.Blocks() == before[addr := s.Blocks()[addr]]
    ensures ClearOf(before, addr, s.Blocks()[addr])
  {
    hide Live, PoolOk, Matched, CountsOk;
    forall b | b in before ensures b + before[b] <= addr || addr + s.Blocks()[addr] <= b {
      assert b in s.Blocks() && s.Blocks()[b] == before[b];
      if b < addr { BlocksDisjoint(s, b, addr); } else { BlocksDisjoint(s, addr, b); }
    }
  }

  /** No live block of an allocator overlaps the bitmap of any SMALL page. */
  lemma BitmapsApart(s: Slab, a: int, p: int)
    requires s.Valid() && a in s.Blocks() && p in s.shifts && s.shifts[p] < EXACTSHIFT
    ensures a + s.Blocks()[a] <= p * PAGESIZE || p * PAGESIZE + Count(s.shifts[p]) / 8 <= a
  {
    hide Live, Recorded, Loose, Count, Reserved, ChunkSize, FreePages, CountsOk, IsLive, SizeAt;
    var c, q := s.View(), a / PAGESIZE;
    LiveIff(c, s.pool.n, a);
    LiveSize(c, s.pool.n, a);
    PoolFacts(s.pool.pages[..], s.pool.n, s.pool.runs, s.pool.lists);
    assert ChunkOk(c, p) && ChunkOk(c, q);
    if p == q {
      BitmapClear(c, a);
    } else {
      BlockInRun(c, a);
      BitmapInPage(c.shifts[p]);
      assert q in c.alloc && p in c.alloc;
      assert q < p ==> End(s.pool.runs, q) <= p;
    }
  }
}
