// The page allocator of module/stl/src/stl_slab.c: first fit over a free list, splitting on
// allocation and joining with both neighbours on release.
module SlabPools {
  import opened SlabLists
  import opened SlabRuns
  import opened SlabRecords

  class PagePool {
    const n: nat
    const pages: array<Page>
    var pfree: int
    ghost var runs: Runs
    ghost var lists: seq<seq<nat>>

    ghost predicate Valid()
      reads this, pages
    {
      n < pages.Length && PoolOk(pages[..], n, runs, lists) && pfree == |FreePages(runs, n)|
    }

    /** All n pages form one free run. The pool must hold at least one page. */
    constructor (n: nat)
      requires 1 <= n && n + 1 < START
      ensures Valid() && this.n == n && fresh(pages)
      ensures Allocated(runs) == map[] && pfree == n
    {
      this.n := n;
      pages := new Page[n + LISTS](i => if i >= n then Page(0, i, NIL, PAGE) else ZERO);
      pfree := n;
      runs := map[0 := Run(n, true)];
      lists := seq(LISTS, g => if g == 0 then [0] else []);
      new;
      pages[n] := pages[n].(next := 0);
      pages[0] := Page(n, n, n, PAGE);
      InitOk(pages[..], n, runs, lists);
    }

    /** page[len - 1].prev = &page[k]; page[k] takes over the rest of the run and its links. */
    method Cut(page: nat, len: nat, k: nat)
      requires 1 <= k < len && page + len <= pages.Length
      requires 0 <= pages[page].prev < pages.Length && 0 <= pages[page].next < pages.Length
      modifies pages
      ensures pages[..] == CutOff(old(pages[..]), page, len, k)
    {
      pages[page + len - 1] := pages[page + len - 1].(prev := page + k, kind := PAGE);
      pages[page + k] := Page(len - k, pages[page].next, pages[page].prev, pages[page].kind);
      var p := pages[page].prev;
      pages[p] := pages[p].(next := page + k);
      var q := pages[page].next;
      pages[q] := pages[q].(prev := page + k, kind := PAGE);
    }

    method Unlink(x: nat)
      requires x < pages.Length && 0 <= pages[x].prev < pages.Length && 0 <= pages[x].next < pages.Length
      modifies pages
      ensures pages[..] == Unlinked(old(pages[..]), x)
    {
      var p := pages[x].prev;
      pages[p] := pages[p].(next := pages[x].next);
      var q := pages[x].next;
      pages[q] := pages[q].(prev := pages[x].prev, kind := pages[x].kind);
    }

    /** The first page gets the length and the start mark, the others the busy mark. */
    method MarkTaken(page: nat, k: nat)
      requires 1 <= k && page + k <= pages.Length
      modifies pages
      ensures TakenAt(old(pages[..]), pages[..], page, k)
    {
      pages[page] := Page(START + k, NIL, NIL, PAGE);
      var p := page + 1;
      while p < page + k
        invariant page + 1 <= p <= page + k
        invariant pages[page] == Page(START + k, NIL, NIL, PAGE)
        invariant forall y :: page < y < p ==> pages[y] == Page(BUSY, NIL, NIL, PAGE)
        invariant forall y :: 0 <= y < pages.Length && !(page <= y < p) ==> pages[y] == old(pages[y])
      {
        pages[p] := Page(BUSY, NIL, NIL, PAGE);
        p := p + 1;
      }
    }

    /** Takes k pages from the front of the free run at place i of the free list. */
    method Carve(page: nat, k: nat, ghost i: nat)
      requires Valid() && 1 <= k && i < |lists[0]| && lists[0][i] == page && page in runs && k <= runs[page].len
      modifies this, pages
      ensures Valid() && Allocated(runs) == old(Allocated(runs))[page := k] && page !in old(Allocated(runs))
      ensures runs == Split(old(runs), page, k) && |lists| == LISTS
      ensures forall g :: 1 <= g < LISTS ==> lists[g] == old(lists[g])
      ensures SameBusy(old(pages[..]), pages[..], old(runs)) && pages[page] == Page(START + k, NIL, NIL, PAGE)
    {
      hide ListOk, Lists, Tiles, Loose, CutOff, Unlinked, TakenAt, Split;
      ghost var s := pages[..];
      CarveFacts(s, n, runs, lists, page, i, k);
      var len := pages[page].slab;
      if len > k {
        Cut(page, len, k);
        MarkTaken(page, k);
        ghost var l: seq<nat> := lists[0][i := page + k];
        TakePart(s, pages[..], n, runs, lists, page, i, k);
        lists := lists[0 := l];
      } else {
        Unlink(page);
        MarkTaken(page, k);
        TakeWhole(s, pages[..], n, runs, lists, page, i);
        lists := lists[0 := Without(lists[0], i)];
      }
      runs := Split(runs, page, k);
      pfree := pfree - k;
    }

    lemma CarveFacts(s: Pages, n: nat, runs: Runs, lists: seq<seq<nat>>, p: nat, i: nat, k: nat)
      requires PoolOk(s, n, runs, lists) && i < |lists[0]| && lists[0][i] == p && p in runs && 1 <= k <= runs[p].len
      ensures runs[p].free && s[p].slab == runs[p].len && p + runs[p].len <= n < |s|
      ensures 0 <= s[p].prev < |s| && 0 <= s[p].next < |s|
      ensures Tiles(Split(runs, p, k), n) && Loose(Split(runs, p, k))
      ensures Allocated(Split(runs, p, k)) == Allocated(runs)[p := k] && p !in Allocated(runs)
      ensures |FreePages(Split(runs, p, k), n)| == |FreePages(runs, n)| - k
    {
      hide Lists, Split, FreePages, Allocated;
      Unlisted(s, n, runs, lists, NIL, p);
      ListedPage(s, n, lists, 0, i);
      SplitTiles(runs, n, p, k);
      SplitLoose(runs, n, p, k);
      SplitFreePages(runs, n, p, k);
    }

    /** First fit. The request fails exactly when no k consecutive pages are free. */
    method AllocPages(k: nat) returns (page: int)
      requires Valid() && 1 <= k
      modifies this, pages
      ensures Valid()
      ensures page == NIL <==> !Fits(old(runs), n, k)
      ensures page == NIL ==> runs == old(runs) && pages[..] == old(pages[..]) && lists == old(lists)
      ensures page != NIL ==> page !in old(Allocated(runs)) && Allocated(runs) == old(Allocated(runs))[page := k]
      ensures page != NIL ==> 0 <= page && page + k <= n && AllFree(old(runs), page, k)
      ensures |lists| == LISTS && forall g :: 1 <= g < LISTS ==> lists[g] == old(lists[g])
      ensures SameBusy(old(pages[..]), pages[..], old(runs))
      ensures page != NIL ==> page < pages.Length && pages[page].kind == PAGE && pages[page].next == NIL
    {
      hide ListOk, Lists, Tiles, Loose, RunOk, ListsMatch, Split, FreePages, Allocated;
      ghost var i := 0;
      HeadFacts(pages[..], n, runs, lists);
      page := pages[n].next;
      while page != n
        invariant |lists| == LISTS && 0 <= i <= |lists[0]| && page == After(n, lists[0], i - 1)
        invariant Valid() && runs == old(runs) && lists == old(lists) && pages[..] == old(pages[..])
        invariant forall j :: 0 <= j < i ==> lists[0][j] in runs && runs[lists[0][j]].len < k
        decreases |lists[0]| - i
      {
        FreeListFacts(pages[..], n, runs, lists, i);
        if pages[page].slab >= k {
          LongRunFits(runs, n, page, k);
          Carve(page, k, i);
          return;
        }
        page := pages[page].next;
        i := i + 1;
      }
      FreeListEnd(pages[..], n, runs, lists, i);
      SameBusyRefl(pages[..], n, runs);
      NothingLong(pages[..], n, runs, lists, k);
      page := NIL;
    }

    // ---------- Release ----------

    /** Writes the run's length and zeroes the descriptors after its first. */
    method Clear(page: nat, k: nat)
      requires 1 <= k && page + k <= pages.Length
      modifies pages
      ensures ClearedAt(old(pages[..]), pages[..], page, page + k)
    {
      pages[page] := pages[page].(slab := k);
      var p := page + 1;
      while p < page + k
        invariant page + 1 <= p <= page + k
        invariant pages[page] == old(pages[page]).(slab := k)
        invariant forall y :: page < y < p ==> pages[y] == ZERO
        invariant forall y :: 0 <= y < pages.Length && !(page <= y < p) ==> pages[y] == old(pages[y])
      {
        pages[p] := ZERO;
        p := p + 1;
      }
    }

    /** The allocated run at `page` becomes free, out of every list. */
    method Release(page: nat, k: nat)
      requires Valid() && page in runs && !runs[page].free && k == runs[page].len
      modifies this, pages
      ensures n < pages.Length && Recorded(pages[..], n, runs, lists, page)
      ensures runs == old(Freed(runs, page)) && pfree == old(pfree) + k
      ensures SameBusy(old(pages[..]), pages[..], runs) && |lists| == LISTS
      ensures forall g, x :: 1 <= g < LISTS ==> (x in lists[g] <==> x in old(lists[g]) && x != page)
    {
      hide ListOk, Lists, Listed, Tiles, Loose, RunOk, ListsMatch, Unlinked, Without, InnerFree, FreePages;
      ghost var s := pages[..];
      NextIffListed(s, n, runs, lists, NIL, page);
      pfree := pfree + k;
      Clear(page, k);
      ghost var s1 := pages[..];
      if pages[page].next != NIL {
        ghost var g, i := Whereabouts(s, n, runs, lists, NIL, page);
        StartFreeListed(s, s1, n, runs, lists, page, g, i);
        WithoutOthers(s, n, lists, g, i);
        Unlink(page);
        lists := lists[g := Without(lists[g], i)];
      } else {
        StartFreeUnlisted(s, s1, n, runs, lists, page);
        InNoList(lists, page);
      }
      runs := Freed(runs, page);
    }

    /** Joins with the run after it when that is free; `more` is the number of pages gained. */
    method JoinAfter(page: nat) returns (more: nat)
      requires n < pages.Length && Recorded(pages[..], n, runs, lists, page) && page in runs && LooseBut(runs, page)
      modifies this`runs, this`lists, pages
      ensures Recorded(pages[..], n, runs, lists, page) && page in runs && LooseBut(runs, page) && Lonely(runs, page)
      ensures Allocated(runs) == old(Allocated(runs)) && FreePages(runs, n) == old(FreePages(runs, n))
      ensures runs[page].len == old(runs[page].len) + more
      ensures SameBusy(old(pages[..]), pages[..], runs) && |lists| == LISTS
      ensures forall g :: 1 <= g < LISTS ==> lists[g] == old(lists[g])
    {
      hide ListOk, Lists, Listed, RunOk, ListsMatch, Unlinked, Without, InnerFree, FreePages, Tiles, Allocated,
        LooseBut;
      ghost var s, r := pages[..], runs;
      HoleFacts(s, n, r, lists, page);
      SameBusyRefl(s, n, r);
      more := 0;
      var join := page + pages[page].slab;
      if join < n {
        RightNeighbour(s, n, r, lists, page);
        if pages[join].kind == PAGE {
          if pages[join].next != NIL {
            ghost var i := FreeAt(s, n, r, lists, page, join);
            MergeStep(s, n, r, lists, page, page, join, join, i);
            JoinRightLoose(r, n, page);
            JoinSame(r, n, page);
            more := pages[join].slab;
            pages[page] := pages[page].(slab := pages[page].slab + pages[join].slab);
            Unlink(join);
            pages[join] := ZERO;
            runs, lists := Joined(runs, page), lists[0 := Without(lists[0], i)];
          }
        }
      }
    }

    /** Joins with the run before it when that is free; the joined run starts at `start`. */
    method JoinBefore(page: nat) returns (start: nat, more: nat)
      requires n < pages.Length && Recorded(pages[..], n, runs, lists, page) && page in runs && LooseBut(runs, page)
      requires Lonely(runs, page)
      modifies this`runs, this`lists, pages
      ensures Recorded(pages[..], n, runs, lists, start) && start in runs && Loose(runs)
      ensures Allocated(runs) == old(Allocated(runs)) && FreePages(runs, n) == old(FreePages(runs, n))
      ensures runs[start].len == old(runs[page].len) + more
      ensures SameBusy(old(pages[..]), pages[..], runs) && |lists| == LISTS
      ensures forall g :: 1 <= g < LISTS ==> lists[g] == old(lists[g])
    {
      hide ListOk, Lists, Listed, RunOk, ListsMatch, Unlinked, Without, InnerFree, FreePages, Tiles, Allocated,
        LooseBut, Loose;
      ghost var s, r := pages[..], runs;
      HoleFacts(s, n, r, lists, page);
      SameBusyRefl(s, n, r);
      more := 0;
      start := page;
      if page > 0 {
        ghost var j := PrecedingRun(s, n, r, lists, page);
        var join: int := page - 1;
        if pages[join].kind == PAGE {
          if pages[join].slab == 0 {
            join := pages[join].prev;
          }
          if pages[join].next != NIL {
            ghost var i := FreeAt(s, n, r, lists, page, join);
            MergeStep(s, n, r, lists, page, join, page, join, i);
            JoinLeftLoose(r, n, join, page);
            JoinSame(r, n, join);
            more := pages[join].slab;
            pages[join] := pages[join].(slab := pages[join].slab + pages[page].slab);
            Unlink(join);
            pages[page] := ZERO;
            runs, lists := Joined(runs, join), lists[0 := Without(lists[0], i)];
            start := join;
            return;
          }
        }
      }
      NothingBeforeFirst(r, n);
      NoLeftLoose(r, n, page);
    }

    /** page[len - 1].prev = page; page goes to the front of the free list. */
    method Relist(page: nat, rest: nat)
      requires n < pages.Length && Recorded(pages[..], n, runs, lists, page) && page in runs
      requires rest == runs[page].len - 1
      modifies this`lists, pages
      ensures Recorded(pages[..], n, runs, lists, NIL)
      ensures SameBusy(old(pages[..]), pages[..], runs) && |lists| == LISTS
      ensures forall g :: 1 <= g < LISTS ==> lists[g] == old(lists[g])
    {
      hide ListOk, Lists, Listed, RunOk, ListsMatch, InnerFree, Tiles;
      ghost var s := pages[..];
      HoleFacts(s, n, runs, lists, page);
      FinishFree(s, n, runs, lists, page);
      if rest > 0 {
        pages[page + rest] := pages[page + rest].(prev := page, kind := PAGE);
      }
      pages[page] := pages[page].(prev := n, kind := PAGE);
      pages[page] := pages[page].(next := pages[n].next);
      var q := pages[page].next;
      pages[q] := pages[q].(prev := page, kind := PAGE);
      pages[n] := pages[n].(next := page);
      assert pages[..] == Relisted(s, n, page, runs[page].len);
      lists := lists[0 := [page] + lists[0]];
    }

    /** Gives back the allocated run at `page`. */
    method FreeRun(page: nat, k: nat)
      requires Valid() && page in Allocated(runs) && k == Allocated(runs)[page]
      modifies this, pages
      ensures Valid() && Allocated(runs) == old(Allocated(runs)) - {page} && pfree == old(pfree) + k
      ensures FreePages(runs, n) == old(FreePages(runs, n)) + Interval(page, page + k)
      ensures SameBusy(old(pages[..]), pages[..], runs) && |lists| == LISTS
      ensures forall g, x :: 1 <= g < LISTS ==> (x in lists[g] <==> x in old(lists[g]) && x != page)
    {
      hide ListOk, Lists, Listed, RunOk, ListsMatch, InnerFree, FreePages, Interval, LooseBut, Loose, SameBusy;
      FreedPages(runs, n, page);
      FreedLoose(runs, n, page);
      ghost var s0 := pages[..];
      Release(page, k);
      ghost var s1, r1 := pages[..], runs;
      var rest := k - 1;
      var more := JoinAfter(page);
      ghost var s2, r2 := pages[..], runs;
      SameBusyTrans(s0, s1, s2, r1, r2);
      rest := rest + more;
      var start;
      start, more := JoinBefore(page);
      SameBusyTrans(s0, s2, pages[..], r2, runs);
      ghost var s3 := pages[..];
      rest := rest + more;
      Relist(start, rest);
      SameBusyTrans(s0, s3, pages[..], runs, runs);
    }

    // ---------- Chunk pages in their slot's list ----------

    /** Takes a page that has no chunk left out of its slot's list. */
    method Delist(page: nat, ghost g: nat, ghost i: nat)
      requires Valid() && |lists| == LISTS && 1 <= g < LISTS && i < |lists[g]| && lists[g][i] == page
      modifies this`lists, pages
      ensures Valid() && |lists| == LISTS && SameBusy(old(pages[..]), pages[..], runs)
      ensures forall h, x :: 0 <= h < LISTS ==> (x in lists[h] <==> x in old(lists[h]) && x != page)
      ensures page < pages.Length && pages[page].next == NIL
    {
      hide ListOk, Lists, RunOk, ListsMatch, Unlinked, Without, FreePages, Loose;
      ghost var s := pages[..];
      BusyChunk(s, n, runs, lists, g, i);
      DelistStep(s, n, runs, lists, g, i, page);
      WithoutOthers(s, n, lists, g, i);
      SameBusyOne(s, Unlinked(s, page), n, runs, lists, page);
      Unlink(page);
      pages[page] := pages[page].(next := NIL, prev := NIL);
      lists := lists[g := Without(lists[g], i)];
    }

    /** Puts a page back at the front of its slot's list. */
    method Enlist(page: nat, g: nat)
      requires Valid() && |lists| == LISTS && 1 <= g < LISTS && page in runs && !runs[page].free && runs[page].len == 1
      requires !Listed(lists, page) && page < pages.Length && pages[page].kind == KindOf(g)
      modifies this`lists, pages
      ensures Valid() && lists == old(lists)[g := [page] + old(lists[g])] && SameBusy(old(pages[..]), pages[..], runs)
    {
      hide ListOk, Lists, RunOk, ListsMatch, FreePages, Loose, Listed;
      ghost var s := pages[..];
      SlotHead(s, n, runs, lists, g);
      NextIffListed(s, n, runs, lists, NIL, page);
      var kind := if g < 4 then SMALL else if g == 4 then EXACT else BIG;
      var h := n + g;
      pages[page] := pages[page].(next := pages[h].next);
      pages[h] := pages[h].(next := page);
      pages[page] := pages[page].(prev := h, kind := kind);
      var q := pages[page].next;
      pages[q] := pages[q].(prev := page, kind := kind);
      assert pages[..] == Pushed(s, h, page, kind);
      EnlistStep(s, pages[..], n, runs, lists, g, page);
      SameBusyOne(s, pages[..], n, runs, lists, page);
      lists := lists[g := [page] + lists[g]];
    }

    /** Makes a page just allocated the only one in its slot's list. */
    method EnlistFresh(page: nat, g: nat, slab: nat)
      requires Valid() && |lists| == LISTS && 1 <= g < LISTS && lists[g] == []
      requires page in runs && !runs[page].free && runs[page].len == 1 && !Listed(lists, page) && page < pages.Length
      modifies this`lists, pages
      ensures Valid() && lists == old(lists)[g := [page]]
      ensures pages[page].slab == slab && pages[page].kind == KindOf(g)
      ensures SameBusy(old(pages[..])[page := Page(slab, NIL, NIL, KindOf(g))], pages[..], runs)
    {
      hide ListOk, Lists, RunOk, ListsMatch, FreePages, Loose, Listed;
      ghost var s := pages[..];
      SlotHead(s, n, runs, lists, g);
      NextIffListed(s, n, runs, lists, NIL, page);
      var kind := if g < 4 then SMALL else if g == 4 then EXACT else BIG;
      var h := n + g;
      pages[page] := Page(slab, h, h, kind);
      pages[h] := pages[h].(next := page);
      FreshStep(s, pages[..], n, runs, lists, g, page, slab);
      lists := lists[g := [page]];
    }
  }
}
