// How the page descriptors record the runs: the state kept between page allocator calls, and the
// intermediate states inside one call, where one free run is in nobody's list.
module SlabRecords {
  import opened SlabLists
  import opened SlabRuns

  const LISTS: nat := 10

  ghost predicate InnerFree(s: Pages, p: int, e: int)
  {
    0 <= p && e <= |s| && forall i :: p < i < e ==> s[i].slab == 0 && s[i].kind == PAGE
  }

  /** A free run: its length at its first page, zeros after that, and its last page leading back to
      the first unless the run ends the pool. */
  ghost predicate FreeRunOk(s: Pages, n: nat, p: int, len: nat) {
    0 <= p && 1 <= len && p + len <= n <= |s| && s[p].slab == len && s[p].kind == PAGE && InnerFree(s, p, p + len)
    && (len >= 2 && p + len < n ==> s[p + len - 1].prev == p)
  }

  ghost predicate InnerBusy(s: Pages, p: int, e: int)
  {
    0 <= p && e <= |s| && forall i :: p < i < e ==> s[i] == Page(BUSY, NIL, NIL, PAGE)
  }

  /** An allocated run of pages, or a single page cut into chunks. */
  ghost predicate BusyRunOk(s: Pages, p: int, len: nat) {
    0 <= p && 1 <= len && p + len <= |s|
    && (s[p].kind == PAGE ==> s[p].slab == START + len && s[p].next == NIL && InnerBusy(s, p, p + len))
    && (s[p].kind != PAGE ==> len == 1)
  }

  ghost predicate RunOk(s: Pages, n: nat, runs: Runs, p: int) {
    p in runs ==> if runs[p].free then FreeRunOk(s, n, p, runs[p].len) else BusyRunOk(s, p, runs[p].len)
  }

  /** Free runs are in the free list, allocated page runs in none, chunk pages in their slot's or none. */
  ghost predicate ListsMatch(s: Pages, runs: Runs, lists: seq<seq<nat>>, hole: int) {
    |lists| == LISTS
    && (forall x: nat :: x in lists[0] <==> x in runs && runs[x].free && x != hole)
    && (forall x: nat :: Listed(lists, x) ==> x in runs && x != hole)
    && (forall x: nat :: x in runs && x != hole && !Listed(lists, x) ==> x < |s| && s[x].next == NIL)
  }

  /** Everything but the run at `hole` is on record; that one is free and waits to be listed. */
  ghost predicate Recorded(s: Pages, n: nat, runs: Runs, lists: seq<seq<nat>>, hole: int) {
    n + 1 < START && n <= |s| && Lists(s, n, lists) && Tiles(runs, n) && ListsMatch(s, runs, lists, hole)
    && (forall p :: p in runs && p != hole ==> RunOk(s, n, runs, p))
    && (hole in runs ==> runs[hole].free && 0 <= hole && End(runs, hole) <= n <= |s| && s[hole].slab == runs[hole].len
                         && InnerFree(s, hole, End(runs, hole)))
  }

  /** The state between calls. */
  ghost predicate PoolOk(s: Pages, n: nat, runs: Runs, lists: seq<seq<nat>>) {
    Recorded(s, n, runs, lists, NIL) && Loose(runs)
  }

  lemma StartsOnly(runs: Runs, n: nat, p: int, i: int)
    requires Tiles(runs, n) && p in runs && p < i < End(runs, p)
    ensures i !in runs
  {
  }

  // ---------- Links may change without touching the records ----------

  /** Outside lo..hi sizes and kinds are as they were, and so is every page in no list. */
  ghost predicate OnlyLinks(s: Pages, s': Pages, n: nat, lists: seq<seq<nat>>, lo: int, hi: int) {
    |s| == |s'| && n <= |s|
    && (forall y :: 0 <= y < n && !(lo <= y < hi) ==> s'[y].slab == s[y].slab && s'[y].kind == s[y].kind)
    && (forall y: nat :: y < n && !(lo <= y < hi) && !Listed(lists, y) ==> s'[y] == s[y])
  }

  /** Pages inside a run, and the first page of an allocated page run, are in no list. */
  lemma Unlisted(s: Pages, n: nat, runs: Runs, lists: seq<seq<nat>>, hole: int, p: int)
    requires Recorded(s, n, runs, lists, hole) && p in runs
    ensures Follows(runs, n, p)
    ensures forall i: nat :: p < i < End(runs, p) ==> i !in runs && !Listed(lists, i)
    ensures p != hole && !runs[p].free && s[p].kind == PAGE ==> !Listed(lists, p)
    ensures p != hole ==> RunOk(s, n, runs, p)
  {
    hide RunOk, InnerFree, ListOk;
    assert Follows(runs, n, p);
    if p != hole && !runs[p].free && Listed(lists, p) {
      var g :| 0 <= g < |lists| && p in lists[g];
      var i :| 0 <= i < |lists[g]| && lists[g][i] == p;
      Neighbours(s, n, n + g, lists[g], KindOf(g), i);
    }
  }

  lemma RunKept(s: Pages, s': Pages, n: nat, runs: Runs, lists: seq<seq<nat>>, hole: int, p: int, lo: int, hi: int)
    requires Recorded(s, n, runs, lists, hole) && OnlyLinks(s, s', n, lists, lo, hi)
    requires p in runs && p != hole && (End(runs, p) <= lo || hi <= p)
    ensures RunOk(s', n, runs, p)
  {
    hide Recorded, Listed;
    Unlisted(s, n, runs, lists, hole, p);
    assert forall i: nat :: p < i < End(runs, p) ==> s'[i] == s[i];
  }

  lemma RunSame(s: Pages, n: nat, runs: Runs, runs': Runs, p: int)
    requires p in runs && p in runs' && runs[p] == runs'[p]
    ensures RunOk(s, n, runs, p) <==> RunOk(s, n, runs', p)
  {
  }

  /** A run that a step leaves alone: same extent, outside the rewritten pages, listed as before. */
  ghost predicate Untouched(runs: Runs, runs': Runs, lists: seq<seq<nat>>, lists': seq<seq<nat>>, hole: int, lo: int,
                            hi: int, x: nat) {
    x in runs && x in runs' && x != hole && !(lo <= x < hi) && runs'[x] == runs[x]
    && (Listed(lists', x) <==> Listed(lists, x)) && |lists'| == |lists| == LISTS && (x in lists'[0] <==> x in lists[0])
  }

  lemma MatchKept(s: Pages, s': Pages, n: nat, runs: Runs, runs': Runs, lists: seq<seq<nat>>, lists': seq<seq<nat>>,
                  hole: int, hole': int, lo: int, hi: int)
    requires Recorded(s, n, runs, lists, hole) && OnlyLinks(s, s', n, lists, lo, hi) && |lists'| == LISTS
    requires forall x: nat :: x in runs' && x != hole' ==> Untouched(runs, runs', lists, lists', hole, lo, hi, x)
    requires forall x: nat :: Listed(lists', x) ==> x in runs' && x != hole'
    ensures ListsMatch(s', runs', lists', hole')
  {
    hide Lists, RunOk, InnerFree;
    forall x: nat | x in runs' && x != hole'
      ensures x in lists'[0] <==> runs'[x].free
      ensures !Listed(lists', x) ==> x < |s'| && s'[x].next == NIL
    {
      assert Untouched(runs, runs', lists, lists', hole, lo, hi, x) && Follows(runs, n, x);
    }
    forall x: nat | x in lists'[0] ensures Listed(lists', x) {
    }
  }

  lemma UnlinkOnlyLinks(s: Pages, n: nat, lists: seq<seq<nat>>, g: nat, i: nat)
    requires Lists(s, n, lists) && g < |lists| && i < |lists[g]|
    ensures 0 <= s[lists[g][i]].prev < |s| && 0 <= s[lists[g][i]].next < |s|
    ensures OnlyLinks(s, Unlinked(s, lists[g][i]), n, lists, 0, 0)
    ensures Unlinked(s, lists[g][i])[lists[g][i]] == s[lists[g][i]]
  {
    hide ListOk, Unlinked;
    UnlinkFrame(s, n, n + g, lists[g], KindOf(g), i);
    Neighbours(s, n, n + g, lists[g], KindOf(g), i);
    assert forall y: nat :: !Listed(lists, y) ==> y !in lists[g];
  }

  lemma ListedWithout(s: Pages, n: nat, lists: seq<seq<nat>>, g: nat, i: nat, x: nat)
    requires Lists(s, n, lists) && g < |lists| && i < |lists[g]|
    ensures Listed(lists[g := Without(lists[g], i)], x) <==> Listed(lists, x) && x != lists[g][i]
  {
    hide ListOk, Without, Listed;
    DistinctOf(s, n, n + g, lists[g], KindOf(g));
    DistinctWithout(lists[g], i);
    ListedElsewhere(lists, g, Without(lists[g], i), x);
    ListedElsewhere(lists, g, lists[g], x);
    assert lists[g := lists[g]] == lists;
  }

  /** Unlinking x from the lists of a recorded state. */
  lemma UnlinkMatches(s: Pages, n: nat, runs: Runs, lists: seq<seq<nat>>, hole: int, g: nat, i: nat, x: nat)
    requires Lists(s, n, lists) && ListsMatch(s, runs, lists, hole) && g < LISTS && i < |lists[g]| && x == lists[g][i]
    ensures var lists' := lists[g := Without(lists[g], i)];
      (forall y: nat :: Listed(lists', y) <==> Listed(lists, y) && y != x)
      && (forall y: nat :: y in lists'[0] <==> y in lists[0] && y != x)
  {
    hide ListOk, Listed, Without;
    var lists' := lists[g := Without(lists[g], i)];
    DistinctOf(s, n, n + g, lists[g], KindOf(g));
    DistinctWithout(lists[g], i);
    forall y: nat ensures Listed(lists', y) <==> Listed(lists, y) && y != x {
      ListedWithout(s, n, lists, g, i, y);
    }
    if g != 0 { assert Apart(lists[g], lists[0]) && x in lists[g]; }
  }

  // ---------- Writing to pages that are in no list ----------

  /** s' differs from s only within the run at p; its first page keeps its links. */
  ghost predicate Rewritten(s: Pages, s': Pages, p: int, e: int) {
    |s'| == |s| && 0 <= p < e <= |s|
    && s'[p].next == s[p].next && s'[p].prev == s[p].prev && s'[p].kind == s[p].kind
    && (forall y :: 0 <= y < |s| && !(p <= y < e) ==> s'[y] == s[y])
  }

  lemma RewriteKeepsList(s: Pages, s': Pages, n: nat, h: nat, l: seq<nat>, kind: nat, p: int, e: int)
    requires ListOk(s, n, h, l, kind) && Rewritten(s, s', p, e) && e <= n && forall y: nat :: p < y < e ==> y !in l
    ensures ListOk(s', n, h, l, kind)
  {
    assert forall i :: 0 <= i < |l| ==> l[i] in l && (l[i] == p || s'[l[i]] == s[l[i]]);
  }

  lemma RewriteKeepsLists(s: Pages, s': Pages, n: nat, lists: seq<seq<nat>>, p: int, e: int)
    requires Lists(s, n, lists) && Rewritten(s, s', p, e) && e <= n && forall y: nat :: p < y < e ==> !Listed(lists, y)
    ensures Lists(s', n, lists)
  {
    hide ListOk, Rewritten;
    forall g | 0 <= g < |lists| ensures ListOk(s', n, n + g, lists[g], KindOf(g)) {
      assert forall y: nat :: y in lists[g] ==> Listed(lists, y);
      RewriteKeepsList(s, s', n, n + g, lists[g], KindOf(g), p, e);
    }
    assert |s'| == |s| by { RewrittenSize(s, s', p, e); }
  }

  lemma RewrittenSize(s: Pages, s': Pages, p: int, e: int)
    requires Rewritten(s, s', p, e)
    ensures |s'| == |s|
  {
  }

  /** Other runs do not notice. */
  lemma RewriteKeepsRun(s: Pages, s': Pages, n: nat, runs: Runs, p: int, e: int, q: int)
    requires Tiles(runs, n) && n <= |s| && p in runs && e <= End(runs, p) && Rewritten(s, s', p, e) && q in runs
    requires q != p && RunOk(s, n, runs, q)
    ensures RunOk(s', n, runs, q)
  {
    assert Follows(runs, n, p) && Follows(runs, n, q);
    assert q < p ==> End(runs, q) <= p;
    assert p < q ==> End(runs, p) <= q;
    hide Tiles;
  }

  // ---------- Step 1 of freeing: the run becomes free but unlisted ----------

  ghost predicate ClearedAt(s: Pages, s': Pages, p: int, e: int) {
    Rewritten(s, s', p, e) && s'[p].slab == e - p && InnerFree(s', p, e)
  }

  lemma ClearKeeps(s: Pages, s': Pages, n: nat, runs: Runs, lists: seq<seq<nat>>, p: int)
    requires Recorded(s, n, runs, lists, NIL) && p in runs && ClearedAt(s, s', p, End(runs, p))
    ensures Lists(s', n, lists)
    ensures forall q :: q in runs && q != p ==> RunOk(s', n, runs, q)
    ensures forall y: nat :: y < n && !Listed(lists, y) && y != p && y in runs ==> s'[y] == s[y]
  {
    hide ListOk, RunOk, ListsMatch, Listed;
    var e := End(runs, p);
    Unlisted(s, n, runs, lists, NIL, p);
    RewriteKeepsLists(s, s', n, lists, p, e);
    forall q | q in runs && q != p ensures RunOk(s', n, runs, q) {
      RewriteKeepsRun(s, s', n, runs, p, e, q);
    }
  }

  lemma StartFreeRun(s: Pages, s': Pages, n: nat, runs: Runs, lists: seq<seq<nat>>, p: int, q: int)
    requires Recorded(s, n, runs, lists, NIL) && p in runs && q in runs && q != p
    requires OnlyLinks(s, s', n, lists, p, End(runs, p))
    ensures RunOk(s', n, Freed(runs, p), q)
  {
    hide Lists, Listed;
    assert q < p ==> End(runs, q) <= p;
    assert p < q ==> End(runs, p) <= q;
    RunKept(s, s', n, runs, lists, NIL, q, p, End(runs, p));
  }

  lemma StartFreeRest(runs: Runs, n: nat, lists: seq<seq<nat>>, lists': seq<seq<nat>>, p: int)
    requires Tiles(runs, n) && p in runs && |lists'| == LISTS == |lists|
    requires forall y: nat ::
      (Listed(lists', y) <==> Listed(lists, y) && y != p) && (y in lists'[0] <==> y in lists[0] && y != p)
    ensures forall x: nat :: x in Freed(runs, p) && x != p ==>
      Untouched(runs, Freed(runs, p), lists, lists', NIL, p, End(runs, p), x)
  {
    hide Listed;
    forall x: nat | x in Freed(runs, p) && x != p
      ensures Untouched(runs, Freed(runs, p), lists, lists', NIL, p, End(runs, p), x)
    {
      assert p < x ==> End(runs, p) <= x;
    }
  }

  /** Shared end of the first step: the links are settled in s'. */
  lemma StartFree(s: Pages, s1: Pages, s': Pages, n: nat, runs: Runs, lists: seq<seq<nat>>, lists': seq<seq<nat>>,
                  p: int)
    requires Recorded(s, n, runs, lists, NIL) && p in runs && !runs[p].free && ClearedAt(s, s1, p, End(runs, p))
    requires OnlyLinks(s1, s', n, lists, 0, 0) && Lists(s', n, lists') && |lists'| == LISTS
    requires forall y: nat ::
      (Listed(lists', y) <==> Listed(lists, y) && y != p) && (y in lists'[0] <==> y in lists[0] && y != p)
    ensures Recorded(s', n, Freed(runs, p), lists', p) && SameBusy(s, s', Freed(runs, p))
  {
    hide Lists, Listed;
    var e, runs' := End(runs, p), Freed(runs, p);
    Unlisted(s, n, runs, lists, NIL, p);
    FreedTiles(runs, n, p);
    assert OnlyLinks(s, s', n, lists, p, e);
    forall q | q in runs' && q != p ensures RunOk(s', n, runs', q) {
      StartFreeRun(s, s', n, runs, lists, p, q);
    }
    StartFreeRest(runs, n, lists, lists', p);
    MatchKept(s, s', n, runs, runs', lists, lists', NIL, p, p, e);
    OnlyLinksBusy(s, s', n, runs, runs', lists, p, e);
  }

  lemma StartFreeUnlisted(s: Pages, s1: Pages, n: nat, runs: Runs, lists: seq<seq<nat>>, p: int)
    requires Recorded(s, n, runs, lists, NIL) && p in runs && !runs[p].free && ClearedAt(s, s1, p, End(runs, p))
    requires !Listed(lists, p)
    ensures Recorded(s1, n, Freed(runs, p), lists, p) && SameBusy(s, s1, Freed(runs, p))
  {
    hide Lists, RunOk;
    ClearKeeps(s, s1, n, runs, lists, p);
    assert Follows(runs, n, p);
    StartFree(s, s1, s1, n, runs, lists, lists, p);
  }

  lemma StartFreeListed(s: Pages, s1: Pages, n: nat, runs: Runs, lists: seq<seq<nat>>, p: nat, g: nat, i: nat)
    requires Recorded(s, n, runs, lists, NIL) && p in runs && !runs[p].free && ClearedAt(s, s1, p, End(runs, p))
    requires g < LISTS && i < |lists[g]| && lists[g][i] == p
    ensures p < |s1| && 0 <= s1[p].prev < |s1| && 0 <= s1[p].next < |s1|
    ensures Recorded(Unlinked(s1, p), n, Freed(runs, p), lists[g := Without(lists[g], i)], p)
    ensures SameBusy(s, Unlinked(s1, p), Freed(runs, p))
  {
    hide Lists, RunOk, Listed, ListOk, Without, Unlinked;
    ClearKeeps(s, s1, n, runs, lists, p);
    UnlinkLists(s1, n, lists, g, i);
    UnlinkOnlyLinks(s1, n, lists, g, i);
    UnlinkMatches(s, n, runs, lists, NIL, g, i, p);
    StartFree(s, s1, Unlinked(s1, p), n, runs, lists, lists[g := Without(lists[g], i)], p);
  }

  // ---------- Steps 2 and 3: joining with a free neighbour ----------

  const ZERO: Page := Page(0, NIL, NIL, PAGE)

  lemma WriteUnlistedList(s: Pages, n: nat, h: nat, l: seq<nat>, kind: nat, y: nat, v: Page)
    requires ListOk(s, n, h, l, kind) && y < n && y !in l
    ensures ListOk(s[y := v], n, h, l, kind)
  {
    assert forall i :: 0 <= i < |l| ==> l[i] in l && l[i] != y;
  }

  lemma WriteUnlisted(s: Pages, n: nat, lists: seq<seq<nat>>, y: nat, v: Page)
    requires Lists(s, n, lists) && y < n && !Listed(lists, y)
    ensures Lists(s[y := v], n, lists)
  {
    hide ListOk;
    forall g | 0 <= g < |lists| ensures ListOk(s[y := v], n, n + g, lists[g], KindOf(g)) {
      assert y !in lists[g];
      WriteUnlistedList(s, n, n + g, lists[g], KindOf(g), y, v);
    }
  }

  /** a->slab += b->slab; x is unlinked; b is cleared. One of a and b is x, the other was unlisted. */
  function Merged(s: Pages, a: nat, b: nat, x: nat): Pages
    requires a < |s| && b < |s| && x < |s| && 0 <= s[x].prev < |s| && 0 <= s[x].next < |s|
  {
    var s1 := s[a := s[a].(slab := s[a].slab + s[b].slab)];
    Unlinked(s1, x)[b := ZERO]
  }

  /** One of two neighbouring free runs a and b is x, at place i of the free list; the other is unlisted. */
  ghost predicate Joining(runs: Runs, lists: seq<seq<nat>>, hole: int, a: nat, b: nat, x: nat, i: nat) {
    a in runs && b in runs && End(runs, a) == b && runs[a].free && runs[b].free
    && ((x == a && hole == b) || (x == b && hole == a))
    && |lists| == LISTS && i < |lists[0]| && lists[0][i] == x
  }

  lemma JoiningRuns(s: Pages, n: nat, runs: Runs, lists: seq<seq<nat>>, hole: int, a: nat, b: nat, x: nat, i: nat)
    requires Recorded(s, n, runs, lists, hole) && Joining(runs, lists, hole, a, b, x, i)
    ensures a < b < n <= |s| && b < b + runs[b].len <= n
    ensures 0 <= s[x].prev < |s| && 0 <= s[x].next < |s| && s[x].prev != x
    ensures s[a].slab == runs[a].len && s[b].slab == runs[b].len && InnerFree(s, a, b)
    ensures InnerFree(s, b, b + runs[b].len)
    ensures forall y: nat :: a < y < b || b < y < b + runs[b].len ==> !Listed(lists, y)
    ensures hole in {a, b} && !Listed(lists, hole)
  {
    hide ListOk, Listed;
    Unlisted(s, n, runs, lists, hole, a);
    Unlisted(s, n, runs, lists, hole, b);
    Neighbours(s, n, n, lists[0], PAGE, i);
  }

  lemma MergedPages(s: Pages, n: nat, runs: Runs, lists: seq<seq<nat>>, hole: int, a: nat, b: nat, x: nat, i: nat)
    requires Recorded(s, n, runs, lists, hole) && Joining(runs, lists, hole, a, b, x, i)
    ensures b < n <= |s| && 0 <= s[x].prev < |s| && 0 <= s[x].next < |s|
    ensures Lists(Merged(s, a, b, x), n, lists[0 := Without(lists[0], i)])
    ensures OnlyLinks(s, Merged(s, a, b, x), n, lists, a, b + runs[b].len)
    ensures Merged(s, a, b, x)[a].slab == runs[a].len + runs[b].len
    ensures InnerFree(Merged(s, a, b, x), a, b + runs[b].len)
  {
    hide Listed, Without, Unlinked, Lists, Tiles, RunOk;
    JoiningRuns(s, n, runs, lists, hole, a, b, x, i);
    var s1 := s[a := s[a].(slab := s[a].slab + s[b].slab)];
    RewriteKeepsLists(s, s1, n, lists, a, a + 1);
    UnlinkLists(s1, n, lists, 0, i);
    UnlinkOnlyLinks(s1, n, lists, 0, i);
    UnlinkMatches(s, n, runs, lists, hole, 0, i, x);
    WriteUnlisted(Unlinked(s1, x), n, lists[0 := Without(lists[0], i)], b, ZERO);
  }

  lemma MergeStep(s: Pages, n: nat, runs: Runs, lists: seq<seq<nat>>, hole: int, a: nat, b: nat, x: nat, i: nat)
    requires Recorded(s, n, runs, lists, hole) && Joining(runs, lists, hole, a, b, x, i)
    ensures b < n <= |s| && 0 <= s[x].prev < |s| && 0 <= s[x].next < |s|
    ensures Recorded(Merged(s, a, b, x), n, Joined(runs, a), lists[0 := Without(lists[0], i)], a)
    ensures SameBusy(s, Merged(s, a, b, x), Joined(runs, a))
  {
    hide Lists, Listed, Without, Merged, InnerFree, RunOk;
    MergedPages(s, n, runs, lists, hole, a, b, x, i);
    var s', runs', lists' := Merged(s, a, b, x), Joined(runs, a), lists[0 := Without(lists[0], i)];
    UnlinkMatches(s, n, runs, lists, hole, 0, i, x);
    JoinTiles(runs, n, a);
    assert Follows(runs, n, a) && Follows(runs, n, b);
    forall q | q in runs' && q != a ensures RunOk(s', n, runs', q) {
      assert q < a ==> End(runs, q) <= a;
      assert a < q ==> End(runs, a) <= q;
      assert b < q ==> End(runs, b) <= q;
      RunKept(s, s', n, runs, lists, hole, q, a, b + runs[b].len);
      RunSame(s', n, runs, runs', q);
    }
    var e := b + runs[b].len;
    forall y: nat | y in runs' && y != a ensures Untouched(runs, runs', lists, lists', hole, a, e, y) {
      assert a < y ==> End(runs, a) <= y;
      assert b < y ==> End(runs, b) <= y;
    }
    MatchKept(s, s', n, runs, runs', lists, lists', hole, a, a, e);
    JoinBusy(s, s', n, runs, lists, a, e);
  }

  // ---------- Step 4: the run is listed ----------

  lemma PushOnlyLinks(s: Pages, n: nat, lists: seq<seq<nat>>, g: nat, x: nat)
    requires Lists(s, n, lists) && g < |lists| && x < n && !Listed(lists, x)
    ensures 0 <= s[n + g].next < |s|
    ensures OnlyLinks(s, Pushed(s, n + g, x, KindOf(g)), n, lists, x, x + 1)
    ensures Pushed(s, n + g, x, KindOf(g))[x].slab == s[x].slab && Pushed(s, n + g, x, KindOf(g))[x].kind == KindOf(g)
  {
    hide ListOk, Pushed;
    var l := lists[g];
    assert x !in l;
    DistinctOf(s, n, n + g, l, KindOf(g));
    PushFrame(s, n, n + g, l, KindOf(g), x);
    assert forall y: nat :: !Listed(lists, y) ==> y !in l;
    HeadNext(s, n, n + g, l, KindOf(g), x);
    PushedAt(s, n + g, x, KindOf(g), x);
  }

  lemma HeadNext(s: Pages, n: nat, h: nat, l: seq<nat>, kind: nat, x: nat)
    requires ListOk(s, n, h, l, kind) && x < n && x !in l
    ensures s[h].next != x && h != x
  {
  }

  /** The last page of the run leads back to its first, which goes to the front of the free list. */
  function Relisted(s: Pages, n: nat, p: nat, len: nat): Pages
    requires p < n < |s| && 1 <= len && p + len <= n && 0 <= s[n].next < |s|
  {
    var s1 := if len > 1 then s[p + len - 1 := s[p + len - 1].(prev := p, kind := PAGE)] else s;
    Pushed(s1, n, p, PAGE)
  }

  lemma RelistedPages(s: Pages, n: nat, runs: Runs, lists: seq<seq<nat>>, p: nat)
    requires Recorded(s, n, runs, lists, p) && p in runs
    ensures Follows(runs, n, p) && n < |s| && 0 <= s[n].next < |s|
    ensures var s' := Relisted(s, n, p, runs[p].len);
      Lists(s', n, lists[0 := [p] + lists[0]]) && FreeRunOk(s', n, p, runs[p].len)
        && OnlyLinks(s, s', n, lists, p, End(runs, p))
  {
    hide ListOk, Lists, Listed, Pushed, RunOk, Tiles, InnerFree, FreeRunOk, OnlyLinks;
    Unlisted(s, n, runs, lists, p, p);
    FirstFree(s, n, lists);
    var len := runs[p].len;
    var s1 := if len > 1 then s[p + len - 1 := s[p + len - 1].(prev := p, kind := PAGE)] else s;
    if len > 1 { WriteUnlisted(s, n, lists, p + len - 1, s[p + len - 1].(prev := p, kind := PAGE)); }
    PushLists(s1, n, lists, 0, p);
    PushOnlyLinks(s1, n, lists, 0, p);
    RelistedRun(s, s1, Pushed(s1, n, p, PAGE), n, lists, p, len);
  }

  lemma FirstFree(s: Pages, n: nat, lists: seq<seq<nat>>)
    requires Lists(s, n, lists) && 0 < |lists|
    ensures n < |s| && 0 <= s[n].next < |s|
  {
    DistinctOf(s, n, n + 0, lists[0], KindOf(0));
  }

  lemma RelistedRun(s: Pages, s1: Pages, s': Pages, n: nat, lists: seq<seq<nat>>, p: nat, len: nat)
    requires 1 <= len && p + len <= n < |s| && InnerFree(s, p, p + len) && s[p].slab == len
    requires s1 == if len > 1 then s[p + len - 1 := s[p + len - 1].(prev := p, kind := PAGE)] else s
    requires OnlyLinks(s1, s', n, lists, p, p + 1) && s'[p].slab == s1[p].slab && s'[p].kind == PAGE
    requires forall i: nat :: p < i < p + len ==> !Listed(lists, i)
    ensures FreeRunOk(s', n, p, len) && OnlyLinks(s, s', n, lists, p, p + len)
  {
    hide Listed;
  }

  lemma ListedPushed(lists: seq<seq<nat>>, g: nat, p: nat, x: nat)
    requires g < |lists|
    ensures Listed(lists[g := [p] + lists[g]], x) <==> Listed(lists, x) || x == p
  {
    hide Listed;
    ListedElsewhere(lists, g, [p] + lists[g], x);
    ListedElsewhere(lists, g, lists[g], x);
    assert lists[g := lists[g]] == lists;
  }

  lemma FinishFree(s: Pages, n: nat, runs: Runs, lists: seq<seq<nat>>, p: nat)
    requires Recorded(s, n, runs, lists, p) && p in runs
    ensures Follows(runs, n, p) && n < |s| && 0 <= s[n].next < |s|
    ensures Recorded(Relisted(s, n, p, runs[p].len), n, runs, lists[0 := [p] + lists[0]], NIL)
    ensures SameBusy(s, Relisted(s, n, p, runs[p].len), runs)
  {
    hide Lists, Listed, Relisted, InnerFree, FreeRunOk;
    RelistedPages(s, n, runs, lists, p);
    assert Follows(runs, n, NIL);
    var s', lists', e := Relisted(s, n, p, runs[p].len), lists[0 := [p] + lists[0]], End(runs, p);
    forall q | q in runs && q != p ensures RunOk(s', n, runs, q) {
      assert q < p ==> End(runs, q) <= p;
      assert p < q ==> End(runs, p) <= q;
      RunKept(s, s', n, runs, lists, p, q, p, e);
    }
    FinishMatch(s, s', n, runs, lists, p);
    FreeBusy(s, s', n, runs, lists, p);
  }

  lemma FinishMatch(s: Pages, s': Pages, n: nat, runs: Runs, lists: seq<seq<nat>>, p: nat)
    requires Recorded(s, n, runs, lists, p) && p in runs && OnlyLinks(s, s', n, lists, p, End(runs, p))
    ensures ListsMatch(s', runs, lists[0 := [p] + lists[0]], NIL)
  {
    hide Lists, Listed, RunOk, InnerFree;
    var lists', e := lists[0 := [p] + lists[0]], End(runs, p);
    forall x: nat ensures Listed(lists', x) <==> Listed(lists, x) || x == p { ListedPushed(lists, 0, p, x); }
    forall x: nat | x in runs && !Listed(lists', x) ensures x < |s'| && s'[x].next == NIL {
      assert p < x ==> End(runs, p) <= x;
      assert Follows(runs, n, x);
    }
  }

  // ---------- Taking pages out of a free run ----------

  lemma ListsSame(s: Pages, s': Pages, n: nat, lists: seq<seq<nat>>)
    requires Lists(s, n, lists) && |s'| == |s| && (forall y :: n <= y < |s| ==> s'[y] == s[y])
    requires forall y: nat :: y < n && Listed(lists, y) ==> s'[y] == s[y]
    ensures Lists(s', n, lists)
  {
    forall g | 0 <= g < |lists| ensures ListOk(s', n, n + g, lists[g], KindOf(g)) {
      assert ListOk(s, n, n + g, lists[g], KindOf(g));
      assert forall i :: 0 <= i < |lists[g]| ==> lists[g][i] in lists[g] && Listed(lists, lists[g][i]);
    }
  }

  /** k pages from p on are marked allocated. */
  ghost predicate TakenAt(s: Pages, s': Pages, p: int, k: nat) {
    |s'| == |s| && 0 <= p && 1 <= k && p + k <= |s| && s'[p] == Page(START + k, NIL, NIL, PAGE)
      && InnerBusy(s', p, p + k)
    && (forall y :: 0 <= y < |s| && !(p <= y < p + k) ==> s'[y] == s[y])
  }

  lemma TakeStep(s: Pages, s3: Pages, s': Pages, n: nat, runs: Runs, lists: seq<seq<nat>>, lists': seq<seq<nat>>,
                 p: nat, k: nat)
    requires Recorded(s, n, runs, lists, NIL) && p in runs && runs[p].free && 1 <= k <= runs[p].len
    requires OnlyLinks(s, s3, n, lists, p, End(runs, p)) && Lists(s3, n, lists') && |lists'| == LISTS
    requires TakenAt(s3, s', p, k)
    requires k < runs[p].len ==> FreeRunOk(s3, n, p + k, runs[p].len - k)
    requires forall x: nat :: Listed(lists', x) <==> (Listed(lists, x) && x != p) || (k < runs[p].len && x == p + k)
    requires forall x: nat :: x in lists'[0] <==> (x in lists[0] && x != p) || (k < runs[p].len && x == p + k)
    ensures Recorded(s', n, Split(runs, p, k), lists', NIL) && SameBusy(s, s', runs)
  {
    hide Lists, Listed, RunOk, FreeRunOk, ListsMatch;
    var runs', e := Split(runs, p, k), End(runs, p);
    Unlisted(s, n, runs, lists, NIL, p);
    SplitTiles(runs, n, p, k);
    TakeLists(s, s3, s', n, runs, lists, lists', p, k);
    forall q | q in runs' ensures RunOk(s', n, runs', q) {
      TakeRun(s, s3, s', n, runs, lists, p, k, q);
    }
    TakeMatch(s, s3, s', n, runs, lists, lists', p, k);
    SplitBusy(s, s3, s', n, runs, lists, p, k);
  }

  lemma TakeLists(s: Pages, s3: Pages, s': Pages, n: nat, runs: Runs, lists: seq<seq<nat>>, lists': seq<seq<nat>>,
                  p: nat, k: nat)
    requires Recorded(s, n, runs, lists, NIL) && p in runs && 1 <= k <= runs[p].len
    requires Lists(s3, n, lists') && |s3| == |s| && TakenAt(s3, s', p, k)
    requires forall x: nat :: Listed(lists', x) <==> (Listed(lists, x) && x != p) || (k < runs[p].len && x == p + k)
    ensures Lists(s', n, lists')
  {
    hide Lists, Listed, RunOk, ListsMatch;
    Unlisted(s, n, runs, lists, NIL, p);
    ListsSame(s3, s', n, lists');
  }

  lemma TakeRun(s: Pages, s3: Pages, s': Pages, n: nat, runs: Runs, lists: seq<seq<nat>>, p: nat, k: nat, q: int)
    requires Recorded(s, n, runs, lists, NIL) && p in runs && runs[p].free && 1 <= k <= runs[p].len
    requires OnlyLinks(s, s3, n, lists, p, End(runs, p)) && TakenAt(s3, s', p, k)
    requires k < runs[p].len ==> FreeRunOk(s3, n, p + k, runs[p].len - k)
    requires q in Split(runs, p, k)
    ensures RunOk(s', n, Split(runs, p, k), q)
  {
    hide Lists, Listed, ListsMatch;
    var runs', e := Split(runs, p, k), End(runs, p);
    if q != p && !(k < runs[p].len && q == p + k) {
      assert q < p ==> End(runs, q) <= p;
      assert p < q ==> End(runs, p) <= q;
      assert OnlyLinks(s, s', n, lists, p, e);
      RunKept(s, s', n, runs, lists, NIL, q, p, e);
      RunSame(s', n, runs, runs', q);
    }
  }

  lemma TakeMatch(s: Pages, s3: Pages, s': Pages, n: nat, runs: Runs, lists: seq<seq<nat>>, lists': seq<seq<nat>>,
                  p: nat, k: nat)
    requires Recorded(s, n, runs, lists, NIL) && p in runs && runs[p].free && 1 <= k <= runs[p].len
    requires OnlyLinks(s, s3, n, lists, p, End(runs, p)) && TakenAt(s3, s', p, k) && |lists'| == LISTS
    requires forall x: nat :: Listed(lists', x) <==> (Listed(lists, x) && x != p) || (k < runs[p].len && x == p + k)
    requires forall x: nat :: x in lists'[0] <==> (x in lists[0] && x != p) || (k < runs[p].len && x == p + k)
    ensures ListsMatch(s', Split(runs, p, k), lists', NIL)
  {
    hide Lists, Listed, RunOk, FreeRunOk;
    var runs', e := Split(runs, p, k), End(runs, p);
    assert Follows(runs, n, p);
    forall x: nat | x in runs' && !Listed(lists', x) ensures x < |s'| && s'[x].next == NIL {
      if x != p {
        assert p < x ==> End(runs, p) <= x;
        assert Follows(runs, n, x);
      }
    }
  }

  // ---------- The two ways to take pages ----------

  lemma MoveOnlyLinks(s: Pages, n: nat, lists: seq<seq<nat>>, i: nat, y: nat)
    requires Lists(s, n, lists) && 0 < |lists| && i < |lists[0]| && y < n && !Listed(lists, y)
    ensures 0 <= s[lists[0][i]].prev < |s| && 0 <= s[lists[0][i]].next < |s|
    ensures OnlyLinks(s, Moved(s, lists[0][i], y), n, lists, y, y + 1)
    ensures Moved(s, lists[0][i], y)[y].slab == s[y].slab && Moved(s, lists[0][i], y)[y].kind == PAGE
  {
    hide ListOk, Moved;
    assert y !in lists[0];
    Neighbours(s, n, n, lists[0], PAGE, i);
    MoveFrame(s, n, n, lists[0], i, y);
    assert forall z: nat :: !Listed(lists, z) ==> z !in lists[0];
  }

  /** The tail of the run becomes a free run of its own in the same place of the free list. */
  function CutOff(s: Pages, p: nat, len: nat, k: nat): Pages
    requires 1 <= k < len && p + len <= |s| && 0 <= s[p].prev < |s| && 0 <= s[p].next < |s|
  {
    var s1 := s[p + len - 1 := s[p + len - 1].(prev := p + k, kind := PAGE)];
    var s2 := s1[p + k := s1[p + k].(slab := len - k)];
    Moved(s2, p, p + k)
  }

  lemma CutOffPages(s: Pages, n: nat, runs: Runs, lists: seq<seq<nat>>, p: nat, i: nat, k: nat)
    requires Recorded(s, n, runs, lists, NIL) && p in runs && runs[p].free && 1 <= k < runs[p].len
    requires i < |lists[0]| && lists[0][i] == p
    ensures End(runs, p) <= n <= |s| && 0 <= s[p].prev < |s| && 0 <= s[p].next < |s|
    ensures var s3 := CutOff(s, p, runs[p].len, k); var l: seq<nat> := lists[0][i := p + k];
      Lists(s3, n, lists[0 := l]) && OnlyLinks(s, s3, n, lists, p, End(runs, p))
        && FreeRunOk(s3, n, p + k, runs[p].len - k)
  {
    hide Listed, Moved, Lists, Tiles;
    Unlisted(s, n, runs, lists, NIL, p);
    ListedPage(s, n, lists, 0, i);
    var len := runs[p].len;
    WriteUnlisted(s, n, lists, p + len - 1, s[p + len - 1].(prev := p + k, kind := PAGE));
    var s1 := s[p + len - 1 := s[p + len - 1].(prev := p + k, kind := PAGE)];
    WriteUnlisted(s1, n, lists, p + k, s1[p + k].(slab := len - k));
    var s2 := s1[p + k := s1[p + k].(slab := len - k)];
    MoveLists(s2, n, lists, i, p + k);
    MoveOnlyLinks(s2, n, lists, i, p + k);
  }

  lemma ListedPage(s: Pages, n: nat, lists: seq<seq<nat>>, g: nat, i: nat)
    requires Lists(s, n, lists) && g < |lists| && i < |lists[g]|
    ensures lists[g][i] < n < |s| && 0 <= s[lists[g][i]].prev < |s| && 0 <= s[lists[g][i]].next < |s|
    ensures s[lists[g][i]].next == After(n + g, lists[g], i) != lists[g][i] && Listed(lists, lists[g][i])
  {
    hide ListOk;
    Neighbours(s, n, n + g, lists[g], KindOf(g), i);
  }

  lemma ListedMoved(s: Pages, n: nat, lists: seq<seq<nat>>, i: nat, y: nat, x: nat)
    requires Lists(s, n, lists) && 0 < |lists| && i < |lists[0]| && !Listed(lists, y)
    ensures var l: seq<nat> := lists[0][i := y]; Listed(lists[0 := l], x) <==>
      (Listed(lists, x) && x != lists[0][i]) || x == y
    ensures var l: seq<nat> := lists[0][i := y]; x in l <==> (x in lists[0] && x != lists[0][i]) || x == y
  {
    hide ListOk;
    var l: seq<nat> := lists[0][i := y];
    assert y !in lists[0];
    DistinctOf(s, n, n, lists[0], PAGE);
    DistinctUpdate(lists[0], i, y);
    ListedElsewhere(lists, 0, l, x);
    ListedElsewhere(lists, 0, lists[0], x);
    assert lists[0 := lists[0]] == lists;
    assert forall h :: 0 < h < |lists| ==> Apart(lists[0], lists[h]);
    assert lists[0][i] in lists[0];
  }

  lemma TakePart(s: Pages, s': Pages, n: nat, runs: Runs, lists: seq<seq<nat>>, p: nat, i: nat, k: nat)
    requires Recorded(s, n, runs, lists, NIL) && p in runs && runs[p].free && 1 <= k < runs[p].len
    requires i < |lists[0]| && lists[0][i] == p
    requires End(runs, p) <= n <= |s| && 0 <= s[p].prev < |s| && 0 <= s[p].next < |s|
    requires TakenAt(CutOff(s, p, runs[p].len, k), s', p, k)
    ensures var l: seq<nat> := lists[0][i := p + k]; Recorded(s', n, Split(runs, p, k), lists[0 := l], NIL)
    ensures SameBusy(s, s', runs)
  {
    hide Listed, Lists, Tiles, TakenAt, CutOff, RunOk, OnlyLinks;
    var l: seq<nat> := lists[0][i := p + k];
    Unlisted(s, n, runs, lists, NIL, p);
    CutOffPages(s, n, runs, lists, p, i, k);
    forall x: nat
      ensures Listed(lists[0 := l], x) <==> (Listed(lists, x) && x != p) || x == p + k
      ensures x in l <==> (x in lists[0] && x != p) || x == p + k
    {
      ListedMoved(s, n, lists, i, p + k, x);
    }
    TakeStep(s, CutOff(s, p, runs[p].len, k), s', n, runs, lists, lists[0 := l], p, k);
  }

  lemma TakeWhole(s: Pages, s': Pages, n: nat, runs: Runs, lists: seq<seq<nat>>, p: nat, i: nat)
    requires Recorded(s, n, runs, lists, NIL) && p in runs && runs[p].free
    requires i < |lists[0]| && lists[0][i] == p
    requires p < |s| && 0 <= s[p].prev < |s| && 0 <= s[p].next < |s|
    requires TakenAt(Unlinked(s, p), s', p, runs[p].len)
    ensures runs[p].len >= 1 && Recorded(s', n, Split(runs, p, runs[p].len), lists[0 := Without(lists[0], i)], NIL)
    ensures SameBusy(s, s', runs)
  {
    hide Listed, Lists, Tiles, TakenAt, Unlinked, RunOk, Without;
    Unlisted(s, n, runs, lists, NIL, p);
    UnlinkLists(s, n, lists, 0, i);
    UnlinkOnlyLinks(s, n, lists, 0, i);
    UnlinkMatches(s, n, runs, lists, NIL, 0, i, p);
    TakeStep(s, Unlinked(s, p), s', n, runs, lists, lists[0 := Without(lists[0], i)], p, runs[p].len);
  }

  // ---------- What the allocator reads off a pool ----------

  lemma HeadFacts(s: Pages, n: nat, runs: Runs, lists: seq<seq<nat>>)
    requires PoolOk(s, n, runs, lists)
    ensures |lists| == LISTS && n < |s| && s[n].next == After(n, lists[0], -1)
  {
    assert ListOk(s, n, n + 0, lists[0], KindOf(0));
  }

  /** A page met on the way along the free list is the first of a free run of the length it states. */
  lemma FreeListFacts(s: Pages, n: nat, runs: Runs, lists: seq<seq<nat>>, i: nat)
    requires PoolOk(s, n, runs, lists) && |lists| == LISTS && i <= |lists[0]| && After(n, lists[0], i - 1) != n
    ensures i < |lists[0]| && lists[0][i] == After(n, lists[0], i - 1) < n < |s|
    ensures var p := lists[0][i];
      p in runs && runs[p].free && s[p].slab == runs[p].len && s[p].next == After(n, lists[0], i)
  {
    hide Lists;
    Unlisted(s, n, runs, lists, NIL, lists[0][i]);
    ListedPage(s, n, lists, 0, i);
  }

  lemma FreeListEnd(s: Pages, n: nat, runs: Runs, lists: seq<seq<nat>>, i: nat)
    requires PoolOk(s, n, runs, lists) && |lists| == LISTS && i <= |lists[0]| && After(n, lists[0], i - 1) == n
    ensures i == |lists[0]|
  {
    assert ListOk(s, n, n + 0, lists[0], KindOf(0));
  }

  lemma LongRunFits(runs: Runs, n: nat, p: int, k: nat)
    requires Tiles(runs, n) && p in runs && runs[p].free && k <= runs[p].len
    ensures Fits(runs, n, k) && AllFree(runs, p, k) && 0 <= p && p + k <= n
  {
    assert Follows(runs, n, p);
    assert forall i :: p <= i < p + k ==> Within(runs, p, i);
    assert AllFree(runs, p, k);
  }

  lemma NothingLong(s: Pages, n: nat, runs: Runs, lists: seq<seq<nat>>, k: nat)
    requires PoolOk(s, n, runs, lists) && |lists| == LISTS && 1 <= k
    requires forall j :: 0 <= j < |lists[0]| ==> lists[0][j] in runs && runs[lists[0][j]].len < k
    ensures !Fits(runs, n, k)
  {
    hide Lists, RunOk;
    FitsIffLongRun(runs, n, k);
    forall p | p in runs && runs[p].free ensures runs[p].len < k {
      assert Follows(runs, n, p) && Follows(runs, n, NIL);
      var j :| 0 <= j < |lists[0]| && lists[0][j] == p;
    }
  }

  /** The state that stl_slab_init sets up. */
  ghost predicate Fresh(s: Pages, n: nat) {
    1 <= n && |s| == n + LISTS && s[0] == Page(n, n, n, PAGE) && s[n].next == 0
    && (forall i :: 0 < i < n ==> s[i] == ZERO) && (forall h :: n < h < |s| ==> s[h].next == h)
  }

  lemma InitOk(s: Pages, n: nat, runs: Runs, lists: seq<seq<nat>>)
    requires Fresh(s, n) && n + 1 < START && runs == map[0 := Run(n, true)]
    requires |lists| == LISTS && lists[0] == [0] && forall g :: 1 <= g < LISTS ==> lists[g] == []
    ensures PoolOk(s, n, runs, lists) && Allocated(runs) == map[] && |FreePages(runs, n)| == n
  {
    forall p ensures Follows(runs, n, p) && Lonely(runs, p) {
    }
    forall x: nat ensures Listed(lists, x) <==> x == 0 {
      assert 0 in lists[0];
    }
    assert ListOk(s, n, n, lists[0], PAGE);
    forall i | 0 <= i < n ensures IsFree(runs, i) { assert Within(runs, 0, i); }
    assert FreePages(runs, n) == Interval(0, n);
    IntervalSize(0, n);
  }

  // ---------- What releasing reads off ----------

  /** A page has a next link exactly when it is in a list. */
  lemma NextIffListed(s: Pages, n: nat, runs: Runs, lists: seq<seq<nat>>, hole: int, p: nat)
    requires Recorded(s, n, runs, lists, hole) && p in runs && p != hole
    ensures |lists| == LISTS && p + runs[p].len <= n <= |s| && 1 <= runs[p].len
    ensures (s[p].next != NIL <==> Listed(lists, p))
  {
    hide RunOk, ListOk;
    assert Follows(runs, n, p);
    if Listed(lists, p) {
      var g :| 0 <= g < |lists| && p in lists[g];
      var i :| 0 <= i < |lists[g]| && lists[g][i] == p;
      Neighbours(s, n, n + g, lists[g], KindOf(g), i);
    }
  }

  lemma Whereabouts(s: Pages, n: nat, runs: Runs, lists: seq<seq<nat>>, hole: int, p: nat) returns (g: nat, i: nat)
    requires Recorded(s, n, runs, lists, hole) && Listed(lists, p)
    ensures g < LISTS == |lists| && i < |lists[g]| && lists[g][i] == p && (g == 0 <==> p in runs && runs[p].free)
  {
    hide RunOk, ListOk;
    g :| 0 <= g < |lists| && p in lists[g];
    i :| 0 <= i < |lists[g]| && lists[g][i] == p;
    if g != 0 { assert Apart(lists[g], lists[0]); }
  }

  /** The kind and next link of the page after a run tell whether a free run starts there. */
  lemma RightNeighbour(s: Pages, n: nat, runs: Runs, lists: seq<seq<nat>>, p: nat)
    requires Recorded(s, n, runs, lists, p) && p in runs && End(runs, p) < n
    ensures var q := End(runs, p);
      0 <= q < |s| && q in runs && q != p && (s[q].kind == PAGE && s[q].next != NIL <==> runs[q].free)
        && (runs[q].free ==> s[q].slab == runs[q].len)
  {
    hide Lists, Listed, InnerFree;
    var q: nat := End(runs, p);
    assert Follows(runs, n, p);
    Unlisted(s, n, runs, lists, p, q);
    NextIffListed(s, n, runs, lists, p, q);
    if runs[q].free { FreeIsListed(s, n, runs, lists, p, q); }
  }

  lemma FreeIsListed(s: Pages, n: nat, runs: Runs, lists: seq<seq<nat>>, hole: int, q: nat)
    requires Recorded(s, n, runs, lists, hole) && q in runs && q != hole && runs[q].free
    ensures Listed(lists, q)
  {
    hide Lists, RunOk, Tiles;
    assert q in lists[0];
  }

  /** The page before a run leads to the free run that ends there, if there is one. */
  lemma LeftNeighbour(s: Pages, n: nat, runs: Runs, lists: seq<seq<nat>>, p: nat, j: nat)
    requires Recorded(s, n, runs, lists, p) && p in runs && j in runs && End(runs, j) == p
    ensures 0 < p <= n <= |s| && j < p
    ensures s[p - 1].kind == PAGE && s[p - 1].slab == 0 ==> runs[j].free
    ensures runs[j].free ==>
      s[p - 1].kind == PAGE && (s[p - 1].slab == 0 ==> s[p - 1].prev == j) && (s[p - 1].slab != 0 ==> p - 1 == j)
    ensures runs[j].free ==> s[j].next != NIL && s[j].slab == runs[j].len
    ensures !runs[j].free && s[p - 1].kind == PAGE ==> s[p - 1].slab != 0 && s[p - 1].next == NIL
  {
    hide Recorded, Lists, Listed, Tiles;
    Unlisted(s, n, runs, lists, p, j);
    NextIffListed(s, n, runs, lists, p, j);
    if runs[j].free { FreeIsListed(s, n, runs, lists, p, j); }
    HoleFacts(s, n, runs, lists, p);
  }

  lemma HoleFacts(s: Pages, n: nat, runs: Runs, lists: seq<seq<nat>>, p: int)
    requires Recorded(s, n, runs, lists, p) && p in runs
    ensures 0 <= p < n <= |s| && s[p].slab == runs[p].len && runs[p].free && Tiles(runs, n) && |lists| == LISTS
    ensures 1 <= runs[p].len && End(runs, p) <= n && (End(runs, p) >= n ==> Lonely(runs, p))
  {
    hide Lists, RunOk;
    assert Follows(runs, n, p);
    if End(runs, p) in runs { assert Follows(runs, n, End(runs, p)); }
  }

  lemma FreeAt(s: Pages, n: nat, runs: Runs, lists: seq<seq<nat>>, hole: int, q: nat) returns (i: nat)
    requires Recorded(s, n, runs, lists, hole) && q in runs && runs[q].free && q != hole
    ensures |lists| == LISTS && i < |lists[0]| && lists[0][i] == q
  {
    hide Lists, RunOk, Tiles;
    assert q in lists[0];
    i :| 0 <= i < |lists[0]| && lists[0][i] == q;
  }

  lemma PrecedingRun(s: Pages, n: nat, runs: Runs, lists: seq<seq<nat>>, p: nat) returns (j: nat)
    requires Recorded(s, n, runs, lists, p) && p in runs && 0 < p
    ensures j in runs && End(runs, j) == p && forall q :: q in runs && End(runs, q) == p ==> q == j
    ensures p <= n <= |s| && j < p
    ensures runs[j].free ==>
      s[p - 1].kind == PAGE && (s[p - 1].slab == 0 ==> s[p - 1].prev == j) && (s[p - 1].slab != 0 ==> p - 1 == j)
    ensures runs[j].free ==> s[j].next != NIL && s[j].slab == runs[j].len
    ensures !runs[j].free && s[p - 1].kind == PAGE ==> s[p - 1].slab != 0 && s[p - 1].next == NIL
  {
    hide Lists, RunOk, ListsMatch, InnerFree;
    RunBefore(runs, n, p);
    var i :| i in runs && End(runs, i) == p;
    assert Follows(runs, n, i);
    j := i;
    LeftNeighbour(s, n, runs, lists, p, j);
    forall q | q in runs && End(runs, q) == p ensures q == j {
      SameEnd(runs, n, q, j);
    }
  }

  // ---------- Chunk pages move in and out of their slot's list ----------

  /** s' differs from s in links only, except that the allocated single page p may change kind. */
  lemma ChunkStep(s: Pages, s': Pages, n: nat, runs: Runs, lists: seq<seq<nat>>, lists': seq<seq<nat>>, p: nat)
    requires Recorded(s, n, runs, lists, NIL) && p in runs && !runs[p].free && runs[p].len == 1
    requires OnlyLinks(s, s', n, lists, p, p + 1) && Lists(s', n, lists') && |lists'| == LISTS && lists'[0] == lists[0]
    requires s'[p].kind != PAGE && (s'[p].next == NIL <==> !Listed(lists', p))
    requires forall y: nat :: y != p ==> (Listed(lists', y) <==> Listed(lists, y))
    ensures Recorded(s', n, runs, lists', NIL)
  {
    hide Lists, Listed;
    assert Follows(runs, n, p) && Follows(runs, n, NIL);
    forall q | q in runs && q != p ensures RunOk(s', n, runs, q) {
      assert q < p ==> End(runs, q) <= p;
      assert p < q ==> End(runs, p) <= q;
      RunKept(s, s', n, runs, lists, NIL, q, p, p + 1);
    }
    forall x: nat | x in runs && x != p && !Listed(lists', x) ensures x < |s'| && s'[x].next == NIL {
      assert Follows(runs, n, x);
    }
  }

  lemma DelistStep(s: Pages, n: nat, runs: Runs, lists: seq<seq<nat>>, g: nat, i: nat, p: nat)
    requires Recorded(s, n, runs, lists, NIL) && 1 <= g < LISTS && i < |lists[g]| && lists[g][i] == p
    ensures p < n <= |s| && 0 <= s[p].prev < |s| && 0 <= s[p].next < |s|
    ensures var s' := Unlinked(s, p);
      Recorded(s'[p := s'[p].(next := NIL, prev := NIL)], n, runs, lists[g := Without(lists[g], i)], NIL)
    ensures OnlyLinks(s, Unlinked(s, p), n, lists, p, p + 1) && Unlinked(s, p)[p] == s[p]
  {
    hide Lists, Listed, ListOk, Unlinked, Without, RunOk;
    ListedPage(s, n, lists, g, i);
    BusyChunk(s, n, runs, lists, g, i);
    UnlinkLists(s, n, lists, g, i);
    UnlinkOnlyLinks(s, n, lists, g, i);
    UnlinkMatches(s, n, runs, lists, NIL, g, i, p);
    var s1, lists' := Unlinked(s, p), lists[g := Without(lists[g], i)];
    WriteUnlisted(s1, n, lists', p, s1[p].(next := NIL, prev := NIL));
    ChunkStep(s, s1[p := s1[p].(next := NIL, prev := NIL)], n, runs, lists, lists', p);
  }

  /** The pages in a slot's list are single allocated pages of the slot's kind. */
  lemma BusyChunk(s: Pages, n: nat, runs: Runs, lists: seq<seq<nat>>, g: nat, i: nat)
    requires Recorded(s, n, runs, lists, NIL) && 1 <= g < LISTS && i < |lists[g]|
    ensures lists[g][i] < n <= |s|
    ensures var p := lists[g][i]; p in runs && !runs[p].free && runs[p].len == 1 && s[p].kind == KindOf(g) != PAGE
  {
    hide ListOk;
    var p := lists[g][i];
    Neighbours(s, n, n + g, lists[g], KindOf(g), i);
    assert p in lists[g] && Listed(lists, p) && Apart(lists[g], lists[0]);
    Unlisted(s, n, runs, lists, NIL, p);
  }

  lemma SlotHead(s: Pages, n: nat, runs: Runs, lists: seq<seq<nat>>, g: nat)
    requires Recorded(s, n, runs, lists, NIL) && g < LISTS
    ensures |lists| == LISTS && |s| == n + LISTS && s[n + g].next == After(n + g, lists[g], -1) < |s|
    ensures lists[g] != [] <==> s[n + g].next != n + g
  {
    assert ListOk(s, n, n + g, lists[g], KindOf(g));
    hide RunOk, Tiles;
  }

  lemma EnlistStep(s: Pages, s': Pages, n: nat, runs: Runs, lists: seq<seq<nat>>, g: nat, p: nat)
    requires 1 <= g < LISTS == |lists| && p < n && n + g < |s| == |s'| && 0 <= s[n + g].next < |s|
    requires s' == Pushed(s, n + g, p, KindOf(g))
    requires p in runs && !runs[p].free && runs[p].len == 1 && !Listed(lists, p)
    requires Recorded(s, n, runs, lists, NIL)
    ensures Recorded(s', n, runs, lists[g := [p] + lists[g]], NIL)
    ensures OnlyLinks(s, s', n, lists, p, p + 1) && s'[p].slab == s[p].slab && s'[p].kind == KindOf(g)
  {
    hide Lists, Listed, ListOk, Pushed, RunOk;
    PushLists(s, n, lists, g, p);
    PushOnlyLinks(s, n, lists, g, p);
    var lists' := lists[g := [p] + lists[g]];
    forall y: nat ensures Listed(lists', y) <==> Listed(lists, y) || y == p { ListedPushed(lists, g, p, y); }
    PushedNext(s, n, lists, g, p);
    ChunkStep(s, s', n, runs, lists, lists', p);
  }

  lemma PushedNext(s: Pages, n: nat, lists: seq<seq<nat>>, g: nat, p: nat)
    requires Lists(s, n, lists) && g < |lists| && p < n && !Listed(lists, p)
    ensures 0 <= s[n + g].next < |s| && Pushed(s, n + g, p, KindOf(g))[p].next != NIL
  {
    assert p !in lists[g];
    PushAdds(s, n, n + g, lists[g], KindOf(g), p);
    HeadNext(s, n, n + g, lists[g], KindOf(g), p);
    PushedAt(s, n + g, p, KindOf(g), p);
  }

  // ---------- Chunk pages keep their size word and kind while other runs come and go ----------

  ghost predicate SameBusy(s: Pages, s': Pages, runs: Runs) {
    |s| == |s'| && forall q :: q in runs && !runs[q].free ==>
      0 <= q < |s| && s'[q].slab == s[q].slab && s'[q].kind == s[q].kind
  }

  lemma OnlyLinksBusy(s: Pages, s': Pages, n: nat, runs: Runs, runs': Runs, lists: seq<seq<nat>>, p: int, e: int)
    requires Tiles(runs, n) && OnlyLinks(s, s', n, lists, p, e)
    requires forall q :: q in runs' && !runs'[q].free ==> q in runs && !(p <= q < e)
    ensures SameBusy(s, s', runs')
  {
    forall q | q in runs' && !runs'[q].free ensures 0 <= q < n { assert Follows(runs, n, q); }
  }

  lemma SplitBusy(s: Pages, s3: Pages, s': Pages, n: nat, runs: Runs, lists: seq<seq<nat>>, p: int, k: nat)
    requires Tiles(runs, n) && p in runs && runs[p].free && 1 <= k <= runs[p].len
    requires OnlyLinks(s, s3, n, lists, p, End(runs, p)) && TakenAt(s3, s', p, k)
    ensures SameBusy(s, s', runs)
  {
    forall q | q in runs && !runs[q].free
      ensures 0 <= q < n && s'[q].slab == s[q].slab && s'[q].kind == s[q].kind
    {
      assert Follows(runs, n, q) && Follows(runs, n, p);
      assert p < q ==> End(runs, p) <= q;
    }
  }

  lemma JoinBusy(s: Pages, s': Pages, n: nat, runs: Runs, lists: seq<seq<nat>>, p: int, e: int)
    requires Tiles(runs, n) && OnlyLinks(s, s', n, lists, p, e) && p in runs && End(runs, p) in runs
    requires runs[p].free && runs[End(runs, p)].free && e == End(runs, End(runs, p))
    ensures SameBusy(s, s', Joined(runs, p))
  {
    forall q | q in Joined(runs, p) && !Joined(runs, p)[q].free
      ensures q in runs && !(p <= q < e)
    {
      assert p < q ==> End(runs, p) <= q;
      assert End(runs, p) < q ==> End(runs, End(runs, p)) <= q;
    }
    OnlyLinksBusy(s, s', n, runs, Joined(runs, p), lists, p, e);
  }

  lemma FreeBusy(s: Pages, s': Pages, n: nat, runs: Runs, lists: seq<seq<nat>>, p: int)
    requires Tiles(runs, n) && p in runs && runs[p].free && OnlyLinks(s, s', n, lists, p, End(runs, p))
    ensures SameBusy(s, s', runs)
  {
    forall q | q in runs && !runs[q].free ensures !(p <= q < End(runs, p)) {
      assert p < q ==> End(runs, p) <= q;
    }
    OnlyLinksBusy(s, s', n, runs, runs, lists, p, End(runs, p));
  }

  lemma SameBusyRefl(s: Pages, n: nat, runs: Runs)
    requires Tiles(runs, n) && n <= |s|
    ensures SameBusy(s, s, runs)
  {
    forall q | q in runs ensures 0 <= q < n { assert Follows(runs, n, q); }
  }

  lemma SameBusyTrans(s: Pages, s1: Pages, s2: Pages, runs1: Runs, runs2: Runs)
    requires SameBusy(s, s1, runs1) && SameBusy(s1, s2, runs2) && Allocated(runs1) == Allocated(runs2)
    ensures SameBusy(s, s2, runs2)
  {
    forall q | q in runs2 && !runs2[q].free ensures q in runs1 && !runs1[q].free {
      assert q in Allocated(runs2);
    }
  }

  /** Every list loses exactly the unlinked page. */
  lemma WithoutOthers(s: Pages, n: nat, lists: seq<seq<nat>>, g: nat, i: nat)
    requires Lists(s, n, lists) && g < |lists| && i < |lists[g]|
    ensures var lists' := lists[g := Without(lists[g], i)];
      forall h, x :: 0 <= h < |lists| ==> (x in lists'[h] <==> x in lists[h] && x != lists[g][i])
  {
    hide ListOk, Without;
    DistinctOf(s, n, n + g, lists[g], KindOf(g));
    DistinctWithout(lists[g], i);
    assert lists[g][i] in lists[g];
    assert forall h :: 0 <= h < |lists| && h != g ==> Apart(lists[g], lists[h]);
  }

  lemma SameBusyOne(s: Pages, s': Pages, n: nat, runs: Runs, lists: seq<seq<nat>>, p: nat)
    requires Tiles(runs, n) && OnlyLinks(s, s', n, lists, p, p + 1) && p < n && s'[p].slab == s[p].slab
    requires s'[p].kind == s[p].kind
    ensures SameBusy(s, s', runs)
  {
    forall q | q in runs ensures 0 <= q < n { assert Follows(runs, n, q); }
  }

  lemma FreshStep(s: Pages, s': Pages, n: nat, runs: Runs, lists: seq<seq<nat>>, g: nat, p: nat, slab: nat)
    requires 1 <= g < LISTS == |lists| && p < n && |s| == n + LISTS && lists[g] == [] && s[n + g].next == n + g
    requires s' == s[p := Page(slab, n + g, n + g, KindOf(g))][n + g := s[n + g].(next := p)]
    requires p in runs && !runs[p].free && runs[p].len == 1 && !Listed(lists, p)
    requires Recorded(s, n, runs, lists, NIL)
    ensures Recorded(s', n, runs, lists[g := [p]], NIL)
    ensures SameBusy(s[p := Page(slab, NIL, NIL, KindOf(g))], s', runs)
  {
    hide Listed, ListOk, RunOk;
    var lists' := lists[g := [p]];
    assert [p] + lists[g] == [p];
    forall y: nat ensures Listed(lists', y) <==> Listed(lists, y) || y == p { ListedPushed(lists, g, p, y); }
    forall h | 0 <= h < LISTS ensures ListOk(s', n, n + h, lists'[h], KindOf(h)) {
      FreshList(s, s', n, lists, g, p, h);
    }
    InNoList(lists, p);
    ApartUpdate(lists, g, [p]);
    ChunkStep(s, s', n, runs, lists, lists', p);
    forall q | q in runs ensures 0 <= q < n { assert Follows(runs, n, q); }
  }

  lemma FreshList(s: Pages, s': Pages, n: nat, lists: seq<seq<nat>>, g: nat, p: nat, h: nat)
    requires 1 <= g < LISTS == |lists| && p < n && |s| == n + LISTS == |s'| && lists[g] == [] && h < LISTS
    requires s'[p].next == n + g && s'[p].prev == n + g && s'[p].kind == KindOf(g) && s'[n + g].next == p
    requires forall y :: 0 <= y < |s| && y != p && y != n + g ==> s'[y] == s[y]
    requires !Listed(lists, p) && ListOk(s, n, n + h, lists[h], KindOf(h))
    ensures ListOk(s', n, n + h, lists[g := [p]][h], KindOf(h))
  {
    InNoList(lists, p);
    if h != g {
      assert forall i :: 0 <= i < |lists[h]| ==> lists[h][i] in lists[h];
    }
  }

  /** What the descriptor of any page says: only the first page of an allocated run looks like one. */
  lemma PageWord(s: Pages, n: nat, runs: Runs, lists: seq<seq<nat>>, q: nat)
    requires Recorded(s, n, runs, lists, NIL) && q < n
    ensures q < |s| && (q !in Allocated(runs) ==> s[q].kind == PAGE && (s[q].slab < START || s[q].slab == BUSY))
    ensures q in Allocated(runs) && s[q].kind == PAGE ==> s[q].slab == START + Allocated(runs)[q] && s[q].slab != BUSY
    ensures q in Allocated(runs) && s[q].kind != PAGE ==> Allocated(runs)[q] == 1
  {
    hide Lists, ListsMatch;
    Covered(runs, n, q);
    var p :| Within(runs, p, q);
    assert Follows(runs, n, p) && RunOk(s, n, runs, p);
    if p < q {
      StartsOnly(runs, n, p, q);
    }
  }

  lemma PoolFacts(s: Pages, n: nat, runs: Runs, lists: seq<seq<nat>>)
    requires PoolOk(s, n, runs, lists)
    ensures Tiles(runs, n) && |lists| == LISTS && |s| == n + LISTS && Recorded(s, n, runs, lists, NIL) && Loose(runs)
  {
    hide RunOk, ListOk;
  }
}
