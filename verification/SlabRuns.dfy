// Page runs: how allocated and free runs tile the page array, and how the descriptors record them.
module SlabRuns {
  import opened SlabLists

  const START: nat := 0x8000_0000_0000_0000
  const BUSY: nat := 0xffff_ffff_ffff_ffff

  datatype Run = Run(len: nat, free: bool)

  /** Runs keyed by their first page. */
  type Runs = map<int, Run>

  ghost function End(runs: Runs, p: int): int
    requires p in runs
  {
    p + runs[p].len
  }

  /** A run is not empty and is followed by another run or by the end of the pages. */
  ghost predicate Follows(runs: Runs, n: nat, p: int) {
    p in runs ==> 0 <= p && runs[p].len >= 1 && End(runs, p) <= n && (End(runs, p) < n ==> End(runs, p) in runs)
  }

  /** The runs cover the pages 0..n exactly and do not overlap. */
  ghost predicate Tiles(runs: Runs, n: nat) {
    (n > 0 ==> 0 in runs)
    && (forall p {:trigger Follows(runs, n, p)} :: Follows(runs, n, p))
    && (forall p, q :: p in runs && q in runs && p < q ==> End(runs, p) <= q)
  }

  ghost predicate Lonely(runs: Runs, p: int) {
    p in runs && runs[p].free && End(runs, p) in runs ==> !runs[End(runs, p)].free
  }

  /** No two free runs touch. */
  ghost predicate Loose(runs: Runs) { forall p {:trigger Lonely(runs, p)} :: Lonely(runs, p) }

  ghost predicate Within(runs: Runs, p: int, i: int) { p in runs && p <= i < End(runs, p) }

  ghost predicate IsFree(runs: Runs, i: int) { exists p :: Within(runs, p, i) && runs[p].free }

  ghost function FreePages(runs: Runs, n: nat): set<int> { set i | 0 <= i < n && IsFree(runs, i) }

  ghost predicate Between(p: int, i: int, q: int) { p <= i < q }

  ghost function Interval(p: int, q: int): set<int> { set i | p <= i < q && Between(p, i, q) }

  /** The allocated runs: what the pool owes its callers. */
  ghost function Allocated(runs: Runs): map<int, nat> { map p | p in runs && !runs[p].free :: runs[p].len }

  lemma {:induction false} IntervalSize(p: int, q: int)
    requires p <= q
    ensures |Interval(p, q)| == q - p
    decreases q - p
  {
    if p < q {
      IntervalSize(p, q - 1);
      IntervalGrows(p, q);
    }
  }

  lemma IntervalGrows(p: int, q: int)
    requires p < q
    ensures Interval(p, q) == Interval(p, q - 1) + {q - 1} && q - 1 !in Interval(p, q - 1)
  {
  }

  /** Every page lies in a run. */
  lemma {:induction false} Covered(runs: Runs, n: nat, i: nat)
    requires Tiles(runs, n) && i < n
    ensures exists p :: Within(runs, p, i)
    decreases i
  {
    if i == 0 {
      assert Follows(runs, n, 0) && Within(runs, 0, 0);
    } else {
      Covered(runs, n, i - 1);
      var p :| Within(runs, p, i - 1);
      assert Follows(runs, n, p);
      if i < End(runs, p) {
        assert Within(runs, p, i);
      } else {
        assert Follows(runs, n, i) && Within(runs, i, i);
      }
    }
  }

  /** ... and in only one. */
  lemma WithinUnique(runs: Runs, n: nat, p: int, q: int, i: int)
    requires Tiles(runs, n) && Within(runs, p, i) && Within(runs, q, i)
    ensures p == q
  {
  }

  // ---------- A request fits exactly when some free run is long enough ----------

  ghost predicate AllFree(runs: Runs, a: int, k: nat) { forall i :: a <= i < a + k ==> IsFree(runs, i) }

  /** Some k consecutive pages are free. */
  ghost predicate Fits(runs: Runs, n: nat, k: nat) { exists a :: 0 <= a && a + k <= n && AllFree(runs, a, k) }

  lemma BusyAfterFree(runs: Runs, n: nat, p: int)
    requires Tiles(runs, n) && Loose(runs) && p in runs && runs[p].free
    ensures !IsFree(runs, End(runs, p))
  {
    var e := End(runs, p);
    assert Lonely(runs, p) && Follows(runs, n, p) && Follows(runs, n, e);
    if e < n { assert Within(runs, e, e); }
    forall q | Within(runs, q, e) ensures !runs[q].free {
      assert Follows(runs, n, q);
      WithinUnique(runs, n, q, e, e);
    }
  }

  /** Consecutive free pages all lie in one run, since free runs do not touch. */
  lemma {:induction false} FreeStretchInOneRun(runs: Runs, n: nat, a: int, k: nat)
    requires Tiles(runs, n) && Loose(runs) && k >= 1 && 0 <= a && a + k <= n && AllFree(runs, a, k)
    ensures exists p :: Within(runs, p, a) && runs[p].free && a + k <= End(runs, p)
    decreases k
  {
    if k == 1 {
      assert IsFree(runs, a);
    } else {
      FreeStretchInOneRun(runs, n, a, k - 1);
      var p :| Within(runs, p, a) && runs[p].free && a + (k - 1) <= End(runs, p);
      BusyAfterFree(runs, n, p);
      assert End(runs, p) != a + (k - 1) by {
        assert IsFree(runs, a + (k - 1));
      }
    }
  }

  lemma FitsIffLongRun(runs: Runs, n: nat, k: nat)
    requires Tiles(runs, n) && Loose(runs) && k >= 1
    ensures Fits(runs, n, k) <==> exists p :: p in runs && runs[p].free && k <= runs[p].len
  {
    if Fits(runs, n, k) {
      var a :| 0 <= a && a + k <= n && AllFree(runs, a, k);
      FreeStretchInOneRun(runs, n, a, k);
    }
    if p :| p in runs && runs[p].free && k <= runs[p].len {
      assert Follows(runs, n, p);
      assert forall i :: p <= i < p + k ==> Within(runs, p, i);
      assert AllFree(runs, p, k);
    }
  }

  // ---------- Taking pages from a free run ----------

  ghost function Split(runs: Runs, p: int, k: nat): Runs
    requires p in runs && 1 <= k <= runs[p].len
  {
    if k == runs[p].len then runs[p := Run(k, false)]
    else runs[p := Run(k, false)][p + k := Run(runs[p].len - k, true)]
  }

  lemma SplitTiles(runs: Runs, n: nat, p: int, k: nat)
    requires Tiles(runs, n) && p in runs && 1 <= k <= runs[p].len
    ensures Tiles(Split(runs, p, k), n)
  {
    var runs' := Split(runs, p, k);
    assert Follows(runs, n, p);
    forall q ensures Follows(runs', n, q) {
      assert Follows(runs, n, q);
    }
  }

  lemma SplitLoose(runs: Runs, n: nat, p: int, k: nat)
    requires Tiles(runs, n) && Loose(runs) && p in runs && runs[p].free && 1 <= k <= runs[p].len
    ensures Loose(Split(runs, p, k))
    ensures Allocated(Split(runs, p, k)) == Allocated(runs)[p := k] && p !in Allocated(runs)
  {
    var runs' := Split(runs, p, k);
    assert Follows(runs, n, p) && Lonely(runs, p);
    forall q ensures Lonely(runs', q) {
      assert Lonely(runs, q);
    }
  }

  lemma SplitAt(runs: Runs, n: nat, p: int, k: nat, i: int)
    requires Tiles(runs, n) && p in runs && runs[p].free && 1 <= k <= runs[p].len
    ensures IsFree(runs, i) <==> IsFree(Split(runs, p, k), i) || p <= i < p + k
    ensures p <= i < p + k ==> !IsFree(Split(runs, p, k), i)
  {
    var runs' := Split(runs, p, k);
    assert Follows(runs, n, p);
    if IsFree(runs', i) {
      var q :| Within(runs', q, i) && runs'[q].free;
      assert Within(runs, if q == p + k && k < runs[p].len then p else q, i);
    }
    if IsFree(runs, i) && !(p <= i < p + k) {
      var q :| Within(runs, q, i) && runs[q].free;
      assert Within(runs', if q == p then p + k else q, i);
    }
    if p <= i < p + k { assert Within(runs, p, i); }
  }

  lemma SplitFreePages(runs: Runs, n: nat, p: int, k: nat)
    requires Tiles(runs, n) && p in runs && runs[p].free && 1 <= k <= runs[p].len
    ensures FreePages(runs, n) == FreePages(Split(runs, p, k), n) + Interval(p, p + k)
    ensures |FreePages(Split(runs, p, k), n)| == |FreePages(runs, n)| - k
  {
    hide IsFree, Split;
    assert Follows(runs, n, p);
    forall i ensures IsFree(runs, i) <==> IsFree(Split(runs, p, k), i) || p <= i < p + k
      ensures p <= i < p + k ==> !IsFree(Split(runs, p, k), i)
    {
      SplitAt(runs, n, p, k, i);
    }
    IntervalSize(p, p + k);
    FreedUnion(Split(runs, p, k), runs, n, p, p + k);
  }

  // ---------- Giving a run back ----------

  /** The run at p and the one after it become one free run. */
  ghost function Joined(runs: Runs, p: int): Runs
    requires p in runs && End(runs, p) in runs
  {
    var q := End(runs, p);
    (runs - {q})[p := Run(runs[p].len + runs[q].len, true)]
  }

  lemma JoinTiles(runs: Runs, n: nat, p: int)
    requires Tiles(runs, n) && p in runs && End(runs, p) in runs
    ensures Tiles(Joined(runs, p), n)
  {
    var runs', q := Joined(runs, p), End(runs, p);
    assert Follows(runs, n, p) && Follows(runs, n, q);
    assert End(runs', p) == End(runs, q);
    forall r | r in runs' && r != p ensures End(runs', r) == End(runs, r) != q {
      assert Follows(runs, n, r);
    }
    forall r ensures Follows(runs', n, r) {
      assert Follows(runs, n, r);
    }
  }

  ghost function Freed(runs: Runs, p: int): Runs
    requires p in runs
  {
    runs[p := Run(runs[p].len, true)]
  }

  lemma FreedTiles(runs: Runs, n: nat, p: int)
    requires Tiles(runs, n) && p in runs
    ensures Tiles(Freed(runs, p), n)
  {
    var runs' := Freed(runs, p);
    forall q ensures Follows(runs', n, q) {
      assert Follows(runs, n, q);
    }
  }

  /** Joining free runs changes neither what is free nor what is allocated. */
  lemma JoinSame(runs: Runs, n: nat, p: int)
    requires Tiles(runs, n) && p in runs && End(runs, p) in runs && runs[p].free && runs[End(runs, p)].free
    ensures FreePages(Joined(runs, p), n) == FreePages(runs, n)
    ensures Allocated(Joined(runs, p)) == Allocated(runs)
  {
    var runs', q := Joined(runs, p), End(runs, p);
    assert Follows(runs, n, p) && Follows(runs, n, q);
    forall i | 0 <= i < n ensures IsFree(runs', i) <==> IsFree(runs, i) {
      if IsFree(runs', i) {
        var r :| Within(runs', r, i) && runs'[r].free;
        assert Within(runs, if r == p && q <= i then q else r, i);
      }
      if IsFree(runs, i) {
        var r :| Within(runs, r, i) && runs[r].free;
        assert Within(runs', if r == q then p else r, i);
      }
    }
  }

  lemma FreedAt(runs: Runs, n: nat, p: int, i: int)
    requires Tiles(runs, n) && p in runs && !runs[p].free
    ensures IsFree(Freed(runs, p), i) <==> IsFree(runs, i) || p <= i < End(runs, p)
    ensures p <= i < End(runs, p) ==> !IsFree(runs, i)
  {
    var runs' := Freed(runs, p);
    if IsFree(runs', i) {
      var r :| Within(runs', r, i) && runs'[r].free;
      assert r == p || Within(runs, r, i);
    }
    if IsFree(runs, i) {
      var r :| Within(runs, r, i) && runs[r].free;
      assert Within(runs', r, i);
    }
    if p <= i < End(runs, p) {
      assert Within(runs', p, i) && Within(runs, p, i);
      forall r | Within(runs, r, i) ensures r == p { WithinUnique(runs, n, p, r, i); }
    }
  }

  lemma FreedPages(runs: Runs, n: nat, p: int)
    requires Tiles(runs, n) && p in runs && !runs[p].free
    ensures FreePages(Freed(runs, p), n) == FreePages(runs, n) + Interval(p, End(runs, p))
    ensures |FreePages(Freed(runs, p), n)| == |FreePages(runs, n)| + runs[p].len
    ensures Allocated(Freed(runs, p)) == Allocated(runs) - {p}
  {
    hide IsFree, Tiles, Freed, Allocated;
    FreedAllocated(runs, n, p);
    forall i ensures IsFree(Freed(runs, p), i) <==> IsFree(runs, i) || p <= i < End(runs, p)
      ensures p <= i < End(runs, p) ==> !IsFree(runs, i)
    {
      FreedAt(runs, n, p, i);
    }
    IntervalSize(p, End(runs, p));
    FreedUnion(runs, Freed(runs, p), n, p, End(runs, p));
  }

  lemma FreedAllocated(runs: Runs, n: nat, p: int)
    requires Tiles(runs, n) && p in runs && !runs[p].free
    ensures Allocated(Freed(runs, p)) == Allocated(runs) - {p} && 0 <= p && End(runs, p) <= n
  {
    assert Follows(runs, n, p);
  }

  lemma FreedUnion(runs: Runs, runs': Runs, n: nat, p: int, e: int)
    requires 0 <= p <= e <= n
    requires forall i :: IsFree(runs', i) <==> IsFree(runs, i) || p <= i < e
    requires forall i :: p <= i < e ==> !IsFree(runs, i)
    ensures FreePages(runs', n) == FreePages(runs, n) + Interval(p, e)
    ensures |FreePages(runs', n)| == |FreePages(runs, n)| + |Interval(p, e)|
  {
    hide IsFree;
    assert FreePages(runs, n) !! Interval(p, e);
    assert FreePages(runs', n) == FreePages(runs, n) + Interval(p, e);
  }

  lemma AllFreeWhenNone(runs: Runs, n: nat)
    requires Tiles(runs, n) && Allocated(runs) == map[]
    ensures FreePages(runs, n) == Interval(0, n)
  {
    forall i | 0 <= i < n ensures IsFree(runs, i) {
      Covered(runs, n, i);
      var p :| Within(runs, p, i);
      assert p !in Allocated(runs);
    }
    forall i | 0 <= i < n ensures i in Interval(0, n) {
      assert Between(0, i, n);
    }
  }

  /** Free runs do not touch, except perhaps the one at p on either side. */
  ghost predicate LooseBut(runs: Runs, p: int) {
    forall q {:trigger Lonely(runs, q)} :: q != p && !(q in runs && End(runs, q) == p) ==> Lonely(runs, q)
  }

  lemma FreedLoose(runs: Runs, n: nat, p: int)
    requires Tiles(runs, n) && Loose(runs) && p in runs
    ensures LooseBut(Freed(runs, p), p)
  {
    forall q | q != p && !(q in Freed(runs, p) && End(Freed(runs, p), q) == p) ensures Lonely(Freed(runs, p), q) {
      assert Lonely(runs, q);
    }
  }

  lemma JoinRightLoose(runs: Runs, n: nat, p: int)
    requires Tiles(runs, n) && LooseBut(runs, p) && p in runs && runs[p].free && End(runs, p) in runs
    requires runs[End(runs, p)].free
    ensures LooseBut(Joined(runs, p), p) && Lonely(Joined(runs, p), p)
  {
    var runs', q := Joined(runs, p), End(runs, p);
    assert Follows(runs, n, p) && Follows(runs, n, q) && Lonely(runs, q);
    assert End(runs', p) == End(runs, q);
    forall r | r in runs' && r != p ensures End(runs', r) == End(runs, r) != q {
      assert Follows(runs, n, r);
    }
    forall r | r != p && !(r in runs' && End(runs', r) == p) ensures Lonely(runs', r) {
      assert Lonely(runs, r);
    }
  }

  lemma JoinLeftLoose(runs: Runs, n: nat, j: int, p: int)
    requires Tiles(runs, n) && LooseBut(runs, p) && p in runs && runs[p].free && Lonely(runs, p)
    requires j in runs && End(runs, j) == p && runs[j].free
    ensures Loose(Joined(runs, j))
  {
    var runs' := Joined(runs, j);
    assert Follows(runs, n, j) && Follows(runs, n, p);
    forall r ensures Lonely(runs', r) {
      if r != p && r != j && r in runs {
        assert Follows(runs, n, r);
        assert r < j ==> End(runs, r) <= j;
        assert Lonely(runs, r);
      }
    }
  }

  lemma NoLeftLoose(runs: Runs, n: nat, p: int)
    requires Tiles(runs, n) && LooseBut(runs, p) && Lonely(runs, p)
    requires forall j :: j in runs && End(runs, j) == p ==> !runs[j].free
    ensures Loose(runs)
  {
    forall r ensures Lonely(runs, r) {
    }
  }

  /** The run before p, if p is not the first page. */
  lemma RunBefore(runs: Runs, n: nat, p: int)
    requires Tiles(runs, n) && p in runs && 0 < p
    ensures exists j :: j in runs && End(runs, j) == p
  {
    assert Follows(runs, n, p);
    Covered(runs, n, p - 1);
    var j :| Within(runs, j, p - 1);
    assert Follows(runs, n, j);
    assert j in runs && End(runs, j) == p;
  }

  lemma SameEnd(runs: Runs, n: nat, p: int, q: int)
    requires Tiles(runs, n) && p in runs && q in runs && End(runs, p) == End(runs, q)
    ensures p == q
  {
    assert Follows(runs, n, p) && Follows(runs, n, q);
  }

  lemma NothingBeforeFirst(runs: Runs, n: nat)
    requires Tiles(runs, n)
    ensures forall j :: j in runs ==> End(runs, j) != 0
  {
    forall j | j in runs ensures End(runs, j) != 0 { assert Follows(runs, n, j); }
  }
}
