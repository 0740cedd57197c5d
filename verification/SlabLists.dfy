// The page descriptors of module/stl/src/stl_slab.c and the circular doubly linked lists threaded
// through them. A descriptor is named by its index; the list heads follow the n page descriptors.
module SlabLists {

  /** NULL, and the two low bits of `prev` that give a page its kind. */
  const NIL: int := -1
  const PAGE: nat := 0
  const BIG: nat := 1
  const EXACT: nat := 2
  const SMALL: nat := 3

  /** stl_slab_page, with the pointer and the kind bits of `prev` held apart. */
  datatype Page = Page(slab: nat, next: int, prev: int, kind: nat)

  type Pages = seq<Page>

  ghost predicate Distinct(l: seq<nat>) { forall i, j :: 0 <= i < j < |l| ==> l[i] != l[j] }

  /** The node after, and before, position i of the list headed by h. */
  ghost function After(h: nat, l: seq<nat>, i: int): nat
    requires -1 <= i < |l|
  {
    if i + 1 < |l| then l[i + 1] else h
  }

  ghost function Before(h: nat, l: seq<nat>, i: int): nat
    requires 0 <= i < |l|
  {
    if i == 0 then h else l[i - 1]
  }

  /** From head h the `next` links visit exactly l, and `prev` leads back. Every page of the list
      has the same kind. The head's own `prev` is never used. */
  ghost predicate ListOk(s: Pages, n: nat, h: nat, l: seq<nat>, kind: nat) {
    n <= h < |s| && s[h].next == After(h, l, -1) && Distinct(l)
    && (forall i :: 0 <= i < |l| ==> l[i] < n)
    && (forall i :: 0 <= i < |l| ==>
      s[l[i]].next == After(h, l, i) && s[l[i]].prev == Before(h, l, i) && s[l[i]].kind == kind)
  }

  ghost function Without(l: seq<nat>, i: nat): seq<nat>
    requires i < |l|
  {
    l[..i] + l[i + 1..]
  }

  /** prev->next = x->next; x->next->prev = x->prev */
  function Unlinked(s: Pages, x: nat): (r: Pages)
    requires x < |s| && 0 <= s[x].prev < |s| && 0 <= s[x].next < |s|
    ensures |r| == |s|
  {
    var t := s[s[x].prev := s[s[x].prev].(next := s[x].next)];
    t[t[x].next := t[t[x].next].(prev := t[x].prev, kind := t[x].kind)]
  }

  lemma WithoutIndex(l: seq<nat>, i: nat, j: nat)
    requires i < |l| && j < |l| - 1
    ensures |Without(l, i)| == |l| - 1 && Without(l, i)[j] == l[if j < i then j else j + 1]
  {
  }

  /** What unlinking x writes, descriptor by descriptor. */
  lemma UnlinkedAt(s: Pages, x: nat, y: nat)
    requires x < |s| && y < |s| && 0 <= s[x].prev < |s| && 0 <= s[x].next < |s| && s[x].prev != x
    ensures Unlinked(s, x)[y].slab == s[y].slab
    ensures Unlinked(s, x)[y].next == if y == s[x].prev then s[x].next else s[y].next
    ensures Unlinked(s, x)[y].prev == if y == s[x].next then s[x].prev else s[y].prev
    ensures Unlinked(s, x)[y].kind == if y == s[x].next then s[x].kind else s[y].kind
  {
  }

  lemma Neighbours(s: Pages, n: nat, h: nat, l: seq<nat>, kind: nat, i: nat)
    requires ListOk(s, n, h, l, kind) && i < |l|
    ensures l[i] < n <= h < |s| && s[l[i]].prev == Before(h, l, i) && s[l[i]].next == After(h, l, i)
    ensures s[l[i]].kind == kind
    ensures Before(h, l, i) < |s| && After(h, l, i) < |s| && Before(h, l, i) != l[i] && After(h, l, i) != l[i]
    ensures forall j :: 0 <= j < |l| ==>
      (l[j] == Before(h, l, i) <==> j == i - 1) && (l[j] == After(h, l, i) <==> j == i + 1)
    ensures forall y :: 0 <= y < n && y !in l ==> y != Before(h, l, i) && y != After(h, l, i)
  {
  }

  lemma UnlinkStep(s: Pages, n: nat, h: nat, l: seq<nat>, kind: nat, i: nat, j: nat)
    requires ListOk(s, n, h, l, kind) && i < |l| && j < |l| - 1
    requires 0 <= s[l[i]].prev < |s| && 0 <= s[l[i]].next < |s| && s[l[i]].prev != l[i]
    ensures var l', s' := Without(l, i), Unlinked(s, l[i]);
      |l'| == |l| - 1 && l'[j] < n && l'[j] != l[i] && s'[l'[j]].next == After(h, l', j)
      && s'[l'[j]].prev == Before(h, l', j) && s'[l'[j]].kind == kind
  {
    hide ListOk, Unlinked, Without;
    var k := if j < i then j else j + 1;
    Neighbours(s, n, h, l, kind, i);
    Neighbours(s, n, h, l, kind, k);
    WithoutIndex(l, i, j);
    if j + 1 < |l| - 1 { WithoutIndex(l, i, j + 1); }
    if j > 0 { WithoutIndex(l, i, j - 1); }
    UnlinkedAt(s, l[i], l[k]);
  }

  lemma DistinctWithout(l: seq<nat>, i: nat)
    requires Distinct(l) && i < |l|
    ensures Distinct(Without(l, i)) && l[i] !in Without(l, i)
    ensures forall x :: x in l <==> x == l[i] || x in Without(l, i)
  {
    forall x | x in l && x != l[i] ensures x in Without(l, i) {
      var j :| 0 <= j < |l| && l[j] == x;
      assert Without(l, i)[if j < i then j else j - 1] == x;
    }
  }

  /** Unlinking takes exactly that page out of its list. */
  lemma UnlinkRemoves(s: Pages, n: nat, h: nat, l: seq<nat>, kind: nat, i: nat)
    requires ListOk(s, n, h, l, kind) && i < |l|
    ensures 0 <= s[l[i]].prev < |s| && 0 <= s[l[i]].next < |s|
    ensures ListOk(Unlinked(s, l[i]), n, h, Without(l, i), kind)
  {
    Neighbours(s, n, h, l, kind, i);
    DistinctWithout(l, i);
    UnlinkedAt(s, l[i], h);
    forall j | 0 <= j < |l| - 1
      ensures var l', s' := Without(l, i), Unlinked(s, l[i]);
        |l'| == |l| - 1 && l'[j] < n && s'[l'[j]].next == After(h, l', j)
        && s'[l'[j]].prev == Before(h, l', j) && s'[l'[j]].kind == kind
    {
      UnlinkStep(s, n, h, l, kind, i, j);
    }
    if |l| > 1 { WithoutIndex(l, i, 0); }
  }

  /** Off the list nothing changes, and on it only the links do. */
  lemma UnlinkFrame(s: Pages, n: nat, h: nat, l: seq<nat>, kind: nat, i: nat)
    requires ListOk(s, n, h, l, kind) && i < |l|
    ensures 0 <= s[l[i]].prev < |s| && 0 <= s[l[i]].next < |s|
    ensures forall y :: 0 <= y < n && (y !in l || y == l[i]) ==> Unlinked(s, l[i])[y] == s[y]
    ensures forall y :: 0 <= y < n ==> Unlinked(s, l[i])[y].slab == s[y].slab && Unlinked(s, l[i])[y].kind == s[y].kind
  {
    Neighbours(s, n, h, l, kind, i);
    forall y | 0 <= y < n
      ensures Unlinked(s, l[i])[y].slab == s[y].slab && Unlinked(s, l[i])[y].kind == s[y].kind
      ensures y !in l || y == l[i] ==> Unlinked(s, l[i])[y] == s[y]
    {
      UnlinkedAt(s, l[i], y);
    }
  }

  /** A slot head that is not the list's own is left alone. */
  lemma UnlinkOtherHead(s: Pages, n: nat, h: nat, l: seq<nat>, kind: nat, i: nat, h': nat)
    requires ListOk(s, n, h, l, kind) && i < |l| && n <= h' < |s| && h != h'
    ensures 0 <= s[l[i]].prev < |s| && 0 <= s[l[i]].next < |s| && Unlinked(s, l[i])[h'] == s[h']
  {
    Neighbours(s, n, h, l, kind, i);
    UnlinkedAt(s, l[i], h');
  }

  lemma ListKept(s: Pages, s': Pages, n: nat, h: nat, l: seq<nat>, kind: nat)
    requires ListOk(s, n, h, l, kind) && |s'| == |s| && s'[h] == s[h]
    requires forall y :: 0 <= y < n && y in l ==> s'[y] == s[y]
    ensures ListOk(s', n, h, l, kind)
  {
    assert forall j :: 0 <= j < |l| ==> l[j] in l;
  }

  /** A list that shares no page with the one unlinked from is left alone. */
  lemma UnlinkElsewhere(s: Pages, n: nat, h: nat, l: seq<nat>, kind: nat, i: nat, h': nat, l': seq<nat>, kind': nat)
    requires ListOk(s, n, h, l, kind) && i < |l| && ListOk(s, n, h', l', kind') && h != h'
    requires Apart(l, l')
    ensures 0 <= s[l[i]].prev < |s| && 0 <= s[l[i]].next < |s|
    ensures ListOk(Unlinked(s, l[i]), n, h', l', kind')
  {
    ListEnds(s, n, h', l', kind');
    hide ListOk, Unlinked;
    UnlinkFrame(s, n, h, l, kind, i);
    UnlinkOtherHead(s, n, h, l, kind, i, h');
    ListKept(s, Unlinked(s, l[i]), n, h', l', kind');
  }

  lemma ListEnds(s: Pages, n: nat, h: nat, l: seq<nat>, kind: nat)
    requires ListOk(s, n, h, l, kind)
    ensures n <= h < |s|
  {
  }

  // ---------- Putting a page at the front of a list ----------

  function Pushed(s: Pages, h: nat, x: nat, kind: nat): (r: Pages)
    requires h < |s| && x < |s| && 0 <= s[h].next < |s|
    ensures |r| == |s|
  {
    var a := s[x := s[x].(prev := h, next := s[h].next, kind := kind)];
    var b := a[a[x].next := a[a[x].next].(prev := x, kind := kind)];
    b[h := b[h].(next := x)]
  }

  lemma PushedAt(s: Pages, h: nat, x: nat, kind: nat, y: nat)
    requires h < |s| && x < |s| && y < |s| && 0 <= s[h].next < |s| && x != h && s[h].next != x
    ensures Pushed(s, h, x, kind)[y].slab == s[y].slab
    ensures Pushed(s, h, x, kind)[y].next == if y == h then x else if y == x then s[h].next else s[y].next
    ensures Pushed(s, h, x, kind)[y].prev == if y == x then h else if y == s[h].next then x else s[y].prev
    ensures Pushed(s, h, x, kind)[y].kind == if y == x || y == s[h].next then kind else s[y].kind
  {
  }

  lemma PushAdds(s: Pages, n: nat, h: nat, l: seq<nat>, kind: nat, x: nat)
    requires ListOk(s, n, h, l, kind) && x < n && x !in l
    ensures 0 <= s[h].next < |s| && ListOk(Pushed(s, h, x, kind), n, h, [x] + l, kind)
  {
    var s', l' := Pushed(s, h, x, kind), [x] + l;
    PushedAt(s, h, x, kind, h);
    forall j | 0 <= j < |l'|
      ensures l'[j] < n && s'[l'[j]].next == After(h, l', j) && s'[l'[j]].prev == Before(h, l', j)
      ensures s'[l'[j]].kind == kind
    {
      PushedAt(s, h, x, kind, l'[j]);
      if j > 0 { Neighbours(s, n, h, l, kind, j - 1); }
    }
  }

  lemma PushFrame(s: Pages, n: nat, h: nat, l: seq<nat>, kind: nat, x: nat)
    requires ListOk(s, n, h, l, kind) && x < n && x !in l
    ensures 0 <= s[h].next < |s|
    ensures forall y :: 0 <= y < n && y !in l && y != x ==> Pushed(s, h, x, kind)[y] == s[y]
    ensures forall y :: 0 <= y < n ==> Pushed(s, h, x, kind)[y].slab == s[y].slab
    ensures forall y :: 0 <= y < n && y != x ==> Pushed(s, h, x, kind)[y].kind == s[y].kind
  {
    forall y | 0 <= y < n
      ensures Pushed(s, h, x, kind)[y].slab == s[y].slab
      ensures y !in l && y != x ==> Pushed(s, h, x, kind)[y] == s[y]
      ensures y != x ==> Pushed(s, h, x, kind)[y].kind == s[y].kind
    {
      PushedAt(s, h, x, kind, y);
    }
  }

  lemma PushElsewhere(s: Pages, n: nat, h: nat, l: seq<nat>, kind: nat, x: nat, h': nat, l': seq<nat>, kind': nat)
    requires ListOk(s, n, h, l, kind) && x < n && x !in l && ListOk(s, n, h', l', kind') && h != h' && x !in l'
    requires Apart(l, l')
    ensures 0 <= s[h].next < |s| && ListOk(Pushed(s, h, x, kind), n, h', l', kind')
  {
    PushFrame(s, n, h, l, kind, x);
    PushedAt(s, h, x, kind, h');
    assert forall j :: 0 <= j < |l'| ==> l'[j] !in l && l'[j] in l' && Pushed(s, h, x, kind)[l'[j]] == s[l'[j]];
  }

  // ---------- Putting one page in another's place ----------

  /** y takes over x's links, and its neighbours point at y. */
  function Moved(s: Pages, x: nat, y: nat): (r: Pages)
    requires x < |s| && y < |s| && 0 <= s[x].prev < |s| && 0 <= s[x].next < |s|
    ensures |r| == |s|
  {
    var a := s[y := s[y].(next := s[x].next, prev := s[x].prev, kind := s[x].kind)];
    var b := a[a[x].prev := a[a[x].prev].(next := y)];
    b[b[x].next := b[b[x].next].(prev := y, kind := PAGE)]
  }

  lemma MovedAt(s: Pages, x: nat, y: nat, z: nat)
    requires x < |s| && y < |s| && z < |s| && 0 <= s[x].prev < |s| && 0 <= s[x].next < |s|
    requires x != y && s[x].prev != x && s[x].prev != y && s[x].next != x && s[x].next != y
    ensures Moved(s, x, y)[z].slab == s[z].slab
    ensures Moved(s, x, y)[z].next == if z == y then s[x].next else if z == s[x].prev then y else s[z].next
    ensures Moved(s, x, y)[z].prev == if z == y then s[x].prev else if z == s[x].next then y else s[z].prev
    ensures Moved(s, x, y)[z].kind == if z == y then s[x].kind else if z == s[x].next then PAGE else s[z].kind
  {
  }

  lemma MoveStep(s: Pages, n: nat, h: nat, l: seq<nat>, i: nat, y: nat, j: nat)
    requires ListOk(s, n, h, l, PAGE) && i < |l| && y < n && y !in l && j < |l|
    requires 0 <= s[l[i]].prev < |s| && 0 <= s[l[i]].next < |s|
    ensures var l', s' := l[i := y], Moved(s, l[i], y);
      l'[j] < n && s'[l'[j]].next == After(h, l', j) && s'[l'[j]].prev == Before(h, l', j) && s'[l'[j]].kind == PAGE
  {
    hide Moved;
    Neighbours(s, n, h, l, PAGE, i);
    Neighbours(s, n, h, l, PAGE, j);
    MovedAt(s, l[i], y, if j == i then y else l[j]);
  }

  lemma DistinctUpdate(l: seq<nat>, i: nat, y: nat)
    requires Distinct(l) && i < |l| && y !in l
    ensures Distinct(l[i := y])
    ensures forall x :: x in l[i := y] <==> x == y || (x in l && x != l[i])
  {
    var l' := l[i := y];
    assert l'[i] == y && forall j :: 0 <= j < |l| && j != i ==> l'[j] == l[j];
    forall x | x in l && x != l[i] ensures x in l' {
      var j :| 0 <= j < |l| && l[j] == x;
      assert l'[j] == x;
    }
  }

  lemma MoveReplaces(s: Pages, n: nat, h: nat, l: seq<nat>, i: nat, y: nat)
    requires ListOk(s, n, h, l, PAGE) && i < |l| && y < n && y !in l
    ensures 0 <= s[l[i]].prev < |s| && 0 <= s[l[i]].next < |s|
    ensures ListOk(Moved(s, l[i], y), n, h, l[i := y], PAGE)
  {
    hide Moved, Distinct;
    Neighbours(s, n, h, l, PAGE, i);
    MovedAt(s, l[i], y, h);
    DistinctUpdate(l, i, y);
    var l', s' := l[i := y], Moved(s, l[i], y);
    forall j | 0 <= j < |l'|
      ensures l'[j] < n && s'[l'[j]].next == After(h, l', j) && s'[l'[j]].prev == Before(h, l', j)
      ensures s'[l'[j]].kind == PAGE
    {
      MoveStep(s, n, h, l, i, y, j);
    }
  }

  lemma MoveFrame(s: Pages, n: nat, h: nat, l: seq<nat>, i: nat, y: nat)
    requires ListOk(s, n, h, l, PAGE) && i < |l| && y < n && y !in l
    ensures 0 <= s[l[i]].prev < |s| && 0 <= s[l[i]].next < |s|
    ensures forall z :: 0 <= z < n && z !in l && z != y ==> Moved(s, l[i], y)[z] == s[z]
    ensures forall z :: 0 <= z < n ==> Moved(s, l[i], y)[z].slab == s[z].slab
    ensures forall z :: 0 <= z < n && z != y ==> Moved(s, l[i], y)[z].kind == s[z].kind
    ensures Moved(s, l[i], y)[y].kind == PAGE
  {
    Neighbours(s, n, h, l, PAGE, i);
    forall z | 0 <= z < n
      ensures Moved(s, l[i], y)[z].slab == s[z].slab
      ensures z !in l && z != y ==> Moved(s, l[i], y)[z] == s[z]
      ensures z != y ==> Moved(s, l[i], y)[z].kind == s[z].kind
    {
      MovedAt(s, l[i], y, z);
      if z == After(h, l, i) { Neighbours(s, n, h, l, PAGE, i + 1); }
    }
    MovedAt(s, l[i], y, y);
  }

  lemma MoveElsewhere(s: Pages, n: nat, h: nat, l: seq<nat>, i: nat, y: nat, h': nat, l': seq<nat>, kind': nat)
    requires ListOk(s, n, h, l, PAGE) && i < |l| && y < n && y !in l
    requires ListOk(s, n, h', l', kind') && h != h' && y !in l' && Apart(l, l')
    ensures 0 <= s[l[i]].prev < |s| && 0 <= s[l[i]].next < |s|
    ensures ListOk(Moved(s, l[i], y), n, h', l', kind')
  {
    MoveFrame(s, n, h, l, i, y);
    Neighbours(s, n, h, l, PAGE, i);
    MovedAt(s, l[i], y, h');
    assert forall j :: 0 <= j < |l'| ==> l'[j] !in l && l'[j] in l' && Moved(s, l[i], y)[l'[j]] == s[l'[j]];
  }

  // ---------- All the lists of a pool ----------

  /** The free list is list 0; list 1 + slot holds the pages of a slot that have a chunk free. */
  ghost function KindOf(g: nat): nat {
    if g == 0 then PAGE else if g < 4 then SMALL else if g == 4 then EXACT else BIG
  }

  ghost predicate Apart(a: seq<nat>, b: seq<nat>) { forall x :: x in a ==> x !in b }

  ghost predicate Lists(s: Pages, n: nat, lists: seq<seq<nat>>) {
    |s| == n + |lists|
    && (forall g :: 0 <= g < |lists| ==> ListOk(s, n, n + g, lists[g], KindOf(g)))
    && (forall g, h :: 0 <= g < |lists| && 0 <= h < |lists| && g != h ==> Apart(lists[g], lists[h]))
  }

  ghost predicate Listed(lists: seq<seq<nat>>, x: nat) { exists g :: 0 <= g < |lists| && x in lists[g] }

  lemma ListedElsewhere(lists: seq<seq<nat>>, g: nat, l: seq<nat>, y: nat)
    requires g < |lists|
    ensures Listed(lists[g := l], y) <==> y in l || exists h :: 0 <= h < |lists| && h != g && y in lists[h]
  {
    var lists' := lists[g := l];
    if Listed(lists', y) {
      var h :| 0 <= h < |lists'| && y in lists'[h];
      assert h == g || y in lists[h];
    }
    if y in l { assert y in lists'[g]; }
    if h :| 0 <= h < |lists| && h != g && y in lists[h] { assert y in lists'[h]; }
  }

  /** Changing one list, with what it gains in no other, keeps the lists apart. */
  lemma ApartUpdate(lists: seq<seq<nat>>, g: nat, l: seq<nat>)
    requires g < |lists|
    requires forall h, k :: 0 <= h < |lists| && 0 <= k < |lists| && h != k ==> Apart(lists[h], lists[k])
    requires forall h :: 0 <= h < |lists| && h != g ==> Apart(l, lists[h])
    ensures var lists' := lists[g := l];
      forall h, k :: 0 <= h < |lists| && 0 <= k < |lists| && h != k ==> Apart(lists'[h], lists'[k])
  {
  }

  lemma UnlinkLists(s: Pages, n: nat, lists: seq<seq<nat>>, g: nat, i: nat)
    requires Lists(s, n, lists) && g < |lists| && i < |lists[g]|
    ensures var x, lists' := lists[g][i], lists[g := Without(lists[g], i)];
      0 <= s[x].prev < |s| && 0 <= s[x].next < |s| && Lists(Unlinked(s, x), n, lists')
  {
    hide ListOk, Unlinked, Without;
    var l := lists[g];
    var lists' := lists[g := Without(l, i)];
    UnlinkRemoves(s, n, n + g, l, KindOf(g), i);
    Neighbours(s, n, n + g, l, KindOf(g), i);
    DistinctOf(s, n, n + g, l, KindOf(g));
    DistinctWithout(l, i);
    ApartUpdate(lists, g, Without(l, i));
    forall h | 0 <= h < |lists| && h != g ensures ListOk(Unlinked(s, l[i]), n, n + h, lists'[h], KindOf(h)) {
      UnlinkElsewhere(s, n, n + g, l, KindOf(g), i, n + h, lists[h], KindOf(h));
    }
  }

  lemma DistinctOf(s: Pages, n: nat, h: nat, l: seq<nat>, kind: nat)
    requires ListOk(s, n, h, l, kind)
    ensures Distinct(l) && h < |s| && 0 <= s[h].next < |s|
  {
  }

  lemma PushLists(s: Pages, n: nat, lists: seq<seq<nat>>, g: nat, x: nat)
    requires Lists(s, n, lists) && g < |lists| && x < n && !Listed(lists, x)
    ensures 0 <= s[n + g].next < |s| && Lists(Pushed(s, n + g, x, KindOf(g)), n, lists[g := [x] + lists[g]])
  {
    hide ListOk, Pushed;
    var l := lists[g];
    var lists' := lists[g := [x] + l];
    DistinctOf(s, n, n + g, l, KindOf(g));
    PushAdds(s, n, n + g, l, KindOf(g), x);
    ApartUpdate(lists, g, [x] + l);
    forall h | 0 <= h < |lists| && h != g
      ensures ListOk(Pushed(s, n + g, x, KindOf(g)), n, n + h, lists'[h], KindOf(h))
    {
      PushElsewhere(s, n, n + g, l, KindOf(g), x, n + h, lists[h], KindOf(h));
    }
  }

  lemma MoveLists(s: Pages, n: nat, lists: seq<seq<nat>>, i: nat, y: nat)
    requires Lists(s, n, lists) && 0 < |lists| && i < |lists[0]| && y < n && !Listed(lists, y)
    ensures var x := lists[0][i]; var l: seq<nat> := lists[0][i := y]; var lists' := lists[0 := l];
      0 <= s[x].prev < |s| && 0 <= s[x].next < |s| && Lists(Moved(s, x, y), n, lists')
  {
    hide ListOk, Moved;
    var l := lists[0];
    var l': seq<nat> := l[i := y];
    var lists' := lists[0 := l'];
    MoveReplaces(s, n, n, l, i, y);
    Neighbours(s, n, n, l, PAGE, i);
    DistinctOf(s, n, n, l, PAGE);
    DistinctUpdate(l, i, y);
    ApartUpdate(lists, 0, l');
    forall h | 0 < h < |lists| ensures ListOk(Moved(s, l[i], y), n, n + h, lists'[h], KindOf(h)) {
      MoveElsewhere(s, n, n, l, i, y, n + h, lists[h], KindOf(h));
    }
  }

  lemma InNoList(lists: seq<seq<nat>>, x: nat)
    requires !Listed(lists, x)
    ensures forall g :: 0 <= g < |lists| ==> x !in lists[g]
  {
  }
}
