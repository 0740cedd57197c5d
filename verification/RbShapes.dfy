// The shape of a red-black tree as a value: what the linked nodes spell out, read in order.
// A position inside a tree is a subtree together with the path of its ancestors.
module RbShapes {
  import opened Arithmetic

  /** A caller-owned tree node (stl_rbtree_node without its data pointer). */
  class Node {
    var key: int
    var left: Node?
    var right: Node?
    var parent: Node?
    var red: bool

    constructor (key: int)
      ensures this.key == key && left == null && right == null && parent == null && !red
    {
      this.key, left, right, parent, red := key, null, null, null, false;
    }
  }

  datatype Item = Item(node: Node, key: int)

  datatype Shape =
    | Nil
    | Fork(left: Shape, item: Item, red: bool, right: Shape)

  /** The ancestors of a subtree, nearest first, each with its other subtree. */
  datatype Path =
    | Top
    | InLeft(up: Path, item: Item, red: bool, right: Shape)
    | InRight(up: Path, left: Shape, item: Item, red: bool)

  // ---------- Contents ----------

  ghost function InOrder(t: Shape): seq<Item> {
    match t
    case Nil => []
    case Fork(l, x, _, r) => InOrder(l) + [x] + InOrder(r)
  }

  ghost function Nodes(t: Shape): set<Node> {
    match t
    case Nil => {}
    case Fork(l, x, _, r) => Nodes(l) + {x.node} + Nodes(r)
  }

  ghost function Plug(path: Path, t: Shape): Shape
    decreases path
  {
    match path
    case Top => t
    case InLeft(up, x, red, r) => Plug(up, Fork(t, x, red, r))
    case InRight(up, l, x, red) => Plug(up, Fork(l, x, red, t))
  }

  ghost function PathNodes(path: Path): set<Node> {
    match path
    case Top => {}
    case InLeft(up, x, _, r) => PathNodes(up) + {x.node} + Nodes(r)
    case InRight(up, l, x, _) => PathNodes(up) + {x.node} + Nodes(l)
  }

  /** What comes before the hole in order, and what comes after it. */
  ghost function Before(path: Path): seq<Item> {
    match path
    case Top => []
    case InLeft(up, _, _, _) => Before(up)
    case InRight(up, l, x, _) => Before(up) + (InOrder(l) + [x])
  }

  ghost function After(path: Path): seq<Item> {
    match path
    case Top => []
    case InLeft(up, x, _, r) => [x] + InOrder(r) + After(up)
    case InRight(up, _, _, _) => After(up)
  }

  ghost function Depth(path: Path): nat {
    if path.Top? then 0 else 1 + Depth(path.up)
  }

  lemma {:induction false} InOrderPlug(path: Path, t: Shape)
    ensures InOrder(Plug(path, t)) == Before(path) + InOrder(t) + After(path)
    decreases path
  {
    match path
    case Top =>
    case InLeft(up, x, red, r) =>
      InOrderPlug(up, Fork(t, x, red, r));
    case InRight(up, l, x, red) =>
      InOrderPlug(up, Fork(l, x, red, t));
  }

  /** The node set is the set of the in-order items. */
  lemma {:induction false} NodesAreItems(t: Shape)
    ensures Nodes(t) == set x | x in InOrder(t) :: x.node
  {
    match t
    case Nil =>
    case Fork(l, x, _, r) =>
      NodesAreItems(l);
      NodesAreItems(r);
      JoinedItems(InOrder(l), x, InOrder(r));
  }

  lemma JoinedItems(a: seq<Item>, x: Item, b: seq<Item>)
    ensures forall y :: y in a + [x] + b <==> y in a || y == x || y in b
  {
  }

  // ---------- No node occurs twice ----------

  ghost predicate Apart(t: Shape) {
    match t
    case Nil => true
    case Fork(l, x, _, r) =>
      Apart(l) && Apart(r) && Nodes(l) !! Nodes(r) && x.node !in Nodes(l) && x.node !in Nodes(r)
  }

  ghost predicate ApartPath(path: Path) {
    match path
    case Top => true
    case InLeft(up, x, _, r) =>
      ApartPath(up) && Apart(r) && x.node !in Nodes(r) && x.node !in PathNodes(up) && Nodes(r) !! PathNodes(up)
    case InRight(up, l, x, _) =>
      ApartPath(up) && Apart(l) && x.node !in Nodes(l) && x.node !in PathNodes(up) && Nodes(l) !! PathNodes(up)
  }

  // ---------- Colours and black heights ----------

  ghost predicate IsRed(t: Shape) { t.Fork? && t.red }

  ghost function BlackHeight(t: Shape): nat {
    match t
    case Nil => 0
    case Fork(l, _, red, _) => BlackHeight(l) + (if red then 0 else 1)
  }

  /** Equal black heights below every node, and no red node with a red child. */
  ghost predicate Balanced(t: Shape) {
    match t
    case Nil => true
    case Fork(l, _, red, r) =>
      Balanced(l) && Balanced(r) && BlackHeight(l) == BlackHeight(r)
      && (red ==> !IsRed(l) && !IsRed(r))
  }

  ghost predicate RedAbove(path: Path) { !path.Top? && path.red }

  /** The path is balanced around a hole of black height h; nothing is said about the colour
      of what fills the hole. The outermost node is black. */
  ghost predicate PathOk(path: Path, h: nat) {
    match path
    case Top => true
    case InLeft(up, _, red, r) =>
      Balanced(r) && BlackHeight(r) == h && (red ==> !IsRed(r) && !up.Top? && !RedAbove(up))
      && PathOk(up, h + (if red then 0 else 1))
    case InRight(up, l, _, red) =>
      Balanced(l) && BlackHeight(l) == h && (red ==> !IsRed(l) && !up.Top? && !RedAbove(up))
      && PathOk(up, h + (if red then 0 else 1))
  }

  /** Filling the hole gives a valid tree exactly when the filler and the path are balanced and
      no red edge arises at the join. */
  lemma {:induction false} PlugBalanced(path: Path, t: Shape)
    ensures Balanced(Plug(path, t)) && !IsRed(Plug(path, t))
        <==> Balanced(t) && PathOk(path, BlackHeight(t)) && (IsRed(t) ==> !path.Top? && !RedAbove(path))
    decreases path
  {
    match path
    case Top =>
    case InLeft(up, x, red, r) =>
      PlugBalanced(up, Fork(t, x, red, r));
    case InRight(up, l, x, red) =>
      PlugBalanced(up, Fork(l, x, red, t));
  }

  ghost function Height(t: Shape): nat {
    match t
    case Nil => 0
    case Fork(l, _, _, r) => 1 + if Height(l) < Height(r) then Height(r) else Height(l)
  }

  /** What the colours are for: the height is at most twice the black height, and a tree of black
      height h holds at least 2^h - 1 items, so the height is logarithmic in the item count. */
  lemma {:induction false} HeightIsLogarithmic(t: Shape)
    requires Balanced(t)
    ensures Height(t) <= 2 * BlackHeight(t) + (if IsRed(t) then 1 else 0)
    ensures Pow2(BlackHeight(t)) <= |InOrder(t)| + 1
  {
    match t
    case Nil =>
    case Fork(l, _, _, r) =>
      HeightIsLogarithmic(l);
      HeightIsLogarithmic(r);
  }

  // ---------- Rotations ----------

  ghost function RotatedLeft(t: Shape): Shape
    requires t.Fork? && t.right.Fork?
  {
    Fork(Fork(t.left, t.item, t.red, t.right.left), t.right.item, t.right.red, t.right.right)
  }

  ghost function RotatedRight(t: Shape): Shape
    requires t.Fork? && t.left.Fork?
  {
    Fork(t.left.left, t.left.item, t.left.red, Fork(t.left.right, t.item, t.red, t.right))
  }

  lemma Reassociate(a: seq<Item>, x: Item, b: seq<Item>, y: Item, c: seq<Item>)
    ensures a + [x] + (b + [y] + c) == (a + [x] + b) + [y] + c
  {
  }

  /** A left rotation keeps the order and the nodes, and a right rotation undoes it. */
  lemma LeftRotationKeepsOrder(t: Shape)
    requires t.Fork? && t.right.Fork?
    ensures InOrder(RotatedLeft(t)) == InOrder(t)
    ensures RotatedRight(RotatedLeft(t)) == t
  {
    Reassociate(InOrder(t.left), t.item, InOrder(t.right.left), t.right.item, InOrder(t.right.right));
  }

  lemma LeftRotationKeepsNodes(t: Shape)
    requires t.Fork? && t.right.Fork?
    ensures Nodes(RotatedLeft(t)) == Nodes(t)
    ensures Apart(RotatedLeft(t)) <==> Apart(t)
  {
  }

  lemma RightRotationKeepsOrder(t: Shape)
    requires t.Fork? && t.left.Fork?
    ensures InOrder(RotatedRight(t)) == InOrder(t)
    ensures RotatedLeft(RotatedRight(t)) == t
  {
    LeftRotationKeepsOrder(RotatedRight(t));
  }

  lemma RightRotationKeepsNodes(t: Shape)
    requires t.Fork? && t.left.Fork?
    ensures Nodes(RotatedRight(t)) == Nodes(t)
    ensures Apart(RotatedRight(t)) <==> Apart(t)
  {
    LeftRotationKeepsNodes(RotatedRight(t));
  }

  // ---------- Inserting: a red subtree that may sit under a red parent ----------

  ghost predicate Climbing(path: Path, t: Shape, items: seq<Item>) {
    IsRed(t) && Balanced(t) && PathOk(path, BlackHeight(t)) && InOrder(Plug(path, t)) == items
  }

  lemma SameOrder(path: Path, t: Shape, u: Shape)
    requires InOrder(t) == InOrder(u)
    ensures InOrder(Plug(path, t)) == InOrder(Plug(path, u))
  {
    InOrderPlug(path, t);
    InOrderPlug(path, u);
  }

  ghost function Painted(t: Shape, red: bool): Shape
    requires t.Fork?
  {
    Fork(t.left, t.item, red, t.right)
  }

  /** Halves of equal black height under a red node, at most one of them red, inside a good path. */
  ghost predicate RedTop(path: Path, a: Shape, p: Item, b: Shape, items: seq<Item>) {
    Balanced(a) && Balanced(b) && BlackHeight(a) == BlackHeight(b) && !(IsRed(a) && IsRed(b))
    && PathOk(path, BlackHeight(a)) && !path.Top? && !path.red
    && InOrder(Plug(path, Fork(a, p, true, b))) == items
  }

  lemma ClimbToParent(path: Path, t: Shape, items: seq<Item>)
    requires Climbing(path, t, items) && RedAbove(path)
    ensures path.InLeft? ==> RedTop(path.up, t, path.item, path.right, items)
    ensures path.InRight? ==> RedTop(path.up, path.left, path.item, t, items)
  {
  }

  /** A red parent is not the root and has a black parent. */
  lemma RedHasGrandparent(path: Path, t: Shape, items: seq<Item>)
    requires Climbing(path, t, items) && RedAbove(path)
    ensures !path.up.Top? && !path.up.red
  {
  }

  /** A red uncle: blacken both, redden the grandparent and go on from there. */
  lemma RecolourUnderLeft(path: Path, a: Shape, p: Item, b: Shape, items: seq<Item>)
    requires RedTop(path, a, p, b, items) && path.InLeft? && IsRed(path.right)
    ensures Climbing(path.up, Fork(Fork(a, p, false, b), path.item, true, Painted(path.right, false)), items)
  {
    SameOrder(path.up, Fork(Fork(a, p, true, b), path.item, false, path.right),
              Fork(Fork(a, p, false, b), path.item, true, Painted(path.right, false)));
  }

  lemma RecolourUnderRight(path: Path, a: Shape, p: Item, b: Shape, items: seq<Item>)
    requires RedTop(path, a, p, b, items) && path.InRight? && IsRed(path.left)
    ensures Climbing(path.up, Fork(Painted(path.left, false), path.item, true, Fork(a, p, false, b)), items)
  {
    SameOrder(path.up, Fork(path.left, path.item, false, Fork(a, p, true, b)),
              Fork(Painted(path.left, false), path.item, true, Fork(a, p, false, b)));
  }

  /** Rotating inside the parent turns an inner red child into an outer one. */
  lemma TurnOutLeft(path: Path, a: Shape, p: Item, b: Shape, items: seq<Item>)
    requires RedTop(path, a, p, b, items) && IsRed(b)
    ensures RedTop(path, Fork(a, p, true, b.left), b.item, b.right, items)
    ensures RotatedLeft(Fork(a, p, true, b)) == Fork(Fork(a, p, true, b.left), b.item, true, b.right)
  {
    LeftRotationKeepsOrder(Fork(a, p, true, b));
    SameOrder(path, Fork(a, p, true, b), RotatedLeft(Fork(a, p, true, b)));
  }

  lemma TurnOutRight(path: Path, a: Shape, p: Item, b: Shape, items: seq<Item>)
    requires RedTop(path, a, p, b, items) && IsRed(a)
    ensures RedTop(path, a.left, a.item, Fork(a.right, p, true, b), items)
    ensures RotatedRight(Fork(a, p, true, b)) == Fork(a.left, a.item, true, Fork(a.right, p, true, b))
  {
    RightRotationKeepsOrder(Fork(a, p, true, b));
    SameOrder(path, Fork(a, p, true, b), RotatedRight(Fork(a, p, true, b)));
  }

  /** A black uncle: the grandparent is rotated down and the climb is over. */
  lemma RotateUnderLeft(path: Path, a: Shape, p: Item, b: Shape, items: seq<Item>)
    requires RedTop(path, a, p, b, items) && path.InLeft? && !IsRed(path.right) && IsRed(a)
    ensures Climbing(InLeft(path.up, p, false, Fork(b, path.item, true, path.right)), a, items)
    ensures RotatedRight(Fork(Fork(a, p, false, b), path.item, true, path.right))
         == Fork(a, p, false, Fork(b, path.item, true, path.right))
  {
    var t := Fork(Fork(a, p, false, b), path.item, true, path.right);
    RightRotationKeepsOrder(t);
    SameOrder(path.up, Fork(Fork(a, p, true, b), path.item, false, path.right), RotatedRight(t));
  }

  lemma RotateUnderRight(path: Path, a: Shape, p: Item, b: Shape, items: seq<Item>)
    requires RedTop(path, a, p, b, items) && path.InRight? && !IsRed(path.left) && IsRed(b)
    ensures Climbing(InRight(path.up, Fork(path.left, path.item, true, a), p, false), b, items)
    ensures RotatedLeft(Fork(path.left, path.item, true, Fork(a, p, false, b)))
         == Fork(Fork(path.left, path.item, true, a), p, false, b)
  {
    var t := Fork(path.left, path.item, true, Fork(a, p, false, b));
    LeftRotationKeepsOrder(t);
    SameOrder(path.up, Fork(path.left, path.item, false, Fork(a, p, true, b)), RotatedLeft(t));
  }

  /** A climb that meets no red parent leaves a valid tree once the root is black. */
  lemma ClimbEnds(path: Path, t: Shape, items: seq<Item>)
    requires Climbing(path, t, items) && !RedAbove(path)
    ensures Plug(path, t).Fork? && Balanced(Painted(Plug(path, t), false))
    ensures InOrder(Painted(Plug(path, t), false)) == items
  {
    PlugBalanced(path, t);
    if !path.Top? { PlugIsFork(path, t); }
  }

  lemma {:induction false} PlugIsFork(path: Path, t: Shape)
    ensures !path.Top? || t.Fork? ==> Plug(path, t).Fork?
    decreases path
  {
    match path
    case Top =>
    case InLeft(up, x, red, r) => PlugIsFork(up, Fork(t, x, red, r));
    case InRight(up, l, x, red) => PlugIsFork(up, Fork(l, x, red, t));
  }

  // ---------- Sorted contents ----------

  /** A comparison callback that orders keys: its sign is antisymmetric and it is transitive. */
  ghost predicate Orders(cmp: (int, int) -> int) {
    (forall a, b :: cmp(a, b) < 0 <==> cmp(b, a) > 0)
    && (forall a, b, c :: cmp(a, b) <= 0 && cmp(b, c) <= 0 ==> cmp(a, c) <= 0)
  }

  ghost predicate Sorted(s: seq<Item>, cmp: (int, int) -> int) {
    forall i, j :: 0 <= i < j < |s| ==> cmp(s[i].key, s[j].key) <= 0
  }

  ghost predicate NoneAbove(s: seq<Item>, k: int, cmp: (int, int) -> int) {
    forall x :: x in s ==> cmp(x.key, k) <= 0
  }

  ghost predicate AllAbove(s: seq<Item>, k: int, cmp: (int, int) -> int) {
    forall x :: x in s ==> cmp(k, x.key) < 0
  }

  /** b is a with x put in after everything not greater than it and before everything greater. */
  ghost predicate InsertedAt(a: seq<Item>, i: nat, x: Item, b: seq<Item>, cmp: (int, int) -> int) {
    i <= |a| && b == a[..i] + [x] + a[i..] && NoneAbove(a[..i], x.key, cmp) && AllAbove(a[i..], x.key, cmp)
  }

  lemma PairsInOrder(b: seq<Item>, cmp: (int, int) -> int)
    requires forall m, n :: 0 <= m < n < |b| ==> cmp(b[m].key, b[n].key) <= 0
    ensures Sorted(b, cmp)
  {
  }

  lemma PairInOrder(a: seq<Item>, i: nat, x: Item, b: seq<Item>, cmp: (int, int) -> int, m: nat, n: nat)
    requires Sorted(a, cmp) && InsertedAt(a, i, x, b, cmp) && m < n < |b|
    ensures cmp(b[m].key, b[n].key) <= 0
  {
    assert m < i ==> b[m] == a[..i][m] == a[m];
    assert n > i ==> b[n] == a[i..][n - i - 1] == a[n - 1];
    if m < i && n == i {
      assert a[..i][m] in a[..i];
    } else if m == i {
      assert a[i..][n - i - 1] in a[i..];
    } else if m > i {
      assert b[m] == a[m - 1];
    } else if n < i {
      assert b[n] == a[n];
    }
  }

  /** Inserting at that place keeps the sequence sorted. */
  lemma InsertedIsSorted(a: seq<Item>, i: nat, x: Item, b: seq<Item>, cmp: (int, int) -> int)
    requires Orders(cmp) && Sorted(a, cmp) && InsertedAt(a, i, x, b, cmp)
    ensures Sorted(b, cmp)
  {
    hide Orders, Sorted;
    forall m, n | 0 <= m < n < |b| ensures cmp(b[m].key, b[n].key) <= 0 {
      PairInOrder(a, i, x, b, cmp, m, n);
    }
    assert Sorted(b, cmp) by { PairsInOrder(b, cmp); }
  }

  lemma SortedParts(l: seq<Item>, x: Item, r: seq<Item>, cmp: (int, int) -> int)
    requires Sorted(l + [x] + r, cmp)
    ensures Sorted(l, cmp) && Sorted(r, cmp)
    ensures forall y :: y in l ==> cmp(y.key, x.key) <= 0
    ensures forall y :: y in r ==> cmp(x.key, y.key) <= 0
  {
    var s := l + [x] + r;
    assert s[|l|] == x && s[..|l|] == l && s[|l| + 1..] == r;
    assert forall j :: 0 <= j < |r| ==> s[|l| + 1 + j] == r[j];
  }

  lemma StrictlyAbove(a: int, b: int, c: int, cmp: (int, int) -> int)
    requires Orders(cmp) && cmp(a, b) < 0 && cmp(b, c) <= 0
    ensures cmp(a, c) < 0
  {
  }

  /** The descent by comparisons: the side not taken lies wholly to one side of the key. */
  lemma DescendSplits(l: seq<Item>, x: Item, r: seq<Item>, k: int, cmp: (int, int) -> int)
    requires Orders(cmp) && Sorted(l + [x] + r, cmp)
    ensures cmp(k, x.key) < 0 ==> AllAbove([x] + r, k, cmp)
    ensures cmp(k, x.key) >= 0 ==> NoneAbove(l + [x], k, cmp)
    ensures Sorted(l, cmp) && Sorted(r, cmp)
  {
    SortedParts(l, x, r, cmp);
    hide Sorted;
    if cmp(k, x.key) < 0 {
      forall y | y in r ensures cmp(k, y.key) < 0 {
        StrictlyAbove(k, x.key, y.key, cmp);
      }
    }
  }

  /** The hole left by a descent for k: everything before it is not above k, everything after is. */
  ghost predicate Between(path: Path, k: int, cmp: (int, int) -> int) {
    NoneAbove(Before(path), k, cmp) && AllAbove(After(path), k, cmp)
  }

  lemma EmptyDescent(t: Shape, k: int, cmp: (int, int) -> int)
    ensures Between(Top, k, cmp) && Plug(Top, t) == t
  {
  }

  lemma DescendStep(path: Path, t: Shape, k: int, cmp: (int, int) -> int)
    requires t.Fork? && Orders(cmp) && Sorted(InOrder(t), cmp) && Between(path, k, cmp)
    ensures Sorted(InOrder(t.left), cmp) && Sorted(InOrder(t.right), cmp)
    ensures cmp(k, t.item.key) < 0 ==> Between(InLeft(path, t.item, t.red, t.right), k, cmp)
    ensures cmp(k, t.item.key) >= 0 ==> Between(InRight(path, t.left, t.item, t.red), k, cmp)
    ensures Plug(InLeft(path, t.item, t.red, t.right), t.left) == Plug(path, t)
    ensures Plug(InRight(path, t.left, t.item, t.red), t.right) == Plug(path, t)
  {
    DescendSplits(InOrder(t.left), t.item, InOrder(t.right), k, cmp);
    hide Sorted, Orders;
  }

  /** Filling the hole of a finished descent inserts in order. */
  lemma FilledHole(path: Path, x: Item, red: bool, cmp: (int, int) -> int)
    requires Between(path, x.key, cmp)
    ensures InsertedAt(InOrder(Plug(path, Nil)), |Before(path)|, x, InOrder(Plug(path, Fork(Nil, x, red, Nil))), cmp)
  {
    InOrderPlug(path, Nil);
    InOrderPlug(path, Fork(Nil, x, red, Nil));
    var a := InOrder(Plug(path, Nil));
    assert a[..|Before(path)|] == Before(path) && a[|Before(path)|..] == After(path);
  }

  lemma InsertedAlone(x: Item, cmp: (int, int) -> int)
    ensures InsertedAt([], 0, x, InOrder(Fork(Nil, x, false, Nil)), cmp)
  {
  }

  /** A red leaf in an empty place of a valid tree starts a climb. */
  lemma LeafClimbs(path: Path, x: Item)
    requires Balanced(Plug(path, Nil)) && !IsRed(Plug(path, Nil))
    ensures Climbing(path, Fork(Nil, x, true, Nil), InOrder(Plug(path, Fork(Nil, x, true, Nil))))
  {
    PlugBalanced(path, Nil);
  }

  // ---------- Searching ----------

  ghost predicate NoMatch(s: seq<Item>, k: int, cmp: (int, int) -> int) {
    forall x :: x in s ==> cmp(x.key, k) != 0
  }

  lemma StrictlyBelow(a: int, b: int, c: int, cmp: (int, int) -> int)
    requires Orders(cmp) && cmp(a, b) <= 0 && cmp(b, c) < 0
    ensures cmp(a, c) < 0
  {
  }

  /** A comparison that is not equal rules out the whole side not taken. */
  lemma SearchSplits(l: seq<Item>, x: Item, r: seq<Item>, k: int, cmp: (int, int) -> int)
    requires Orders(cmp) && Sorted(l + [x] + r, cmp) && cmp(x.key, k) != 0
    ensures cmp(k, x.key) > 0 ==> NoMatch(l + [x], k, cmp)
    ensures cmp(k, x.key) <= 0 ==> NoMatch([x] + r, k, cmp)
    ensures Sorted(l, cmp) && Sorted(r, cmp)
  {
    SortedParts(l, x, r, cmp);
    hide Sorted;
    if cmp(k, x.key) > 0 {
      forall y | y in l ensures cmp(y.key, k) != 0 {
        StrictlyBelow(y.key, x.key, k, cmp);
      }
    } else {
      forall y | y in r ensures cmp(y.key, k) != 0 {
        StrictlyAbove(k, x.key, y.key, cmp);
      }
    }
  }

  lemma SearchStep(path: Path, t: Shape, k: int, cmp: (int, int) -> int)
    requires t.Fork? && Orders(cmp) && Sorted(InOrder(t), cmp) && cmp(t.item.key, k) != 0
    requires NoMatch(Before(path) + After(path), k, cmp)
    ensures Sorted(InOrder(t.left), cmp) && Sorted(InOrder(t.right), cmp)
    ensures cmp(k, t.item.key) > 0 ==>
      var p := InRight(path, t.left, t.item, t.red); NoMatch(Before(p) + After(p), k, cmp)
    ensures cmp(k, t.item.key) <= 0 ==>
      var p := InLeft(path, t.item, t.red, t.right); NoMatch(Before(p) + After(p), k, cmp)
    ensures Plug(InLeft(path, t.item, t.red, t.right), t.left) == Plug(path, t)
    ensures Plug(InRight(path, t.left, t.item, t.red), t.right) == Plug(path, t)
  {
    SearchSplits(InOrder(t.left), t.item, InOrder(t.right), k, cmp);
    hide Sorted, Orders;
  }

  lemma SearchExhausted(path: Path, k: int, cmp: (int, int) -> int)
    requires NoMatch(Before(path) + After(path), k, cmp)
    ensures NoMatch(InOrder(Plug(path, Nil)), k, cmp)
  {
    InOrderPlug(path, Nil);
  }

  lemma ItemOfPlug(path: Path, t: Shape)
    requires t.Fork?
    ensures t.item in InOrder(Plug(path, t))
  {
    InOrderPlug(path, t);
    assert InOrder(t)[|InOrder(t.left)|] == t.item;
  }

  lemma MatchFound(x: Item, s: seq<Item>, k: int, cmp: (int, int) -> int)
    requires x in s && cmp(x.key, k) == 0
    ensures !NoMatch(s, k, cmp)
  {
  }

  lemma NoMatchAtTop(k: int, cmp: (int, int) -> int)
    ensures NoMatch(Before(Top) + After(Top), k, cmp)
  {
  }
}
