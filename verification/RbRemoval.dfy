// Removal from a red-black tree as a value: taking out a node or its successor, and what the
// fix-up loop restores.
module RbRemoval {
  import opened RbShapes

  ghost function Blackened(t: Shape): Shape { if t.Nil? then Nil else Painted(t, false) }

  /** b is a without its i-th item, which is the given node's. */
  ghost predicate RemovedAt(a: seq<Item>, i: nat, node: Node, b: seq<Item>) {
    i < |a| && a[i].node == node && b == a[..i] + a[i + 1..]
  }

  lemma RemovedIsSorted(a: seq<Item>, i: nat, node: Node, b: seq<Item>, cmp: (int, int) -> int)
    requires RemovedAt(a, i, node, b) && Sorted(a, cmp)
    ensures Sorted(b, cmp)
  {
    forall m, n | 0 <= m < n < |b| ensures cmp(b[m].key, b[n].key) <= 0 {
      assert b[m] == a[if m < i then m else m + 1] && b[n] == a[if n < i then n else n + 1];
    }
  }

  // ---------- Finding a node's position ----------

  ghost function PathTo(path: Path, t: Shape, node: Node): Path
    decreases t
  {
    if t.Nil? || t.item.node == node then path
    else if node in Nodes(t.left) then PathTo(InLeft(path, t.item, t.red, t.right), t.left, node)
    else PathTo(InRight(path, t.left, t.item, t.red), t.right, node)
  }

  ghost function SubtreeAt(t: Shape, node: Node): Shape {
    if t.Nil? || t.item.node == node then t
    else if node in Nodes(t.left) then SubtreeAt(t.left, node)
    else SubtreeAt(t.right, node)
  }

  lemma {:induction false} PathToFinds(path: Path, t: Shape, node: Node)
    requires node in Nodes(t)
    ensures Plug(PathTo(path, t, node), SubtreeAt(t, node)) == Plug(path, t)
    ensures SubtreeAt(t, node).Fork? && SubtreeAt(t, node).item.node == node
    decreases t
  {
    if t.item.node == node {
    } else if node in Nodes(t.left) {
      PathToFinds(InLeft(path, t.item, t.red, t.right), t.left, node);
    } else {
      PathToFinds(InRight(path, t.left, t.item, t.red), t.right, node);
    }
  }

  // ---------- The successor ----------

  /** The way down the left side of r, which stands below base. */
  ghost function Spine(base: Path, r: Shape): Path
    requires r.Fork?
    decreases r
  {
    if r.left.Nil? then base else Spine(InLeft(base, r.item, r.red, r.right), r.left)
  }

  ghost function Min(r: Shape): (m: Shape)
    requires r.Fork?
    ensures m.Fork? && m.left.Nil?
  {
    if r.left.Nil? then r else Min(r.left)
  }

  ghost function WithoutMin(r: Shape): Shape
    requires r.Fork?
  {
    if r.left.Nil? then r.right else Fork(WithoutMin(r.left), r.item, r.red, r.right)
  }

  /** The leftmost node is the first item, and taking it out removes just that. */
  lemma {:induction false} WithoutMinOrder(r: Shape)
    requires r.Fork?
    ensures InOrder(r) == [Min(r).item] + InOrder(WithoutMin(r))
    ensures Nodes(r) == {Min(r).item.node} + Nodes(WithoutMin(r))
    ensures Apart(r) ==> Apart(WithoutMin(r)) && Min(r).item.node !in Nodes(WithoutMin(r))
  {
    if !r.left.Nil? { WithoutMinOrder(r.left); }
  }

  lemma {:induction false} SpinePlug(base: Path, r: Shape)
    requires r.Fork?
    ensures Plug(Spine(base, r), Min(r)) == Plug(base, r)
    ensures Plug(Spine(base, r), Min(r).right) == Plug(base, WithoutMin(r))
    decreases r
  {
    if !r.left.Nil? { SpinePlug(InLeft(base, r.item, r.red, r.right), r.left); }
  }

  /** Below its start the way down does not depend on what lies above. */
  lemma {:induction false} SpineTop(base: Path, base': Path, r: Shape)
    requires r.Fork? && r.left.Fork?
    ensures Spine(base, r).InLeft? && Spine(base', r).InLeft?
    ensures Spine(base, r).item == Spine(base', r).item && Spine(base, r).item.node in Nodes(r)
    decreases r
  {
    if r.left.left.Fork? {
      SpineTop(InLeft(base, r.item, r.red, r.right), InLeft(base', r.item, r.red, r.right), r.left);
    }
  }

  /** Where the way down from r starts and ends. */
  lemma SpineStart(base: Path, base': Path, r: Shape)
    requires r.Fork? && !base.Top? && !base'.Top?
    ensures !Spine(base, r).Top? && !Spine(base', r).Top?
    ensures r.left.Nil? ==> Spine(base, r) == base && Spine(base', r) == base'
    ensures r.left.Fork? ==> Spine(base, r).item == Spine(base', r).item && Spine(base, r).item.node in Nodes(r)
    ensures Min(r).item.node in Nodes(r) && Min(r).left.Nil?
  {
    if r.left.Fork? { SpineTop(base, base', r); }
    WithoutMinOrder(r);
  }

  /** Paths that differ only in the items along them. */
  ghost predicate SameColours(p: Path, q: Path) {
    match (p, q)
    case (Top, Top) => true
    case (InLeft(up, _, red, r), InLeft(up', _, red', r')) => red == red' && r == r' && SameColours(up, up')
    case (InRight(up, l, _, red), InRight(up', l', _, red')) => red == red' && l == l' && SameColours(up, up')
    case _ => false
  }

  lemma {:induction false} SameColoursRefl(p: Path)
    ensures SameColours(p, p)
  {
    if !p.Top? { SameColoursRefl(p.up); }
  }

  lemma {:induction false} SameColoursOk(p: Path, q: Path, h: nat)
    requires SameColours(p, q)
    ensures PathOk(p, h) <==> PathOk(q, h)
    ensures RedAbove(p) == RedAbove(q) && p.Top? == q.Top?
  {
    if !p.Top? { SameColoursOk(p.up, q.up, h + if p.red then 0 else 1); }
  }

  lemma {:induction false} SpineColours(p: Path, q: Path, r: Shape)
    requires r.Fork? && SameColours(p, q)
    ensures SameColours(Spine(p, r), Spine(q, r))
    decreases r
  {
    if !r.left.Nil? {
      SpineColours(InLeft(p, r.item, r.red, r.right), InLeft(q, r.item, r.red, r.right), r.left);
    }
  }

  // ---------- What is left after the removal ----------

  /** Where a node with at most one child was, only that child is left. */
  ghost predicate Gap(path: Path, t: Shape, red: bool) {
    Balanced(t) && PathOk(path, BlackHeight(t) + if red then 0 else 1)
    && (red ==> !IsRed(t) && !path.Top? && !RedAbove(path))
  }

  lemma RemoveSingle(path: Path, l: Shape, x: Item, red: bool, r: Shape)
    requires var whole := Plug(path, Fork(l, x, red, r)); Balanced(whole) && !IsRed(whole)
    ensures l.Nil? ==> Gap(path, r, red)
    ensures r.Nil? ==> Gap(path, l, red)
  {
    PlugBalanced(path, Fork(l, x, red, r));
  }

  lemma CutOut(p: seq<Item>, l: seq<Item>, x: Item, r: seq<Item>, q: seq<Item>)
    ensures RemovedAt(p + (l + [x] + r) + q, |p| + |l|, x.node, p + (l + r) + q)
  {
    var a := p + (l + [x] + r) + q;
    assert a == (p + l) + [x] + (r + q);
  }

  lemma JoinTail(l: seq<Item>, y: Item, r: seq<Item>)
    ensures l + ([y] + r) == l + [y] + r
  {
  }

  lemma RemoveSingleOrder(path: Path, l: Shape, x: Item, red: bool, r: Shape)
    requires l.Nil? || r.Nil?
    ensures RemovedAt(InOrder(Plug(path, Fork(l, x, red, r))), |Before(path)| + |InOrder(l)|, x.node,
                      InOrder(Plug(path, if l.Nil? then r else l)))
  {
    InOrderPlug(path, Fork(l, x, red, r));
    InOrderPlug(path, if l.Nil? then r else l);
    CutOut(Before(path), InOrder(l), x, InOrder(r), After(path));
    assert InOrder(if l.Nil? then r else l) == InOrder(l) + InOrder(r);
  }

  /** The successor takes the removed node's place and colour; the gap is where the successor was. */
  lemma RemoveDouble(path: Path, l: Shape, x: Item, red: bool, r: Shape)
    requires r.Fork?
    requires var whole := Plug(path, Fork(l, x, red, r)); Balanced(whole) && !IsRed(whole)
    ensures Gap(Spine(InRight(path, l, Min(r).item, red), r), Min(r).right, Min(r).red)
  {
    var base, base' := InRight(path, l, x, red), InRight(path, l, Min(r).item, red);
    var pm, m := Spine(base, r), Min(r);
    SpinePlug(base, r);
    PlugBalanced(pm, m);
    SameColoursRefl(path);
    SpineColours(base, base', r);
    SameColoursOk(pm, Spine(base', r), BlackHeight(m));
  }

  lemma RemoveDoubleOrder(path: Path, l: Shape, x: Item, red: bool, r: Shape)
    requires r.Fork?
    ensures RemovedAt(InOrder(Plug(path, Fork(l, x, red, r))), |Before(path)| + |InOrder(l)|, x.node,
                      InOrder(Plug(Spine(InRight(path, l, Min(r).item, red), r), Min(r).right)))
  {
    hide RemovedAt, Spine, Min, WithoutMin, Before, After, Apart, Nodes;
    var y, r' := Min(r).item, WithoutMin(r);
    SpinePlug(InRight(path, l, y, red), r);
    assert Plug(InRight(path, l, y, red), r') == Plug(path, Fork(l, y, red, r'));
    WithoutMinOrder(r);
    InOrderPlug(path, Fork(l, x, red, r));
    InOrderPlug(path, Fork(l, y, red, r'));
    CutOut(Before(path), InOrder(l), x, InOrder(r), After(path));
    JoinTail(InOrder(l), y, InOrder(r'));
    assert InOrder(Fork(l, y, red, r')) == InOrder(l) + InOrder(r);
  }

  /** Where the gap is, what fills it, and the colour lost there. */
  ghost function GapPath(path: Path, t: Shape): Path
    requires t.Fork?
  {
    if t.left.Nil? || t.right.Nil? then path else Spine(InRight(path, t.left, Min(t.right).item, t.red), t.right)
  }

  ghost function GapTree(t: Shape): Shape
    requires t.Fork?
  {
    if t.left.Nil? then t.right else if t.right.Nil? then t.left else Min(t.right).right
  }

  ghost function GapRed(t: Shape): bool
    requires t.Fork?
  {
    if t.left.Nil? || t.right.Nil? then t.red else Min(t.right).red
  }

  /** Taking out the top of t leaves a gap in an otherwise valid tree that lists the other items. */
  lemma Removal(path: Path, t: Shape)
    requires t.Fork? && Balanced(Plug(path, t)) && !IsRed(Plug(path, t))
    ensures Gap(GapPath(path, t), GapTree(t), GapRed(t))
    ensures RemovedAt(InOrder(Plug(path, t)), |Before(path)| + |InOrder(t.left)|, t.item.node,
                      InOrder(Plug(GapPath(path, t), GapTree(t))))
  {
    hide Gap, RemovedAt, InOrder, Balanced, Plug;
    if t.left.Nil? || t.right.Nil? {
      RemoveSingle(path, t.left, t.item, t.red, t.right);
      RemoveSingleOrder(path, t.left, t.item, t.red, t.right);
    } else {
      RemoveDouble(path, t.left, t.item, t.red, t.right);
      RemoveDoubleOrder(path, t.left, t.item, t.red, t.right);
    }
  }

  /** A red node leaves no imbalance behind. */
  lemma RedGapIsFine(path: Path, t: Shape)
    requires Gap(path, t, true)
    ensures Balanced(Plug(path, t)) && !IsRed(Plug(path, t))
  {
    PlugBalanced(path, t);
  }

  // ---------- The fix-up loop ----------

  /** The subtree, once blackened, is fine, but the path wants one black more than it has. */
  ghost predicate Falling(path: Path, t: Shape, items: seq<Item>) {
    Balanced(Blackened(t)) && PathOk(path, BlackHeight(t) + 1) && InOrder(Plug(path, t)) == items
  }

  ghost function Rank(path: Path, t: Shape): nat {
    if path.Top? || IsRed(t) then 0 else 1 + Depth(path)
  }

  lemma BlackGapFalls(path: Path, t: Shape)
    requires Gap(path, t, false)
    ensures Falling(path, t, InOrder(Plug(path, t)))
  {
  }

  lemma TopPlug(t: Shape)
    ensures Plug(Top, t) == t
  {
  }

  /** When the root goes, its only child blackened is the new tree. */
  lemma RootGap(t: Shape, red: bool)
    requires Gap(Top, t, red)
    ensures Balanced(Blackened(t)) && !IsRed(Blackened(t)) && InOrder(Blackened(t)) == InOrder(Plug(Top, t))
  {
  }

  /** Blackening a red subtree, or arriving at the root, restores the tree. */
  lemma FallEnds(path: Path, t: Shape, items: seq<Item>)
    requires Falling(path, t, items) && (path.Top? || IsRed(t))
    ensures var whole := Plug(path, Blackened(t)); Balanced(whole) && !IsRed(whole) && InOrder(whole) == items
  {
    PlugBalanced(path, Blackened(t));
    SameOrder(path, t, Blackened(t));
  }

  /** The sibling of a subtree that lacks a black is a real node. */
  lemma SiblingExists(path: Path, t: Shape, items: seq<Item>)
    requires Falling(path, t, items) && !path.Top? && !IsRed(t)
    ensures path.InLeft? ==>
      path.right.Fork? && (IsRed(path.right) ==> path.right.left.Fork? && path.right.right.Fork? && !path.red)
    ensures path.InRight? ==>
      path.left.Fork? && (IsRed(path.left) ==> path.left.left.Fork? && path.left.right.Fork? && !path.red)
  {
  }

  /** Red sibling on the right: after the rotation the sibling is black. */
  lemma RedSiblingRight(up: Path, t: Shape, p: Item, w: Shape, items: seq<Item>)
    requires Falling(InLeft(up, p, false, w), t, items) && IsRed(w) && !IsRed(t) && w.left.Fork?
    ensures Falling(InLeft(InLeft(up, w.item, false, w.right), p, true, w.left), t, items) && !IsRed(w.left)
    ensures RotatedLeft(Fork(t, p, true, Painted(w, false))) == Fork(Fork(t, p, true, w.left), w.item, false, w.right)
  {
    var u := Fork(t, p, true, Painted(w, false));
    LeftRotationKeepsOrder(u);
    SameOrder(up, Fork(t, p, false, w), u);
    SameOrder(up, u, RotatedLeft(u));
  }

  lemma RedSiblingLeft(up: Path, w: Shape, p: Item, t: Shape, items: seq<Item>)
    requires Falling(InRight(up, w, p, false), t, items) && IsRed(w) && !IsRed(t) && w.right.Fork?
    ensures Falling(InRight(InRight(up, w.left, w.item, false), w.right, p, true), t, items) && !IsRed(w.right)
    ensures RotatedRight(Fork(Painted(w, false), p, true, t)) == Fork(w.left, w.item, false, Fork(w.right, p, true, t))
  {
    var u := Fork(Painted(w, false), p, true, t);
    RightRotationKeepsOrder(u);
    SameOrder(up, Fork(w, p, false, t), u);
    SameOrder(up, u, RotatedRight(u));
  }

  /** Black sibling with black children: it turns red and the lack moves up. */
  lemma PaleSiblingRight(up: Path, t: Shape, p: Item, red: bool, w: Shape, items: seq<Item>)
    requires Falling(InLeft(up, p, red, w), t, items) && !IsRed(t)
    requires w.Fork? && !w.red && !IsRed(w.left) && !IsRed(w.right)
    ensures Falling(up, Fork(t, p, red, Painted(w, true)), items)
  {
    SameOrder(up, Fork(t, p, red, w), Fork(t, p, red, Painted(w, true)));
  }

  lemma PaleSiblingLeft(up: Path, w: Shape, p: Item, red: bool, t: Shape, items: seq<Item>)
    requires Falling(InRight(up, w, p, red), t, items) && !IsRed(t)
    requires w.Fork? && !w.red && !IsRed(w.left) && !IsRed(w.right)
    ensures Falling(up, Fork(Painted(w, true), p, red, t), items)
  {
    SameOrder(up, Fork(w, p, red, t), Fork(Painted(w, true), p, red, t));
  }

  /** The position of t with a black sibling whose outer child is red. */
  ghost predicate NearEnd(up: Path, t: Shape, red: bool, outer: Shape, inner: Shape) {
    Balanced(t) && !IsRed(t) && Balanced(outer) && IsRed(outer) && Balanced(inner)
    && BlackHeight(inner) == BlackHeight(t) == BlackHeight(outer)
    && PathOk(up, BlackHeight(t) + 1 + if red then 0 else 1) && (red ==> !up.Top? && !RedAbove(up))
  }

  lemma OuterRedRight(up: Path, t: Shape, p: Item, red: bool, w: Shape, items: seq<Item>)
    requires Falling(InLeft(up, p, red, w), t, items) && !IsRed(t) && w.Fork? && !w.red && IsRed(w.right)
    ensures NearEnd(up, t, red, w.right, w.left) && InOrder(Plug(up, Fork(t, p, red, w))) == items
  {
  }

  lemma OuterRedLeft(up: Path, w: Shape, p: Item, red: bool, t: Shape, items: seq<Item>)
    requires Falling(InRight(up, w, p, red), t, items) && !IsRed(t) && w.Fork? && !w.red && IsRed(w.left)
    ensures NearEnd(up, t, red, w.left, w.right) && InOrder(Plug(up, Fork(w, p, red, t))) == items
  {
  }

  /** The sibling's inner child is red and its outer one black: rotate the red one outwards. */
  ghost function TurnedRight(w: Shape): Shape
    requires w.Fork? && w.left.Fork?
  {
    Fork(w.left.left, w.left.item, false, Fork(w.left.right, w.item, true, w.right))
  }

  ghost function TurnedLeft(w: Shape): Shape
    requires w.Fork? && w.right.Fork?
  {
    Fork(Fork(w.left, w.item, true, w.right.left), w.right.item, false, w.right.right)
  }

  lemma InnerRedRight(up: Path, t: Shape, p: Item, red: bool, w: Shape, items: seq<Item>)
    requires Falling(InLeft(up, p, red, w), t, items) && !IsRed(t) && w.Fork? && !w.red && IsRed(w.left)
    requires !IsRed(w.right)
    ensures var w' := TurnedRight(w);
      RotatedRight(Fork(Painted(w.left, false), w.item, true, w.right)) == w'
      && NearEnd(up, t, red, w'.right, w'.left) && InOrder(Plug(up, Fork(t, p, red, w'))) == items
  {
    assert Balanced(w) && Balanced(w.left);
    var u := Fork(Painted(w.left, false), w.item, true, w.right);
    RightRotationKeepsOrder(u);
    assert InOrder(u) == InOrder(w);
    SameOrder(up, Fork(t, p, red, w), Fork(t, p, red, TurnedRight(w)));
  }

  lemma InnerRedLeft(up: Path, w: Shape, p: Item, red: bool, t: Shape, items: seq<Item>)
    requires Falling(InRight(up, w, p, red), t, items) && !IsRed(t) && w.Fork? && !w.red && IsRed(w.right)
    requires !IsRed(w.left)
    ensures var w' := TurnedLeft(w);
      RotatedLeft(Fork(w.left, w.item, true, Painted(w.right, false))) == w'
      && NearEnd(up, t, red, w'.left, w'.right) && InOrder(Plug(up, Fork(w', p, red, t))) == items
  {
    assert Balanced(w) && Balanced(w.right);
    var u := Fork(w.left, w.item, true, Painted(w.right, false));
    LeftRotationKeepsOrder(u);
    assert InOrder(u) == InOrder(w);
    SameOrder(up, Fork(w, p, red, t), Fork(TurnedLeft(w), p, red, t));
  }

  /** One rotation ends it: the whole tree is valid again. */
  lemma LastTurnRight(up: Path, t: Shape, p: Item, red: bool, w: Shape, items: seq<Item>)
    requires w.Fork? && NearEnd(up, t, red, w.right, w.left) && InOrder(Plug(up, Fork(t, p, red, w))) == items
    ensures RotatedLeft(Fork(t, p, false, Fork(w.left, w.item, red, Painted(w.right, false))))
         == Fork(Fork(t, p, false, w.left), w.item, red, Painted(w.right, false))
    ensures Falling(Top, Plug(up, Fork(Fork(t, p, false, w.left), w.item, red, Painted(w.right, false))), items)
  {
    var w' := Fork(w.left, w.item, red, Painted(w.right, false));
    var u := Fork(t, p, false, w');
    assert InOrder(Painted(w.right, false)) == InOrder(w.right) && InOrder(w') == InOrder(w);
    LeftRotationKeepsOrder(u);
    SameOrder(up, Fork(t, p, red, w), u);
    SameOrder(up, u, RotatedLeft(u));
    PlugBalanced(up, RotatedLeft(u));
    assert Blackened(Plug(up, RotatedLeft(u))) == Plug(up, RotatedLeft(u));
  }

  lemma LastTurnLeft(up: Path, w: Shape, p: Item, red: bool, t: Shape, items: seq<Item>)
    requires w.Fork? && NearEnd(up, t, red, w.left, w.right) && InOrder(Plug(up, Fork(w, p, red, t))) == items
    ensures RotatedRight(Fork(Fork(Painted(w.left, false), w.item, red, w.right), p, false, t))
         == Fork(Painted(w.left, false), w.item, red, Fork(w.right, p, false, t))
    ensures Falling(Top, Plug(up, Fork(Painted(w.left, false), w.item, red, Fork(w.right, p, false, t))), items)
  {
    var w' := Fork(Painted(w.left, false), w.item, red, w.right);
    var u := Fork(w', p, false, t);
    assert InOrder(Painted(w.left, false)) == InOrder(w.left) && InOrder(w') == InOrder(w);
    RightRotationKeepsOrder(u);
    SameOrder(up, Fork(w, p, red, t), u);
    SameOrder(up, u, RotatedRight(u));
    PlugBalanced(up, RotatedRight(u));
    assert Blackened(Plug(up, RotatedRight(u))) == Plug(up, RotatedRight(u));
  }
}
