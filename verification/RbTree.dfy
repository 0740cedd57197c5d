// The linked red-black tree of module/stl/src/stl_rbtree.c: nodes with parent links and one shared
// sentinel standing for every missing child.
module RbTrees {
  import opened RbShapes
  import opened RbRemoval

  // ---------- How nodes in memory spell out a shape ----------

  /** The pointer by which a parent refers to the subtree. */
  ghost function Ptr(t: Shape, sentinel: Node): Node {
    if t.Nil? then sentinel else t.item.node
  }

  ghost predicate Spells(n: Node, x: Item, red: bool, left: Node, right: Node, parent: Node?)
    reads n
  {
    n == x.node && n.key == x.key && n.red == red && n.left == left && n.right == right && n.parent == parent
  }

  /** The nodes of t are linked as t says, and its top node's parent link is `parent`. */
  ghost predicate Linked(t: Shape, parent: Node?, sentinel: Node)
    reads Nodes(t)
  {
    match t
    case Nil => true
    case Fork(l, x, red, r) =>
      Spells(x.node, x, red, Ptr(l, sentinel), Ptr(r, sentinel), parent)
      && Linked(l, x.node, sentinel) && Linked(r, x.node, sentinel)
  }

  /** The node above the hole; `outer` is whatever the root's own parent link holds. */
  ghost function Above(path: Path, outer: Node?): Node? {
    if path.Top? then outer else path.item.node
  }

  /** The ancestors are linked as the path says, with `child` hanging in the hole. */
  ghost predicate LinkedPath(path: Path, child: Node, outer: Node?, sentinel: Node)
    reads PathNodes(path)
  {
    match path
    case Top => true
    case InLeft(up, x, red, r) =>
      Spells(x.node, x, red, child, Ptr(r, sentinel), Above(up, outer))
      && Linked(r, x.node, sentinel) && LinkedPath(up, x.node, outer, sentinel)
    case InRight(up, l, x, red) =>
      Spells(x.node, x, red, Ptr(l, sentinel), child, Above(up, outer))
      && Linked(l, x.node, sentinel) && LinkedPath(up, x.node, outer, sentinel)
  }

  /** The topmost node when `child` hangs in the hole. */
  ghost function Crown(path: Path, child: Node): Node {
    if path.Top? then child else Crown(path.up, path.item.node)
  }

  lemma {:induction false} CrownIsAbove(path: Path, child: Node)
    ensures if path.Top? then Crown(path, child) == child else Crown(path, child) in PathNodes(path)
  {
    if !path.Top? { CrownIsAbove(path.up, path.item.node); }
  }

  class RbTree {
    var root: Node
    const sentinel: Node
    const cmp: (int, int) -> int
    ghost var shape: Shape

    /** An empty tree. The source leaves root NULL here, which insertion does not accept;
        emptiness is root == sentinel, the test insertion makes. */
    constructor (cmp: (int, int) -> int)
      requires Orders(cmp)
      ensures Valid() && Items() == [] && this.cmp == cmp && fresh(sentinel)
    {
      this.cmp := cmp;
      shape := Nil;
      var s := new Node(0);
      sentinel := s;
      root := s;
    }

    /** Linked as a binary search tree of the given shape, with the red-black invariants, and a
        sentinel that is black and childless. */
    ghost predicate Valid()
      reads this, root, sentinel, Nodes(shape)
    {
      Held(Nodes(shape), Top, shape, root.parent)
      && !sentinel.red && sentinel.left == null && sentinel.right == null && sentinel.key == 0
      && Balanced(shape) && !IsRed(shape)
      && Orders(cmp) && Sorted(InOrder(shape), cmp)
    }

    /** The tree's nodes and keys in order. */
    ghost function Items(): seq<Item>
      reads this
    {
      InOrder(shape)
    }

    /** Memory holds the tree Plug(path, t), made of the nodes `all` and seen from the position of t. */
    ghost predicate Held(all: set<Node>, path: Path, t: Shape, outer: Node?)
      reads this`root, all
    {
      all == PathNodes(path) + Nodes(t) && sentinel !in all
      && Linked(t, Above(path, outer), sentinel)
      && LinkedPath(path, Ptr(t, sentinel), outer, sentinel)
      && root == Crown(path, Ptr(t, sentinel))
      && Apart(t) && ApartPath(path) && Nodes(t) !! PathNodes(path)
    }

    /** Linked and LinkedPath over a named set of nodes. */
    ghost predicate Sub(nodes: set<Node>, t: Shape, parent: Node?)
      reads nodes
    {
      nodes == Nodes(t) && sentinel !in nodes && Apart(t) && Linked(t, parent, sentinel)
    }

    ghost predicate Sup(nodes: set<Node>, path: Path, child: Node, outer: Node?)
      reads nodes
    {
      nodes == PathNodes(path) && sentinel !in nodes && ApartPath(path) && LinkedPath(path, child, outer, sentinel)
    }

    /** Points a subtree's top at a new parent, leaving the shared sentinel alone. */
    method Adopt(child: Node, parent: Node, ghost t: Shape, ghost was: Node?, ghost nodes: set<Node>)
      requires Sub(nodes, t, was) && child == Ptr(t, sentinel)
      modifies ({child} * nodes)`parent
      ensures Sub(nodes, t, parent)
    {
      if child != sentinel {
        child.parent := parent;
      }
    }

    /** Hangs `heir` where `node` hung: at the root, or on its side of its parent. */
    method Replace(node: Node, heir: Node, parent: Node?, ghost path: Path, ghost outer: Node?, ghost nodes: set<Node>)
      requires Sup(nodes, path, node, outer) && root == Crown(path, node)
      requires node !in nodes && node != sentinel && parent == Above(path, outer)
      modifies this`root, ({parent} * nodes)`left, ({parent} * nodes)`right
      ensures Sup(nodes, path, heir, outer) && root == Crown(path, heir)
      ensures path.Top? || root == old(root)
    {
      CrownIsAbove(path, node);
      if node == root {
        root := heir;
      } else if node == parent.left {
        parent.left := heir;
      } else {
        parent.right := heir;
      }
    }

    // ---------- Rotations ----------

    /** Three subtrees a, b, c and two nodes x, y under a path share nothing and make up `all`. */
    ghost predicate Scattered(all: set<Node>, p: set<Node>, a: set<Node>, x: Node, b: set<Node>, y: Node, c: set<Node>)
    {
      x != y && p !! a && p !! b && p !! c && a !! b && a !! c && b !! c
      && (forall n | n in {x, y} :: n !in p && n !in a && n !in b && n !in c)
      && sentinel !in all && all == p + a + {x} + b + {y} + c
    }

    /** The nodes a rotation writes to lie outside the subtrees it moves. */
    lemma Touched(all: set<Node>, p: set<Node>, a: set<Node>, x: Node, b: set<Node>, y: Node, c: set<Node>)
      requires Scattered(all, p, a, x, b, y, c)
      ensures x in all && y in all && b <= all && p <= all && x != y && x != sentinel && y != sentinel
      ensures x !in p && x !in a && x !in b && x !in c
      ensures y !in p && y !in a && y !in b && y !in c
      ensures forall n :: n in b ==> n !in p && n !in a && n !in c
      ensures forall n :: n in p ==> n !in a && n !in b && n !in c
    {
    }

    lemma OpenLeft(all: set<Node>, path: Path, t: Shape, outer: Node?)
      requires Held(all, path, t, outer) && t.Fork? && t.right.Fork?
      ensures var a, x, y, b, c, s := t.left, t.item.node, t.right.item.node, t.right.left, t.right.right, sentinel;
        Sub(Nodes(a), a, x) && Sub(Nodes(b), b, y) && Sub(Nodes(c), c, y) && Sup(PathNodes(path), path, x, outer)
        && Spells(x, t.item, t.red, Ptr(a, s), y, Above(path, outer))
        && Spells(y, t.right.item, t.right.red, Ptr(b, s), Ptr(c, s), x)
        && root == Crown(path, x)
        && Scattered(all, PathNodes(path), Nodes(a), x, Nodes(b), y, Nodes(c))
    {
      assert Linked(t.right, t.item.node, sentinel) && Apart(t.right);
    }

    lemma CloseLeft(all: set<Node>, path: Path, t: Shape, outer: Node?)
      requires t.Fork? && t.right.Fork?
      requires var a, x, y, b, c, s := t.left, t.item.node, t.right.item.node, t.right.left, t.right.right, sentinel;
        Sub(Nodes(a), a, x) && Sub(Nodes(b), b, x) && Sub(Nodes(c), c, y) && Sup(PathNodes(path), path, y, outer)
        && Spells(x, t.item, t.red, Ptr(a, s), Ptr(b, s), y)
        && Spells(y, t.right.item, t.right.red, x, Ptr(c, s), Above(path, outer))
        && root == Crown(path, y)
        && Scattered(all, PathNodes(path), Nodes(a), x, Nodes(b), y, Nodes(c))
      ensures Held(all, path, RotatedLeft(t), outer)
    {
      LeftRotationKeepsNodes(t);
    }

    method LeftRotate(node: Node, ghost all: set<Node>, ghost path: Path, ghost t: Shape, ghost outer: Node?)
      requires Held(all, path, t, outer) && t.Fork? && t.right.Fork? && node == t.item.node
      modifies this`root, all`left, all`right, all`parent, all`red
      ensures Held(all, path, RotatedLeft(t), outer)
    {
      hide Held, Sub, Sup, Nodes, PathNodes, Crown, RotatedLeft, Scattered, Apart, ApartPath, Linked, LinkedPath, Above;
      ghost var a, b, c := t.left, t.right.left, t.right.right;
      OpenLeft(all, path, t, outer);
      ghost var A, B, C, P := Nodes(a), Nodes(b), Nodes(c), PathNodes(path);
      assert allocated(A) && allocated(B) && allocated(C) && allocated(P);
      var temp := node.right;
      Touched(all, P, A, node, B, temp, C);
      node.right := temp.left;
      Adopt(temp.left, node, b, temp, B);
      temp.parent := node.parent;
      assert Sub(A, a, node) && Sub(B, b, node) && Sub(C, c, temp) && Sup(P, path, node, outer);
      Replace(node, temp, node.parent, path, outer, P);
      temp.left := node;
      node.parent := temp;
      assert Sub(A, a, node);
      assert Sub(B, b, node);
      assert Sub(C, c, temp);
      assert Sup(P, path, temp, outer);
      CloseLeft(all, path, t, outer);
    }

    lemma OpenRight(all: set<Node>, path: Path, t: Shape, outer: Node?)
      requires Held(all, path, t, outer) && t.Fork? && t.left.Fork?
      ensures var a, x, y, b, c, s := t.left.left, t.left.item.node, t.item.node, t.left.right, t.right, sentinel;
        Sub(Nodes(a), a, x) && Sub(Nodes(b), b, x) && Sub(Nodes(c), c, y) && Sup(PathNodes(path), path, y, outer)
        && Spells(x, t.left.item, t.left.red, Ptr(a, s), Ptr(b, s), y)
        && Spells(y, t.item, t.red, x, Ptr(c, s), Above(path, outer))
        && root == Crown(path, y)
        && Scattered(all, PathNodes(path), Nodes(a), x, Nodes(b), y, Nodes(c))
    {
      assert Linked(t.left, t.item.node, sentinel) && Apart(t.left);
    }

    lemma CloseRight(all: set<Node>, path: Path, t: Shape, outer: Node?)
      requires t.Fork? && t.left.Fork?
      requires var a, x, y, b, c, s := t.left.left, t.left.item.node, t.item.node, t.left.right, t.right, sentinel;
        Sub(Nodes(a), a, x) && Sub(Nodes(b), b, y) && Sub(Nodes(c), c, y) && Sup(PathNodes(path), path, x, outer)
        && Spells(x, t.left.item, t.left.red, Ptr(a, s), y, Above(path, outer))
        && Spells(y, t.item, t.red, Ptr(b, s), Ptr(c, s), x)
        && root == Crown(path, x)
        && Scattered(all, PathNodes(path), Nodes(a), x, Nodes(b), y, Nodes(c))
      ensures Held(all, path, RotatedRight(t), outer)
    {
      RightRotationKeepsNodes(t);
    }

    method RightRotate(node: Node, ghost all: set<Node>, ghost path: Path, ghost t: Shape, ghost outer: Node?)
      requires Held(all, path, t, outer) && t.Fork? && t.left.Fork? && node == t.item.node
      modifies this`root, all`left, all`right, all`parent, all`red
      ensures Held(all, path, RotatedRight(t), outer)
    {
      hide Held, Sub, Sup, Nodes, PathNodes, Crown, RotatedRight, Scattered, Apart, ApartPath, Linked, LinkedPath,
        Above;
      ghost var a, b, c := t.left.left, t.left.right, t.right;
      OpenRight(all, path, t, outer);
      ghost var A, B, C, P := Nodes(a), Nodes(b), Nodes(c), PathNodes(path);
      assert allocated(A) && allocated(B) && allocated(C) && allocated(P);
      var temp := node.left;
      Touched(all, P, A, temp, B, node, C);
      node.left := temp.right;
      Adopt(temp.right, node, b, temp, B);
      temp.parent := node.parent;
      assert Sub(A, a, temp) && Sub(B, b, node) && Sub(C, c, node) && Sup(P, path, node, outer);
      Replace(node, temp, node.parent, path, outer, P);
      temp.right := node;
      node.parent := temp;
      assert Sub(A, a, temp);
      assert Sub(B, b, node);
      assert Sub(C, c, node);
      assert Sup(P, path, temp, outer);
      CloseRight(all, path, t, outer);
    }

    // ---------- Moving about ----------

    /** Seen from the parent instead of from its left, or its right, child. */
    lemma FromLeft(all: set<Node>, up: Path, l: Shape, x: Item, red: bool, r: Shape, outer: Node?)
      ensures Held(all, InLeft(up, x, red, r), l, outer) <==> Held(all, up, Fork(l, x, red, r), outer)
    {
    }

    lemma FromRight(all: set<Node>, up: Path, l: Shape, x: Item, red: bool, r: Shape, outer: Node?)
      ensures Held(all, InRight(up, l, x, red), r, outer) <==> Held(all, up, Fork(l, x, red, r), outer)
    {
    }

    lemma SeeNode(all: set<Node>, path: Path, t: Shape, outer: Node?)
      requires Held(all, path, t, outer) && t.Fork?
      ensures t.item.node in all
      ensures Spells(t.item.node, t.item, t.red, Ptr(t.left, sentinel), Ptr(t.right, sentinel), Above(path, outer))
    {
    }

    /** Pointer comparisons tell where a position is. */
    lemma SeeParent(all: set<Node>, path: Path, t: Shape, outer: Node?)
      requires Held(all, path, t, outer)
      ensures root == Ptr(t, sentinel) <==> path.Top?
      ensures path.InRight? && path.left.Fork? ==> Ptr(path.left, sentinel) != Ptr(t, sentinel)
      ensures path.InLeft? ==>
        path.item.node in all
          && Spells(path.item.node, path.item, path.red, Ptr(t, sentinel), Ptr(path.right, sentinel),
            Above(path.up, outer))
      ensures path.InRight? ==>
        path.item.node in all
          && Spells(path.item.node, path.item, path.red, Ptr(path.left, sentinel), Ptr(t, sentinel),
            Above(path.up, outer))
      ensures t.Fork? && path.InLeft? ==> Ptr(path.right, sentinel) != t.item.node
      ensures t.Fork? && path.InRight? ==> Ptr(path.left, sentinel) != t.item.node
    {
      CrownIsAbove(path, Ptr(t, sentinel));
      if path.InLeft? {
        assert Ptr(path.right, sentinel) in PathNodes(path) + {sentinel};
      }
      if path.InRight? {
        assert Ptr(path.left, sentinel) in PathNodes(path) + {sentinel};
      }
    }

    /** Reading the colour of the other child works even when it is the sentinel. */
    lemma SeeSibling(all: set<Node>, path: Path, t: Shape, outer: Node?)
      requires Held(all, path, t, outer) && !sentinel.red
      ensures path.InLeft? ==> Ptr(path.right, sentinel).red == IsRed(path.right)
      ensures path.InRight? ==> Ptr(path.left, sentinel).red == IsRed(path.left)
    {
    }

    /** The colours of the other child's children. */
    lemma SeeNephews(all: set<Node>, path: Path, t: Shape, outer: Node?)
      requires Held(all, path, t, outer) && !sentinel.red
      requires !path.Top? && (if path.InLeft? then path.right.Fork? else path.left.Fork?)
      ensures var s := if path.InLeft? then path.right else path.left;
        Spells(s.item.node, s.item, s.red, Ptr(s.left, sentinel), Ptr(s.right, sentinel), path.item.node)
        && Ptr(s.left, sentinel).red == IsRed(s.left) && Ptr(s.right, sentinel).red == IsRed(s.right)
    {
      var s := if path.InLeft? then path.right else path.left;
      assert Linked(s, path.item.node, sentinel);
      assert Linked(s.left, s.item.node, sentinel) && Linked(s.right, s.item.node, sentinel);
    }

    /** What can be read off a fork with both of its children. */
    lemma SeeFork(all: set<Node>, path: Path, l: Shape, x: Item, red: bool, r: Shape, outer: Node?)
      requires Held(all, path, Fork(l, x, red, r), outer)
      ensures Spells(x.node, x, red, Ptr(l, sentinel), Ptr(r, sentinel), Above(path, outer))
      ensures l.Fork? ==>
        l.item.node in all && Spells(l.item.node, l.item, l.red, Ptr(l.left, sentinel), Ptr(l.right, sentinel), x.node)
      ensures r.Fork? ==>
        r.item.node in all && Spells(r.item.node, r.item, r.red, Ptr(r.left, sentinel), Ptr(r.right, sentinel), x.node)
      ensures !sentinel.red ==> Ptr(l, sentinel).red == IsRed(l) && Ptr(r, sentinel).red == IsRed(r)
      ensures (l.Fork? <==> Ptr(l, sentinel) != sentinel) && (r.Fork? <==> Ptr(r, sentinel) != sentinel)
      ensures x.node in all && Ptr(l, sentinel) != x.node && Ptr(r, sentinel) != x.node
      ensures Ptr(l, sentinel) == Ptr(r, sentinel) ==> l.Nil? && r.Nil?
    {
      assert Linked(l, x.node, sentinel) && Linked(r, x.node, sentinel);
      assert l.Fork? ==> l.item.node in Nodes(l);
      assert r.Fork? ==> r.item.node in Nodes(r);
    }

    method Paint(node: Node, red: bool, ghost all: set<Node>, ghost path: Path, ghost t: Shape, ghost outer: Node?)
      requires Held(all, path, t, outer) && t.Fork? && node == t.item.node
      modifies node`red
      ensures Held(all, path, Painted(t, red), outer)
    {
      node.red := red;
    }

    // ---------- Insertion fix-up ----------

    /** The parent's position, its red subtree being Fork(a, p, true, b). */
    lemma ToRedParent(all: set<Node>, path: Path, t: Shape, outer: Node?)
      requires Held(all, path, t, outer) && !path.Top? && path.red
      ensures path.InLeft? ==> Held(all, path.up, Fork(t, path.item, true, path.right), outer)
      ensures path.InRight? ==> Held(all, path.up, Fork(path.left, path.item, true, t), outer)
    {
      hide Held;
      if path.InLeft? {
        FromLeft(all, path.up, t, path.item, true, path.right, outer);
      } else {
        FromRight(all, path.up, path.left, path.item, true, t, outer);
      }
    }

    /** Red uncle on the right of the grandparent. */
    method RecolourLeft(parent: Node, uncle: Node, grand: Node, ghost all: set<Node>, ghost path: Path,
                        ghost a: Shape, ghost p: Item, ghost b: Shape, ghost outer: Node?)
      requires path.InLeft? && IsRed(path.right) && Held(all, path, Fork(a, p, true, b), outer)
      requires parent == p.node && uncle == path.right.item.node && grand == path.item.node
      modifies all`red
      ensures Held(all, path.up, Fork(Fork(a, p, false, b), path.item, true, Painted(path.right, false)), outer)
    {
      hide Held;
      ghost var up, g, gr, u := path.up, path.item, path.red, path.right;
      SeeNode(all, path, Fork(a, p, true, b), outer);
      Paint(parent, false, all, path, Fork(a, p, true, b), outer);
      ghost var q := Fork(a, p, false, b);
      FromLeft(all, up, q, g, gr, u, outer);
      FromRight(all, up, q, g, gr, u, outer);
      SeeNode(all, InRight(up, q, g, gr), u, outer);
      Paint(uncle, false, all, InRight(up, q, g, gr), u, outer);
      FromRight(all, up, q, g, gr, Painted(u, false), outer);
      SeeNode(all, up, Fork(q, g, gr, Painted(u, false)), outer);
      Paint(grand, true, all, up, Fork(q, g, gr, Painted(u, false)), outer);
    }

    /** Black uncle on the right: blacken the parent, redden the grandparent, rotate it right. */
    method LiftLeft(parent: Node, grand: Node, ghost all: set<Node>, ghost path: Path,
                    ghost a: Shape, ghost p: Item, ghost b: Shape, ghost outer: Node?)
      requires path.InLeft? && Held(all, path, Fork(a, p, true, b), outer)
      requires parent == p.node && grand == path.item.node
      modifies this`root, all`left, all`right, all`parent, all`red
      ensures Held(all, InLeft(path.up, p, false, Fork(b, path.item, true, path.right)), a, outer)
    {
      hide Held;
      ghost var up, g, gr, u := path.up, path.item, path.red, path.right;
      SeeNode(all, path, Fork(a, p, true, b), outer);
      Paint(parent, false, all, path, Fork(a, p, true, b), outer);
      ghost var q := Fork(a, p, false, b);
      FromLeft(all, up, q, g, gr, u, outer);
      SeeNode(all, up, Fork(q, g, gr, u), outer);
      Paint(grand, true, all, up, Fork(q, g, gr, u), outer);
      RightRotate(grand, all, up, Fork(q, g, true, u), outer);
      FromLeft(all, up, a, p, false, Fork(b, g, true, u), outer);
    }

    /** One pass of the loop when the parent is a left child. */
    method FixUnderLeft(node0: Node, ghost all: set<Node>, ghost path: Path, ghost t: Shape, ghost outer: Node?,
                        ghost items: seq<Item>)
      returns (node: Node, ghost path': Path, ghost t': Shape)
      requires Held(all, path, t, outer) && Climbing(path, t, items) && RedAbove(path) && path.up.InLeft?
      requires node0 == t.item.node && !sentinel.red
      modifies this`root, all`left, all`right, all`parent, all`red
      ensures Held(all, path', t', outer) && Climbing(path', t', items) && node == t'.item.node
      ensures Depth(path') < Depth(path)
    {
      hide Held, Balanced, PathOk, BlackHeight, InOrder, Plug;
      node := node0;
      ClimbToParent(path, t, items);
      ToRedParent(all, path, t, outer);
      SeeNode(all, path, t, outer);
      SeeParent(all, path, t, outer);
      ghost var up := path.up;
      ghost var a, p, b := if path.InLeft? then t else path.left, path.item, if path.InLeft? then path.right else t;
      SeeParent(all, up, Fork(a, p, true, b), outer);
      SeeSibling(all, up, Fork(a, p, true, b), outer);
      var temp := node.parent.parent.right;
      if temp.red {
        RecolourUnderLeft(up, a, p, b, items);
        RecolourLeft(node.parent, temp, node.parent.parent, all, up, a, p, b, outer);
        node := node.parent.parent;
        path', t' := up.up, Fork(Fork(a, p, false, b), up.item, true, Painted(up.right, false));
      } else {
        if node == node.parent.right {
          node := node.parent;
          TurnOutLeft(up, a, p, b, items);
          LeftRotate(node, all, up, Fork(a, p, true, b), outer);
          a, p, b := Fork(a, p, true, b.left), b.item, b.right;
        }
        RotateUnderLeft(up, a, p, b, items);
        SeeFork(all, up, a, p, true, b, outer);
        LiftLeft(node.parent, node.parent.parent, all, up, a, p, b, outer);
        path', t' := InLeft(up.up, p, false, Fork(b, up.item, true, up.right)), a;
      }
    }

    /** Red uncle on the left of the grandparent. */
    method RecolourRight(parent: Node, uncle: Node, grand: Node, ghost all: set<Node>, ghost path: Path,
                         ghost a: Shape, ghost p: Item, ghost b: Shape, ghost outer: Node?)
      requires path.InRight? && IsRed(path.left) && Held(all, path, Fork(a, p, true, b), outer)
      requires parent == p.node && uncle == path.left.item.node && grand == path.item.node
      modifies all`red
      ensures Held(all, path.up, Fork(Painted(path.left, false), path.item, true, Fork(a, p, false, b)), outer)
    {
      hide Held;
      ghost var up, g, gr, u := path.up, path.item, path.red, path.left;
      SeeNode(all, path, Fork(a, p, true, b), outer);
      Paint(parent, false, all, path, Fork(a, p, true, b), outer);
      ghost var q := Fork(a, p, false, b);
      FromRight(all, up, u, g, gr, q, outer);
      FromLeft(all, up, u, g, gr, q, outer);
      SeeNode(all, InLeft(up, g, gr, q), u, outer);
      Paint(uncle, false, all, InLeft(up, g, gr, q), u, outer);
      FromLeft(all, up, Painted(u, false), g, gr, q, outer);
      SeeNode(all, up, Fork(Painted(u, false), g, gr, q), outer);
      Paint(grand, true, all, up, Fork(Painted(u, false), g, gr, q), outer);
    }

    /** Black uncle on the left: blacken the parent, redden the grandparent, rotate it left. */
    method LiftRight(parent: Node, grand: Node, ghost all: set<Node>, ghost path: Path,
                     ghost a: Shape, ghost p: Item, ghost b: Shape, ghost outer: Node?)
      requires path.InRight? && Held(all, path, Fork(a, p, true, b), outer)
      requires parent == p.node && grand == path.item.node
      modifies this`root, all`left, all`right, all`parent, all`red
      ensures Held(all, InRight(path.up, Fork(path.left, path.item, true, a), p, false), b, outer)
    {
      hide Held;
      ghost var up, g, gr, u := path.up, path.item, path.red, path.left;
      SeeNode(all, path, Fork(a, p, true, b), outer);
      Paint(parent, false, all, path, Fork(a, p, true, b), outer);
      ghost var q := Fork(a, p, false, b);
      FromRight(all, up, u, g, gr, q, outer);
      SeeNode(all, up, Fork(u, g, gr, q), outer);
      Paint(grand, true, all, up, Fork(u, g, gr, q), outer);
      LeftRotate(grand, all, up, Fork(u, g, true, q), outer);
      FromRight(all, up, Fork(u, g, true, a), p, false, b, outer);
    }

    /** One pass of the loop when the parent is a right child. */
    method FixUnderRight(node0: Node, ghost all: set<Node>, ghost path: Path, ghost t: Shape, ghost outer: Node?,
                         ghost items: seq<Item>)
      returns (node: Node, ghost path': Path, ghost t': Shape)
      requires Held(all, path, t, outer) && Climbing(path, t, items) && RedAbove(path) && path.up.InRight?
      requires node0 == t.item.node && !sentinel.red
      modifies this`root, all`left, all`right, all`parent, all`red
      ensures Held(all, path', t', outer) && Climbing(path', t', items) && node == t'.item.node
      ensures Depth(path') < Depth(path)
    {
      hide Held, Balanced, PathOk, BlackHeight, InOrder, Plug;
      node := node0;
      ClimbToParent(path, t, items);
      ToRedParent(all, path, t, outer);
      SeeNode(all, path, t, outer);
      SeeParent(all, path, t, outer);
      ghost var up := path.up;
      ghost var a, p, b := if path.InLeft? then t else path.left, path.item, if path.InLeft? then path.right else t;
      SeeParent(all, up, Fork(a, p, true, b), outer);
      SeeSibling(all, up, Fork(a, p, true, b), outer);
      var temp := node.parent.parent.left;
      if temp.red {
        RecolourUnderRight(up, a, p, b, items);
        RecolourRight(node.parent, temp, node.parent.parent, all, up, a, p, b, outer);
        node := node.parent.parent;
        path', t' := up.up, Fork(Painted(up.left, false), up.item, true, Fork(a, p, false, b));
      } else {
        if node == node.parent.left {
          node := node.parent;
          TurnOutRight(up, a, p, b, items);
          RightRotate(node, all, up, Fork(a, p, true, b), outer);
          a, p, b := a.left, a.item, Fork(a.right, p, true, b);
        }
        RotateUnderRight(up, a, p, b, items);
        SeeFork(all, up, a, p, true, b, outer);
        LiftRight(node.parent, node.parent.parent, all, up, a, p, b, outer);
        path', t' := InRight(up.up, Fork(up.left, up.item, true, a), p, false), b;
      }
    }

    // ---------- Insertion ----------

    /** An empty place is a path with the sentinel hanging in its hole. */
    lemma EmptyPlace(all: set<Node>, path: Path, outer: Node?)
      ensures Held(all, path, Nil, outer) <==> Sup(all, path, sentinel, outer) && root == Crown(path, sentinel)
    {
    }

    lemma LeafPlace(all: set<Node>, path: Path, x: Item, red: bool, outer: Node?)
      requires Sup(all, path, x.node, outer) && root == Crown(path, x.node) && x.node !in all && x.node != sentinel
      requires Spells(x.node, x, red, sentinel, sentinel, Above(path, outer))
      ensures Held(all + {x.node}, path, Fork(Nil, x, red, Nil), outer)
    {
    }

    method Hang(temp: Node, onLeft: bool, node: Node, ghost all: set<Node>, ghost path: Path, ghost was: Node,
                ghost outer: Node?)
      requires Sup(all, path, was, outer) && !path.Top? && temp == path.item.node && onLeft == path.InLeft?
      modifies temp`left, temp`right
      ensures Sup(all, path, node, outer) && Crown(path, node) == Crown(path, was)
    {
      if onLeft {
        temp.left := node;
      } else {
        temp.right := node;
      }
    }

    /** Links a red leaf into an empty place below `temp`. */
    method Attach(temp: Node, onLeft: bool, node: Node, ghost all: set<Node>, ghost path: Path, ghost outer: Node?)
      requires Held(all, path, Nil, outer) && !path.Top? && temp == path.item.node && onLeft == path.InLeft?
      requires node !in all && node != sentinel
      modifies temp`left, temp`right, node`parent, node`left, node`right, node`red
      ensures Held(all + {node}, path, Fork(Nil, Item(node, node.key), true, Nil), outer)
    {
      hide Held, Sup, Crown;
      SeeParent(all, path, Nil, outer);
      EmptyPlace(all, path, outer);
      Hang(temp, onLeft, node, all, path, sentinel, outer);
      node.parent := temp;
      node.left := sentinel;
      node.right := sentinel;
      node.red := true;
      LeafPlace(all, path, Item(node, node.key), true, outer);
    }

    /** Walks down by comparisons to an empty place and links the node there, red. */
    method InsertValue(temp0: Node, node: Node, ghost all: set<Node>, ghost outer: Node?) returns (ghost path: Path)
      requires Held(all, Top, shape, outer) && shape.Fork? && temp0 == shape.item.node
      requires node !in all && node != sentinel && Orders(cmp) && Sorted(InOrder(shape), cmp)
      modifies all`left, all`right, all`parent, all`red, node`parent, node`left, node`right, node`red
      ensures Held(all + {node}, path, Fork(Nil, Item(node, node.key), true, Nil), outer)
      ensures Plug(path, Nil) == shape && !path.Top?
      ensures Between(path, node.key, cmp)
    {
      hide Held, Sorted, Orders, InOrder, Between, Plug;
      EmptyDescent(shape, node.key, cmp);
      path := Top;
      ghost var t := shape;
      var temp := temp0;
      var onLeft := false;
      while true
        invariant t.Fork? && temp == t.item.node
        invariant Held(all, path, t, outer) && Plug(path, t) == shape && Sorted(InOrder(t), cmp)
        invariant Between(path, node.key, cmp)
        invariant node.key == old(node.key)
        decreases t
      {
        ghost var l, x, red, r := t.left, t.item, t.red, t.right;
        SeeFork(all, path, l, x, red, r, outer);
        DescendStep(path, t, node.key, cmp);
        onLeft := cmp(node.key, temp.key) < 0;
        if onLeft {
          FromLeft(all, path, l, x, red, r, outer);
          path, t := InLeft(path, x, red, r), l;
        } else {
          FromRight(all, path, l, x, red, r, outer);
          path, t := InRight(path, l, x, red), r;
        }
        var next := if onLeft then temp.left else temp.right;
        if next == sentinel {
          break;
        }
        temp := next;
      }
      SeeParent(all, path, Nil, outer);
      Attach(temp, onLeft, node, all, path, outer);
    }

    /** The same memory seen from the root. */
    lemma {:induction false} ToTop(all: set<Node>, path: Path, t: Shape, outer: Node?)
      ensures Held(all, path, t, outer) <==> Held(all, Top, Plug(path, t), outer)
      decreases path
    {
      hide Held;
      match path
      case Top =>
      case InLeft(up, x, red, r) =>
        FromLeft(all, up, t, x, red, r, outer);
        ToTop(all, up, Fork(t, x, red, r), outer);
      case InRight(up, l, x, red) =>
        FromRight(all, up, l, x, red, t, outer);
        ToTop(all, up, Fork(l, x, red, t), outer);
    }

    ghost predicate SentinelOk()
      reads sentinel
    {
      !sentinel.red && sentinel.left == null && sentinel.right == null && sentinel.key == 0
    }

    lemma ToValid(all: set<Node>, outer: Node?)
      requires Held(all, Top, shape, outer) && SentinelOk() && Balanced(shape) && !IsRed(shape)
      requires Orders(cmp) && Sorted(Items(), cmp)
      ensures Valid() && all == Nodes(shape) && (root == sentinel || root.parent == outer)
    {
    }

    lemma FromValid()
      requires Valid()
      ensures Held(Nodes(shape), Top, shape, root.parent) && SentinelOk() && Balanced(shape) && !IsRed(shape)
      ensures Orders(cmp) && Sorted(Items(), cmp)
      ensures (shape.Fork? <==> root != sentinel) && sentinel !in Nodes(shape)
      ensures shape.Fork? ==> root == shape.item.node
    {
    }

    method InsertFirst(node: Node)
      requires Valid() && node != sentinel && root == sentinel
      modifies this, node`parent, node`left, node`right, node`red
      ensures Valid() && root.parent == null && shape == Fork(Nil, Item(node, node.key), false, Nil)
    {
      node.parent := null;
      node.left := sentinel;
      node.right := sentinel;
      node.red := false;
      root := node;
      shape := Fork(Nil, Item(node, node.key), false, Nil);
    }

    /** Adds the node after every item not greater than it. */
    method Insert(node: Node)
      requires Valid() && node !in Nodes(shape) && node != sentinel
      modifies this, Nodes(shape), node
      ensures Valid() && node.key == old(node.key) && Nodes(shape) == old(Nodes(shape)) + {node}
      ensures exists i :: InsertedAt(old(Items()), i, Item(node, node.key), Items(), cmp)
      ensures root.parent == if old(root) == sentinel then null else old(root.parent)
    {
      hide Valid, Held, Balanced, Sorted, Orders, InsertedAt, Between;
      FromValid();
      ghost var items, x := Items(), Item(node, node.key);
      if root == sentinel {
        InsertFirst(node);
        InsertedAlone(x, cmp);
        assert items == [];
        assert InsertedAt(items, 0, x, Items(), cmp);
        return;
      }
      ghost var all, outer, t := Nodes(shape), root.parent, Fork(Nil, x, true, Nil);
      ghost var path := InsertValue(root, node, all, outer);
      LeafClimbs(path, x);
      FilledHole(path, x, true, cmp);
      ghost var items' := InOrder(Plug(path, t));
      Rebalance(node, all + {node}, path, t, outer, items');
      InsertedIsSorted(items, |Before(path)|, x, items', cmp);
      ToValid(all + {node}, outer);
      FromValid();
    }

    /** The re-balancing loop after a red leaf was linked in. */
    method Rebalance(node0: Node, ghost all: set<Node>, ghost path0: Path, ghost t0: Shape, ghost outer: Node?,
                     ghost items: seq<Item>)
      requires Held(all, path0, t0, outer) && Climbing(path0, t0, items) && node0 == t0.item.node && !sentinel.red
      requires sentinel !in all
      modifies this, all`left, all`right, all`parent, all`red
      ensures Held(all, Top, shape, outer) && Balanced(shape) && !IsRed(shape) && shape.Fork? && Items() == items
    {
      hide Held, Balanced, PathOk, BlackHeight, InOrder, Plug;
      var node := node0;
      ghost var path, t := path0, t0;
      SeeNode(all, path, t, outer);
      SeeParent(all, path, t, outer);
      while node != root && node.parent.red
        invariant Held(all, path, t, outer) && Climbing(path, t, items) && node == t.item.node
        invariant node in all && (node == root <==> path.Top?)
        invariant !path.Top? ==> node.parent == path.item.node && node.parent in all && node.parent.red == path.red
        decreases Depth(path)
      {
        RedHasGrandparent(path, t, items);
        SeeParent(all, path, t, outer);
        ToRedParent(all, path, t, outer);
        SeeParent(all, path.up,
                  if path.InLeft? then Fork(t, path.item, true, path.right) else Fork(path.left, path.item, true, t),
                  outer);
        if node.parent == node.parent.parent.left {
          node, path, t := FixUnderLeft(node, all, path, t, outer, items);
        } else {
          node, path, t := FixUnderRight(node, all, path, t, outer, items);
        }
        SeeNode(all, path, t, outer);
        SeeParent(all, path, t, outer);
      }
      ClimbEnds(path, t, items);
      ToTop(all, path, t, outer);
      shape := Plug(path, t);
      SeeNode(all, Top, shape, outer);
      SeeParent(all, Top, shape, outer);
      Paint(root, false, all, Top, shape, outer);
      shape := Painted(shape, false);
    }

    // ---------- Taking nodes out ----------

    ghost predicate Parted(all: set<Node>, p: set<Node>, l: set<Node>, x: Node, r: set<Node>)
    {
      x !in p && x !in l && x !in r && p !! l && p !! r && l !! r && sentinel !in all && all == p + l + {x} + r
    }

    lemma PartedTouch(all: set<Node>, p: set<Node>, l: set<Node>, x: Node, r: set<Node>)
      requires Parted(all, p, l, x, r)
      ensures x !in p && x !in l && x !in r && x in all && p <= all && l <= all && r <= all && sentinel !in all
      ensures forall n :: n in p ==> n !in l && n !in r
      ensures forall n :: n in l ==> n !in p && n !in r
      ensures forall n :: n in r ==> n !in p && n !in l
    {
    }

    lemma OpenFork(all: set<Node>, path: Path, l: Shape, x: Item, red: bool, r: Shape, outer: Node?)
      requires Held(all, path, Fork(l, x, red, r), outer)
      ensures Sub(Nodes(l), l, x.node) && Sub(Nodes(r), r, x.node) && Sup(PathNodes(path), path, x.node, outer)
      ensures Spells(x.node, x, red, Ptr(l, sentinel), Ptr(r, sentinel), Above(path, outer))
      ensures root == Crown(path, x.node)
      ensures Parted(all, PathNodes(path), Nodes(l), x.node, Nodes(r))
    {
    }

    lemma CloseFork(all: set<Node>, path: Path, l: Shape, x: Item, red: bool, r: Shape, outer: Node?)
      requires Sub(Nodes(l), l, x.node) && Sub(Nodes(r), r, x.node) && Sup(PathNodes(path), path, x.node, outer)
      requires Spells(x.node, x, red, Ptr(l, sentinel), Ptr(r, sentinel), Above(path, outer))
      requires root == Crown(path, x.node)
      requires Parted(all, PathNodes(path), Nodes(l), x.node, Nodes(r))
      ensures Held(all, path, Fork(l, x, red, r), outer)
    {
    }

    lemma CloseGap(all: set<Node>, path: Path, t: Shape, outer: Node?)
      requires Sub(Nodes(t), t, Above(path, outer)) && Sup(PathNodes(path), path, Ptr(t, sentinel), outer)
      requires root == Crown(path, Ptr(t, sentinel)) && Nodes(t) !! PathNodes(path) && all == PathNodes(path) + Nodes(t)
      ensures Held(all, path, t, outer)
    {
    }

    /** Hangs `heir` on the side of the parent where `node` hung. */
    method Unhook(node: Node, heir: Node, parent: Node, ghost path: Path, ghost outer: Node?, ghost nodes: set<Node>)
      requires Sup(nodes, path, node, outer) && !path.Top? && parent == path.item.node
      requires node !in nodes && node != sentinel
      modifies parent`left, parent`right
      ensures Sup(nodes, path, heir, outer) && Crown(path, heir) == Crown(path, node) && parent in nodes
    {
      if node == parent.left {
        parent.left := heir;
      } else {
        parent.right := heir;
      }
    }

    /** Sets the parent link of a subtree's top, the sentinel's too. */
    method Reparent(child: Node, parent: Node?, ghost t: Shape, ghost was: Node?, ghost nodes: set<Node>)
      requires Sub(nodes, t, was) && child == Ptr(t, sentinel)
      modifies child`parent
      ensures Sub(nodes, t, parent) && child.parent == parent && (child in nodes || child == sentinel)
    {
      child.parent := parent;
    }

    /** Takes out a node that has at most one child. */
    method TakeOutSingle(node: Node, temp: Node, ghost all: set<Node>, ghost path: Path,
                         ghost l: Shape, ghost x: Item, ghost red: bool, ghost r: Shape, ghost outer: Node?)
      requires Held(all, path, Fork(l, x, red, r), outer) && node == x.node && !path.Top? && (l.Nil? || r.Nil?)
      requires temp == Ptr(if l.Nil? then r else l, sentinel)
      modifies all`left, all`right, all`parent, sentinel`parent
      ensures Held(all - {node}, path, if l.Nil? then r else l, outer) && temp.parent == Above(path, outer)
      ensures node in all && sentinel !in all
    {
      hide Held, Sub, Sup, Nodes, PathNodes, Crown, Linked, LinkedPath, Apart, ApartPath;
      OpenFork(all, path, l, x, red, r, outer);
      SeeFork(all, path, l, x, red, r, outer);
      SeeParent(all, path, Fork(l, x, red, r), outer);
      ghost var t := if l.Nil? then r else l;
      ghost var P, T := PathNodes(path), Nodes(t);
      NoNodes();
      assert allocated(P) && allocated(T);
      Unhook(node, temp, node.parent, path, outer, P);
      assert Sub(T, t, node);
      Reparent(temp, node.parent, t, node, T);
      assert Sup(P, path, temp, outer);
      CloseGap(all - {node}, path, t, outer);
    }

    lemma NoNodes()
      ensures Nodes(Nil) == {}
    {
    }

    /** Puts `subst` where `node` is, with its colour, children and parent. */
    method Substitute(node: Node, subst: Node, ghost all: set<Node>, ghost path: Path,
                      ghost l: Shape, ghost x: Item, ghost red: bool, ghost r: Shape, ghost was: Node?,
                      ghost outer: Node?)
      requires Sub(Nodes(l), l, node) && Sub(Nodes(r), r, was) && Sup(PathNodes(path), path, node, outer)
      requires Spells(node, x, red, Ptr(l, sentinel), Ptr(r, sentinel), Above(path, outer)) && root == Crown(path, node)
      requires Parted(all, PathNodes(path), Nodes(l), subst, Nodes(r)) && node !in all && node != sentinel
      modifies this`root, all`left, all`right, all`parent, all`red
      ensures Held(all, path, Fork(l, Item(subst, subst.key), red, r), outer)
    {
      hide Held, Sub, Sup, Nodes, PathNodes, Crown, Linked, LinkedPath, Apart, ApartPath, Above, Parted;
      ghost var P, L, R := PathNodes(path), Nodes(l), Nodes(r);
      assert allocated(P) && allocated(L) && allocated(R);
      PartedTouch(all, P, L, subst, R);
      subst.left := node.left;
      subst.right := node.right;
      subst.parent := node.parent;
      subst.red := node.red;
      Replace(node, subst, node.parent, path, outer, P);
      assert Sub(L, l, node) && Sub(R, r, was);
      AdoptBoth(subst, all, path, l, r, node, was, outer, P, L, R);
      CloseFork(all, path, l, Item(subst, subst.key), red, r, outer);
    }

    method AdoptBoth(subst: Node, ghost all: set<Node>, ghost path: Path, ghost l: Shape, ghost r: Shape,
                     ghost wasL: Node?, ghost wasR: Node?, ghost outer: Node?, ghost P: set<Node>, ghost L: set<Node>,
                     ghost R: set<Node>)
      requires Sub(L, l, wasL) && Sub(R, r, wasR) && Sup(P, path, subst, outer) && Parted(all, P, L, subst, R)
      requires subst.left == Ptr(l, sentinel) && subst.right == Ptr(r, sentinel)
      modifies L`parent, R`parent
      ensures Sub(L, l, subst) && Sub(R, r, subst) && Sup(P, path, subst, outer)
    {
      hide Sub, Sup, Parted;
      PartedTouch(all, P, L, subst, R);
      Adopt(subst.left, subst, l, wasL, L);
      assert Sub(R, r, wasR) && Sup(P, path, subst, outer);
      Adopt(subst.right, subst, r, wasR, R);
      assert Sub(L, l, subst) && Sup(P, path, subst, outer);
    }

    /** The position of the leftmost node of r, and of what remains when it is gone. */
    lemma {:induction false} DownSpine(all: set<Node>, base: Path, r: Shape, outer: Node?)
      requires r.Fork?
      ensures Held(all, base, r, outer) <==> Held(all, Spine(base, r), Min(r), outer)
      ensures Held(all, base, WithoutMin(r), outer) <==> Held(all, Spine(base, r), Min(r).right, outer)
      decreases r
    {
      hide Held;
      if r.left.Fork? {
        FromLeft(all, base, r.left, r.item, r.red, r.right, outer);
        FromLeft(all, base, WithoutMin(r.left), r.item, r.red, r.right, outer);
        DownSpine(all, InLeft(base, r.item, r.red, r.right), r.left, outer);
      }
    }

    /** Leftmost descent: the role of stl_rbtree_min. */
    method Least(start: Node, ghost all: set<Node>, ghost base: Path, ghost r: Shape, ghost outer: Node?)
      returns (least: Node)
      requires Held(all, base, r, outer) && r.Fork? && start == r.item.node
      ensures least == Min(r).item.node
    {
      hide Held;
      least := start;
      ghost var p, t := base, r;
      SeeFork(all, p, t.left, t.item, t.red, t.right, outer);
      while least.left != sentinel
        invariant t.Fork? && least == t.item.node && Held(all, p, t, outer) && Min(t) == Min(r)
        invariant least.left == Ptr(t.left, sentinel) && (t.left.Fork? <==> least.left != sentinel)
        decreases t
      {
        least := least.left;
        FromLeft(all, p, t.left, t.item, t.red, t.right, outer);
        p, t := InLeft(p, t.item, t.red, t.right), t.left;
        SeeFork(all, p, t.left, t.item, t.red, t.right, outer);
      }
    }

    /** The successor's place closes: only its right subtree b is left there. */
    method TakeOutLeast(node: Node, subst: Node, temp: Node, ghost all: set<Node>, ghost pm: Path,
                        ghost y: Item, ghost yr: bool, ghost b: Shape, ghost outer: Node?)
      requires Held(all, pm, Fork(Nil, y, yr, b), outer) && subst == y.node && temp == Ptr(b, sentinel) && !pm.Top?
      modifies all`left, all`right, all`parent, sentinel`parent
      ensures subst in all && sentinel !in all && Sup(PathNodes(pm), pm, temp, outer) && root == Crown(pm, temp)
      ensures Sub(Nodes(b), b, temp.parent) && Parted(all, PathNodes(pm), {}, subst, Nodes(b))
      ensures temp.parent == if pm.item.node == node then subst else pm.item.node
    {
      hide Held, Sub, Sup, Nodes, PathNodes, Crown, Linked, LinkedPath, Apart, ApartPath;
      OpenFork(all, pm, Nil, y, yr, b, outer);
      SeeFork(all, pm, Nil, y, yr, b, outer);
      SeeParent(all, pm, Fork(Nil, y, yr, b), outer);
      NoNodes();
      ghost var P, B := PathNodes(pm), Nodes(b);
      assert allocated(P) && allocated(B);
      Unhook(subst, temp, subst.parent, pm, outer, P);
      assert Sub(B, b, subst);
      if subst.parent == node {
        Reparent(temp, subst, b, subst, B);
      } else {
        Reparent(temp, subst.parent, b, subst, B);
      }
      assert Sup(P, pm, temp, outer);
    }

    /** With the successor gone, the node to delete has the subtrees l and WithoutMin(r). */
    lemma AfterLeast(node: Node, subst: Node, temp: Node, all: set<Node>, path: Path,
                     l: Shape, x: Item, red: bool, r: Shape, outer: Node?)
      requires r.Fork? && node == x.node && node !in Nodes(r) && subst != node && temp == Ptr(Min(r).right, sentinel)
      requires var pm, b := Spine(InRight(path, l, x, red), r), Min(r).right;
        Sup(PathNodes(pm), pm, temp, outer) && root == Crown(pm, temp) && Sub(Nodes(b), b, temp.parent)
        && Parted(all, PathNodes(pm), {}, subst, Nodes(b)) && !pm.Top?
        && temp.parent == if pm.item.node == node then subst else pm.item.node
      ensures Sub(Nodes(l), l, node) && Sub(Nodes(WithoutMin(r)), WithoutMin(r), if r.left.Nil? then subst else node)
      ensures Sup(PathNodes(path), path, node, outer) && root == Crown(path, node)
      ensures Spells(node, x, red, Ptr(l, sentinel), Ptr(WithoutMin(r), sentinel), Above(path, outer))
      ensures Parted(all - {node}, PathNodes(path), Nodes(l), subst, Nodes(WithoutMin(r)))
    {
      var base := InRight(path, l, x, red);
      var pm, b := Spine(base, r), Min(r).right;
      if r.left.Nil? {
        AfterLeastNear(node, subst, temp, all, path, l, x, red, b, outer);
      } else {
        SpineTop(base, base, r);
        AfterLeastFar(node, subst, temp, all, path, l, x, red, r, outer);
      }
    }

    lemma AfterLeastNear(node: Node, subst: Node, temp: Node, all: set<Node>, path: Path,
                         l: Shape, x: Item, red: bool, b: Shape, outer: Node?)
      requires node == x.node && subst != node && temp == Ptr(b, sentinel)
      requires var pm := InRight(path, l, x, red);
        Sup(PathNodes(pm), pm, temp, outer) && root == Crown(pm, temp)
          && Parted(all, PathNodes(pm), {}, subst, Nodes(b))
      ensures Sub(Nodes(l), l, node) && Sup(PathNodes(path), path, node, outer) && root == Crown(path, node)
      ensures Spells(node, x, red, Ptr(l, sentinel), Ptr(b, sentinel), Above(path, outer))
      ensures Parted(all - {node}, PathNodes(path), Nodes(l), subst, Nodes(b))
    {
    }

    lemma AfterLeastFar(node: Node, subst: Node, temp: Node, all: set<Node>, path: Path,
                        l: Shape, x: Item, red: bool, r: Shape, outer: Node?)
      requires r.Fork? && node == x.node && subst != node && temp == Ptr(Min(r).right, sentinel)
      requires var pm, b := Spine(InRight(path, l, x, red), r), Min(r).right;
        Sup(PathNodes(pm), pm, temp, outer) && root == Crown(pm, temp) && Sub(Nodes(b), b, Above(pm, outer))
        && Parted(all, PathNodes(pm), {}, subst, Nodes(b))
      ensures Sub(Nodes(l), l, node) && Sub(Nodes(WithoutMin(r)), WithoutMin(r), node)
      ensures Sup(PathNodes(path), path, node, outer) && root == Crown(path, node)
      ensures Spells(node, x, red, Ptr(l, sentinel), Ptr(WithoutMin(r), sentinel), Above(path, outer))
      ensures Parted(all - {node}, PathNodes(path), Nodes(l), subst, Nodes(WithoutMin(r)))
    {
      hide Held, Sub, Sup, Crown, Linked, LinkedPath, Apart, ApartPath, Spine, Min, WithoutMin, Nodes, PathNodes;
      var base, r' := InRight(path, l, x, red), WithoutMin(r);
      var pm, b := Spine(base, r), Min(r).right;
      CloseGap(all - {subst}, pm, b, outer);
      DownSpine(all - {subst}, base, r, outer);
      FromRight(all - {subst}, path, l, x, red, r', outer);
      OpenFork(all - {subst}, path, l, x, red, r', outer);
    }

    /** Takes out a node with two children: its successor moves into its place. */
    method TakeOutDouble(node: Node, subst: Node, temp: Node, ghost all: set<Node>, ghost path: Path,
                         ghost l: Shape, ghost x: Item, ghost red: bool, ghost r: Shape, ghost outer: Node?)
      requires Held(all, path, Fork(l, x, red, r), outer) && node == x.node && r.Fork?
      requires subst == Min(r).item.node && temp == Ptr(Min(r).right, sentinel)
      modifies this`root, all`left, all`right, all`parent, all`red, sentinel`parent
      ensures Held(all - {node}, Spine(InRight(path, l, Min(r).item, red), r), Min(r).right, outer)
      ensures temp.parent == Above(Spine(InRight(path, l, Min(r).item, red), r), outer)
      ensures node in all && sentinel !in all
    {
      hide Held, Sub, Sup, Nodes, PathNodes, Crown, Linked, LinkedPath, Apart, ApartPath, Parted, WithoutMin, Spine,
        Min;
      ghost var m, base, r' := Min(r), InRight(path, l, x, red), WithoutMin(r);
      ghost var y, base', pm, b := m.item, InRight(path, l, m.item, red), Spine(base, r), m.right;
      SpineStart(base, base', r);
      OpenFork(all, path, l, x, red, r, outer);
      PartedTouch(all, PathNodes(path), Nodes(l), node, Nodes(r));
      FromRight(all, path, l, x, red, r, outer);
      DownSpine(all, base, r, outer);
      SeeNode(all, pm, m, outer);
      TakeOutLeast(node, subst, temp, all, pm, y, m.red, b, outer);
      AfterLeast(node, subst, temp, all, path, l, x, red, r, outer);
      Substitute(node, subst, all - {node}, path, l, x, red, r', if r.left.Nil? then subst else node, outer);
      FromRight(all - {node}, path, l, y, red, r', outer);
      DownSpine(all - {node}, base', r, outer);
      if b.Fork? { SeeNode(all - {node}, Spine(base', r), b, outer); }
    }

    // ---------- Deletion fix-up ----------

    /** Red sibling on the right: swap colours with the parent and rotate it left. */
    method LowerLeft(w: Node, parent: Node, ghost all: set<Node>, ghost up: Path, ghost t: Shape, ghost p: Item,
                     ghost s: Shape, ghost outer: Node?)
      requires Held(all, InLeft(up, p, false, s), t, outer) && IsRed(s) && w == s.item.node && parent == p.node
      modifies this`root, all`left, all`right, all`parent, all`red
      ensures Held(all, InLeft(InLeft(up, s.item, false, s.right), p, true, s.left), t, outer)
    {
      hide Held;
      FromLeft(all, up, t, p, false, s, outer);
      FromRight(all, up, t, p, false, s, outer);
      SeeNode(all, InRight(up, t, p, false), s, outer);
      Paint(w, false, all, InRight(up, t, p, false), s, outer);
      ghost var s' := Painted(s, false);
      FromRight(all, up, t, p, false, s', outer);
      SeeNode(all, up, Fork(t, p, false, s'), outer);
      Paint(parent, true, all, up, Fork(t, p, false, s'), outer);
      LeftRotate(parent, all, up, Fork(t, p, true, s'), outer);
      FromLeft(all, up, Fork(t, p, true, s.left), s.item, false, s.right, outer);
      FromLeft(all, InLeft(up, s.item, false, s.right), t, p, true, s.left, outer);
    }

    method PaleLeft(w: Node, ghost all: set<Node>, ghost up: Path, ghost t: Shape, ghost p: Item, ghost red: bool,
                    ghost s: Shape, ghost outer: Node?)
      requires Held(all, InLeft(up, p, red, s), t, outer) && s.Fork? && w == s.item.node
      modifies all`red
      ensures Held(all, up, Fork(t, p, red, Painted(s, true)), outer)
    {
      hide Held;
      FromLeft(all, up, t, p, red, s, outer);
      FromRight(all, up, t, p, red, s, outer);
      SeeNode(all, InRight(up, t, p, red), s, outer);
      Paint(w, true, all, InRight(up, t, p, red), s, outer);
      FromRight(all, up, t, p, red, Painted(s, true), outer);
    }

    /** Inner red nephew: swap colours with the sibling and rotate that right. */
    method TurnLeftsSibling(w: Node, nephew: Node, ghost all: set<Node>, ghost up: Path, ghost t: Shape, ghost p: Item,
                            ghost red: bool, ghost s: Shape, ghost outer: Node?)
      requires Held(all, InLeft(up, p, red, s), t, outer) && s.Fork? && s.left.Fork? && w == s.item.node
      requires nephew == s.left.item.node
      modifies this`root, all`left, all`right, all`parent, all`red
      ensures Held(all, InLeft(up, p, red, TurnedRight(s)), t, outer)
    {
      hide Held;
      ghost var at := InRight(up, t, p, red);
      FromLeft(all, up, t, p, red, s, outer);
      FromRight(all, up, t, p, red, s, outer);
      FromLeft(all, at, s.left, s.item, s.red, s.right, outer);
      SeeNode(all, InLeft(at, s.item, s.red, s.right), s.left, outer);
      Paint(nephew, false, all, InLeft(at, s.item, s.red, s.right), s.left, outer);
      ghost var n := Painted(s.left, false);
      FromLeft(all, at, n, s.item, s.red, s.right, outer);
      SeeNode(all, at, Fork(n, s.item, s.red, s.right), outer);
      Paint(w, true, all, at, Fork(n, s.item, s.red, s.right), outer);
      RightRotate(w, all, at, Fork(n, s.item, true, s.right), outer);
      FromRight(all, up, t, p, red, TurnedRight(s), outer);
      FromLeft(all, up, t, p, red, TurnedRight(s), outer);
    }

    /** Outer red nephew: the sibling takes the parent's colour, both below it turn black. */
    method RaiseRight(w: Node, parent: Node, ghost all: set<Node>, ghost up: Path, ghost t: Shape, ghost p: Item,
                      ghost red: bool, ghost s: Shape, ghost outer: Node?)
      requires Held(all, InLeft(up, p, red, s), t, outer) && s.Fork? && s.right.Fork? && w == s.item.node
      requires parent == p.node
      modifies this`root, all`left, all`right, all`parent, all`red
      ensures Held(all, up, Fork(Fork(t, p, false, s.left), s.item, red, Painted(s.right, false)), outer)
    {
      hide Held;
      ghost var at := InRight(up, t, p, red);
      FromLeft(all, up, t, p, red, s, outer);
      FromRight(all, up, t, p, red, s, outer);
      SeeNode(all, at, s, outer);
      SeeNode(all, up, Fork(t, p, red, s), outer);
      Paint(w, parent.red, all, at, s, outer);
      ghost var s1 := Painted(s, red);
      FromRight(all, up, t, p, red, s1, outer);
      Paint(parent, false, all, up, Fork(t, p, red, s1), outer);
      FromRight(all, up, t, p, false, s1, outer);
      at := InRight(up, t, p, false);
      FromRight(all, at, s.left, s.item, red, s.right, outer);
      SeeNode(all, at, s1, outer);
      SeeNode(all, InRight(at, s.left, s.item, red), s.right, outer);
      Paint(w.right, false, all, InRight(at, s.left, s.item, red), s.right, outer);
      ghost var s2 := Fork(s.left, s.item, red, Painted(s.right, false));
      FromRight(all, at, s.left, s.item, red, Painted(s.right, false), outer);
      FromRight(all, up, t, p, false, s2, outer);
      LeftRotate(parent, all, up, Fork(t, p, false, s2), outer);
    }

    /** One pass of the loop when temp is a left child. */
    method FallLeft(temp0: Node, ghost all: set<Node>, ghost path0: Path, ghost t: Shape, ghost outer: Node?,
                    ghost items: seq<Item>)
      returns (temp: Node, ghost path': Path, ghost t': Shape)
      requires Held(all, path0, t, outer) && Falling(path0, t, items) && path0.InLeft? && !IsRed(t)
      requires temp0 == Ptr(t, sentinel) && temp0.parent == path0.item.node && !sentinel.red && sentinel !in all
      modifies this`root, all`left, all`right, all`parent, all`red
      ensures Held(all, path', t', outer) && Falling(path', t', items) && temp == Ptr(t', sentinel) && t'.Fork?
      ensures Rank(path', t') < Rank(path0, t)
    {
      hide Held, Falling, NearEnd, Plug;
      temp := temp0;
      ghost var path := path0;
      SiblingExists(path, t, items);
      SeeParent(all, path, t, outer);
      SeeSibling(all, path, t, outer);
      var w := temp.parent.right;
      if w.red {
        RedSiblingRight(path.up, t, path.item, path.right, items);
        LowerLeft(w, temp.parent, all, path.up, t, path.item, path.right, outer);
        path := InLeft(InLeft(path.up, path.right.item, false, path.right.right), path.item, true, path.right.left);
        SeeParent(all, path, t, outer);
        if t.Fork? { SeeNode(all, path, t, outer); }
        w := temp.parent.right;
      }
      ghost var up, p, red, s := path.up, path.item, path.red, path.right;
      SeeNephews(all, path, t, outer);
      if !w.left.red && !w.right.red {
        PaleSiblingRight(up, t, p, red, s, items);
        PaleLeft(w, all, up, t, p, red, s, outer);
        temp := temp.parent;
        path', t' := up, Fork(t, p, red, Painted(s, true));
      } else {
        if !w.right.red {
          InnerRedRight(up, t, p, red, s, items);
          TurnLeftsSibling(w, w.left, all, up, t, p, red, s, outer);
          s := TurnedRight(s);
          SeeParent(all, InLeft(up, p, red, s), t, outer);
          if t.Fork? { SeeNode(all, InLeft(up, p, red, s), t, outer); }
          w := temp.parent.right;
        } else {
          OuterRedRight(up, t, p, red, s, items);
        }
        LastTurnRight(up, t, p, red, s, items);
        RaiseRight(w, temp.parent, all, up, t, p, red, s, outer);
        temp := root;
        ghost var u := Fork(Fork(t, p, false, s.left), s.item, red, Painted(s.right, false));
        ToTop(all, up, u, outer);
        PlugIsFork(up, u);
        path', t' := Top, Plug(up, u);
        SeeParent(all, Top, t', outer);
      }
    }

    /** Red sibling on the left: swap colours with the parent and rotate it right. */
    method LowerRight(w: Node, parent: Node, ghost all: set<Node>, ghost up: Path, ghost t: Shape, ghost p: Item,
                      ghost s: Shape, ghost outer: Node?)
      requires Held(all, InRight(up, s, p, false), t, outer) && IsRed(s) && w == s.item.node && parent == p.node
      modifies this`root, all`left, all`right, all`parent, all`red
      ensures Held(all, InRight(InRight(up, s.left, s.item, false), s.right, p, true), t, outer)
    {
      hide Held;
      FromRight(all, up, s, p, false, t, outer);
      FromLeft(all, up, s, p, false, t, outer);
      SeeNode(all, InLeft(up, p, false, t), s, outer);
      Paint(w, false, all, InLeft(up, p, false, t), s, outer);
      ghost var s' := Painted(s, false);
      FromLeft(all, up, s', p, false, t, outer);
      SeeNode(all, up, Fork(s', p, false, t), outer);
      Paint(parent, true, all, up, Fork(s', p, false, t), outer);
      RightRotate(parent, all, up, Fork(s', p, true, t), outer);
      FromRight(all, up, s.left, s.item, false, Fork(s.right, p, true, t), outer);
      FromRight(all, InRight(up, s.left, s.item, false), s.right, p, true, t, outer);
    }

    method PaleRight(w: Node, ghost all: set<Node>, ghost up: Path, ghost t: Shape, ghost p: Item, ghost red: bool,
                     ghost s: Shape, ghost outer: Node?)
      requires Held(all, InRight(up, s, p, red), t, outer) && s.Fork? && w == s.item.node
      modifies all`red
      ensures Held(all, up, Fork(Painted(s, true), p, red, t), outer)
    {
      hide Held;
      FromRight(all, up, s, p, red, t, outer);
      FromLeft(all, up, s, p, red, t, outer);
      SeeNode(all, InLeft(up, p, red, t), s, outer);
      Paint(w, true, all, InLeft(up, p, red, t), s, outer);
      FromLeft(all, up, Painted(s, true), p, red, t, outer);
    }

    /** Inner red nephew: swap colours with the sibling and rotate that left. */
    method TurnRightsSibling(w: Node, nephew: Node, ghost all: set<Node>, ghost up: Path, ghost t: Shape, ghost p: Item,
                             ghost red: bool, ghost s: Shape, ghost outer: Node?)
      requires Held(all, InRight(up, s, p, red), t, outer) && s.Fork? && s.right.Fork? && w == s.item.node
      requires nephew == s.right.item.node
      modifies this`root, all`left, all`right, all`parent, all`red
      ensures Held(all, InRight(up, TurnedLeft(s), p, red), t, outer)
    {
      hide Held;
      ghost var at := InLeft(up, p, red, t);
      FromRight(all, up, s, p, red, t, outer);
      FromLeft(all, up, s, p, red, t, outer);
      FromRight(all, at, s.left, s.item, s.red, s.right, outer);
      SeeNode(all, InRight(at, s.left, s.item, s.red), s.right, outer);
      Paint(nephew, false, all, InRight(at, s.left, s.item, s.red), s.right, outer);
      ghost var n := Painted(s.right, false);
      FromRight(all, at, s.left, s.item, s.red, n, outer);
      SeeNode(all, at, Fork(s.left, s.item, s.red, n), outer);
      Paint(w, true, all, at, Fork(s.left, s.item, s.red, n), outer);
      LeftRotate(w, all, at, Fork(s.left, s.item, true, n), outer);
      FromLeft(all, up, TurnedLeft(s), p, red, t, outer);
      FromRight(all, up, TurnedLeft(s), p, red, t, outer);
    }

    /** Outer red nephew: the sibling takes the parent's colour, both below it turn black. */
    method RaiseLeft(w: Node, parent: Node, ghost all: set<Node>, ghost up: Path, ghost t: Shape, ghost p: Item,
                     ghost red: bool, ghost s: Shape, ghost outer: Node?)
      requires Held(all, InRight(up, s, p, red), t, outer) && s.Fork? && s.left.Fork? && w == s.item.node
      requires parent == p.node
      modifies this`root, all`left, all`right, all`parent, all`red
      ensures Held(all, up, Fork(Painted(s.left, false), s.item, red, Fork(s.right, p, false, t)), outer)
    {
      hide Held;
      ghost var at := InLeft(up, p, red, t);
      FromRight(all, up, s, p, red, t, outer);
      FromLeft(all, up, s, p, red, t, outer);
      SeeNode(all, at, s, outer);
      SeeNode(all, up, Fork(s, p, red, t), outer);
      Paint(w, parent.red, all, at, s, outer);
      ghost var s1 := Painted(s, red);
      FromLeft(all, up, s1, p, red, t, outer);
      Paint(parent, false, all, up, Fork(s1, p, red, t), outer);
      FromLeft(all, up, s1, p, false, t, outer);
      at := InLeft(up, p, false, t);
      FromLeft(all, at, s.left, s.item, red, s.right, outer);
      SeeNode(all, at, s1, outer);
      SeeNode(all, InLeft(at, s.item, red, s.right), s.left, outer);
      Paint(w.left, false, all, InLeft(at, s.item, red, s.right), s.left, outer);
      ghost var s2 := Fork(Painted(s.left, false), s.item, red, s.right);
      FromLeft(all, at, Painted(s.left, false), s.item, red, s.right, outer);
      FromLeft(all, up, s2, p, false, t, outer);
      RightRotate(parent, all, up, Fork(s2, p, false, t), outer);
    }

    /** One pass of the loop when temp is a right child. */
    method FallRight(temp0: Node, ghost all: set<Node>, ghost path0: Path, ghost t: Shape, ghost outer: Node?,
                     ghost items: seq<Item>)
      returns (temp: Node, ghost path': Path, ghost t': Shape)
      requires Held(all, path0, t, outer) && Falling(path0, t, items) && path0.InRight? && !IsRed(t)
      requires temp0 == Ptr(t, sentinel) && temp0.parent == path0.item.node && !sentinel.red && sentinel !in all
      modifies this`root, all`left, all`right, all`parent, all`red
      ensures Held(all, path', t', outer) && Falling(path', t', items) && temp == Ptr(t', sentinel) && t'.Fork?
      ensures Rank(path', t') < Rank(path0, t)
    {
      hide Held, Falling, NearEnd, Plug;
      temp := temp0;
      ghost var path := path0;
      SiblingExists(path, t, items);
      SeeParent(all, path, t, outer);
      SeeSibling(all, path, t, outer);
      var w := temp.parent.left;
      if w.red {
        RedSiblingLeft(path.up, path.left, path.item, t, items);
        LowerRight(w, temp.parent, all, path.up, t, path.item, path.left, outer);
        path := InRight(InRight(path.up, path.left.left, path.left.item, false), path.left.right, path.item, true);
        SeeParent(all, path, t, outer);
        if t.Fork? { SeeNode(all, path, t, outer); }
        w := temp.parent.left;
      }
      ghost var up, p, red, s := path.up, path.item, path.red, path.left;
      SeeNephews(all, path, t, outer);
      if !w.left.red && !w.right.red {
        PaleSiblingLeft(up, s, p, red, t, items);
        PaleRight(w, all, up, t, p, red, s, outer);
        temp := temp.parent;
        path', t' := up, Fork(Painted(s, true), p, red, t);
      } else {
        if !w.left.red {
          InnerRedLeft(up, s, p, red, t, items);
          TurnRightsSibling(w, w.right, all, up, t, p, red, s, outer);
          s := TurnedLeft(s);
          SeeParent(all, InRight(up, s, p, red), t, outer);
          if t.Fork? { SeeNode(all, InRight(up, s, p, red), t, outer); }
          w := temp.parent.left;
        } else {
          OuterRedLeft(up, s, p, red, t, items);
        }
        LastTurnLeft(up, s, p, red, t, items);
        RaiseLeft(w, temp.parent, all, up, t, p, red, s, outer);
        temp := root;
        ghost var u := Fork(Painted(s.left, false), s.item, red, Fork(s.right, p, false, t));
        ToTop(all, up, u, outer);
        PlugIsFork(up, u);
        path', t' := Top, Plug(up, u);
        SeeParent(all, Top, t', outer);
      }
    }

    /** Blackens a subtree's top; the sentinel is black anyway. */
    method Blacken(temp: Node, ghost all: set<Node>, ghost path: Path, ghost t: Shape, ghost outer: Node?)
      requires Held(all, path, t, outer) && temp == Ptr(t, sentinel)
      modifies temp`red
      ensures Held(all, path, Blackened(t), outer) && !temp.red
    {
      temp.red := false;
    }

    /** The fix-up loop after a black node was taken out. */
    method Settle(temp0: Node, ghost all: set<Node>, ghost path0: Path, ghost t0: Shape, ghost outer: Node?,
                  ghost items: seq<Item>)
      requires Held(all, path0, t0, outer) && Falling(path0, t0, items)
      requires temp0 == Ptr(t0, sentinel) && temp0.parent == Above(path0, outer) && !sentinel.red && sentinel !in all
      modifies this, all`left, all`right, all`parent, all`red, sentinel`red
      ensures Held(all, Top, shape, outer) && Balanced(shape) && !IsRed(shape) && Items() == items && !sentinel.red
    {
      hide Held, Falling, Plug, Balanced, InOrder;
      var temp := temp0;
      ghost var path, t := path0, t0;
      SeeParent(all, path, t, outer);
      if t.Fork? { SeeNode(all, path, t, outer); }
      while temp != root && !temp.red
        invariant Held(all, path, t, outer) && Falling(path, t, items) && !sentinel.red
        invariant temp == Ptr(t, sentinel) && temp.parent == Above(path, outer)
        invariant (temp == root <==> path.Top?) && temp.red == IsRed(t) && (t.Fork? ==> temp in all)
        decreases Rank(path, t)
      {
        SiblingExists(path, t, items);
        SeeParent(all, path, t, outer);
        if temp == temp.parent.left {
          temp, path, t := FallLeft(temp, all, path, t, outer, items);
        } else {
          temp, path, t := FallRight(temp, all, path, t, outer, items);
        }
        SeeParent(all, path, t, outer);
        SeeNode(all, path, t, outer);
      }
      FallEnds(path, t, items);
      Blacken(temp, all, path, t, outer);
      ToTop(all, path, Blackened(t), outer);
      shape := Plug(path, Blackened(t));
    }

    /** The node to take out is the root and has at most one child, which becomes the root.
        Its parent link is left pointing at the node taken out. */
    method DropRoot(node: Node, temp: Node, ghost all: set<Node>, ghost l: Shape, ghost x: Item, ghost red: bool,
                    ghost r: Shape, ghost outer: Node?)
      requires Held(all, Top, Fork(l, x, red, r), outer) && node == x.node && (l.Nil? || r.Nil?)
      requires temp == Ptr(if l.Nil? then r else l, sentinel)
      modifies this`root, temp`red
      ensures Held(all - {node}, Top, Blackened(if l.Nil? then r else l), node) && !temp.red
    {
      ghost var t := if l.Nil? then r else l;
      OpenFork(all, Top, l, x, red, r, outer);
      NoNodes();
      root := temp;
      CloseGap(all - {node}, Top, t, node);
      Blacken(temp, all - {node}, Top, t, node);
    }


    /** Which node leaves its place, and what fills that place. */
    method Pick(node: Node, ghost all: set<Node>, ghost path: Path, ghost t: Shape, ghost outer: Node?)
      returns (subst: Node, temp: Node)
      requires Held(all, path, t, outer) && t.Fork? && node == t.item.node
      ensures temp == Ptr(GapTree(t), sentinel) && (temp in all || temp == sentinel) && subst in all
      ensures subst.red == GapRed(t)
      ensures (t.left.Nil? <==> node.left == sentinel) && (t.right.Nil? <==> node.right == sentinel)
      ensures if t.left.Nil? || t.right.Nil? then subst == node
        else subst == Min(t.right).item.node && subst != root && subst != node
    {
      hide Held, Min, Spine;
      SeeFork(all, path, t.left, t.item, t.red, t.right, outer);
      if node.left == sentinel {
        temp := node.right;
        subst := node;
      } else if node.right == sentinel {
        temp := node.left;
        subst := node;
      } else {
        ghost var base := InRight(path, t.left, t.item, t.red);
        FromRight(all, path, t.left, t.item, t.red, t.right, outer);
        subst := Least(node.right, all, base, t.right, outer);
        DownSpine(all, base, t.right, outer);
        SpineStart(base, base, t.right);
        ghost var m := Min(t.right);
        SeeFork(all, Spine(base, t.right), m.left, m.item, m.red, m.right, outer);
        SeeParent(all, Spine(base, t.right), Min(t.right), outer);
        NotBelowItself(all, path, t, outer);
        temp := subst.right;
      }
    }

    lemma NotBelowItself(all: set<Node>, path: Path, t: Shape, outer: Node?)
      requires Held(all, path, t, outer) && t.Fork?
      ensures t.item.node !in Nodes(t.right)
    {
    }

    /** Unlinks the node, its successor taking its place if it has two children, and clears it. */
    method Extract(node: Node, subst: Node, temp: Node, ghost all: set<Node>, ghost path: Path, ghost t: Shape,
                   ghost outer: Node?)
      requires Held(all, path, t, outer) && t.Fork? && node == t.item.node && temp == Ptr(GapTree(t), sentinel)
      requires if t.left.Nil? || t.right.Nil? then subst == node && !path.Top?
        else subst == Min(t.right).item.node && subst != node
      modifies this`root, all, sentinel`parent
      ensures Held(all - {node}, GapPath(path, t), GapTree(t), outer) && temp.parent == Above(GapPath(path, t), outer)
      ensures node.left == null && node.right == null && node.parent == null && node.key == 0
    {
      hide Held, Min, Spine;
      if subst == node {
        TakeOutSingle(node, temp, all, path, t.left, t.item, t.red, t.right, outer);
      } else {
        TakeOutDouble(node, subst, temp, all, path, t.left, t.item, t.red, t.right, outer);
      }
      HeldTop(all - {node}, GapPath(path, t), GapTree(t), outer);
      Forget(node);
    }

    lemma HeldTop(all: set<Node>, path: Path, t: Shape, outer: Node?)
      requires Held(all, path, t, outer)
      ensures t.Fork? ==> t.item.node in all
    {
    }

    method Forget(node: Node)
      modifies node
      ensures node.left == null && node.right == null && node.parent == null && node.key == 0
    {
      node.left := null;
      node.right := null;
      node.parent := null;
      node.key := 0;
    }

    method DeleteRoot(node: Node, temp: Node, ghost all: set<Node>, ghost t: Shape, ghost outer: Node?,
                      ghost items: seq<Item>)
      requires Held(all, Top, t, outer) && t.Fork? && node == t.item.node && (t.left.Nil? || t.right.Nil?)
      requires temp == Ptr(GapTree(t), sentinel) && Gap(Top, GapTree(t), GapRed(t))
      requires items == InOrder(Plug(Top, GapTree(t)))
      requires SentinelOk() && sentinel !in all && Orders(cmp) && Sorted(items, cmp)
      modifies this, all, sentinel`red
      ensures Valid() && Nodes(shape) == all - {node} && Items() == items
      ensures node.left == null && node.right == null && node.parent == null && node.key == 0
      ensures root == sentinel || root.parent == node
    {
      hide Valid, Held, Balanced, Sorted, Orders, Plug, Gap, InOrder, Min, Nodes;
      HeldTop(all, Top, t, outer);
      SeeFork(all, Top, t.left, t.item, t.red, t.right, outer);
      ghost var t' := GapTree(t);
      DropRoot(node, temp, all, t.left, t.item, t.red, t.right, outer);
      RootGap(t', GapRed(t));
      shape := Blackened(t');
      Forget(node);
      ToValid(all - {node}, node);
    }

    /** Takes the node out of the in-order sequence and nothing else. */
    method Delete(node: Node)
      requires Valid() && node in Nodes(shape)
      modifies this, Nodes(shape), sentinel
      ensures Valid() && Nodes(shape) == old(Nodes(shape)) - {node}
      ensures exists i :: RemovedAt(old(Items()), i, node, Items())
      ensures node.left == null && node.right == null && node.parent == null && node.key == 0
      ensures root == sentinel
        || root.parent == if old(node == root && (node.left == sentinel || node.right == sentinel)) then node
          else old(root.parent)
    {
      hide Valid, Held, Balanced, Sorted, Orders, RemovedAt, Plug, Gap, Falling, InOrder, Min, Spine, Nodes, Before,
        PathTo, SubtreeAt;
      FromValid();
      ghost var all, outer, items := Nodes(shape), root.parent, Items();
      assert allocated(all);
      ghost var path, t := PathTo(Top, shape, node), SubtreeAt(shape, node);
      PathToFinds(Top, shape, node);
      TopPlug(shape);
      ToTop(all, path, t, outer);
      SeeParent(all, path, t, outer);
      Removal(path, t);
      ghost var path', t' := GapPath(path, t), GapTree(t);
      ghost var items' := InOrder(Plug(path', t'));
      RemovedIsSorted(items, |Before(path)| + |InOrder(t.left)|, node, items', cmp);
      var subst, temp := Pick(node, all, path, t, outer);
      if subst == root {
        DeleteRoot(node, temp, all, t, outer, items');
        return;
      }
      var red := subst.red;
      Extract(node, subst, temp, all, path, t, outer);
      if red {
        RedGapIsFine(path', t');
        ToTop(all - {node}, path', t', outer);
        shape := Plug(path', t');
      } else {
        BlackGapFalls(path', t');
        Settle(temp, all - {node}, path', t', outer, items');
      }
      ToValid(all - {node}, outer);
    }

    /** A node whose key compares equal, if there is one. Otherwise the descent also compares the
        sentinel's own null key, and returns the sentinel when that compares equal. */
    method Search(key: int) returns (node: Node?)
      requires Valid()
      ensures !NoMatch(Items(), key, cmp) ==> node != null && Item(node, node.key) in Items() && cmp(node.key, key) == 0
      ensures NoMatch(Items(), key, cmp) ==> node == if cmp(0, key) == 0 then sentinel else null
    {
      hide Valid, Held, Sorted, Orders, InOrder, Plug, NoMatch, Before, After;
      FromValid();
      ghost var all, outer := Nodes(shape), root.parent;
      ghost var path, t := Top, shape;
      TopPlug(shape);
      NoMatchAtTop(key, cmp);
      node := null;
      var tmp: Node? := root;
      while tmp != null
        invariant Orders(cmp) && SentinelOk()
        invariant tmp != null ==> tmp == Ptr(t, sentinel) && Held(all, path, t, outer) && Plug(path, t) == shape
                                  && Sorted(InOrder(t), cmp) && NoMatch(Before(path) + After(path), key, cmp)
        invariant tmp == null ==> NoMatch(Items(), key, cmp) && cmp(0, key) != 0
        decreases if tmp == null then 0 else 1, t
      {
        if t.Nil? {
          SearchExhausted(path, key, cmp);
        } else {
          SeeFork(all, path, t.left, t.item, t.red, t.right, outer);
          ItemOfPlug(path, t);
        }
        if cmp(tmp.key, key) == 0 {
          node := tmp;
          if t.Fork? { MatchFound(t.item, Items(), key, cmp); }
          break;
        } else if cmp(key, tmp.key) > 0 {
          tmp := tmp.right;
          if t.Fork? {
            SearchStep(path, t, key, cmp);
            FromRight(all, path, t.left, t.item, t.red, t.right, outer);
            path, t := InRight(path, t.left, t.item, t.red), t.right;
          }
        } else {
          tmp := tmp.left;
          if t.Fork? {
            SearchStep(path, t, key, cmp);
            FromLeft(all, path, t.left, t.item, t.red, t.right, outer);
            path, t := InLeft(path, t.item, t.red, t.right), t.left;
          }
        }
      }
    }
  }
}
