// The radix tree of module/stl/src/stl_radix_tree.c: a binary trie of 32-bit prefixes with parent
// links, looked up by longest prefix.
module RadixTrees {
  import opened RadixTries
  import opened RadixBits

  ghost function Ptr(t: Trie): RadixNode? { if t.Empty? then null else t.node }

  ghost predicate Spells(n: RadixNode, value: int, left: RadixNode?, right: RadixNode?, parent: RadixNode?)
    reads n
  {
    n.value == value && n.left == left && n.right == right && n.parent == parent
  }

  ghost predicate Linked(t: Trie, parent: RadixNode?)
    reads Nodes(t)
  {
    match t
    case Empty => true
    case Trie(n, v, l, r) => Spells(n, v, Ptr(l), Ptr(r), parent) && Linked(l, n) && Linked(r, n)
  }

  ghost function Above(path: Path): RadixNode? { if path.Top? then null else path.node }

  ghost predicate LinkedPath(path: Path, child: RadixNode?)
    reads PathNodes(path)
  {
    match path
    case Top => true
    case InLeft(up, n, v, r) => Spells(n, v, child, Ptr(r), Above(up)) && Linked(r, n) && LinkedPath(up, n)
    case InRight(up, l, n, v) => Spells(n, v, Ptr(l), child, Above(up)) && Linked(l, n) && LinkedPath(up, n)
  }

  ghost function Crown(path: Path, child: RadixNode?): RadixNode? {
    if path.Top? then child else Crown(path.up, path.node)
  }

  class RadixTree {
    const root: RadixNode
    var free: RadixNode?
    ghost var shape: Trie

    constructor ()
      ensures Valid() && fresh(root) && free == null && forall q :: Get(shape, q) == NOVALUE
    {
      root := new RadixNode();
      free := null;
      shape := Trie(root, NOVALUE, Empty, Empty);
    }

    /** Memory holds the trie Plug(path, t), made of the nodes `all`. */
    ghost predicate Held(all: set<RadixNode>, path: Path, t: Trie)
      reads all
    {
      all == PathNodes(path) + Nodes(t)
      && Linked(t, Above(path)) && LinkedPath(path, Ptr(t)) && root == Crown(path, Ptr(t))
      && Apart(t) && ApartPath(path) && Nodes(t) !! PathNodes(path)
    }

    /** Linked as a trie in which every leaf but the root has a value and no prefix exceeds 32 bits. */
    ghost predicate Valid()
      reads this, Nodes(shape)
    {
      Held(Nodes(shape), Top, shape) && Pruned(shape) && Shallow(shape, 0)
    }

    // ---------- Moving about ----------

    lemma FromLeft(all: set<RadixNode>, up: Path, n: RadixNode, v: int, l: Trie, r: Trie)
      ensures Held(all, InLeft(up, n, v, r), l) <==> Held(all, up, Trie(n, v, l, r))
    {
    }

    lemma FromRight(all: set<RadixNode>, up: Path, n: RadixNode, v: int, l: Trie, r: Trie)
      ensures Held(all, InRight(up, l, n, v), r) <==> Held(all, up, Trie(n, v, l, r))
    {
    }

    lemma {:induction false} ToTop(all: set<RadixNode>, path: Path, t: Trie)
      ensures Held(all, path, t) <==> Held(all, Top, Plug(path, t))
      decreases path
    {
      hide Held;
      match path
      case Top =>
      case InLeft(up, n, v, r) =>
        FromLeft(all, up, n, v, t, r);
        ToTop(all, up, Trie(n, v, t, r));
      case InRight(up, l, n, v) =>
        FromRight(all, up, n, v, l, t);
        ToTop(all, up, Trie(n, v, l, t));
    }

    lemma SeeNode(all: set<RadixNode>, path: Path, t: Trie)
      requires Held(all, path, t) && t.Trie?
      ensures t.node in all && Spells(t.node, t.value, Ptr(t.left), Ptr(t.right), Above(path))
    {
    }

    lemma SeeParent(all: set<RadixNode>, path: Path, t: Trie)
      requires Held(all, path, t) && !path.Top?
      ensures path.node in all
      ensures path.InLeft? ==> Spells(path.node, path.value, Ptr(t), Ptr(path.right), Above(path.up))
      ensures path.InRight? ==> Spells(path.node, path.value, Ptr(path.left), Ptr(t), Above(path.up))
      ensures t.Trie? && path.InLeft? ==> Ptr(path.right) != t.node
      ensures t.Trie? ==> t.node != path.node
    {
      if path.InLeft? && path.right.Trie? { assert path.right.node in Nodes(path.right); }
    }

    lemma HeldTop()
      requires Valid()
      ensures root == Ptr(shape) && shape.Trie?
    {
    }

    // ---------- Local changes ----------

    method SetValue(node: RadixNode, value: int, ghost all: set<RadixNode>, ghost path: Path, ghost t: Trie)
      requires Held(all, path, t) && t.Trie? && node == t.node
      modifies node`value
      ensures Held(all, path, Trie(t.node, value, t.left, t.right))
    {
      node.value := value;
    }

    /** Hangs a new childless node in the empty place below `node`. */
    method Grow(node: RadixNode, onRight: bool, next: RadixNode, ghost all: set<RadixNode>, ghost path: Path)
      requires Held(all, path, Empty) && !path.Top? && node == path.node && onRight == path.InRight?
      requires next !in all
      modifies node`left, node`right, next
      ensures Held(all + {next}, path, Trie(next, NOVALUE, Empty, Empty))
    {
      next.right := null;
      next.left := null;
      next.parent := node;
      next.value := NOVALUE;
      if onRight {
        node.right := next;
      } else {
        node.left := next;
      }
    }

    /** Takes a childless node out from under its parent. */
    method Cut(node: RadixNode, ghost all: set<RadixNode>, ghost path: Path, ghost v: int)
      requires Held(all, path, Trie(node, v, Empty, Empty)) && !path.Top?
      modifies path.node`left, path.node`right
      ensures Held(all - {node}, path, Empty)
    {
      SeeNode(all, path, Trie(node, v, Empty, Empty));
      SeeParent(all, path, Trie(node, v, Empty, Empty));
      if node.parent.right == node {
        node.parent.right := null;
      } else {
        node.parent.left := null;
      }
    }

    lemma Descend(all: set<RadixNode>, path: Path, t: Trie, b: bool)
      requires Held(all, path, t) && t.Trie? && Sound(path, t)
      ensures var p, u := ChildPath(path, t, b), ChildTrie(t, b);
        Held(all, p, u) && Sound(p, u) && LeafOk(u) && Plug(p, u) == Plug(path, t) && Prefix(p) == Prefix(path) + [b]
      ensures |Prefix(path)| <= 32 && t.node in all && Spells(t.node, t.value, Ptr(t.left), Ptr(t.right), Above(path))
    {
      hide Held, Sound, LeafOk, Plug, Prefix;
      FromLeft(all, path, t.node, t.value, t.left, t.right);
      FromRight(all, path, t.node, t.value, t.left, t.right);
      SeeNode(all, path, t);
      StepDown(path, t, b);
    }

    // ---------- Lookup ----------

    /** After i bits of the key the search stands at t, with `value` the best found above. */
    ghost predicate Searching(key: bv32, i: nat, all: set<RadixNode>, path: Path, t: Trie, value: int)
      reads this, all
    {
      Held(all, path, t) && Sound(path, t) && Plug(path, t) == shape && i <= 33
      && (i <= 32 ==> Prefix(path) == Bits(key)[..i]) && (i == 33 ==> t.Empty?)
      && Longest(shape, Bits(key), i, value)
    }

    lemma SearchStep(key: bv32, i: nat, all: set<RadixNode>, path: Path, t: Trie, value: int)
      requires Searching(key, i, all, path, t, value) && t.Trie?
      ensures t.node in all && Spells(t.node, t.value, Ptr(t.left), Ptr(t.right), Above(path))
      ensures var b := Hits(key, BitAt(i));
        Searching(key, i + 1, all, ChildPath(path, t, b), ChildTrie(t, b),
                  if t.value != NOVALUE then t.value else value)
      ensures BitAt(i + 1) == Shifted(BitAt(i))
    {
      hide Held, Sound, Plug, Prefix, LeafOk, Longest, Get, BitAt, Bits, ChildPath, ChildTrie;
      var b := Hits(key, BitAt(i));
      OneBit(key, i);
      Descend(all, path, t, b);
      ValueHere(path, t);
      LongestStep(shape, Bits(key), i, value);
      if i == 32 { TooDeep(ChildPath(path, t, b), ChildTrie(t, b)); }
    }

    lemma SearchEnds(key: bv32, i: nat, all: set<RadixNode>, path: Path, value: int)
      requires Searching(key, i, all, path, Empty, value)
      ensures Longest(shape, Bits(key), 33, value)
    {
      hide Held, Sound, Plug, Prefix, Longest, Get, BitAt, Bits;
      if i <= 32 {
        RestEmpty(path, Bits(key), i);
        LongestDone(shape, Bits(key), i, value);
      }
    }

    lemma SearchStarts(key: bv32)
      requires Valid()
      ensures root == Ptr(shape) && Searching(key, 0, Nodes(shape), Top, shape, NOVALUE) && BitAt(0) == 0x80000000
    {
      hide Sound, Longest;
      SoundTop(shape);
      NothingYet(shape, Bits(key));
      assert Bits(key)[..0] == [];
    }

    /** The value of the longest stored prefix of the key. */
    method Find(key: bv32) returns (value: int)
      requires Valid()
      ensures Longest(shape, Bits(key), 33, value)
    {
      hide Searching, Valid, Longest, Nodes, Bits, BitAt, Shifted, Hits;
      ghost var all, path, t, i := Nodes(shape), Top, shape, 0;
      SearchStarts(key);
      value := NOVALUE;
      var bit: bv32 := 0x80000000;
      var node: RadixNode? := root;
      while node != null
        invariant bit == BitAt(i) && node == Ptr(t) && Searching(key, i, all, path, t, value)
        decreases t
      {
        SearchStep(key, i, all, path, t, value);
        if node.value != NOVALUE {
          value := node.value;
        }
        ghost var b := Hits(key, bit);
        if Hits(key, bit) {
          node := node.right;
        } else {
          node := node.left;
        }
        bit := Shifted(bit);
        path, t, i := ChildPath(path, t, b), ChildTrie(t, b), i + 1;
      }
      SearchEnds(key, i, all, path, value);
    }

    // ---------- Insertion ----------

    /** After i of the m bits of the prefix the search stands at t. */
    ghost predicate Walking(key: bv32, m: nat, i: nat, all: set<RadixNode>, path: Path, t: Trie)
      reads all
    {
      Held(all, path, t) && Sound(path, t) && i <= m <= 32 && Prefix(path) == Bits(key)[..i]
    }

    lemma WalkStarts(key: bv32, m: nat)
      requires Valid() && m <= 32
      ensures root == Ptr(shape) && shape.Trie? && Walking(key, m, 0, Nodes(shape), Top, shape)
      ensures BitAt(0) == 0x80000000 && Plug(Top, shape) == shape
    {
      SoundTop(shape);
      assert Bits(key)[..0] == [];
    }

    lemma WalkStep(key: bv32, mask: bv32, m: nat, i: nat, all: set<RadixNode>, path: Path, t: Trie)
      requires Walking(key, m, i, all, path, t) && t.Trie? && Selects(mask, m)
      ensures t.node in all && Spells(t.node, t.value, Ptr(t.left), Ptr(t.right), Above(path))
      ensures Hits(mask, BitAt(i)) <==> i < m
      ensures BitAt(i + 1) == Shifted(BitAt(i))
      ensures i < m ==> var b := Hits(key, BitAt(i)); var p, u := ChildPath(path, t, b), ChildTrie(t, b);
        Walking(key, m, i + 1, all, p, u) && LeafOk(u) && Plug(p, u) == Plug(path, t) && !p.Top? && p.node == t.node
          && p.InRight? == b
    {
      hide Held, Sound, Plug, Prefix, LeafOk, BitAt, Bits, Hits;
      var b := Hits(key, BitAt(i));
      OneBit(key, i);
      Descend(all, path, t, b);
    }

    /** Setting the value of the node that stands for the whole prefix. */
    lemma StoreOk(key: bv32, m: nat, all: set<RadixNode>, path: Path, t: Trie, value: int)
      requires Walking(key, m, m, all, path, t) && t.Trie? && value != NOVALUE
      ensures Get(Plug(path, t), Bits(key)[..m]) == t.value
      ensures var u := Trie(t.node, value, t.left, t.right);
        Updated(Plug(path, t), Plug(path, u), Bits(key)[..m], value) && Pruned(Plug(path, u))
          && Shallow(Plug(path, u), 0)
    {
      ValueSet(path, t.node, t.value, value, t.left, t.right);
      SoundWhole(path, Trie(t.node, value, t.left, t.right));
    }

    lemma ToValid(all: set<RadixNode>, path: Path, t: Trie)
      requires Held(all, path, t) && Plug(path, t) == shape && Pruned(shape) && Shallow(shape, 0)
      ensures Valid() && Nodes(shape) == all
    {
      ToTop(all, path, t);
    }

    lemma WalkHeld(key: bv32, m: nat, i: nat, all: set<RadixNode>, path: Path, t: Trie)
      requires Walking(key, m, i, all, path, t)
      ensures Held(all, path, t)
    {
    }

    lemma GrowOk(key: bv32, m: nat, i: nat, all: set<RadixNode>, all': set<RadixNode>, path: Path, next: RadixNode)
      requires i <= m <= 32 && Prefix(path) == Bits(key)[..i] && Sound(path, Empty)
      requires Held(all', path, Trie(next, NOVALUE, Empty, Empty))
      ensures Walking(key, m, i, all', path, Trie(next, NOVALUE, Empty, Empty))
      ensures forall q :: Get(Plug(path, Trie(next, NOVALUE, Empty, Empty)), q) == Get(Plug(path, Empty), q)
    {
      BareNode(path, next);
      assert |Prefix(path)| == i;
      assert Shallow(Trie(next, NOVALUE, Empty, Empty), i);
    }

    lemma WalkPlace(key: bv32, m: nat, i: nat, all: set<RadixNode>, path: Path, t: Trie)
      requires Walking(key, m, i, all, path, t)
      ensures Held(all, path, t) && i <= m <= 32 && Prefix(path) == Bits(key)[..i] && Sound(path, t)
    {
    }

    /** 0 when the prefix had no value, which it then has; -3, with nothing changed, when it had one. */
    method Insert(key: bv32, mask: bv32, value: int, ghost m: nat) returns (code: int)
      requires Valid() && Selects(mask, m) && value != NOVALUE
      modifies this, Nodes(shape)
      ensures Valid() && free == old(free) && forall n :: n in Nodes(shape) ==> n in old(Nodes(shape)) || fresh(n)
      ensures code == if Get(old(shape), Bits(key)[..m]) != NOVALUE then -3 else 0
      ensures code == -3 ==> shape == old(shape)
      ensures code == 0 ==> Updated(old(shape), shape, Bits(key)[..m], value)
    {
      hide Valid, Walking, Held, Sound, Updated, Plug, Prefix, Bits, BitAt, Shifted, Hits, Get, LeafOk, Pruned, Shallow;
      ghost var all, path, t, i := Nodes(shape), Top, shape, 0;
      assert allocated(all) && all == old(Nodes(shape));
      WalkStarts(key, m);
      var bit: bv32 := 0x80000000;
      var node: RadixNode := root;
      var next: RadixNode? := root;
      WalkStep(key, mask, m, i, all, path, t);
      while Hits(mask, bit)
        invariant bit == BitAt(i) && t.Trie? && node == t.node && Walking(key, m, i, all, path, t)
        invariant Plug(path, t) == shape
        invariant next != null && i <= m && (Hits(mask, bit) <==> i < m) && shape == old(shape) && free == old(free)
        invariant Valid()
        decreases t
      {
        WalkStep(key, mask, m, i, all, path, t);
        if Hits(key, bit) {
          next := node.right;
        } else {
          next := node.left;
        }
        if next == null {
          break;
        }
        ghost var b := Hits(key, bit);
        bit := Shifted(bit);
        node := next;
        path, t, i := ChildPath(path, t, b), ChildTrie(t, b), i + 1;
        WalkStep(key, mask, m, i, all, path, t);
      }
      WalkHeld(key, m, i, all, path, t);
      if next != null {
        StoreOk(key, m, all, path, t, value);
        SeeNode(all, path, t);
        if node.value != NOVALUE {
          return -3;
        }
        SetValue(node, value, all, path, t);
        shape := Plug(path, Trie(t.node, value, t.left, t.right));
        ToValid(all, path, Trie(t.node, value, t.left, t.right));
        return 0;
      }
      code := 0;
      Extend(key, mask, value, bit, node, m, i, all, path, t);
    }

    /** One new node below `node`. */
    method GrowStep(node: RadixNode, onRight: bool, ghost key: bv32, ghost m: nat, ghost i: nat,
                    ghost all: set<RadixNode>, ghost path: Path)
      returns (next: RadixNode)
      requires Walking(key, m, i, all, path, Empty) && !path.Top? && node == path.node && onRight == path.InRight?
      modifies node`left, node`right
      ensures fresh(next) && next !in all && Walking(key, m, i, all + {next}, path, Trie(next, NOVALUE, Empty, Empty))
      ensures forall q :: Get(Plug(path, Trie(next, NOVALUE, Empty, Empty)), q) == Get(Plug(path, Empty), q)
    {
      hide Walking, Held, Sound, Plug, Prefix, Bits, Get;
      WalkPlace(key, m, i, all, path, Empty);
      next := new RadixNode();
      Grow(node, onRight, next, all, path);
      GrowOk(key, m, i, all, all + {next}, path, next);
    }

    /** Adds the missing nodes one bit at a time and stores the value in the last. */
    method Extend(key: bv32, mask: bv32, value: int, bit0: bv32, node0: RadixNode, ghost m: nat, ghost i0: nat,
                  ghost all0: set<RadixNode>, ghost path0: Path, ghost t0: Trie)
      requires Walking(key, m, i0, all0, path0, t0) && t0.Trie? && node0 == t0.node && bit0 == BitAt(i0)
      requires Plug(path0, t0) == shape
      requires i0 < m && Selects(mask, m) && value != NOVALUE && ChildTrie(t0, Hits(key, bit0)).Empty?
      modifies this`shape, all0
      ensures Valid() && forall n :: n in Nodes(shape) ==> n in all0 || fresh(n)
      ensures Get(old(shape), Bits(key)[..m]) == NOVALUE && Updated(old(shape), shape, Bits(key)[..m], value)
    {
      hide Valid, Walking, Held, Sound, Updated, Plug, Prefix, Nodes, Bits, BitAt, Shifted, Hits, Get, LeafOk, Pruned,
        Shallow;
      var bit, node := bit0, node0;
      ghost var all, path, t, i := all0, path0, t0, i0;
      WalkStep(key, mask, m, i, all, path, t);
      while Hits(mask, bit)
        invariant bit == BitAt(i) && t.Trie? && node == t.node && Walking(key, m, i, all, path, t) && i <= m
        invariant Hits(mask, bit) <==> i < m
        invariant i < m ==> ChildTrie(t, Hits(key, bit)).Empty?
        invariant i == m ==> t.value == NOVALUE
        invariant fresh(all - all0) && node in all && shape == old(shape)
        invariant forall q :: Get(Plug(path, t), q) == Get(shape, q)
        decreases m - i
      {
        WalkStep(key, mask, m, i, all, path, t);
        ghost var b := Hits(key, bit);
        ghost var p := ChildPath(path, t, b);
        var next := GrowStep(node, Hits(key, bit), key, m, i + 1, all, p);
        bit := Shifted(bit);
        node := next;
        all, path, t, i := all + {next}, p, Trie(next, NOVALUE, Empty, Empty), i + 1;
        WalkStep(key, mask, m, i, all, path, t);
      }
      StoreOk(key, m, all, path, t, value);
      WalkHeld(key, m, i, all, path, t);
      SetValue(node, value, all, path, t);
      ghost var u := Trie(t.node, value, t.left, t.right);
      UpdatedFrom(shape, Plug(path, t), Plug(path, u), Bits(key)[..m], value);
      shape := Plug(path, u);
      ToValid(all, path, u);
    }

    // ---------- Deletion ----------

    /** What the loop sees at the parent of the node just cut. */
    lemma PruneStep(all: set<RadixNode>, path: Path, parent: RadixNode, v: int)
      requires Held(all, path, Empty) && !path.Top? && parent == path.node
      requires exists n :: Sound(path, Trie(n, v, Empty, Empty))
      ensures Sound(path, Empty)
      ensures parent.right != null || parent.left != null || parent.value != NOVALUE || parent.parent == null ==>
        ParentStands(path)
      ensures !(parent.right != null || parent.left != null || parent.value != NOVALUE || parent.parent == null) ==>
        var t := Trie(parent, NOVALUE, Empty, Empty);
        Held(all, path.up, t) && Sound(path.up, t) && !path.up.Top? && Plug(path, Empty) == Plug(path.up, t)
    {
      hide Held;
      SeeParent(all, path, Empty);
      if path.InLeft? {
        FromLeft(all, path.up, path.node, path.value, Empty, path.right);
      } else {
        FromRight(all, path.up, path.node, path.value, path.left, Empty);
      }
    }

    /** Pulls out a childless node, then its ancestors as long as they stand for nothing. */
    method Prune(node0: RadixNode, ghost all0: set<RadixNode>, ghost path0: Path, ghost v0: int)
      requires Held(all0, path0, Trie(node0, v0, Empty, Empty)) && Sound(path0, Trie(node0, v0, Empty, Empty))
      requires !path0.Top?
      modifies this, all0
      ensures Valid() && Nodes(shape) <= all0
      ensures forall q :: Get(shape, q) == Get(Plug(path0, Empty), q)
    {
      hide Valid, Held, Sound, Plug, Nodes, Get, ParentStands;
      var node: RadixNode := node0;
      ghost var all, path, v := all0, path0, v0;
      while true
        invariant Held(all, path, Trie(node, v, Empty, Empty)) && Sound(path, Trie(node, v, Empty, Empty)) && !path.Top?
        invariant all <= all0 && forall q :: Get(Plug(path, Empty), q) == Get(Plug(path0, Empty), q)
        decreases path
      {
        ghost var up := path.up;
        SeeNode(all, path, Trie(node, v, Empty, Empty));
        SeeParent(all, path, Trie(node, v, Empty, Empty));
        Cut(node, all, path, v);
        ghost var rest := all - {node};
        node.right := free;
        free := node;
        node := node.parent;
        all := rest;
        SeeParent(all, path, Empty);
        PruneStep(all, path, node, v);
        if node.right != null || node.left != null {
          break;
        }
        if node.value != NOVALUE {
          break;
        }
        if node.parent == null {
          break;
        }
        BareNode(up, node);
        path, v := up, NOVALUE;
      }
      SoundHole(path);
      shape := Plug(path, Empty);
      ToValid(all, path, Empty);
    }

    /** 0 when the prefix had a value, which is then gone; -1, with nothing changed, when it had none.
        The empty prefix of a childless root is not accepted. */
    method Delete(key: bv32, mask: bv32, ghost m: nat) returns (code: int)
      requires Valid() && Selects(mask, m) && root in Nodes(shape)
      requires !(m == 0 && root.left == null && root.right == null)
      modifies this, Nodes(shape)
      ensures Valid() && Nodes(shape) <= old(Nodes(shape))
      ensures code == if Get(old(shape), Bits(key)[..m]) != NOVALUE then 0 else -1
      ensures code == -1 ==> shape == old(shape)
      ensures code == 0 ==> Updated(old(shape), shape, Bits(key)[..m], NOVALUE)
    {
      hide Valid, Walking, Held, Sound, Updated, Plug, Prefix, Nodes, Bits, BitAt, Shifted, Hits, Get, LeafOk, Pruned,
        Shallow;
      ghost var all, path, t, i := Nodes(shape), Top, shape, 0;
      assert allocated(all);
      WalkStarts(key, m);
      WalkStep(key, mask, m, i, all, path, t);
      var bit: bv32 := 0x80000000;
      var node: RadixNode? := root;
      while node != null && Hits(mask, bit)
        invariant bit == BitAt(i) && node == Ptr(t) && Walking(key, m, i, all, path, t) && Plug(path, t) == shape
        invariant i <= m && (t.Trie? ==> (Hits(mask, bit) <==> i < m)) && (path.Top? <==> i == 0)
        invariant i > 0 ==> LeafOk(t)
        invariant i == 0 ==> t == shape
        decreases t
        modifies {}
      {
        WalkStep(key, mask, m, i, all, path, t);
        ghost var b := Hits(key, bit);
        if Hits(key, bit) {
          node := node.right;
        } else {
          node := node.left;
        }
        bit := Shifted(bit);
        path, t, i := ChildPath(path, t, b), ChildTrie(t, b), i + 1;
        if t.Trie? { WalkStep(key, mask, m, i, all, path, t); }
      }
      WalkPlace(key, m, i, all, path, t);
      if node == null {
        MissingPrefix(path, Bits(key), i, m);
        return -1;
      }
      SeeNode(all, path, t);
      ValueHere(path, t);
      if node.right != null || node.left != null {
        if node.value != NOVALUE {
          ClearOk(path, t);
          SetValue(node, NOVALUE, all, path, t);
          shape := Plug(path, Trie(t.node, NOVALUE, t.left, t.right));
          ToValid(all, path, Trie(t.node, NOVALUE, t.left, t.right));
          return 0;
        }
        return -1;
      }
      LeafHasValue(t);
      LeafDropped(path, t.node, t.value);
      Prune(node, all, path, t.value);
      UpdatedTo(old(shape), Plug(path, Empty), shape, Bits(key)[..m], NOVALUE);
      return 0;
    }
  }
}
