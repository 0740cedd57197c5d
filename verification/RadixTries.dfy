// A binary trie as a value: what the linked nodes of a radix tree spell out. Prefixes are bit
// sequences, most significant bit first.
module RadixTries {

  /** STL_RADIX_NO_VALUE: all bits of a 64-bit word. */
  const NOVALUE: int := 0xffff_ffff_ffff_ffff

  class RadixNode {
    var right: RadixNode?
    var left: RadixNode?
    var parent: RadixNode?
    var value: int

    constructor ()
      ensures right == null && left == null && parent == null && value == NOVALUE
    {
      right, left, parent, value := null, null, null, NOVALUE;
    }
  }

  datatype Trie =
    | Empty
    | Trie(node: RadixNode, value: int, left: Trie, right: Trie)

  datatype Path =
    | Top
    | InLeft(up: Path, node: RadixNode, value: int, right: Trie)
    | InRight(up: Path, left: Trie, node: RadixNode, value: int)

  ghost function Plug(path: Path, t: Trie): Trie
    decreases path
  {
    match path
    case Top => t
    case InLeft(up, n, v, r) => Plug(up, Trie(n, v, t, r))
    case InRight(up, l, n, v) => Plug(up, Trie(n, v, l, t))
  }

  /** The bits on the way from the root to the hole. */
  ghost function Prefix(path: Path): seq<bool> {
    match path
    case Top => []
    case InLeft(up, _, _, _) => Prefix(up) + [false]
    case InRight(up, _, _, _) => Prefix(up) + [true]
  }

  ghost function Nodes(t: Trie): set<RadixNode> {
    match t
    case Empty => {}
    case Trie(n, _, l, r) => Nodes(l) + {n} + Nodes(r)
  }

  ghost function PathNodes(path: Path): set<RadixNode> {
    match path
    case Top => {}
    case InLeft(up, n, _, r) => PathNodes(up) + {n} + Nodes(r)
    case InRight(up, l, n, _) => PathNodes(up) + {n} + Nodes(l)
  }

  ghost predicate Apart(t: Trie) {
    match t
    case Empty => true
    case Trie(n, _, l, r) => Apart(l) && Apart(r) && Nodes(l) !! Nodes(r) && n !in Nodes(l) && n !in Nodes(r)
  }

  ghost predicate ApartPath(path: Path) {
    match path
    case Top => true
    case InLeft(up, n, _, r) =>
      ApartPath(up) && Apart(r) && n !in Nodes(r) && n !in PathNodes(up) && Nodes(r) !! PathNodes(up)
    case InRight(up, l, n, _) =>
      ApartPath(up) && Apart(l) && n !in Nodes(l) && n !in PathNodes(up) && Nodes(l) !! PathNodes(up)
  }

  // ---------- The prefix map ----------

  /** The value stored for exactly this prefix, or NOVALUE. */
  ghost function Get(t: Trie, q: seq<bool>): int
    decreases q
  {
    if t.Empty? then NOVALUE
    else if q == [] then t.value
    else if q[0] then Get(t.right, q[1..])
    else Get(t.left, q[1..])
  }

  ghost predicate Extends(q: seq<bool>, p: seq<bool>) { |p| <= |q| && q[..|p|] == p }

  /** Below the hole the filler answers, and elsewhere the path does. */
  lemma {:induction false} GetPlug(path: Path, t: Trie, q: seq<bool>)
    ensures Extends(q, Prefix(path)) ==> Get(Plug(path, t), q) == Get(t, q[|Prefix(path)|..])
    ensures !Extends(q, Prefix(path)) ==> forall u :: Get(Plug(path, t), q) == Get(Plug(path, u), q)
    decreases path
  {
    match path
    case Top =>
      assert q[0..] == q;
    case InLeft(up, n, v, r) =>
      GetFrame(up, Trie(n, v, t, r), q, false, Prefix(path));
      forall u | !Extends(q, Prefix(path)) ensures Get(Plug(path, t), q) == Get(Plug(path, u), q) {
        GetFrame(up, Trie(n, v, u, r), q, false, Prefix(path));
        GetPlug(up, Trie(n, v, t, r), q);
        GetPlug(up, Trie(n, v, u, r), q);
        if Extends(q, Prefix(up)) { GetStep(n, v, t, u, r, r, q[|Prefix(up)|..], false); }
      }
      GetPlug(up, Trie(n, v, t, r), q);
    case InRight(up, l, n, v) =>
      GetFrame(up, Trie(n, v, l, t), q, true, Prefix(path));
      forall u | !Extends(q, Prefix(path)) ensures Get(Plug(path, t), q) == Get(Plug(path, u), q) {
        GetFrame(up, Trie(n, v, l, u), q, true, Prefix(path));
        GetPlug(up, Trie(n, v, l, t), q);
        GetPlug(up, Trie(n, v, l, u), q);
        if Extends(q, Prefix(up)) { GetStep(n, v, l, l, t, u, q[|Prefix(up)|..], true); }
      }
      GetPlug(up, Trie(n, v, l, t), q);
  }

  /** One more bit of prefix is one more step down. */
  lemma GetFrame(up: Path, t: Trie, q: seq<bool>, b: bool, p: seq<bool>)
    requires p == Prefix(up) + [b] && t.Trie?
    ensures var k := |Prefix(up)|;
      Extends(q, p) <==> Extends(q, Prefix(up)) && k < |q| && q[k] == b
    ensures var k := |Prefix(up)|;
      Extends(q, p) ==> q[k..][1..] == q[|p|..] && Get(t, q[k..]) == Get(if b then t.right else t.left, q[|p|..])
  {
    var k := |Prefix(up)|;
    if Extends(q, p) {
      assert q[..k] == q[..k + 1][..k] && q[..k + 1][k] == b;
    }
    if Extends(q, Prefix(up)) && k < |q| && q[k] == b {
      assert q[..k + 1] == q[..k] + [q[k]];
    }
  }

  /** A query that does not go to one side does not see it. */
  lemma GetStep(n: RadixNode, v: int, l: Trie, l': Trie, r: Trie, r': Trie, q: seq<bool>, b: bool)
    requires q == [] || q[0] != b
    requires if b then l == l' else r == r'
    ensures Get(Trie(n, v, l, r), q) == Get(Trie(n, v, l', r'), q)
  {
  }

  // ---------- What each change to the trie does to the map ----------

  /** u is the map of t with prefix p set to v. */
  ghost predicate Updated(t: Trie, u: Trie, p: seq<bool>, v: int) {
    forall q :: Get(u, q) == if q == p then v else Get(t, q)
  }

  lemma ValueSet(path: Path, n: RadixNode, v: int, v': int, l: Trie, r: Trie)
    ensures Updated(Plug(path, Trie(n, v, l, r)), Plug(path, Trie(n, v', l, r)), Prefix(path), v')
    ensures Get(Plug(path, Trie(n, v, l, r)), Prefix(path)) == v
  {
    var t, u, p := Trie(n, v, l, r), Trie(n, v', l, r), Prefix(path);
    GetPlug(path, t, p);
    assert p[|p|..] == [] && p[..|p|] == p;
    forall q ensures Get(Plug(path, u), q) == if q == p then v' else Get(Plug(path, t), q) {
      GetPlug(path, t, q);
      GetPlug(path, u, q);
      if Extends(q, p) { OnlyAtHole(q, p); }
    }
  }

  lemma OnlyAtHole(q: seq<bool>, p: seq<bool>)
    requires Extends(q, p)
    ensures q[|p|..] == [] <==> q == p
  {
    assert q == q[..|p|] + q[|p|..];
  }

  /** A new childless node without a value, or the removal of one, does not change the map. */
  lemma BareNode(path: Path, n: RadixNode)
    ensures forall q :: Get(Plug(path, Trie(n, NOVALUE, Empty, Empty)), q) == Get(Plug(path, Empty), q)
  {
    forall q ensures Get(Plug(path, Trie(n, NOVALUE, Empty, Empty)), q) == Get(Plug(path, Empty), q) {
      GetPlug(path, Trie(n, NOVALUE, Empty, Empty), q);
      GetPlug(path, Empty, q);
    }
  }

  lemma LeafDropped(path: Path, n: RadixNode, v: int)
    ensures Updated(Plug(path, Trie(n, v, Empty, Empty)), Plug(path, Empty), Prefix(path), NOVALUE)
    ensures Get(Plug(path, Trie(n, v, Empty, Empty)), Prefix(path)) == v
  {
    ValueSet(path, n, v, NOVALUE, Empty, Empty);
    BareNode(path, n);
  }

  /** Nothing is stored at or below an empty place. */
  lemma NothingBelow(path: Path, q: seq<bool>)
    requires Extends(q, Prefix(path))
    ensures Get(Plug(path, Empty), q) == NOVALUE
  {
    GetPlug(path, Empty, q);
  }

  // ---------- Pruned: a leaf other than the root has a value ----------

  ghost predicate LeafOk(t: Trie) {
    match t
    case Empty => true
    case Trie(_, v, l, r) => (l.Empty? && r.Empty? ==> v != NOVALUE) && LeafOk(l) && LeafOk(r)
  }

  ghost predicate Pruned(t: Trie) { t.Trie? ==> LeafOk(t.left) && LeafOk(t.right) }

  ghost predicate SiblingsOk(path: Path) {
    match path
    case Top => true
    case InLeft(up, _, _, r) => LeafOk(r) && SiblingsOk(up)
    case InRight(up, l, _, _) => LeafOk(l) && SiblingsOk(up)
  }

  /** The node above an empty hole is the root, has another child or has a value. */
  ghost predicate ParentStands(path: Path) {
    match path
    case Top => true
    case InLeft(up, _, v, r) => up.Top? || r.Trie? || v != NOVALUE
    case InRight(up, l, _, v) => up.Top? || l.Trie? || v != NOVALUE
  }

  lemma {:induction false} PrunedPlug(path: Path, t: Trie)
    ensures Pruned(Plug(path, t)) <==>
      SiblingsOk(path) && if path.Top? then Pruned(t) else LeafOk(t) && (t.Empty? ==> ParentStands(path))
    decreases path
  {
    match path
    case Top =>
    case InLeft(up, n, v, r) => PrunedPlug(up, Trie(n, v, t, r));
    case InRight(up, l, n, v) => PrunedPlug(up, Trie(n, v, l, t));
  }

  // ---------- No node below depth 32 ----------

  ghost predicate Shallow(t: Trie, d: nat) {
    t.Trie? ==> d <= 32 && Shallow(t.left, d + 1) && Shallow(t.right, d + 1)
  }

  ghost predicate ShallowPath(path: Path) {
    match path
    case Top => true
    case InLeft(up, _, _, r) => |Prefix(up)| <= 32 && Shallow(r, |Prefix(up)| + 1) && ShallowPath(up)
    case InRight(up, l, _, _) => |Prefix(up)| <= 32 && Shallow(l, |Prefix(up)| + 1) && ShallowPath(up)
  }

  lemma {:induction false} ShallowPlug(path: Path, t: Trie)
    ensures Shallow(Plug(path, t), 0) <==> ShallowPath(path) && Shallow(t, |Prefix(path)|)
    decreases path
  {
    match path
    case Top =>
    case InLeft(up, n, v, r) => ShallowPlug(up, Trie(n, v, t, r));
    case InRight(up, l, n, v) => ShallowPlug(up, Trie(n, v, l, t));
  }

  // ---------- Longest prefix ----------

  /** v is what is stored for the longest of the first i prefixes (lengths 0 to i - 1) of bits that
      has a value, or NOVALUE if none has. */
  ghost predicate Longest(t: Trie, bits: seq<bool>, i: nat, v: int) {
    i <= |bits| + 1
    && ((v == NOVALUE && forall k :: 0 <= k < i ==> Get(t, bits[..k]) == NOVALUE)
        || (v != NOVALUE
            && exists m :: 0 <= m < i && Get(t, bits[..m]) == v
                           && forall k :: m < k < i ==> Get(t, bits[..k]) == NOVALUE))
  }

  lemma LongestStep(t: Trie, bits: seq<bool>, i: nat, v: int)
    requires i <= |bits| && Longest(t, bits, i, v)
    ensures Longest(t, bits, i + 1, if Get(t, bits[..i]) != NOVALUE then Get(t, bits[..i]) else v)
  {
  }

  lemma {:induction false} LongestDone(t: Trie, bits: seq<bool>, i: nat, v: int)
    requires i <= |bits| + 1 && Longest(t, bits, i, v) && forall k :: i <= k <= |bits| ==> Get(t, bits[..k]) == NOVALUE
    ensures Longest(t, bits, |bits| + 1, v)
    decreases |bits| + 1 - i
  {
    if i <= |bits| {
      LongestStep(t, bits, i, v);
      LongestDone(t, bits, i + 1, v);
    }
  }

  // ---------- One step down ----------

  ghost function ChildPath(path: Path, t: Trie, b: bool): Path
    requires t.Trie?
  {
    if b then InRight(path, t.left, t.node, t.value) else InLeft(path, t.node, t.value, t.right)
  }

  ghost function ChildTrie(t: Trie, b: bool): Trie
    requires t.Trie?
  {
    if b then t.right else t.left
  }

  /** Everything but the subtree's own top satisfies the invariants. */
  ghost predicate Sound(path: Path, t: Trie) {
    SiblingsOk(path) && ShallowPath(path) && Shallow(t, |Prefix(path)|)
      && (t.Trie? ==> LeafOk(t.left) && LeafOk(t.right))
  }

  lemma StepDown(path: Path, t: Trie, b: bool)
    requires t.Trie? && Sound(path, t)
    ensures Sound(ChildPath(path, t, b), ChildTrie(t, b)) && LeafOk(ChildTrie(t, b))
    ensures Plug(ChildPath(path, t, b), ChildTrie(t, b)) == Plug(path, t)
    ensures Prefix(ChildPath(path, t, b)) == Prefix(path) + [b] && |Prefix(path)| <= 32
  {
  }

  lemma SoundTop(t: Trie)
    requires Pruned(t) && Shallow(t, 0)
    ensures Sound(Top, t) && Plug(Top, t) == t && Prefix(Top) == []
  {
  }

  /** A subtree with a value at its top completes a valid trie. */
  lemma SoundWhole(path: Path, t: Trie)
    requires Sound(path, t) && (path.Top? || LeafOk(t)) && t.Trie?
    ensures Pruned(Plug(path, t)) && Shallow(Plug(path, t), 0)
  {
    PrunedPlug(path, t);
    ShallowPlug(path, t);
  }

  lemma SoundHole(path: Path)
    requires Sound(path, Empty) && ParentStands(path) && !path.Top?
    ensures Pruned(Plug(path, Empty)) && Shallow(Plug(path, Empty), 0)
  {
    PrunedPlug(path, Empty);
    ShallowPlug(path, Empty);
  }

  // ---------- What lookup reads off ----------

  lemma NothingYet(t: Trie, bits: seq<bool>)
    ensures Longest(t, bits, 0, NOVALUE)
  {
  }

  lemma ValueHere(path: Path, t: Trie)
    requires t.Trie?
    ensures Get(Plug(path, t), Prefix(path)) == t.value
  {
    ValueSet(path, t.node, t.value, t.value, t.left, t.right);
  }

  lemma TooDeep(path: Path, t: Trie)
    requires Sound(path, t) && |Prefix(path)| == 33
    ensures t.Empty?
  {
  }

  lemma RestEmpty(path: Path, bits: seq<bool>, i: nat)
    requires i <= |bits| && Prefix(path) == bits[..i]
    ensures forall k :: i <= k <= |bits| ==> Get(Plug(path, Empty), bits[..k]) == NOVALUE
  {
    forall k | i <= k <= |bits| ensures Get(Plug(path, Empty), bits[..k]) == NOVALUE {
      assert bits[..k][..i] == bits[..i];
      NothingBelow(path, bits[..k]);
    }
  }

  lemma UpdatedFrom(s: Trie, t: Trie, u: Trie, p: seq<bool>, v: int)
    requires (forall q :: Get(t, q) == Get(s, q)) && Updated(t, u, p, v)
    ensures Updated(s, u, p, v)
  {
  }

  lemma UpdatedTo(s: Trie, t: Trie, u: Trie, p: seq<bool>, v: int)
    requires Updated(s, t, p, v) && forall q :: Get(u, q) == Get(t, q)
    ensures Updated(s, u, p, v)
  {
  }

  lemma MissingPrefix(path: Path, bits: seq<bool>, i: nat, m: nat)
    requires i <= m <= |bits| && Prefix(path) == bits[..i]
    ensures Get(Plug(path, Empty), bits[..m]) == NOVALUE
  {
    assert bits[..m][..i] == bits[..i];
    NothingBelow(path, bits[..m]);
  }

  lemma LeafHasValue(t: Trie)
    requires t.Trie? && LeafOk(t) && t.left.Empty? && t.right.Empty?
    ensures t.value != NOVALUE
  {
  }

  /** Clearing the value of a node with children leaves a valid trie. */
  lemma ClearOk(path: Path, t: Trie)
    requires t.Trie? && Sound(path, t) && (t.left.Trie? || t.right.Trie?)
    ensures var u := Trie(t.node, NOVALUE, t.left, t.right);
      Updated(Plug(path, t), Plug(path, u), Prefix(path), NOVALUE) && Pruned(Plug(path, u)) && Shallow(Plug(path, u), 0)
  {
    ValueSet(path, t.node, t.value, NOVALUE, t.left, t.right);
    SoundWhole(path, Trie(t.node, NOVALUE, t.left, t.right));
  }
}
