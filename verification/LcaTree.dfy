/** The static balanced BST over leaf boundaries (cpp/ls/lca_tree.cpp, and its copy in
    cpp/ls/warp_tree.cpp), for any operator op(later, earlier), associative or not. */
module LcaTrees {
  import opened Common


  /** Keys lo..hi are the subtree; stored[d - lo] is the entry for descendant key d. */
  datatype Node<T> = Node(lo: int, hi: int, parent: int, depth: nat, stored: seq<T>)

  // ---------- what a node stores ----------

  /** G(d, h), grown leftwards from the leaf just before boundary h. */
  function LeftChain<T>(op: (T, T) -> T, leaves: seq<T>, d: int, h: int): T
    requires 0 <= d < h <= |leaves|
    decreases h - d
  {
    if d == h - 1 then leaves[d] else op(LeftChain(op, leaves, d + 1, h), leaves[d])
  }

  /** G(h, d), grown rightwards from the leaf just after boundary h: the plain left-to-right fold. */
  function RightChain<T>(op: (T, T) -> T, leaves: seq<T>, h: int, d: int): T
    requires 0 <= h < d <= |leaves|
    decreases d - h
  {
    if d == h + 1 then leaves[d - 1] else op(leaves[d - 1], RightChain(op, leaves, h, d - 1))
  }

  function Entry<T>(op: (T, T) -> T, empty: T, leaves: seq<T>, h: int, d: int): T
    requires 0 <= h <= |leaves| && 0 <= d <= |leaves|
  {
    if d < h then LeftChain(op, leaves, d, h)
    else if d > h then RightChain(op, leaves, h, d)
    else empty
  }

  // ---------- the shape ----------

  function Mid(lo: int, hi: int): int { lo + (hi - lo) / 2 }

  /** Keys lo..hi form the balanced subtree hung below `parent` at the given depth. */
  ghost predicate Shape<T>(nodes: seq<Node<T>>, lo: int, hi: int, parent: int, depth: nat)
    requires 0 <= lo && hi < |nodes|
    decreases hi - lo + 1
  {
    lo > hi ||
    var h := Mid(lo, hi);
    && nodes[h].lo == lo && nodes[h].hi == hi && nodes[h].parent == parent && nodes[h].depth == depth
    && Shape(nodes, lo, h - 1, h, depth + 1)
    && Shape(nodes, h + 1, hi, h, depth + 1)
  }

  ghost predicate SameShape<T>(a: Node<T>, b: Node<T>) {
    a.lo == b.lo && a.hi == b.hi && a.parent == b.parent && a.depth == b.depth
  }

  lemma {:induction false} ShapeFrame<T>(nodes: seq<Node<T>>, nodes': seq<Node<T>>, lo: int, hi: int, parent: int, depth: nat)
    requires 0 <= lo && hi < |nodes| == |nodes'| && Shape(nodes, lo, hi, parent, depth)
    requires forall k :: lo <= k <= hi ==> SameShape(nodes[k], nodes'[k])
    ensures Shape(nodes', lo, hi, parent, depth)
    decreases hi - lo + 1
  {
    if lo <= hi {
      var h := Mid(lo, hi);
      assert SameShape(nodes[h], nodes'[h]);
      ShapeFrame(nodes, nodes', lo, h - 1, h, depth + 1);
      ShapeFrame(nodes, nodes', h + 1, hi, h, depth + 1);
    }
  }

  /** Key k lies in the subtree of key h. */
  ghost predicate Holds<T>(nodes: seq<Node<T>>, h: int, k: int) {
    0 <= h < |nodes| && 0 <= k < |nodes| && nodes[h].lo <= k <= nodes[h].hi
  }

  lemma {:induction false} ShapeRange<T>(nodes: seq<Node<T>>, lo: int, hi: int, parent: int, depth: nat, h: int)
    requires 0 <= lo && hi < |nodes| && Shape(nodes, lo, hi, parent, depth) && lo <= h <= hi
    ensures lo <= nodes[h].lo <= h <= nodes[h].hi <= hi && depth <= nodes[h].depth
    ensures h != Mid(lo, hi) ==> depth < nodes[h].depth && lo <= nodes[h].parent <= hi
                                 && nodes[nodes[h].parent].depth + 1 == nodes[h].depth
                                 && nodes[nodes[h].parent].lo <= nodes[h].lo && nodes[h].hi <= nodes[nodes[h].parent].hi
    ensures h == Mid(lo, hi) ==> nodes[h].lo == lo && nodes[h].hi == hi && nodes[h].depth == depth && nodes[h].parent == parent
    decreases hi - lo + 1
  {
    var m := Mid(lo, hi);
    if h < m {
      ShapeRange(nodes, lo, m - 1, m, depth + 1, h);
    } else if h > m {
      ShapeRange(nodes, m + 1, hi, m, depth + 1, h);
    }
  }

  /** An ancestor of k other than k is an ancestor of k's parent, and strictly shallower. */
  lemma {:induction false} AncestorStep<T>(nodes: seq<Node<T>>, lo: int, hi: int, parent: int, depth: nat, h: int, k: int)
    requires 0 <= lo && hi < |nodes| && Shape(nodes, lo, hi, parent, depth)
    requires lo <= h <= hi && lo <= k <= hi && Holds(nodes, h, k) && h != k
    ensures lo <= nodes[k].parent <= hi && Holds(nodes, h, nodes[k].parent)
    ensures nodes[h].depth < nodes[k].depth
    decreases hi - lo + 1
  {
    var m := Mid(lo, hi);
    ShapeRange(nodes, lo, hi, parent, depth, h);
    ShapeRange(nodes, lo, hi, parent, depth, k);
    if k != m && h != m {
      if k < m {
        if h > m { ShapeRange(nodes, m + 1, hi, m, depth + 1, h); }
        AncestorStep(nodes, lo, m - 1, m, depth + 1, h, k);
      } else {
        if h < m { ShapeRange(nodes, lo, m - 1, m, depth + 1, h); }
        AncestorStep(nodes, m + 1, hi, m, depth + 1, h, k);
      }
    } else if k == m {
      if h < m { ShapeRange(nodes, lo, m - 1, m, depth + 1, h); } else { ShapeRange(nodes, m + 1, hi, m, depth + 1, h); }
    }
  }

  /** The key where the paths to b1 and b2 part. */
  function LcaKey(lo: int, hi: int, b1: int, b2: int): (h: int)
    requires lo <= b1 <= b2 <= hi
    ensures b1 <= h <= b2
    decreases hi - lo
  {
    var m := Mid(lo, hi);
    if b2 < m then LcaKey(lo, m - 1, b1, b2)
    else if m < b1 then LcaKey(m + 1, hi, b1, b2)
    else m
  }

  lemma {:induction false} LcaKeyHolds<T>(nodes: seq<Node<T>>, lo: int, hi: int, parent: int, depth: nat, b1: int, b2: int)
    requires 0 <= lo && hi < |nodes| && Shape(nodes, lo, hi, parent, depth) && lo <= b1 <= b2 <= hi
    ensures var h := LcaKey(lo, hi, b1, b2); Holds(nodes, h, b1) && Holds(nodes, h, b2)
    decreases hi - lo + 1
  {
    var m := Mid(lo, hi);
    if b2 < m {
      LcaKeyHolds(nodes, lo, m - 1, m, depth + 1, b1, b2);
    } else if m < b1 {
      LcaKeyHolds(nodes, m + 1, hi, m, depth + 1, b1, b2);
    }
  }

  // ---------- the whole tree ----------

  /** stored_fn: the entry for key d of a node whose subtree starts at lo. */
  function At<T>(stored: seq<T>, lo: int, d: int): T
    requires 0 <= d - lo < |stored|
  {
    stored[d - lo]
  }

  /** Node h is filled for these leaves. */
  ghost predicate Filled<T>(op: (T, T) -> T, empty: T, leaves: seq<T>, node: Node<T>, h: int)
    requires 0 <= h <= |leaves|
  {
    && 0 <= node.lo <= h <= node.hi <= |leaves| && |node.stored| == node.hi - node.lo + 1
    && forall d :: node.lo <= d <= node.hi ==> At(node.stored, node.lo, d) == Entry(op, empty, leaves, h, d)
  }

  ghost predicate IsTree<T>(op: (T, T) -> T, empty: T, leaves: seq<T>, nodes: seq<Node<T>>) {
    && |leaves| > 0 && |nodes| == |leaves| + 1
    && Shape(nodes, 0, |leaves|, -1, 0)
    && forall h :: 0 <= h <= |leaves| ==> Filled(op, empty, leaves, nodes[h], h)
  }

  lemma {:induction false} ShapeUnique<T>(n1: seq<Node<T>>, n2: seq<Node<T>>, lo: int, hi: int, parent: int, depth: nat, h: int)
    requires 0 <= lo && hi < |n1| && hi < |n2| && Shape(n1, lo, hi, parent, depth) && Shape(n2, lo, hi, parent, depth)
    requires lo <= h <= hi
    ensures SameShape(n1[h], n2[h])
    decreases hi - lo + 1
  {
    var m := Mid(lo, hi);
    if h < m {
      ShapeUnique(n1, n2, lo, m - 1, m, depth + 1, h);
    } else if h > m {
      ShapeUnique(n1, n2, m + 1, hi, m, depth + 1, h);
    }
  }

  /** There is exactly one tree over given leaves: whatever keeps IsTree has, node by node, what a
      fresh build would have. */
  lemma TreeUnique<T>(op: (T, T) -> T, empty: T, leaves: seq<T>, n1: seq<Node<T>>, n2: seq<Node<T>>)
    requires IsTree(op, empty, leaves, n1) && IsTree(op, empty, leaves, n2)
    ensures n1 == n2
  {
    forall h | 0 <= h < |n1| ensures n1[h] == n2[h] {
      ShapeUnique(n1, n2, 0, |leaves|, -1, 0, h);
      assert Filled(op, empty, leaves, n1[h], h) && Filled(op, empty, leaves, n2[h], h);
      forall k | 0 <= k < |n1[h].stored| ensures n1[h].stored[k] == n2[h].stored[k] {
        var d := n1[h].lo + k;
        assert At(n1[h].stored, n1[h].lo, d) == Entry(op, empty, leaves, h, d);
        assert At(n2[h].stored, n2[h].lo, d) == Entry(op, empty, leaves, h, d);
      }
      assert n1[h].stored == n2[h].stored;
    }
  }

  /** The range b1..b2 read off at key h: no operator application when h is an end, one otherwise. */
  function JoinAt<T>(op: (T, T) -> T, leaves: seq<T>, b1: int, h: int, b2: int): T
    requires 0 <= b1 <= h <= b2 <= |leaves| && b1 < b2
  {
    if h == b1 then RightChain(op, leaves, b1, b2)
    else if h == b2 then LeftChain(op, leaves, b1, b2)
    else op(RightChain(op, leaves, h, b2), LeftChain(op, leaves, b1, h))
  }

  /** What query(lo, hi) returns. */
  function QueryOf<T>(op: (T, T) -> T, leaves: seq<T>, lo: int, hi: int): T
    requires 0 <= lo <= hi < |leaves|
  {
    JoinAt(op, leaves, lo, LcaKey(0, |leaves|, lo, hi + 1), hi + 1)
  }

  // ---------- the splice principle ----------

  /** A property of (value, first boundary, last boundary) that adjacent ranges compose. */
  ghost predicate Splices<T(!new)>(op: (T, T) -> T, P: (T, int, int) -> bool) {
    forall a, b, i, j, k :: i < j < k && P(b, i, j) && P(a, j, k) ==> P(op(a, b), i, k)
  }

  ghost predicate LeavesSatisfy<T>(leaves: seq<T>, P: (T, int, int) -> bool) {
    forall i :: 0 <= i < |leaves| ==> P(leaves[i], i, i + 1)
  }

  lemma {:induction false} LeftChainSplices<T(!new)>(op: (T, T) -> T, leaves: seq<T>, P: (T, int, int) -> bool, d: int, h: int)
    requires Splices(op, P) && LeavesSatisfy(leaves, P) && 0 <= d < h <= |leaves|
    ensures P(LeftChain(op, leaves, d, h), d, h)
    decreases h - d
  {
    assert P(leaves[d], d, d + 1);
    if d < h - 1 {
      LeftChainSplices(op, leaves, P, d + 1, h);
    }
  }

  lemma {:induction false} RightChainSplices<T(!new)>(op: (T, T) -> T, leaves: seq<T>, P: (T, int, int) -> bool, h: int, d: int)
    requires Splices(op, P) && LeavesSatisfy(leaves, P) && 0 <= h < d <= |leaves|
    ensures P(RightChain(op, leaves, h, d), h, d)
    decreases d - h
  {
    assert P(leaves[d - 1], d - 1, d);
    if h + 1 < d {
      RightChainSplices(op, leaves, P, h, d - 1);
    }
  }

  /** Whatever adjacent ranges compose holds of every query result and of the plain fold alike. */
  lemma QuerySplices<T(!new)>(op: (T, T) -> T, leaves: seq<T>, P: (T, int, int) -> bool, lo: int, hi: int)
    requires Splices(op, P) && LeavesSatisfy(leaves, P) && 0 <= lo <= hi < |leaves|
    ensures P(QueryOf(op, leaves, lo, hi), lo, hi + 1)
    ensures P(RightChain(op, leaves, lo, hi + 1), lo, hi + 1)
  {
    var b1, b2 := lo, hi + 1;
    var h := LcaKey(0, |leaves|, b1, b2);
    RightChainSplices(op, leaves, P, b1, b2);
    LeftChainSplices(op, leaves, P, b1, b2);
    if b1 < h < b2 {
      LeftChainSplices(op, leaves, P, b1, h);
      RightChainSplices(op, leaves, P, h, b2);
    }
  }

  /** For an associative operator a query is the plain left-to-right fold. */
  lemma QueryIsFold<T(!new)>(op: (T, T) -> T, leaves: seq<T>, lo: int, hi: int)
    requires forall a, b, c :: op(a, op(b, c)) == op(op(a, b), c)
    requires 0 <= lo <= hi < |leaves|
    ensures QueryOf(op, leaves, lo, hi) == RightChain(op, leaves, lo, hi + 1)
  {
    var h := LcaKey(0, |leaves|, lo, hi + 1);
    if lo < h { ChainsMeet(op, leaves, lo, h, hi + 1); }
  }

  lemma {:induction false} ChainsMeet<T(!new)>(op: (T, T) -> T, leaves: seq<T>, b1: int, h: int, b2: int)
    requires forall a, b, c :: op(a, op(b, c)) == op(op(a, b), c)
    requires 0 <= b1 < h <= b2 <= |leaves|
    ensures JoinAt(op, leaves, b1, h, b2) == RightChain(op, leaves, b1, b2)
    decreases b2 - b1
  {
    if h < b2 {
      ChainsMeet(op, leaves, b1, h, b2 - 1);
      if h < b2 - 1 {
        assert op(leaves[b2 - 1], op(RightChain(op, leaves, h, b2 - 1), LeftChain(op, leaves, b1, h)))
            == op(op(leaves[b2 - 1], RightChain(op, leaves, h, b2 - 1)), LeftChain(op, leaves, b1, h));
      }
    } else if b1 < h - 1 {
      ChainsMeet(op, leaves, b1 + 1, h, h);
      RightChainHead(op, leaves, b1, h);
    }
  }

  lemma {:induction false} RightChainHead<T(!new)>(op: (T, T) -> T, leaves: seq<T>, b: int, d: int)
    requires forall a, b, c :: op(a, op(b, c)) == op(op(a, b), c)
    requires 0 <= b && b + 1 < d <= |leaves|
    ensures RightChain(op, leaves, b, d) == op(RightChain(op, leaves, b + 1, d), leaves[b])
    decreases d - b
  {
    if b + 2 < d {
      RightChainHead(op, leaves, b, d - 1);
    }
  }

  // ---------- the class ----------

  class LcaTree<T> {
    const op: (T, T) -> T
    const empty: T
    var leaves: seq<T>
    var nodes: seq<Node<T>>
    var root: int

    ghost predicate Valid()
      reads this
    {
      IsTree(op, empty, leaves, nodes)
    }

    constructor (op: (T, T) -> T, empty: T)
      ensures this.op == op && this.empty == empty && leaves == [] && nodes == []
    {
      this.op, this.empty, leaves, nodes, root := op, empty, [], [], -1;
    }

    /** build: refuses an empty leaf list. */
    method Build(newLeaves: seq<T>) returns (ok: bool)
      modifies this
      ensures ok == (|newLeaves| > 0)
      ensures ok ==> Valid() && leaves == newLeaves && root == Mid(0, |leaves|)
      ensures !ok ==> leaves == old(leaves) && nodes == old(nodes) && root == old(root)
    {
      if |newLeaves| == 0 { return false; }
      leaves := newLeaves;
      var numKeys := |leaves| + 1;
      nodes := seq(numKeys, _ => Node(0, 0, -1, 0, []));
      BuildRange(0, numKeys - 1, -1, 0);
      for h := 0 to numKeys
        invariant leaves == newLeaves && |nodes| == numKeys && Shape(nodes, 0, |leaves|, -1, 0) && root == Mid(0, |leaves|)
        invariant forall k :: 0 <= k < h ==> Filled(op, empty, leaves, nodes[k], k)
      {
        ghost var before := nodes;
        ShapeRange(nodes, 0, |leaves|, -1, 0, h);
        FillNode(h);
        ShapeFrame(before, nodes, 0, |leaves|, -1, 0);
      }
      return true;
    }

    method BuildRange(lo: int, hi: int, parent: int, depth: nat)
      requires 0 <= lo && hi < |nodes| && hi + 1 >= lo
      modifies this`nodes, this`root
      ensures |nodes| == |old(nodes)| && Shape(nodes, lo, hi, parent, depth)
      ensures forall k :: 0 <= k < |nodes| && !(lo <= k <= hi) ==> nodes[k] == old(nodes[k])
      ensures root == if parent < 0 && lo <= hi then Mid(lo, hi) else old(root)
      decreases hi - lo + 1
    {
      if lo > hi { return; }
      var h := Mid(lo, hi);
      nodes := nodes[h := nodes[h].(lo := lo, hi := hi, parent := parent, depth := depth)];
      if parent < 0 { root := h; }
      BuildRange(lo, h - 1, h, depth + 1);
      ghost var left := nodes;
      BuildRange(h + 1, hi, h, depth + 1);
      ShapeFrame(left, nodes, lo, h - 1, h, depth + 1);
    }

    /** Fill both chains of one node from scratch. */
    method FillNode(h: int)
      requires 0 <= h < |nodes| == |leaves| + 1 && 0 <= nodes[h].lo <= h <= nodes[h].hi <= |leaves|
      modifies this`nodes
      ensures |nodes| == |old(nodes)| && SameShape(nodes[h], old(nodes[h])) && Filled(op, empty, leaves, nodes[h], h)
      ensures forall k :: 0 <= k < |nodes| && k != h ==> nodes[k] == old(nodes[k])
    {
      var lo, hi := nodes[h].lo, nodes[h].hi;
      var stored := seq(hi - lo + 1, _ => empty);
      assert At(stored, lo, h) == empty;
      stored := FillLeft(stored, lo, h, h - 1);
      stored := FillRight(stored, lo, hi, h, h + 1);
      nodes := nodes[h := nodes[h].(stored := stored)];
    }

    /** G(d, h) for d from `from` down to lo; entries beyond `from` are kept. */
    method FillLeft(stored0: seq<T>, lo: int, h: int, from: int) returns (stored: seq<T>)
      requires 0 <= lo && from < h <= |leaves| && h - lo < |stored0| && lo <= from + 1
      requires lo <= from < h - 1 ==> At(stored0, lo, from + 1) == LeftChain(op, leaves, from + 1, h)
      ensures |stored| == |stored0|
      ensures forall k :: lo <= k <= from ==> At(stored, lo, k) == LeftChain(op, leaves, k, h)
      ensures forall k :: from < k && k - lo < |stored0| ==> At(stored, lo, k) == At(stored0, lo, k)
    {
      stored := stored0;
      var d := from;
      while d >= lo
        invariant lo - 1 <= d <= from && |stored| == |stored0|
        invariant d + 1 < h && lo <= d + 1 && lo <= from ==> At(stored, lo, d + 1) == LeftChain(op, leaves, d + 1, h)
        invariant forall k :: d < k <= from ==> At(stored, lo, k) == LeftChain(op, leaves, k, h)
        invariant forall k :: from < k && k - lo < |stored0| ==> At(stored, lo, k) == At(stored0, lo, k)
      {
        stored := stored[d - lo := if d == h - 1 then leaves[d] else op(At(stored, lo, d + 1), leaves[d])];
        d := d - 1;
      }
    }

    /** G(h, d) for d from `from` up to hi; entries before `from` are kept. */
    method FillRight(stored0: seq<T>, lo: int, hi: int, h: int, from: int) returns (stored: seq<T>)
      requires 0 <= lo <= h < from <= hi + 1 <= |leaves| + 1 && |stored0| == hi - lo + 1
      requires h + 1 < from <= hi ==> At(stored0, lo, from - 1) == RightChain(op, leaves, h, from - 1)
      ensures |stored| == |stored0|
      ensures forall k :: from <= k <= hi ==> At(stored, lo, k) == RightChain(op, leaves, h, k)
      ensures forall k :: lo <= k < from ==> At(stored, lo, k) == At(stored0, lo, k)
    {
      stored := stored0;
      var d := from;
      while d <= hi
        invariant from <= d <= hi + 1 && |stored| == |stored0|
        invariant h < d - 1 && from <= hi ==> At(stored, lo, d - 1) == RightChain(op, leaves, h, d - 1)
        invariant forall k :: from <= k < d ==> At(stored, lo, k) == RightChain(op, leaves, h, k)
        invariant forall k :: lo <= k < from ==> At(stored, lo, k) == At(stored0, lo, k)
      {
        stored := stored[d - lo := if d == h + 1 then leaves[d - 1] else op(leaves[d - 1], At(stored, lo, d - 1))];
        d := d + 1;
      }
    }

    /** Refill the entries of node h that straddle the leaf; all others are left as they are. */
    method RefillNodeAround(h: int, leaf: int, ghost was: seq<T>)
      requires 0 <= h < |nodes| == |leaves| + 1 && 0 <= leaf < |leaves| && |was| == |leaves|
      requires Filled(op, empty, was, nodes[h], h) && leaves == was[leaf := leaves[leaf]]
      modifies this`nodes
      ensures |nodes| == |old(nodes)| && SameShape(nodes[h], old(nodes[h])) && Filled(op, empty, leaves, nodes[h], h)
      ensures forall k :: 0 <= k < |nodes| && k != h ==> nodes[k] == old(nodes[k])
      ensures forall d :: nodes[h].lo <= d <= nodes[h].hi && !Straddles(h, d, leaf) ==>
                At(nodes[h].stored, nodes[h].lo, d) == old(At(nodes[h].stored, nodes[h].lo, d))
    {
      var lo, hi := nodes[h].lo, nodes[h].hi;
      var stored := nodes[h].stored;
      ghost var first := stored;
      forall d | lo <= d <= hi && !Straddles(h, d, leaf)
        ensures Entry(op, empty, leaves, h, d) == At(first, lo, d)
      {
        EntryFrame(op, empty, was, leaves, leaf, h, d);
      }
      if h >= leaf + 1 && lo <= leaf {
        assert leaf < h - 1 ==> At(first, lo, leaf + 1) == Entry(op, empty, leaves, h, leaf + 1);
        stored := FillLeft(stored, lo, h, if leaf < h - 1 then leaf else h - 1);
      }
      if h <= leaf && leaf + 1 <= hi {
        assert h < leaf ==> At(first, lo, leaf) == Entry(op, empty, leaves, h, leaf);
        stored := FillRight(stored, lo, hi, h, if leaf + 1 > h + 1 then leaf + 1 else h + 1);
      }
      nodes := nodes[h := nodes[h].(stored := stored)];
    }

    /** The climb shared by update_leaf and query: from two keys to their lowest common ancestor. */
    method Climb(b1: int, b2: int) returns (h: int)
      requires Valid() && 0 <= b1 <= b2 <= |leaves|
      ensures h == LcaKey(0, |leaves|, b1, b2)
      ensures Holds(nodes, h, b1) && Holds(nodes, h, b2)
      ensures forall c :: Holds(nodes, c, b1) && Holds(nodes, c, b2) ==> Holds(nodes, c, h)
    {
      var n := |leaves|;
      var a, b := b1, b2;
      ShapeRange(nodes, 0, n, -1, 0, a);
      ShapeRange(nodes, 0, n, -1, 0, b);
      while nodes[a].depth > nodes[b].depth
        invariant Holds(nodes, a, b1) && Holds(nodes, b, b2)
        invariant forall c :: Holds(nodes, c, b1) && Holds(nodes, c, b2) ==> Holds(nodes, c, a) && Holds(nodes, c, b)
        decreases nodes[a].depth
      {
        a := Up(b1, b2, a, b);
      }
      while nodes[b].depth > nodes[a].depth
        invariant Holds(nodes, a, b1) && Holds(nodes, b, b2) && nodes[a].depth <= nodes[b].depth
        invariant forall c :: Holds(nodes, c, b1) && Holds(nodes, c, b2) ==> Holds(nodes, c, a) && Holds(nodes, c, b)
        decreases nodes[b].depth
      {
        b := Up(b1, b2, b, a);
      }
      while a != b
        invariant Holds(nodes, a, b1) && Holds(nodes, b, b2) && nodes[a].depth == nodes[b].depth
        invariant forall c :: Holds(nodes, c, b1) && Holds(nodes, c, b2) ==> Holds(nodes, c, a) && Holds(nodes, c, b)
        decreases nodes[a].depth
      {
        ghost var a0 := a;
        a := Up(b1, b2, a, b);
        b := Up(b1, b2, b, a0);
      }
      h := a;
      LowestIsLcaKey(nodes, n, b1, b2, h);
    }

    /** One step up from a, when a is not an ancestor of the other cursor. */
    method Up(ghost b1: int, ghost b2: int, a: int, ghost b: int) returns (p: int)
      requires Valid() && 0 <= b1 <= b2 <= |leaves| && 0 <= a <= |leaves| && 0 <= b <= |leaves|
      requires nodes[a].depth > nodes[b].depth || (nodes[a].depth == nodes[b].depth && a != b)
      requires forall c :: Holds(nodes, c, b1) && Holds(nodes, c, b2) ==> Holds(nodes, c, a) && Holds(nodes, c, b)
      ensures p == nodes[a].parent && 0 <= p <= |leaves| && nodes[p].depth + 1 == nodes[a].depth
      ensures forall c :: Holds(nodes, c, b1) && Holds(nodes, c, b2) ==> Holds(nodes, c, p)
      ensures forall k :: Holds(nodes, a, k) ==> Holds(nodes, p, k)
    {
      ghost var n := |leaves|;
      p := nodes[a].parent;
      ShapeRange(nodes, 0, n, -1, 0, a);
      ShapeRange(nodes, 0, n, -1, 0, b);
      forall c | Holds(nodes, c, b1) && Holds(nodes, c, b2) ensures Holds(nodes, c, p) {
        if c == a {
          AncestorStep(nodes, 0, n, -1, 0, a, b);
        } else {
          AncestorStep(nodes, 0, n, -1, 0, c, a);
        }
      }
    }

    /** update_leaf: afterwards the tree is, node by node, the one a fresh build over the changed
        leaves gives (TreeUnique), for any operator; only entries that straddle the leaf changed,
        and they all sit on ancestors of LCA(leaf, leaf + 1). */
    method UpdateLeaf(leaf: int, fn: T) returns (ok: bool)
      requires Valid()
      modifies this`leaves, this`nodes
      ensures ok == (0 <= leaf < |old(leaves)|)
      ensures Valid() && leaves == if ok then old(leaves)[leaf := fn] else old(leaves)
      ensures !ok ==> nodes == old(nodes)
      ensures |nodes| == |old(nodes)| && forall h :: 0 <= h < |nodes| ==> SameShape(nodes[h], old(nodes[h]))
      ensures ok ==> forall h :: 0 <= h < |nodes| && !Holds(nodes, h, LcaKey(0, |leaves|, leaf, leaf + 1)) ==> nodes[h] == old(nodes[h])
      ensures ok ==> SameAway(old(nodes), nodes, leaf)
    {
      if leaf < 0 || leaf >= |leaves| { return false; }
      hide Entry, Shape;
      ghost var was, first := leaves, nodes;
      var a := Climb(leaf, leaf + 1);
      leaves := leaves[leaf := fn];
      RefillPath(leaf, a, was, first);
      ghost var n := |leaves|;
      forall k | 0 <= k <= n && !Holds(first, k, a) ensures Filled(op, empty, leaves, nodes[k], k) {
        OffPathFilled(op, empty, was, leaves, leaf, first, a, k);
      }
      ShapeFrame(first, nodes, 0, n, -1, 0);
      return true;
    }

    /** The upward loop of update_leaf: refill every ancestor of a. */
    method RefillPath(leaf: int, a: int, ghost was: seq<T>, ghost first: seq<Node<T>>)
      requires IsTree(op, empty, was, nodes) && first == nodes && 0 <= a <= |was|
      requires 0 <= leaf < |was| == |leaves| && leaves == was[leaf := leaves[leaf]]
      modifies this`nodes
      ensures PathRefilled(op, empty, leaves, first, nodes, leaf, a, -1)
    {
      hide Entry, Shape;
      ghost var n := |leaves|;
      var h := a;
      ghost var depth: int := nodes[h].depth;
      ShapeRange(nodes, 0, n, -1, 0, h);
      PathStart(op, empty, leaves, first, leaf, a);
      while h >= 0
        invariant h <= n && Holds(first, a, a)
        invariant h >= 0 ==> Holds(first, h, a) && depth == first[h].depth
        invariant h < 0 ==> depth == -1
        invariant PathRefilled(op, empty, leaves, first, nodes, leaf, a, depth)
        decreases depth
      {
        ShapeRange(first, 0, n, -1, 0, h);
        ghost var before := nodes;
        assert Filled(op, empty, was, nodes[h], h);
        RefillNodeAround(h, leaf, was);
        RefillAdvances(op, empty, leaves, first, before, nodes, leaf, a, h);
        h, depth := nodes[h].parent, depth - 1;
      }
    }

    /** query(lo, hi): the composition of leaves lo..hi, with at most one operator application. */
    method Query(lo: int, hi: int) returns (r: Option<T>)
      requires Valid()
      ensures r.Some? <==> 0 <= lo <= hi < |leaves|
      ensures r.Some? ==> r.value == QueryOf(op, leaves, lo, hi)
    {
      if lo < 0 || hi >= |leaves| || lo > hi { return None; }
      var b1, b2 := lo, hi + 1;
      var h := Climb(b1, b2);
      assert Filled(op, empty, leaves, nodes[h], h);
      if h == b1 { return Some(At(nodes[b1].stored, nodes[b1].lo, b2)); }
      if h == b2 { return Some(At(nodes[b2].stored, nodes[b2].lo, b1)); }
      return Some(op(At(nodes[h].stored, nodes[h].lo, b2), At(nodes[h].stored, nodes[h].lo, b1)));
    }
  }

  /** Entries that do not straddle the leaf are the same in both. */
  ghost predicate SameAway<T>(first: seq<Node<T>>, nodes: seq<Node<T>>, leaf: int) {
    && |first| == |nodes|
    && forall h :: 0 <= h < |nodes| ==>
         && SameShape(nodes[h], first[h]) && |nodes[h].stored| == |first[h].stored|
         && forall d :: 0 <= d - first[h].lo < |first[h].stored| && !Straddles(h, d, leaf) ==>
              At(nodes[h].stored, first[h].lo, d) == At(first[h].stored, first[h].lo, d)
  }

  /** Ancestors of a deeper than `depth` are refilled, everything else is as it was. */
  ghost predicate PathRefilled<T>(op: (T, T) -> T, empty: T, leaves: seq<T>, first: seq<Node<T>>, nodes: seq<Node<T>>, leaf: int, a: int, depth: int) {
    && |leaves| + 1 == |nodes| && SameAway(first, nodes, leaf)
    && forall k :: 0 <= k < |nodes| ==>
         if Holds(first, k, a) && first[k].depth > depth then Filled(op, empty, leaves, nodes[k], k) else nodes[k] == first[k]
  }

  lemma RefillAdvances<T>(op: (T, T) -> T, empty: T, leaves: seq<T>, first: seq<Node<T>>, before: seq<Node<T>>, nodes: seq<Node<T>>, leaf: int, a: int, h: int)
    requires 0 <= h < |first| && Holds(first, h, a) && PathRefilled(op, empty, leaves, first, before, leaf, a, first[h].depth)
    requires Shape(first, 0, |leaves|, -1, 0)
    requires |nodes| == |first| && SameShape(nodes[h], first[h]) && Filled(op, empty, leaves, nodes[h], h)
    requires 0 <= first[h].lo <= h <= first[h].hi && |first[h].stored| == first[h].hi - first[h].lo + 1
    requires forall k :: 0 <= k < |nodes| && k != h ==> nodes[k] == before[k]
    requires forall d :: first[h].lo <= d <= first[h].hi && !Straddles(h, d, leaf) ==>
               At(nodes[h].stored, first[h].lo, d) == At(first[h].stored, first[h].lo, d)
    ensures PathRefilled(op, empty, leaves, first, nodes, leaf, a, first[h].depth - 1)
  {
    hide Entry, Shape;
    assert forall k :: Holds(first, k, a) && first[k].depth == first[h].depth ==> k == h by {
      AncestorsDistinct(first, |leaves|, a);
    }
  }

  lemma PathStart<T>(op: (T, T) -> T, empty: T, leaves: seq<T>, first: seq<Node<T>>, leaf: int, a: int)
    requires 0 <= a < |first| == |leaves| + 1 && Shape(first, 0, |leaves|, -1, 0)
    ensures PathRefilled(op, empty, leaves, first, first, leaf, a, first[a].depth)
  {
    AncestorsDistinct(first, |leaves|, a);
  }

  lemma {:induction false} AncestorsNested<T>(nodes: seq<Node<T>>, lo: int, hi: int, parent: int, depth: nat, h: int, k: int, a: int)
    requires 0 <= lo && hi < |nodes| && Shape(nodes, lo, hi, parent, depth)
    requires lo <= h <= hi && lo <= k <= hi && lo <= a <= hi && Holds(nodes, h, a) && Holds(nodes, k, a)
    ensures Holds(nodes, h, k) || Holds(nodes, k, h)
    decreases hi - lo + 1
  {
    hide Shape;
    var m := Mid(lo, hi);
    ShapeParts(nodes, lo, hi, parent, depth);
    if h != m && k != m {
      if a < m {
        if h > m { ShapeRange(nodes, m + 1, hi, m, depth + 1, h); }
        if k > m { ShapeRange(nodes, m + 1, hi, m, depth + 1, k); }
        AncestorsNested(nodes, lo, m - 1, m, depth + 1, h, k, a);
      } else {
        if h < m { ShapeRange(nodes, lo, m - 1, m, depth + 1, h); } else { ShapeRange(nodes, m + 1, hi, m, depth + 1, h); }
        if k < m { ShapeRange(nodes, lo, m - 1, m, depth + 1, k); }
        AncestorsNested(nodes, m + 1, hi, m, depth + 1, h, k, a);
      }
    }
  }

  /** An ancestor chain has one key per depth. */
  lemma AncestorsDistinct<T>(nodes: seq<Node<T>>, n: int, a: int)
    requires 0 <= n && |nodes| == n + 1 && Shape(nodes, 0, n, -1, 0)
    ensures forall h, k :: Holds(nodes, h, a) && Holds(nodes, k, a) && nodes[h].depth == nodes[k].depth ==> h == k
    ensures forall h :: Holds(nodes, h, a) ==> nodes[h].depth <= nodes[a].depth
  {
    forall h | Holds(nodes, h, a) ensures nodes[h].depth <= nodes[a].depth {
      if h != a { AncestorStep(nodes, 0, n, -1, 0, h, a); }
    }
    forall h, k | Holds(nodes, h, a) && Holds(nodes, k, a) && nodes[h].depth == nodes[k].depth ensures h == k {
      AncestorsNested(nodes, 0, n, -1, 0, h, k, a);
      if h != k {
        if Holds(nodes, h, k) { AncestorStep(nodes, 0, n, -1, 0, h, k); } else { AncestorStep(nodes, 0, n, -1, 0, k, h); }
      }
    }
  }

  /** A node off the path stores nothing that straddles the leaf. */
  lemma OffPathFilled<T>(op: (T, T) -> T, empty: T, was: seq<T>, leaves: seq<T>, leaf: int, nodes: seq<Node<T>>, a: int, k: int)
    requires IsTree(op, empty, was, nodes) && 0 <= leaf < |was| == |leaves| && leaves == was[leaf := leaves[leaf]]
    requires 0 <= k <= |was| && !Holds(nodes, k, a)
    requires forall c :: Holds(nodes, c, leaf) && Holds(nodes, c, leaf + 1) ==> Holds(nodes, c, a)
    ensures Filled(op, empty, leaves, nodes[k], k)
  {
    assert Filled(op, empty, was, nodes[k], k);
    forall d | nodes[k].lo <= d <= nodes[k].hi ensures Entry(op, empty, leaves, k, d) == Entry(op, empty, was, k, d) {
      assert Straddles(k, d, leaf) ==> Holds(nodes, k, leaf) && Holds(nodes, k, leaf + 1);
      EntryFrame(op, empty, was, leaves, leaf, k, d);
    }
  }

  /** The entry of node h for key d covers the leaf. */
  predicate Straddles(h: int, d: int, leaf: int) {
    (d <= leaf < h) || (h <= leaf < d)
  }

  lemma {:induction false} EntryFrame<T>(op: (T, T) -> T, empty: T, was: seq<T>, leaves: seq<T>, leaf: int, h: int, d: int)
    requires |was| == |leaves| && 0 <= leaf < |leaves| && leaves == was[leaf := leaves[leaf]]
    requires 0 <= h <= |leaves| && 0 <= d <= |leaves| && !Straddles(h, d, leaf)
    ensures Entry(op, empty, leaves, h, d) == Entry(op, empty, was, h, d)
    decreases if h < d then d - h else h - d
  {
    if d < h - 1 {
      EntryFrame(op, empty, was, leaves, leaf, h, d + 1);
    } else if d > h + 1 {
      EntryFrame(op, empty, was, leaves, leaf, h, d - 1);
    }
  }

  /** A common ancestor below all common ancestors is the parting key. */
  lemma LowestIsLcaKey<T>(nodes: seq<Node<T>>, n: int, b1: int, b2: int, h: int)
    requires 0 <= n && |nodes| == n + 1 && Shape(nodes, 0, n, -1, 0) && 0 <= b1 <= b2 <= n
    requires Holds(nodes, h, b1) && Holds(nodes, h, b2)
    requires forall c :: Holds(nodes, c, b1) && Holds(nodes, c, b2) ==> Holds(nodes, c, h)
    ensures h == LcaKey(0, n, b1, b2)
  {
    var key := LcaKey(0, n, b1, b2);
    LcaKeyHolds(nodes, 0, n, -1, 0, b1, b2);
    assert Holds(nodes, key, h) && Holds(nodes, h, key);
    if h != key {
      AncestorStep(nodes, 0, n, -1, 0, h, key);
      AncestorStep(nodes, 0, n, -1, 0, key, h);
    }
  }

  // ---------- size ----------

  function Pow2(k: nat): nat { if k == 0 then 1 else 2 * Pow2(k - 1) }

  lemma HalfFits(p: nat, half: int, size: int, n: int)
    requires 2 * half <= size && p * size <= n
    ensures (2 * p) * half <= n
  {
    assert p * (size - 2 * half) >= 0;
  }

  lemma SumFits(k: nat, a: int, b: int, ca: int, cb: int)
    requires k > 0 && a >= 0 && b >= 0 && ca <= Times(k - 1, a) && cb <= Times(k - 1, b)
    ensures ca + cb + (a + b + 1) <= Times(k, a + b + 1)
  {
    assert k * (a + b + 1) == (k - 1) * a + (k - 1) * b + (k - 1) + (a + b + 1);
  }

  /** A node at depth d has a subtree of at most n / 2^d keys. */
  lemma {:induction false} SubtreeHalves<T>(nodes: seq<Node<T>>, lo: int, hi: int, parent: int, depth: nat, n: nat, h: int)
    requires 0 <= lo <= h <= hi < |nodes| && Shape(nodes, lo, hi, parent, depth)
    requires Pow2(depth) * (hi - lo + 1) <= n
    ensures Pow2(nodes[h].depth) * (nodes[h].hi - nodes[h].lo + 1) <= n
    decreases hi - lo + 1
  {
    var m := Mid(lo, hi);
    if h != m {
      var half := if h < m then m - lo else hi - m;
      assert 2 * half <= hi - lo + 1;
      HalfFits(Pow2(depth), half, hi - lo + 1, n);
      if h < m { SubtreeHalves(nodes, lo, m - 1, m, depth + 1, n, h); } else { SubtreeHalves(nodes, m + 1, hi, m, depth + 1, n, h); }
    }
  }

  lemma AtLeast(p: nat, s: int)
    requires s >= 1
    ensures p <= p * s
  {
  }

  /** With n boundary keys no node is deeper than floor(log2 n). */
  lemma DepthIsLogarithmic<T>(op: (T, T) -> T, empty: T, leaves: seq<T>, nodes: seq<Node<T>>, h: int)
    requires IsTree(op, empty, leaves, nodes) && 0 <= h < |nodes|
    ensures Pow2(nodes[h].depth) <= |nodes|
  {
    hide Entry;
    SubtreeHalves(nodes, 0, |leaves|, -1, 0, |nodes|, h);
    ShapeRange(nodes, 0, |leaves|, -1, 0, h);
    AtLeast(Pow2(nodes[h].depth), nodes[h].hi - nodes[h].lo + 1);
  }

  /** Number of stored functions over keys lo..hi-1. */
  ghost function Cells<T>(nodes: seq<Node<T>>, lo: int, hi: int): nat
    requires 0 <= lo <= hi <= |nodes|
    decreases hi - lo
  {
    if lo == hi then 0 else |nodes[hi - 1].stored| + Cells(nodes, lo, hi - 1)
  }

  lemma {:induction false} CellsSplit<T>(nodes: seq<Node<T>>, lo: int, m: int, hi: int)
    requires 0 <= lo <= m <= hi <= |nodes|
    ensures Cells(nodes, lo, hi) == Cells(nodes, lo, m) + Cells(nodes, m, hi)
    decreases hi - m
  {
    if m < hi {
      CellsSplit(nodes, lo, m, hi - 1);
    }
  }

  /** k * n, kept linear for the induction below. */
  function Times(k: nat, n: int): int { k * n }

  lemma CellsNone<T>(nodes: seq<Node<T>>, lo: int, k: nat)
    requires 0 <= lo <= |nodes|
    ensures Cells(nodes, lo, lo) <= Times(k, 0)
  {
  }

  lemma CellsAround<T>(nodes: seq<Node<T>>, lo: int, m: int, hi: int)
    requires 0 <= lo <= m < hi <= |nodes|
    ensures Cells(nodes, lo, hi) == Cells(nodes, lo, m) + |nodes[m].stored| + Cells(nodes, m + 1, hi)
  {
    CellsSplit(nodes, lo, m, hi);
    CellsSplit(nodes, m, m + 1, hi);
  }

  lemma Halves(size: int, k: nat)
    requires 0 < size < Pow2(k)
    ensures k > 0 && size / 2 < Pow2(k - 1)
  {
  }

  lemma ShapeParts<T>(nodes: seq<Node<T>>, lo: int, hi: int, parent: int, depth: nat)
    requires 0 <= lo <= hi < |nodes| && Shape(nodes, lo, hi, parent, depth)
    ensures var m := Mid(lo, hi);
            && nodes[m].lo == lo && nodes[m].hi == hi && nodes[m].depth == depth
            && Shape(nodes, lo, m - 1, m, depth + 1) && Shape(nodes, m + 1, hi, m, depth + 1)
  {
  }

  lemma {:induction false} CellsBound<T>(nodes: seq<Node<T>>, lo: int, hi: int, parent: int, depth: nat, k: nat)
    requires 0 <= lo && hi < |nodes| && lo <= hi + 1 && Shape(nodes, lo, hi, parent, depth)
    requires hi - lo + 1 < Pow2(k)
    requires forall h :: lo <= h <= hi ==> |nodes[h].stored| == nodes[h].hi - nodes[h].lo + 1
    ensures Cells(nodes, lo, hi + 1) <= Times(k, hi - lo + 1)
    decreases hi - lo + 1
  {
    hide Times, Cells, Pow2, Shape;
    if lo > hi {
      CellsNone(nodes, lo, k);
    } else {
      var m := Mid(lo, hi);
      ShapeParts(nodes, lo, hi, parent, depth);
      Halves(hi - lo + 1, k);
      CellsBound(nodes, lo, m - 1, m, depth + 1, k - 1);
      CellsBound(nodes, m + 1, hi, m, depth + 1, k - 1);
      CellsAround(nodes, lo, m, hi + 1);
      SumFits(k, m - lo, hi - m, Cells(nodes, lo, m), Cells(nodes, m + 1, hi + 1));
    }
  }

  /** Storage is at most n * (floor(log2 n) + 1) functions. */
  lemma StorageIsNLogN<T>(op: (T, T) -> T, empty: T, leaves: seq<T>, nodes: seq<Node<T>>, k: nat)
    requires IsTree(op, empty, leaves, nodes) && |nodes| < Pow2(k)
    ensures Cells(nodes, 0, |nodes|) <= k * |nodes|
  {
    assert forall h :: 0 <= h <= |leaves| ==> Filled(op, empty, leaves, nodes[h], h);
    CellsBound(nodes, 0, |leaves|, -1, 0, k);
  }
}
