/** The checkpoint root: a sparse fold that keeps only the occupied prefix of each layer computes the
    root of the full tree padded with zero leaves. The source fixes the depth at 16; everything here
    holds for any depth and any two-input hash. */
module MerkleRoot {
  import opened Wrappers

  type Node = nat

  /** A two-input hash, left uninterpreted. */
  type Hasher = (Node, Node) -> Node

  function Pow2(d: nat): (r: nat)
    ensures r >= 1
  {
    if d == 0 then 1 else 2 * Pow2(d - 1)
  }

  /** The root of a tree of the given depth whose first leaves are `leaves` and whose other leaves
      are `zero`: the reference definition. */
  function Root(h: Hasher, zero: Node, depth: nat, leaves: seq<Node>): Node
    decreases depth
  {
    if depth == 0 then (if leaves == [] then zero else leaves[0])
    else h(Root(h, zero, depth - 1, Left(leaves, Pow2(depth - 1))),
           Root(h, zero, depth - 1, Right(leaves, Pow2(depth - 1))))
  }

  function Left(leaves: seq<Node>, half: nat): seq<Node> {
    if |leaves| <= half then leaves else leaves[..half]
  }

  function Right(leaves: seq<Node>, half: nat): seq<Node> {
    if |leaves| <= half then [] else leaves[half..]
  }

  /** One layer up, over whole pairs. */
  function Pairs(h: Hasher, layer: seq<Node>): seq<Node> {
    if |layer| < 2 then [] else Pairs(h, layer[..|layer| - 2]) + [h(layer[|layer| - 2], layer[|layer| - 1])]
  }

  function Even(layer: seq<Node>, padding: Node): seq<Node> {
    if |layer| % 2 == 0 then layer else layer + [padding]
  }

  /** The layer above an occupied prefix, when every subtree to its right has root `empty`. */
  function Up(h: Hasher, empty: Node, layer: seq<Node>): seq<Node> {
    Pairs(h, Even(layer, empty))
  }

  // ---------------------------------------------------------------------------------------------
  // Folding one layer
  // ---------------------------------------------------------------------------------------------

  lemma {:induction false} PairsShape(h: Hasher, layer: seq<Node>)
    requires |layer| % 2 == 0
    ensures |Pairs(h, layer)| == |layer| / 2
    ensures forall i :: 0 <= i < |layer| / 2 ==> Pairs(h, layer)[i] == h(layer[2 * i], layer[2 * i + 1])
    decreases |layer|
  {
    if |layer| >= 2 {
      PairsShape(h, layer[..|layer| - 2]);
    }
  }

  /** Node `i` of the layer above. */
  function Above(h: Hasher, empty: Node, layer: seq<Node>, i: nat): Node
    requires 2 * i < |layer|
  {
    h(layer[2 * i], if 2 * i + 1 < |layer| then layer[2 * i + 1] else empty)
  }

  lemma UpShape(h: Hasher, empty: Node, layer: seq<Node>)
    ensures |Up(h, empty, layer)| == (|layer| + 1) / 2
    ensures forall i :: 0 <= i < (|layer| + 1) / 2 ==> Up(h, empty, layer)[i] == Above(h, empty, layer, i)
  {
    hide Pairs;
    PairsShape(h, Even(layer, empty));
  }

  /** Folding a layer folds its two halves. */
  lemma UpLeft(h: Hasher, empty: Node, layer: seq<Node>, half: nat)
    ensures Left(Up(h, empty, layer), half) == Up(h, empty, Left(layer, 2 * half))
  {
    hide Up;
    UpShape(h, empty, layer);
    if |layer| > 2 * half {
      var left := layer[..2 * half];
      UpShape(h, empty, left);
      forall i | 0 <= i < half ensures Above(h, empty, layer, i) == Above(h, empty, left, i) {
      }
    }
  }

  lemma UpRight(h: Hasher, empty: Node, layer: seq<Node>, half: nat)
    ensures Right(Up(h, empty, layer), half) == Up(h, empty, Right(layer, 2 * half))
  {
    hide Up;
    UpShape(h, empty, layer);
    UpShape(h, empty, []);
    if |layer| > 2 * half {
      var right := layer[2 * half..];
      UpShape(h, empty, right);
      forall i | 0 <= i < (|right| + 1) / 2 ensures Above(h, empty, layer, half + i) == Above(h, empty, right, i) {
        assert right[2 * i] == layer[2 * (half + i)];
      }
    }
  }

  /** A tree is the tree one level higher up over its folded leaves. */
  lemma {:induction false} RootUp(h: Hasher, zero: Node, depth: nat, leaves: seq<Node>)
    requires |leaves| <= Pow2(depth + 1)
    ensures Root(h, zero, depth + 1, leaves) == Root(h, h(zero, zero), depth, Up(h, zero, leaves))
    decreases depth
  {
    hide Root, Up, Left, Right;
    if depth == 0 {
      RootUpLeaf(h, zero, leaves);
    } else {
      var half := Pow2(depth - 1);
      HalvesFit(depth, leaves);
      RootSplit(h, zero, depth, leaves);
      RootUp(h, zero, depth - 1, Left(leaves, 2 * half));
      RootUp(h, zero, depth - 1, Right(leaves, 2 * half));
      UpLeft(h, zero, leaves, half);
      UpRight(h, zero, leaves, half);
      RootSplit(h, h(zero, zero), depth - 1, Up(h, zero, leaves));
    }
  }

  lemma RootSplit(h: Hasher, zero: Node, depth: nat, leaves: seq<Node>)
    ensures Root(h, zero, depth + 1, leaves) ==
            h(Root(h, zero, depth, Left(leaves, Pow2(depth))), Root(h, zero, depth, Right(leaves, Pow2(depth))))
  {
  }

  lemma HalvesFit(depth: nat, leaves: seq<Node>)
    requires |leaves| <= Pow2(depth + 1)
    ensures |Left(leaves, Pow2(depth))| <= Pow2(depth) && |Right(leaves, Pow2(depth))| <= Pow2(depth)
  {
  }

  lemma RootUpLeaf(h: Hasher, zero: Node, leaves: seq<Node>)
    requires |leaves| <= 2
    ensures Root(h, zero, 1, leaves) == Root(h, h(zero, zero), 0, Up(h, zero, leaves))
  {
    hide Up;
    UpShape(h, zero, leaves);
  }

  // ---------------------------------------------------------------------------------------------
  // The two root computations
  // ---------------------------------------------------------------------------------------------

  /** The root of an empty subtree of the given depth. */
  function EmptyRoot(h: Hasher, zero: Node, depth: nat): Node {
    if depth == 0 then zero else h(EmptyRoot(h, zero, depth - 1), EmptyRoot(h, zero, depth - 1))
  }

  lemma {:induction false} RootOfNothing(h: Hasher, zero: Node, depth: nat)
    ensures Root(h, zero, depth, []) == EmptyRoot(h, zero, depth)
  {
    if depth > 0 {
      RootOfNothing(h, zero, depth - 1);
    }
  }

  /** Hashes the pairs of a layer; an unpaired last node is dropped. */
  method FoldPairs(h: Hasher, layer: seq<Node>) returns (parents: seq<Node>)
    ensures parents == Pairs(h, layer[..|layer| / 2 * 2])
  {
    parents := [];
    for i := 0 to |layer| / 2
      invariant parents == Pairs(h, layer[..2 * i])
    {
      assert layer[..2 * (i + 1)][..2 * i] == layer[..2 * i];
      parents := parents + [h(layer[2 * i], layer[2 * i + 1])];
    }
  }

  /** What the checkpoint states: the root of the padded tree, but the zero leaf for no leaves. */
  function SparseRoot(h: Hasher, zero: Node, depth: nat, leaves: seq<Node>): Node {
    if leaves == [] then zero else Root(h, zero, depth, leaves)
  }

  /** The checkpoint root. Only the occupied part of each layer is kept; an odd layer is completed
      with the root of an empty subtree. The empty tree is the one case where the result is not the
      root of the zero-padded tree. */
  method CheckpointRoot(h: Hasher, zero: Node, depth: nat, leaves: seq<Node>) returns (root: Node)
    requires |leaves| <= Pow2(depth)
    ensures root == SparseRoot(h, zero, depth, leaves)
  {
    hide Root, Pairs;
    var layer := leaves;
    var emptySubtreeRoot := zero;
    for level := 0 to depth
      invariant |layer| <= Pow2(depth - level)
      invariant layer == [] <==> leaves == []
      invariant Root(h, emptySubtreeRoot, depth - level, layer) == Root(h, zero, depth, leaves)
    {
      RootUp(h, emptySubtreeRoot, depth - level - 1, layer);
      UpShape(h, emptySubtreeRoot, layer);
      if |layer| % 2 != 0 {
        layer := layer + [emptySubtreeRoot];
      }
      assert layer[..|layer| / 2 * 2] == layer;
      layer := FoldPairs(h, layer);
      emptySubtreeRoot := h(emptySubtreeRoot, emptySubtreeRoot);
    }
    RootOfLeaf(h, emptySubtreeRoot, layer);
    root := if layer == [] then zero else layer[0];
  }

  lemma RootOfLeaf(h: Hasher, zero: Node, layer: seq<Node>)
    ensures layer != [] ==> Root(h, zero, 0, layer) == layer[0]
  {
  }

  // ---------------------------------------------------------------------------------------------
  // The dense computation
  // ---------------------------------------------------------------------------------------------

  function Zeros(zero: Node, n: nat): seq<Node> {
    seq(n, _ => zero)
  }

  /** Explicit zero leaves do not change the root. */
  lemma {:induction false} RootPadded(h: Hasher, zero: Node, depth: nat, leaves: seq<Node>, n: nat)
    requires |leaves| + n <= Pow2(depth)
    ensures Root(h, zero, depth, leaves + Zeros(zero, n)) == Root(h, zero, depth, leaves)
    decreases depth
  {
    var padded := leaves + Zeros(zero, n);
    if depth > 0 {
      var half := Pow2(depth - 1);
      if |leaves| <= half {
        var inLeft := if |padded| <= half then n else half - |leaves|;
        assert Left(padded, half) == leaves + Zeros(zero, inLeft);
        assert Right(padded, half) == [] + Zeros(zero, n - inLeft);
        RootPadded(h, zero, depth - 1, leaves, inLeft);
        RootPadded(h, zero, depth - 1, [], n - inLeft);
      } else {
        assert Left(padded, half) == leaves[..half];
        assert Right(padded, half) == leaves[half..] + Zeros(zero, n);
        RootPadded(h, zero, depth - 1, leaves[half..], n);
      }
    }
  }

  /** Overwrites the first leaves of a tree of zero leaves, rejecting too many. */
  method FillLeaves(zero: Node, size: nat, leaves: seq<Node>) returns (r: Result<seq<Node>, ()>)
    ensures r == if |leaves| > size then Err(()) else Ok(leaves + Zeros(zero, size - |leaves|))
  {
    var layer := Zeros(zero, size);
    for index := 0 to |leaves|
      invariant |layer| == size && index <= size
      invariant layer == leaves[..index] + Zeros(zero, size - index)
    {
      if index >= size {
        return Err(());
      }
      layer := layer[index := leaves[index]];
    }
    assert leaves[..|leaves|] == leaves;
    return Ok(layer);
  }

  /** Folds a full layer up to its root. */
  method FoldLayers(h: Hasher, ghost zero: Node, depth: nat, leaves: seq<Node>) returns (root: Node)
    requires |leaves| == Pow2(depth)
    ensures root == Root(h, zero, depth, leaves)
  {
    hide Root, Pairs;
    var layer := leaves;
    ghost var empty := zero;
    for level := 0 to depth
      invariant |layer| == Pow2(depth - level)
      invariant Root(h, empty, depth - level, layer) == Root(h, zero, depth, leaves)
    {
      RootUp(h, empty, depth - level - 1, layer);
      UpShape(h, empty, layer);
      assert layer[..|layer| / 2 * 2] == layer;
      layer := FoldPairs(h, layer);
      empty := h(empty, empty);
    }
    RootOfLeaf(h, empty, layer);
    root := layer[0];
  }

  /** The verifier's root over all leaves of the tree, rejecting too many leaves. */
  method DenseRoot(h: Hasher, zero: Node, depth: nat, leaves: seq<Node>) returns (r: Result<Node, ()>)
    ensures r == if |leaves| > Pow2(depth) then Err(()) else Ok(Root(h, zero, depth, leaves))
  {
    hide Root;
    var filled := FillLeaves(zero, Pow2(depth), leaves);
    if filled.Err? {
      return Err(());
    }
    RootPadded(h, zero, depth, leaves, Pow2(depth) - |leaves|);
    var root := FoldLayers(h, zero, depth, filled.value);
    return Ok(root);
  }

  /** The sparse root is the dense one exactly when there is a leaf, or when hashing empty subtrees
      happens to give the zero leaf back. */
  method RootsAgree(h: Hasher, zero: Node, depth: nat, leaves: seq<Node>) returns (agree: bool)
    requires |leaves| <= Pow2(depth)
    ensures agree <==> leaves != [] || EmptyRoot(h, zero, depth) == zero
  {
    var sparse := CheckpointRoot(h, zero, depth, leaves);
    var dense := DenseRoot(h, zero, depth, leaves);
    RootOfNothing(h, zero, depth);
    agree := dense == Ok(sparse);
  }
}
