/** A Merkle checkpoint from one end to the other: written with the sparse root, read back against the dense one. */
module CheckpointAgreement {
  import opened Wrappers
  import opened ByteCodec
  import opened WalletCodec
  import opened MerkleRoot

  /** How leaves and roots are read as tree nodes and written as bytes. */
  datatype Form = Form(node: Record -> Node, bytes: Node -> Bytes)

  function Nodes(form: Form, leaves: seq<Record>): seq<Node> {
    seq<Node>(|leaves|, i requires 0 <= i < |leaves| => form.node(leaves[i]))
  }

  /** The verifier's root of the leaves, unless they exceed the tree. */
  function Dense(h: Hasher, zero: Node, depth: nat, form: Form): seq<Record> -> Option<Bytes> {
    leaves =>
      if |leaves| > Pow2(depth) then None else Some(form.bytes(Root(h, zero, depth, Nodes(form, leaves))))
  }

  /** The root the checkpoint states. */
  function Stated(h: Hasher, zero: Node, depth: nat, form: Form, leaves: seq<Record>): Bytes {
    form.bytes(SparseRoot(h, zero, depth, Nodes(form, leaves)))
  }

  ghost predicate OneToOne(form: Form) {
    forall a, b :: form.bytes(a) == form.bytes(b) ==> a == b
  }

  /** A checkpoint written with its sparse root reads back under the dense check if and only if its stated leaf count is
      right, its leaves fit the tree, and it has a leaf or the empty tree happens to have the zero leaf as its root. */
  lemma {:induction false} CheckpointReadsBack(h: Hasher, zero: Node, depth: nat, form: Form, c: Checkpoint)
    requires OneToOne(form) && TypedCheckpoint(c, Stated(h, zero, depth, form, c.leaves))
    ensures var root := Stated(h, zero, depth, form, c.leaves);
            ParseCheckpoint(CheckpointBytes(c, root), Dense(h, zero, depth, form)) == Ok((c, root)) <==>
            && c.count == |c.leaves| && |c.leaves| <= Pow2(depth)
            && (c.leaves != [] || EmptyRoot(h, zero, depth) == zero)
  {
    hide Root, ParseCheckpoint, CheckpointBytes, TypedCheckpoint, Pow2;
    var root := Stated(h, zero, depth, form, c.leaves);
    CheckpointRoundTrip(c, root, Dense(h, zero, depth, form));
    RootOfNothing(h, zero, depth);
    assert |Nodes(form, c.leaves)| == |c.leaves|;
    assert c.leaves == [] ==> Nodes(form, c.leaves) == [];
  }
}
