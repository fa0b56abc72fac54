/**
 * `merkle_verify`: membership of a leaf in a sorted-pair Keccak Merkle
 * tree, and the trees an allow-list is committed to.
 *
 * Keccak-256 is left abstract: every definition and lemma here takes the
 * hash as a parameter `keccak` over byte strings, so each fact holds for
 * every hash function, with no collision-resistance assumption.
 */
module Merkle {
  import opened Bytes

  type Keccak = seq<byte> -> Hash

  /**
   * One iteration of the loop in `merkle_verify`: the running hash and the
   * proof element are hashed as one concatenated byte string, the
   * lexicographically smaller (by Rust's `<=`) first.
   */
  function HashPair(keccak: Keccak, computed: Hash, sibling: Hash): Hash
  {
    if LexLe(computed, sibling) then keccak(computed + sibling)
    else keccak(sibling + computed)
  }

  /** The hash `merkle_verify` computes: a left fold of `HashPair` over `proof`. */
  function Fold(keccak: Keccak, computed: Hash, proof: seq<Hash>): Hash
    decreases |proof|
  {
    if |proof| == 0 then computed
    else Fold(keccak, HashPair(keccak, computed, proof[0]), proof[1..])
  }

  /** Whether `proof` reconstructs `root` from `leaf`. */
  predicate Verifies(keccak: Keccak, proof: seq<Hash>, root: Hash, leaf: Hash)
  {
    Fold(keccak, leaf, proof) == root
  }

  /** `merkle_verify(proof, root, leaf)`: walks `proof` in order. */
  method MerkleVerify(keccak: Keccak, proof: seq<Hash>, root: Hash, leaf: Hash) returns (ok: bool)
    ensures ok == Verifies(keccak, proof, root, leaf)
  {
    var computed: seq<byte> := leaf;
    for i := 0 to |proof|
      invariant computed == Fold(keccak, leaf, proof[..i])
    {
      FoldSnoc(keccak, leaf, proof[..i], proof[i]);
      assert proof[..i + 1] == proof[..i] + [proof[i]];
      var element: seq<byte> := proof[i];
      if LexLe(computed, element) {
        computed := keccak(computed + element);
      } else {
        computed := keccak(element + computed);
      }
    }
    assert proof[..|proof|] == proof;
    ok := computed == root;
  }

  // ---------------------------------------------------------------------
  // Properties of one step
  // ---------------------------------------------------------------------

  /** The smaller of two hashes under Rust's `<=`. */
  function LexMin(a: Hash, b: Hash): (r: Hash)
    ensures r == a || r == b
    ensures LexLe(r, a) && LexLe(r, b)
  {
    LexLeReflexive(a);
    LexLeReflexive(b);
    LexLeTotal(a, b);
    if LexLe(a, b) then a else b
  }

  /** The larger of two hashes under Rust's `<=`. */
  function LexMax(a: Hash, b: Hash): (r: Hash)
    ensures r == a || r == b
    ensures LexLe(a, r) && LexLe(b, r)
  {
    LexLeReflexive(a);
    LexLeReflexive(b);
    LexLeTotal(a, b);
    if LexLe(a, b) then b else a
  }

  /** Each step hashes the ordered pair: smaller first, larger second. */
  lemma HashPairIsSorted(keccak: Keccak, computed: Hash, sibling: Hash)
    ensures LexLe(LexMin(computed, sibling), LexMax(computed, sibling))
    ensures {LexMin(computed, sibling), LexMax(computed, sibling)} == {computed, sibling}
    ensures HashPair(keccak, computed, sibling)
         == keccak(LexMin(computed, sibling) + LexMax(computed, sibling))
  {
    LexLeTotal(computed, sibling);
    if LexLe(computed, sibling) && LexLe(sibling, computed) {
      LexLeAntisymmetric(computed, sibling);
    }
  }

  /** The step does not care which of the two is the running hash. */
  lemma HashPairCommutative(keccak: Keccak, x: Hash, s: Hash)
    ensures HashPair(keccak, x, s) == HashPair(keccak, s, x)
  {
    LexLeTotal(x, s);
    if LexLe(x, s) && LexLe(s, x) {
      LexLeAntisymmetric(x, s);
    }
  }

  // ---------------------------------------------------------------------
  // Properties of the fold
  // ---------------------------------------------------------------------

  /** With no proof elements the leaf itself must be the root. */
  lemma EmptyProof(keccak: Keccak, root: Hash, leaf: Hash)
    ensures Verifies(keccak, [], root, leaf) <==> leaf == root
  {
  }

  /** Appending one proof element costs one more step. */
  lemma {:induction false} FoldSnoc(keccak: Keccak, computed: Hash, proof: seq<Hash>, sibling: Hash)
    ensures Fold(keccak, computed, proof + [sibling])
         == HashPair(keccak, Fold(keccak, computed, proof), sibling)
    decreases |proof|
  {
    if |proof| > 0 {
      assert (proof + [sibling])[1..] == proof[1..] + [sibling];
      FoldSnoc(keccak, HashPair(keccak, computed, proof[0]), proof[1..], sibling);
    }
  }

  // ---------------------------------------------------------------------
  // Sorted-pair trees and the proofs they give for their leaves
  // ---------------------------------------------------------------------

  datatype Tree = Leaf(hash: Hash) | Node(left: Tree, right: Tree)

  /** The root: each inner node hashes its children's roots as a sorted pair. */
  function Root(keccak: Keccak, t: Tree): Hash
  {
    match t
    case Leaf(h) => h
    case Node(l, r) => HashPair(keccak, Root(keccak, l), Root(keccak, r))
  }

  /** The leaves, left to right. */
  function Leaves(t: Tree): (r: seq<Hash>)
    ensures |r| > 0
  {
    match t
    case Leaf(h) => [h]
    case Node(l, r) => Leaves(l) + Leaves(r)
  }

  /** The sibling path of the `i`-th leaf, from the leaf upwards. */
  function ProofFor(keccak: Keccak, t: Tree, i: nat): seq<Hash>
    requires i < |Leaves(t)|
  {
    match t
    case Leaf(_) => []
    case Node(l, r) =>
      if i < |Leaves(l)| then ProofFor(keccak, l, i) + [Root(keccak, r)]
      else ProofFor(keccak, r, i - |Leaves(l)|) + [Root(keccak, l)]
  }

  /** Every leaf's sibling path reconstructs the root. */
  lemma {:induction false} ProofForVerifies(keccak: Keccak, t: Tree, i: nat)
    requires i < |Leaves(t)|
    ensures Verifies(keccak, ProofFor(keccak, t, i), Root(keccak, t), Leaves(t)[i])
  {
    match t
    case Leaf(_) =>
    case Node(l, r) =>
      if i < |Leaves(l)| {
        ProofForVerifies(keccak, l, i);
        FoldSnoc(keccak, Leaves(t)[i], ProofFor(keccak, l, i), Root(keccak, r));
      } else {
        ProofForVerifies(keccak, r, i - |Leaves(l)|);
        FoldSnoc(keccak, Leaves(t)[i], ProofFor(keccak, r, i - |Leaves(l)|), Root(keccak, l));
        HashPairCommutative(keccak, Root(keccak, r), Root(keccak, l));
      }
  }

  // ---------------------------------------------------------------------
  // The tree an allow-list is committed to, built layer by layer: adjacent
  // nodes are paired from the left and an odd last node moves up unchanged.
  // ---------------------------------------------------------------------

  /** The leaves of a layer of subtrees, left to right. */
  function LeavesOf(layer: seq<Tree>): seq<Hash>
  {
    if |layer| == 0 then [] else Leaves(layer[0]) + LeavesOf(layer[1..])
  }

  /** The next layer up: half as many nodes, rounded up. */
  function NextLayer(layer: seq<Tree>): (r: seq<Tree>)
    ensures |r| == (|layer| + 1) / 2
    ensures LeavesOf(r) == LeavesOf(layer)
  {
    if |layer| <= 1 then layer
    else
      var rest := NextLayer(layer[2..]);
      assert LeavesOf([Node(layer[0], layer[1])] + rest)
          == Leaves(layer[0]) + Leaves(layer[1]) + LeavesOf(rest)
        by { assert ([Node(layer[0], layer[1])] + rest)[1..] == rest; }
      assert LeavesOf(layer) == Leaves(layer[0]) + (Leaves(layer[1]) + LeavesOf(layer[2..]))
        by { assert layer[1..][1..] == layer[2..]; }
      [Node(layer[0], layer[1])] + rest
  }

  /** Pairs layers until a single root node is left. */
  function BuildFromLayer(layer: seq<Tree>): (t: Tree)
    requires |layer| > 0
    ensures Leaves(t) == LeavesOf(layer)
    decreases |layer|
  {
    if |layer| == 1 then
      assert LeavesOf(layer) == Leaves(layer[0]) + LeavesOf(layer[1..]);
      layer[0]
    else BuildFromLayer(NextLayer(layer))
  }

  /** The bottom layer: one leaf per hashed entry. */
  function LeafLayer(hashes: seq<Hash>): (layer: seq<Tree>)
    ensures |layer| == |hashes|
    ensures LeavesOf(layer) == hashes
  {
    if |hashes| == 0 then []
    else
      assert ([Leaf(hashes[0])] + LeafLayer(hashes[1..]))[1..] == LeafLayer(hashes[1..]);
      [Leaf(hashes[0])] + LeafLayer(hashes[1..])
  }

  /** The sorted-pair tree over the (already hashed) allow-list entries. */
  function BuildTree(hashes: seq<Hash>): (t: Tree)
    requires |hashes| > 0
    ensures Leaves(t) == hashes
  {
    BuildFromLayer(LeafLayer(hashes))
  }

  /**
   * Round trip: for every entry of a non-empty allow-list, the sibling path
   * of its leaf `keccak(entry)` verifies against the root of the tree built
   * over the hashed entries.
   */
  lemma AllowListRoundTrip(keccak: Keccak, entries: seq<seq<byte>>, i: nat)
    requires i < |entries|
    ensures var hashes := seq(|entries|, k requires 0 <= k < |entries| => keccak(entries[k]));
            var t := BuildTree(hashes);
            Verifies(keccak, ProofFor(keccak, t, i), Root(keccak, t), keccak(entries[i]))
  {
    var hashes := seq(|entries|, k requires 0 <= k < |entries| => keccak(entries[k]));
    ProofForVerifies(keccak, BuildTree(hashes), i);
  }
}
