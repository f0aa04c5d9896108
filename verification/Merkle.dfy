/**
 * Merkle paths and perfect trees over an arbitrary node hash.
 *
 * The node hash is a parameter everywhere, so what is proved without further
 * assumptions holds for keccak as well as for any other function.
 */
module Merkle {
  import opened Numbers

  datatype ProofNode<D> = ProofNode(hash: D, isRightSibling: bool)

  /** One step of an authentication path: `isRightSibling` puts the sibling right. */
  function Combine<D>(node: (D, D) -> D, current: D, p: ProofNode<D>): D {
    if p.isRightSibling then node(current, p.hash) else node(p.hash, current)
  }

  function Fold<D>(node: (D, D) -> D, start: D, path: seq<ProofNode<D>>): D {
    if path == [] then start
    else Fold(node, Combine(node, start, path[0]), path[1..])
  }

  lemma {:induction false} FoldSnoc<D>(node: (D, D) -> D, start: D, path: seq<ProofNode<D>>, p: ProofNode<D>)
    ensures Fold(node, start, path + [p]) == Combine(node, Fold(node, start, path), p)
  {
    if path == [] {
      assert ([] + [p])[1..] == [];
    } else {
      FoldSnoc(node, Combine(node, start, path[0]), path[1..], p);
      assert (path + [p])[1..] == path[1..] + [p];
    }
  }

  /** `fold_proof`: overwrite the running node once per path element. */
  method FoldProof<D>(node: (D, D) -> D, start: D, path: seq<ProofNode<D>>) returns (r: D)
    ensures r == Fold(node, start, path)
  {
    r := start;
    for i := 0 to |path|
      invariant r == Fold(node, start, path[..i])
    {
      FoldSnoc(node, start, path[..i], path[i]);
      assert path[..i + 1] == path[..i] + [path[i]];
      r := Combine(node, r, path[i]);
    }
    assert path[..|path|] == path;
  }

  /** Parent layer of a layer of node hashes; a trailing odd node is dropped. */
  function Up<D>(node: (D, D) -> D, layer: seq<D>): (up: seq<D>)
    ensures |up| == |layer| / 2
  {
    seq(|layer| / 2, i requires 0 <= i < |layer| / 2 => node(layer[2 * i], layer[2 * i + 1]))
  }

  /** `layer` holds all nodes of one level of a perfect tree, `d` levels under the root. */
  predicate Perfect<D>(layer: seq<D>, d: nat) {
    |layer| == Pow2(d)
  }

  lemma UpIsPerfect<D>(node: (D, D) -> D, layer: seq<D>, d: nat)
    requires Perfect(layer, d) && d > 0
    ensures Perfect(Up(node, layer), d - 1) && |layer| % 2 == 0
  {
  }

  function Root<D>(node: (D, D) -> D, layer: seq<D>, d: nat): D
    requires Perfect(layer, d)
    decreases d
  {
    if d == 0 then layer[0] else Root(node, Up(node, layer), d - 1)
  }

  /** The layer `k` levels above `layer`. */
  function Above<D>(node: (D, D) -> D, layer: seq<D>, d: nat, k: nat): (up: seq<D>)
    requires Perfect(layer, d) && k <= d
    ensures Perfect(up, d - k)
    decreases k
  {
    if k == 0 then layer else (UpIsPerfect(node, layer, d); Above(node, Up(node, layer), d - 1, k - 1))
  }

  lemma {:induction false} AboveKeepsRoot<D>(node: (D, D) -> D, layer: seq<D>, d: nat, k: nat)
    requires Perfect(layer, d) && k <= d
    ensures Root(node, Above(node, layer, d, k), d - k) == Root(node, layer, d)
    decreases k
  {
    hide Up, Pow2;
    if k > 0 {
      UpIsPerfect(node, layer, d);
      AboveKeepsRoot(node, Up(node, layer), d - 1, k - 1);
    }
  }
}
