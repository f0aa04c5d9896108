/**
 * A single sibling path into the root of a perfect tree is as long as the tree is deep and
 * starts at the leaf its directions spell, or the hash breaks.
 */
module PathSoundness {
  import opened Numbers
  import opened Merkle
  import opened MultiproofPaths
  import opened MultiproofSoundness
  import opened OracleSoundness

  // --- a perfect tree has two halves --------------------------------------------------------

  lemma HalvesArePerfect<D>(layer: seq<D>, d: nat)
    requires Perfect(layer, d) && d > 0
    ensures |layer| == 2 * Pow2(d - 1) && Perfect(layer[..Pow2(d - 1)], d - 1) && Perfect(layer[Pow2(d - 1)..], d - 1)
  {
  }

  function LeftHalf<D>(layer: seq<D>, d: nat): (r: seq<D>)
    requires Perfect(layer, d) && d > 0
    ensures Perfect(r, d - 1)
  {
    HalvesArePerfect(layer, d);
    layer[..Pow2(d - 1)]
  }

  function RightHalf<D>(layer: seq<D>, d: nat): (r: seq<D>)
    requires Perfect(layer, d) && d > 0
    ensures Perfect(r, d - 1)
  {
    HalvesArePerfect(layer, d);
    layer[Pow2(d - 1)..]
  }

  lemma UpOfHalves<D>(node: (D, D) -> D, layer: seq<D>, d: nat)
    requires Perfect(layer, d) && d > 1
    ensures Perfect(Up(node, layer), d - 1)
    ensures LeftHalf(Up(node, layer), d - 1) == Up(node, LeftHalf(layer, d))
    ensures RightHalf(Up(node, layer), d - 1) == Up(node, RightHalf(layer, d))
  {
    UpIsPerfect(node, layer, d);
    var m := Pow2(d - 2);
    assert Pow2(d - 1) == 2 * m;
    forall i | 0 <= i < m ensures Up(node, layer)[m + i] == Up(node, RightHalf(layer, d))[i] {
      assert RightHalf(layer, d)[2 * i] == layer[2 * (m + i)]
          && RightHalf(layer, d)[2 * i + 1] == layer[2 * (m + i) + 1];
    }
  }

  lemma PairsOfHalves<D(!new)>(layer: seq<D>, d: nat)
    requires Perfect(layer, d) && d > 1
    ensures LayerPairs(LeftHalf(layer, d)) <= LayerPairs(layer) && LayerPairs(RightHalf(layer, d)) <= LayerPairs(layer)
  {
    var m, right := Pow2(d - 2), RightHalf(layer, d);
    assert Pow2(d - 1) == 2 * m;
    forall p | p in LayerPairs(right) ensures p in LayerPairs(layer) {
      var i :| 0 <= i < |right| / 2 && p == (right[2 * i], right[2 * i + 1]);
      assert p == (layer[2 * (m + i)], layer[2 * (m + i) + 1]);
    }
  }

  /** The roots of the two halves. */
  function HalfRoots<D>(node: (D, D) -> D, layer: seq<D>, d: nat): (D, D)
    requires Perfect(layer, d) && d > 0
  {
    (Root(node, LeftHalf(layer, d), d - 1), Root(node, RightHalf(layer, d), d - 1))
  }

  /** The root joins the roots of the halves, a pair of the tree. */
  lemma {:induction false} RootSplits<D(!new)>(node: (D, D) -> D, layer: seq<D>, d: nat)
    requires Perfect(layer, d) && d > 0
    ensures var pair := HalfRoots(node, layer, d);
            Root(node, layer, d) == node(pair.0, pair.1) && pair in TreePairs(node, layer, d)
    decreases d
  {
    if d == 1 {
      OnePair(node, layer);
    } else {
      hide Up, Pow2, LayerPairs, TreePairs, LeftHalf, RightHalf;
      UpOfHalves(node, layer, d);
      RootSplits(node, Up(node, layer), d - 1);
      TreeStep(node, layer, d);
      TreeStep(node, LeftHalf(layer, d), d - 1);
      TreeStep(node, RightHalf(layer, d), d - 1);
    }
  }

  lemma OnePair<D(!new)>(node: (D, D) -> D, layer: seq<D>)
    requires Perfect(layer, 1)
    ensures var pair := HalfRoots(node, layer, 1);
            Root(node, layer, 1) == node(pair.0, pair.1) && pair in TreePairs(node, layer, 1)
  {
    assert Pow2(1) == 2 && Pow2(0) == 1;
    assert (layer[2 * 0], layer[2 * 0 + 1]) in LayerPairs(layer);
    assert Root(node, layer, 1) == Root(node, Up(node, layer), 0);
  }

  /** What is hashed in a half is hashed in the tree. */
  lemma {:induction false} HalfPairs<D(!new)>(node: (D, D) -> D, layer: seq<D>, d: nat)
    requires Perfect(layer, d) && d > 0
    ensures TreePairs(node, LeftHalf(layer, d), d - 1) <= TreePairs(node, layer, d)
    ensures TreePairs(node, RightHalf(layer, d), d - 1) <= TreePairs(node, layer, d)
    decreases d
  {
    if d > 1 {
      hide Up, Pow2, LayerPairs, TreePairs, LeftHalf, RightHalf;
      UpOfHalves(node, layer, d);
      PairsOfHalves(layer, d);
      HalfPairs(node, Up(node, layer), d - 1);
      TreeStep(node, layer, d);
      TreeStep(node, LeftHalf(layer, d), d - 1);
      TreeStep(node, RightHalf(layer, d), d - 1);
    }
  }

  // --- the path ---------------------------------------------------------------------------------

  /** Nothing hashed along the path breaks the hash against the tree. */
  ghost predicate PathUnbroken<D(!new)>(node: (D, D) -> D, start: D, path: seq<ProofNode<D>>, layer: seq<D>, d: nat)
    requires Perfect(layer, d)
  {
    && CollisionFree(node, PathPairs(node, start, path), TreePairs(node, layer, d))
    && NotNodes(node, {start}, TreePairs(node, layer, d))
    && NotNodes(node, LayerHashes(layer), PathPairs(node, start, path))
  }

  /** The path has full length and `start` is the leaf at the position its directions spell. */
  ghost predicate StartsAtLeaf<D>(start: D, path: seq<ProofNode<D>>, layer: seq<D>, d: nat) {
    |path| == d && exists i :: 0 <= i < |layer| && Follows(path, i) && layer[i] == start
  }

  /** The last direction is the highest bit. */
  lemma {:induction false} FollowsSnoc<D>(path: seq<ProofNode<D>>, p: ProofNode<D>, i: nat)
    requires Follows(path, i)
    ensures Follows(path + [p], if p.isRightSibling then i else i + Pow2(|path|))
  {
    if path != [] {
      FollowsSnoc(path[1..], p, i / 2);
      assert (path + [p])[1..] == path[1..] + [p] && (path + [p])[0] == path[0];
    } else {
      assert [p][1..] == [];
    }
  }

  /**
   * A path that folds to the tree's root has the length of the tree and starts at the leaf
   * its directions spell, or the hash breaks.
   */
  lemma {:induction false} FoldReachesLayer<D(!new)>(node: (D, D) -> D, start: D, path: seq<ProofNode<D>>,
                                                     layer: seq<D>, d: nat)
    requires Perfect(layer, d) && Fold(node, start, path) == Root(node, layer, d)
    requires PathUnbroken(node, start, path, layer, d)
    ensures StartsAtLeaf(start, path, layer, d)
    decreases |path|, 1
  {
    hide Root, Perfect, TreePairs, PathPairs, StartsAtLeaf;
    assert start in {start};
    if d == 0 {
      EndsAtLeaf(node, start, path, layer);
    } else if path == [] {
      RootSplits(node, layer, d);
    } else {
      PathDown(node, start, path, layer, d);
    }
  }

  /** One step down the path and the tree. */
  lemma PathDown<D(!new)>(node: (D, D) -> D, start: D, path: seq<ProofNode<D>>, layer: seq<D>, d: nat)
    requires Perfect(layer, d) && d > 0 && path != []
    requires Fold(node, start, path) == Root(node, layer, d) && PathUnbroken(node, start, path, layer, d)
    ensures StartsAtLeaf(start, path, layer, d)
    decreases |path|, 0
  {
    hide PathUnbroken, Fold, Root, Perfect, LeftHalf, RightHalf, StartsAtLeaf;
    var below, last := path[..|path| - 1], path[|path| - 1];
    LastIsTop(node, start, path, layer, d);
    BelowIsHalf(node, start, path, layer, d);
    var half := if last.isRightSibling then LeftHalf(layer, d) else RightHalf(layer, d);
    UnbrokenBelow(node, start, path, layer, d, half);
    FoldReachesLayer(node, start, below, half, d - 1);
    assert path == below + [last];
    LeafOfHalf(start, below, last, layer, d);
  }

  /** A leaf of a half is a leaf of the tree, the top direction saying which half. */
  lemma LeafOfHalf<D>(start: D, below: seq<ProofNode<D>>, last: ProofNode<D>, layer: seq<D>, d: nat)
    requires Perfect(layer, d) && d > 0
    requires StartsAtLeaf(start, below, if last.isRightSibling then LeftHalf(layer, d) else RightHalf(layer, d), d - 1)
    ensures StartsAtLeaf(start, below + [last], layer, d)
  {
    HalvesArePerfect(layer, d);
    hide Pow2, Follows;
    var half := if last.isRightSibling then LeftHalf(layer, d) else RightHalf(layer, d);
    var i :| 0 <= i < |half| && Follows(below, i) && half[i] == start;
    FollowsSnoc(below, last, i);
    var j := if last.isRightSibling then i else i + Pow2(|below|);
    assert layer[j] == start;
  }

  lemma HalvesAreParts<D>(layer: seq<D>, d: nat)
    requires Perfect(layer, d) && d > 0
    ensures forall h :: h in LeftHalf(layer, d) || h in RightHalf(layer, d) ==> h in layer
  {
    hide Pow2;
  }

  lemma EndsAtLeaf<D(!new)>(node: (D, D) -> D, start: D, path: seq<ProofNode<D>>, layer: seq<D>)
    requires Perfect(layer, 0) && Fold(node, start, path) == Root(node, layer, 0)
    requires NotNodes(node, LayerHashes(layer), PathPairs(node, start, path))
    ensures StartsAtLeaf(start, path, layer, 0)
  {
    assert layer[0] in LayerHashes(layer);
    if path != [] {
      LastStep(node, start, path);
    } else {
      assert Follows(path, 0);
    }
  }

  /** The last step of the path is the top of the tree. */
  lemma LastIsTop<D(!new)>(node: (D, D) -> D, start: D, path: seq<ProofNode<D>>, layer: seq<D>, d: nat)
    requires Perfect(layer, d) && d > 0 && path != []
    requires Fold(node, start, path) == Root(node, layer, d) && PathUnbroken(node, start, path, layer, d)
    ensures LastPair(node, start, path) == HalfRoots(node, layer, d)
  {
    hide Fold, PathPairs, TreePairs, Root, HalfRoots, LastPair, Perfect;
    RootSplits(node, layer, d);
    LastStep(node, start, path);
  }

  lemma BelowIsHalf<D(!new)>(node: (D, D) -> D, start: D, path: seq<ProofNode<D>>, layer: seq<D>, d: nat)
    requires Perfect(layer, d) && d > 0 && path != [] && LastPair(node, start, path) == HalfRoots(node, layer, d)
    ensures Fold(node, start, path[..|path| - 1])
            == Root(node, if path[|path| - 1].isRightSibling then LeftHalf(layer, d) else RightHalf(layer, d), d - 1)
  {
    hide Fold, Root, Perfect, LeftHalf, RightHalf;
  }

  lemma UnbrokenBelow<D(!new)>(node: (D, D) -> D, start: D, path: seq<ProofNode<D>>, layer: seq<D>, d: nat,
                               half: seq<D>)
    requires Perfect(layer, d) && d > 0 && path != [] && PathUnbroken(node, start, path, layer, d)
    requires half == LeftHalf(layer, d) || half == RightHalf(layer, d)
    ensures Perfect(half, d - 1) && PathUnbroken(node, start, path[..|path| - 1], half, d - 1)
  {
    hide Fold, PathPairs, TreePairs, Perfect, LeftHalf, RightHalf;
    var below := path[..|path| - 1];
    HalfPairs(node, layer, d);
    HalvesAreParts(layer, d);
    LastStep(node, start, path);
    assert PathPairs(node, start, below) <= PathPairs(node, start, path);
    assert TreePairs(node, half, d - 1) <= TreePairs(node, layer, d);
    assert LayerHashes(half) <= LayerHashes(layer);
  }
}
