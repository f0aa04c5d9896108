/**
 * Soundness of the multiproof as a reduction, for any hash: acceptance against the
 * root of a perfect tree forces the leaves and the supplied hashes to be the
 * tree's own, unless the hashed values themselves exhibit a collision or a leaf
 * hash that is also a node hash.
 */
module MultiproofSoundness {
  import opened Wrappers
  import opened Numbers
  import opened Merkle
  import opened Multiproof
  import opened MultiproofCompleteness

  /** The sibling pairs of one layer of a tree. */
  ghost function LayerPairs<D(!new)>(layer: seq<D>): set<(D, D)> {
    set i | 0 <= i < |layer| / 2 :: (layer[2 * i], layer[2 * i + 1])
  }

  /** Every pair hashed when building the tree over `layer`. */
  ghost function TreePairs<D(!new)>(node: (D, D) -> D, layer: seq<D>, d: nat): set<(D, D)>
    requires Perfect(layer, d)
    decreases d
  {
    if d == 0 then {} else LayerPairs(layer) + TreePairs(node, Up(node, layer), d - 1)
  }

  function Ordered<D>(e: Entry<D>, sibling: D): (D, D) {
    if e.idx % 2 == 0 then (e.hash, sibling) else (sibling, e.hash)
  }

  /** The pairs hashed by one round. */
  ghost function RoundPairs<D(!new)>(level: seq<Entry<D>>, feed: seq<D>): set<(D, D)>
    decreases |level|
  {
    if level == [] then {}
    else if PairAhead(level) then {Ordered(level[0], level[1].hash)} + RoundPairs(level[2..], feed)
    else if feed == [] then {}
    else {Ordered(level[0], feed[0])} + RoundPairs(level[1..], feed[1..])
  }

  /** Every pair the walk hashes. */
  ghost function WalkPairs<D(!new)>(node: (D, D) -> D, level: seq<Entry<D>>, feed: seq<D>): set<(D, D)>
    requires level != [] && StrictlyAscending(level)
    decreases TopIdx(level)
  {
    if TopIdx(level) == 0 || Climb(node, level, feed).Short? then {}
    else
      ClimbShape(node, level, feed);
      RoundPairs(level, feed) + WalkPairs(node, Climb(node, level, feed).next, Climb(node, level, feed).rest)
  }

  /** No two different pairs, one from each set, have the same node hash. */
  ghost predicate CollisionFree<D(!new)>(node: (D, D) -> D, a: set<(D, D)>, b: set<(D, D)>) {
    forall p, q :: p in a && q in b && node(p.0, p.1) == node(q.0, q.1) ==> p == q
  }

  lemma NoneBack<D(!new)>(node: (D, D) -> D, feed: seq<D>, layer: seq<D>, s: set<nat>, q: nat)
    requires |layer| % 2 == 0 && Lists<D>([], s, q)
    ensures feed == Missing(layer, s, q) + feed
  {
    LandNone(node, layer, s, q, feed);
    assert Climb(node, [], Missing(layer, s, q) + feed).rest == feed;
  }

  /** A head fed from the tree, before a tail that was, is a level that was. */
  lemma LoneBack<D(!new)>(level: seq<Entry<D>>, feed: seq<D>, layer: seq<D>, s: set<nat>, q: nat, rest: seq<D>)
    requires level != [] && feed != [] && 2 * q + 1 < |layer|
    requires level[0].idx / 2 == q && level[0].idx in s && Sibling(level[0].idx) !in s
    requires level[0].hash == layer[level[0].idx] && feed[0] == layer[Sibling(level[0].idx)]
    requires Matches(level[1..], layer) && feed[1..] == Missing(layer, s, q + 1) + rest
    ensures Matches(level, layer) && feed == Missing(layer, s, q) + rest
  {
    MissingStep(layer, s, q, rest);
    hide Missing;
    assert feed == [feed[0]] + feed[1..];
    forall k | 0 < k < |level| ensures level[k] == level[1..][k - 1] {
    }
  }

  lemma PairBack<D(!new)>(level: seq<Entry<D>>, feed: seq<D>, layer: seq<D>, s: set<nat>, q: nat, rest: seq<D>)
    requires |level| >= 2 && 2 * q + 1 < |layer| && 2 * q in s && 2 * q + 1 in s
    requires Matches(level[..2], layer) && Matches(level[2..], layer)
    requires feed == Missing(layer, s, q + 1) + rest
    ensures Matches(level, layer) && feed == Missing(layer, s, q) + rest
  {
    MissingStep(layer, s, q, rest);
    hide Missing;
    forall k | 0 <= k < |level| ensures level[k] == if k < 2 then level[..2][k] else level[2..][k - 2] {
    }
  }

  /** If the round lands on the tree's next layer, it started on the tree and was fed from it. */
  lemma {:induction false} ClimbMatches<D(!new)>(node: (D, D) -> D, level: seq<Entry<D>>, feed: seq<D>, layer: seq<D>,
                                                 s: set<nat>, q: nat)
    requires |layer| % 2 == 0 && Lists(level, s, q) && Climb(node, level, feed).Round?
    requires Matches(Climb(node, level, feed).next, Up(node, layer))
    requires CollisionFree(node, RoundPairs(level, feed), LayerPairs(layer))
    ensures Matches(level, layer)
    ensures feed == Missing(layer, s, q) + Climb(node, level, feed).rest
    decreases |level|, if level == [] then 0 else level[0].idx - q
  {
    hide Missing, Lists, LayerPairs;
    var r := Climb(node, level, feed);
    if level == [] {
      NoneBack(node, feed, layer, s, q);
    } else {
      FirstListed(level, s, q);
      StepParent(level, s, q);
      var p := r.next[0];
      assert level[0].idx / 2 == p.idx < |layer| / 2;
      if level[0].idx >= 2 * q + 2 {
        MissingStep(layer, s, q, r.rest);
        ClimbMatches(node, level, feed, layer, s, q + 1);
      } else if PairAhead(level) {
        HeadMatches(node, level[0], level[1].hash, layer, p);
        assert r.next[1..] == Climb(node, level[2..], feed).next;
        ClimbMatches(node, level[2..], feed, layer, s, q + 1);
        PairBack(level, feed, layer, s, q, r.rest);
      } else {
        HeadMatches(node, level[0], feed[0], layer, p);
        assert r.next[1..] == Climb(node, level[1..], feed[1..]).next;
        ClimbMatches(node, level[1..], feed[1..], layer, s, q + 1);
        LoneBack(level, feed, layer, s, q, r.rest);
      }
    }
  }

  lemma FirstListed<D(!new)>(level: seq<Entry<D>>, s: set<nat>, q: nat)
    requires Lists(level, s, q) && level != []
    ensures level[0].idx in s && level[0].idx >= 2 * q
  {
    assert level[0] in level;
    assert level[0].idx in Keys(level);
  }

  lemma HeadMatches<D(!new)>(node: (D, D) -> D, e: Entry<D>, sib: D, layer: seq<D>, p: Entry<D>)
    requires |layer| % 2 == 0 && p == ParentEntry(node, e, sib)
    requires p.idx < |Up(node, layer)| && p.hash == Up(node, layer)[p.idx]
    requires CollisionFree(node, {Ordered(e, sib)}, LayerPairs(layer))
    ensures e.idx < |layer| && Sibling(e.idx) < |layer|
    ensures e.hash == layer[e.idx] && sib == layer[Sibling(e.idx)]
  {
    var i := e.idx / 2;
    var pair := (layer[2 * i], layer[2 * i + 1]);
    assert pair in LayerPairs(layer);
    assert Ordered(e, sib) in {Ordered(e, sib)};
    assert node(pair.0, pair.1) == p.hash;
  }

  /** One level of the tree, unfolded. */
  lemma TreeStep<D(!new)>(node: (D, D) -> D, layer: seq<D>, d: nat)
    requires Perfect(layer, d) && d > 0
    ensures |layer| % 2 == 0 && Perfect(Up(node, layer), d - 1)
    ensures Root(node, layer, d) == Root(node, Up(node, layer), d - 1)
    ensures TreePairs(node, layer, d) == LayerPairs(layer) + TreePairs(node, Up(node, layer), d - 1)
  {
  }

  lemma FeedStep<D(!new)>(node: (D, D) -> D, layer: seq<D>, d: nat, s: set<nat>)
    requires Perfect(layer, d) && d > 0 && |layer| % 2 == 0 && Perfect(Up(node, layer), d - 1)
    ensures HonestFeed(node, layer, s, d)
            == Missing(layer, s, 0) + HonestFeed(node, Up(node, layer), Halve(s), d - 1)
  {
  }

  /** One round of the walk, unfolded. */
  lemma PairsStep<D(!new)>(node: (D, D) -> D, level: seq<Entry<D>>, feed: seq<D>)
    requires level != [] && StrictlyAscending(level) && TopIdx(level) > 0
    requires Walk(node, level, feed).Some?
    ensures Climb(node, level, feed).Round?
    ensures var r := Climb(node, level, feed);
            && r.next != [] && StrictlyAscending(r.next)
            && BitLength(TopIdx(level)) == 1 + BitLength(TopIdx(r.next))
            && TopIdx(r.next) < TopIdx(level)
            && Walk(node, level, feed) == Walk(node, r.next, r.rest)
            && WalkPairs(node, level, feed) == RoundPairs(level, feed) + WalkPairs(node, r.next, r.rest)
  {
    WalkStep(node, level, feed);
  }

  lemma RootOnlyMatches<D(!new)>(node: (D, D) -> D, level: seq<Entry<D>>, feed: seq<D>, layer: seq<D>)
    requires level != [] && StrictlyAscending(level) && Perfect(layer, 0) && TopIdx(level) == 0
    requires Walk(node, level, feed).value.0 == Root(node, layer, 0)
    ensures Matches(level, layer)
    ensures feed == HonestFeed(node, layer, Keys(level), 0) + Walk(node, level, feed).value.1
  {
    OnlyZero(level);
    assert feed == [] + feed;
  }

  /** Walk and tree of equal height that end in the same root agree everywhere. */
  lemma {:induction false} WalkMatches<D(!new)>(node: (D, D) -> D, level: seq<Entry<D>>, feed: seq<D>, layer: seq<D>,
                                                d: nat)
    requires level != [] && StrictlyAscending(level) && Perfect(layer, d)
    requires BitLength(TopIdx(level)) == d
    requires Walk(node, level, feed).Some? && Walk(node, level, feed).value.0 == Root(node, layer, d)
    requires CollisionFree(node, WalkPairs(node, level, feed), TreePairs(node, layer, d))
    ensures Matches(level, layer)
    ensures feed == HonestFeed(node, layer, Keys(level), d) + Walk(node, level, feed).value.1
    decreases d
  {
    hide Walk, Climb, WalkPairs, RoundPairs, TreePairs, LayerPairs, HonestFeed, Missing;
    hide Root, Up, Perfect, BitLength, Keys, Halve, StrictlyAscending, Matches;
    BitLengthZero(TopIdx(level));
    if d == 0 {
      RootOnlyMatches(node, level, feed, layer);
    } else {
      var s := Keys(level);
      PairsStep(node, level, feed);
      TreeStep(node, layer, d);
      FeedStep(node, layer, d, s);
      var next, rest := Climb(node, level, feed).next, Climb(node, level, feed).rest;
      WalkMatches(node, next, rest, Up(node, layer), d - 1);
      AllFrom(level);
      ClimbMatches(node, level, feed, layer, s, 0);
      ClimbKeys(node, level, feed);
      var left := Walk(node, level, feed).value.1;
      var above := HonestFeed(node, Up(node, layer), Halve(s), d - 1);
      assert Missing(layer, s, 0) + (above + left) == (Missing(layer, s, 0) + above) + left;
    }
  }

  lemma AllFrom<D(!new)>(level: seq<Entry<D>>)
    requires StrictlyAscending(level)
    ensures Lists(level, Keys(level), 0)
  {
  }

  /** No hash of the set is also the hash of one of the pairs. */
  ghost predicate NotNodes<D(!new)>(node: (D, D) -> D, hashes: set<D>, pairs: set<(D, D)>) {
    forall h, p :: h in hashes && p in pairs ==> node(p.0, p.1) != h
  }

  ghost function EntryHashes<D(!new)>(level: seq<Entry<D>>): set<D> {
    set e | e in level :: e.hash
  }

  ghost function LayerHashes<D(!new)>(layer: seq<D>): set<D> {
    set h | h in layer
  }

  lemma {:induction false} AbovePairs<D(!new)>(node: (D, D) -> D, layer: seq<D>, d: nat, k: nat)
    requires Perfect(layer, d) && k <= d
    ensures TreePairs(node, Above(node, layer, d, k), d - k) <= TreePairs(node, layer, d)
    decreases k
  {
    hide TreePairs, Perfect, Up;
    if k > 0 {
      TreeStep(node, layer, d);
      AbovePairs(node, Up(node, layer), d - 1, k - 1);
    }
  }

  /** Every node above the leaves is the hash of a pair of the tree. */
  lemma {:induction false} AboveIsNode<D(!new)>(node: (D, D) -> D, layer: seq<D>, d: nat, k: nat, i: nat)
    requires Perfect(layer, d) && 0 < k <= d && i < |Above(node, layer, d, k)|
    ensures exists p :: p in TreePairs(node, layer, d) && node(p.0, p.1) == Above(node, layer, d, k)[i]
    decreases k
  {
    hide Up, Pow2, LayerPairs, TreePairs;
    TreeStep(node, layer, d);
    if k == 1 {
      assert Above(node, layer, d, 1) == Up(node, layer);
      UpIsNode(node, layer, i);
    } else {
      AboveIsNode(node, Up(node, layer), d - 1, k - 1, i);
    }
  }

  lemma UpIsNode<D(!new)>(node: (D, D) -> D, layer: seq<D>, i: nat)
    requires i < |Up(node, layer)|
    ensures exists p :: p in LayerPairs(layer) && node(p.0, p.1) == Up(node, layer)[i]
  {
    var p := (layer[2 * i], layer[2 * i + 1]);
    assert p in LayerPairs(layer) && node(p.0, p.1) == Up(node, layer)[i];
  }

  lemma NextIsNode<D(!new)>(node: (D, D) -> D, level: seq<Entry<D>>, feed: seq<D>)
    requires level != [] && Climb(node, level, feed).Round?
    ensures var next := Climb(node, level, feed).next;
            next != [] && exists p :: p in RoundPairs(level, feed) && node(p.0, p.1) == next[0].hash
  {
    var sib := if PairAhead(level) then level[1].hash else feed[0];
    var p := Ordered(level[0], sib);
    assert p in RoundPairs(level, feed);
    assert node(p.0, p.1) == Climb(node, level, feed).next[0].hash;
  }

  /** A walk shorter than the tree would make a supplied leaf an inner node of it. */
  lemma NotTooShort<D(!new)>(node: (D, D) -> D, level: seq<Entry<D>>, feed: seq<D>, layer: seq<D>, d: nat)
    requires level != [] && StrictlyAscending(level) && Perfect(layer, d)
    requires Walk(node, level, feed).Some? && Walk(node, level, feed).value.0 == Root(node, layer, d)
    requires CollisionFree(node, WalkPairs(node, level, feed), TreePairs(node, layer, d))
    requires NotNodes(node, EntryHashes(level), TreePairs(node, layer, d))
    ensures BitLength(TopIdx(level)) >= d
  {
    hide Walk, WalkPairs, Root, Perfect, BitLength, TreePairs, StrictlyAscending;
    var b := BitLength(TopIdx(level));
    if b < d {
      var upper := Above(node, layer, d, d - b);
      AbovePairs(node, layer, d, d - b);
      AboveKeepsRoot(node, layer, d, d - b);
      WalkMatches(node, level, feed, upper, b);
      assert level[0] in level && level[0].hash in EntryHashes(level);
      AboveIsNode(node, layer, d, d - b, level[0].idx);
    }
  }

  lemma MatchedHash<D(!new)>(level: seq<Entry<D>>, layer: seq<D>)
    requires level != [] && Matches(level, layer)
    ensures level[0].hash in LayerHashes(layer)
  {
    assert level[0].hash == layer[level[0].idx];
  }

  /** A walk taller than the tree would make a leaf of the tree a hashed pair. */
  lemma {:induction false} NotTooTall<D(!new)>(node: (D, D) -> D, level: seq<Entry<D>>, feed: seq<D>, layer: seq<D>,
                                               d: nat)
    requires level != [] && StrictlyAscending(level) && Perfect(layer, d)
    requires Walk(node, level, feed).Some? && Walk(node, level, feed).value.0 == Root(node, layer, d)
    requires CollisionFree(node, WalkPairs(node, level, feed), TreePairs(node, layer, d))
    requires NotNodes(node, LayerHashes(layer), WalkPairs(node, level, feed))
    ensures BitLength(TopIdx(level)) <= d
    decreases TopIdx(level)
  {
    hide Walk, WalkPairs, RoundPairs, Root, Perfect, BitLength, TreePairs, StrictlyAscending, Climb;
    BitLengthZero(TopIdx(level));
    if BitLength(TopIdx(level)) > d {
      PairsStep(node, level, feed);
      var next, rest := Climb(node, level, feed).next, Climb(node, level, feed).rest;
      NotTooTall(node, next, rest, layer, d);
      WalkMatches(node, next, rest, layer, d);
      NextIsNode(node, level, feed);
      MatchedHash(next, layer);
    }
  }

  /** What the walk over sorted `entries` hashes. */
  ghost function ProofPairs<D(!new)>(node: (D, D) -> D, entries: seq<Entry<D>>, feed: seq<D>): set<(D, D)>
    requires entries != [] && DistinctKeys(entries)
  {
    SortKeepsKeys(entries);
    SortAscends(entries);
    WalkPairs(node, SortByIdx(entries), feed)
  }

  /**
   * The proof and the tree together exhibit a broken hash: two different pairs with
   * one node hash, or a leaf hash, supplied or of the tree, that is also a node hash.
   */
  ghost predicate ExhibitsBreak<D(!new)>(node: (D, D) -> D, entries: seq<Entry<D>>, feed: seq<D>, layer: seq<D>, d: nat)
    requires entries != [] && DistinctKeys(entries) && Perfect(layer, d)
  {
    var proofPairs := ProofPairs(node, entries, feed);
    var treePairs := TreePairs(node, layer, d);
    || !CollisionFree(node, proofPairs, treePairs)
    || !NotNodes(node, EntryHashes(entries), treePairs)
    || !NotNodes(node, LayerHashes(layer), proofPairs)
  }

  /** Full depth, the tree's own leaves, and exactly the tree's missing siblings. */
  ghost predicate Honest<D(!new)>(node: (D, D) -> D, entries: seq<Entry<D>>, feed: seq<D>, layer: seq<D>, d: nat)
    requires entries != [] && Perfect(layer, d)
  {
    && BitLength(MaxIdx(entries)) == d
    && Matches(entries, layer)
    && feed == HonestFeed(node, layer, Keys(entries), d)
  }

  lemma EntryHashesOfSorted<D(!new)>(entries: seq<Entry<D>>)
    ensures EntryHashes(SortByIdx(entries)) == EntryHashes(entries)
  {
    SortKeepsMembers(entries);
  }

  lemma UnsortedMatches<D(!new)>(entries: seq<Entry<D>>, layer: seq<D>)
    requires Matches(SortByIdx(entries), layer)
    ensures Matches(entries, layer)
  {
    SortKeepsMembers(entries);
    var level := SortByIdx(entries);
    forall k | 0 <= k < |entries| ensures entries[k].idx < |layer| && entries[k].hash == layer[entries[k].idx] {
      assert entries[k] in level;
      var j :| 0 <= j < |level| && level[j] == entries[k];
    }
  }

  /**
   * Soundness, for any hash: a multiproof accepted against the root of a perfect
   * tree is honest, or it and the tree exhibit a break of the hash.
   */
  lemma AcceptedIsHonestOrBreaks<D(!new)>(node: (D, D) -> D, entries: seq<Entry<D>>, feed: seq<D>, layer: seq<D>,
                                          d: nat)
    requires Perfect(layer, d)
    requires Verdict(node, entries, feed, Root(node, layer, d)).Ok?
    ensures entries != [] && DistinctKeys(entries)
    ensures Honest(node, entries, feed, layer, d) || ExhibitsBreak(node, entries, feed, layer, d)
  {
    var level := SortByIdx(entries);
    VerdictIsWalk(node, entries, feed, Root(node, layer, d));
    if !ExhibitsBreak(node, entries, feed, layer, d) {
      KeysOfSorted(entries);
      TopOfSorted(entries);
      EntryHashesOfSorted(entries);
      hide Walk, WalkPairs, Root, Perfect, BitLength, TreePairs, StrictlyAscending, HonestFeed, Keys, Verdict;
      hide EntryHashes, LayerHashes, NotNodes, CollisionFree, SortByIdx;
      NotTooShort(node, level, feed, layer, d);
      NotTooTall(node, level, feed, layer, d);
      WalkMatches(node, level, feed, layer, d);
      UnsortedMatches(entries, layer);
      var honest := HonestFeed(node, layer, Keys(entries), d);
      assert honest + [] == honest;
    }
  }

  /** Where the hash is not broken, the honest multiproofs are the accepted ones. */
  lemma AcceptedIffHonest<D(!new)>(node: (D, D) -> D, entries: seq<Entry<D>>, feed: seq<D>, layer: seq<D>, d: nat)
    requires entries != [] && DistinctKeys(entries) && Perfect(layer, d)
    requires !ExhibitsBreak(node, entries, feed, layer, d)
    ensures Verdict(node, entries, feed, Root(node, layer, d)).Ok? <==> Honest(node, entries, feed, layer, d)
  {
    hide ExhibitsBreak, Verdict, Root;
    if Verdict(node, entries, feed, Root(node, layer, d)).Ok? {
      AcceptedIsHonestOrBreaks(node, entries, feed, layer, d);
    }
    if Honest(node, entries, feed, layer, d) {
      HonestAcceptedIffFullDepth(node, layer, d, entries);
    }
  }

  ghost predicate Injective<D(!new)>(node: (D, D) -> D) {
    forall p, q, r, s :: node(p, q) == node(r, s) ==> p == r && q == s
  }

  ghost predicate IsNode<D(!new)>(node: (D, D) -> D, h: D) {
    exists p, q :: node(p, q) == h
  }

  /**
   * With an injective node hash and leaf hashes set apart from node hashes, nothing is
   * accepted but honest leaves with the tree's own siblings, whatever hashes are supplied.
   */
  lemma SoundWhenInjective<D(!new)>(node: (D, D) -> D, entries: seq<Entry<D>>, feed: seq<D>, layer: seq<D>, d: nat)
    requires Injective(node) && Perfect(layer, d)
    requires forall e :: e in entries ==> !IsNode(node, e.hash)
    requires forall h :: h in layer ==> !IsNode(node, h)
    ensures Verdict(node, entries, feed, Root(node, layer, d)).Ok?
            <==> entries != [] && DistinctKeys(entries) && Honest(node, entries, feed, layer, d)
  {
    hide Verdict, Root, Honest, Perfect;
    if entries != [] && DistinctKeys(entries) {
      InjectiveNeverBreaks(node, entries, feed, layer, d);
      AcceptedIffHonest(node, entries, feed, layer, d);
    } else if Verdict(node, entries, feed, Root(node, layer, d)).Ok? {
      AcceptedIsHonestOrBreaks(node, entries, feed, layer, d);
    }
  }

  lemma InjectiveNeverBreaks<D(!new)>(node: (D, D) -> D, entries: seq<Entry<D>>, feed: seq<D>, layer: seq<D>, d: nat)
    requires entries != [] && DistinctKeys(entries) && Perfect(layer, d)
    requires Injective(node)
    requires forall e :: e in entries ==> !IsNode(node, e.hash)
    requires forall h :: h in layer ==> !IsNode(node, h)
    ensures !ExhibitsBreak(node, entries, feed, layer, d)
  {
    hide Perfect, DistinctKeys, TreePairs, ProofPairs;
    forall h, p | h in EntryHashes(entries) && p in TreePairs(node, layer, d) ensures node(p.0, p.1) != h {
      assert !IsNode(node, h);
    }
    forall h, p | h in LayerHashes(layer) && p in ProofPairs(node, entries, feed) ensures node(p.0, p.1) != h {
      assert !IsNode(node, h);
    }
  }

  /** The free hash: a leaf is its bytes, a node its two children. */
  datatype Term = LeafTerm(bytes: seq<int>) | NodeTerm(left: Term, right: Term)

  function JoinTerms(left: Term, right: Term): Term {
    NodeTerm(left, right)
  }

  /** There are such hashes: terms meet every assumption. */
  lemma TermsAreSound(entries: seq<Entry<Term>>, feed: seq<Term>, layer: seq<Term>, d: nat)
    requires Perfect(layer, d)
    requires forall e :: e in entries ==> e.hash.LeafTerm?
    requires forall h :: h in layer ==> h.LeafTerm?
    ensures Verdict(JoinTerms, entries, feed, Root(JoinTerms, layer, d)).Ok?
            <==> entries != [] && DistinctKeys(entries) && Honest(JoinTerms, entries, feed, layer, d)
  {
    hide Verdict, Root, Honest, Perfect, DistinctKeys;
    SoundWhenInjective(JoinTerms, entries, feed, layer, d);
  }
}
