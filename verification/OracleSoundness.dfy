/**
 * What a verdict of the oracle says about the published data, and how v3 relates to v2.
 *
 * Assumptions on the hash are never global. A theorem either holds for any hash or
 * says "unless the values hashed here exhibit a break", which is spelled out.
 */
module OracleSoundness {
  import opened Wrappers
  import opened Numbers
  import opened Borsh
  import opened Merkle
  import opened Multiproof
  import opened MultiproofCompleteness
  import opened MultiproofPaths
  import opened MultiproofSoundness
  import opened Strategy
  import opened OracleErrors
  import opened Oracle

  // --- days -----------------------------------------------------------------------------

  /** The day of a time in milliseconds, counted from the epoch, kept to 16 bits. */
  ghost predicate FallsOn(ts: int, day: nat) {
    exists wraps: int :: OnDay(ts, day + 65_536 * wraps)
  }

  ghost predicate OnDay(ts: int, day: int) {
    day * 86_400_000 <= ts < (day + 1) * 86_400_000
  }

  lemma DayIff(ts: i64, day: u16)
    ensures EpochDayOf(ts) == day <==> FallsOn(ts, day)
  {
    var full := ts / 86_400_000;
    assert OnDay(ts, full);
    if EpochDayOf(ts) == day {
      assert OnDay(ts, day + 65_536 * (full / 65_536));
    }
    if FallsOn(ts, day) {
      var wraps :| OnDay(ts, day + 65_536 * wraps);
      OneDay(ts, full, day + 65_536 * wraps);
    }
  }

  lemma OneDay(ts: int, a: int, b: int)
    requires OnDay(ts, a) && OnDay(ts, b)
    ensures a == b
  {
  }

  /** Until the count of days wraps, a time falls on a day exactly if it lies in its 24 hours. */
  lemma DayIsItsHours(ts: i64, day: u16)
    requires 0 <= ts < 65_536 * 86_400_000
    ensures EpochDayOf(ts) == day <==> day * 86_400_000 <= ts < (day + 1) * 86_400_000
  {
    DayIff(ts, day);
    if FallsOn(ts, day) {
      var wraps :| OnDay(ts, day + 65_536 * wraps);
      assert wraps == 0;
    }
    if day * 86_400_000 <= ts < (day + 1) * 86_400_000 {
      assert OnDay(ts, day + 65_536 * 0);
    }
  }

  lemma MultiproofKnowsNoDay<D>(node: (D, D) -> D, entries: seq<Entry<D>>, feed: seq<D>, root: D)
    ensures Verdict(node, entries, feed, root) != Err(WrongDailyRoot)
  {
  }

  /** v2 refuses a payload for its day exactly if the account is of another day, and answers exactly if all proves. */
  lemma V2Answers<D>(h: HashScheme<D>, roots: DailyRoots<D>, p: InputV2<D>, strategy: NDimensionalStrategy)
    ensures VerdictV2(h, roots, p, strategy) == Err(WrongDailyRoot) <==> !FallsOn(p.batch.ts, roots.epochDay)
    ensures VerdictV2(h, roots, p, strategy).Ok? <==>
              && FallsOn(p.batch.ts, roots.epochDay)
              && p.batch.eventStatRoot == p.batch.fixtureSummary.eventsSubTreeRoot
              && (forall leaf :: leaf in p.stats ==> LeafProves(h, leaf, p.batch.eventStatRoot))
              && BatchProves(h, roots.root, p.batch) && Evaluation(StatValues(p.stats), strategy).Ok?
  {
    DayIff(p.batch.ts, roots.epochDay);
    EvaluationRefusals(StatValues(p.stats), strategy);
    hide FallsOn, EpochDayOf, Evaluation, LeafProves, BatchProves;
  }

  lemma V3Answers<D>(h: HashScheme<D>, roots: DailyRoots<D>, p: InputV3<D>, strategy: NDimensionalStrategy)
    ensures VerdictV3(h, roots, p, strategy) == Err(WrongDailyRoot) <==> !FallsOn(p.batch.ts, roots.epochDay)
    ensures VerdictV3(h, roots, p, strategy).Ok? <==>
              && FallsOn(p.batch.ts, roots.epochDay)
              && p.batch.eventStatRoot == p.batch.fixtureSummary.eventsSubTreeRoot
              && |p.leaves| == |p.leafIndices|
              && Verdict(h.node, Zip(p.leafIndices, LeafHashes(h, p.leaves)), Hashes(p.multiproofHashes),
                         p.batch.eventStatRoot).Ok?
              && BatchProves(h, roots.root, p.batch) && Evaluation(StatValues(p.leaves), strategy).Ok?
  {
    DayIff(p.batch.ts, roots.epochDay);
    EvaluationRefusals(StatValues(p.leaves), strategy);
    if |p.leaves| == |p.leafIndices| {
      MultiproofKnowsNoDay(h.node, Zip(p.leafIndices, LeafHashes(h, p.leaves)), Hashes(p.multiproofHashes),
                           p.batch.eventStatRoot);
    }
    hide FallsOn, EpochDayOf, Evaluation, Verdict, BatchProves, LeafHashes;
  }

  /** The checks of the two handlers, as they make them; those of v3 come before the walk. */
  ghost function V2Checks<D>(h: HashScheme<D>, roots: DailyRoots<D>, p: InputV2<D>): seq<Check<Error>> {
    [Check(!FallsOn(p.batch.ts, roots.epochDay), WrongDailyRoot),
     Check(p.batch.eventStatRoot != p.batch.fixtureSummary.eventsSubTreeRoot, StatNotInFixture),
     Check(exists leaf :: leaf in p.stats && !LeafProves(h, leaf, p.batch.eventStatRoot), StatProofMismatch),
     Check(!BatchProves(h, roots.root, p.batch), MerkleRootMismatch)]
  }

  ghost function V3Checks<D>(roots: DailyRoots<D>, p: InputV3<D>): seq<Check<Error>> {
    [Check(!FallsOn(p.batch.ts, roots.epochDay), WrongDailyRoot),
     Check(p.batch.eventStatRoot != p.batch.fixtureSummary.eventsSubTreeRoot, StatNotInFixture),
     Check(|p.leaves| != |p.leafIndices|, MissingStat)]
  }

  /** The first failing check answers; without one the strategy does. */
  lemma V2InOrder<D>(h: HashScheme<D>, roots: DailyRoots<D>, p: InputV2<D>, strategy: NDimensionalStrategy)
    ensures VerdictV2(h, roots, p, strategy)
            == match FirstFailure(V2Checks(h, roots, p))
               case Some(e) => Err(e)
               case None => Evaluation(StatValues(p.stats), strategy)
  {
    DayIff(p.batch.ts, roots.epochDay);
    FirstOfSeven(V2Checks(h, roots, p));
    hide FallsOn, EpochDayOf, Evaluation, LeafProves, BatchProves, FirstFailure;
  }

  lemma V3InOrder<D>(h: HashScheme<D>, roots: DailyRoots<D>, p: InputV3<D>, strategy: NDimensionalStrategy)
    ensures FirstFailure(V3Checks(roots, p)).Some? ==>
              VerdictV3(h, roots, p, strategy) == Err(FirstFailure(V3Checks(roots, p)).value)
    ensures FirstFailure(V3Checks(roots, p)).None? && |p.leaves| == |p.leafIndices| ==>
              VerdictV3(h, roots, p, strategy)
              == match Verdict(h.node, Zip(p.leafIndices, LeafHashes(h, p.leaves)), Hashes(p.multiproofHashes),
                               p.batch.eventStatRoot)
                 case Err(e) => Err(e)
                 case Ok(_) =>
                   if BatchProves(h, roots.root, p.batch) then Evaluation(StatValues(p.leaves), strategy)
                   else Err(MerkleRootMismatch)
  {
    DayIff(p.batch.ts, roots.epochDay);
    FirstOfSeven(V3Checks(roots, p));
    hide FallsOn, EpochDayOf, Evaluation, Verdict, BatchProves, LeafHashes, FirstFailure;
  }

  // --- v3 refines v2 --------------------------------------------------------------------

  /** The same stats, each with its own sibling path. */
  ghost predicate SameStats<D(!new)>(a: seq<StatLeaf<D>>, b: seq<StatLeaf<D>>) {
    |a| == |b| && forall i :: 0 <= i < |a| ==> a[i].stat == b[i].stat
  }

  /** The sibling path the multiproof stands for, at one of its leaves. */
  lemma PathForLeaf<D(!new)>(h: HashScheme<D>, entries: seq<Entry<D>>, feed: seq<D>, root: D, leaf: StatLeaf<D>)
    returns (proven: StatLeaf<D>)
    requires Verdict(h.node, entries, feed, root).Ok?
    requires StatHash(h, leaf.stat) in EntryHashes(entries)
    ensures proven.stat == leaf.stat && LeafProves(h, proven, root)
  {
    hide Verdict;
    var e :| e in entries && e.hash == StatHash(h, leaf.stat);
    AcceptedLeafHasPath(h.node, entries, feed, root, e);
    var path :| |path| == BitLength(MaxIdx(entries)) && Follows(path, e.idx) && Fold(h.node, e.hash, path) == root;
    proven := StatLeaf(leaf.stat, path);
  }

  lemma {:induction false} PathsForLeaves<D(!new)>(h: HashScheme<D>, entries: seq<Entry<D>>, feed: seq<D>, root: D,
                                                   leaves: seq<StatLeaf<D>>)
    returns (proven: seq<StatLeaf<D>>)
    requires Verdict(h.node, entries, feed, root).Ok?
    requires forall i :: 0 <= i < |leaves| ==> StatHash(h, leaves[i].stat) in EntryHashes(entries)
    ensures SameStats(leaves, proven)
    ensures forall i :: 0 <= i < |proven| ==> LeafProves(h, proven[i], root)
  {
    hide Verdict, EntryHashes, LeafProves, StatHash;
    if leaves == [] {
      proven := [];
    } else {
      var n := |leaves| - 1;
      var init := PathsForLeaves(h, entries, feed, root, leaves[..n]);
      var last := PathForLeaf(h, entries, feed, root, leaves[n]);
      proven := init + [last];
    }
  }

  /**
   * For any hash: whatever v3 decides about a payload, v2 decides too about the same
   * stats, given the sibling paths that the multiproof stands for.
   */
  lemma V3RefinesV2<D(!new)>(h: HashScheme<D>, roots: DailyRoots<D>, p: InputV3<D>, strategy: NDimensionalStrategy)
    requires VerdictV3(h, roots, p, strategy).Ok?
    ensures exists stats :: SameStats(p.leaves, stats)
              && VerdictV2(h, roots, InputV2(p.batch, stats), strategy) == VerdictV3(h, roots, p, strategy)
  {
    var entries := Zip(p.leafIndices, LeafHashes(h, p.leaves));
    forall i | 0 <= i < |p.leaves| ensures StatHash(h, p.leaves[i].stat) in EntryHashes(entries) {
      assert entries[i] in entries;
    }
    var stats := PathsForLeaves(h, entries, Hashes(p.multiproofHashes), p.batch.eventStatRoot, p.leaves);
    assert StatValues(stats) == StatValues(p.leaves);
  }

  // --- the daily tree -----------------------------------------------------------------------

  /** The published tree of a day; any shape. */
  datatype DailyTree<D> = Published(summary: BatchSummary<D>) | Branch(left: DailyTree<D>, right: DailyTree<D>)

  function TreeHash<D>(h: HashScheme<D>, t: DailyTree<D>): D {
    match t
    case Published(s) => SummaryHash(h, s)
    case Branch(l, r) => h.node(TreeHash(h, l), TreeHash(h, r))
  }

  ghost function SummariesIn<D(!new)>(t: DailyTree<D>): set<BatchSummary<D>> {
    match t
    case Published(s) => {s}
    case Branch(l, r) => SummariesIn(l) + SummariesIn(r)
  }

  ghost function BranchPairs<D(!new)>(h: HashScheme<D>, t: DailyTree<D>): set<(D, D)> {
    match t
    case Published(_) => {}
    case Branch(l, r) => {(TreeHash(h, l), TreeHash(h, r))} + BranchPairs(h, l) + BranchPairs(h, r)
  }

  /** The pairs hashed along a path. */
  ghost function PathPairs<D(!new)>(node: (D, D) -> D, start: D, path: seq<ProofNode<D>>): set<(D, D)>
    decreases |path|
  {
    if path == [] then {}
    else
      var n := |path| - 1;
      var below := Fold(node, start, path[..n]);
      PathPairs(node, start, path[..n])
      + {if path[n].isRightSibling then (below, path[n].hash) else (path[n].hash, below)}
  }

  /** The summary hashes of a tree. */
  ghost function SummaryHashes<D(!new)>(h: HashScheme<D>, t: DailyTree<D>): set<D> {
    set s | s in SummariesIn(t) :: SummaryHash(h, s)
  }

  lemma TopOfTree<D(!new)>(h: HashScheme<D>, t: DailyTree<D>)
    ensures t.Branch? ==> (TreeHash(h, t.left), TreeHash(h, t.right)) in BranchPairs(h, t)
    ensures t.Published? ==> TreeHash(h, t) in SummaryHashes(h, t)
  {
    if t.Published? {
      assert t.summary in SummariesIn(t);
    }
  }

  /** The last pair hashed along a path, and what lies below it. */
  ghost function LastPair<D>(node: (D, D) -> D, start: D, path: seq<ProofNode<D>>): (D, D)
    requires path != []
  {
    var n := |path| - 1;
    var below := Fold(node, start, path[..n]);
    if path[n].isRightSibling then (below, path[n].hash) else (path[n].hash, below)
  }

  lemma LastStep<D(!new)>(node: (D, D) -> D, start: D, path: seq<ProofNode<D>>)
    requires path != []
    ensures var pair := LastPair(node, start, path);
            && pair in PathPairs(node, start, path)
            && PathPairs(node, start, path[..|path| - 1]) <= PathPairs(node, start, path)
            && Fold(node, start, path) == node(pair.0, pair.1)
  {
    var n := |path| - 1;
    assert path == path[..n] + [path[n]];
    FoldSnoc(node, start, path[..n], path[n]);
  }

  lemma SubTree<D(!new)>(h: HashScheme<D>, t: DailyTree<D>)
    requires t.Branch?
    ensures BranchPairs(h, t.left) <= BranchPairs(h, t) && BranchPairs(h, t.right) <= BranchPairs(h, t)
    ensures SummaryHashes(h, t.left) <= SummaryHashes(h, t) && SummaryHashes(h, t.right) <= SummaryHashes(h, t)
  {
  }

  /** A path into the tree's root starts at one of its leaves, or the hash breaks. */
  lemma {:induction false} FoldReachesLeaf<D(!new)>(h: HashScheme<D>, start: D, path: seq<ProofNode<D>>,
                                                    t: DailyTree<D>)
    requires Fold(h.node, start, path) == TreeHash(h, t)
    requires CollisionFree(h.node, PathPairs(h.node, start, path), BranchPairs(h, t))
    requires NotNodes(h.node, {start}, BranchPairs(h, t))
    requires NotNodes(h.node, SummaryHashes(h, t), PathPairs(h.node, start, path))
    ensures start in SummaryHashes(h, t)
    decreases |path|
  {
    TopOfTree(h, t);
    assert start in {start};
    if path != [] {
      LastStep(h.node, start, path);
      hide Fold, PathPairs, BranchPairs, SummaryHashes;
      if t.Branch? {
        SubTree(h, t);
        var right := path[|path| - 1].isRightSibling;
        FoldReachesLeaf(h, start, path[..|path| - 1], if right then t.left else t.right);
      }
    }
  }

  lemma {:induction false} FoldConcat<D>(node: (D, D) -> D, start: D, a: seq<ProofNode<D>>, b: seq<ProofNode<D>>)
    ensures Fold(node, start, a + b) == Fold(node, Fold(node, start, a), b)
    decreases |b|
  {
    if b == [] {
      assert a + b == a;
    } else {
      var n := |b| - 1;
      FoldConcat(node, start, a, b[..n]);
      assert a + b == (a + b[..n]) + [b[n]] && b == b[..n] + [b[n]];
      FoldSnoc(node, start, a + b[..n], b[n]);
      FoldSnoc(node, Fold(node, start, a), b[..n], b[n]);
    }
  }
}
