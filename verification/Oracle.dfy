/**
 * The oracle's two entry points, `validate_stat_v2` (a sibling path per stat) and
 * `validate_stat_v3` (one shared multiproof), over an arbitrary hash.
 */
module Oracle {
  import opened Wrappers
  import opened Numbers
  import opened Borsh
  import opened Merkle
  import opened Multiproof
  import opened Strategy
  import opened OracleErrors

  /** Domain-separated leaf and node hashes, and the bytes of a digest. */
  datatype HashScheme<!D> = HashScheme(leaf: Bytes -> D, node: (D, D) -> D, digest: D -> Bytes)

  datatype StatLeaf<D> = StatLeaf(stat: ScoreStat, statProof: seq<ProofNode<D>>)

  /** The part of a payload that leads from the event root up to the daily root. */
  datatype Batch<D> = Batch(
    ts: i64, fixtureSummary: BatchSummary<D>, fixtureProof: seq<ProofNode<D>>,
    mainTreeProof: seq<ProofNode<D>>, eventStatRoot: D)

  datatype InputV2<D> = InputV2(batch: Batch<D>, stats: seq<StatLeaf<D>>)
  datatype InputV3<D> = InputV3(
    batch: Batch<D>, leaves: seq<StatLeaf<D>>, multiproofHashes: seq<ProofNode<D>>, leafIndices: seq<u32>)

  /** The published account: a day and the root of its tree. */
  datatype DailyRoots<D> = DailyRoots(epochDay: u16, root: D)

  const MS_PER_DAY := 86_400_000

  /** `ts.div_euclid(MS_PER_DAY) as u16`: floor, then truncation to 16 bits. */
  function EpochDayOf(ts: i64): u16 {
    (ts / MS_PER_DAY) % 0x1_0000
  }

  function StatHash<D>(h: HashScheme<D>, s: ScoreStat): D {
    h.leaf(EncodeStat(s))
  }

  function SummaryHash<D>(h: HashScheme<D>, s: BatchSummary<D>): D {
    h.leaf(EncodeSummary(h.digest, s))
  }

  function StatValues<D>(leaves: seq<StatLeaf<D>>): (r: seq<i32>)
    ensures |r| == |leaves| && forall i :: 0 <= i < |leaves| ==> r[i] == leaves[i].stat.value
  {
    seq(|leaves|, i requires 0 <= i < |leaves| => leaves[i].stat.value)
  }

  function LeafHashes<D>(h: HashScheme<D>, leaves: seq<StatLeaf<D>>): (r: seq<D>)
    ensures |r| == |leaves| && forall i :: 0 <= i < |leaves| ==> r[i] == StatHash(h, leaves[i].stat)
  {
    seq(|leaves|, i requires 0 <= i < |leaves| => StatHash(h, leaves[i].stat))
  }

  predicate BatchProves<D(==)>(h: HashScheme<D>, root: D, b: Batch<D>) {
    Fold(h.node, Fold(h.node, SummaryHash(h, b.fixtureSummary), b.fixtureProof), b.mainTreeProof) == root
  }

  predicate LeafProves<D(==)>(h: HashScheme<D>, leaf: StatLeaf<D>, root: D) {
    Fold(h.node, StatHash(h, leaf.stat), leaf.statProof) == root
  }

  /** What `validate_stat_v2` answers. */
  function VerdictV2<D(==)>(h: HashScheme<D>, roots: DailyRoots<D>, p: InputV2<D>, strategy: NDimensionalStrategy)
    : Result<bool, Error>
  {
    if roots.epochDay != EpochDayOf(p.batch.ts) then Err(WrongDailyRoot)
    else if p.batch.eventStatRoot != p.batch.fixtureSummary.eventsSubTreeRoot then Err(StatNotInFixture)
    else if exists i :: 0 <= i < |p.stats| && !LeafProves(h, p.stats[i], p.batch.eventStatRoot)
    then Err(StatProofMismatch)
    else if !BatchProves(h, roots.root, p.batch) then Err(MerkleRootMismatch)
    else Evaluation(StatValues(p.stats), strategy)
  }

  /** What `validate_stat_v3` answers. */
  function VerdictV3<D(==)>(h: HashScheme<D>, roots: DailyRoots<D>, p: InputV3<D>, strategy: NDimensionalStrategy)
    : Result<bool, Error>
  {
    if roots.epochDay != EpochDayOf(p.batch.ts) then Err(WrongDailyRoot)
    else if p.batch.eventStatRoot != p.batch.fixtureSummary.eventsSubTreeRoot then Err(StatNotInFixture)
    else if |p.leaves| != |p.leafIndices| then Err(MissingStat)
    else
      match Verdict(h.node, Zip(p.leafIndices, LeafHashes(h, p.leaves)), Hashes(p.multiproofHashes),
                    p.batch.eventStatRoot)
      case Err(e) => Err(e)
      case Ok(_) =>
        if !BatchProves(h, roots.root, p.batch) then Err(MerkleRootMismatch)
        else Evaluation(StatValues(p.leaves), strategy)
  }

  method VerifyBatch<D(==)>(h: HashScheme<D>, root: D, b: Batch<D>) returns (ok: bool)
    ensures ok == BatchProves(h, root, b)
  {
    var subRoot := FoldProof(h.node, SummaryHash(h, b.fixtureSummary), b.fixtureProof);
    var computed := FoldProof(h.node, subRoot, b.mainTreeProof);
    return computed == root;
  }

  method ValidateStatV2<D(==)>(h: HashScheme<D>, roots: DailyRoots<D>, p: InputV2<D>, strategy: NDimensionalStrategy)
    returns (r: Result<bool, Error>)
    ensures r == VerdictV2(h, roots, p, strategy)
  {
    if roots.epochDay != EpochDayOf(p.batch.ts) {
      return Err(WrongDailyRoot);
    }
    if p.batch.eventStatRoot != p.batch.fixtureSummary.eventsSubTreeRoot {
      return Err(StatNotInFixture);
    }
    for i := 0 to |p.stats|
      invariant forall j :: 0 <= j < i ==> LeafProves(h, p.stats[j], p.batch.eventStatRoot)
    {
      var computed := FoldProof(h.node, StatHash(h, p.stats[i].stat), p.stats[i].statProof);
      if computed != p.batch.eventStatRoot {
        return Err(StatProofMismatch);
      }
    }
    var proven := VerifyBatch(h, roots.root, p.batch);
    if !proven {
      return Err(MerkleRootMismatch);
    }
    r := EvaluateStrategy(StatValues(p.stats), strategy);
  }

  method ValidateStatV3<D(==)>(h: HashScheme<D>, roots: DailyRoots<D>, p: InputV3<D>, strategy: NDimensionalStrategy)
    returns (r: Result<bool, Error>)
    ensures r == VerdictV3(h, roots, p, strategy)
  {
    if roots.epochDay != EpochDayOf(p.batch.ts) {
      return Err(WrongDailyRoot);
    }
    if p.batch.eventStatRoot != p.batch.fixtureSummary.eventsSubTreeRoot {
      return Err(StatNotInFixture);
    }
    if |p.leaves| != |p.leafIndices| {
      return Err(MissingStat);
    }
    var checked, _ := VerifyMultiproof(h.node, LeafHashes(h, p.leaves), p.leafIndices, p.multiproofHashes,
                                       p.batch.eventStatRoot);
    if checked.Err? {
      return Err(checked.error);
    }
    var proven := VerifyBatch(h, roots.root, p.batch);
    if !proven {
      return Err(MerkleRootMismatch);
    }
    r := EvaluateStrategy(StatValues(p.leaves), strategy);
  }
}
