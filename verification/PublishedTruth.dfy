/**
 * Only the truth settles: a verdict, through either path, is that of the published
 * values, and no two outcomes of a shipped market can both be verified.
 */
module PublishedTruth {
  import opened Wrappers
  import opened Numbers
  import opened Borsh
  import opened Merkle
  import opened Multiproof
  import opened MultiproofCompleteness
  import opened MultiproofPaths
  import opened MultiproofSoundness
  import opened Strategy
  import opened Coverage
  import opened Catalogue
  import opened Oracle
  import opened OracleSoundness
  import opened PathSoundness
  import opened Settlement

  // --- published data -------------------------------------------------------------------------

  /** The stats of one batch of events, the leaves of its perfect tree. */
  datatype EventTree = EventTree(stats: seq<ScoreStat>, depth: nat)

  /** Everything ever published: the root accounts by day, the trees under them, and each batch's events. */
  datatype World<!D> = World(h: HashScheme<D>, published: map<u16, D>, days: map<u16, DailyTree<D>>,
                             events: BatchSummary<D> -> EventTree)

  function StatLayer<D>(h: HashScheme<D>, stats: seq<ScoreStat>): (r: seq<D>)
    ensures |r| == |stats| && forall i :: 0 <= i < |stats| ==> r[i] == StatHash(h, stats[i])
  {
    seq(|stats|, i requires 0 <= i < |stats| => StatHash(h, stats[i]))
  }

  /** The stats published under the batch a proof refers to. */
  function StatsOf<D>(w: World<D>, b: Batch<D>): seq<ScoreStat> {
    w.events(b.fixtureSummary).stats
  }

  /** A summary carries the root of its own batch of events. */
  ghost predicate CarriesEvents<D(!new)>(w: World<D>, s: BatchSummary<D>) {
    var e := w.events(s);
    |e.stats| == Pow2(e.depth) && s.eventsSubTreeRoot == Root(w.h.node, StatLayer(w.h, e.stats), e.depth)
  }

  /** Every day's account is the root of the day's tree; the fixture may have many batches in it. */
  ghost predicate Public<D(!new)>(w: World<D>, fixtureId: i64) {
    forall day :: day in w.published ==>
      && day in w.days && w.published[day] == TreeHash(w.h, w.days[day])
      && forall s :: s in SummariesIn(w.days[day]) && s.fixtureId == fixtureId ==> CarriesEvents(w, s)
  }

  /** The hash breaks on the way from the summary to the daily root. */
  ghost predicate BatchBreaks<D(!new)>(w: World<D>, b: Batch<D>) {
    var day := EpochDayOf(b.ts);
    day in w.days
    && var start, t := SummaryHash(w.h, b.fixtureSummary), w.days[day];
       var pairs := PathPairs(w.h.node, start, b.fixtureProof + b.mainTreeProof);
       || !CollisionFree(w.h.node, pairs, BranchPairs(w.h, t))
       || !NotNodes(w.h.node, {start}, BranchPairs(w.h, t))
       || !NotNodes(w.h.node, SummaryHashes(w.h, t), pairs)
       || exists s :: s in SummariesIn(t) && s != b.fixtureSummary && SummaryHash(w.h, s) == start
  }

  /** The batch is among those published for this fixture on its day. */
  ghost predicate IsPublished<D(!new)>(w: World<D>, fixtureId: i64, b: Batch<D>) {
    var day := EpochDayOf(b.ts);
    && b.fixtureSummary.fixtureId == fixtureId
    && day in w.published && day in w.days && b.fixtureSummary in SummariesIn(w.days[day])
  }

  /** A proven batch is one of those published, and carries its events. */
  lemma BatchIsPublic<D(!new)>(w: World<D>, fixtureId: i64, b: Batch<D>)
    requires Public(w, fixtureId) && b.fixtureSummary.fixtureId == fixtureId && !BatchBreaks(w, b)
    requires EpochDayOf(b.ts) in w.published && BatchProves(w.h, w.published[EpochDayOf(b.ts)], b)
    ensures IsPublished(w, fixtureId, b) && CarriesEvents(w, b.fixtureSummary)
  {
    hide CarriesEvents;
    var start, t := SummaryHash(w.h, b.fixtureSummary), w.days[EpochDayOf(b.ts)];
    FoldConcat(w.h.node, start, b.fixtureProof, b.mainTreeProof);
    FoldReachesLeaf(w.h, start, b.fixtureProof + b.mainTreeProof, t);
    var s :| s in SummariesIn(t) && SummaryHash(w.h, s) == start;
  }

  // --- compound markets, settled through v3 ------------------------------------------------------

  /** The hash breaks among the stats: in the trees, or two stats with one hash. */
  ghost predicate StatsBreak<D(!new)>(h: HashScheme<D>, leaves: seq<StatLeaf<D>>, indices: seq<u32>,
                                      feed: seq<D>, stats: seq<ScoreStat>, d: nat)
    requires |leaves| == |indices| && |stats| == Pow2(d)
    requires leaves != [] && DistinctKeys(Zip(indices, LeafHashes(h, leaves)))
  {
    || ExhibitsBreak(h.node, Zip(indices, LeafHashes(h, leaves)), feed, StatLayer(h, stats), d)
    || exists i, j :: 0 <= i < |leaves| && 0 <= j < |stats| && leaves[i].stat != stats[j]
                      && StatHash(h, leaves[i].stat) == StatHash(h, stats[j])
  }

  lemma StatsArePublished<D(!new)>(h: HashScheme<D>, leaves: seq<StatLeaf<D>>, indices: seq<u32>, feed: seq<D>,
                                   stats: seq<ScoreStat>, d: nat)
    requires |leaves| == |indices| && |stats| == Pow2(d)
    requires Verdict(h.node, Zip(indices, LeafHashes(h, leaves)), feed, Root(h.node, StatLayer(h, stats), d)).Ok?
    requires leaves != [] && DistinctKeys(Zip(indices, LeafHashes(h, leaves)))
    requires !StatsBreak(h, leaves, indices, feed, stats, d)
    ensures forall i :: 0 <= i < |leaves| ==> indices[i] < |stats| && leaves[i].stat == stats[indices[i]]
  {
    var entries := Zip(indices, LeafHashes(h, leaves));
    var layer := StatLayer(h, stats);
    AcceptedIsHonestOrBreaks(h.node, entries, feed, layer, d);
    forall i | 0 <= i < |leaves| ensures indices[i] < |stats| && leaves[i].stat == stats[indices[i]] {
      assert entries[i].idx == indices[i] && entries[i].hash == layer[indices[i]];
    }
  }

  /** The hash breaks somewhere between the claimed values and the published day. */
  ghost predicate ProofBreaks<D(!new)>(w: World<D>, legs: seq<StatLeg>, proof: SettlementProofV3<D>) {
    || BatchBreaks(w, proof.batch)
    || (&& |proof.leafValues| == |legs| == |proof.leafIndices|
        && var leaves, e := LeavesFor(legs, proof.leafValues), w.events(proof.batch.fixtureSummary);
           && leaves != [] && DistinctKeys(Zip(proof.leafIndices, LeafHashes(w.h, leaves)))
           && |e.stats| == Pow2(e.depth)
           && StatsBreak(w.h, leaves, proof.leafIndices, Hashes(proof.multiproofHashes), e.stats, e.depth))
  }

  /** Every leg's claimed value is the published value of that stat, at the claimed index. */
  ghost predicate CarriesPublished<D(!new)>(legs: seq<StatLeg>, proof: SettlementProofV3<D>, stats: seq<ScoreStat>) {
    && |proof.leafValues| == |legs| == |proof.leafIndices|
    && forall i :: 0 <= i < |legs| ==>
         proof.leafIndices[i] < |stats|
         && stats[proof.leafIndices[i]] == ScoreStat(legs[i].key, proof.leafValues[i], legs[i].period)
  }

  /** The predicates read every leg once and hold of the values. */
  ghost predicate OutcomeHolds(legs: seq<StatLeg>, predicates: seq<WirePredicate>, values: seq<i32>) {
    |values| == |legs| && ExactCover(RefsOf(predicates), |legs|) && AllHold(predicates, values)
  }

  /** A proof of the fixture's own published values, of which the compound outcome holds. */
  ghost predicate CompoundProof<D(!new)>(w: World<D>, fixtureId: i64, legs: seq<StatLeg>,
                                         predicates: seq<WirePredicate>, proof: SettlementProofV3<D>)
  {
    && IsPublished(w, fixtureId, proof.batch) && CarriesPublished(legs, proof, StatsOf(w, proof.batch))
    && OutcomeHolds(legs, predicates, proof.leafValues)
  }

  /** What a verdict of v3 rests on. */
  lemma VerdictUnfolds<D(!new)>(w: World<D>, fixtureId: i64, legs: seq<StatLeg>, predicates: seq<WirePredicate>,
                                proof: SettlementProofV3<D>, verdict: bool)
    requires BuildAndVerify(w.h, w.published, fixtureId, legs, predicates, proof) == Ok(verdict)
    ensures var b, day := proof.batch, EpochDayOf(proof.batch.ts);
            && b.fixtureSummary.fixtureId == fixtureId && day in w.published && BatchProves(w.h, w.published[day], b)
            && |proof.leafValues| == |legs| == |proof.leafIndices|
            && Verdict(w.h.node, Zip(proof.leafIndices, LeafHashes(w.h, LeavesFor(legs, proof.leafValues))),
                       Hashes(proof.multiproofHashes), b.fixtureSummary.eventsSubTreeRoot).Ok?
            && Evaluation(proof.leafValues, StrategyFor(predicates)) == Ok(verdict)
  {
    hide Verdict, BatchProves, Evaluation, EpochDayOf;
  }

  /** Entries of an accepted proof are there and distinct. */
  lemma AcceptedEntries<D(!new)>(node: (D, D) -> D, entries: seq<Entry<D>>, feed: seq<D>, root: D)
    requires Verdict(node, entries, feed, root).Ok?
    ensures entries != [] && DistinctKeys(entries)
  {
  }

  lemma EvaluationUnfolds(legs: seq<StatLeg>, predicates: seq<WirePredicate>, values: seq<i32>, verdict: bool)
    requires Evaluation(values, StrategyFor(predicates)) == Ok(verdict) && |values| == |legs|
    ensures verdict <==> OutcomeHolds(legs, predicates, values)
  {
    RefsOfStrategy(predicates);
    CoverageIffExact(RefsOf(predicates), |legs|);
    hide AllHold, ExactCover, RefsOf;
  }

  /** An accepted multiproof under a published batch carries its stats. */
  lemma LegsArePublished<D(!new)>(w: World<D>, legs: seq<StatLeg>, proof: SettlementProofV3<D>)
    requires CarriesEvents(w, proof.batch.fixtureSummary) && !ProofBreaks(w, legs, proof)
    requires |proof.leafValues| == |legs| == |proof.leafIndices|
    requires Verdict(w.h.node, Zip(proof.leafIndices, LeafHashes(w.h, LeavesFor(legs, proof.leafValues))),
                     Hashes(proof.multiproofHashes), proof.batch.fixtureSummary.eventsSubTreeRoot).Ok?
    ensures CarriesPublished(legs, proof, StatsOf(w, proof.batch))
  {
    var leaves, e := LeavesFor(legs, proof.leafValues), w.events(proof.batch.fixtureSummary);
    var entries, feed := Zip(proof.leafIndices, LeafHashes(w.h, leaves)), Hashes(proof.multiproofHashes);
    AcceptedEntries(w.h.node, entries, feed, proof.batch.fixtureSummary.eventsSubTreeRoot);
    hide BatchBreaks, Verdict, StatsBreak, DistinctKeys, LeafHashes, Zip, Hashes;
    StatsArePublished(w.h, leaves, proof.leafIndices, feed, e.stats, e.depth);
  }

  /**
   * Whatever verdict is reached, true or false, every leg's claimed value is the one
   * published for that stat and the verdict is that of the predicates on them, or the
   * hash is broken on the very values involved.
   */
  lemma VerdictIsPublished<D(!new)>(w: World<D>, fixtureId: i64, legs: seq<StatLeg>, predicates: seq<WirePredicate>,
                                    proof: SettlementProofV3<D>, verdict: bool)
    requires BuildAndVerify(w.h, w.published, fixtureId, legs, predicates, proof) == Ok(verdict)
    requires Public(w, fixtureId) && !ProofBreaks(w, legs, proof)
    ensures IsPublished(w, fixtureId, proof.batch) && CarriesPublished(legs, proof, StatsOf(w, proof.batch))
    ensures verdict <==> OutcomeHolds(legs, predicates, proof.leafValues)
  {
    VerdictUnfolds(w, fixtureId, legs, predicates, proof, verdict);
    NoBatchBreak(w, legs, proof);
    hide *;
    BatchIsPublic(w, fixtureId, proof.batch);
    LegsArePublished(w, legs, proof);
    EvaluationUnfolds(legs, predicates, proof.leafValues, verdict);
  }

  lemma NoBatchBreak<D(!new)>(w: World<D>, legs: seq<StatLeg>, proof: SettlementProofV3<D>)
    requires !ProofBreaks(w, legs, proof)
    ensures !BatchBreaks(w, proof.batch)
  {
  }

  // --- no two outcomes ------------------------------------------------------------------------------

  /** One proof verified its predicates, with the hash unbroken on it. */
  ghost predicate Verified<D(!new)>(w: World<D>, fixtureId: i64, legs: seq<StatLeg>, predicates: seq<WirePredicate>,
                                    proof: SettlementProofV3<D>)
  {
    BuildAndVerify(w.h, w.published, fixtureId, legs, predicates, proof) == Ok(true) && !ProofBreaks(w, legs, proof)
  }

  /** None of the given stats is published with two values; others may be. */
  ghost predicate AgreeOn(legs: seq<StatLeg>, a: seq<ScoreStat>, b: seq<ScoreStat>) {
    forall l, i, j ::
      0 <= l < |legs| && 0 <= i < |a| && 0 <= j < |b|
      && a[i].key == legs[l].key == b[j].key && a[i].period == legs[l].period == b[j].period ==>
        a[i].value == b[j].value
  }

  lemma PublishedValuesAgree<D(!new)>(legs: seq<StatLeg>, proof1: SettlementProofV3<D>, stats1: seq<ScoreStat>,
                                      proof2: SettlementProofV3<D>, stats2: seq<ScoreStat>)
    requires CarriesPublished(legs, proof1, stats1) && CarriesPublished(legs, proof2, stats2)
    requires AgreeOn(legs, stats1, stats2)
    ensures proof1.leafValues == proof2.leafValues && |proof1.leafValues| == |legs|
  {
    forall i | 0 <= i < |legs| ensures proof1.leafValues[i] == proof2.leafValues[i] {
      var a, b := stats1[proof1.leafIndices[i]], stats2[proof2.leafIndices[i]];
      assert a.key == legs[i].key == b.key && a.period == legs[i].period == b.period;
    }
  }

  /**
   * Two verified proofs over the same legs carry the same values, whoever submits them,
   * if their batches agree on these legs.
   */
  lemma VerifiedValuesAgree<D(!new)>(w: World<D>, fixtureId: i64, legs: seq<StatLeg>,
                                     ps1: seq<WirePredicate>, proof1: SettlementProofV3<D>,
                                     ps2: seq<WirePredicate>, proof2: SettlementProofV3<D>)
    requires Public(w, fixtureId)
    requires Verified(w, fixtureId, legs, ps1, proof1) && Verified(w, fixtureId, legs, ps2, proof2)
    requires AgreeOn(legs, StatsOf(w, proof1.batch), StatsOf(w, proof2.batch))
    ensures proof1.leafValues == proof2.leafValues && |proof1.leafValues| == |legs|
    ensures OutcomeHolds(legs, ps1, proof1.leafValues) && OutcomeHolds(legs, ps2, proof2.leafValues)
  {
    hide BuildAndVerify, Public, ProofBreaks, OutcomeHolds, CarriesPublished, AgreeOn, StatsOf;
    VerdictIsPublished(w, fixtureId, legs, ps1, proof1, true);
    VerdictIsPublished(w, fixtureId, legs, ps2, proof2, true);
    PublishedValuesAgree(legs, proof1, StatsOf(w, proof1.batch), proof2, StatsOf(w, proof2.batch));
  }

  /**
   * A market of a shipped type can be settled to one outcome only: two verified proofs,
   * by anyone and from any published batches that agree on its legs, verify the same outcome.
   */
  lemma OnlyOneOutcomeVerifies<D(!new)>(w: World<D>, fixtureId: i64, legs: seq<StatLeg>, k: nat,
                                        o1: nat, proof1: SettlementProofV3<D>, o2: nat, proof2: SettlementProofV3<D>)
    requires Public(w, fixtureId)
    requires k < |CATALOGUE| && |legs| == |CATALOGUE[k].legs| && Encodable(CATALOGUE[k].outcomes)
    requires o1 < |CATALOGUE[k].outcomes| && o2 < |CATALOGUE[k].outcomes|
    requires Verified(w, fixtureId, legs, CATALOGUE[k].outcomes[o1], proof1)
    requires Verified(w, fixtureId, legs, CATALOGUE[k].outcomes[o2], proof2)
    requires AgreeOn(legs, StatsOf(w, proof1.batch), StatsOf(w, proof2.batch))
    ensures o1 == o2
  {
    hide CATALOGUE, Verified, AgreeOn, AllHold, ExactCover, Public;
    var outcomes := CATALOGUE[k].outcomes;
    VerifiedValuesAgree(w, fixtureId, legs, outcomes[o1], proof1, outcomes[o2], proof2);
    ShippedTypesTile(k, proof1.leafValues);
  }

  // --- plain markets, settled through v2 ------------------------------------------------------------

  /** The hash breaks between one stat and the root of its batch. */
  ghost predicate StatBreaks<D(!new)>(w: World<D>, b: Batch<D>, leaf: StatLeaf<D>) {
    var e, start := w.events(b.fixtureSummary), StatHash(w.h, leaf.stat);
    && |e.stats| == Pow2(e.depth)
    && (|| !PathUnbroken(w.h.node, start, leaf.statProof, StatLayer(w.h, e.stats), e.depth)
        || exists s :: s in e.stats && s != leaf.stat && StatHash(w.h, s) == start)
  }

  /** The hash breaks somewhere between the values submitted for a plain outcome and the published day. */
  ghost predicate PlainProofBreaks<D(!new)>(w: World<D>, spec: OutcomeSpec, proof: SettlementProof<D>) {
    var stats := Submission(spec, proof).0;
    BatchBreaks(w, proof.batch) || exists i :: 0 <= i < |stats| && StatBreaks(w, proof.batch, stats[i])
  }

  lemma StatIsPublished<D(!new)>(w: World<D>, b: Batch<D>, leaf: StatLeaf<D>)
    requires CarriesEvents(w, b.fixtureSummary) && LeafProves(w.h, leaf, b.fixtureSummary.eventsSubTreeRoot)
    requires !StatBreaks(w, b, leaf)
    ensures leaf.stat in StatsOf(w, b)
  {
    var e, start := w.events(b.fixtureSummary), StatHash(w.h, leaf.stat);
    var layer := StatLayer(w.h, e.stats);
    hide PathUnbroken, Root;
    FoldReachesLayer(w.h.node, start, leaf.statProof, layer, e.depth);
    var j :| 0 <= j < |layer| && Follows(leaf.statProof, j) && layer[j] == start;
    assert e.stats[j] in e.stats;
  }

  /** The values of the stats an outcome reads are the published ones. */
  ghost predicate PlainCarriesPublished<D(!new)>(spec: OutcomeSpec, proof: SettlementProof<D>, stats: seq<ScoreStat>) {
    && ScoreStat(spec.statAKey, proof.statAValue, spec.statAPeriod) in stats
    && (spec.hasStatB ==> ScoreStat(spec.statBKey, proof.statBValue, spec.statBPeriod) in stats)
  }

  /** What an outcome says of its values: a stat, or two added or subtracted, against the threshold. */
  predicate PlainHolds(spec: OutcomeSpec, a: int, b: int) {
    var x := if !spec.hasStatB then a else if spec.op == Some(Add) then a + b else a - b;
    Compare(x, spec.threshold, spec.comparison)
  }

  /** What a verdict of v2 rests on. */
  lemma PlainUnfolds<D(!new)>(w: World<D>, fixtureId: i64, spec: OutcomeSpec, proof: SettlementProof<D>, verdict: bool)
    requires BuildAndVerifyV2(w.h, w.published, fixtureId, spec, proof) == Ok(verdict)
    ensures var b, day := proof.batch, EpochDayOf(proof.batch.ts);
            var (stats, predicates) := Submission(spec, proof);
            && b.fixtureSummary.fixtureId == fixtureId && day in w.published && BatchProves(w.h, w.published[day], b)
            && (forall i :: 0 <= i < |stats| ==> LeafProves(w.h, stats[i], b.fixtureSummary.eventsSubTreeRoot))
            && Evaluation(StatValues(stats), StrategyFor(predicates)) == Ok(verdict)
  {
    hide LeafProves, BatchProves, Evaluation, EpochDayOf, Submission, StatValues;
  }

  lemma PlainEvaluation<D(!new)>(spec: OutcomeSpec, proof: SettlementProof<D>, verdict: bool)
    requires var (stats, predicates) := Submission(spec, proof);
             Evaluation(StatValues(stats), StrategyFor(predicates)) == Ok(verdict)
    ensures verdict <==> PlainHolds(spec, proof.statAValue, proof.statBValue)
  {
    var (stats, predicates) := Submission(spec, proof);
    var p, n, values := predicates[0], |stats|, StatValues(stats);
    OneCovers(p, n);
    hide Evaluation;
    ValidatedIffEvaluable(predicates, values);
    assert AllHold(predicates, values) <==> Holds(p, values) by {
      assert predicates == [p];
    }
  }

  /**
   * The same for plain markets: a verdict of v2, true or false, is that of the outcome's
   * own comparison on published values, or the hash is broken on the values involved.
   */
  lemma PlainVerdictIsPublished<D(!new)>(w: World<D>, fixtureId: i64, spec: OutcomeSpec, proof: SettlementProof<D>,
                                         verdict: bool)
    requires BuildAndVerifyV2(w.h, w.published, fixtureId, spec, proof) == Ok(verdict)
    requires Public(w, fixtureId) && !PlainProofBreaks(w, spec, proof)
    ensures IsPublished(w, fixtureId, proof.batch) && PlainCarriesPublished(spec, proof, StatsOf(w, proof.batch))
    ensures verdict <==> PlainHolds(spec, proof.statAValue, proof.statBValue)
  {
    PlainUnfolds(w, fixtureId, spec, proof, verdict);
    PlainEvaluation(spec, proof, verdict);
    hide BuildAndVerifyV2, Public, BatchBreaks, BatchProves;
    hide LeafProves, StatBreaks, Evaluation, PlainHolds, CarriesEvents;
    hide EpochDayOf, StatsOf, IsPublished;
    BatchIsPublic(w, fixtureId, proof.batch);
    var stats := Submission(spec, proof).0;
    forall i | 0 <= i < |stats| ensures stats[i].stat in StatsOf(w, proof.batch) {
      StatIsPublished(w, proof.batch, stats[i]);
    }
    assert stats[0].stat in StatsOf(w, proof.batch);
    assert spec.hasStatB ==> stats[1].stat in StatsOf(w, proof.batch);
  }

  /** The stats an outcome reads. */
  function StatsRead(spec: OutcomeSpec): seq<StatLeg> {
    [StatLeg(spec.statAKey, spec.statAPeriod)]
    + (if spec.hasStatB then [StatLeg(spec.statBKey, spec.statBPeriod)] else [])
  }

  lemma PlainValuesAgree<D(!new)>(spec1: OutcomeSpec, proof1: SettlementProof<D>, stats1: seq<ScoreStat>,
                                  spec2: OutcomeSpec, proof2: SettlementProof<D>, stats2: seq<ScoreStat>)
    requires PlainCarriesPublished(spec1, proof1, stats1) && PlainCarriesPublished(spec2, proof2, stats2)
    requires AgreeOn(StatsRead(spec1), stats1, stats2) && spec1.hasStatB && spec2.hasStatB
    requires spec1.statAKey == spec2.statAKey && spec1.statAPeriod == spec2.statAPeriod
    requires spec1.statBKey == spec2.statBKey && spec1.statBPeriod == spec2.statBPeriod
    ensures proof1.statAValue == proof2.statAValue && proof1.statBValue == proof2.statBValue
  {
    var a1, a2 := ScoreStat(spec1.statAKey, proof1.statAValue, spec1.statAPeriod),
                  ScoreStat(spec2.statAKey, proof2.statAValue, spec2.statAPeriod);
    var read := StatsRead(spec1);
    assert read[0] == StatLeg(spec1.statAKey, spec1.statAPeriod)
        && read[1] == StatLeg(spec1.statBKey, spec1.statBPeriod);
    var i :| 0 <= i < |stats1| && stats1[i] == a1;
    var j :| 0 <= j < |stats2| && stats2[j] == a2;
    var b1, b2 := ScoreStat(spec1.statBKey, proof1.statBValue, spec1.statBPeriod),
                  ScoreStat(spec2.statBKey, proof2.statBValue, spec2.statBPeriod);
    var k :| 0 <= k < |stats1| && stats1[k] == b1;
    var l :| 0 <= l < |stats2| && stats2[l] == b2;
  }

  /** `matchWinnerSpecs`: Home, Draw, Away on the goal difference. */
  function MatchWinnerSpecs(key1: u32, key2: u32, period: i32): seq<OutcomeSpec> {
    var base := OutcomeSpec(key1, period, true, key2, period, Some(Subtract), GreaterThan, 0);
    [base, base.(comparison := EqualTo), base.(comparison := LessThan)]
  }

  /** One proof verified one plain outcome, with the hash unbroken on it. */
  ghost predicate PlainVerified<D(!new)>(w: World<D>, fixtureId: i64, spec: OutcomeSpec, proof: SettlementProof<D>) {
    BuildAndVerifyV2(w.h, w.published, fixtureId, spec, proof) == Ok(true) && !PlainProofBreaks(w, spec, proof)
  }

  /**
   * A match-winner market can be settled to one result only, whoever submits which proof,
   * if the batches agree on its two scores.
   */
  lemma OnlyOneResultVerifies<D(!new)>(w: World<D>, fixtureId: i64, key1: u32, key2: u32, period: i32,
                                       o1: nat, proof1: SettlementProof<D>, o2: nat, proof2: SettlementProof<D>)
    requires Public(w, fixtureId) && o1 < 3 && o2 < 3
    requires PlainVerified(w, fixtureId, MatchWinnerSpecs(key1, key2, period)[o1], proof1)
    requires PlainVerified(w, fixtureId, MatchWinnerSpecs(key1, key2, period)[o2], proof2)
    requires AgreeOn([StatLeg(key1, period), StatLeg(key2, period)], StatsOf(w, proof1.batch), StatsOf(w, proof2.batch))
    ensures o1 == o2
  {
    hide Public, AgreeOn, StatsOf, PlainProofBreaks, PlainCarriesPublished, BuildAndVerifyV2;
    var specs := MatchWinnerSpecs(key1, key2, period);
    assert StatsRead(specs[o1]) == [StatLeg(key1, period), StatLeg(key2, period)];
    PlainVerdictIsPublished(w, fixtureId, specs[o1], proof1, true);
    PlainVerdictIsPublished(w, fixtureId, specs[o2], proof2, true);
    PlainValuesAgree(specs[o1], proof1, StatsOf(w, proof1.batch), specs[o2], proof2, StatsOf(w, proof2.batch));
  }
}
