/**
 * The program's side of a settlement, v3 and v2: it builds the stats from the market's
 * own terms, submits them with the caller's values and Merkle material, and acts on the
 * oracle's verdict.
 */
module Settlement {
  import opened Wrappers
  import opened Numbers
  import opened Borsh
  import opened Merkle
  import opened Multiproof
  import opened Strategy
  import opened Coverage
  import opened OracleErrors
  import opened Oracle

  datatype SettleError =
    | FixtureMismatch | ProofShapeMismatch | LegCountMismatch
    | WrongDailyRootAccount | FromOracle(code: OracleErrors.Error)

  /** `SettlementProofV3`: proven values and Merkle material, never the stats or the predicate. */
  datatype SettlementProofV3<D> = SettlementProofV3(
    batch: Batch<D>, leafValues: seq<i32>, multiproofHashes: seq<ProofNode<D>>, leafIndices: seq<u32>)

  /** The stats a proof stands for: keys and periods from the legs, values from the caller. */
  function LeavesFor<D>(legs: seq<StatLeg>, values: seq<i32>): (r: seq<StatLeaf<D>>)
    requires |legs| == |values|
    ensures |r| == |legs|
    ensures forall i :: 0 <= i < |legs| ==> r[i].stat == ScoreStat(legs[i].key, values[i], legs[i].period)
    ensures StatValues(r) == values
  {
    seq(|legs|, i requires 0 <= i < |legs| => StatLeaf(ScoreStat(legs[i].key, values[i], legs[i].period), []))
  }

  /** `build_and_verify_v3_legs`; `published` holds the daily-root accounts by day. */
  function BuildAndVerify<D(==)>(h: HashScheme<D>, published: map<u16, D>, fixtureId: i64, legs: seq<StatLeg>,
                                 predicates: seq<WirePredicate>, proof: SettlementProofV3<D>)
    : Result<bool, SettleError>
  {
    if proof.batch.fixtureSummary.fixtureId != fixtureId then Err(FixtureMismatch)
    else if |proof.leafValues| != |legs| || |proof.leafIndices| != |legs| then Err(LegCountMismatch)
    else
      var day := EpochDayOf(proof.batch.ts);
      if day !in published then Err(WrongDailyRootAccount)
      else
        var payload := InputV3(proof.batch, LeavesFor(legs, proof.leafValues), proof.multiproofHashes,
                               proof.leafIndices);
        match VerdictV3(h, DailyRoots(day, published[day]), payload, StrategyFor(predicates))
        case Ok(v) => Ok(v)
        case Err(e) => Err(FromOracle(e))
  }

  /** With evaluable predicates, v3 only ever fails on the proof material. */
  lemma ErrorsOfEvaluable<D>(h: HashScheme<D>, roots: DailyRoots<D>, p: InputV3<D>, strategy: NDimensionalStrategy)
    requires Evaluation(StatValues(p.leaves), strategy).Ok?
    requires |p.leaves| == |p.leafIndices| && p.leaves != []
    requires roots.epochDay == EpochDayOf(p.batch.ts)
    ensures var r := VerdictV3(h, roots, p, strategy);
            r.Err? ==> r.error in {StatNotInFixture, StatProofMismatch, MerkleRootMismatch}
                       || (r.error == DuplicateStatCoverage && !Distinct(p.leafIndices))
  {
    var entries := Zip(p.leafIndices, LeafHashes(h, p.leaves));
    if Distinct(p.leafIndices) {
      assert DistinctKeys(entries);
    }
  }

  ghost predicate Distinct(indices: seq<u32>) {
    forall i, j :: 0 <= i < j < |indices| ==> indices[i] != indices[j]
  }

  /**
   * A market whose predicates were validated at creation cannot fail coverage at
   * settlement: what can still go wrong is the proof itself.
   */
  lemma ValidatedNeverFailsCoverage<D>(h: HashScheme<D>, published: map<u16, D>, fixtureId: i64, legs: seq<StatLeg>,
                                       predicates: seq<WirePredicate>, proof: SettlementProofV3<D>)
    requires LegCountOk(|legs|) && CoversExactly(predicates, |legs|)
    ensures var r := BuildAndVerify(h, published, fixtureId, legs, predicates, proof);
            r.Err? && r.error.FromOracle? ==>
              r.error.code in {StatNotInFixture, StatProofMismatch, MerkleRootMismatch}
              || (r.error.code == DuplicateStatCoverage && !Distinct(proof.leafIndices))
  {
    var day := EpochDayOf(proof.batch.ts);
    if |proof.leafValues| == |legs| && |proof.leafIndices| == |legs| && day in published {
      var payload := InputV3(proof.batch, LeavesFor(legs, proof.leafValues), proof.multiproofHashes, proof.leafIndices);
      ValidatedIffEvaluable(predicates, proof.leafValues);
      ErrorsOfEvaluable(h, DailyRoots(day, published[day]), payload, StrategyFor(predicates));
    }
  }

  // --- plain markets, settled through v2 ------------------------------------------------------------

  /** How one outcome of a plain market is resolved; `op` is present iff a second stat is. */
  datatype OutcomeSpec = OutcomeSpec(
    statAKey: u32, statAPeriod: i32, hasStatB: bool, statBKey: u32, statBPeriod: i32,
    op: Option<BinaryExpression>, comparison: Comparison, threshold: i32)

  datatype SettlementProof<D> = SettlementProof(
    batch: Batch<D>, statAValue: i32, statAProof: seq<ProofNode<D>>,
    hasStatB: bool, statBValue: i32, statBProof: seq<ProofNode<D>>)

  /** The stats and the predicate submitted for an outcome; the caller only supplies values. */
  function Submission<D>(spec: OutcomeSpec, proof: SettlementProof<D>): (seq<StatLeaf<D>>, seq<WirePredicate>) {
    var a := StatLeaf(ScoreStat(spec.statAKey, proof.statAValue, spec.statAPeriod), proof.statAProof);
    if spec.hasStatB then
      var b := StatLeaf(ScoreStat(spec.statBKey, proof.statBValue, spec.statBPeriod), proof.statBProof);
      var op := if spec.op.Some? then spec.op.value else Subtract;
      ([a, b], [Binary(0, 1, op, spec.comparison, spec.threshold)])
    else
      ([a], [Single(0, spec.comparison, spec.threshold)])
  }

  function BuildAndVerifyV2<D(==)>(h: HashScheme<D>, published: map<u16, D>, fixtureId: i64, spec: OutcomeSpec,
                                   proof: SettlementProof<D>): Result<bool, SettleError>
  {
    if proof.batch.fixtureSummary.fixtureId != fixtureId then Err(FixtureMismatch)
    else if proof.hasStatB != spec.hasStatB then Err(ProofShapeMismatch)
    else
      var day := EpochDayOf(proof.batch.ts);
      if day !in published then Err(WrongDailyRootAccount)
      else
        var (stats, predicates) := Submission(spec, proof);
        match VerdictV2(h, DailyRoots(day, published[day]), InputV2(proof.batch, stats),
                        NDimensionalStrategy([], None, predicates))
        case Ok(v) => Ok(v)
        case Err(e) => Err(FromOracle(e))
  }
}
