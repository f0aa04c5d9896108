/**
 * What the program's settlement checks answer, for any hash: a verdict exactly if all the
 * proof material proves, and then that of the predicates on the values it carries.
 */
module SettlementAnswers {
  import opened Wrappers
  import opened Numbers
  import opened Borsh
  import opened Merkle
  import opened Multiproof
  import opened Strategy
  import opened Coverage
  import OracleErrors
  import opened Oracle
  import opened OracleSoundness
  import opened Settlement
  import opened PublishedTruth

  /** The batch is of the fixture, its event root is the one proven, and it is under the root of its day. */
  ghost predicate BatchMatches<D>(h: HashScheme<D>, published: map<u16, D>, fixtureId: i64, b: Batch<D>) {
    && b.fixtureSummary.fixtureId == fixtureId && b.eventStatRoot == b.fixtureSummary.eventsSubTreeRoot
    && EpochDayOf(b.ts) in published && BatchProves(h, published[EpochDayOf(b.ts)], b)
  }

  /** One value and one index per leg, and the walk over the legs' leaves reaches the event root. */
  ghost predicate LegsProve<D>(h: HashScheme<D>, legs: seq<StatLeg>, proof: SettlementProofV3<D>) {
    && |proof.leafValues| == |legs| == |proof.leafIndices|
    && Verdict(h.node, Zip(proof.leafIndices, LeafHashes(h, LeavesFor(legs, proof.leafValues))),
               Hashes(proof.multiproofHashes), proof.batch.eventStatRoot).Ok?
  }

  /** A validated compound outcome gets a verdict exactly if everything proves: whether its predicates hold. */
  lemma CompoundAnswersIff<D>(h: HashScheme<D>, published: map<u16, D>, fixtureId: i64, legs: seq<StatLeg>,
                              predicates: seq<WirePredicate>, proof: SettlementProofV3<D>, verdict: bool)
    requires 1 <= |legs| <= 5 && predicates != [] && ExactCover(RefsOf(predicates), |legs|)
    ensures BuildAndVerify(h, published, fixtureId, legs, predicates, proof) == Ok(verdict)
            <==> && BatchMatches(h, published, fixtureId, proof.batch) && LegsProve(h, legs, proof)
                 && (verdict <==> AllHold(predicates, proof.leafValues))
  {
    var b, day := proof.batch, EpochDayOf(proof.batch.ts);
    if |proof.leafValues| == |legs| == |proof.leafIndices| && day in published {
      ValidatedIffEvaluable(predicates, proof.leafValues);
      var payload := InputV3(b, LeavesFor(legs, proof.leafValues), proof.multiproofHashes, proof.leafIndices);
      DayIff(b.ts, day);
      V3Answers(h, DailyRoots(day, published[day]), payload, StrategyFor(predicates));
      hide AllHold, ExactCover, RefsOf, Evaluation, BatchProves, Verdict, EpochDayOf, FallsOn;
    } else {
      hide AllHold, ExactCover, RefsOf, Evaluation, BatchProves, Verdict, EpochDayOf;
    }
  }

  /** The stats of a plain outcome, with the values and paths of the proof. */
  ghost predicate PlainStatsProve<D>(h: HashScheme<D>, spec: OutcomeSpec, proof: SettlementProof<D>) {
    && proof.hasStatB == spec.hasStatB
    && LeafProves(h, StatLeaf(ScoreStat(spec.statAKey, proof.statAValue, spec.statAPeriod), proof.statAProof),
                  proof.batch.eventStatRoot)
    && (spec.hasStatB ==>
          LeafProves(h, StatLeaf(ScoreStat(spec.statBKey, proof.statBValue, spec.statBPeriod), proof.statBProof),
                     proof.batch.eventStatRoot))
  }

  /** The same for an outcome of a plain market. */
  lemma PlainAnswersIff<D(!new)>(h: HashScheme<D>, published: map<u16, D>, fixtureId: i64, spec: OutcomeSpec,
                           proof: SettlementProof<D>, verdict: bool)
    ensures BuildAndVerifyV2(h, published, fixtureId, spec, proof) == Ok(verdict)
            <==> && BatchMatches(h, published, fixtureId, proof.batch) && PlainStatsProve(h, spec, proof)
                 && (verdict <==> PlainHolds(spec, proof.statAValue, proof.statBValue))
  {
    var b, day := proof.batch, EpochDayOf(proof.batch.ts);
    var (stats, predicates) := Submission(spec, proof);
    PlainIsEvaluable(spec, proof);
    AllStatsProve(h, spec, proof);
    hide Submission, PlainStatsProve, LeafProves, PlainHolds, Evaluation, BatchProves, EpochDayOf, FallsOn;
    if day in published {
      DayIff(b.ts, day);
      V2Answers(h, DailyRoots(day, published[day]), InputV2(b, stats), StrategyFor(predicates));
    }
  }

  lemma AllStatsProve<D>(h: HashScheme<D>, spec: OutcomeSpec, proof: SettlementProof<D>)
    ensures var stats := Submission(spec, proof).0;
            PlainStatsProve(h, spec, proof)
            <==> && proof.hasStatB == spec.hasStatB
                 && forall leaf :: leaf in stats ==> LeafProves(h, leaf, proof.batch.eventStatRoot)
  {
    hide LeafProves;
    var stats := Submission(spec, proof).0;
    assert stats[0] in stats && (spec.hasStatB ==> stats[1] in stats);
  }

  lemma PlainIsEvaluable<D(!new)>(spec: OutcomeSpec, proof: SettlementProof<D>)
    ensures var (stats, predicates) := Submission(spec, proof);
            Evaluation(StatValues(stats), StrategyFor(predicates))
            == Ok(PlainHolds(spec, proof.statAValue, proof.statBValue))
  {
    var (stats, predicates) := Submission(spec, proof);
    OneCovers(predicates[0], |stats|);
    var holds := AllHold(predicates, StatValues(stats));
    hide Evaluation;
    ValidatedIffEvaluable(predicates, StatValues(stats));
    PlainEvaluation(spec, proof, holds);
  }

  /** The checks of the program itself, before the oracle is asked. */
  ghost function CompoundChecks<D>(published: map<u16, D>, fixtureId: i64, legs: seq<StatLeg>,
                                   proof: SettlementProofV3<D>): seq<Check<SettleError>> {
    [Check(proof.batch.fixtureSummary.fixtureId != fixtureId, FixtureMismatch),
     Check(|proof.leafValues| != |legs|, LegCountMismatch), Check(|proof.leafIndices| != |legs|, LegCountMismatch),
     Check(EpochDayOf(proof.batch.ts) !in published, WrongDailyRootAccount)]
  }

  ghost function PlainChecks<D>(published: map<u16, D>, fixtureId: i64, spec: OutcomeSpec,
                                proof: SettlementProof<D>): seq<Check<SettleError>> {
    [Check(proof.batch.fixtureSummary.fixtureId != fixtureId, FixtureMismatch),
     Check(proof.hasStatB != spec.hasStatB, ProofShapeMismatch),
     Check(EpochDayOf(proof.batch.ts) !in published, WrongDailyRootAccount)]
  }

  /** The first failing check answers; without one it is the oracle. */
  lemma ProgramAnswersFirst<D>(h: HashScheme<D>, published: map<u16, D>, fixtureId: i64, legs: seq<StatLeg>,
                               predicates: seq<WirePredicate>, compound: SettlementProofV3<D>, spec: OutcomeSpec,
                               plain: SettlementProof<D>)
    ensures var r := BuildAndVerify(h, published, fixtureId, legs, predicates, compound);
            match FirstFailure(CompoundChecks(published, fixtureId, legs, compound))
            case Some(e) => r == Err(e)
            case None => r.Err? ==> r.error.FromOracle?
    ensures var r := BuildAndVerifyV2(h, published, fixtureId, spec, plain);
            match FirstFailure(PlainChecks(published, fixtureId, spec, plain))
            case Some(e) => r == Err(e)
            case None => r.Err? ==> r.error.FromOracle?
  {
    FirstOfSeven(CompoundChecks(published, fixtureId, legs, compound));
    FirstOfSeven(PlainChecks(published, fixtureId, spec, plain));
    hide FirstFailure, VerdictV2, VerdictV3, EpochDayOf;
  }
}
