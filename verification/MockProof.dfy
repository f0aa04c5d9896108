/**
 * The replay prover, `buildMockProof` with its byte encoders, against the verifier
 * it is paired with: the v2 settlement path of a match-winner market.
 */
module MockProof {
  import opened Wrappers
  import opened Numbers
  import opened Borsh
  import opened Merkle
  import opened Strategy
  import opened Coverage
  import opened OracleErrors
  import opened Oracle
  import opened Settlement
  import opened PublishedTruth

  // --- the markets it settles ---------------------------------------------------------------

  /** The outcome the settler claims. */
  function ClaimedResult(p1: int, p2: int): nat {
    if p1 > p2 then 0 else if p1 < p2 then 2 else 1
  }

  // --- the prover's byte encoders -----------------------------------------------------------

  /** Node's `writeUInt32LE` and friends: `k` bytes of `n` at `offset`. */
  method WriteLittleEndian(b: array<u8>, offset: nat, n: nat, k: nat)
    requires offset + k <= b.Length
    modifies b
    ensures b[..] == old(b[..offset]) + LittleEndian(n, k) + old(b[offset + k..])
  {
    var left := n;
    ghost var whole := LittleEndian(n, k);
    for i := 0 to k
      invariant b[..offset] == old(b[..offset]) && b[offset + k..] == old(b[offset + k..])
      invariant whole == b[offset..offset + i] + LittleEndian(left, k - i)
    {
      b[offset + i] := left % 256;
      assert LittleEndian(left, k - i) == [left % 256] + LittleEndian(left / 256, k - i - 1);
      assert b[offset..offset + i + 1] == b[offset..offset + i] + [left % 256];
      left := left / 256;
    }
    assert b[..] == b[..offset] + b[offset..offset + k] + b[offset + k..];
  }

  /** Two's complement of an `i32`, as `writeInt32LE` stores it. */
  function Unsigned32(x: i32): u32 {
    if x < 0 then x + 0x1_0000_0000 else x
  }

  /** `encScoreStat`: three 32-bit fields written into a 12-byte buffer. */
  method EncScoreStat(key: u32, value: i32, period: i32) returns (b: array<u8>)
    ensures fresh(b) && b[..] == EncodeStat(ScoreStat(key, value, period))
  {
    b := new u8[12](_ => 0);
    Widths();
    WriteLittleEndian(b, 0, key, 4);
    WriteLittleEndian(b, 4, Unsigned32(value), 4);
    WriteLittleEndian(b, 8, Unsigned32(period), 4);
  }

  /** `BN.toArrayLike(Buffer, "le", 8)`: the magnitude, or an exception if it does not fit. */
  function BigNumberBytes(x: int): Option<Bytes> {
    var magnitude := if x < 0 then -x else x;
    if magnitude < 0x1_0000_0000_0000_0000 then Some(LittleEndian(magnitude, 8)) else None
  }

  /** The prover's 64-bit encoding drops the sign, so it is Borsh's iff the number has none. */
  lemma BigNumberIsBorshIffNonNegative(x: i64)
    ensures BigNumberBytes(x) == Some(I64(x)) <==> x >= 0 || x == I64_MIN
  {
    Widths();
    var borsh := if x < 0 then x + Pow256(8) else x;
    var y: int := x;
    var magnitude := if y < 0 then -y else y;
    ReadBack(borsh, 8);
    ReadBack(magnitude, 8);
  }

  /** `encFixtureSummary`. */
  function EncFixtureSummary<D>(digest: D -> Bytes, fixtureId: int, updateCount: i32, minTs: int, maxTs: int,
                                subRoot: D)
    : Option<Bytes>
  {
    match (BigNumberBytes(fixtureId), BigNumberBytes(minTs), BigNumberBytes(maxTs))
    case (Some(f), Some(lo), Some(hi)) =>
      Widths();
      Some(f + (Signed(updateCount, 4) + (lo + (hi + digest(subRoot)))))
    case _ => None
  }

  // --- the prover ---------------------------------------------------------------------------------

  datatype BuiltMockProof<D> = BuiltMockProof(proof: SettlementProof<D>, dailyRoot: D, epochDay: int)

  /** `buildMockProof` with the stat keys it is given; none where an encoder throws. */
  function BuildMockProof<D>(h: HashScheme<D>, goalsA: i32, goalsB: i32, fixtureId: i64, ts: i64, period: i32,
                             key1: u32, key2: u32): Option<BuiltMockProof<D>>
  {
    var leafA := h.leaf(EncodeStat(ScoreStat(key1, goalsA, period)));
    var leafB := h.leaf(EncodeStat(ScoreStat(key2, goalsB, period)));
    var subRoot := Combine(h.node, leafA, ProofNode(leafB, true));
    match EncFixtureSummary(h.digest, fixtureId, 1, ts, ts, subRoot)
    case None => None
    case Some(bytes) =>
      var batch := Batch(ts, BatchSummary(fixtureId, 1, ts, ts, subRoot), [], [], subRoot);
      var proof := SettlementProof(batch, goalsA, [ProofNode(leafB, true)], true, goalsB, [ProofNode(leafA, false)]);
      Some(BuiltMockProof(proof, h.leaf(bytes), ts / MS_PER_DAY))
  }

  lemma MockSummaryIsBorsh<D>(h: HashScheme<D>, fixtureId: i64, ts: i64, subRoot: D)
    requires fixtureId > 0 && ts >= 0
    ensures EncFixtureSummary(h.digest, fixtureId, 1, ts, ts, subRoot)
            == Some(EncodeSummary(h.digest, BatchSummary(fixtureId, 1, ts, ts, subRoot)))
  {
    BigNumberIsBorshIffNonNegative(fixtureId);
    BigNumberIsBorshIffNonNegative(ts);
  }

  lemma DifferenceCovers(c: Comparison)
    ensures RefsOf([Binary(0, 1, Subtract, c, 0)]) == [0, 1] && CoversExactly([Binary(0, 1, Subtract, c, 0)], 2)
  {
    var p := Binary(0, 1, Subtract, c, 0);
    assert [p][..0] == [] && RefsOf([p]) == [] + Refs(p);
  }

  lemma DifferenceHolds(c: Comparison, a: i32, b: i32)
    requires InRange(RefsOf([Binary(0, 1, Subtract, c, 0)]), 2)
    ensures AllHold([Binary(0, 1, Subtract, c, 0)], [a, b]) == Compare(a - b, 0, c)
  {
    hide RefsOf;
    assert [Binary(0, 1, Subtract, c, 0)][0] == Binary(0, 1, Subtract, c, 0);
  }

  lemma DifferenceVerdict(c: Comparison, a: i32, b: i32)
    ensures Evaluation([a, b], NDimensionalStrategy([], None, [Binary(0, 1, Subtract, c, 0)]))
            == Ok(Compare(a - b, 0, c))
  {
    hide RefsOf, Evaluation, AllHold, CoversExactly, Compare;
    DifferenceCovers(c);
    ValidatedIffEvaluable([Binary(0, 1, Subtract, c, 0)], [a, b]);
    DifferenceHolds(c, a, b);
  }

  /** Both stat leaves of the prover fold to its event root, its summary is the daily root. */
  lemma MockProofProves<D>(h: HashScheme<D>, built: BuiltMockProof<D>, statA: ScoreStat, statB: ScoreStat,
                           fixtureId: i64, ts: i64)
    requires fixtureId > 0 && ts >= 0 && statA.period == statB.period
    requires BuildMockProof(h, statA.value, statB.value, fixtureId, ts, statA.period, statA.key, statB.key)
             == Some(built)
    ensures LeafProves(h, StatLeaf(statA, built.proof.statAProof), built.proof.batch.eventStatRoot)
    ensures LeafProves(h, StatLeaf(statB, built.proof.statBProof), built.proof.batch.eventStatRoot)
    ensures BatchProves(h, built.dailyRoot, built.proof.batch)
  {
    var leafA, leafB := StatHash(h, statA), StatHash(h, statB);
    MockSummaryIsBorsh(h, fixtureId, ts, h.node(leafA, leafB));
    assert Fold(h.node, h.node(leafA, leafB), []) == h.node(leafA, leafB);
    assert Combine(h.node, leafB, ProofNode(leafA, false)) == h.node(leafA, leafB);
    assert [ProofNode(leafB, true)][1..] == [] && [ProofNode(leafA, false)][1..] == [];
  }

  lemma DayFits(ts: i64)
    requires 0 <= ts < 0x1_0000 * MS_PER_DAY
    ensures 0 <= ts / MS_PER_DAY < 0x1_0000 && EpochDayOf(ts) == ts / MS_PER_DAY
  {
  }

  /** What the prover puts into the proof. */
  ghost predicate ShapedFor<D>(built: BuiltMockProof<D>, statA: ScoreStat, statB: ScoreStat, fixtureId: i64) {
    var p := built.proof;
    && p.batch.fixtureSummary.fixtureId == fixtureId && p.hasStatB
    && p.statAValue == statA.value && p.statBValue == statB.value
    && p.batch.eventStatRoot == p.batch.fixtureSummary.eventsSubTreeRoot
    && 0 <= built.epochDay < 0x1_0000 && EpochDayOf(p.batch.ts) == built.epochDay
  }

  lemma MockProofShape<D>(h: HashScheme<D>, statA: ScoreStat, statB: ScoreStat, fixtureId: i64, ts: i64)
    requires fixtureId > 0 && 0 <= ts < 0x1_0000 * MS_PER_DAY && statA.period == statB.period
    ensures var r := BuildMockProof(h, statA.value, statB.value, fixtureId, ts, statA.period, statA.key, statB.key);
            r.Some? && ShapedFor(r.value, statA, statB, fixtureId)
  {
    hide EncFixtureSummary, EncodeSummary, EncodeStat, EpochDayOf;
    MockSummaryIsBorsh(h, fixtureId, ts, h.node(StatHash(h, statA), StatHash(h, statB)));
    DayFits(ts);
  }

  lemma WinnerSpec(key1: u32, key2: u32, period: i32, outcome: nat)
    requires outcome < 3
    ensures |MatchWinnerSpecs(key1, key2, period)| == 3
    ensures var c := if outcome == 0 then GreaterThan else if outcome == 1 then EqualTo else LessThan;
            MatchWinnerSpecs(key1, key2, period)[outcome]
            == OutcomeSpec(key1, period, true, key2, period, Some(Subtract), c, 0)
  {
  }

  lemma ClaimIsTheSign(p1: int, p2: int, outcome: nat, c: Comparison)
    requires outcome < 3
    requires c == if outcome == 0 then GreaterThan else if outcome == 1 then EqualTo else LessThan
    ensures Compare(p1 - p2, 0, c) <==> outcome == ClaimedResult(p1, p2)
  {
  }

  /** A two-stat outcome whose leaves and batch prove is decided by its predicate. */
  lemma ProvenPairIsEvaluated<D(!new)>(h: HashScheme<D>, published: map<u16, D>, fixtureId: i64, spec: OutcomeSpec,
                                       proof: SettlementProof<D>, statA: ScoreStat, statB: ScoreStat)
    requires proof.batch.fixtureSummary.fixtureId == fixtureId && proof.hasStatB && spec.hasStatB
    requires spec.op == Some(Subtract) && spec.threshold == 0
    requires statA == ScoreStat(spec.statAKey, proof.statAValue, spec.statAPeriod)
    requires statB == ScoreStat(spec.statBKey, proof.statBValue, spec.statBPeriod)
    requires LeafProves(h, StatLeaf(statA, proof.statAProof), proof.batch.eventStatRoot)
    requires LeafProves(h, StatLeaf(statB, proof.statBProof), proof.batch.eventStatRoot)
    requires proof.batch.eventStatRoot == proof.batch.fixtureSummary.eventsSubTreeRoot
    requires EpochDayOf(proof.batch.ts) in published
    requires BatchProves(h, published[EpochDayOf(proof.batch.ts)], proof.batch)
    ensures BuildAndVerifyV2(h, published, fixtureId, spec, proof)
            == Ok(Compare(proof.statAValue - proof.statBValue, 0, spec.comparison))
  {
    hide LeafProves, BatchProves, Evaluation;
    var (stats, predicates) := Submission(spec, proof);
    assert StatValues(stats) == [proof.statAValue, proof.statBValue];
    DifferenceVerdict(spec.comparison, proof.statAValue, proof.statBValue);
  }

  /**
   * Prover and verifier agree, for any hash: under its own daily root, the prover's
   * proof passes every check of v2 for each of the three match-winner outcomes, and
   * exactly the one the settler claims is verified.
   */
  lemma MockProofSettlesExactlyTheResult<D(!new)>(h: HashScheme<D>, goalsA: i32, goalsB: i32, fixtureId: i64, ts: i64,
                                                  period: i32, key1: u32, key2: u32, published: map<u16, D>,
                                                  outcome: nat)
    requires fixtureId > 0 && 0 <= ts < 0x1_0000 * MS_PER_DAY && outcome < 3
    ensures var built := BuildMockProof(h, goalsA, goalsB, fixtureId, ts, period, key1, key2);
            && built.Some? && 0 <= built.value.epochDay < 0x1_0000
            && BuildAndVerifyV2(h, published[built.value.epochDay := built.value.dailyRoot], fixtureId,
                                MatchWinnerSpecs(key1, key2, period)[outcome], built.value.proof)
               == Ok(outcome == ClaimedResult(goalsA, goalsB))
  {
    var statA, statB := ScoreStat(key1, goalsA, period), ScoreStat(key2, goalsB, period);
    MockProofShape(h, statA, statB, fixtureId, ts);
    WinnerSpec(key1, key2, period, outcome);
    hide BuildMockProof, BuildAndVerifyV2, MatchWinnerSpecs, LeafProves;
    hide BatchProves, Compare, ClaimedResult, EpochDayOf;
    var built := BuildMockProof(h, goalsA, goalsB, fixtureId, ts, period, key1, key2).value;
    MockProofProves(h, built, statA, statB, fixtureId, ts);
    var spec := MatchWinnerSpecs(key1, key2, period)[outcome];
    var roots := published[built.epochDay := built.dailyRoot];
    ProvenPairIsEvaluated(h, roots, fixtureId, spec, built.proof, statA, statB);
    ClaimIsTheSign(goalsA, goalsB, outcome, spec.comparison);
  }
}
