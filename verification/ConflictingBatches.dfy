/**
 * Why the batches must agree: a public world with an unbroken hash whose two batches of
 * one fixture differ in the home score, and in which two outcomes verify, through v2
 * and through v3.
 */
module ConflictingBatches {
  import opened Wrappers
  import opened Numbers
  import opened Borsh
  import opened Merkle
  import opened Multiproof
  import opened MultiproofSoundness
  import opened Strategy
  import opened Coverage
  import opened Catalogue
  import opened Oracle
  import opened OracleSoundness
  import opened PathSoundness
  import opened Settlement
  import opened PublishedTruth
  import MockProof

  /** The free hash. */
  const TERMS: HashScheme<Term> := HashScheme((bytes: Bytes) => LeafTerm(bytes), JoinTerms, (d: Term) => [])

  const LEGS := [StatLeg(1, 100), StatLeg(2, 100)]

  /** Home scored `home`, away nothing. */
  function Scores(home: i32): seq<ScoreStat> {
    [ScoreStat(1, home, 100), ScoreStat(2, 0, 100)]
  }

  function Leaf(home: i32, k: nat): Term
    requires k < 2
  {
    StatHash(TERMS, Scores(home)[k])
  }

  function EventRoot(home: i32): Term {
    NodeTerm(Leaf(home, 0), Leaf(home, 1))
  }

  function Summary(home: i32): BatchSummary<Term> {
    BatchSummary(1, home, 0, 0, EventRoot(home))
  }

  /** On day 0 the home score is published as 0, on day 1 as 1. */
  function TwoDays(): World<Term> {
    World(TERMS, map[0 := SummaryHash(TERMS, Summary(0)), 1 := SummaryHash(TERMS, Summary(1))],
          map[0 := Published(Summary(0)), 1 := Published(Summary(1))],
          (s: BatchSummary<Term>) => EventTree(Scores(s.updateCount), 1))
  }

  /** The batch of the day on which `home` was published. */
  function BatchOf(home: i32): Batch<Term>
    requires home == 0 || home == 1
  {
    Batch(home * MS_PER_DAY, Summary(home), [], [], EventRoot(home))
  }

  lemma TwoDaysArePublic()
    ensures Public(TwoDays(), 1)
  {
    forall home: i32 | home == 0 || home == 1 ensures CarriesEvents(TwoDays(), Summary(home)) {
      EventsCarried(home);
    }
    hide CarriesEvents, Summary;
  }

  lemma RootOfTwo(a: Term, b: Term)
    ensures Pow2(1) == 2 && Root(JoinTerms, [a, b], 1) == NodeTerm(a, b)
  {
    assert Pow2(1) == 2 * Pow2(0);
    assert Up(JoinTerms, [a, b]) == [NodeTerm(a, b)];
  }

  lemma EventsCarried(home: i32)
    ensures CarriesEvents(TwoDays(), Summary(home)) && Pow2(1) == 2
    ensures StatLayer(TERMS, Scores(home)) == [Leaf(home, 0), Leaf(home, 1)]
  {
    RootOfTwo(Leaf(home, 0), Leaf(home, 1));
    hide StatHash, Root;
    assert StatLayer(TERMS, Scores(home)) == [Leaf(home, 0), Leaf(home, 1)];
  }

  // --- the hash is unbroken ---------------------------------------------------------------------

  lemma TermsNeverCollide(a: set<(Term, Term)>, b: set<(Term, Term)>)
    ensures CollisionFree(JoinTerms, a, b)
  {
  }

  lemma LeavesAreNotNodes(hashes: set<Term>, pairs: set<(Term, Term)>)
    requires forall h :: h in hashes ==> h.LeafTerm?
    ensures NotNodes(JoinTerms, hashes, pairs)
  {
  }

  lemma NoBreakOfBatch(home: i32)
    requires home == 0 || home == 1
    ensures EpochDayOf(BatchOf(home).ts) == home
    ensures !BatchBreaks(TwoDays(), BatchOf(home))
    ensures BatchProves(TERMS, TwoDays().published[home], BatchOf(home))
  {
    var start, t := SummaryHash(TERMS, Summary(home)), Published(Summary(home));
    assert EpochDayOf(home * MS_PER_DAY) == home;
    TermsNeverCollide(PathPairs(JoinTerms, start, []), BranchPairs(TERMS, t));
    LeavesAreNotNodes({start}, BranchPairs(TERMS, t));
    LeavesAreNotNodes(SummaryHashes(TERMS, t), PathPairs(JoinTerms, start, []));
    var none: seq<ProofNode<Term>> := [];
    assert none + none == none;
    hide CollisionFree, NotNodes, PathPairs, EpochDayOf;
  }

  // --- plain: v2 ------------------------------------------------------------------------------------

  /** The honest proof of both scores from the batch of `home`. */
  function PlainProofOf(home: i32): SettlementProof<Term>
    requires home == 0 || home == 1
  {
    SettlementProof(BatchOf(home), home, [ProofNode(Leaf(home, 1), true)], true, 0, [ProofNode(Leaf(home, 0), false)])
  }

  lemma LeafFolds(home: i32, k: nat, path: seq<ProofNode<Term>>)
    requires k < 2 && path == [ProofNode(Leaf(home, 1 - k), k == 0)]
    ensures LeafProves(TERMS, StatLeaf(Scores(home)[k], path), EventRoot(home))
  {
    hide StatHash;
    var start, root := Leaf(home, k), EventRoot(home);
    assert Combine(JoinTerms, start, path[0]) == root;
    assert path[1..] == [] && Fold(JoinTerms, root, path[1..]) == root;
  }

  lemma NoBreakOfStat(home: i32, k: nat, path: seq<ProofNode<Term>>)
    requires k < 2 && (home == 0 || home == 1)
    ensures !StatBreaks(TwoDays(), BatchOf(home), StatLeaf(Scores(home)[k], path))
  {
    var layer, start := StatLayer(TERMS, Scores(home)), Leaf(home, k);
    EventsCarried(home);
    TermsNeverCollide(PathPairs(JoinTerms, start, path), TreePairs(JoinTerms, layer, 1));
    LeavesAreNotNodes({start}, TreePairs(JoinTerms, layer, 1));
    LeavesAreNotNodes(LayerHashes(layer), PathPairs(JoinTerms, start, path));
    forall s | StatHash(TERMS, s) == start ensures s == Scores(home)[k] {
      EncodeStatInjective(s, Scores(home)[k]);
    }
    hide CollisionFree, NotNodes, PathPairs, TreePairs, StatLayer, StatHash, LayerHashes;
  }

  lemma PlainVerifies(home: i32, outcome: nat)
    requires (home == 1 && outcome == 0) || (home == 0 && outcome == 1)
    ensures PlainVerified(TwoDays(), 1, MatchWinnerSpecs(1, 2, 100)[outcome], PlainProofOf(home))
  {
    hide LeafProves, BatchProves, BatchBreaks, StatBreaks, EpochDayOf, BuildAndVerifyV2, EventRoot;
    var spec, proof := MatchWinnerSpecs(1, 2, 100)[outcome], PlainProofOf(home);
    NoBreakOfBatch(home);
    LeafFolds(home, 0, proof.statAProof);
    LeafFolds(home, 1, proof.statBProof);
    NoBreakOfStat(home, 0, proof.statAProof);
    NoBreakOfStat(home, 1, proof.statBProof);
    MockProof.ProvenPairIsEvaluated(TERMS, TwoDays().published, 1, spec, proof, Scores(home)[0], Scores(home)[1]);
  }

  // --- compound: v3 ---------------------------------------------------------------------------------

  function ProofOf(home: i32): SettlementProofV3<Term>
    requires home == 0 || home == 1
  {
    SettlementProofV3(BatchOf(home), [home, 0], [], [0, 1])
  }

  /** Both leaves of a two-leaf tree need no further hash. */
  lemma BothLeavesAccepted(a: Term, b: Term)
    ensures DistinctKeys([Entry(0, a), Entry(1, b)])
    ensures Verdict(JoinTerms, [Entry(0, a), Entry(1, b)], [], NodeTerm(a, b)) == Ok(())
  {
    var level := [Entry(0, a), Entry(1, b)];
    SortOfSorted(level);
    SortKeepsKeys(level);
    assert level[2..] == [];
    assert Climb(JoinTerms, level, []) == Round([Entry(0, NodeTerm(a, b))], []);
    assert Walk(JoinTerms, [Entry(0, NodeTerm(a, b))], []) == Some((NodeTerm(a, b), []));
  }

  lemma NoBreakOfLegs(home: i32)
    requires home == 0 || home == 1
    ensures !ProofBreaks(TwoDays(), LEGS, ProofOf(home))
  {
    hide BatchBreaks, Verdict, ExhibitsBreak;
    var proof, layer := ProofOf(home), StatLayer(TERMS, Scores(home));
    NoBreakOfBatch(home);
    EventsCarried(home);
    LeavesOf(home);
    var leaves := LeavesFor<Term>(LEGS, proof.leafValues);
    var entries := Zip(proof.leafIndices, LeafHashes(TERMS, leaves));
    BothLeavesAccepted(Leaf(home, 0), Leaf(home, 1));
    forall e | e in entries ensures !IsNode(JoinTerms, e.hash) {
    }
    forall h | h in layer ensures !IsNode(JoinTerms, h) {
    }
    hide StatHash;
    InjectiveNeverBreaks(JoinTerms, entries, [], layer, 1);
    forall i, j | 0 <= i < 2 && 0 <= j < 2 && StatHash(TERMS, leaves[i].stat) == StatHash(TERMS, Scores(home)[j])
      ensures leaves[i].stat == Scores(home)[j]
    {
      EqualLeaves(leaves[i].stat, Scores(home)[j]);
    }
    assert Hashes(proof.multiproofHashes) == [];
  }

  lemma EqualLeaves(s: ScoreStat, t: ScoreStat)
    requires StatHash(TERMS, s) == StatHash(TERMS, t)
    ensures s == t
  {
    EncodeStatInjective(s, t);
  }

  lemma LeavesOf(home: i32)
    requires home == 0 || home == 1
    ensures var leaves := LeavesFor<Term>(LEGS, ProofOf(home).leafValues);
            && leaves == [StatLeaf(Scores(home)[0], []), StatLeaf(Scores(home)[1], [])]
            && Zip(ProofOf(home).leafIndices, LeafHashes(TERMS, leaves))
                == [Entry(0, Leaf(home, 0)), Entry(1, Leaf(home, 1))]
            && StatValues(leaves) == [home, 0]
  {
    hide StatHash;
  }

  /** The goal difference against zero. */
  function Differs(c: Comparison): seq<WirePredicate> {
    [Binary(0, 1, Subtract, c, 0)]
  }

  /** A predicate on the goal difference is answered with what the batch says. */
  lemma CompoundAnswers(home: i32, c: Comparison)
    requires home == 0 || home == 1
    ensures !ProofBreaks(TwoDays(), LEGS, ProofOf(home))
    ensures BuildAndVerify(TERMS, TwoDays().published, 1, LEGS, Differs(c), ProofOf(home)) == Ok(Compare(home, 0, c))
  {
    hide ProofBreaks, BatchProves, Verdict, Evaluation, EpochDayOf;
    var proof := ProofOf(home);
    NoBreakOfBatch(home);
    NoBreakOfLegs(home);
    LeavesOf(home);
    BothLeavesAccepted(Leaf(home, 0), Leaf(home, 1));
    MockProof.DifferenceVerdict(c, home, 0);
    hide StatHash, Compare;
    assert Hashes(proof.multiproofHashes) == [];
  }

  /**
   * The hypothesis on the batches is needed: in a public world, with the hash unbroken on
   * every proof, the home win and the draw both verify, for a match-winner market and for
   * the shipped type 28 alike, because two batches publish two home scores. A vault on the
   * home win could be sent to either side.
   */
  lemma TwoOutcomesCanVerify()
    ensures exists w: World<Term>, plain1, plain2, proof1, proof2 ::
              && Public(w, 1)
              && PlainVerified(w, 1, MatchWinnerSpecs(1, 2, 100)[0], plain1)
              && PlainVerified(w, 1, MatchWinnerSpecs(1, 2, 100)[1], plain2)
              && |CATALOGUE[0].outcomes| == 3 && |LEGS| == |CATALOGUE[0].legs|
              && Verified(w, 1, LEGS, CATALOGUE[0].outcomes[0], proof1)
              && Verified(w, 1, LEGS, CATALOGUE[0].outcomes[1], proof2)
              && BuildAndVerify(w.h, w.published, 1, LEGS, CATALOGUE[0].outcomes[0], proof2) == Ok(false)
              && AgreeOn([StatLeg(2, 100)], StatsOf(w, proof1.batch), StatsOf(w, proof2.batch))
              && !AgreeOn([StatLeg(1, 100)], StatsOf(w, proof1.batch), StatsOf(w, proof2.batch))
  {
    hide Public, PlainVerified, BuildAndVerify, ProofBreaks, AgreeOn, CATALOGUE, Differs, MatchWinnerSpecs, Compare;
    TwoDaysArePublic();
    PlainVerifies(1, 0);
    PlainVerifies(0, 1);
    MatchWinnerType();
    CompoundAnswers(1, GreaterThan);
    CompoundAnswers(0, EqualTo);
    CompoundAnswers(0, GreaterThan);
    HomeWinsOrDraws();
    OnlyHomeDiffers();
    assert Verified(TwoDays(), 1, LEGS, CATALOGUE[0].outcomes[0], ProofOf(1));
  }

  lemma HomeWinsOrDraws()
    ensures Compare(1, 0, GreaterThan) && Compare(0, 0, EqualTo) && !Compare(0, 0, GreaterThan)
  {
  }

  /** Type 28 is the match winner. */
  lemma MatchWinnerType()
    ensures |CATALOGUE| > 0 && |CATALOGUE[0].outcomes| == 3 && |CATALOGUE[0].legs| == |LEGS|
    ensures CATALOGUE[0].outcomes[0] == Differs(GreaterThan) && CATALOGUE[0].outcomes[1] == Differs(EqualTo)
  {
    assert CATALOGUE[0] == MarketTypeDef(28, Pair(1, 2), RESULT);
  }

  lemma OnlyHomeDiffers()
    ensures AgreeOn([StatLeg(2, 100)], Scores(1), Scores(0)) && !AgreeOn([StatLeg(1, 100)], Scores(1), Scores(0))
  {
    assert Scores(1)[0].value != Scores(0)[0].value && [StatLeg(1, 100)][0].key == 1;
  }
}
