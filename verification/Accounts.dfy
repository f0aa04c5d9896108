/**
 * The accounts of the program as Borsh schemas, and the space allocated for them:
 * sized to what an account actually holds, it is always enough.
 */
module Accounts {
  import opened Wrappers
  import opened Numbers
  import opened Borsh
  import opened Codec
  import opened Strategy
  import opened Coverage

  // --- layouts ------------------------------------------------------------------------------

  const PUBKEY := Raw(32)
  const BOOL := Enum([Nothing, Nothing])
  const COMPARISON := Enum([Nothing, Nothing, Nothing])
  const OP := Enum([Nothing, Nothing])
  const OPTIONAL_OP := Enum([Nothing, OP])

  const STAT_LEG := Pair(UInt(4), SInt(4))
  const SINGLE := Pair(UInt(1), Pair(COMPARISON, SInt(4)))
  const BINARY := Pair(UInt(1), Pair(UInt(1), Pair(OP, Pair(COMPARISON, SInt(4)))))
  const LEG_PREDICATE := Enum([SINGLE, BINARY])
  const COMBO_OUTCOME := Vec(LEG_PREDICATE, MAX_LEGS)

  /** `ComboSpec`: market, legs, outcomes, bump. */
  function ComboSchema(maxLegs: nat, maxOutcomes: nat): Schema {
    Pair(PUBKEY, Pair(Vec(STAT_LEG, maxLegs), Pair(Vec(COMBO_OUTCOME, maxOutcomes), UInt(1))))
  }

  /** `OutcomeSpec` and the pool: stat a, stat b with its flag, operator, comparison, threshold. */
  const OUTCOME_SPEC := Pair(Pair(UInt(4), SInt(4)), Pair(Pair(BOOL, Pair(UInt(4), SInt(4))),
                                                          Pair(OPTIONAL_OP, Pair(COMPARISON, SInt(4)))))
  const OUTCOME_STATE := Pair(OUTCOME_SPEC, UInt(8))

  /** Up to the fee treasury. */
  const MARKET_TERMS := Pair(Pair(PUBKEY, SInt(8)),
                             Pair(Pair(Pair(UInt(1), Enum([Nothing, Nothing, Nothing, Nothing])),
                                       Pair(UInt(1), UInt(1))),
                                  Pair(Pair(UInt(2), Pair(SInt(8), SInt(8))),
                                       Pair(Pair(PUBKEY, PUBKEY), Pair(PUBKEY, PUBKEY)))))
  /** `total_pool` to `fee_withdrawn`. */
  const MARKET_MONEY := Pair(Pair(UInt(8), UInt(8)), Pair(UInt(8), Pair(Pair(UInt(8), UInt(8)), BOOL)))
  /** `settled_at` to `vault_bump`. */
  const RECEIPT := Pair(Pair(SInt(8), Raw(32)),
                        Pair(Pair(SInt(8), UInt(2)), Pair(Pair(PUBKEY, PUBKEY), Pair(UInt(1), UInt(1)))))

  function MarketSchema(maxOutcomes: nat): Schema {
    Pair(Pair(MARKET_TERMS, Pair(MARKET_MONEY, RECEIPT)), Vec(OUTCOME_STATE, maxOutcomes))
  }

  /** `depositor` to `status`. */
  const VAULT_TERMS := Pair(Pair(PUBKEY, PUBKEY),
                            Pair(Pair(UInt(8), SInt(8)),
                                 Pair(Pair(PUBKEY, PUBKEY), Pair(UInt(8), Enum([Nothing, Nothing, Nothing])))))
  /** `lock_time` to `oracle_program`. */
  const VAULT_TIMES := Pair(SInt(8), Pair(SInt(8), PUBKEY))

  function VaultSchema(maxLegs: nat, maxPredicates: nat): Schema {
    Pair(VAULT_TERMS, Pair(Vec(STAT_LEG, maxLegs), Pair(Vec(LEG_PREDICATE, maxPredicates), Pair(VAULT_TIMES, RECEIPT))))
  }

  // --- `INIT_SPACE` ----------------------------------------------------------------------------

  lemma SmallSpaces()
    ensures InitSpace(BOOL) == InitSpace(COMPARISON) == InitSpace(OP) == 1
    ensures InitSpace(Enum([Nothing, Nothing, Nothing, Nothing])) == 1
    ensures InitSpace(Enum([Nothing, Nothing, Nothing])) == 1
  {
    forall k | 0 <= k <= 2 ensures LargestCase(BOOL, k) == 0 {
      NothingLargest(BOOL, k);
    }
    NothingLargest(COMPARISON, 3);
    NothingLargest(Enum([Nothing, Nothing, Nothing, Nothing]), 4);
  }

  lemma {:induction false} NothingLargest(s: Schema, k: nat)
    requires s.Enum? && k <= |s.cases| && forall i :: 0 <= i < |s.cases| ==> s.cases[i] == Nothing
    ensures LargestCase(s, k) == 0
    decreases k
  {
    if k > 0 {
      NothingLargest(s, k - 1);
      assert InitSpace(s.cases[k - 1]) == 0;
    }
  }

  lemma TwoCases(s: Schema)
    requires s.Enum? && |s.cases| == 2
    ensures InitSpace(s) == 1 + (if InitSpace(s.cases[0]) < InitSpace(s.cases[1]) then InitSpace(s.cases[1])
                                 else InitSpace(s.cases[0]))
  {
    assert LargestCase(s, 0) == 0;
    assert LargestCase(s, 1) == InitSpace(s.cases[0]);
  }

  lemma ComboPartSpaces()
    ensures InitSpace(STAT_LEG) == 8 && InitSpace(LEG_PREDICATE) == 9 && InitSpace(COMBO_OUTCOME) == 49
  {
    SmallSpaces();
    hide LargestCase;
    PairSpace(Pair(COMPARISON, SInt(4)));
    PairSpace(SINGLE);
    PairSpace(Pair(OP, Pair(COMPARISON, SInt(4))));
    PairSpace(Pair(UInt(1), Pair(OP, Pair(COMPARISON, SInt(4)))));
    PairSpace(BINARY);
    TwoCases(LEG_PREDICATE);
  }

  lemma PairSpace(s: Schema)
    requires s.Pair?
    ensures InitSpace(s) == InitSpace(s.first) + InitSpace(s.second)
  {
  }

  lemma TermsSpace()
    ensures InitSpace(MARKET_TERMS) == 190 && InitSpace(MARKET_MONEY) == 41
  {
    SmallSpaces();
    hide LargestCase;
    PairSpace(MARKET_TERMS);
    PairSpace(MARKET_TERMS.first);
    PairSpace(MARKET_TERMS.second);
    PairSpace(MARKET_TERMS.second.first);
    PairSpace(MARKET_TERMS.second.first.first);
    PairSpace(MARKET_TERMS.second.second);
    PairSpace(MARKET_TERMS.second.second.first);
    PairSpace(MARKET_TERMS.second.second.second);
    PairSpace(MARKET_MONEY);
    PairSpace(MARKET_MONEY.second);
    PairSpace(MARKET_MONEY.second.second);
  }

  lemma OutcomeSpace()
    ensures InitSpace(OUTCOME_SPEC) == 24 && InitSpace(OUTCOME_STATE) == 32
  {
    SmallSpaces();
    TwoCases(OPTIONAL_OP);
    hide LargestCase;
    PairSpace(OUTCOME_SPEC);
    PairSpace(OUTCOME_SPEC.second);
    PairSpace(OUTCOME_SPEC.second.first);
    PairSpace(OUTCOME_SPEC.second.second);
    PairSpace(OUTCOME_SPEC.second.second.second);
    PairSpace(OUTCOME_STATE);
  }

  lemma ReceiptSpace()
    ensures InitSpace(RECEIPT) == 116 && InitSpace(VAULT_TERMS) == 153 && InitSpace(VAULT_TIMES) == 48
  {
    SmallSpaces();
    hide LargestCase;
    PairSpace(RECEIPT);
    PairSpace(RECEIPT.second);
    PairSpace(RECEIPT.second.second);
    PairSpace(VAULT_TERMS);
    PairSpace(VAULT_TERMS.second);
    PairSpace(VAULT_TERMS.second.second);
    PairSpace(VAULT_TERMS.second.second.second);
    PairSpace(VAULT_TIMES);
  }

  lemma MarketPartSpaces()
    ensures InitSpace(MARKET_TERMS) == 190 && InitSpace(MARKET_MONEY) == 41 && InitSpace(RECEIPT) == 116
    ensures InitSpace(OUTCOME_STATE) == 32 && InitSpace(VAULT_TERMS) == 153 && InitSpace(VAULT_TIMES) == 48
  {
    hide InitSpace;
    TermsSpace();
    OutcomeSpace();
    ReceiptSpace();
  }

  // --- sized allocation -------------------------------------------------------------------------

  const DISCRIMINATOR := 8

  function SaturatingSub(a: nat, b: nat): nat {
    if b <= a then a - b else 0
  }

  /** `ComboSpec::space`: the full size less what is unused. */
  function ComboSpace(legs: nat, outcomes: nat): int {
    DISCRIMINATOR + InitSpace(ComboSchema(MAX_LEGS, MAX_OUTCOMES))
    - SaturatingSub(MAX_LEGS, legs) * InitSpace(STAT_LEG)
    - SaturatingSub(MAX_OUTCOMES, outcomes) * InitSpace(COMBO_OUTCOME)
  }

  function MarketSpace(outcomes: nat): int {
    DISCRIMINATOR + InitSpace(MarketSchema(MAX_OUTCOMES))
    - SaturatingSub(MAX_OUTCOMES, outcomes) * InitSpace(OUTCOME_STATE)
  }

  function VaultSpace(legs: nat, predicates: nat): int {
    DISCRIMINATOR + InitSpace(VaultSchema(MAX_LEGS, MAX_LEGS))
    - SaturatingSub(MAX_LEGS, legs) * InitSpace(STAT_LEG)
    - SaturatingSub(MAX_LEGS, predicates) * InitSpace(LEG_PREDICATE)
  }

  lemma ComboSchemaSpace(legs: nat, outcomes: nat)
    ensures InitSpace(ComboSchema(legs, outcomes)) == 41 + 8 * legs + 49 * outcomes
  {
    ComboPartSpaces();
    hide LargestCase;
    var s := ComboSchema(legs, outcomes);
    PairSpace(s);
    PairSpace(s.second);
    PairSpace(s.second.second);
  }

  lemma MarketSchemaSpace(outcomes: nat)
    ensures InitSpace(MarketSchema(outcomes)) == 351 + 32 * outcomes
  {
    MarketPartSpaces();
    hide LargestCase;
    var s := MarketSchema(outcomes);
    PairSpace(s);
    PairSpace(s.first);
    PairSpace(s.first.second);
  }

  lemma VaultSchemaSpace(legs: nat, predicates: nat)
    ensures InitSpace(VaultSchema(legs, predicates)) == 325 + 8 * legs + 9 * predicates
  {
    MarketPartSpaces();
    ComboPartSpaces();
    hide LargestCase;
    var s := VaultSchema(legs, predicates);
    PairSpace(s);
    PairSpace(s.second);
    PairSpace(s.second.second);
    PairSpace(s.second.second.second);
  }

  /** Subtracting the unused part is reserving for exactly what is used. */
  lemma SpaceIsSized(legs: nat, predicates: nat, outcomes: nat)
    requires legs <= MAX_LEGS && predicates <= MAX_LEGS && outcomes <= MAX_OUTCOMES
    ensures ComboSpace(legs, outcomes) == DISCRIMINATOR + InitSpace(ComboSchema(legs, outcomes))
    ensures MarketSpace(outcomes) == DISCRIMINATOR + InitSpace(MarketSchema(outcomes))
    ensures VaultSpace(legs, predicates) == DISCRIMINATOR + InitSpace(VaultSchema(legs, predicates))
  {
    ComboPartSpaces();
    MarketPartSpaces();
    ComboSchemaSpace(legs, outcomes);
    ComboSchemaSpace(MAX_LEGS, MAX_OUTCOMES);
    MarketSchemaSpace(outcomes);
    MarketSchemaSpace(MAX_OUTCOMES);
    VaultSchemaSpace(legs, predicates);
    VaultSchemaSpace(MAX_LEGS, MAX_LEGS);
    hide InitSpace;
  }

  // --- a combo spec as a value ---------------------------------------------------------------------

  function LegValue(l: StatLeg): Value {
    Both(Int(l.key), Int(l.period))
  }

  function ComparisonValue(c: Comparison): Value {
    Case(match c case GreaterThan => 0 case LessThan => 1 case EqualTo => 2, Unit)
  }

  function OpValue(op: BinaryExpression): Value {
    Case(match op case Add => 0 case Subtract => 1, Unit)
  }

  function PredicateValue(p: WirePredicate): Value {
    match p
    case Single(i, c, t) => Case(0, Both(Int(i), Both(ComparisonValue(c), Int(t))))
    case Binary(a, b, op, c, t) =>
      Case(1, Both(Int(a), Both(Int(b), Both(OpValue(op), Both(ComparisonValue(c), Int(t))))))
  }

  function PredicatesValue(ps: seq<WirePredicate>): Value {
    Items(seq(|ps|, i requires 0 <= i < |ps| => PredicateValue(ps[i])))
  }

  function LegsValue(legs: seq<StatLeg>): Value {
    Items(seq(|legs|, i requires 0 <= i < |legs| => LegValue(legs[i])))
  }

  function OutcomesValue(outcomes: seq<ComboOutcome>): Value {
    Items(seq(|outcomes|, i requires 0 <= i < |outcomes| => PredicatesValue(outcomes[i].predicates)))
  }

  function ComboValue(market: Bytes, spec: ComboSpec, bump: u8): Value {
    Both(Blob(market), Both(LegsValue(spec.legs), Both(OutcomesValue(spec.outcomes), Int(bump))))
  }

  lemma LegFits(l: StatLeg)
    ensures Fits(STAT_LEG, LegValue(l)) && WithinMax(STAT_LEG, LegValue(l))
  {
    Widths();
    hide Pow256;
    assert Fits(UInt(4), Int(l.key)) && Fits(SInt(4), Int(l.period));
  }

  lemma ComparisonFits(c: Comparison, t: i32)
    ensures var s, v := Pair(COMPARISON, SInt(4)), Both(ComparisonValue(c), Int(t));
            Fits(s, v) && WithinMax(s, v)
  {
    Widths();
    hide Pow256;
    assert Fits(SInt(4), Int(t)) && WithinMax(SInt(4), Int(t));
    assert Fits(COMPARISON, ComparisonValue(c)) && WithinMax(COMPARISON, ComparisonValue(c));
  }

  lemma IndexFits(i: u8)
    ensures Fits(UInt(1), Int(i)) && WithinMax(UInt(1), Int(i))
  {
    Widths();
  }

  lemma BinaryFits(a: u8, b: u8, op: BinaryExpression, c: Comparison, t: i32)
    ensures var v := Both(Int(a), Both(Int(b), Both(OpValue(op), Both(ComparisonValue(c), Int(t)))));
            Fits(BINARY, v) && WithinMax(BINARY, v)
  {
    hide Pow256, ComparisonValue;
    IndexFits(a);
    IndexFits(b);
    ComparisonFits(c, t);
    var rest := Both(OpValue(op), Both(ComparisonValue(c), Int(t)));
    assert Fits(BINARY.second.second, rest) && WithinMax(BINARY.second.second, rest);
    assert Fits(BINARY.second, Both(Int(b), rest)) && WithinMax(BINARY.second, Both(Int(b), rest));
  }

  lemma PredicateFits(p: WirePredicate)
    ensures Fits(LEG_PREDICATE, PredicateValue(p)) && WithinMax(LEG_PREDICATE, PredicateValue(p))
  {
    hide Pow256, ComparisonValue, OpValue;
    match p
    case Single(i, c, t) =>
      assert i in Refs(p);
      IndexFits(i);
      ComparisonFits(c, t);
      assert Fits(SINGLE, PredicateValue(p).payload) && WithinMax(SINGLE, PredicateValue(p).payload);
    case Binary(a, b, op, c, t) =>
      assert a in Refs(p) && b in Refs(p);
      BinaryFits(a, b, op, c, t);
  }

  lemma PredicatesFit(ps: seq<WirePredicate>, maxLen: nat)
    requires |ps| <= maxLen && |ps| < Pow256(4)
    ensures Fits(Vec(LEG_PREDICATE, maxLen), PredicatesValue(ps))
    ensures WithinMax(Vec(LEG_PREDICATE, maxLen), PredicatesValue(ps))
  {
    hide Pow256;
    var v := PredicatesValue(ps);
    forall i | 0 <= i < |ps|
      ensures Fits(LEG_PREDICATE, v.items[i]) && WithinMax(LEG_PREDICATE, v.items[i])
    {
      PredicateFits(ps[i]);
    }
  }

  /** A validated spec is a value of the schema for its own numbers of legs and outcomes. */
  lemma ComboFits(market: Bytes, spec: ComboSpec, bump: u8, numOutcomes: u8)
    requires |market| == 32 && WellFormed(spec, numOutcomes)
    ensures var s := ComboSchema(|spec.legs|, |spec.outcomes|);
            Fits(s, ComboValue(market, spec, bump)) && WithinMax(s, ComboValue(market, spec, bump))
  {
    Widths();
    hide Pow256;
    var legs, outcomes := LegsValue(spec.legs), OutcomesValue(spec.outcomes);
    forall i | 0 <= i < |spec.legs|
      ensures Fits(STAT_LEG, legs.items[i]) && WithinMax(STAT_LEG, legs.items[i])
    {
      LegFits(spec.legs[i]);
    }
    forall i | 0 <= i < |spec.outcomes|
      ensures Fits(COMBO_OUTCOME, outcomes.items[i]) && WithinMax(COMBO_OUTCOME, outcomes.items[i])
    {
      PredicatesAtMostLegs(spec.outcomes[i].predicates, |spec.legs|);
      PredicatesFit(spec.outcomes[i].predicates, MAX_LEGS);
    }
    FourFields(market, legs, outcomes, bump, |spec.legs|, |spec.outcomes|);
  }

  lemma FourFields(market: Bytes, legs: Value, outcomes: Value, bump: u8, l: nat, o: nat)
    requires |market| == 32
    requires Fits(Vec(STAT_LEG, l), legs) && WithinMax(Vec(STAT_LEG, l), legs)
    requires Fits(Vec(COMBO_OUTCOME, o), outcomes) && WithinMax(Vec(COMBO_OUTCOME, o), outcomes)
    ensures var v := Both(Blob(market), Both(legs, Both(outcomes, Int(bump))));
            Fits(ComboSchema(l, o), v) && WithinMax(ComboSchema(l, o), v)
  {
    Widths();
    var s := ComboSchema(l, o);
    assert Fits(s.second.second, Both(outcomes, Int(bump))) && WithinMax(s.second.second, Both(outcomes, Int(bump)));
    assert Fits(s.second, Both(legs, Both(outcomes, Int(bump))));
  }

  // --- main results -------------------------------------------------------------------------------

  /**
   * The space allocated for a combo spec always holds it: validation leaves each
   * outcome at most one predicate per leg.
   */
  lemma ValidatedComboFitsItsAccount(market: Bytes, spec: ComboSpec, bump: u8, numOutcomes: u8)
    requires |market| == 32 && WellFormed(spec, numOutcomes) && numOutcomes <= MAX_OUTCOMES
    ensures var s, v := ComboSchema(|spec.legs|, |spec.outcomes|), ComboValue(market, spec, bump);
            Fits(s, v) && DISCRIMINATOR + |Encode(s, v)| <= ComboSpace(|spec.legs|, |spec.outcomes|)
  {
    ComboFits(market, spec, bump, numOutcomes);
    FitsReservedSpace(ComboSchema(|spec.legs|, |spec.outcomes|), ComboValue(market, spec, bump));
    SpaceIsSized(|spec.legs|, 0, |spec.outcomes|);
    hide InitSpace, Encode, Fits, WithinMax, ComboSpace;
  }

  /** Reading the account back gives the spec, whatever limits the reader was compiled with. */
  lemma ComboReadsBack(market: Bytes, spec: ComboSpec, bump: u8, numOutcomes: u8, maxLegs: nat, maxOutcomes: nat,
                       padding: Bytes)
    requires |market| == 32 && WellFormed(spec, numOutcomes)
    ensures var s, v := ComboSchema(|spec.legs|, |spec.outcomes|), ComboValue(market, spec, bump);
            Fits(s, v) && Decode(ComboSchema(maxLegs, maxOutcomes), Encode(s, v) + padding) == Some((v, padding))
  {
    var s, v := ComboSchema(|spec.legs|, |spec.outcomes|), ComboValue(market, spec, bump);
    ComboFits(market, spec, bump, numOutcomes);
    ComboLayout(|spec.legs|, |spec.outcomes|, maxLegs, maxOutcomes);
    ReadsUnderOtherMaxLens(s, ComboSchema(maxLegs, maxOutcomes), v, padding);
  }

  lemma {:induction false} SameLayoutItself(s: Schema)
    ensures SameLayout(s, s)
    decreases s
  {
    match s
    case Pair(a, b) =>
      SameLayoutItself(a);
      SameLayoutItself(b);
    case Vec(item, _) => SameLayoutItself(item);
    case Enum(cases) =>
      forall i | 0 <= i < |cases| ensures SameLayout(cases[i], cases[i]) {
        SameLayoutItself(cases[i]);
      }
    case _ =>
  }

  lemma ComboLayout(l: nat, o: nat, l': nat, o': nat)
    ensures SameLayout(ComboSchema(l, o), ComboSchema(l', o'))
  {
    var s, t := ComboSchema(l, o), ComboSchema(l', o');
    SameLayoutItself(STAT_LEG);
    SameLayoutItself(COMBO_OUTCOME);
    SameLayoutItself(UInt(1));
    assert SameLayout(s.second.first, t.second.first);
    assert SameLayout(s.second.second, t.second.second);
    assert SameLayout(s.second, t.second);
  }

  /** The value determines the spec, so reading it back loses nothing. */
  lemma ComboValueInjective(m: Bytes, a: ComboSpec, x: u8, n: Bytes, b: ComboSpec, y: u8)
    requires ComboValue(m, a, x) == ComboValue(n, b, y)
    ensures m == n && a == b && x == y
  {
    var la, lb := LegsValue(a.legs), LegsValue(b.legs);
    assert |la.items| == |a.legs| && |lb.items| == |b.legs|;
    forall i | 0 <= i < |a.legs| ensures a.legs[i] == b.legs[i] {
      assert la.items[i] == LegValue(a.legs[i]) && lb.items[i] == LegValue(b.legs[i]);
    }
    var oa, ob := OutcomesValue(a.outcomes), OutcomesValue(b.outcomes);
    assert |oa.items| == |a.outcomes| && |ob.items| == |b.outcomes|;
    forall i | 0 <= i < |a.outcomes| ensures a.outcomes[i] == b.outcomes[i] {
      assert oa.items[i] == PredicatesValue(a.outcomes[i].predicates);
      assert ob.items[i] == PredicatesValue(b.outcomes[i].predicates);
      PredicatesInjective(a.outcomes[i].predicates, b.outcomes[i].predicates);
    }
  }

  lemma PredicatesInjective(ps: seq<WirePredicate>, qs: seq<WirePredicate>)
    requires PredicatesValue(ps) == PredicatesValue(qs)
    ensures ps == qs
  {
    var a, b := PredicatesValue(ps), PredicatesValue(qs);
    assert |a.items| == |ps| && |b.items| == |qs|;
    forall i | 0 <= i < |ps| ensures ps[i] == qs[i] {
      assert a.items[i] == PredicateValue(ps[i]) && b.items[i] == PredicateValue(qs[i]);
    }
  }

  lemma MarketLayout(m: nat, n: nat)
    ensures SameLayout(MarketSchema(m), MarketSchema(n))
  {
    var s, t := MarketSchema(m), MarketSchema(n);
    SameLayoutItself(s.first);
    SameLayoutItself(OUTCOME_STATE);
    assert SameLayout(s.second, t.second);
  }

  /** A market with `n` outcomes, settled or not, fits the account sized for `n`. */
  lemma MarketFitsItsAccount(n: nat, v: Value)
    requires n <= MAX_OUTCOMES
    requires Fits(MarketSchema(n), v) && WithinMax(MarketSchema(n), v)
    ensures DISCRIMINATOR + |Encode(MarketSchema(n), v)| <= MarketSpace(n)
  {
    FitsReservedSpace(MarketSchema(n), v);
    SpaceIsSized(0, 0, n);
    hide InitSpace, Encode, Fits, WithinMax, MarketSpace;
  }

  /** So does a vault with its own numbers of legs and predicates. */
  lemma VaultFitsItsAccount(legs: nat, predicates: nat, v: Value)
    requires legs <= MAX_LEGS && predicates <= MAX_LEGS
    requires Fits(VaultSchema(legs, predicates), v) && WithinMax(VaultSchema(legs, predicates), v)
    ensures DISCRIMINATOR + |Encode(VaultSchema(legs, predicates), v)| <= VaultSpace(legs, predicates)
  {
    FitsReservedSpace(VaultSchema(legs, predicates), v);
    SpaceIsSized(legs, predicates, 0);
    hide InitSpace, Encode, Fits, WithinMax, VaultSpace;
  }

  /**
   * A market written when at most 8 outcomes were allowed occupies 615 bytes, reads
   * back the same under any limit, and still fits when written again.
   */
  lemma OldMarketsStillRead(v: Value, maxOutcomes: nat, padding: Bytes)
    requires Fits(MarketSchema(8), v) && WithinMax(MarketSchema(8), v)
    ensures Fits(MarketSchema(maxOutcomes), v)
    ensures Decode(MarketSchema(maxOutcomes), Encode(MarketSchema(8), v) + padding) == Some((v, padding))
    ensures DISCRIMINATOR + |Encode(MarketSchema(maxOutcomes), v)| <= DISCRIMINATOR + InitSpace(MarketSchema(8)) == 615
  {
    hide InitSpace, Encode, Decode, Fits, WithinMax, SameLayout, MarketSchema;
    var s, t := MarketSchema(8), MarketSchema(maxOutcomes);
    MarketLayout(8, maxOutcomes);
    ReadsUnderOtherMaxLens(s, t, v, padding);
    MaxLensLeaveNoTrace(s, t, v);
    FitsReservedSpace(s, v);
    MarketSchemaSpace(8);
  }
}
