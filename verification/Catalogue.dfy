/**
 * Market types: conditions with exact complements, the 2x2 parlay grid built from
 * two of them, the shipped catalogue, and the keeper's local choice of the outcome
 * to claim.
 */
module Catalogue {
  import opened Wrappers
  import opened Numbers
  import opened Strategy
  import opened Coverage
  import opened SdkCoverage

  datatype Leg = Leg(key: int, period: int)

  datatype MarketTypeDef = MarketTypeDef(marketType: nat, legs: seq<Leg>, outcomes: seq<seq<Predicate>>)

  // --- stat families ----------------------------------------------------------------

  datatype Stat = Goals | Yellows | Reds | Corners
  datatype Family = Family(period: nat, stat: Stat)

  /** `familyOf`: none for a key that is not provable, where the program throws. */
  function FamilyOf(key: int): Option<Family> {
    if key < 0 then None
    else
      var base := key % 1000;
      var period := key / 1000;
      if base == 1 || base == 2 then Some(Family(period, Goals))
      else if base == 3 || base == 4 then Some(Family(period, Yellows))
      else if base == 5 || base == 6 then Some(Family(period, Reds))
      else if base == 7 || base == 8 then Some(Family(period, Corners))
      else None
  }

  // --- conditions --------------------------------------------------------------------

  /** A predicate over some legs and its complement, each built at a leg offset. */
  datatype Condition = Condition(legs: seq<Leg>, pred: nat -> Predicate, neg: nat -> Predicate)

  /** `p` reads each of the `n` legs from `offset` on exactly once. */
  ghost predicate ReadsBlock(p: Predicate, offset: nat, n: nat) {
    NoRepeats(Refs(p)) && forall i :: i in Refs(p) <==> offset <= i < offset + n
  }

  lemma BlockInRange(p: Predicate, offset: nat, n: nat, total: nat)
    requires ReadsBlock(p, offset, n) && offset + n <= total
    ensures InRange(Refs(p), total)
  {
  }

  /** Reads its own legs once each; `neg` is the exact complement; offsets only shift. */
  ghost predicate WellFormedCondition(c: Condition) {
    && (forall o: nat :: ReadsBlock(c.pred(o), o, |c.legs|) && ReadsBlock(c.neg(o), o, |c.legs|))
    && (forall o: nat, values: seq<int> {:trigger c.pred(o), Met(c, values)} {:trigger c.neg(o), Met(c, values)} ::
          |values| == |c.legs| ==> ShiftsTo(c.pred(o), o, values, Met(c, values))
                                   && ShiftsTo(c.neg(o), o, values, !Met(c, values)))
  }

  /** The condition, on the values of its own legs. */
  ghost predicate Met(c: Condition, values: seq<int>) {
    InRange(Refs(c.pred(0)), |values|) && Holds(c.pred(0), values)
  }

  /** At the offset `o` of any longer value list, `p` says `verdict` of the block `values`. */
  ghost predicate ShiftsTo(p: Predicate, o: nat, values: seq<int>, verdict: bool) {
    forall all: seq<int> :: o + |values| <= |all| && all[o..o + |values|] == values && InRange(Refs(p), |all|) ==>
      (Holds(p, all) <==> verdict)
  }

  function Over(op: BinaryExpression, t: int, legs: seq<Leg>): Condition {
    Condition(legs,
              (o: nat) => Binary(o, o + 1, op, GreaterThan, t),
              (o: nat) => Binary(o, o + 1, op, LessThan, t + 1))
  }

  const FINALISED := 100

  function Pair(key1: int, key2: int): seq<Leg> {
    [Leg(key1, FINALISED), Leg(key2, FINALISED)]
  }

  /** P1 - P2 > 0. */
  function HomeWin(): Condition {
    Over(Subtract, 0, Pair(1, 2))
  }

  /** The two stats added exceed the line; on integers, exceed its floor. */
  function OverTotal(key1: int, key2: int, line: real): Condition {
    Over(Add, line.Floor, Pair(key1, key2))
  }

  function OverGoals(line: real): Condition { OverTotal(1, 2, line) }
  function OverYellows(line: real): Condition { OverTotal(3, 4, line) }
  function OverCorners(line: real): Condition { OverTotal(7, 8, line) }

  /** Both the win and every over/under line are complements on all integers. */
  lemma OverIsWellFormed(op: BinaryExpression, t: int, legs: seq<Leg>)
    requires |legs| == 2
    ensures WellFormedCondition(Over(op, t, legs))
  {
    var c := Over(op, t, legs);
    forall o: nat ensures ReadsBlock(c.pred(o), o, 2) && ReadsBlock(c.neg(o), o, 2) {
      assert Refs(c.pred(o)) == [o, o + 1] == Refs(c.neg(o));
    }
    forall o: nat, values: seq<int> | |values| == 2
      ensures ShiftsTo(c.pred(o), o, values, Met(c, values))
      ensures ShiftsTo(c.neg(o), o, values, !Met(c, values))
    {
      OverShifts(c, op, t, o, values);
    }
  }

  lemma OverShifts(c: Condition, op: BinaryExpression, t: int, o: nat, values: seq<int>)
    requires |c.legs| == 2 && c == Over(op, t, c.legs) && |values| == 2
    ensures ShiftsTo(c.pred(o), o, values, Met(c, values))
    ensures ShiftsTo(c.neg(o), o, values, !Met(c, values))
  {
    assert c.pred(0) == Binary(0, 1, op, GreaterThan, t);
    forall all: seq<int> | o + 2 <= |all| && all[o..o + 2] == values && InRange(Refs(c.pred(o)), |all|)
      ensures Holds(c.pred(o), all) <==> Met(c, values)
      ensures InRange(Refs(c.neg(o)), |all|) && (Holds(c.neg(o), all) <==> !Met(c, values))
    {
      assert all[o] == all[o..o + 2][0] && all[o + 1] == all[o..o + 2][1];
      assert Refs(c.neg(o)) == Refs(c.pred(o));
    }
    forall all: seq<int> | o + 2 <= |all| && all[o..o + 2] == values && InRange(Refs(c.neg(o)), |all|)
      ensures Holds(c.neg(o), all) <==> !Met(c, values)
    {
      assert all[o] == all[o..o + 2][0] && all[o + 1] == all[o..o + 2][1];
      assert Refs(c.neg(o)) == Refs(c.pred(o));
    }
  }

  /** "Over 2.5" is `> 2`: an integer total exceeds the line iff it exceeds its floor, else the complement holds. */
  lemma OverMeansAboveTheLine(key1: int, key2: int, line: real, a: int, b: int)
    ensures Met(OverTotal(key1, key2, line), [a, b]) <==> (a + b) as real > line
    ensures var under := OverTotal(key1, key2, line).neg(0);
            InRange(Refs(under), 2) && (Holds(under, [a, b]) <==> (a + b) as real <= line)
  {
    var c := OverTotal(key1, key2, line);
    assert c.pred(0) == Binary(0, 1, Add, GreaterThan, line.Floor);
    assert c.neg(0) == Binary(0, 1, Add, LessThan, line.Floor + 1);
    assert Refs(c.pred(0)) == Refs(c.neg(0)) == [0, 1];
  }

  /** The label "under" is right, strictly below the line, exactly for lines no total can hit. */
  lemma UnderMeansBelowIffLineIsFractional(key1: int, key2: int, line: real)
    ensures InRange(Refs(OverTotal(key1, key2, line).neg(0)), 2)
    ensures (forall a: int, b: int :: Holds(OverTotal(key1, key2, line).neg(0), [a, b]) <==> (a + b) as real < line)
            <==> line.Floor as real != line
  {
    var under := OverTotal(key1, key2, line).neg(0);
    forall a: int, b: int
      ensures InRange(Refs(under), 2) && (Holds(under, [a, b]) <==> (a + b) as real <= line)
    {
      OverMeansAboveTheLine(key1, key2, line, a, b);
    }
    OverMeansAboveTheLine(key1, key2, line, line.Floor, 0);
    if line.Floor as real == line {
      assert Holds(under, [line.Floor, 0]) && !((line.Floor + 0) as real < line);
    }
  }

  // --- the parlay grid ---------------------------------------------------------------

  datatype ParlayError = Unprovable | SharedFamily | TooManyLegs

  function FamiliesOf(legs: seq<Leg>): Option<set<Family>> {
    if legs == [] then Some({})
    else
      match (FamiliesOf(legs[..|legs| - 1]), FamilyOf(legs[|legs| - 1].key))
      case (Some(fs), Some(f)) => Some(fs + {f})
      case _ => None
  }

  function Grid(marketType: nat, a: Condition, b: Condition): MarketTypeDef {
    var oB := |a.legs|;
    MarketTypeDef(marketType, a.legs + b.legs,
                  [[a.pred(0), b.pred(oB)], [a.pred(0), b.neg(oB)], [a.neg(0), b.pred(oB)], [a.neg(0), b.neg(oB)]])
  }

  function ParlayGrid(marketType: nat, a: Condition, b: Condition): Result<MarketTypeDef, ParlayError> {
    match (FamiliesOf(a.legs), FamiliesOf(b.legs))
    case (Some(famA), Some(famB)) =>
      if famA * famB != {} then Err(SharedFamily)
      else if |a.legs| + |b.legs| > MAX_LEGS then Err(TooManyLegs)
      else Ok(Grid(marketType, a, b))
    case _ => Err(Unprovable)
  }

  lemma {:induction false} FamiliesContain(legs: seq<Leg>, k: nat)
    requires FamiliesOf(legs).Some? && k < |legs|
    ensures FamilyOf(legs[k].key).Some? && FamilyOf(legs[k].key).value in FamiliesOf(legs).value
  {
    if k < |legs| - 1 {
      FamiliesContain(legs[..|legs| - 1], k);
    }
  }

  /** The sides of an accepted parlay read provable stats of different families. */
  lemma ParlayReadsDisjointStats(marketType: nat, a: Condition, b: Condition, i: nat, j: nat)
    requires ParlayGrid(marketType, a, b).Ok? && i < |a.legs| && j < |b.legs|
    ensures FamilyOf(a.legs[i].key).Some? && FamilyOf(b.legs[j].key).Some?
    ensures FamilyOf(a.legs[i].key) != FamilyOf(b.legs[j].key) && a.legs[i].key != b.legs[j].key
  {
    FamiliesContain(a.legs, i);
    FamiliesContain(b.legs, j);
    var famA, famB := FamiliesOf(a.legs).value, FamiliesOf(b.legs).value;
    assert famA * famB == {};
    assert forall f :: f in famA ==> f !in famB by {
      forall f | f in famA ensures f !in famB {
        assert f !in famA * famB;
      }
    }
  }

  /** Two predicates over adjacent blocks cover all legs of both. */
  lemma TwoBlocksCover(p: Predicate, q: Predicate, n: nat, m: nat)
    requires ReadsBlock(p, 0, n) && ReadsBlock(q, n, m)
    ensures RefsOf([p, q]) == Refs(p) + Refs(q)
    ensures ExactCover(RefsOf([p, q]), n + m)
  {
    assert [p, q][..1] == [p] && [p][..0] == [];
    assert RefsOf([p, q]) == RefsOf([p]) + Refs(q) && RefsOf([p]) == RefsOf([]) + Refs(p) == Refs(p);
    var refs := Refs(p) + Refs(q);
    forall i, j | 0 <= i < j < |refs| ensures refs[i] != refs[j] {
      if j < |Refs(p)| {
        assert refs[i] == Refs(p)[i] && refs[j] == Refs(p)[j];
      } else if i < |Refs(p)| {
        assert refs[i] in Refs(p) && refs[j] in Refs(q);
      } else {
        assert refs[i] == Refs(q)[i - |Refs(p)|] && refs[j] == Refs(q)[j - |Refs(p)|];
      }
    }
    forall i | 0 <= i < n + m ensures i in refs {
      assert i in Refs(p) || i in Refs(q);
    }
  }

  /** An outcome that reads every leg exactly once and holds iff `verdict`. */
  predicate Says(outcome: seq<Predicate>, values: seq<int>, verdict: bool) {
    ExactCover(RefsOf(outcome), |values|) && (AllHold(outcome, values) <==> verdict)
  }

  lemma CellMeaning(p: Predicate, q: Predicate, va: seq<int>, vb: seq<int>, sayA: bool, sayB: bool)
    requires ReadsBlock(p, 0, |va|) && ReadsBlock(q, |va|, |vb|)
    requires ShiftsTo(p, 0, va, sayA) && ShiftsTo(q, |va|, vb, sayB)
    ensures Says([p, q], va + vb, sayA && sayB)
  {
    TwoBlocksCover(p, q, |va|, |vb|);
    var all := va + vb;
    assert all[0..0 + |va|] == va && all[|va|..|va| + |vb|] == vb;
    BlockInRange(p, 0, |va|, |all|);
    BlockInRange(q, |va|, |vb|, |all|);
    assert [p, q][0] == p && [p, q][1] == q;
  }

  /**
   * Parlay compilation preserves meaning: whatever the values, every cell reads every
   * leg exactly once and exactly the cell that matches the two conditions holds.
   * Outcome 0 is "A and B".
   */
  lemma GridMeaning(marketType: nat, a: Condition, b: Condition, va: seq<int>, vb: seq<int>)
    requires WellFormedCondition(a) && WellFormedCondition(b)
    requires |va| == |a.legs| && |vb| == |b.legs|
    ensures var cells := Grid(marketType, a, b).outcomes;
            && Says(cells[0], va + vb, Met(a, va) && Met(b, vb))
            && Says(cells[1], va + vb, Met(a, va) && !Met(b, vb))
            && Says(cells[2], va + vb, !Met(a, va) && Met(b, vb))
            && Says(cells[3], va + vb, !Met(a, va) && !Met(b, vb))
  {
    hide WellFormedCondition, ShiftsTo, ReadsBlock, Says, Met;
    var n := |a.legs|;
    ConditionAt(a, 0, va);
    ConditionAt(b, n, vb);
    CellMeaning(a.pred(0), b.pred(n), va, vb, Met(a, va), Met(b, vb));
    CellMeaning(a.pred(0), b.neg(n), va, vb, Met(a, va), !Met(b, vb));
    CellMeaning(a.neg(0), b.pred(n), va, vb, !Met(a, va), Met(b, vb));
    CellMeaning(a.neg(0), b.neg(n), va, vb, !Met(a, va), !Met(b, vb));
  }

  lemma ConditionAt(c: Condition, o: nat, values: seq<int>)
    requires WellFormedCondition(c) && |values| == |c.legs|
    ensures ReadsBlock(c.pred(o), o, |c.legs|) && ReadsBlock(c.neg(o), o, |c.legs|)
    ensures ShiftsTo(c.pred(o), o, values, Met(c, values))
    ensures ShiftsTo(c.neg(o), o, values, !Met(c, values))
  {
  }

  // --- why a parlay is a grid and not Hit/Miss -----------------------------------------------

  /** The parlay of two over-conditions, on the values of its four legs. */
  predicate Hit(opA: BinaryExpression, tA: int, opB: BinaryExpression, tB: int, v: seq<int>)
    requires |v| == 4
  {
    && Compare(if opA.Add? then v[0] + v[1] else v[0] - v[1], tA, GreaterThan)
    && Compare(if opB.Add? then v[2] + v[3] else v[2] - v[3], tB, GreaterThan)
  }

  /** The value of a second operand that makes `x op y` equal `t`. */
  function Spoil(op: BinaryExpression, x: int, t: int): int {
    if op.Add? then t - x else x - t
  }

  /**
   * There is no "Miss" outcome: whatever AND of predicates covers the four legs
   * exactly once, some world it classifies like the hit itself.
   */
  lemma MissIsNotAnOutcome(opA: BinaryExpression, tA: int, opB: BinaryExpression, tB: int, ps: seq<Predicate>)
    requires ExactCover(RefsOf(ps), 4)
    ensures exists v: seq<int> :: |v| == 4 && InRange(RefsOf(ps), |v|)
                                  && (AllHold(ps, v) <==> Hit(opA, tA, opB, tB, v))
  {
    var v := [tA + 1, 0, tB + 1, 0];
    assert Hit(opA, tA, opB, tB, v);
    if !AllHold(ps, v) {
      var k :| 0 <= k < |ps| && (RefsOfMember(ps, k); !Holds(ps[k], v));
      RefsOfMember(ps, k);
      var w := SpoiledWorld(opA, tA, opB, tB, ps[k], v);
      assert !Holds(ps[k], w);
      assert !AllHold(ps, w);
    }
  }

  /** A world with the same values for the legs `p` reads, in which the parlay misses. */
  lemma SpoiledWorld(opA: BinaryExpression, tA: int, opB: BinaryExpression, tB: int, p: Predicate, v: seq<int>)
    returns (w: seq<int>)
    requires |v| == 4 && InRange(Refs(p), 4)
    ensures |w| == 4 && !Hit(opA, tA, opB, tB, w) && Operand(p, w) == Operand(p, v)
  {
    assert p.Single? ==> p.index in Refs(p);
    assert p.Binary? ==> p.indexA in Refs(p) && p.indexB in Refs(p);
    if 0 !in Refs(p) {
      w := v[0 := if opA.Add? then tA - v[1] else tA + v[1]];
    } else if 1 !in Refs(p) {
      w := v[1 := Spoil(opA, v[0], tA)];
    } else {
      w := v[2 := if opB.Add? then tB - v[3] else tB + v[3]];
    }
  }

  // --- the outcome to claim --------------------------------------------------------------------

  /** `claimedOutcomeFor`: the first outcome all of whose predicates hold, or -1. */
  function ClaimFrom(outcomes: seq<seq<Predicate>>, values: seq<int>, i: nat): int
    requires forall k :: 0 <= k < |outcomes| ==> InRange(RefsOf(outcomes[k]), |values|)
    requires i <= |outcomes|
    decreases |outcomes| - i
  {
    if i == |outcomes| then -1
    else if AllHold(outcomes[i], values) then i
    else ClaimFrom(outcomes, values, i + 1)
  }

  /** A definition whose outcomes each read every one of the `n` legs exactly once. */
  predicate Covered(outcomes: seq<seq<Predicate>>, n: nat) {
    forall k :: 0 <= k < |outcomes| ==> ExactCover(RefsOf(outcomes[k]), n)
  }

  function ClaimedOutcome(outcomes: seq<seq<Predicate>>, values: seq<int>): int
    requires Covered(outcomes, |values|)
  {
    ClaimFrom(outcomes, values, 0)
  }

  lemma {:induction false} ClaimIsFirst(outcomes: seq<seq<Predicate>>, values: seq<int>, i: nat)
    requires Covered(outcomes, |values|) && i <= |outcomes|
    ensures var c := ClaimFrom(outcomes, values, i);
            && (c == -1 || i <= c < |outcomes|)
            && (c == -1 ==> forall k :: i <= k < |outcomes| ==> !AllHold(outcomes[k], values))
            && (c != -1 ==> AllHold(outcomes[c], values)
                            && forall k :: i <= k < c ==> !AllHold(outcomes[k], values))
    decreases |outcomes| - i
  {
    if i < |outcomes| && !AllHold(outcomes[i], values) {
      ClaimIsFirst(outcomes, values, i + 1);
    }
  }

  /** Outcomes as they travel to the chain. */
  predicate Encodable(outcomes: seq<seq<Predicate>>) {
    forall k :: 0 <= k < |outcomes| ==> outcomes[k] != [] && forall p :: p in outcomes[k] ==> FitsWire(p)
  }

  /**
   * The local evaluator agrees with the oracle: the claimed outcome is the least one
   * the oracle evaluates to true, and there is none iff the oracle refuses them all.
   */
  lemma ClaimAgreesWithOracle(outcomes: seq<seq<Predicate>>, values: seq<int>)
    requires LegCountOk(|values|) && Covered(outcomes, |values|) && Encodable(outcomes)
    ensures var c := ClaimedOutcome(outcomes, values);
            && (c == -1 || 0 <= c < |outcomes|)
            && (c != -1 ==> Evaluation(values, StrategyFor(outcomes[c])) == Ok(true))
            && forall k :: 0 <= k < (if c == -1 then |outcomes| else c) ==>
                 Evaluation(values, StrategyFor(outcomes[k])) == Ok(false)
  {
    ClaimIsFirst(outcomes, values, 0);
    forall k | 0 <= k < |outcomes|
      ensures Evaluation(values, StrategyFor(outcomes[k])) == Ok(AllHold(outcomes[k], values))
    {
      ValidatedIffEvaluable(outcomes[k], values);
    }
  }

  // --- the shipped catalogue -------------------------------------------------------------------

  function Difference(c: Comparison, t: int): seq<Predicate> { [Binary(0, 1, Subtract, c, t)] }
  function Total(c: Comparison, t: int): seq<Predicate> { [Binary(0, 1, Add, c, t)] }
  function Both(c0: Comparison, c1: Comparison): seq<Predicate> { [Single(0, c0, 0), Single(1, c1, 0)] }

  const RESULT := [Difference(GreaterThan, 0), Difference(EqualTo, 0), Difference(LessThan, 0)]
  const MARGIN := [Difference(GreaterThan, 1), Difference(EqualTo, 1), Difference(EqualTo, 0),
                   Difference(EqualTo, -1), Difference(LessThan, -1)]
  const BTTS := [Both(GreaterThan, GreaterThan), Both(GreaterThan, EqualTo),
                 Both(EqualTo, GreaterThan), Both(EqualTo, EqualTo)]
  const CLEAN_SHEET := [Both(GreaterThan, EqualTo), Both(EqualTo, GreaterThan),
                        Both(EqualTo, EqualTo), Both(GreaterThan, GreaterThan)]

  function OverUnder(t: int): seq<seq<Predicate>> { [Total(GreaterThan, t), Total(LessThan, t + 1)] }

  const SINGLES: seq<MarketTypeDef> := [
    MarketTypeDef(28, Pair(1, 2), RESULT),
    MarketTypeDef(29, Pair(1, 2), OverUnder(2)),
    MarketTypeDef(30, Pair(7, 8), OverUnder(9)),
    MarketTypeDef(31, Pair(3, 4), OverUnder(3)),
    MarketTypeDef(32, Pair(1, 2), BTTS),
    MarketTypeDef(33, Pair(1, 2), CLEAN_SHEET),
    MarketTypeDef(34, Pair(1001, 1002), RESULT),
    MarketTypeDef(35, Pair(1, 2), MARGIN)]

  const PARLAYS: seq<MarketTypeDef> := [
    Grid(36, HomeWin(), OverCorners(9.5)),
    Grid(37, OverCorners(9.5), OverYellows(3.5)),
    Grid(38, OverGoals(2.5), OverYellows(3.5)),
    Grid(39, HomeWin(), OverYellows(3.5))]

  const CATALOGUE := SINGLES + PARLAYS

  /** The shipped parlays pass the family gate; "home win and over 2.5 goals" does not. */
  lemma ShippedParlaysAreLegal()
    ensures ParlayGrid(36, HomeWin(), OverCorners(9.5)) == Ok(PARLAYS[0])
    ensures ParlayGrid(37, OverCorners(9.5), OverYellows(3.5)) == Ok(PARLAYS[1])
    ensures ParlayGrid(38, OverGoals(2.5), OverYellows(3.5)) == Ok(PARLAYS[2])
    ensures ParlayGrid(39, HomeWin(), OverYellows(3.5)) == Ok(PARLAYS[3])
    ensures forall line: real, t: nat :: ParlayGrid(t, HomeWin(), OverGoals(line)) == Err(SharedFamily)
  {
    PairFamily(1, 2, Family(0, Goals));
    PairFamily(3, 4, Family(0, Yellows));
    PairFamily(7, 8, Family(0, Corners));
    forall line: real, t: nat ensures ParlayGrid(t, HomeWin(), OverGoals(line)) == Err(SharedFamily) {
      assert Family(0, Goals) in {Family(0, Goals)} * {Family(0, Goals)};
    }
  }

  lemma PairFamily(key1: int, key2: int, f: Family)
    requires FamilyOf(key1) == FamilyOf(key2) == Some(f)
    ensures FamiliesOf(Pair(key1, key2)) == Some({f})
  {
    var legs := Pair(key1, key2);
    assert legs[..1] == [Leg(key1, FINALISED)] && legs[..1][..0] == [];
    assert FamiliesOf(legs[..1][..0]) == Some({});
    assert FamiliesOf(legs[..1]) == Some({} + {f});
    assert FamiliesOf(legs) == Some(({} + {f}) + {f});
    assert ({} + {f}) + {f} == {f};
  }

  // --- every shipped outcome set is decided exactly once -----------------------------------------

  lemma BinarySays(op: BinaryExpression, c: Comparison, t: int, v: seq<int>)
    requires |v| == 2
    ensures Says([Binary(0, 1, op, c, t)], v, Compare(if op.Add? then v[0] + v[1] else v[0] - v[1], t, c))
  {
    var p := Binary(0, 1, op, c, t);
    assert [p][..0] == [] && RefsOf([p]) == [] + Refs(p) == [0, 1];
    assert [p][0] == p;
  }

  lemma PairSays(c0: Comparison, c1: Comparison, v: seq<int>)
    requires |v| == 2
    ensures Says(Both(c0, c1), v, Compare(v[0], 0, c0) && Compare(v[1], 0, c1))
  {
    var p, q := Single(0, c0, 0), Single(1, c1, 0);
    assert Refs(p) == [0] && Refs(q) == [1];
    TwoBlocksCover(p, q, 1, 1);
    assert [p, q][0] == p && [p, q][1] == q;
  }

  /** At most one outcome holds, and one does iff `decided`. */
  predicate Tiles(outcomes: seq<seq<Predicate>>, v: seq<int>, decided: bool) {
    && Covered(outcomes, |v|)
    && (forall i, j :: 0 <= i < j < |outcomes| ==> !(AllHold(outcomes[i], v) && AllHold(outcomes[j], v)))
    && (decided <==> exists k :: 0 <= k < |outcomes| && AllHold(outcomes[k], v))
  }

  /** Outcomes that say the listed verdicts, of which at most one is true. */
  lemma TilesByVerdicts(outcomes: seq<seq<Predicate>>, v: seq<int>, verdicts: seq<bool>)
    requires |outcomes| == |verdicts|
    requires forall k :: 0 <= k < |outcomes| ==> Says(outcomes[k], v, verdicts[k])
    requires forall i, j :: 0 <= i < j < |verdicts| ==> !(verdicts[i] && verdicts[j])
    ensures Tiles(outcomes, v, true in verdicts)
  {
    if true in verdicts {
      var k :| 0 <= k < |verdicts| && verdicts[k] == true;
      assert Says(outcomes[k], v, verdicts[k]);
    }
  }

  lemma ResultTiles(v: seq<int>)
    requires |v| == 2
    ensures Tiles(RESULT, v, true)
  {
    var d := v[0] - v[1];
    var verdicts := [d > 0, d == 0, d < 0];
    BinarySays(Subtract, GreaterThan, 0, v);
    BinarySays(Subtract, EqualTo, 0, v);
    BinarySays(Subtract, LessThan, 0, v);
    assert verdicts[if d > 0 then 0 else if d == 0 then 1 else 2];
    TilesByVerdicts(RESULT, v, verdicts);
  }

  lemma OverUnderTiles(t: int, v: seq<int>)
    requires |v| == 2
    ensures Tiles(OverUnder(t), v, true)
  {
    var total := v[0] + v[1];
    var verdicts := [total > t, total < t + 1];
    BinarySays(Add, GreaterThan, t, v);
    BinarySays(Add, LessThan, t + 1, v);
    assert verdicts[if total > t then 0 else 1];
    TilesByVerdicts(OverUnder(t), v, verdicts);
  }

  lemma MarginTiles(v: seq<int>)
    requires |v| == 2
    ensures Tiles(MARGIN, v, true)
  {
    var d := v[0] - v[1];
    var verdicts := [d > 1, d == 1, d == 0, d == -1, d < -1];
    BinarySays(Subtract, GreaterThan, 1, v);
    BinarySays(Subtract, EqualTo, 1, v);
    BinarySays(Subtract, EqualTo, 0, v);
    BinarySays(Subtract, EqualTo, -1, v);
    BinarySays(Subtract, LessThan, -1, v);
    assert verdicts[if d > 1 then 0 else if d == 1 then 1 else if d == 0 then 2 else if d == -1 then 3 else 4];
    TilesByVerdicts(MARGIN, v, verdicts);
  }

  /** The scoring splits tile exactly the non-negative values. */
  lemma SplitsTile(v: seq<int>)
    requires |v| == 2
    ensures Tiles(BTTS, v, v[0] >= 0 && v[1] >= 0)
    ensures Tiles(CLEAN_SHEET, v, v[0] >= 0 && v[1] >= 0)
  {
    PairSays(GreaterThan, GreaterThan, v);
    PairSays(GreaterThan, EqualTo, v);
    PairSays(EqualTo, GreaterThan, v);
    PairSays(EqualTo, EqualTo, v);
    var both := v[0] > 0 && v[1] > 0;
    var home := v[0] > 0 && v[1] == 0;
    var away := v[0] == 0 && v[1] > 0;
    var none := v[0] == 0 && v[1] == 0;
    var split, sheet := [both, home, away, none], [home, away, none, both];
    assert split[0] == both && split[1] == home && split[2] == away && split[3] == none;
    assert sheet[3] == both && sheet[0] == home && sheet[1] == away && sheet[2] == none;
    TilesByVerdicts(BTTS, v, split);
    TilesByVerdicts(CLEAN_SHEET, v, sheet);
  }

  /** Every parlay of well-formed conditions is exhaustive and exclusive on all integers. */
  lemma GridTiles(marketType: nat, a: Condition, b: Condition, v: seq<int>)
    requires WellFormedCondition(a) && WellFormedCondition(b) && |v| == |a.legs| + |b.legs|
    ensures Tiles(Grid(marketType, a, b).outcomes, v, true)
  {
    hide Says, Tiles, Met, WellFormedCondition;
    var va, vb := v[..|a.legs|], v[|a.legs|..];
    assert v == va + vb;
    GridMeaning(marketType, a, b, va, vb);
    var hitA, hitB := Met(a, va), Met(b, vb);
    var verdicts := [hitA && hitB, hitA && !hitB, !hitA && hitB, !hitA && !hitB];
    assert verdicts[(if hitA then 0 else 2) + (if hitB then 0 else 1)];
    TilesByVerdicts(Grid(marketType, a, b).outcomes, v, verdicts);
  }

  /**
   * For every shipped type and all integer values no two outcomes hold, and one holds
   * unless it is a scoring split (32, 33) read at a negative value.
   */
  lemma ShippedTypesTile(k: nat, v: seq<int>)
    requires k < |CATALOGUE| && |v| == |CATALOGUE[k].legs|
    ensures Tiles(CATALOGUE[k].outcomes, v,
                  CATALOGUE[k].marketType in {32, 33} ==> v[0] >= 0 && v[1] >= 0)
  {
    if k < |SINGLES| {
      assert CATALOGUE[k] == SINGLES[k];
      ResultTiles(v);
      OverUnderTiles(2, v);
      OverUnderTiles(9, v);
      OverUnderTiles(3, v);
      SplitsTile(v);
      MarginTiles(v);
    } else {
      assert CATALOGUE[k] == PARLAYS[k - |SINGLES|];
      OverIsWellFormed(Subtract, 0, Pair(1, 2));
      OverIsWellFormed(Add, 2, Pair(1, 2));
      OverIsWellFormed(Add, 9, Pair(7, 8));
      OverIsWellFormed(Add, 3, Pair(3, 4));
      match k - |SINGLES| {
        case 0 => GridTiles(36, HomeWin(), OverCorners(9.5), v);
        case 1 => GridTiles(37, OverCorners(9.5), OverYellows(3.5), v);
        case 2 => GridTiles(38, OverGoals(2.5), OverYellows(3.5), v);
        case _ => GridTiles(39, HomeWin(), OverYellows(3.5), v);
      }
    }
  }

  // --- the import-time self-check ------------------------------------------------------------------

  const COMBO_MARKET_TYPE_MIN := 16
  const MIN_OUTCOMES := 2

  ghost predicate DefinitionOk(m: MarketTypeDef) {
    && m.marketType >= COMBO_MARKET_TYPE_MIN
    && LegCountOk(|m.legs|)
    && (forall i :: 0 <= i < |m.legs| ==> FamilyOf(m.legs[i].key).Some?)
    && MIN_OUTCOMES <= |m.outcomes| <= MAX_OUTCOMES
    && (forall k :: 0 <= k < |m.outcomes| ==> SdkAccepts(AsNumbers(RefsOf(m.outcomes[k])), |m.legs|))
  }

  ghost predicate CatalogueOk(defs: seq<MarketTypeDef>) {
    && (forall i :: 0 <= i < |defs| ==> DefinitionOk(defs[i]))
    && (forall i, j :: 0 <= i < j < |defs| ==> defs[i].marketType != defs[j].marketType)
  }

  method CheckOutcomes(m: MarketTypeDef) returns (ok: bool)
    ensures ok <==> forall k :: 0 <= k < |m.outcomes| ==> SdkAccepts(AsNumbers(RefsOf(m.outcomes[k])), |m.legs|)
  {
    hide SdkRefsOf, RefsOf, SdkAccepts, AsNumbers, SdkFault, AllToSdk;
    for k := 0 to |m.outcomes|
      invariant forall j :: 0 <= j < k ==> SdkAccepts(AsNumbers(RefsOf(m.outcomes[j])), |m.legs|)
    {
      RefsToSdk(m.outcomes[k]);
      var fault := AssertCoverage(|m.legs|, AllToSdk(m.outcomes[k]));
      if fault.Some? {
        return false;
      }
    }
    return true;
  }

  method CheckDefinition(m: MarketTypeDef) returns (ok: bool)
    ensures ok <==> DefinitionOk(m)
  {
    if m.marketType < COMBO_MARKET_TYPE_MIN || |m.legs| < 1 || |m.legs| > MAX_LEGS {
      return false;
    }
    for i := 0 to |m.legs|
      invariant forall j :: 0 <= j < i ==> FamilyOf(m.legs[j].key).Some?
    {
      if FamilyOf(m.legs[i].key).None? {
        return false;
      }
    }
    if |m.outcomes| < MIN_OUTCOMES || |m.outcomes| > MAX_OUTCOMES {
      return false;
    }
    ok := CheckOutcomes(m);
  }

  method CheckDefinitions(defs: seq<MarketTypeDef>) returns (ok: bool)
    ensures ok <==> CatalogueOk(defs)
  {
    var seen: set<nat> := {};
    for i := 0 to |defs|
      invariant CatalogueOk(defs[..i])
      invariant seen == set j | 0 <= j < i :: defs[j].marketType
    {
      var m := defs[i];
      assert defs[..i + 1] == defs[..i] + [m];
      assert forall j :: 0 <= j < i ==> defs[..i][j] == defs[j];
      if m.marketType in seen {
        return false;
      }
      var good := CheckDefinition(m);
      if !good {
        return false;
      }
      seen := seen + {m.marketType};
    }
    assert defs[..|defs|] == defs;
    return true;
  }

  /** What the shared registry shows of a type: its slug and one label per outcome. */
  datatype Listing = Listing(slug: string, labels: seq<string>)

  /** Every type is listed under its own slug, with its own outcome labels in order. */
  ghost predicate Listed(defs: seq<MarketTypeDef>, own: seq<Listing>, registry: map<nat, Listing>)
    requires |own| == |defs|
  {
    forall i :: 0 <= i < |defs| ==> defs[i].marketType in registry && registry[defs[i].marketType] == own[i]
  }

  method SameLabels(a: seq<string>, b: seq<string>) returns (same: bool)
    ensures same <==> a == b
  {
    if |a| != |b| {
      return false;
    }
    for k := 0 to |b|
      invariant a[..k] == b[..k]
    {
      if a[k] != b[k] {
        return false;
      }
    }
    return true;
  }

  /** The registry and the predicates must agree on what each outcome is called. */
  method CheckListings(defs: seq<MarketTypeDef>, own: seq<Listing>, registry: map<nat, Listing>) returns (ok: bool)
    requires |own| == |defs|
    ensures ok <==> Listed(defs, own, registry)
  {
    for i := 0 to |defs|
      invariant forall j :: 0 <= j < i ==> defs[j].marketType in registry && registry[defs[j].marketType] == own[j]
    {
      if defs[i].marketType !in registry {
        return false;
      }
      var info := registry[defs[i].marketType];
      if info.slug != own[i].slug {
        return false;
      }
      var same := SameLabels(info.labels, own[i].labels);
      if !same {
        return false;
      }
    }
    return true;
  }

  /** The import-time self-check: labels first, then the definitions. */
  method AssertCatalogue(defs: seq<MarketTypeDef>, own: seq<Listing>, registry: map<nat, Listing>) returns (ok: bool)
    requires |own| == |defs|
    ensures ok <==> Listed(defs, own, registry) && CatalogueOk(defs)
  {
    ok := CheckListings(defs, own, registry);
    if ok {
      ok := CheckDefinitions(defs);
    }
  }

  /** Shape of the shipped definitions: consecutive types, few legs, provable keys. */
  lemma ShippedShape(k: nat)
    requires k < |CATALOGUE|
    ensures var m := CATALOGUE[k];
            && m.marketType == 28 + k && LegCountOk(|m.legs|)
            && MIN_OUTCOMES <= |m.outcomes| <= MAX_OUTCOMES
            && forall i :: 0 <= i < |m.legs| ==> FamilyOf(m.legs[i].key).Some?
  {
    if k < |SINGLES| {
      assert CATALOGUE[k] == SINGLES[k];
    } else {
      assert CATALOGUE[k] == PARLAYS[k - |SINGLES|];
    }
  }

  /** The shipped catalogue passes its own self-check. */
  lemma ShippedCatalogueIsOk()
    ensures CatalogueOk(CATALOGUE)
  {
    forall k | 0 <= k < |CATALOGUE| ensures DefinitionOk(CATALOGUE[k]) && CATALOGUE[k].marketType == 28 + k {
      hide CATALOGUE;
      ShippedShape(k);
      var m := CATALOGUE[k];
      ShippedTypesTile(k, seq(|m.legs|, i => 0));
      forall j | 0 <= j < |m.outcomes| ensures SdkAccepts(AsNumbers(RefsOf(m.outcomes[j])), |m.legs|) {
        CoverageIffExact(RefsOf(m.outcomes[j]), |m.legs|);
        WholeAgree(RefsOf(m.outcomes[j]), |m.legs|);
      }
    }
  }

  lemma SinglesEncodable()
    ensures Encodable(RESULT) && Encodable(MARGIN)
  {
  }

  lemma SplitsEncodable()
    ensures Encodable(BTTS) && Encodable(CLEAN_SHEET)
  {
  }

  lemma OverUnderEncodable(t: i32)
    requires t < 1000
    ensures Encodable(OverUnder(t))
  {
  }

  lemma OverGridEncodable(marketType: nat, opA: BinaryExpression, tA: i32, opB: BinaryExpression, tB: i32,
                          legsA: seq<Leg>, legsB: seq<Leg>)
    requires tA < 1000 && tB < 1000 && |legsA| == 2
    ensures Encodable(Grid(marketType, Over(opA, tA, legsA), Over(opB, tB, legsB)).outcomes)
  {
  }

  lemma ShippedEncodable(k: nat)
    requires k < |CATALOGUE|
    ensures Encodable(CATALOGUE[k].outcomes)
  {
    SinglesEncodable();
    SplitsEncodable();
    OverUnderEncodable(2);
    OverUnderEncodable(9);
    OverUnderEncodable(3);
    OverGridEncodable(36, Subtract, 0, Add, 9, Pair(1, 2), Pair(7, 8));
    OverGridEncodable(37, Add, 9, Add, 3, Pair(7, 8), Pair(3, 4));
    OverGridEncodable(38, Add, 2, Add, 3, Pair(1, 2), Pair(3, 4));
    OverGridEncodable(39, Subtract, 0, Add, 3, Pair(1, 2), Pair(3, 4));
    hide Encodable, Grid, RESULT, MARGIN, BTTS, CLEAN_SHEET, OverUnder;
    if k < |SINGLES| {
      assert CATALOGUE[k] == SINGLES[k];
    } else {
      assert CATALOGUE[k] == PARLAYS[k - |SINGLES|];
      assert OverCorners(9.5) == Over(Add, 9, Pair(7, 8)) && OverYellows(3.5) == Over(Add, 3, Pair(3, 4));
      assert OverGoals(2.5) == Over(Add, 2, Pair(1, 2));
    }
  }

  /**
   * For every shipped type and values it decides, the keeper claims an outcome, and
   * that outcome is the only one the oracle evaluates to true.
   */
  lemma ClaimIsTheOnlyProvableOutcome(k: nat, v: seq<int>)
    requires k < |CATALOGUE| && |v| == |CATALOGUE[k].legs|
    requires CATALOGUE[k].marketType in {32, 33} ==> v[0] >= 0 && v[1] >= 0
    ensures var outcomes := CATALOGUE[k].outcomes;
            && Covered(outcomes, |v|) && Encodable(outcomes)
            && var c := ClaimedOutcome(outcomes, v);
               0 <= c < |outcomes|
               && forall j :: 0 <= j < |outcomes| ==>
                    Evaluation(v, StrategyFor(outcomes[j])) == Ok(j == c)
  {
    ShippedTypesTile(k, v);
    ShippedEncodable(k);
    ShippedShape(k);
    hide CATALOGUE;
    var outcomes := CATALOGUE[k].outcomes;
    ClaimAgreesWithOracle(outcomes, v);
    ClaimIsFirst(outcomes, v, 0);
    forall j | 0 <= j < |outcomes|
      ensures Evaluation(v, StrategyFor(outcomes[j])) == Ok(j == ClaimedOutcome(outcomes, v))
    {
      ValidatedIffEvaluable(outcomes[j], v);
    }
  }
}
