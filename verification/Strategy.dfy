/**
 * The predicate language and its evaluation by the oracle (`evaluate_strategy`):
 * every stat must be referenced exactly once, then all predicates are AND-combined.
 */
module Strategy {
  import opened Wrappers
  import opened Numbers
  import opened OracleErrors
  import Sorting

  datatype Comparison = GreaterThan | LessThan | EqualTo
  datatype BinaryExpression = Add | Subtract

  /** A predicate over one stat, or over two combined; indices are into the stat list. */
  datatype Predicate =
    | Single(index: int, comparison: Comparison, threshold: int)
    | Binary(indexA: int, indexB: int, op: BinaryExpression, comparison: Comparison, threshold: int)

  predicate FitsWire(p: Predicate) {
    && -0x8000_0000 <= p.threshold < 0x8000_0000
    && forall i :: i in Refs(p) ==> 0 <= i < 0x100
  }

  /** A predicate as the programs exchange it: `u8` indices and an `i32` threshold. */
  type WirePredicate = p: Predicate | FitsWire(p) witness Single(0, EqualTo, 0)

  datatype TraderPredicate = TraderPredicate(threshold: i32, comparison: Comparison)
  datatype GeometricTarget = GeometricTarget(statIndex: u8, prediction: i32)
  datatype NDimensionalStrategy = NDimensionalStrategy(
    geometricTargets: seq<GeometricTarget>,
    distancePredicate: Option<TraderPredicate>,
    discretePredicates: seq<WirePredicate>)

  const MAX_STATS := 32

  // --- references ---------------------------------------------------------------------

  /** The stats a predicate reads, in order. */
  function Refs(p: Predicate): seq<int> {
    match p
    case Single(i, _, _) => [i]
    case Binary(a, b, _, _, _) => [a, b]
  }

  function RefsOf(ps: seq<Predicate>): seq<int> {
    if ps == [] then [] else RefsOf(ps[..|ps| - 1]) + Refs(ps[|ps| - 1])
  }

  function TargetRefs(ts: seq<GeometricTarget>): (r: seq<int>)
    ensures |r| == |ts| && forall i :: 0 <= i < |ts| ==> r[i] == ts[i].statIndex
  {
    seq(|ts|, i requires 0 <= i < |ts| => ts[i].statIndex)
  }

  lemma {:induction false} RefsConcat(ps: seq<Predicate>, qs: seq<Predicate>)
    ensures RefsOf(ps + qs) == RefsOf(ps) + RefsOf(qs)
  {
    hide Refs;
    if qs == [] {
      assert ps + qs == ps;
    } else {
      var n, last := |ps + qs|, Refs(qs[|qs| - 1]);
      assert (ps + qs)[..n - 1] == ps + qs[..|qs| - 1];
      RefsConcat(ps, qs[..|qs| - 1]);
      assert RefsOf(ps) + RefsOf(qs[..|qs| - 1]) + last == RefsOf(ps) + (RefsOf(qs[..|qs| - 1]) + last);
    }
  }

  lemma {:induction false} RefsNonNegative(ps: seq<WirePredicate>)
    ensures forall i :: i in RefsOf(ps) ==> 0 <= i
  {
    if ps != [] {
      RefsNonNegative(ps[..|ps| - 1]);
    }
  }

  predicate NoRepeats(refs: seq<int>) {
    forall i, j :: 0 <= i < j < |refs| ==> refs[i] != refs[j]
  }

  predicate InRange(refs: seq<int>, n: nat) {
    forall i :: i in refs ==> 0 <= i < n
  }

  /** Every one of the `n` legs is referenced exactly once, and nothing else is. */
  predicate ExactCover(refs: seq<int>, n: nat) {
    InRange(refs, n) && NoRepeats(refs) && forall i :: 0 <= i < n ==> i in refs
  }

  function Range(n: nat): (r: seq<int>)
    ensures |r| == n && forall i :: 0 <= i < n ==> r[i] == i
  {
    seq(n, i => i)
  }

  lemma {:induction false} ExactCoverLength(refs: seq<int>, n: nat)
    requires ExactCover(refs, n)
    ensures |refs| == n
    decreases n
  {
    if n == 0 {
      assert forall i :: 0 <= i < |refs| ==> refs[i] in refs;
    } else {
      assert n - 1 in refs;
      var k :| 0 <= k < |refs| && refs[k] == n - 1;
      var rest := refs[..k] + refs[k + 1..];
      forall i | i in rest ensures 0 <= i < n - 1 {
        var j :| 0 <= j < |rest| && rest[j] == i;
        var j' := if j < k then j else j + 1;
        assert i == refs[j'] && refs[j'] in refs;
        assert refs[j'] != refs[k];
      }
      forall i | 0 <= i < n - 1 ensures i in rest {
        assert i in refs;
        var j :| 0 <= j < |refs| && refs[j] == i;
        assert rest[if j < k then j else j - 1] == i;
      }
      ExactCoverLength(rest, n - 1);
    }
  }

  /** Exactly once each is the same as being a permutation of 0, ..., n - 1. */
  lemma {:induction false} ExactCoverIsPermutation(refs: seq<int>, n: nat)
    ensures ExactCover(refs, n) <==> multiset(refs) == multiset(Range(n))
  {
    if ExactCover(refs, n) {
      ExactCoverLength(refs, n);
      forall x ensures multiset(refs)[x] == multiset(Range(n))[x] {
        Once(refs, x);
        Once(Range(n), x);
        assert 0 <= x < n ==> Range(n)[x] == x;
        assert x in Range(n) <==> 0 <= x < n;
      }
    }
    if multiset(refs) == multiset(Range(n)) {
      forall x ensures x in refs <==> x in Range(n) {
        assert x in multiset(refs) <==> x in multiset(Range(n));
      }
      forall i | 0 <= i < n ensures i in refs {
        assert Range(n)[i] == i;
      }
      forall i, j | 0 <= i < j < |refs| ensures refs[i] != refs[j] {
        if refs[i] == refs[j] {
          Sorting.Twice(refs, i, j);
          Once(Range(n), refs[i]);
        }
      }
    }
  }

  lemma {:induction false} Once(s: seq<int>, x: int)
    requires NoRepeats(s)
    ensures multiset(s)[x] == if x in s then 1 else 0
  {
    if s != [] {
      Once(s[1..], x);
      assert s == [s[0]] + s[1..];
      assert multiset(s) == multiset{s[0]} + multiset(s[1..]);
      if s[0] in s[1..] {
        var j :| 0 <= j < |s| - 1 && s[1..][j] == s[0];
        assert s[j + 1] == s[0];
      }
    }
  }

  // --- coverage as the oracle scans it -------------------------------------------------------

  /** The scan from reference `k` on: the first fault met, or what is left uncovered. */
  function ScanFrom(refs: seq<int>, n: nat, k: nat): Result<(), Error>
    requires k <= |refs|
    decreases |refs| - k
  {
    if k == |refs| then
      if forall i :: 0 <= i < n ==> i in refs then Ok(()) else Err(IncompleteStatCoverage)
    else if !(0 <= refs[k] < n) then Err(MissingStat)
    else if refs[k] in refs[..k] then Err(DuplicateStatCoverage)
    else ScanFrom(refs, n, k + 1)
  }

  function Coverage(refs: seq<int>, n: nat): Result<(), Error> {
    ScanFrom(refs, n, 0)
  }

  lemma {:induction false} ScanMeaning(refs: seq<int>, n: nat, k: nat)
    requires k <= |refs| && InRange(refs[..k], n) && NoRepeats(refs[..k])
    ensures ScanFrom(refs, n, k).Ok? <==> ExactCover(refs, n)
    ensures ScanFrom(refs, n, k) == Err(IncompleteStatCoverage) <==>
            InRange(refs, n) && NoRepeats(refs) && !ExactCover(refs, n)
    decreases |refs| - k
  {
    if k == |refs| {
      assert refs[..k] == refs;
    } else {
      assert refs[k] in refs;
      if refs[k] in refs[..k] {
        var j :| 0 <= j < k && refs[..k][j] == refs[k];
        assert refs[j] == refs[k];
      } else if 0 <= refs[k] < n {
        assert refs[..k + 1] == refs[..k] + [refs[k]];
        ScanMeaning(refs, n, k + 1);
      }
    }
  }

  /** The oracle's coverage check passes exactly for the permutations of the stats. */
  lemma CoverageIffExact(refs: seq<int>, n: nat)
    ensures Coverage(refs, n).Ok? <==> ExactCover(refs, n)
  {
    assert refs[..0] == [];
    ScanMeaning(refs, n, 0);
  }

  /** Nothing is wrong with the references before `j`. */
  ghost predicate CleanUpTo(refs: seq<int>, n: nat, j: nat) {
    j < |refs| && InRange(refs[..j], n) && NoRepeats(refs[..j])
  }

  lemma {:induction false} ScanFault(refs: seq<int>, n: nat, k: nat)
    requires k <= |refs| && InRange(refs[..k], n) && NoRepeats(refs[..k])
    ensures var r := ScanFrom(refs, n, k);
            r.Err? ==>
              || (r.error == IncompleteStatCoverage && InRange(refs, n) && NoRepeats(refs))
              || (exists j :: k <= j && CleanUpTo(refs, n, j)
                              && if 0 <= refs[j] < n then r.error == DuplicateStatCoverage && refs[j] in refs[..j]
                                 else r.error == MissingStat)
    decreases |refs| - k
  {
    if k == |refs| {
      assert refs[..k] == refs;
    } else {
      assert CleanUpTo(refs, n, k);
      if 0 <= refs[k] < n && refs[k] !in refs[..k] {
        assert refs[..k + 1] == refs[..k] + [refs[k]];
        ScanFault(refs, n, k + 1);
      }
    }
  }

  /**
   * A failing coverage check names the first fault: a reference to no stat, a reference
   * to a stat referenced before, or, with neither, a stat never referenced.
   */
  lemma CoverageNamesFirstFault(refs: seq<int>, n: nat)
    ensures var r := Coverage(refs, n);
            r.Err? ==>
              || (r.error == IncompleteStatCoverage && InRange(refs, n) && NoRepeats(refs) && !ExactCover(refs, n))
              || (exists j: nat :: CleanUpTo(refs, n, j)
                                   && if 0 <= refs[j] < n then r.error == DuplicateStatCoverage && refs[j] in refs[..j]
                                      else r.error == MissingStat)
  {
    assert refs[..0] == [];
    ScanFault(refs, n, 0);
    CoverageIffExact(refs, n);
  }

  // --- meaning --------------------------------------------------------------------------------

  predicate Compare(value: int, threshold: int, c: Comparison) {
    match c
    case GreaterThan => value > threshold
    case LessThan => value < threshold
    case EqualTo => value == threshold
  }

  /** The value a predicate compares. */
  function Operand(p: Predicate, values: seq<int>): int
    requires InRange(Refs(p), |values|)
  {
    match p
    case Single(i, _, _) =>
      assert i in Refs(p);
      values[i]
    case Binary(a, b, op, _, _) =>
      assert a in Refs(p) && b in Refs(p);
      if op.Add? then values[a] + values[b] else values[a] - values[b]
  }

  predicate Holds(p: Predicate, values: seq<int>)
    requires InRange(Refs(p), |values|)
  {
    Compare(Operand(p, values), p.threshold, p.comparison)
  }

  lemma {:induction false} RefsOfMember(ps: seq<Predicate>, k: nat)
    requires k < |ps|
    ensures forall i :: i in Refs(ps[k]) ==> i in RefsOf(ps)
  {
    if k < |ps| - 1 {
      RefsOfMember(ps[..|ps| - 1], k);
    }
  }

  /** All predicates hold. */
  predicate AllHold(ps: seq<Predicate>, values: seq<int>)
    requires InRange(RefsOf(ps), |values|)
  {
    forall k :: 0 <= k < |ps| ==> (RefsOfMember(ps, k); Holds(ps[k], values))
  }

  function Square(x: int): (r: int)
    ensures r >= 0
  {
    x * x
  }

  lemma TargetRefsSnoc(ts: seq<GeometricTarget>, n: nat)
    requires ts != [] && InRange(TargetRefs(ts), n)
    ensures InRange(TargetRefs(ts[..|ts| - 1]), n) && ts[|ts| - 1].statIndex < n
  {
    var init := TargetRefs(ts[..|ts| - 1]);
    assert TargetRefs(ts) == init + [ts[|ts| - 1].statIndex];
    forall i | i in init ensures 0 <= i < n {
      assert i in TargetRefs(ts);
    }
    assert ts[|ts| - 1].statIndex in TargetRefs(ts);
  }

  /** Squared distance of the stats from the predictions. */
  function Distance(values: seq<int>, ts: seq<GeometricTarget>): (r: int)
    requires InRange(TargetRefs(ts), |values|)
    ensures r >= 0
  {
    if ts == [] then 0
    else
      TargetRefsSnoc(ts, |values|);
      Distance(values, ts[..|ts| - 1]) + Square(values[ts[|ts| - 1].statIndex] - ts[|ts| - 1].prediction)
  }

  lemma {:induction false} DistanceGrows(values: seq<int>, ts: seq<GeometricTarget>, k: nat)
    requires InRange(TargetRefs(ts), |values|) && k <= |ts|
    ensures InRange(TargetRefs(ts[..k]), |values|)
    ensures Distance(values, ts[..k]) <= Distance(values, ts)
  {
    if k == |ts| {
      assert ts[..k] == ts;
    } else {
      TargetRefsSnoc(ts, |values|);
      DistanceGrows(values, ts[..|ts| - 1], k);
      assert ts[..|ts| - 1][..k] == ts[..k];
    }
  }

  // --- the program ---------------------------------------------------------------------------

  function StrategyRefs(strategy: NDimensionalStrategy): seq<int> {
    TargetRefs(strategy.geometricTargets) + RefsOf(strategy.discretePredicates)
  }

  /** What `evaluate_strategy` answers once coverage has passed. */
  function Judge(values: seq<int>, strategy: NDimensionalStrategy): Result<bool, Error>
    requires InRange(StrategyRefs(strategy), |values|)
  {
    var ts := strategy.geometricTargets;
    SplitRange(TargetRefs(ts), RefsOf(strategy.discretePredicates), |values|);
    var verdict := AllHold(strategy.discretePredicates, values);
    if ts == [] then Ok(verdict)
    else match strategy.distancePredicate
      case None => Err(MissingDistancePredicate)
      case Some(p) =>
        if Distance(values, ts) > I64_MAX then Err(ArithmeticOverflow)
        else Ok(Compare(Distance(values, ts), p.threshold, p.comparison) && verdict)
  }

  lemma SplitRange(a: seq<int>, b: seq<int>, n: nat)
    requires InRange(a + b, n)
    ensures InRange(a, n) && InRange(b, n)
  {
    forall i | i in a || i in b ensures 0 <= i < n {
      assert i in a + b;
    }
  }

  function Evaluation(values: seq<int>, strategy: NDimensionalStrategy): Result<bool, Error> {
    if |values| > MAX_STATS then Err(TooManyStats)
    else
      var refs := StrategyRefs(strategy);
      match Coverage(refs, |values|)
      case Err(e) => Err(e)
      case Ok(_) =>
        CoverageIffExact(refs, |values|);
        Judge(values, strategy)
  }

  /** Collects the references: geometric targets first, then the predicates in order. */
  method CollectRefs(strategy: NDimensionalStrategy) returns (refs: seq<int>)
    ensures refs == StrategyRefs(strategy)
  {
    refs := [];
    var ts := strategy.geometricTargets;
    for i := 0 to |ts|
      invariant refs == TargetRefs(ts)[..i]
    {
      refs := refs + [ts[i].statIndex];
    }
    var ps := strategy.discretePredicates;
    for i := 0 to |ps|
      invariant refs == TargetRefs(ts) + RefsOf(ps[..i])
    {
      assert ps[..i + 1][..i] == ps[..i];
      match ps[i] {
        case Single(index, _, _) => refs := refs + [index];
        case Binary(a, b, _, _, _) =>
          refs := refs + [a];
          refs := refs + [b];
      }
    }
    assert ps[..|ps|] == ps;
  }

  method CheckCoverage(refs: seq<int>, n: nat) returns (r: Result<(), Error>)
    ensures r == Coverage(refs, n)
  {
    var covered := new bool[n](_ => false);
    for k := 0 to |refs|
      invariant Coverage(refs, n) == ScanFrom(refs, n, k)
      invariant forall i :: 0 <= i < n ==> (covered[i] <==> i in refs[..k])
    {
      var i := refs[k];
      if !(0 <= i < n) {
        return Err(MissingStat);
      }
      if covered[i] {
        return Err(DuplicateStatCoverage);
      }
      covered[i] := true;
      assert refs[..k + 1] == refs[..k] + [i];
    }
    assert refs[..|refs|] == refs;
    for i := 0 to n
      invariant forall j :: 0 <= j < i ==> covered[j]
    {
      if !covered[i] {
        return Err(IncompleteStatCoverage);
      }
    }
    return Ok(());
  }

  /** `checked_mul` and `checked_add` on `i64`: the sum, or overflow. */
  method SumSquares(values: seq<i32>, ts: seq<GeometricTarget>) returns (dist: Option<i64>)
    requires InRange(TargetRefs(ts), |values|)
    ensures dist == if Distance(values, ts) > I64_MAX then None else Some(Distance(values, ts))
  {
    var sum: i64 := 0;
    for k := 0 to |ts|
      invariant InRange(TargetRefs(ts[..k]), |values|)
      invariant sum == Distance(values, ts[..k])
    {
      assert TargetRefs(ts)[k] in TargetRefs(ts);
      DistanceGrows(values, ts, k + 1);
      assert ts[..k + 1][..k] == ts[..k];
      var d := values[ts[k].statIndex] - ts[k].prediction;
      if Square(d) > I64_MAX || sum + Square(d) > I64_MAX {
        return None;
      }
      sum := sum + Square(d);
    }
    assert ts[..|ts|] == ts;
    return Some(sum);
  }

  /** `checked_add`/`checked_sub` of two `i32` values in `i64` cannot overflow. */
  lemma OperandFitsI64(p: Predicate, values: seq<i32>)
    requires InRange(Refs(p), |values|)
    ensures I64_MIN <= Operand(p, values) <= I64_MAX
  {
    match p
    case Single(i, _, _) =>
      assert i in Refs(p);
      var v: i32 := values[i];
    case Binary(a, b, _, _, _) =>
      assert a in Refs(p) && b in Refs(p);
      var x: i32, y: i32 := values[a], values[b];
  }

  method EvaluateStrategy(values: seq<i32>, strategy: NDimensionalStrategy) returns (r: Result<bool, Error>)
    ensures r == Evaluation(values, strategy)
  {
    var n := |values|;
    if n > MAX_STATS {
      return Err(TooManyStats);
    }
    var refs := CollectRefs(strategy);
    var coverage := CheckCoverage(refs, n);
    if coverage.Err? {
      return Err(coverage.error);
    }
    var ts := strategy.geometricTargets;
    var ps := strategy.discretePredicates;
    CoverageIffExact(refs, n);
    SplitRange(TargetRefs(ts), RefsOf(ps), n);
    if ts != [] {
      if strategy.distancePredicate.None? {
        return Err(MissingDistancePredicate);
      }
      var dp := strategy.distancePredicate.value;
      var dist := SumSquares(values, ts);
      if dist.None? {
        return Err(ArithmeticOverflow);
      }
      if !Compare(dist.value, dp.threshold, dp.comparison) {
        return Ok(false);
      }
    }
    for k := 0 to |ps|
      invariant forall j :: 0 <= j < k ==> (RefsOfMember(ps, j); Holds(ps[j], values))
    {
      RefsOfMember(ps, k);
      OperandFitsI64(ps[k], values);
      if !Holds(ps[k], values) {
        assert !AllHold(ps, values);
        return Ok(false);
      }
    }
    return Ok(true);
  }

  /**
   * The answer on any strategy whose references are each stat once: with targets, the
   * squared distance compared and all predicates; without, the predicates alone.
   */
  lemma EvaluationMeaning(values: seq<i32>, strategy: NDimensionalStrategy)
    requires |values| <= 32 && ExactCover(StrategyRefs(strategy), |values|)
    ensures InRange(TargetRefs(strategy.geometricTargets), |values|)
    ensures InRange(RefsOf(strategy.discretePredicates), |values|)
    ensures var distance := Distance(values, strategy.geometricTargets);
            var holds := AllHold(strategy.discretePredicates, values);
            if strategy.geometricTargets == [] then Evaluation(values, strategy) == Ok(holds)
            else if strategy.distancePredicate.None? then Evaluation(values, strategy) == Err(MissingDistancePredicate)
            else if distance > 0x7FFF_FFFF_FFFF_FFFF then Evaluation(values, strategy) == Err(ArithmeticOverflow)
            else
              var p := strategy.distancePredicate.value;
              Evaluation(values, strategy) == Ok(Compare(distance, p.threshold, p.comparison) && holds)
  {
    SplitRange(TargetRefs(strategy.geometricTargets), RefsOf(strategy.discretePredicates), |values|);
    CoverageIffExact(StrategyRefs(strategy), |values|);
    hide AllHold, Distance, Compare, ExactCover;
  }

  /** More than 32 stats are refused, and references that are no exact cover for their first fault. */
  lemma EvaluationRefusals(values: seq<i32>, strategy: NDimensionalStrategy)
    ensures |values| > 32 ==> Evaluation(values, strategy) == Err(TooManyStats)
    ensures |values| <= 32 && !ExactCover(StrategyRefs(strategy), |values|) ==>
              Evaluation(values, strategy).Err?
              && Coverage(StrategyRefs(strategy), |values|) == Err(Evaluation(values, strategy).error)
    ensures Evaluation(values, strategy) != Err(WrongDailyRoot)
  {
    CoverageIffExact(StrategyRefs(strategy), |values|);
    CoverageNamesFirstFault(StrategyRefs(strategy), |values|);
    hide ExactCover, AllHold, Distance, Compare, CleanUpTo;
  }

  /** The distance is Euclidean, squared: of two targets the sum of two squares. */
  lemma DistanceOfTwo(values: seq<int>, s: GeometricTarget, t: GeometricTarget)
    requires s.statIndex < |values| && t.statIndex < |values|
    ensures InRange(TargetRefs([s, t]), |values|)
    ensures var x, y := values[s.statIndex] - s.prediction, values[t.statIndex] - t.prediction;
            Distance(values, [s, t]) == x * x + y * y
  {
    assert [s, t][..1] == [s] && [s][..0] == [];
    assert Distance(values, [s]) == Square(values[s.statIndex] - s.prediction);
  }
}
