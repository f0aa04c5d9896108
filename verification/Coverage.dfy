/**
 * The program's own coverage checker: `ComboSpec::validate` / `PropVault::validate`
 * with a bool array and an early exit. It is proved against the same notion as the
 * oracle's scan, so what is validated at creation cannot fail coverage at settlement.
 */
module Coverage {
  import opened Wrappers
  import opened Numbers
  import opened OracleErrors
  import opened Strategy

  const MAX_LEGS := 5
  const MAX_OUTCOMES := 12

  datatype StatLeg = StatLeg(key: u32, period: i32)
  datatype ComboOutcome = ComboOutcome(predicates: seq<WirePredicate>)
  datatype ComboSpec = ComboSpec(legs: seq<StatLeg>, outcomes: seq<ComboOutcome>)

  datatype SpecError = InvalidComboSpec | DuplicateLegCoverage | IncompleteLegCoverage

  /** The create-time error for a settle-time coverage fault. */
  function AsSpecError(r: Result<(), OracleErrors.Error>): Result<(), SpecError> {
    match r
    case Ok(_) => Ok(())
    case Err(DuplicateStatCoverage) => Err(DuplicateLegCoverage)
    case Err(IncompleteStatCoverage) => Err(IncompleteLegCoverage)
    case Err(_) => Err(InvalidComboSpec)
  }

  /** `seen` marks exactly the references already touched. */
  ghost predicate Marks(seen: array<bool>, refs: seq<int>)
    reads seen
  {
    forall i :: 0 <= i < seen.Length ==> (seen[i] <==> i in refs)
  }

  /** The `touch` closure of `LegPredicate::mark`. */
  method Touch(i: int, seen: array<bool>, nLegs: nat, ghost done: seq<int>, ghost all: seq<int>)
    returns (r: Result<(), SpecError>)
    requires nLegs <= seen.Length && Marks(seen, done)
    requires |done| < |all| && all[..|done|] == done && all[|done|] == i
    modifies seen
    ensures r.Err? ==> r == AsSpecError(ScanFrom(all, nLegs, |done|))
    ensures r.Ok? ==> Marks(seen, done + [i])
                      && ScanFrom(all, nLegs, |done|) == ScanFrom(all, nLegs, |done| + 1)
  {
    if !(0 <= i < nLegs) {
      return Err(InvalidComboSpec);
    }
    if seen[i] {
      return Err(DuplicateLegCoverage);
    }
    seen[i] := true;
    return Ok(());
  }

  /** `all` starts with `done` and goes on with `refs`. */
  ghost predicate Continues(all: seq<int>, done: seq<int>, refs: seq<int>) {
    |done| + |refs| <= |all| && all[..|done| + |refs|] == done + refs
  }

  method Mark(p: WirePredicate, seen: array<bool>, nLegs: nat, ghost done: seq<int>, ghost all: seq<int>)
    returns (r: Result<(), SpecError>)
    requires nLegs <= seen.Length && Marks(seen, done) && Continues(all, done, Refs(p))
    modifies seen
    ensures r.Err? ==> r == AsSpecError(ScanFrom(all, nLegs, |done|))
    ensures r.Ok? ==> Marks(seen, done + Refs(p))
                      && ScanFrom(all, nLegs, |done|) == ScanFrom(all, nLegs, |done| + |Refs(p)|)
  {
    assert all[..|done|] == all[..|done| + |Refs(p)|][..|done|] == done;
    assert all[|done|] == all[..|done| + |Refs(p)|][|done|];
    match p {
      case Single(i, _, _) =>
        r := Touch(i, seen, nLegs, done, all);
      case Binary(a, b, _, _, _) =>
        r := Touch(a, seen, nLegs, done, all);
        if r.Err? {
          return;
        }
        assert all[|done| + 1] == all[..|done| + 2][|done| + 1];
        assert all[..|done| + 1] == all[..|done| + 2][..|done| + 1] == done + [a];
        r := Touch(b, seen, nLegs, done + [a], all);
        assert done + [a] + [b] == done + Refs(p);
    }
  }

  /** Every leg must have been marked. */
  method AllSeen(seen: array<bool>, nLegs: nat, ghost all: seq<int>) returns (r: Result<(), SpecError>)
    requires nLegs <= seen.Length && Marks(seen, all)
    ensures r == AsSpecError(ScanFrom(all, nLegs, |all|))
  {
    for i := 0 to nLegs
      invariant forall j :: 0 <= j < i ==> seen[j]
    {
      if !seen[i] {
        return Err(IncompleteLegCoverage);
      }
    }
    return Ok(());
  }

  /** One outcome: mark every predicate's legs, then require every leg marked. */
  method ValidatePredicates(predicates: seq<WirePredicate>, nLegs: nat) returns (r: Result<(), SpecError>)
    requires nLegs <= MAX_LEGS
    ensures r == AsSpecError(Coverage(RefsOf(predicates), nLegs))
  {
    var seen := new bool[MAX_LEGS](_ => false);
    ghost var all := RefsOf(predicates);
    EndsOfRefs(predicates);
    NothingMarked(seen);
    ScanStarts(all, nLegs);
    hide *;
    for k := 0 to |predicates|
      invariant |RefsSoFar(predicates, k)| <= |all| && Marks(seen, RefsSoFar(predicates, k))
      invariant Coverage(all, nLegs) == ScanFrom(all, nLegs, |RefsSoFar(predicates, k)|)
    {
      RefsPrefix(predicates, k);
      var marked := Mark(predicates[k], seen, nLegs, RefsSoFar(predicates, k), all);
      if marked.Err? {
        return marked;
      }
    }
    r := AllSeen(seen, nLegs, all);
  }

  lemma ScanStarts(refs: seq<int>, n: nat)
    ensures Coverage(refs, n) == ScanFrom(refs, n, 0)
  {
  }

  lemma NothingMarked(seen: array<bool>)
    requires forall i :: 0 <= i < seen.Length ==> !seen[i]
    ensures Marks(seen, [])
  {
  }

  /** The references of the first `k` predicates. */
  ghost function RefsSoFar(ps: seq<Predicate>, k: nat): seq<int>
    requires k <= |ps|
  {
    RefsOf(ps[..k])
  }

  lemma EndsOfRefs(ps: seq<Predicate>)
    ensures RefsSoFar(ps, 0) == [] && RefsSoFar(ps, |ps|) == RefsOf(ps)
  {
    assert ps[..|ps|] == ps;
  }

  lemma RefsSnoc(ps: seq<Predicate>, k: nat)
    requires k < |ps|
    ensures RefsOf(ps[..k + 1]) == RefsOf(ps[..k]) + Refs(ps[k])
  {
    assert ps[..k + 1][..k] == ps[..k];
  }

  lemma RefsPrefix(ps: seq<Predicate>, k: nat)
    requires k < |ps|
    ensures RefsSoFar(ps, k + 1) == RefsSoFar(ps, k) + Refs(ps[k])
    ensures |RefsSoFar(ps, k + 1)| <= |RefsOf(ps)| && Continues(RefsOf(ps), RefsSoFar(ps, k), Refs(ps[k]))
  {
    hide RefsOf;
    RefsSnoc(ps, k);
    RefsConcat(ps[..k + 1], ps[k + 1..]);
    assert ps == ps[..k + 1] + ps[k + 1..];
  }

  // --- whole specs -------------------------------------------------------------------------

  /** A list of predicates that reads each of the `n` legs exactly once. */
  predicate CoversExactly(predicates: seq<WirePredicate>, n: nat) {
    predicates != [] && ExactCover(RefsOf(predicates), n)
  }

  /** One predicate over all legs in order covers them. */
  lemma OneCovers(p: WirePredicate, n: nat)
    requires Refs(p) == Range(n) && 1 <= n <= 2
    ensures RefsOf([p]) == Refs(p) && CoversExactly([p], n)
  {
    assert [p][..0] == [] && RefsOf([p]) == [] + Refs(p);
    forall i | 0 <= i < n ensures i in Refs(p) {
      assert Range(n)[i] == i;
    }
  }

  predicate LegCountOk(n: nat) {
    1 <= n <= MAX_LEGS
  }

  predicate WellFormed(spec: ComboSpec, numOutcomes: u8) {
    && LegCountOk(|spec.legs|)
    && |spec.outcomes| == numOutcomes
    && forall k :: 0 <= k < |spec.outcomes| ==> CoversExactly(spec.outcomes[k].predicates, |spec.legs|)
  }

  function OutcomeVerdict(o: ComboOutcome, nLegs: nat): Result<(), SpecError> {
    if o.predicates == [] then Err(InvalidComboSpec)
    else AsSpecError(Coverage(RefsOf(o.predicates), nLegs))
  }

  /** The fault of the first faulty outcome from `k` on. */
  function OutcomesVerdict(spec: ComboSpec, k: nat): Result<(), SpecError>
    requires k <= |spec.outcomes|
    decreases |spec.outcomes| - k
  {
    if k == |spec.outcomes| then Ok(())
    else
      match OutcomeVerdict(spec.outcomes[k], |spec.legs|)
      case Err(e) => Err(e)
      case Ok(_) => OutcomesVerdict(spec, k + 1)
  }

  function SpecVerdict(spec: ComboSpec, numOutcomes: u8): Result<(), SpecError> {
    if !LegCountOk(|spec.legs|) || |spec.outcomes| != numOutcomes then Err(InvalidComboSpec)
    else OutcomesVerdict(spec, 0)
  }

  lemma OutcomeVerdictIsCover(o: ComboOutcome, nLegs: nat)
    ensures OutcomeVerdict(o, nLegs).Ok? <==> CoversExactly(o.predicates, nLegs)
  {
    CoverageIffExact(RefsOf(o.predicates), nLegs);
  }

  lemma {:induction false} OutcomesVerdictIsCover(spec: ComboSpec, k: nat)
    requires k <= |spec.outcomes|
    ensures OutcomesVerdict(spec, k).Ok?
            <==> forall j :: k <= j < |spec.outcomes| ==> CoversExactly(spec.outcomes[j].predicates, |spec.legs|)
    decreases |spec.outcomes| - k
  {
    hide OutcomeVerdict, CoversExactly;
    if k < |spec.outcomes| {
      OutcomeVerdictIsCover(spec.outcomes[k], |spec.legs|);
      OutcomesVerdictIsCover(spec, k + 1);
    }
  }

  /** One to five legs, one entry per market outcome, each reading every leg exactly once. */
  ghost predicate ReadsEachLegOnce(spec: ComboSpec, numOutcomes: u8) {
    && 1 <= |spec.legs| <= 5 && |spec.outcomes| == numOutcomes
    && forall k :: 0 <= k < |spec.outcomes| ==>
         spec.outcomes[k].predicates != [] && ExactCover(RefsOf(spec.outcomes[k].predicates), |spec.legs|)
  }

  /** Validation succeeds exactly on well-formed specs. */
  lemma ValidIffWellFormed(spec: ComboSpec, numOutcomes: u8)
    ensures SpecVerdict(spec, numOutcomes).Ok? <==> WellFormed(spec, numOutcomes)
    ensures WellFormed(spec, numOutcomes) <==> ReadsEachLegOnce(spec, numOutcomes)
  {
    hide OutcomesVerdict, ExactCover;
    OutcomesVerdictIsCover(spec, 0);
  }

  method ValidateComboSpec(spec: ComboSpec, numOutcomes: u8) returns (r: Result<(), SpecError>)
    ensures r == SpecVerdict(spec, numOutcomes)
    ensures r.Ok? <==> ReadsEachLegOnce(spec, numOutcomes)
  {
    ValidIffWellFormed(spec, numOutcomes);
    hide WellFormed, ReadsEachLegOnce, CoversExactly, Coverage, AsSpecError;
    if |spec.legs| == 0 || |spec.legs| > MAX_LEGS {
      return Err(InvalidComboSpec);
    }
    if |spec.outcomes| != numOutcomes {
      return Err(InvalidComboSpec);
    }
    for k := 0 to |spec.outcomes|
      invariant OutcomesVerdict(spec, 0) == OutcomesVerdict(spec, k)
    {
      var predicates := spec.outcomes[k].predicates;
      if predicates == [] {
        return Err(InvalidComboSpec);
      }
      r := ValidatePredicates(predicates, |spec.legs|);
      if r.Err? {
        return;
      }
    }
    return Ok(());
  }

  function VaultVerdict(legs: seq<StatLeg>, predicates: seq<WirePredicate>): Result<(), SpecError> {
    if !LegCountOk(|legs|) || !(0 < |predicates| <= MAX_LEGS) then Err(InvalidComboSpec)
    else AsSpecError(Coverage(RefsOf(predicates), |legs|))
  }

  method ValidatePropVault(legs: seq<StatLeg>, predicates: seq<WirePredicate>) returns (r: Result<(), SpecError>)
    ensures r == VaultVerdict(legs, predicates)
    ensures r.Ok? <==> 1 <= |legs| <= 5 && 1 <= |predicates| <= 5 && ExactCover(RefsOf(predicates), |legs|)
  {
    if |legs| == 0 || |legs| > MAX_LEGS {
      return Err(InvalidComboSpec);
    }
    if |predicates| == 0 || |predicates| > MAX_LEGS {
      return Err(InvalidComboSpec);
    }
    CoverageIffExact(RefsOf(predicates), |legs|);
    r := ValidatePredicates(predicates, |legs|);
  }

  // --- create-time validation rules out settle-time faults ------------------------------------

  /** The strategy the program submits for one outcome: its predicates and nothing else. */
  function StrategyFor(predicates: seq<WirePredicate>): NDimensionalStrategy {
    NDimensionalStrategy([], None, predicates)
  }

  lemma RefsOfStrategy(predicates: seq<WirePredicate>)
    ensures StrategyRefs(StrategyFor(predicates)) == RefsOf(predicates)
  {
    assert TargetRefs([]) + RefsOf(predicates) == RefsOf(predicates);
  }

  /**
   * A validated list of predicates is always evaluated to a verdict, namely whether
   * all of its predicates hold; an unvalidated one never is.
   */
  lemma ValidatedIffEvaluable(predicates: seq<WirePredicate>, values: seq<int>)
    requires LegCountOk(|values|) && predicates != []
    ensures CoversExactly(predicates, |values|) <==> Evaluation(values, StrategyFor(predicates)).Ok?
    ensures CoversExactly(predicates, |values|) ==>
              Evaluation(values, StrategyFor(predicates)) == Ok(AllHold(predicates, values))
  {
    RefsOfStrategy(predicates);
    CoverageIffExact(RefsOf(predicates), |values|);
  }

  /** Each predicate uses up a leg, so a validated outcome has at most as many predicates. */
  lemma PredicatesAtMostLegs(predicates: seq<WirePredicate>, n: nat)
    requires CoversExactly(predicates, n)
    ensures |predicates| <= n
  {
    ExactCoverLength(RefsOf(predicates), n);
    RefsOutnumber(predicates);
  }

  lemma {:induction false} RefsOutnumber(ps: seq<Predicate>)
    ensures |ps| <= |RefsOf(ps)|
  {
    if ps != [] {
      RefsOutnumber(ps[..|ps| - 1]);
    }
  }
}
