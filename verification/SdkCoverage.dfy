/**
 * The third coverage checker: the counting `assertCoverage` of the SDK, on whatever
 * numbers JavaScript lets an index be, and when it agrees with the chain.
 */
module SdkCoverage {
  import opened Wrappers
  import opened Strategy
  import opened Validation = Coverage
  import Sorting

  // --- the SDK's counting checker -------------------------------------------------------------

  /** A JavaScript number, as an index may be one. */
  datatype Number = Finite(x: real) | NaN | PlusInfinity | MinusInfinity

  /** The part of an SDK predicate the checker reads: its indices. */
  datatype SdkPredicate = SdkSingle(index: Number) | SdkBinary(indexA: Number, indexB: Number)

  datatype CoverageFault = OutOfRange(index: Number) | NeverEvaluated(leg: nat) | EvaluatedAgain(leg: nat, times: nat)

  function SdkRefs(p: SdkPredicate): seq<Number> {
    match p
    case SdkSingle(i) => [i]
    case SdkBinary(a, b) => [a, b]
  }

  function SdkRefsOf(ps: seq<SdkPredicate>): seq<Number> {
    if ps == [] then [] else SdkRefsOf(ps[..|ps| - 1]) + SdkRefs(ps[|ps| - 1])
  }

  /** `i >= nLegs`: no comparison with NaN holds. */
  predicate PastLast(i: Number, n: nat) {
    match i
    case Finite(x) => x >= n as real
    case NaN => false
    case PlusInfinity => true
    case MinusInfinity => false
  }

  /** An index that names an array slot; any other only names a property beside the array. */
  predicate IsWhole(i: Number) {
    i.Finite? && i.x >= 0.0 && i.x == i.x.Floor as real
  }

  function Slot(leg: nat): Number {
    Finite(leg as real)
  }

  function Count(refs: seq<Number>, leg: nat): nat {
    multiset(refs)[Slot(leg)]
  }

  /** What the SDK's checker accepts. */
  ghost predicate SdkAccepts(refs: seq<Number>, n: nat) {
    (forall i :: i in refs ==> !PastLast(i, n)) && forall leg :: 0 <= leg < n ==> Count(refs, leg) == 1
  }

  function FirstPast(refs: seq<Number>, n: nat): Option<Number> {
    if refs == [] then None
    else if FirstPast(refs[..|refs| - 1], n).Some? then FirstPast(refs[..|refs| - 1], n)
    else if PastLast(refs[|refs| - 1], n) then Some(refs[|refs| - 1]) else None
  }

  /** From `leg` on, the first leg not counted once. */
  function FirstMiscount(refs: seq<Number>, n: nat, leg: nat): Option<CoverageFault>
    requires leg <= n
    decreases n - leg
  {
    if leg == n then None
    else if Count(refs, leg) == 0 then Some(NeverEvaluated(leg))
    else if Count(refs, leg) > 1 then Some(EvaluatedAgain(leg, Count(refs, leg)))
    else FirstMiscount(refs, n, leg + 1)
  }

  /** The error thrown, if any: the first reference past the last leg, else the first miscounted leg. */
  function SdkFault(refs: seq<Number>, n: nat): Option<CoverageFault> {
    if FirstPast(refs, n).Some? then Some(OutOfRange(FirstPast(refs, n).value)) else FirstMiscount(refs, n, 0)
  }

  lemma {:induction false} NoFirstPast(refs: seq<Number>, n: nat)
    ensures FirstPast(refs, n).None? <==> forall i :: i in refs ==> !PastLast(i, n)
  {
    if refs != [] {
      var rest := refs[..|refs| - 1];
      NoFirstPast(rest, n);
      assert refs == rest + [refs[|refs| - 1]];
    }
  }

  lemma {:induction false} NoMiscount(refs: seq<Number>, n: nat, leg: nat)
    requires leg <= n
    ensures FirstMiscount(refs, n, leg).None? <==> forall k :: leg <= k < n ==> Count(refs, k) == 1
    decreases n - leg
  {
    if leg < n {
      NoMiscount(refs, n, leg + 1);
    }
  }

  lemma {:induction false} FirstPastOfPrefix(refs: seq<Number>, more: seq<Number>, n: nat)
    requires FirstPast(refs, n).Some?
    ensures FirstPast(refs + more, n) == FirstPast(refs, n)
    decreases |more|
  {
    if more == [] {
      assert refs + more == refs;
    } else {
      FirstPastOfPrefix(refs, more[..|more| - 1], n);
      assert (refs + more)[..|refs + more| - 1] == refs + more[..|more| - 1];
    }
  }

  lemma {:induction false} SdkRefsConcat(ps: seq<SdkPredicate>, qs: seq<SdkPredicate>)
    ensures SdkRefsOf(ps + qs) == SdkRefsOf(ps) + SdkRefsOf(qs)
  {
    hide SdkRefs;
    if qs == [] {
      assert ps + qs == ps;
    } else {
      var n, last := |ps + qs|, SdkRefs(qs[|qs| - 1]);
      assert (ps + qs)[..n - 1] == ps + qs[..|qs| - 1];
      SdkRefsConcat(ps, qs[..|qs| - 1]);
      assert SdkRefsOf(ps) + SdkRefsOf(qs[..|qs| - 1]) + last == SdkRefsOf(ps) + (SdkRefsOf(qs[..|qs| - 1]) + last);
    }
  }

  lemma SdkRefsSnoc(ps: seq<SdkPredicate>, k: nat)
    requires k < |ps|
    ensures SdkRefsOf(ps[..k + 1]) == SdkRefsOf(ps[..k]) + SdkRefs(ps[k])
  {
    hide SdkRefs;
    assert ps[..k + 1][..k] == ps[..k] && ps[..k + 1][k] == ps[k];
  }

  lemma SdkRefsSplit(ps: seq<SdkPredicate>, k: nat)
    requires k <= |ps|
    ensures SdkRefsOf(ps) == SdkRefsOf(ps[..k]) + SdkRefsOf(ps[k..])
  {
    assert ps == ps[..k] + ps[k..];
    SdkRefsConcat(ps[..k], ps[k..]);
  }

  lemma CountSnoc(refs: seq<Number>, i: Number)
    ensures forall leg: nat :: Count(refs + [i], leg) == Count(refs, leg) + (if i == Slot(leg) then 1 else 0)
  {
    assert multiset(refs + [i]) == multiset(refs) + multiset{i};
  }

  lemma FirstPastSnoc(refs: seq<Number>, i: Number, n: nat)
    requires FirstPast(refs, n).None?
    ensures FirstPast(refs + [i], n) == if PastLast(i, n) then Some(i) else None
  {
    assert (refs + [i])[..|refs|] == refs;
  }

  /** The counters agree with the references counted so far. */
  ghost predicate Tallies(seen: array<nat>, refs: seq<Number>)
    reads seen
  {
    forall leg :: 0 <= leg < seen.Length ==> seen[leg] == Count(refs, leg)
  }

  /**
   * The inner loop: counts one predicate's references and stops at the first past the
   * last leg. Incrementing any other property of the array than a slot changes no slot.
   */
  method Tally(idxs: seq<Number>, seen: array<nat>, ghost done: seq<Number>) returns (bad: Option<Number>)
    requires Tallies(seen, done) && FirstPast(done, seen.Length).None?
    modifies seen
    ensures bad.None? ==> Tallies(seen, done + idxs) && FirstPast(done + idxs, seen.Length).None?
    ensures bad.Some? ==> FirstPast(done + idxs, seen.Length) == bad
  {
    hide FirstPast, Count;
    assert done + idxs[..0] == done;
    for j := 0 to |idxs|
      invariant Tallies(seen, done + idxs[..j]) && FirstPast(done + idxs[..j], seen.Length).None?
    {
      var i := idxs[j];
      ghost var before := done + idxs[..j];
      assert done + idxs[..j + 1] == before + [i];
      CountSnoc(before, i);
      FirstPastSnoc(before, i, seen.Length);
      if PastLast(i, seen.Length) {
        FirstPastOfPrefix(before + [i], idxs[j + 1..], seen.Length);
        assert before + [i] + idxs[j + 1..] == done + idxs;
        return Some(i);
      }
      if IsWhole(i) {
        seen[i.x.Floor] := seen[i.x.Floor] + 1;
      }
    }
    assert idxs[..|idxs|] == idxs;
    return None;
  }

  /** The second loop: the first slot not counted once. */
  method CheckSlots(seen: array<nat>, ghost refs: seq<Number>) returns (fault: Option<CoverageFault>)
    requires Tallies(seen, refs)
    ensures fault == FirstMiscount(refs, seen.Length, 0)
  {
    hide Count;
    for i := 0 to seen.Length
      invariant FirstMiscount(refs, seen.Length, 0) == FirstMiscount(refs, seen.Length, i)
    {
      if seen[i] == 0 {
        return Some(NeverEvaluated(i));
      }
      if seen[i] > 1 {
        return Some(EvaluatedAgain(i, seen[i]));
      }
    }
    return None;
  }

  /** The first loop: counts the references of every predicate. */
  method CountRefs(preds: seq<SdkPredicate>, seen: array<nat>) returns (bad: Option<Number>)
    requires Tallies(seen, [])
    modifies seen
    ensures bad == FirstPast(SdkRefsOf(preds), seen.Length)
    ensures bad.None? ==> Tallies(seen, SdkRefsOf(preds))
  {
    NoSdkRefs(preds);
    NothingCounted(seen.Length);
    hide SdkRefsOf, FirstPast, Count;
    for k := 0 to |preds|
      invariant Tallies(seen, SdkRefsOf(preds[..k])) && FirstPast(SdkRefsOf(preds[..k]), seen.Length).None?
    {
      SdkRefsSnoc(preds, k);
      SdkRefsSplit(preds, k + 1);
      bad := Tally(SdkRefs(preds[k]), seen, SdkRefsOf(preds[..k]));
      if bad.Some? {
        FirstPastOfPrefix(SdkRefsOf(preds[..k + 1]), SdkRefsOf(preds[k + 1..]), seen.Length);
        return;
      }
    }
    assert preds[..|preds|] == preds;
    return None;
  }

  /** `assertCoverage`: count every reference, then look at the counts of the slots. */
  method AssertCoverage(nLegs: nat, preds: seq<SdkPredicate>) returns (fault: Option<CoverageFault>)
    ensures fault == SdkFault(SdkRefsOf(preds), nLegs)
    ensures fault.None? <==> SdkAccepts(SdkRefsOf(preds), nLegs)
  {
    NoFirstPast(SdkRefsOf(preds), nLegs);
    NoMiscount(SdkRefsOf(preds), nLegs, 0);
    NothingCounted(nLegs);
    hide SdkRefsOf, FirstPast, FirstMiscount, Count;
    var seen := new nat[nLegs](_ => 0);
    var bad := CountRefs(preds, seen);
    if bad.Some? {
      return Some(OutOfRange(bad.value));
    }
    fault := CheckSlots(seen, SdkRefsOf(preds));
  }

  lemma NothingCounted(n: nat)
    ensures FirstPast([], n).None? && forall leg: nat :: Count([], leg) == 0
  {
  }

  lemma NoSdkRefs(ps: seq<SdkPredicate>)
    ensures SdkRefsOf(ps[..0]) == []
  {
  }

  // --- SDK and chain --------------------------------------------------------------------------------

  /** Integers as JavaScript writes them. */
  function AsNumbers(refs: seq<int>): seq<Number> {
    seq(|refs|, i requires 0 <= i < |refs| => Finite(refs[i] as real))
  }

  /** The list is one of integers, and a combo spec with these references on `n` legs is valid. */
  ghost predicate ChainAccepts(refs: seq<Number>, n: nat) {
    LegCountOk(n) && exists idx: seq<int> :: refs == AsNumbers(idx) && Coverage(idx, n).Ok?
  }

  lemma {:induction false} CountOfNumbers(refs: seq<int>, leg: nat)
    ensures Count(AsNumbers(refs), leg) == multiset(refs)[leg]
  {
    if refs != [] {
      var n := |refs| - 1;
      CountOfNumbers(refs[..n], leg);
      assert refs == refs[..n] + [refs[n]];
      assert AsNumbers(refs) == AsNumbers(refs[..n]) + [Finite(refs[n] as real)];
    }
  }

  /** The counters' criterion, on indices that are not negative, is the same exact cover. */
  lemma CountsIffExact(refs: seq<int>, n: nat)
    requires forall i :: i in refs ==> 0 <= i
    ensures ExactCover(refs, n) <==>
            (forall i :: i in refs ==> i < n) && forall i :: 0 <= i < n ==> multiset(refs)[i] == 1
  {
    if ExactCover(refs, n) {
      forall i | 0 <= i < n ensures multiset(refs)[i] == 1 {
        Once(refs, i);
      }
    }
    if (forall i :: i in refs ==> i < n) && forall i :: 0 <= i < n ==> multiset(refs)[i] == 1 {
      forall i | 0 <= i < n ensures i in refs {
        assert multiset(refs)[i] == 1;
      }
      forall i, j | 0 <= i < j < |refs| ensures refs[i] != refs[j] {
        assert refs[i] in refs && multiset(refs)[refs[i]] == 1;
        if refs[i] == refs[j] {
          Sorting.Twice(refs, i, j);
        }
      }
    }
  }

  /** On integers that are not negative the two agree. */
  lemma WholeAgree(refs: seq<int>, n: nat)
    requires forall i :: i in refs ==> 0 <= i
    ensures SdkAccepts(AsNumbers(refs), n) <==> Coverage(refs, n).Ok?
  {
    CoverageIffExact(refs, n);
    CountsIffExact(refs, n);
    forall leg: nat ensures Count(AsNumbers(refs), leg) == multiset(refs)[leg] {
      CountOfNumbers(refs, leg);
    }
    forall k | 0 <= k < |refs| ensures AsNumbers(refs)[k] in AsNumbers(refs) && refs[k] in refs {
    }
  }

  /** An index that names no slot and is not past the last leg is not noticed at all. */
  lemma StraysAreNotNoticed(refs: seq<Number>, n: nat, stray: Number)
    requires !IsWhole(stray) && !PastLast(stray, n)
    ensures SdkAccepts(refs + [stray], n) <==> SdkAccepts(refs, n)
  {
    forall leg: nat ensures Count(refs + [stray], leg) == Count(refs, leg) {
      assert multiset(refs + [stray]) == multiset(refs) + multiset{stray};
    }
  }

  /** So every such index slips past, though the chain refuses it. */
  lemma StraysSlipThrough(stray: Number)
    requires !IsWhole(stray) && !PastLast(stray, 1)
    ensures SdkAccepts([Slot(0), stray], 1) && !ChainAccepts([Slot(0), stray], 1)
  {
    WholeAgree([0], 1);
    CoverageIffExact([0], 1);
    assert AsNumbers([0]) == [Slot(0)];
    StraysAreNotNoticed([Slot(0)], 1, stray);
    assert [Slot(0)] + [stray] == [Slot(0), stray];
    assert [Slot(0), stray][1] == stray;
    if ChainAccepts([Slot(0), stray], 1) {
      ChainReadsIntegers([Slot(0), stray], 1);
    }
  }

  /** A negative index, half an index, and no number at all. */
  lemma ThreeStrays()
    ensures forall stray :: stray in {Finite(-1.0), Finite(0.5), NaN} ==>
              SdkAccepts([Slot(0), stray], 1) && !ChainAccepts([Slot(0), stray], 1)
  {
    StraysSlipThrough(Finite(-1.0));
    assert (0.5).Floor == 0;
    StraysSlipThrough(Finite(0.5));
    StraysSlipThrough(NaN);
  }

  lemma ChainReadsIntegers(refs: seq<Number>, n: nat)
    requires ChainAccepts(refs, n)
    ensures forall i :: i in refs ==> IsWhole(i)
  {
    var idx :| refs == AsNumbers(idx) && Coverage(idx, n).Ok?;
    CoverageIffExact(idx, n);
    forall k | 0 <= k < |refs| ensures IsWhole(refs[k]) {
      assert idx[k] in idx;
    }
  }

  /**
   * What the SDK accepts the chain accepts exactly when there are one to five legs and
   * every index is a non-negative integer.
   */
  lemma SdkAgreesIffWhole(refs: seq<Number>, n: nat)
    requires SdkAccepts(refs, n)
    ensures ChainAccepts(refs, n) <==> LegCountOk(n) && forall i :: i in refs ==> IsWhole(i)
  {
    if ChainAccepts(refs, n) {
      ChainReadsIntegers(refs, n);
    }
    if LegCountOk(n) && forall i :: i in refs ==> IsWhole(i) {
      assert forall k :: 0 <= k < |refs| ==> refs[k] in refs;
      var idx := seq(|refs|, k requires 0 <= k < |refs| => refs[k].x.Floor);
      assert refs == AsNumbers(idx);
      WholeAgree(idx, n);
    }
  }

  /** Whatever the chain accepts, the SDK's checker accepts. */
  lemma ChainAcceptsImpliesSdk(refs: seq<Number>, n: nat)
    requires ChainAccepts(refs, n)
    ensures SdkAccepts(refs, n)
  {
    var idx :| refs == AsNumbers(idx) && Coverage(idx, n).Ok?;
    CoverageIffExact(idx, n);
    WholeAgree(idx, n);
  }

  /** A predicate of the program as the SDK writes it. */
  function ToSdk(p: Predicate): SdkPredicate {
    match p
    case Single(i, _, _) => SdkSingle(Finite(i as real))
    case Binary(a, b, _, _, _) => SdkBinary(Finite(a as real), Finite(b as real))
  }

  function AllToSdk(ps: seq<Predicate>): seq<SdkPredicate> {
    seq(|ps|, i requires 0 <= i < |ps| => ToSdk(ps[i]))
  }

  lemma {:induction false} RefsToSdk(ps: seq<Predicate>)
    ensures SdkRefsOf(AllToSdk(ps)) == AsNumbers(RefsOf(ps))
  {
    if ps != [] {
      var n := |ps| - 1;
      RefsToSdk(ps[..n]);
      assert AllToSdk(ps)[..n] == AllToSdk(ps[..n]);
      assert AsNumbers(RefsOf(ps[..n]) + Refs(ps[n])) == AsNumbers(RefsOf(ps[..n])) + AsNumbers(Refs(ps[n]));
      assert AsNumbers(Refs(ps[n])) == SdkRefs(ToSdk(ps[n]));
    }
  }

  lemma AsNumbersInjective(a: seq<int>, b: seq<int>)
    requires AsNumbers(a) == AsNumbers(b)
    ensures a == b
  {
    assert |AsNumbers(a)| == |a| && |AsNumbers(b)| == |b|;
    forall k | 0 <= k < |a| ensures a[k] == b[k] {
      assert AsNumbers(a)[k] == AsNumbers(b)[k];
    }
  }

  /** `ChainAccepts` is what the program's validation says of one outcome. */
  lemma ChainAcceptsIsValidation(ps: seq<WirePredicate>, n: nat)
    requires LegCountOk(n)
    ensures ChainAccepts(SdkRefsOf(AllToSdk(ps)), n) <==> OutcomeVerdict(ComboOutcome(ps), n).Ok?
  {
    var refs := RefsOf(ps);
    RefsToSdk(ps);
    CoverageIffExact(refs, n);
    if Coverage(refs, n).Ok? {
      assert 0 in refs;
    }
    if ChainAccepts(AsNumbers(refs), n) {
      var idx :| AsNumbers(refs) == AsNumbers(idx) && Coverage(idx, n).Ok?;
      AsNumbersInjective(refs, idx);
    }
  }

  /** Six legs read once each pass the SDK, and no chain takes them. */
  lemma SixLegsSlipThrough()
    ensures SdkAccepts(AsNumbers([0, 1, 2, 3, 4, 5]), 6) && !ChainAccepts(AsNumbers([0, 1, 2, 3, 4, 5]), 6)
  {
    var refs := [0, 1, 2, 3, 4, 5];
    assert refs[0] == 0 && refs[1] == 1 && refs[2] == 2 && refs[3] == 3 && refs[4] == 4 && refs[5] == 5;
    CoverageIffExact(refs, 6);
    WholeAgree(refs, 6);
  }
}
