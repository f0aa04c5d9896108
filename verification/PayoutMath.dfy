/**
 * Parimutuel payouts with floor division and checked integer widths, and the scheme
 * in which the last winner to claim absorbs the rounding remainder.
 */
module PayoutMath {
  import opened Wrappers
  import opened Numbers

  datatype MathError = MathOverflow | MathUnderflow | ZeroWinningPool

  const BPS_DENOMINATOR := 10_000
  const MAX_FEE_BPS := 1_000

  // --- the arithmetic, unbounded -------------------------------------------------------

  /** Fee off the whole pool. */
  function Fee(total: nat, feeBps: nat): nat {
    total * feeBps / BPS_DENOMINATOR
  }

  /** A stake's floored share of `pot`, of which `winning` is staked in all. */
  function Share(stake: nat, pot: nat, winning: nat): nat
    requires winning > 0
  {
    stake * pot / winning
  }

  function Product(a: nat, b: nat): nat {
    MulMonotone(0, a, b);
    a * b
  }

  // --- the program's checked functions --------------------------------------------------

  function FeeAmount(totalPool: u64, feeBps: u16): Result<u64, MathError> {
    var wide := totalPool * feeBps;
    if wide > U128_MAX then Err(MathOverflow)
    else if wide / BPS_DENOMINATOR > U64_MAX then Err(MathOverflow)
    else Ok(wide / BPS_DENOMINATOR)
  }

  function DistributablePool(totalPool: u64, feeBps: u16): Result<u64, MathError> {
    match FeeAmount(totalPool, feeBps)
    case Err(e) => Err(e)
    case Ok(fee) => if fee > totalPool then Err(MathUnderflow) else Ok(totalPool - fee)
  }

  function Payout(stake: u64, totalPool: u64, totalWinningPool: u64, feeBps: u16): Result<u64, MathError> {
    if totalWinningPool == 0 then Err(ZeroWinningPool)
    else if stake > totalWinningPool then Err(MathOverflow)
    else
      match DistributablePool(totalPool, feeBps)
      case Err(e) => Err(e)
      case Ok(pot) =>
        if Product(stake, pot) > U128_MAX then Err(MathOverflow)
        else if Product(stake, pot) / totalWinningPool > U64_MAX then Err(MathOverflow)
        else Ok(Product(stake, pot) / totalWinningPool)
  }

  // --- arithmetic facts --------------------------------------------------------------------

  lemma MulMonotone(a: int, b: int, c: nat)
    requires a <= b
    ensures a * c <= b * c && c * a <= c * b
  {
    assert (b - a) * c >= 0;
  }

  lemma DivBounds(n: int, d: nat)
    requires d > 0
    ensures d * (n / d) <= n < d * (n / d) + d
  {
  }

  lemma DivAtMost(n: int, d: nat, q: int)
    requires d > 0 && n < (q + 1) * d
    ensures n / d <= q
  {
    DivBounds(n, d);
    if n / d >= q + 1 {
      MulMonotone(q + 1, n / d, d);
    }
  }

  lemma DivAtLeast(n: int, d: nat, q: int)
    requires d > 0 && q * d <= n
    ensures n / d >= q
  {
    DivBounds(n, d);
    if n / d <= q - 1 {
      MulMonotone(n / d, q - 1, d);
    }
  }

  lemma FeeAtMostTotal(total: nat, feeBps: nat)
    requires feeBps <= BPS_DENOMINATOR
    ensures Fee(total, feeBps) <= total
  {
    MulMonotone(feeBps, BPS_DENOMINATOR, total);
    DivAtMost(total * feeBps, BPS_DENOMINATOR, total);
  }

  lemma ShareAtMostPot(stake: nat, pot: nat, winning: nat)
    requires winning > 0 && stake <= winning
    ensures Share(stake, pot, winning) <= pot
  {
    MulMonotone(stake, winning, pot);
    assert stake * pot <= pot * winning < (pot + 1) * winning;
    DivAtMost(stake * pot, winning, pot);
  }

  lemma ProductFitsU128(a: u64, b: u64)
    ensures 0 <= a * b <= U128_MAX
  {
    ProductWithin(a, b, U64_MAX);
  }

  lemma ProductWithin(a: nat, b: nat, m: nat)
    requires a <= m && b <= m
    ensures 0 <= a * b <= m * m
  {
    MulMonotone(a, m, b);
    MulMonotone(b, m, m);
  }

  /** Up to a 100% fee no checked step fails, and the results are the plain quotients. */
  lemma NothingOverflows(stake: u64, totalPool: u64, totalWinningPool: u64, feeBps: u16)
    requires feeBps <= BPS_DENOMINATOR && 0 < totalWinningPool && stake <= totalWinningPool
    ensures FeeAmount(totalPool, feeBps) == Ok(Fee(totalPool, feeBps))
    ensures Fee(totalPool, feeBps) <= totalPool
    ensures DistributablePool(totalPool, feeBps) == Ok(totalPool - Fee(totalPool, feeBps))
    ensures Payout(stake, totalPool, totalWinningPool, feeBps)
            == Ok(Share(stake, totalPool - Fee(totalPool, feeBps), totalWinningPool))
  {
    FeeAtMostTotal(totalPool, feeBps);
    ProductFitsU128(totalPool, feeBps);
    var pot := totalPool - Fee(totalPool, feeBps);
    ProductFitsU128(stake, pot);
    ShareAtMostPot(stake, pot, totalWinningPool);
  }

  // --- all winners together -------------------------------------------------------------------

  function Sum(s: seq<nat>): nat {
    if s == [] then 0 else Sum(s[..|s| - 1]) + s[|s| - 1]
  }

  function SumShares(stakes: seq<nat>, pot: nat, winning: nat): nat
    requires winning > 0
  {
    if stakes == [] then 0
    else SumShares(stakes[..|stakes| - 1], pot, winning) + Share(stakes[|stakes| - 1], pot, winning)
  }

  lemma {:induction false} SumConcat(a: seq<nat>, b: seq<nat>)
    ensures Sum(a + b) == Sum(a) + Sum(b)
  {
    if b == [] {
      assert a + b == a;
    } else {
      SumConcat(a, b[..|b| - 1]);
      assert (a + b)[..|a + b| - 1] == a + b[..|b| - 1];
    }
  }

  lemma {:induction false} SumSharesConcat(a: seq<nat>, b: seq<nat>, pot: nat, winning: nat)
    requires winning > 0
    ensures SumShares(a + b, pot, winning) == SumShares(a, pot, winning) + SumShares(b, pot, winning)
  {
    if b == [] {
      assert a + b == a;
    } else {
      SumSharesConcat(a, b[..|b| - 1], pot, winning);
      assert (a + b)[..|a + b| - 1] == a + b[..|b| - 1];
    }
  }

  /** `floors`, the floored shares of `n` winners with `staked` in all, miss their exact sum by little. */
  predicate Bracketed(w: nat, pot: nat, floors: nat, staked: nat, n: nat) {
    w * floors <= staked * pot <= w * floors + (w - 1) * n
  }

  lemma NothingBracketed(w: nat, pot: nat)
    ensures Bracketed(w, pot, 0, 0, 0)
  {
  }

  /** One more floored share loses at most `w - 1` of `w` parts of a unit. */
  lemma BracketStep(w: nat, stake: nat, pot: nat, floors: nat, staked: nat, n: nat)
    requires w > 0 && Bracketed(w, pot, floors, staked, n)
    ensures Bracketed(w, pot, floors + Share(stake, pot, w), staked + stake, n + 1)
  {
    DivBounds(stake * pot, w);
    var share := Share(stake, pot, w);
    assert w * (floors + share) == w * floors + w * share;
    assert (staked + stake) * pot == staked * pot + stake * pot;
    assert (w - 1) * (n + 1) == (w - 1) * n + (w - 1);
  }

  /** Flooring loses less than one unit per winner, and never gains. */
  lemma {:induction false} SharesBracket(stakes: seq<nat>, pot: nat, w: nat)
    requires w > 0
    ensures Bracketed(w, pot, SumShares(stakes, pot, w), Sum(stakes), |stakes|)
  {
    if stakes != [] {
      var n := |stakes| - 1;
      SharesBracket(stakes[..n], pot, w);
      BracketStep(w, stakes[n], pot, SumShares(stakes[..n], pot, w), Sum(stakes[..n]), n);
    }
  }

  lemma BracketMeansSmall(w: nat, pot: nat, floors: nat, n: nat)
    requires w > 0 && n > 0 && Bracketed(w, pot, floors, w, n)
    ensures floors <= pot < floors + n
  {
    if floors > pot {
      MulMonotone(pot + 1, floors, w);
    }
    if pot >= floors + n {
      MulMonotone(floors + n, pot, w);
    }
  }

  /** All floors together fit the pot; what flooring leaves is less than the number of winners. */
  lemma DustIsSmall(stakes: seq<nat>, pot: nat)
    requires Sum(stakes) > 0
    ensures SumShares(stakes, pot, Sum(stakes)) <= pot < SumShares(stakes, pot, Sum(stakes)) + |stakes|
  {
    SharesBracket(stakes, pot, Sum(stakes));
    BracketMeansSmall(Sum(stakes), pot, SumShares(stakes, pot, Sum(stakes)), |stakes|);
  }

  // --- the claim scheme -----------------------------------------------------------------------

  lemma {:induction false} SumOfPositive(s: seq<nat>)
    requires s != [] && forall i :: 0 <= i < |s| ==> s[i] > 0
    ensures Sum(s) > 0
  {
    assert s[|s| - 1] > 0;
  }

  lemma SumTake(s: seq<nat>, i: nat)
    requires i < |s|
    ensures Sum(s[..i + 1]) == Sum(s[..i]) + s[i]
  {
    assert s[..i + 1][..i] == s[..i];
  }

  lemma SharesTake(s: seq<nat>, i: nat, pot: nat, winning: nat)
    requires i < |s| && winning > 0
    ensures SumShares(s[..i + 1], pot, winning) == SumShares(s[..i], pot, winning) + Share(s[i], pot, winning)
  {
    assert s[..i + 1][..i] == s[..i];
  }

  /** Only after the final stake has all the winning stake been claimed. */
  lemma LastIffAllClaimed(s: seq<nat>, i: nat)
    requires i < |s| && forall k :: 0 <= k < |s| ==> s[k] > 0
    ensures Sum(s[..i + 1]) <= Sum(s)
    ensures Sum(s[..i + 1]) == Sum(s) <==> i + 1 == |s|
  {
    assert s == s[..i + 1] + s[i + 1..];
    SumConcat(s[..i + 1], s[i + 1..]);
    if i + 1 < |s| {
      SumOfPositive(s[i + 1..]);
    }
  }

  /** Before any claim the remaining pot covers every remaining winner's floor. */
  lemma RemainingFloorsCovered(s: seq<nat>, i: nat, pot: nat)
    requires i <= |s| && Sum(s) > 0
    ensures SumShares(s[..i], pot, Sum(s)) + SumShares(s[i..], pot, Sum(s)) <= pot
  {
    assert s == s[..i] + s[i..];
    SumSharesConcat(s[..i], s[i..], pot, Sum(s));
    DustIsSmall(s, pot);
  }

  /** What every claim order guarantees: exactness, floors, solvency and a small remainder. */
  ghost predicate ExactPayouts(stakes: seq<nat>, payouts: seq<nat>, pot: nat)
    requires Sum(stakes) > 0
  {
    var w := Sum(stakes);
    && |payouts| == |stakes|
    && Sum(payouts) == pot
    && (forall i :: 0 <= i < |stakes| - 1 ==> payouts[i] == Share(stakes[i], pot, w))
    && (var last := |stakes| - 1;
        last >= 0 && Share(stakes[last], pot, w) <= payouts[last] < Share(stakes[last], pot, w) + |stakes|)
    && (forall i :: 0 <= i < |stakes| ==> Sum(payouts[..i]) + SumShares(stakes[i..], pot, w) <= pot)
  }

  /** The claims made so far: floors, except that the last claimer of all gets the rest. */
  ghost predicate Progress(stakes: seq<nat>, payouts: seq<nat>, pot: nat)
    requires Sum(stakes) > 0
  {
    var w, i := Sum(stakes), |payouts|;
    && i <= |stakes|
    && (forall k :: 0 <= k < i && k < |stakes| - 1 ==> payouts[k] == Share(stakes[k], pot, w))
    && (i < |stakes| ==> Sum(payouts) == SumShares(stakes[..i], pot, w))
    && (forall k :: 0 <= k < i ==> Sum(payouts[..k]) + SumShares(stakes[k..], pot, w) <= pot)
    && (i == |stakes| ==> ExactPayouts(stakes, payouts, pot))
  }

  lemma ProgressStep(stakes: seq<nat>, payouts: seq<nat>, pot: nat, p: nat)
    requires Sum(stakes) > 0 && Progress(stakes, payouts, pot) && |payouts| < |stakes|
    requires p == if |payouts| + 1 == |stakes| then pot - Sum(payouts)
                  else Share(stakes[|payouts|], pot, Sum(stakes))
    ensures Progress(stakes, payouts + [p], pot)
  {
    var i, w := |payouts|, Sum(stakes);
    var after := payouts + [p];
    assert after[..i] == payouts;
    assert forall k :: 0 <= k < i ==> after[..k] == payouts[..k];
    SharesTake(stakes, i, pot, w);
    RemainingFloorsCovered(stakes, i, pot);
    if i + 1 == |stakes| {
      assert stakes[..|stakes|] == stakes;
      DustIsSmall(stakes, pot);
    }
  }

  method SimulateClaims(stakes: seq<u64>, total: u64, feeBps: u16) returns (payouts: seq<u64>)
    requires stakes != [] && (forall i :: 0 <= i < |stakes| ==> stakes[i] > 0) && Sum(stakes) <= U64_MAX
    requires feeBps <= MAX_FEE_BPS
    ensures Sum(stakes) > 0 && ExactPayouts(stakes, payouts, total - Fee(total, feeBps))
    ensures Sum(payouts) + Fee(total, feeBps) == total
  {
    SumOfPositive(stakes);
    var winPool: u64 := SumOf(stakes);
    NothingOverflows(0, total, winPool, feeBps);
    var pot: u64 := DistributablePool(total, feeBps).value;
    var paidOut: u64, claimedStake: u64 := 0, 0;
    payouts := [];
    hide ExactPayouts, Share, SumShares, Fee;
    for i := 0 to |stakes|
      invariant |payouts| == i && paidOut == Sum(payouts) && claimedStake == Sum(stakes[..i])
      invariant Progress(stakes, payouts, pot)
    {
      SumTake(stakes, i);
      LastIffAllClaimed(stakes, i);
      claimedStake := claimedStake + stakes[i];
      var isLast := claimedStake == winPool;
      NothingOverflows(stakes[i], total, winPool, feeBps);
      PaidFits(stakes, payouts, pot);
      var floor := Payout(stakes[i], total, winPool, feeBps).value;
      var p: u64 := if isLast then pot - paidOut else floor;
      ProgressStep(stakes, payouts, pot, p);
      PaidFits(stakes, payouts + [p], pot);
      assert (payouts + [p])[..i] == payouts;
      payouts := payouts + [p];
      paidOut := paidOut + p;
    }
  }

  /** No partial sum of payouts exceeds the pot. */
  lemma PaidFits(stakes: seq<nat>, payouts: seq<nat>, pot: nat)
    requires Sum(stakes) > 0 && Progress(stakes, payouts, pot)
    ensures Sum(payouts) <= pot
    ensures |payouts| < |stakes| ==> Share(stakes[|payouts|], pot, Sum(stakes)) + Sum(payouts) <= pot
  {
    var i := |payouts|;
    if i < |stakes| {
      RemainingFloorsCovered(stakes, i, pot);
      assert stakes[i..] == [stakes[i]] + stakes[i + 1..];
      SumSharesConcat([stakes[i]], stakes[i + 1..], pot, Sum(stakes));
      assert [stakes[i]][..0] == [];
    }
  }

  method SumOf(stakes: seq<u64>) returns (r: u64)
    requires Sum(stakes) <= U64_MAX
    ensures r == Sum(stakes)
  {
    r := 0;
    for i := 0 to |stakes|
      invariant r == Sum(stakes[..i])
    {
      SumTake(stakes, i);
      assert stakes == stakes[..i + 1] + stakes[i + 1..];
      SumConcat(stakes[..i + 1], stakes[i + 1..]);
      r := r + stakes[i];
    }
    assert stakes[..|stakes|] == stakes;
  }
}
