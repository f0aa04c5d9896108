/**
 * The payout the API shows for an unclaimed win, against what the program pays. The API
 * takes the fee off the losing pool only and always floors; the program takes the fee off
 * the whole pool and gives the last claimer the rest. So the shown payout can be too high
 * and too low, and it is right for every winner exactly when neither matters.
 */
module Projection {
  import opened Wrappers
  import opened Numbers
  import opened PayoutMath
  import Strategy
  import opened Settlement
  import opened Escrow
  import opened EscrowInvariant
  import opened EscrowTheorems

  /** BigInt division truncates toward zero. */
  function TruncatedDiv(a: int, b: nat): int
    requires b > 0
  {
    if a >= 0 then a / b else -((-a) / b)
  }

  function ProjectPayout(stake: int, totalPool: int, winningPool: int, feeBps: int): int {
    if winningPool <= 0 then 0
    else
      var losing := totalPool - winningPool;
      var fee := TruncatedDiv(losing * feeBps, BPS_DENOMINATOR);
      TruncatedDiv(stake * (totalPool - fee), winningPool)
  }

  /** The quotient is the one whose remainder is short of the divisor and has the dividend's sign. */
  lemma TruncatesTowardZero(a: int, b: nat, q: int)
    requires b > 0
    ensures q == TruncatedDiv(a, b)
            <==> if a >= 0 then q * b <= a < (q + 1) * b else (q - 1) * b < a <= q * b
  {
    if a >= 0 {
      DivAlgorithm(a, b, q);
    } else {
      DivAlgorithm(-a, b, -q);
      assert -q * b == -(q * b) && (-q + 1) * b == -((q - 1) * b);
    }
  }

  lemma DivAlgorithm(a: nat, b: nat, q: int)
    requires b > 0
    ensures q == a / b <==> q * b <= a < (q + 1) * b
  {
    var r := a - (a / b) * b;
    assert 0 <= r < b;
    if q < a / b {
      MulOrder(q + 1, a / b, b);
    } else if q > a / b {
      MulOrder(a / b + 1, q, b);
    }
  }

  lemma MulOrder(x: int, y: int, b: nat)
    requires x <= y
    ensures x * b <= y * b
  {
  }

  /** Without a winning pool nothing is shown, whatever the stake and the fee. */
  lemma NothingToShow(stake: int, totalPool: int, winningPool: int, feeBps: int)
    requires winningPool <= 0
    ensures ProjectPayout(stake, totalPool, winningPool, feeBps) == 0
  {
  }

  /** A winner's stake in a pool with at most a 100% fee. */
  predicate Valid(stake: int, totalPool: int, winningPool: int, feeBps: int) {
    0 < stake <= winningPool <= totalPool && 0 <= feeBps <= BPS_DENOMINATOR
  }

  /** The floored share `math::payout` computes, which all but the last claimer are paid. */
  function FlooredShare(stake: nat, totalPool: nat, winningPool: nat, feeBps: nat): nat
    requires Valid(stake, totalPool, winningPool, feeBps)
  {
    FeeAtMostTotal(totalPool, feeBps);
    Share(stake, totalPool - Fee(totalPool, feeBps), winningPool)
  }

  lemma ProjectionIsShare(stake: nat, totalPool: nat, winningPool: nat, feeBps: nat)
    requires Valid(stake, totalPool, winningPool, feeBps)
    ensures Fee(totalPool - winningPool, feeBps) <= totalPool
    ensures ProjectPayout(stake, totalPool, winningPool, feeBps)
            == Share(stake, totalPool - Fee(totalPool - winningPool, feeBps), winningPool)
  {
    FeeAtMostTotal(totalPool - winningPool, feeBps);
    MulMonotone(0, totalPool - winningPool, feeBps);
    MulMonotone(0, totalPool - Fee(totalPool - winningPool, feeBps), stake);
  }

  /** Adding `y` to a dividend adds its quotient, or one more. */
  lemma DivOfSum(x: nat, y: nat, d: nat)
    requires d > 0
    ensures x / d + y / d <= (x + y) / d <= x / d + y / d + 1
  {
    DivBounds(x, d);
    DivBounds(y, d);
    assert d * (x / d + y / d) == d * (x / d) + d * (y / d);
    DivAtLeast(x + y, d, x / d + y / d);
    assert (x / d + y / d + 2) * d == d * (x / d) + d * (y / d) + 2 * d;
    DivAtMost(x + y, d, x / d + y / d + 1);
  }

  /** The two fees differ by the fee on the winning pool, up to rounding. */
  lemma FeeGap(totalPool: nat, winningPool: nat, feeBps: nat)
    requires winningPool <= totalPool
    ensures var gap := Fee(totalPool, feeBps) - Fee(totalPool - winningPool, feeBps);
            gap >= 0 && gap * BPS_DENOMINATOR <= winningPool * feeBps + BPS_DENOMINATOR
  {
    var losing := totalPool - winningPool;
    assert totalPool * feeBps == losing * feeBps + winningPool * feeBps;
    MulMonotone(0, losing, feeBps);
    MulMonotone(0, winningPool, feeBps);
    DivOfSum(losing * feeBps, winningPool * feeBps, BPS_DENOMINATOR);
    DivBounds(winningPool * feeBps, BPS_DENOMINATOR);
  }

  /** A gap in the pot, scaled to one stake. */
  lemma ScaledGap(stake: nat, winningPool: nat, feeBps: nat, gap: nat)
    requires 0 < stake <= winningPool
    requires gap * BPS_DENOMINATOR <= winningPool * feeBps + BPS_DENOMINATOR
    ensures stake * gap / winningPool <= stake * feeBps / BPS_DENOMINATOR + 1
  {
    var q := stake * feeBps / BPS_DENOMINATOR;
    MulMonotone(0, stake, feeBps);
    DivBounds(stake * feeBps, BPS_DENOMINATOR);
    MulMonotone(gap * BPS_DENOMINATOR, winningPool * feeBps + BPS_DENOMINATOR, stake);
    assert stake * (winningPool * feeBps + BPS_DENOMINATOR) == winningPool * (stake * feeBps) + stake * BPS_DENOMINATOR;
    MulMonotone(stake * feeBps, q * BPS_DENOMINATOR + BPS_DENOMINATOR - 1, winningPool);
    assert (stake * gap) * BPS_DENOMINATOR == stake * (gap * BPS_DENOMINATOR);
    assert winningPool * (q * BPS_DENOMINATOR + BPS_DENOMINATOR - 1) + winningPool * BPS_DENOMINATOR
        == ((q + 2) * winningPool) * BPS_DENOMINATOR - winningPool;
    assert stake * gap < (q + 2) * winningPool;
    MulMonotone(0, stake, gap);
    DivAtMost(stake * gap, winningPool, q + 1);
  }

  /**
   * The projection is never below the floored share, exceeds it by at most the fee on the
   * stake plus two units, and equals it when there is no fee.
   */
  lemma ProjectionBounds(stake: nat, totalPool: nat, winningPool: nat, feeBps: nat)
    requires Valid(stake, totalPool, winningPool, feeBps)
    ensures var projected := ProjectPayout(stake, totalPool, winningPool, feeBps);
            var actual := FlooredShare(stake, totalPool, winningPool, feeBps);
            && actual <= projected <= actual + stake * feeBps / BPS_DENOMINATOR + 2
            && (feeBps == 0 ==> projected == actual)
  {
    ProjectionIsShare(stake, totalPool, winningPool, feeBps);
    FeeAtMostTotal(totalPool, feeBps);
    FeeGap(totalPool, winningPool, feeBps);
    var gap := Fee(totalPool, feeBps) - Fee(totalPool - winningPool, feeBps);
    var pot := totalPool - Fee(totalPool, feeBps);
    ScaledGap(stake, winningPool, feeBps, gap);
    assert stake * (pot + gap) == stake * pot + stake * gap;
    MulMonotone(0, stake, pot);
    MulMonotone(0, stake, gap);
    DivOfSum(stake * pot, stake * gap, winningPool);
    DivAtLeast(stake * gap, winningPool, 0);
  }

  /** Too high: of 100 at a 10% fee the share is 90, the API says 95. */
  lemma ProjectionIsNotAMirror()
    ensures FlooredShare(50, 100, 50, 1000) == 90
    ensures ProjectPayout(50, 100, 50, 1000) == 95
  {
  }

  /** It is the floored share for every stake exactly when the two fees coincide. */
  lemma MirrorsFloorsIffFeesCoincide(totalPool: nat, winningPool: nat, feeBps: nat)
    requires 0 < winningPool <= totalPool && feeBps <= BPS_DENOMINATOR
    ensures (forall stake: nat :: 0 < stake <= winningPool ==>
               ProjectPayout(stake, totalPool, winningPool, feeBps)
               == FlooredShare(stake, totalPool, winningPool, feeBps))
            <==> Fee(totalPool - winningPool, feeBps) == Fee(totalPool, feeBps)
  {
    if Fee(totalPool - winningPool, feeBps) == Fee(totalPool, feeBps) {
      forall stake: nat | 0 < stake <= winningPool
        ensures ProjectPayout(stake, totalPool, winningPool, feeBps)
                == FlooredShare(stake, totalPool, winningPool, feeBps)
      {
        ProjectionIsShare(stake, totalPool, winningPool, feeBps);
      }
    } else {
      ProjectionIsShare(winningPool, totalPool, winningPool, feeBps);
      FeeAtMostTotal(totalPool, feeBps);
      WholePoolTakesAll(totalPool - Fee(totalPool, feeBps), winningPool);
      WholePoolTakesAll(totalPool - Fee(totalPool - winningPool, feeBps), winningPool);
      assert ProjectPayout(winningPool, totalPool, winningPool, feeBps)
          != FlooredShare(winningPool, totalPool, winningPool, feeBps);
    }
  }

  /** A sole winner's share is the whole pot. */
  lemma WholePoolTakesAll(pot: nat, winningPool: nat)
    requires winningPool > 0
    ensures Share(winningPool, pot, winningPool) == pot
  {
    assert winningPool * pot == pot * winningPool < (pot + 1) * winningPool;
    DivAtMost(winningPool * pot, winningPool, pot);
    DivAtLeast(winningPool * pot, winningPool, pot);
  }

  // --- what is shown and what is paid -------------------------------------------------------------

  /** What `listPositions` shows for a winning position. */
  function Shown(s: State, owner: Owner): int
    requires owner in s.positions
  {
    ProjectPayout(s.positions[owner].amount, s.totalPool, s.totalWinningPool, s.feeBps)
  }

  /** What the claim pays. */
  function Paid(s: State, owner: Owner): Result<u64, Error>
    requires owner in s.positions
  {
    ClaimAmount(s, s.positions[owner].amount)
  }

  /** An open claim is one the projection is made for. */
  lemma OpenClaimIsValid(s: State, owner: Owner)
    requires Inv(s) && OpenClaim(s, owner)
    ensures Valid(s.positions[owner].amount, s.totalPool, s.totalWinningPool, s.feeBps)
    ensures Pot(s) == s.totalPool - Fee(s.totalPool, s.feeBps)
  {
    var win := s.winningOutcome;
    TotalRemove(s.positions, owner, On(win));
    TotalMonotone(s.positions, On(win), Stakes);
  }

  /**
   * Whoever claims, whenever: what is shown falls short of what is paid by less than one
   * unit per winner, and exceeds it by at most the fee on the stake plus two units.
   */
  lemma ShownBounds(s: State, owner: Owner)
    requires Inv(s) && OpenClaim(s, owner)
    ensures Paid(s, owner).Ok?
    ensures var paid, stake := Paid(s, owner).value, s.positions[owner].amount;
            && paid - Total(s.positions, CountOn(s.winningOutcome)) < Shown(s, owner)
            && Shown(s, owner) <= paid + stake * s.feeBps / BPS_DENOMINATOR + 2
  {
    OpenClaimIsValid(s, owner);
    ClaimPays(s, owner);
    ProjectionBounds(s.positions[owner].amount, s.totalPool, s.totalWinningPool, s.feeBps);
  }

  /** In every market with these pools and this fee, at every open claim, what is shown is what is paid. */
  ghost predicate ShowsWhatIsPaid(total: u64, winning: u64, feeBps: u16) {
    forall s, owner ::
      Reachable(s) && OpenClaim(s, owner)
      && s.totalPool == total && s.totalWinningPool == winning && s.feeBps == feeBps ==>
        Paid(s, owner) == Ok(Shown(s, owner))
  }

  // --- it is right where nothing is rounded ----------------------------------------------------------

  /** The fee on the losing pool is the fee on the whole, and the pot is a multiple of the winning pool. */
  predicate NothingToRound(total: nat, winning: nat, feeBps: nat)
    requires 0 < winning <= total
  {
    Fee(total - winning, feeBps) == Fee(total, feeBps) && (total - Fee(total, feeBps)) % winning == 0
  }

  /** The pot is `q` for each unit staked on the winner. */
  predicate PaysEach(pot: nat, q: nat, w: nat) {
    w > 0 && pot == q * w
  }

  lemma ExactShare(stake: nat, pot: nat, q: nat, w: nat)
    requires PaysEach(pot, q, w)
    ensures Share(stake, pot, w) == q * stake
  {
    assert stake * pot == (q * stake) * w;
    DivAtLeast(stake * pot, w, q * stake);
    assert (q * stake + 1) * w == (q * stake) * w + w;
    DivAtMost(stake * pot, w, q * stake);
  }

  lemma Distributes(q: nat, a: nat, b: nat)
    ensures q * (a + b) == q * a + q * b
  {
  }

  lemma ExactWeight(p: Position, k: nat, pot: nat, q: nat, w: nat)
    requires PaysEach(pot, q, w)
    ensures Weigh(ClaimedFloors(k, pot, w), p) == q * Weigh(ClaimedOn(k), p)
  {
    hide Share;
    ExactShare(p.amount, pot, q, w);
  }

  /** Where the pot is a multiple of the winning pool, the floors are exact. */
  lemma {:induction false} ExactFloors(ps: map<Owner, Position>, k: nat, pot: nat, q: nat, w: nat)
    requires PaysEach(pot, q, w)
    ensures Total(ps, ClaimedFloors(k, pot, w)) == q * Total(ps, ClaimedOn(k))
    decreases |ps|
  {
    hide PaysEach, Weigh, Total;
    if ps == map[] {
      TotalEmpty(ClaimedFloors(k, pot, w));
      TotalEmpty(ClaimedOn(k));
    } else {
      var o :| o in ps;
      TotalRemove(ps, o, ClaimedFloors(k, pot, w));
      TotalRemove(ps, o, ClaimedOn(k));
      ExactFloors(ps - {o}, k, pot, q, w);
      ExactWeight(ps[o], k, pot, q, w);
      Distributes(q, Weigh(ClaimedOn(k), ps[o]), Total(ps - {o}, ClaimedOn(k)));
    }
  }

  /** The last claimer's rest is then the exact share too. */
  lemma RestIsExact(pot: nat, q: nat, w: nat, stake: nat, claimed: nat, paidOut: nat)
    requires PaysEach(pot, q, w) && claimed + stake == w && paidOut == q * claimed
    ensures pot - paidOut == q * stake
  {
    Distributes(q, claimed, stake);
  }

  lemma NothingToRoundPaysEach(total: nat, winning: nat, feeBps: nat)
    requires 0 < winning <= total && feeBps <= BPS_DENOMINATOR && NothingToRound(total, winning, feeBps)
    ensures Fee(total, feeBps) <= total
    ensures PaysEach(total - Fee(total, feeBps), (total - Fee(total, feeBps)) / winning, winning)
  {
    FeeAtMostTotal(total, feeBps);
    DivBounds(total - Fee(total, feeBps), winning);
  }

  /** Then every winner is paid what is shown, in whatever order they claim. */
  lemma ShownIsPaid(s: State, owner: Owner)
    requires Inv(s) && OpenClaim(s, owner) && 0 < s.totalWinningPool <= s.totalPool
    requires NothingToRound(s.totalPool, s.totalWinningPool, s.feeBps)
    ensures Paid(s, owner) == Ok(Shown(s, owner))
  {
    var stake, pot, w := s.positions[owner].amount, Pot(s), s.totalWinningPool;
    OpenClaimIsValid(s, owner);
    NothingToRoundPaysEach(s.totalPool, w, s.feeBps);
    var q := pot / w;
    ShownIsShare(s, owner);
    ClaimPays(s, owner);
    ClaimedSoFar(s, owner);
    hide Inv, OpenClaim, Share, Total, ClaimAmount, Fee, PaysEach, Shown, Pot;
    ExactFloors(s.positions, s.winningOutcome, pot, q, w);
    ExactShare(stake, pot, q, w);
    if s.winningStakeClaimed + stake == w {
      RestIsExact(pot, q, w, stake, s.winningStakeClaimed, s.paidOut);
    }
  }

  /** With equal fees the share of the pot is shown. */
  lemma ShownIsShare(s: State, owner: Owner)
    requires Inv(s) && OpenClaim(s, owner) && 0 < s.totalWinningPool <= s.totalPool
    requires Fee(s.totalPool - s.totalWinningPool, s.feeBps) == Fee(s.totalPool, s.feeBps)
    ensures Pot(s) >= 0 && Shown(s, owner) == Share(s.positions[owner].amount, Pot(s), s.totalWinningPool)
  {
    OpenClaimIsValid(s, owner);
    ProjectionIsShare(s.positions[owner].amount, s.totalPool, s.totalWinningPool, s.feeBps);
  }

  lemma ClaimedSoFar(s: State, owner: Owner)
    requires Inv(s) && OpenClaim(s, owner)
    ensures Pot(s) >= 0 && s.totalWinningPool > 0
    ensures s.winningStakeClaimed == Total(s.positions, ClaimedOn(s.winningOutcome))
    ensures s.paidOut == Total(s.positions, ClaimedFloors(s.winningOutcome, Pot(s), s.totalWinningPool))
  {
    OpenClaimSums(s, owner);
  }

  // --- and wrong everywhere else ----------------------------------------------------------------------

  /** Two outcomes, betting until 10. */
  function TwoOutcomes(feeBps: u16): Setup {
    var spec := OutcomeSpec(1, 100, true, 2, 100, Some(Strategy.Subtract), Strategy.GreaterThan, 0);
    Setup(1, 0, [spec, spec], feeBps, 10, 1)
  }

  /** The effect of a first bet; one of nothing is refused. */
  function WithBet(s: State, bettor: Owner, outcome: u8, amount: u64): State
    requires outcome < |s.pools| && s.pools[outcome] + amount <= U64_MAX && s.totalPool + amount <= U64_MAX
  {
    if amount == 0 then s
    else
      s.(positions := s.positions[bettor := Position(outcome, amount, false)],
         pools := s.pools[outcome := s.pools[outcome] + amount],
         totalPool := s.totalPool + amount, vault := s.vault + amount)
  }

  lemma FirstBet(s: State, bettor: Owner, outcome: u8, amount: u64)
    requires Reachable(s) && s.status == Open && 5 < s.lockTime && outcome < |s.pools| && bettor !in s.positions
    requires s.pools[outcome] + amount <= U64_MAX && s.totalPool + amount <= U64_MAX
    ensures Reachable(WithBet(s, bettor, outcome, amount))
  {
    StaysReachable(s, DoPlaceBet(5, bettor, outcome, amount, amount));
    hide Reachable;
    assert After(s, DoPlaceBet(5, bettor, outcome, amount, amount)) == WithBet(s, bettor, outcome, amount);
  }

  lemma Opened(feeBps: u16) returns (s: State)
    requires feeBps <= MAX_FEE_BPS
    ensures Reachable(s) && s.status == Open && s.lockTime == 10 && s.marketType == 0 && s.feeBps == feeBps
    ensures s.pools == [0, 0] && s.positions == map[] && s.totalPool == s.winningStakeClaimed == s.paidOut == 0
  {
    var setup := TwoOutcomes(feeBps);
    s := Initialize(0, setup).value;
    FreshIsReachable(0, setup);
    hide Reachable;
  }

  /** A market of two winners who stake `first` and the rest of the winning pool, before it locks. */
  lemma Staked(total: u64, winning: u64, feeBps: u16, first: u64) returns (s: State)
    requires first < winning <= total && feeBps <= MAX_FEE_BPS
    ensures Reachable(s) && s.status == Open && s.lockTime == 10 && s.marketType == 0 && s.feeBps == feeBps
    ensures s.pools == [winning, total - winning] && s.totalPool == total && s.winningStakeClaimed == s.paidOut == 0
    ensures 1 in s.positions && s.positions[1] == Position(0, winning - first, false)
    ensures first > 0 ==> 0 in s.positions && s.positions[0] == Position(0, first, false)
  {
    hide Reachable;
    var s0 := Opened(feeBps);
    FirstBet(s0, 0, 0, first);
    var s1 := WithBet(s0, 0, 0, first);
    FirstBet(s1, 1, 0, winning - first);
    var s2 := WithBet(s1, 1, 0, winning - first);
    FirstBet(s2, 2, 1, total - winning);
    s := WithBet(s2, 2, 1, total - winning);
  }

  lemma LockAndSettle(s: State)
    requires s.status == Open && s.lockTime == 10 && s.marketType == 0 && s.feeBps <= MAX_FEE_BPS
    requires |s.pools| == 2 && s.pools[0] > 0
    ensures Fee(s.totalPool, s.feeBps) <= U64_MAX
    ensures After(After(s, DoLock(10)), DoSettle(false, 0, Ok(true)))
            == s.(status := Settled, winningOutcome := 0, totalWinningPool := s.pools[0],
                  feeAmount := Fee(s.totalPool, s.feeBps))
  {
    NothingOverflows(0, s.totalPool, s.pools[0], s.feeBps);
    hide Fee, FeeAmount;
    assert After(s, DoLock(10)) == s.(status := Locked);
  }

  /** The same market settled, with both winners' claims open. */
  lemma Unclaimed(total: u64, winning: u64, feeBps: u16, first: u64) returns (s: State)
    requires first < winning <= total && feeBps <= MAX_FEE_BPS
    ensures Reachable(s) && s.winningStakeClaimed == s.paidOut == 0
    ensures OpenClaim(s, 1) && s.positions[1].amount == winning - first
    ensures first > 0 ==> OpenClaim(s, 0) && s.positions[0].amount == first
    ensures s.totalPool == total && s.totalWinningPool == winning && s.feeBps == feeBps
    ensures s.feeAmount == Fee(total, feeBps)
  {
    hide Reachable, After;
    var open := Staked(total, winning, feeBps, first);
    LockAndSettle(open);
    StaysReachable(open, DoLock(10));
    var locked := After(open, DoLock(10));
    StaysReachable(locked, DoSettle(false, 0, Ok(true)));
    s := After(locked, DoSettle(false, 0, Ok(true)));
    hide Fee;
  }

  /** And after the first winner's claim: the second is the last to claim. */
  lemma LastToClaim(total: u64, winning: u64, feeBps: u16, first: u64) returns (s: State)
    requires first < winning <= total && feeBps <= MAX_FEE_BPS
    ensures Reachable(s) && OpenClaim(s, 1) && s.positions[1].amount == winning - first
    ensures s.totalPool == total && s.totalWinningPool == winning && s.feeBps == feeBps
    ensures Fee(total, feeBps) <= total
    ensures var pot := total - Fee(total, feeBps);
            pot >= Share(first, pot, winning) && Paid(s, 1) == Ok(pot - Share(first, pot, winning))
  {
    hide Reachable, After, Inv, Share, Fee, ClaimAmount;
    var settled := Unclaimed(total, winning, feeBps, first);
    ReachableInv(settled);
    ClaimPays(settled, 1);
    s := settled;
    if first > 0 {
      StaysReachable(settled, DoClaimWinnings(0));
      s := FirstClaims(settled, first);
      ReachableInv(s);
      ClaimPays(s, 1);
    } else {
      NoShare(Pot(settled), winning);
    }
  }

  lemma NoShare(pot: nat, w: nat)
    requires w > 0
    ensures Share(0, pot, w) == 0
  {
  }

  lemma FirstClaims(settled: State, first: u64) returns (s: State)
    requires Inv(settled) && OpenClaim(settled, 0) && settled.positions[0].amount == first
    requires settled.winningStakeClaimed == settled.paidOut == 0 && first < settled.totalWinningPool
             && Pot(settled) >= 0
    ensures s == After(settled, DoClaimWinnings(0))
    ensures s.positions == settled.positions[0 := settled.positions[0].(claimed := true)]
    ensures s.winningStakeClaimed == first && s.paidOut == Share(first, Pot(settled), settled.totalWinningPool)
    ensures s.status == settled.status && s.winningOutcome == settled.winningOutcome && s.feeBps == settled.feeBps
    ensures s.totalPool == settled.totalPool && s.totalWinningPool == settled.totalWinningPool
    ensures s.feeAmount == settled.feeAmount
  {
    ClaimNeverStuck(settled, 0);
    ClaimPays(settled, 0);
    hide Inv, Share, ClaimAmount;
    s := After(settled, DoClaimWinnings(0));
  }

  /** Too low, though both fees are zero: of 100, with 3 on the winner, the last to claim 1 is shown 33 and paid 34. */
  lemma LastClaimerIsPaidMore()
    ensures exists s, owner ::
              && Reachable(s) && OpenClaim(s, owner) && s.totalPool == 100 && s.totalWinningPool == 3 && s.feeBps == 0
              && Shown(s, owner) == 33 && Paid(s, owner) == Ok(34)
  {
    var s := LastToClaim(100, 3, 0, 2);
    hide Reachable, Inv, OpenClaim;
    assert Share(2, 100, 3) == 66;
    assert Shown(s, 1) == 33;
  }

  /** With two different fees a sole winner is shown another pot than the one paid. */
  lemma FeesDiffer(total: u64, winning: u64, feeBps: u16)
    requires 0 < winning <= total && feeBps <= MAX_FEE_BPS
    requires Fee(total - winning, feeBps) != Fee(total, feeBps)
    ensures !ShowsWhatIsPaid(total, winning, feeBps)
  {
    var s := LastToClaim(total, winning, feeBps, 0);
    var pot := total - Fee(total, feeBps);
    NoShare(pot, winning);
    ProjectionIsShare(winning, total, winning, feeBps);
    WholePoolTakesAll(total - Fee(total - winning, feeBps), winning);
    hide Reachable, OpenClaim, Fee, Share, ProjectPayout, ClaimAmount;
    assert Paid(s, 1) != Ok(Shown(s, 1));
  }

  /** Of a pot that is no multiple of the winning pool, all but one unit of stake get less than the rest. */
  lemma RestIsMore(pot: nat, w: nat)
    requires w > 0 && pot % w != 0
    ensures w > 1 && Share(w - 1, pot, w) < pot - Share(1, pot, w)
  {
    var q, r := pot / w, pot % w;
    DivBounds(pot, w);
    assert pot == w * q + r && 0 < r < w;
    assert 1 * pot == pot;
    assert (w - 1) * pot == w * pot - pot == w * (pot - q) - r < (pot - q) * w;
    DivAtMost((w - 1) * pot, w, pot - q - 1);
  }

  lemma PotDoesNotDivide(total: u64, winning: u64, feeBps: u16)
    requires 0 < winning <= total && feeBps <= MAX_FEE_BPS
    requires Fee(total - winning, feeBps) == Fee(total, feeBps) && !NothingToRound(total, winning, feeBps)
    ensures !ShowsWhatIsPaid(total, winning, feeBps)
  {
    FeeAtMostTotal(total, feeBps);
    var pot := total - Fee(total, feeBps);
    RestIsMore(pot, winning);
    var s := LastToClaim(total, winning, feeBps, 1);
    ProjectionIsShare(winning - 1, total, winning, feeBps);
    hide Reachable, OpenClaim, Fee, Share, ProjectPayout, ClaimAmount;
    assert Paid(s, 1) != Ok(Shown(s, 1));
  }

  /**
   * The mirror holds exactly where nothing is rounded: what is shown is what is paid, for
   * every split of the winning pool and every order of claims, if and only if both fees
   * coincide and the pot is a multiple of the winning pool.
   */
  lemma ShowsWhatIsPaidIff(total: u64, winning: u64, feeBps: u16)
    requires 0 < winning <= total && feeBps <= MAX_FEE_BPS
    ensures ShowsWhatIsPaid(total, winning, feeBps) <==> NothingToRound(total, winning, feeBps)
  {
    if NothingToRound(total, winning, feeBps) {
      hide NothingToRound, Reachable, OpenClaim, Paid, Shown, Inv;
      forall s, owner | Reachable(s) && OpenClaim(s, owner)
                        && s.totalPool == total && s.totalWinningPool == winning && s.feeBps == feeBps
        ensures owner in s.positions && Paid(s, owner) == Ok(Shown(s, owner))
      {
        ReachableInv(s);
        OpenClaimant(s, owner);
        ShownIsPaid(s, owner);
      }
    } else if Fee(total - winning, feeBps) != Fee(total, feeBps) {
      FeesDiffer(total, winning, feeBps);
    } else {
      PotDoesNotDivide(total, winning, feeBps);
    }
  }

  lemma OpenClaimant(s: State, owner: Owner)
    requires OpenClaim(s, owner)
    ensures owner in s.positions
  {
  }
}
