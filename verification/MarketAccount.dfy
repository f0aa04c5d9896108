/**
 * The market account as the handlers see it: mutable fields, checked and assigned one
 * by one. Every handler is proved to have exactly the effect, or to return exactly the
 * error, of the corresponding function on states; on a valid account it succeeds exactly
 * when it should, pays what it should, and leaves the account valid.
 */
module MarketAccount {
  import opened Wrappers
  import opened Numbers
  import opened PayoutMath
  import opened Coverage
  import opened Settlement
  import opened Escrow
  import opened EscrowInvariant
  import opened EscrowTheorems
  import opened EscrowAnswers

  // --- what a caller may rely on ---------------------------------------------------------------

  /** One bet more, on the outcome it names, and nothing else changed. */
  ghost predicate BetPlaced(s: State, s': State, bettor: Owner, outcomeIndex: u8, amount: u64) {
    && s'.positions.Keys == s.positions.Keys + {bettor}
    && s'.positions[bettor].outcomeIndex == outcomeIndex && !s'.positions[bettor].claimed
    && s'.positions[bettor].amount == (if bettor in s.positions then s.positions[bettor].amount else 0) + amount
    && (forall o :: o in s.positions && o != bettor ==> s'.positions[o] == s.positions[o])
    && s'.totalPool == s.totalPool + amount && s'.vault == s.vault + amount && s'.payments == s.payments
    && s'.status == s.status && SameRules(s, s')
  }

  /** The status moved on; stakes, vault and payments did not. */
  ghost predicate OnlyMovesOn(s: State, s': State) {
    && Transition(s.status, s'.status) && s'.status != s.status && SameRules(s, s')
    && s'.positions == s.positions && s'.pools == s.pools && s'.totalPool == s.totalPool
    && s'.vault == s.vault && s'.payments == s.payments
  }

  /** One payment out of the vault, and no stake changed. */
  ghost predicate Pays(s: State, s': State, p: Payment) {
    && !HasReceived(s, p.to) && p.amount <= s.vault
    && s'.payments == s.payments + [p] && s'.vault == s.vault - p.amount
    && SameStakes(s, s') && s'.pools == s.pools && s'.status == s.status && SameRules(s, s')
  }

  /** A winner gets the floored share and less than one unit per winner more. */
  ghost predicate WinnerPaid(s: State, s': State, owner: Owner) {
    exists p: nat :: Pays(s, s', Payment(Bettor(owner), p)) && FairPayment(s, Payment(Bettor(owner), p))
  }

  /** A position that can be refunded. */
  ghost predicate OpenRefund(s: State, owner: Owner) {
    s.status == Cancelled && owner in s.positions && !s.positions[owner].claimed
  }

  // --- the same, of the functions on states --------------------------------------------------------

  lemma BetFacts(s: State, now: i64, bettor: Owner, outcomeIndex: u8, amount: u64, funds: u64)
    requires Inv(s)
    ensures var r := Escrow.PlaceBet(s, now, bettor, outcomeIndex, amount, funds);
            && (r.Ok? <==> BetAllowed(s, now, bettor, outcomeIndex, amount, funds))
            && (r.Ok? ==> Inv(r.value) && BetPlaced(s, r.value, bettor, outcomeIndex, amount))
            && (r.Err? ==> BetExplained(s, now, bettor, outcomeIndex, amount, funds, r.error))
  {
    BetIff(s, now, bettor, outcomeIndex, amount, funds);
    if Escrow.PlaceBet(s, now, bettor, outcomeIndex, amount, funds).Err? {
      BetRefusal(s, now, bettor, outcomeIndex, amount, funds);
    }
    if Escrow.PlaceBet(s, now, bettor, outcomeIndex, amount, funds).Ok? {
      PlaceBetInv(s, now, bettor, outcomeIndex, amount, funds);
      NoneClaimed(s);
      hide Inv, Total, Sum;
    }
  }

  lemma LockFacts(s: State, now: i64)
    requires Inv(s)
    ensures var r := Escrow.Lock(s, now);
            && (r.Ok? ==> Inv(r.value) && OnlyMovesOn(s, r.value) && r.value.status == Locked)
            && (r.Err? ==> LockExplained(s, now, r.error))
  {
    if Escrow.Lock(s, now).Ok? {
      LockInv(s, now);
      hide Inv;
    }
  }

  lemma SettleFacts(s: State, v3: bool, claimed: u8, verdict: Result<bool, SettleError>)
    requires Inv(s)
    ensures var r := Escrow.Settle(s, v3, claimed, verdict);
            && (r.Ok? <==> SettlementAllowed(s, v3, claimed, verdict))
            && (r.Ok? ==> Inv(r.value) && OnlyMovesOn(s, r.value) && SettledAs(s, r.value, claimed))
            && (r.Err? ==> SettleExplained(s, v3, claimed, verdict, r.error))
  {
    SettleIff(s, v3, claimed, verdict);
    if Escrow.Settle(s, v3, claimed, verdict).Ok? {
      SettleInv(s, v3, claimed, verdict);
      hide Inv, FeeAmount;
    } else {
      SettleRefusal(s, v3, claimed, verdict);
    }
  }

  lemma CancelFacts(s: State, now: i64)
    requires Inv(s)
    ensures var r := Escrow.Cancel(s, now);
            && (r.Ok? ==> Inv(r.value) && OnlyMovesOn(s, r.value) && r.value.status == Cancelled)
            && (r.Err? ==> CancelExplained(s, now, r.error))
            && (r.Ok? <==> s.status == Locked && s.lockTime + s.resolutionTimeout < now
                           && I64_MIN <= s.lockTime + s.resolutionTimeout)
  {
    CancelRefusal(s, now);
    if Escrow.Cancel(s, now).Ok? {
      CancelInv(s, now);
      hide Inv;
    }
  }

  lemma ClaimFacts(s: State, owner: Owner)
    requires Inv(s)
    ensures var r := Escrow.ClaimWinnings(s, owner);
            && (r.Ok? <==> OpenClaim(s, owner)) && (r.Ok? ==> Inv(r.value) && WinnerPaid(s, r.value, owner))
  {
    if OpenClaim(s, owner) {
      ClaimNeverStuck(s, owner);
    }
    if Escrow.ClaimWinnings(s, owner).Ok? {
      ClaimWinningsInv(s, owner);
      ClaimStep(s, owner);
    }
  }

  lemma ClaimStep(s: State, owner: Owner)
    requires Inv(s) && Escrow.ClaimWinnings(s, owner).Ok?
    ensures WinnerPaid(s, Escrow.ClaimWinnings(s, owner).value, owner)
  {
    var s' := Escrow.ClaimWinnings(s, owner).value;
    var pay := Payment(Bettor(owner), ClaimAmount(s, s.positions[owner].amount).value);
    ClaimIsFair(s, owner, pay);
    Unreceived(s, owner);
    hide Inv, ClaimAmount, FairPayment;
    assert Pays(s, s', pay);
  }

  lemma Unreceived(s: State, owner: Owner)
    requires Inv(s) && owner in s.positions && !s.positions[owner].claimed
    ensures !HasReceived(s, Bettor(owner))
  {
    hide Books, SettledBooks, RefundBooks, Undecided, PaidSum;
  }

  lemma RefundFacts(s: State, owner: Owner)
    requires Inv(s)
    ensures var r := Escrow.ClaimRefund(s, owner);
            && (r.Ok? <==> OpenRefund(s, owner))
            && (r.Ok? ==> Inv(r.value) && Pays(s, r.value, Payment(Bettor(owner), s.positions[owner].amount)))
            && (r.Err? ==> RefundExplained(s, owner, r.error))
  {
    if Escrow.ClaimRefund(s, owner).Err? {
      RefundRefusal(s, owner);
    }
    if OpenRefund(s, owner) {
      RefundNeverStuck(s, owner);
    }
    if Escrow.ClaimRefund(s, owner).Ok? {
      ClaimRefundInv(s, owner);
      Unreceived(s, owner);
      hide Inv, HasReceived;
    }
  }

  lemma FeeFacts(s: State)
    requires Inv(s)
    ensures var r := Escrow.WithdrawFees(s);
            && (r.Ok? <==> s.status == Settled && s.feeAmount > 0 && !s.feeWithdrawn)
            && (r.Ok? ==> Inv(r.value) && Pays(s, r.value, Payment(Treasury, s.feeAmount)))
            && (r.Err? ==> FeesExplained(s, r.error))
  {
    if Escrow.WithdrawFees(s).Err? {
      FeesRefusal(s);
    }
    if s.status == Settled {
      FeeNeverStuck(s);
    }
    if Escrow.WithdrawFees(s).Ok? {
      WithdrawFeesInv(s);
      TreasuryUnpaid(s);
      hide Inv, HasReceived;
    }
  }

  lemma TreasuryUnpaid(s: State)
    requires Inv(s) && !s.feeWithdrawn
    ensures !HasReceived(s, Treasury)
  {
    hide Books, SettledBooks, RefundBooks, Undecided, PaidSum;
  }

  lemma AttachFacts(s: State, spec: ComboSpec)
    requires Inv(s)
    ensures var r := Escrow.AttachSpec(s, spec);
            && (r.Ok? <==> s.combo.None? && s.marketType >= COMBO_MARKET_TYPE_MIN && s.status == Open
                           && WellFormed(spec, NumOutcomes(s)))
            && (r.Ok? ==> Inv(r.value))
            && (r.Err? ==> AttachExplained(s, spec, r.error))
  {
    AttachRefusal(s, spec);
    ValidIffWellFormed(spec, NumOutcomes(s));
    if Escrow.AttachSpec(s, spec).Ok? {
      AttachSpecInv(s, spec);
    }
  }

  // --- the account ---------------------------------------------------------------------------------

  /** The loop over `outcome_specs`: stops at the first spec whose operator does not fit its stats. */
  method CheckSpecs(specs: seq<OutcomeSpec>) returns (ok: bool)
    ensures ok <==> AllSpecsValid(specs)
  {
    for k := 0 to |specs|
      invariant forall j :: 0 <= j < k ==> IsValidSpec(specs[j])
    {
      if !IsValidSpec(specs[k]) { return false; }
    }
    return true;
  }

  /** `initialize_market`: no account is created unless every check passes. */
  method OpenMarket(now: i64, p: Setup) returns (r: Result<Market, Error>)
    ensures r.Ok? <==> Creatable(now, p)
    ensures match Escrow.Initialize(now, p)
            case Ok(s) => r.Ok? && fresh(r.value) && r.value.Valid() && r.value.Snapshot() == s
            case Err(e) => r == Err(e)
  {
    InitializeIff(now, p);
    if Escrow.Initialize(now, p).Ok? {
      InitializeInv(now, p);
    }
    hide IsValidSpec, AllSpecsValid, ZeroPools, Inv;
    if p.fixtureId <= 0 { return Err(InvalidFixtureId); }
    if p.feeBps > MAX_FEE_BPS { return Err(FeeTooHigh); }
    if p.resolutionTimeout <= 0 { return Err(InvalidResolutionTimeout); }
    var n := |p.specs|;
    if n < MIN_OUTCOMES || n > MAX_OUTCOMES { return Err(InvalidOutcomeCount); }
    if p.lockTime <= now { return Err(LockTimeInPast); }
    var valid := CheckSpecs(p.specs);
    if !valid { return Err(InvalidOutcomeSpec); }
    var market := new Market(p);
    return Ok(market);
  }

  class Market {
    const fixtureId: i64
    const specs: seq<OutcomeSpec>
    const marketType: u8
    const feeBps: u16
    const lockTime: i64
    const resolutionTimeout: i64
    var combo: Option<ComboSpec>
    var donated: nat
    var status: Status
    var winningOutcome: u8
    var totalPool: u64
    var totalWinningPool: u64
    var feeAmount: u64
    var paidOut: u64
    var winningStakeClaimed: u64
    var feeWithdrawn: bool
    var pools: seq<u64>
    var positions: map<Owner, Position>
    var vault: nat
    var payments: seq<Payment>

    ghost function Snapshot(): State
      reads this
    {
      State(fixtureId, specs, combo, donated, marketType, status, winningOutcome, feeBps, lockTime, resolutionTimeout,
            totalPool, totalWinningPool, feeAmount, paidOut, winningStakeClaimed, feeWithdrawn,
            pools, positions, vault, payments)
    }

    /** The books balance and every token is accounted for. */
    ghost predicate Valid()
      reads this
    {
      Inv(Snapshot())
    }

    constructor (p: Setup)
      ensures Snapshot() == State(p.fixtureId, p.specs, None, 0, p.marketType, Open, UNSET_OUTCOME, p.feeBps,
                                  p.lockTime, p.resolutionTimeout, 0, 0, 0, 0, 0, false,
                                  ZeroPools(|p.specs|), map[], 0, [])
    {
      hide ZeroPools;
      fixtureId, specs, marketType, feeBps := p.fixtureId, p.specs, p.marketType, p.feeBps;
      lockTime, resolutionTimeout := p.lockTime, p.resolutionTimeout;
      combo, donated, status, winningOutcome := None, 0, Open, UNSET_OUTCOME;
      totalPool, totalWinningPool, feeAmount, paidOut, winningStakeClaimed := 0, 0, 0, 0, 0;
      feeWithdrawn, pools, positions, vault, payments := false, ZeroPools(|p.specs|), map[], 0, [];
    }

    method AttachSpec(spec: ComboSpec) returns (r: Result<(), Error>)
      requires Valid()
      modifies `combo
      ensures Answers(r, Escrow.AttachSpec(old(Snapshot()), spec), old(Snapshot()), Snapshot())
      ensures Valid()
      ensures r.Err? ==> AttachExplained(old(Snapshot()), spec, r.error)
      ensures r.Ok? <==> old(combo.None?) && marketType >= 16 && status == Open
                         && WellFormed(spec, NumOutcomes(old(Snapshot())))
    {
      hide Inv, WellFormed, SpecVerdict, AttachExplained;
      AttachFacts(Snapshot(), spec);
      if combo.Some? { return Err(SpecAlreadyAttached); }
      if marketType < COMBO_MARKET_TYPE_MIN { return Err(NotAComboMarket); }
      if status != Open { return Err(MarketNotOpen); }
      var valid := ValidateComboSpec(spec, |pools| % 0x100);
      if valid.Err? { return Err(InvalidCombo(valid.error)); }
      combo := Some(spec);
      return Ok(());
    }

    /** Tokens anybody sends to the vault's address. */
    method Receive(tokens: nat)
      requires Valid()
      modifies `vault, `donated
      ensures Snapshot() == Escrow.Transfer(old(Snapshot()), tokens) && Valid()
    {
      hide Inv;
      TransferInv(Snapshot(), tokens);
      vault := vault + tokens;
      donated := donated + tokens;
    }

    method PlaceBet(now: i64, bettor: Owner, outcomeIndex: u8, amount: u64, funds: u64) returns (r: Result<(), Error>)
      requires Valid()
      modifies `vault, `positions, `pools, `totalPool
      ensures Answers(r, Escrow.PlaceBet(old(Snapshot()), now, bettor, outcomeIndex, amount, funds),
                      old(Snapshot()), Snapshot())
      ensures Valid()
      ensures r.Ok? <==> && status == Open && now < lockTime && 0 < amount <= funds && outcomeIndex < |old(pools)|
                         && (bettor in old(positions) ==> old(positions)[bettor].outcomeIndex == outcomeIndex)
                         && old(totalPool) + amount <= 0xFFFF_FFFF_FFFF_FFFF
      ensures r.Ok? ==> BetPlaced(old(Snapshot()), Snapshot(), bettor, outcomeIndex, amount)
      ensures r.Err? ==> BetExplained(old(Snapshot()), now, bettor, outcomeIndex, amount, funds, r.error)
    {
      hide Inv, BetPlaced, BetExplained;
      BetFacts(Snapshot(), now, bettor, outcomeIndex, amount, funds);
      if amount == 0 { return Err(ZeroAmount); }
      if status != Open { return Err(MarketNotOpen); }
      if now >= lockTime { return Err(BettingClosed); }
      if outcomeIndex >= |pools| { return Err(InvalidOutcomeIndex); }
      var position := Position(outcomeIndex, 0, false);
      if bettor in positions {
        position := positions[bettor];
        if position.outcomeIndex != outcomeIndex { return Err(CannotSwitchOutcome); }
      }
      if funds < amount { return Err(InsufficientFunds); }
      if position.amount + amount > U64_MAX || pools[outcomeIndex] + amount > U64_MAX || totalPool + amount > U64_MAX {
        return Err(Math(MathOverflow));
      }
      vault := vault + amount;
      positions := positions[bettor := position.(amount := position.amount + amount)];
      pools := pools[outcomeIndex := pools[outcomeIndex] + amount];
      totalPool := totalPool + amount;
      return Ok(());
    }

    method Lock(now: i64) returns (r: Result<(), Error>)
      requires Valid()
      modifies `status
      ensures Answers(r, Escrow.Lock(old(Snapshot()), now), old(Snapshot()), Snapshot())
      ensures Valid()
      ensures r.Ok? <==> old(status) == Open && now >= lockTime
      ensures r.Ok? ==> OnlyMovesOn(old(Snapshot()), Snapshot()) && status == Locked
      ensures r.Err? ==> LockExplained(old(Snapshot()), now, r.error)
    {
      hide Inv, OnlyMovesOn, LockExplained, CancelExplained;
      LockFacts(Snapshot(), now);
      if status != Open { return Err(MarketNotOpen); }
      if now < lockTime { return Err(TooEarlyToLock); }
      status := Locked;
      return Ok(());
    }

    method Settle(v3: bool, claimed: u8, verdict: Result<bool, SettleError>) returns (r: Result<(), Error>)
      requires Valid()
      modifies `status, `winningOutcome, `totalWinningPool, `feeAmount
      ensures Answers(r, Escrow.Settle(old(Snapshot()), v3, claimed, verdict), old(Snapshot()), Snapshot())
      ensures Valid()
      ensures r.Ok? <==> && old(status) == Locked && claimed < |pools| && (v3 <==> marketType >= 16)
                         && (v3 ==> combo.Some?) && verdict == Ok(true)
      ensures r.Ok? ==>
                && OnlyMovesOn(old(Snapshot()), Snapshot()) && winningOutcome == claimed
                && totalWinningPool == pools[claimed]
                && (if pools[claimed] > 0 then status == Settled && feeAmount == totalPool * feeBps / 10_000
                    else status == Cancelled && feeAmount == 0)
      ensures r.Err? ==> SettleExplained(old(Snapshot()), v3, claimed, verdict, r.error)
    {
      hide Inv, FeeAmount, OnlyMovesOn, SettleExplained;
      SettleFacts(Snapshot(), v3, claimed, verdict);
      if v3 && combo.None? { return Err(NoComboSpec); }
      match status {
        case Locked =>
        case Settled => return Err(AlreadyResolved);
        case Cancelled => return Err(AlreadyResolved);
        case Open => return Err(NotLocked);
      }
      if claimed >= |pools| { return Err(InvalidOutcomeIndex); }
      if v3 {
        if marketType < COMBO_MARKET_TYPE_MIN { return Err(NotAComboMarket); }
      } else {
        if marketType >= COMBO_MARKET_TYPE_MIN { return Err(ComboRequiresV3); }
      }
      match verdict {
        case Err(e) => return Err(Unverifiable(e));
        case Ok(holds) => if !holds { return Err(OutcomeNotVerified); }
      }
      var winningPool := pools[claimed];
      if winningPool == 0 {
        winningOutcome := claimed;
        status := Cancelled;
        totalWinningPool := 0;
        feeAmount := 0;
        return Ok(());
      }
      var fee := FeeAmount(totalPool, feeBps);
      if fee.Err? { return Err(Math(fee.error)); }
      winningOutcome := claimed;
      status := Settled;
      totalWinningPool := winningPool;
      feeAmount := fee.value;
      return Ok(());
    }

    method Cancel(now: i64) returns (r: Result<(), Error>)
      requires Valid()
      modifies `status
      ensures Answers(r, Escrow.Cancel(old(Snapshot()), now), old(Snapshot()), Snapshot())
      ensures Valid()
      ensures r.Ok? <==> old(status) == Locked && lockTime + resolutionTimeout < now
                         && I64_MIN <= lockTime + resolutionTimeout
      ensures r.Ok? ==> OnlyMovesOn(old(Snapshot()), Snapshot()) && status == Cancelled
      ensures r.Err? ==> CancelExplained(old(Snapshot()), now, r.error)
    {
      hide Inv, OnlyMovesOn, LockExplained, CancelExplained;
      CancelFacts(Snapshot(), now);
      match status {
        case Locked =>
        case Open => return Err(NotLocked);
        case Settled => return Err(AlreadyResolved);
        case Cancelled => return Err(AlreadyResolved);
      }
      var deadline: int := lockTime + resolutionTimeout;
      if deadline < I64_MIN || deadline > I64_MAX { return Err(Math(MathOverflow)); }
      if now <= deadline { return Err(TooEarlyToCancel); }
      status := Cancelled;
      return Ok(());
    }

    method ClaimWinnings(owner: Owner) returns (r: Result<(), Error>)
      requires Valid()
      modifies `paidOut, `winningStakeClaimed, `positions, `vault, `payments
      ensures Answers(r, Escrow.ClaimWinnings(old(Snapshot()), owner), old(Snapshot()), Snapshot())
      ensures Valid()
      ensures r.Ok? <==> OpenClaim(old(Snapshot()), owner)
      ensures r.Ok? ==> WinnerPaid(old(Snapshot()), Snapshot(), owner)
    {
      hide Inv, OpenClaim, WinnerPaid, DistributablePool, Payout;
      ClaimFacts(Snapshot(), owner);
      if owner !in positions { return Err(NoPosition); }
      if status != Settled { return Err(NotSettled); }
      var position := positions[owner];
      if position.claimed { return Err(AlreadyClaimed); }
      if position.outcomeIndex != winningOutcome { return Err(NotAWinningPosition); }
      if totalWinningPool == 0 { return Err(Math(ZeroWinningPool)); }
      var newClaimed: int := winningStakeClaimed + position.amount;
      if newClaimed > U64_MAX { return Err(Math(MathOverflow)); }
      var isLastClaimer := newClaimed == totalWinningPool;
      var distributable := DistributablePool(totalPool, feeBps);
      if distributable.Err? { return Err(Math(distributable.error)); }
      var payout: u64 := 0;
      if isLastClaimer {
        if paidOut > distributable.value { return Err(Math(MathUnderflow)); }
        payout := distributable.value - paidOut;
      } else {
        var floor := Payout(position.amount, totalPool, totalWinningPool, feeBps);
        if floor.Err? { return Err(Math(floor.error)); }
        payout := floor.value;
      }
      if vault < payout { return Err(InsufficientFunds); }
      if paidOut + payout > U64_MAX { return Err(Math(MathOverflow)); }
      vault := vault - payout;
      payments := payments + [Payment(Bettor(owner), payout)];
      paidOut := paidOut + payout;
      winningStakeClaimed := newClaimed;
      positions := positions[owner := position.(claimed := true)];
      return Ok(());
    }

    method ClaimRefund(owner: Owner) returns (r: Result<(), Error>)
      requires Valid()
      modifies `positions, `vault, `payments
      ensures Answers(r, Escrow.ClaimRefund(old(Snapshot()), owner), old(Snapshot()), Snapshot())
      ensures Valid()
      ensures r.Ok? <==> OpenRefund(old(Snapshot()), owner)
      ensures r.Ok? ==> Pays(old(Snapshot()), Snapshot(), Payment(Bettor(owner), old(positions)[owner].amount))
      ensures r.Err? ==> RefundExplained(old(Snapshot()), owner, r.error)
    {
      hide Inv, OpenRefund, Pays, RefundExplained;
      RefundFacts(Snapshot(), owner);
      if owner !in positions { return Err(NoPosition); }
      if status != Cancelled { return Err(NotCancelled); }
      var position := positions[owner];
      if position.claimed { return Err(AlreadyClaimed); }
      if vault < position.amount { return Err(InsufficientFunds); }
      vault := vault - position.amount;
      payments := payments + [Payment(Bettor(owner), position.amount)];
      positions := positions[owner := position.(claimed := true)];
      return Ok(());
    }

    method WithdrawFees() returns (r: Result<(), Error>)
      requires Valid()
      modifies `feeWithdrawn, `vault, `payments
      ensures Answers(r, Escrow.WithdrawFees(old(Snapshot())), old(Snapshot()), Snapshot())
      ensures Valid()
      ensures r.Ok? <==> status == Settled && feeAmount > 0 && !old(feeWithdrawn)
      ensures r.Ok? ==> Pays(old(Snapshot()), Snapshot(), Payment(Treasury, feeAmount))
      ensures r.Err? ==> FeesExplained(old(Snapshot()), r.error)
    {
      hide Inv, Pays, FeesExplained;
      FeeFacts(Snapshot());
      if status != Settled { return Err(NotSettled); }
      if feeWithdrawn { return Err(FeesAlreadyWithdrawn); }
      if feeAmount == 0 { return Err(NothingToWithdraw); }
      if vault < feeAmount { return Err(InsufficientFunds); }
      vault := vault - feeAmount;
      payments := payments + [Payment(Treasury, feeAmount)];
      feeWithdrawn := true;
      return Ok(());
    }
  }

  /** On a valid account the vault holds what was staked or sent in and not yet paid out. */
  lemma VaultIsAccountedFor(market: Market)
    requires market.Valid()
    ensures market.vault + PaidSum(market.payments) == market.totalPool + market.donated
  {
    hide SettledBooks, RefundBooks, Undecided, PaidSum;
  }
}
