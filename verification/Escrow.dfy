/**
 * One market: its terms and its money, the effect of each instruction, and runs. Failed
 * instructions change nothing (the transaction is rolled back), so an instruction is a
 * partial function on the state.
 */
module Escrow {
  import opened Wrappers
  import opened Numbers
  import opened PayoutMath
  import opened Coverage
  import opened Settlement

  // --- state ----------------------------------------------------------------------------

  /** Public key of a bettor. */
  type Owner = nat

  datatype Status = Open | Locked | Settled | Cancelled

  /** `claimed` is set by a winner's claim and by a refund alike. */
  datatype Position = Position(outcomeIndex: u8, amount: u64, claimed: bool)

  datatype Recipient = Treasury | Bettor(owner: Owner)
  datatype Payment = Payment(to: Recipient, amount: nat)

  const UNSET_OUTCOME := 255
  const COMBO_MARKET_TYPE_MIN := 16
  const MIN_OUTCOMES := 2

  /**
   * The terms and the accounting fields of `Market`, the combo spec attached to it, its
   * positions, its vault, what left the vault, and what outsiders sent into it.
   */
  datatype State = State(
    fixtureId: i64, specs: seq<OutcomeSpec>, combo: Option<ComboSpec>, donated: nat,
    marketType: u8, status: Status, winningOutcome: u8, feeBps: u16, lockTime: i64, resolutionTimeout: i64,
    totalPool: u64, totalWinningPool: u64, feeAmount: u64, paidOut: u64, winningStakeClaimed: u64,
    feeWithdrawn: bool, pools: seq<u64>, positions: map<Owner, Position>, vault: nat, payments: seq<Payment>)

  datatype Error =
    | InvalidFixtureId | FeeTooHigh | InvalidResolutionTimeout
    | InvalidOutcomeCount | LockTimeInPast | InvalidOutcomeSpec
    | ZeroAmount | MarketNotOpen | BettingClosed | InvalidOutcomeIndex | CannotSwitchOutcome
    | SpecAlreadyAttached | NoComboSpec | InvalidCombo(s: SpecError)
    | TooEarlyToLock | NotLocked | AlreadyResolved | ComboRequiresV3 | NotAComboMarket | OutcomeNotVerified
    | Unverifiable(e: SettleError) | TooEarlyToCancel | NotSettled | AlreadyClaimed | NotAWinningPosition
    | NotCancelled | FeesAlreadyWithdrawn | NothingToWithdraw | NoPosition | InsufficientFunds
    | Math(m: MathError)

  // --- instructions -----------------------------------------------------------------------

  /** `is_valid`: an operator is present iff the outcome combines two stats. */
  predicate IsValidSpec(spec: OutcomeSpec) {
    spec.hasStatB == spec.op.Some?
  }

  predicate AllSpecsValid(specs: seq<OutcomeSpec>) {
    forall k :: 0 <= k < |specs| ==> IsValidSpec(specs[k])
  }

  /** Fresh outcomes hold no stake. */
  function ZeroPools(n: nat): seq<u64> {
    seq(n, i => 0)
  }

  /** The arguments of `initialize_market` that bear on the money. */
  datatype Setup = Setup(fixtureId: i64, marketType: u8, specs: seq<OutcomeSpec>, feeBps: u16,
                         lockTime: i64, resolutionTimeout: i64)

  function Initialize(now: i64, p: Setup): Result<State, Error> {
    if p.fixtureId <= 0 then Err(InvalidFixtureId)
    else if p.feeBps > MAX_FEE_BPS then Err(FeeTooHigh)
    else if p.resolutionTimeout <= 0 then Err(InvalidResolutionTimeout)
    else if !(MIN_OUTCOMES <= |p.specs| <= MAX_OUTCOMES) then Err(InvalidOutcomeCount)
    else if p.lockTime <= now then Err(LockTimeInPast)
    else if !AllSpecsValid(p.specs) then Err(InvalidOutcomeSpec)
    else Ok(State(p.fixtureId, p.specs, None, 0, p.marketType, Open, UNSET_OUTCOME, p.feeBps,
                  p.lockTime, p.resolutionTimeout, 0, 0, 0, 0, 0, false, ZeroPools(|p.specs|), map[], 0, []))
  }

  /** `num_outcomes`, one byte. */
  function NumOutcomes(s: State): u8 {
    |s.pools| % 0x100
  }

  /** `initialize_combo_spec`: once, for compound types, while betting is open. */
  function AttachSpec(s: State, spec: ComboSpec): Result<State, Error> {
    if s.combo.Some? then Err(SpecAlreadyAttached)
    else if s.marketType < COMBO_MARKET_TYPE_MIN then Err(NotAComboMarket)
    else if s.status != Open then Err(MarketNotOpen)
    else
      match SpecVerdict(spec, NumOutcomes(s))
      case Err(e) => Err(InvalidCombo(e))
      case Ok(_) => Ok(s.(combo := Some(spec)))
  }

  /** `funds` is the balance of the bettor's token account. */
  function PlaceBet(s: State, now: i64, bettor: Owner, outcomeIndex: u8, amount: u64, funds: u64)
    : Result<State, Error>
  {
    if amount == 0 then Err(ZeroAmount)
    else if s.status != Open then Err(MarketNotOpen)
    else if now >= s.lockTime then Err(BettingClosed)
    else if outcomeIndex >= |s.pools| then Err(InvalidOutcomeIndex)
    else
      var isNew := bettor !in s.positions;
      if !isNew && s.positions[bettor].outcomeIndex != outcomeIndex then Err(CannotSwitchOutcome)
      else if funds < amount then Err(InsufficientFunds)
      else
        var held := if isNew then 0 else s.positions[bettor].amount;
        if held + amount > U64_MAX || s.pools[outcomeIndex] + amount > U64_MAX || s.totalPool + amount > U64_MAX
        then Err(Math(MathOverflow))
        else
          var position := if isNew then Position(outcomeIndex, amount, false)
                          else s.positions[bettor].(amount := held + amount);
          Ok(s.(positions := s.positions[bettor := position],
                   pools := s.pools[outcomeIndex := s.pools[outcomeIndex] + amount],
                   totalPool := s.totalPool + amount, vault := s.vault + amount))
  }

  function Lock(s: State, now: i64): Result<State, Error> {
    if s.status != Open then Err(MarketNotOpen)
    else if now < s.lockTime then Err(TooEarlyToLock)
    else Ok(s.(status := Locked))
  }

  /**
   * `settle_market` and `settle_market_v3`, given what the oracle adapter answered; the
   * latter names the market's own combo spec account.
   */
  function Settle(s: State, v3: bool, claimed: u8, verdict: Result<bool, SettleError>): Result<State, Error> {
    if v3 && s.combo.None? then Err(NoComboSpec)
    else match s.status
    case Settled => Err(AlreadyResolved)
    case Cancelled => Err(AlreadyResolved)
    case Open => Err(NotLocked)
    case Locked =>
      if claimed >= |s.pools| then Err(InvalidOutcomeIndex)
      else if !v3 && s.marketType >= COMBO_MARKET_TYPE_MIN then Err(ComboRequiresV3)
      else if v3 && s.marketType < COMBO_MARKET_TYPE_MIN then Err(NotAComboMarket)
      else
        match verdict
        case Err(e) => Err(Unverifiable(e))
        case Ok(false) => Err(OutcomeNotVerified)
        case Ok(true) => RecordSettlement(s, claimed)
  }

  /** `record_settlement`: a proven outcome nobody staked makes the market refundable. */
  function RecordSettlement(s: State, claimed: u8): Result<State, Error>
    requires claimed < |s.pools|
  {
    var winningPool := s.pools[claimed];
    if winningPool == 0 then
      Ok(s.(winningOutcome := claimed, status := Cancelled, totalWinningPool := 0, feeAmount := 0))
    else
      match FeeAmount(s.totalPool, s.feeBps)
      case Err(e) => Err(Math(e))
      case Ok(fee) =>
        Ok(s.(winningOutcome := claimed, status := Settled, totalWinningPool := winningPool, feeAmount := fee))
  }

  function Cancel(s: State, now: i64): Result<State, Error> {
    match s.status
    case Open => Err(NotLocked)
    case Settled => Err(AlreadyResolved)
    case Cancelled => Err(AlreadyResolved)
    case Locked =>
      var deadline := s.lockTime + s.resolutionTimeout;
      if !(I64_MIN <= deadline <= I64_MAX) then Err(Math(MathOverflow))
      else if now <= deadline then Err(TooEarlyToCancel)
      else Ok(s.(status := Cancelled))
  }

  /** The payout of one winning claim: the floor, or for the last claimer all that is left. */
  function ClaimAmount(s: State, stake: u64): Result<u64, Error> {
    var newClaimed: int := s.winningStakeClaimed + stake;
    if newClaimed > U64_MAX then Err(Math(MathOverflow))
    else
      match DistributablePool(s.totalPool, s.feeBps)
      case Err(e) => Err(Math(e))
      case Ok(pot) =>
        if newClaimed == s.totalWinningPool then
          if s.paidOut > pot then Err(Math(MathUnderflow)) else Ok(pot - s.paidOut)
        else
          match Payout(stake, s.totalPool, s.totalWinningPool, s.feeBps)
          case Err(e) => Err(Math(e))
          case Ok(p) => Ok(p)
  }

  function ClaimWinnings(s: State, owner: Owner): Result<State, Error> {
    if owner !in s.positions then Err(NoPosition)
    else if s.status != Settled then Err(NotSettled)
    else if s.positions[owner].claimed then Err(AlreadyClaimed)
    else if s.positions[owner].outcomeIndex != s.winningOutcome then Err(NotAWinningPosition)
    else if s.totalWinningPool == 0 then Err(Math(ZeroWinningPool))
    else
      match ClaimAmount(s, s.positions[owner].amount)
      case Err(e) => Err(e)
      case Ok(payout) =>
        if s.vault < payout then Err(InsufficientFunds)
        else if s.paidOut + payout > U64_MAX then Err(Math(MathOverflow))
        else
          assert s.winningStakeClaimed + s.positions[owner].amount <= U64_MAX;
          Ok(s.(paidOut := s.paidOut + payout,
                   winningStakeClaimed := s.winningStakeClaimed + s.positions[owner].amount,
                   positions := s.positions[owner := s.positions[owner].(claimed := true)],
                   vault := s.vault - payout, payments := s.payments + [Payment(Bettor(owner), payout)]))
  }

  function ClaimRefund(s: State, owner: Owner): Result<State, Error> {
    if owner !in s.positions then Err(NoPosition)
    else if s.status != Cancelled then Err(NotCancelled)
    else if s.positions[owner].claimed then Err(AlreadyClaimed)
    else
      var amount := s.positions[owner].amount;
      if s.vault < amount then Err(InsufficientFunds)
      else Ok(s.(positions := s.positions[owner := s.positions[owner].(claimed := true)],
                 vault := s.vault - amount, payments := s.payments + [Payment(Bettor(owner), amount)]))
  }

  function WithdrawFees(s: State): Result<State, Error> {
    if s.status != Settled then Err(NotSettled)
    else if s.feeWithdrawn then Err(FeesAlreadyWithdrawn)
    else if s.feeAmount == 0 then Err(NothingToWithdraw)
    else if s.vault < s.feeAmount then Err(InsufficientFunds)
    else Ok(s.(feeWithdrawn := true, vault := s.vault - s.feeAmount,
               payments := s.payments + [Payment(Treasury, s.feeAmount)]))
  }

  // --- runs ---------------------------------------------------------------------------------

  /** `DoTransfer`: anybody may send tokens to the vault. */
  datatype Instruction =
    | DoAttachSpec(spec: ComboSpec)
    | DoTransfer(tokens: nat)
    | DoPlaceBet(now: i64, bettor: Owner, outcomeIndex: u8, amount: u64, funds: u64)
    | DoLock(now: i64)
    | DoSettle(v3: bool, claimed: u8, verdict: Result<bool, SettleError>)
    | DoCancel(now: i64)
    | DoClaimWinnings(owner: Owner)
    | DoClaimRefund(owner: Owner)
    | DoWithdrawFees

  function Transfer(s: State, tokens: nat): State {
    s.(vault := s.vault + tokens, donated := s.donated + tokens)
  }

  function Execute(s: State, i: Instruction): Result<State, Error> {
    match i
    case DoAttachSpec(spec) => AttachSpec(s, spec)
    case DoTransfer(tokens) => Ok(Transfer(s, tokens))
    case DoPlaceBet(now, bettor, outcome, amount, funds) => PlaceBet(s, now, bettor, outcome, amount, funds)
    case DoLock(now) => Lock(s, now)
    case DoSettle(v3, claimed, verdict) => Settle(s, v3, claimed, verdict)
    case DoCancel(now) => Cancel(s, now)
    case DoClaimWinnings(owner) => ClaimWinnings(s, owner)
    case DoClaimRefund(owner) => ClaimRefund(s, owner)
    case DoWithdrawFees => WithdrawFees(s)
  }

  /** A failed instruction leaves the state as it was. */
  function After(s: State, i: Instruction): State {
    match Execute(s, i)
    case Ok(s') => s'
    case Err(_) => s
  }

  function Run(s: State, instructions: seq<Instruction>): State
    decreases |instructions|
  {
    if instructions == [] then s else Run(After(s, instructions[0]), instructions[1..])
  }
}
