/**
 * What each instruction answers, in terms of the fields it meets: when it succeeds, what
 * its errors mean, and how settlement and time leave the money.
 */
module EscrowAnswers {
  import opened Wrappers
  import opened Numbers
  import opened PayoutMath
  import opened Coverage
  import opened Settlement
  import opened Escrow
  import opened EscrowInvariant
  import opened EscrowTheorems

  /** A market may be created. */
  ghost predicate Creatable(now: i64, p: Setup) {
    && p.fixtureId > 0 && p.feeBps <= 1_000 && p.resolutionTimeout > 0 && 2 <= |p.specs| <= 12 && now < p.lockTime
    && forall k :: 0 <= k < |p.specs| ==> (p.specs[k].hasStatB <==> p.specs[k].op.Some?)
  }

  lemma InitializeIff(now: i64, p: Setup)
    ensures Initialize(now, p).Ok? <==> Creatable(now, p)
    ensures Initialize(now, p).Ok? ==>
              var s := Initialize(now, p).value;
              && s.status == Open && s.positions == map[] && s.payments == []
              && s.totalPool == s.vault == s.donated == 0
              && s.combo == None && !s.feeWithdrawn && s.winningOutcome == 255
              && s.pools == seq(|p.specs|, k => 0) && s.specs == p.specs && s.fixtureId == p.fixtureId
              && s.marketType == p.marketType && s.feeBps == p.feeBps
              && s.lockTime == p.lockTime && s.resolutionTimeout == p.resolutionTimeout
  {
  }

  /** A bet the market takes: open, before lock time, on one outcome only, covered, and within 64 bits. */
  ghost predicate BetAllowed(s: State, now: i64, bettor: Owner, outcomeIndex: u8, amount: u64, funds: u64) {
    && s.status == Open && now < s.lockTime && 0 < amount <= funds && outcomeIndex < |s.pools|
    && (bettor in s.positions ==> s.positions[bettor].outcomeIndex == outcomeIndex)
    && s.totalPool + amount <= 0xFFFF_FFFF_FFFF_FFFF
  }

  /** A settlement the market takes: locked, through its type's path, and proven. */
  ghost predicate SettlementAllowed(s: State, v3: bool, claimed: u8, verdict: Result<bool, SettleError>) {
    && s.status == Locked && claimed < |s.pools| && (v3 <==> s.marketType >= 16) && (v3 ==> s.combo.Some?)
    && verdict == Ok(true)
  }

  /** When an instruction succeeds. */
  ghost predicate Allowed(s: State, i: Instruction) {
    match i
    case DoAttachSpec(spec) =>
      s.status == Open && s.marketType >= 16 && s.combo.None? && WellFormed(spec, NumOutcomes(s))
    case DoTransfer(_) => true
    case DoPlaceBet(now, bettor, outcomeIndex, amount, funds) => BetAllowed(s, now, bettor, outcomeIndex, amount, funds)
    case DoLock(now) => s.status == Open && s.lockTime <= now
    case DoSettle(v3, claimed, verdict) => SettlementAllowed(s, v3, claimed, verdict)
    case DoCancel(now) =>
      s.status == Locked && -0x8000_0000_0000_0000 <= s.lockTime + s.resolutionTimeout < now
    case DoClaimWinnings(owner) => OpenClaim(s, owner)
    case DoClaimRefund(owner) => s.status == Cancelled && owner in s.positions && !s.positions[owner].claimed
    case DoWithdrawFees => s.status == Settled && s.feeAmount > 0 && !s.feeWithdrawn
  }

  /** No stake exceeds its pool, no pool the total. */
  lemma StakesWithinPools(s: State, k: nat)
    requires Inv(s) && k < |s.pools|
    ensures s.pools[k] <= s.totalPool
    ensures forall o :: o in s.positions && s.positions[o].outcomeIndex == k ==> s.positions[o].amount <= s.pools[k]
  {
    TotalMonotone(s.positions, On(k), Stakes);
    forall o | o in s.positions && s.positions[o].outcomeIndex == k ensures s.positions[o].amount <= s.pools[k] {
      TotalRemove(s.positions, o, On(k));
    }
  }

  lemma BetIff(s: State, now: i64, bettor: Owner, outcomeIndex: u8, amount: u64, funds: u64)
    requires Inv(s)
    ensures PlaceBet(s, now, bettor, outcomeIndex, amount, funds).Ok?
            <==> BetAllowed(s, now, bettor, outcomeIndex, amount, funds)
  {
    if outcomeIndex < |s.pools| {
      StakesWithinPools(s, outcomeIndex);
    }
    hide Inv;
  }

  /** What settlement leaves: settled with the winning pool and the fee, or refundable. */
  ghost predicate SettledAs(s: State, s': State, claimed: u8)
    requires claimed < |s.pools|
  {
    && s'.winningOutcome == claimed && s'.totalWinningPool == s.pools[claimed]
    && (if s.pools[claimed] > 0 then s'.status == Settled && s'.feeAmount == s.totalPool * s.feeBps / 10_000
        else s'.status == Cancelled && s'.feeAmount == 0)
  }

  lemma SettleIff(s: State, v3: bool, claimed: u8, verdict: Result<bool, SettleError>)
    requires Inv(s)
    ensures Settle(s, v3, claimed, verdict).Ok? <==> SettlementAllowed(s, v3, claimed, verdict)
    ensures Settle(s, v3, claimed, verdict).Ok? ==> SettledAs(s, Settle(s, v3, claimed, verdict).value, claimed)
  {
    if claimed < |s.pools| && s.pools[claimed] > 0 {
      FeeFits(s);
    }
    hide Inv;
  }

  lemma FeeFits(s: State)
    requires Inv(s)
    ensures FeeAmount(s.totalPool, s.feeBps) == Ok(s.totalPool * s.feeBps / 10_000)
  {
    NothingOverflows(0, s.totalPool, 1, s.feeBps);
  }

  /** On a reachable market every instruction succeeds exactly when it is allowed. */
  lemma SucceedsIffAllowed(s: State, i: Instruction)
    requires Inv(s)
    ensures Execute(s, i).Ok? <==> Allowed(s, i)
  {
    hide Inv, OpenClaim, WellFormed, SpecVerdict;
    match i
    case DoAttachSpec(spec) => ValidIffWellFormed(spec, NumOutcomes(s));
    case DoPlaceBet(now, bettor, outcomeIndex, amount, funds) => BetIff(s, now, bettor, outcomeIndex, amount, funds);
    case DoSettle(v3, claimed, verdict) => SettleIff(s, v3, claimed, verdict);
    case DoClaimWinnings(owner) => ClaimIff(s, owner);
    case DoClaimRefund(owner) =>
      if Allowed(s, i) {
        RefundNeverStuck(s, owner);
      }
    case DoWithdrawFees =>
      if s.status == Settled {
        FeeNeverStuck(s);
      }
    case _ =>
  }

  lemma ClaimIff(s: State, owner: Owner)
    requires Inv(s)
    ensures ClaimWinnings(s, owner).Ok? <==> OpenClaim(s, owner)
  {
    hide Inv, ClaimAmount;
    if OpenClaim(s, owner) {
      ClaimNeverStuck(s, owner);
    }
  }

  // --- what errors mean -----------------------------------------------------------------------

  ghost predicate AttachExplained(s: State, spec: ComboSpec, e: Error) {
    match e
    case SpecAlreadyAttached => s.combo.Some?
    case NotAComboMarket => s.marketType < 16
    case MarketNotOpen => s.status != Open
    case InvalidCombo(_) => !WellFormed(spec, NumOutcomes(s))
    case _ => false
  }

  ghost predicate BetExplained(s: State, now: i64, bettor: Owner, outcomeIndex: u8, amount: u64, funds: u64, e: Error) {
    match e
    case ZeroAmount => amount == 0
    case MarketNotOpen => s.status != Open
    case BettingClosed => s.status == Open && now >= s.lockTime
    case InvalidOutcomeIndex => outcomeIndex >= |s.pools|
    case CannotSwitchOutcome => bettor in s.positions && s.positions[bettor].outcomeIndex != outcomeIndex
    case InsufficientFunds => funds < amount
    case Math(m) => m == MathOverflow && s.totalPool + amount > 0xFFFF_FFFF_FFFF_FFFF
    case _ => false
  }

  ghost predicate LockExplained(s: State, now: i64, e: Error) {
    match e
    case MarketNotOpen => s.status != Open
    case TooEarlyToLock => now < s.lockTime
    case _ => false
  }

  ghost predicate SettleExplained(s: State, v3: bool, claimed: u8, verdict: Result<bool, SettleError>, e: Error) {
    match e
    case NoComboSpec => v3 && s.combo.None?
    case AlreadyResolved => Terminal(s.status)
    case NotLocked => s.status == Open
    case InvalidOutcomeIndex => claimed >= |s.pools|
    case ComboRequiresV3 => !v3 && s.marketType >= 16
    case NotAComboMarket => v3 && s.marketType < 16
    case Unverifiable(x) => verdict == Err(x)
    case OutcomeNotVerified => verdict == Ok(false)
    case _ => false
  }

  ghost predicate CancelExplained(s: State, now: i64, e: Error) {
    match e
    case NotLocked => s.status == Open
    case AlreadyResolved => Terminal(s.status)
    case TooEarlyToCancel => now <= s.lockTime + s.resolutionTimeout
    case Math(m) =>
      m == MathOverflow && !(-0x8000_0000_0000_0000 <= s.lockTime + s.resolutionTimeout < 0x8000_0000_0000_0000)
    case _ => false
  }

  ghost predicate ClaimExplained(s: State, owner: Owner, e: Error) {
    match e
    case NoPosition => owner !in s.positions
    case NotSettled => s.status != Settled
    case AlreadyClaimed => owner in s.positions && s.positions[owner].claimed
    case NotAWinningPosition => owner in s.positions && s.positions[owner].outcomeIndex != s.winningOutcome
    case _ => false
  }

  ghost predicate RefundExplained(s: State, owner: Owner, e: Error) {
    match e
    case NoPosition => owner !in s.positions
    case NotCancelled => s.status != Cancelled
    case AlreadyClaimed => owner in s.positions && s.positions[owner].claimed
    case _ => false
  }

  ghost predicate FeesExplained(s: State, e: Error) {
    match e
    case NotSettled => s.status != Settled
    case FeesAlreadyWithdrawn => s.feeWithdrawn
    case NothingToWithdraw => s.feeAmount == 0
    case _ => false
  }

  /** What the caller of an instruction may conclude from its error. */
  ghost predicate Explains(s: State, i: Instruction, e: Error) {
    match i
    case DoAttachSpec(spec) => AttachExplained(s, spec, e)
    case DoTransfer(_) => false
    case DoPlaceBet(now, bettor, outcomeIndex, amount, funds) =>
      BetExplained(s, now, bettor, outcomeIndex, amount, funds, e)
    case DoLock(now) => LockExplained(s, now, e)
    case DoSettle(v3, claimed, verdict) => SettleExplained(s, v3, claimed, verdict, e)
    case DoCancel(now) => CancelExplained(s, now, e)
    case DoClaimWinnings(owner) => ClaimExplained(s, owner, e)
    case DoClaimRefund(owner) => RefundExplained(s, owner, e)
    case DoWithdrawFees => FeesExplained(s, e)
  }

  lemma AttachRefusal(s: State, spec: ComboSpec)
    ensures AttachSpec(s, spec).Err? ==> AttachExplained(s, spec, AttachSpec(s, spec).error)
  {
    ValidIffWellFormed(spec, NumOutcomes(s));
    hide WellFormed, SpecVerdict;
  }

  lemma BetRefusal(s: State, now: i64, bettor: Owner, outcomeIndex: u8, amount: u64, funds: u64)
    requires Inv(s) && PlaceBet(s, now, bettor, outcomeIndex, amount, funds).Err?
    ensures BetExplained(s, now, bettor, outcomeIndex, amount, funds,
                         PlaceBet(s, now, bettor, outcomeIndex, amount, funds).error)
  {
    if outcomeIndex < |s.pools| {
      StakesWithinPools(s, outcomeIndex);
    }
    hide Inv;
  }

  lemma SettleRefusal(s: State, v3: bool, claimed: u8, verdict: Result<bool, SettleError>)
    requires Inv(s) && Settle(s, v3, claimed, verdict).Err?
    ensures SettleExplained(s, v3, claimed, verdict, Settle(s, v3, claimed, verdict).error)
  {
    FeeFits(s);
    hide Inv, FeeAmount;
  }

  lemma CancelRefusal(s: State, now: i64)
    ensures Cancel(s, now).Err? ==> CancelExplained(s, now, Cancel(s, now).error)
  {
  }

  lemma ClaimRefusal(s: State, owner: Owner)
    requires Inv(s) && ClaimWinnings(s, owner).Err?
    ensures ClaimExplained(s, owner, ClaimWinnings(s, owner).error)
  {
    ClaimIff(s, owner);
    hide Inv, ClaimAmount;
  }

  lemma RefundRefusal(s: State, owner: Owner)
    requires Inv(s) && ClaimRefund(s, owner).Err?
    ensures RefundExplained(s, owner, ClaimRefund(s, owner).error)
  {
    if s.status == Cancelled && owner in s.positions && !s.positions[owner].claimed {
      RefundNeverStuck(s, owner);
    }
    hide Inv;
  }

  lemma FeesRefusal(s: State)
    requires Inv(s) && WithdrawFees(s).Err?
    ensures FeesExplained(s, WithdrawFees(s).error)
  {
    if s.status == Settled {
      FeeNeverStuck(s);
    }
    hide Inv;
  }

  /** Every error tells the truth; nothing fails for want of tokens or width but totals and deadlines. */
  lemma ErrorsTellTheTruth(s: State, i: Instruction)
    requires Inv(s) && Execute(s, i).Err?
    ensures Explains(s, i, Execute(s, i).error)
  {
    hide Inv, AttachSpec, PlaceBet, Settle, Cancel, ClaimWinnings, ClaimRefund, WithdrawFees;
    hide AttachExplained, BetExplained, SettleExplained, CancelExplained, ClaimExplained;
    hide RefundExplained, FeesExplained;
    match i
    case DoAttachSpec(spec) => AttachRefusal(s, spec);
    case DoPlaceBet(now, bettor, outcome, amount, funds) => BetRefusal(s, now, bettor, outcome, amount, funds);
    case DoSettle(v3, claimed, verdict) => SettleRefusal(s, v3, claimed, verdict);
    case DoCancel(now) => CancelRefusal(s, now);
    case DoClaimWinnings(owner) => ClaimRefusal(s, owner);
    case DoClaimRefund(owner) => RefundRefusal(s, owner);
    case DoWithdrawFees => FeesRefusal(s);
    case _ =>
  }

  // --- in what order ------------------------------------------------------------------------------

  /** The checks of `initialize_market`, as the handler makes them. */
  ghost function CreationChecks(now: i64, p: Setup): seq<Check<Error>> {
    [Check(p.fixtureId <= 0, InvalidFixtureId), Check(p.feeBps > 1_000, FeeTooHigh),
     Check(p.resolutionTimeout <= 0, InvalidResolutionTimeout),
     Check(|p.specs| < 2 || |p.specs| > 12, InvalidOutcomeCount), Check(p.lockTime <= now, LockTimeInPast),
     Check(exists k :: 0 <= k < |p.specs| && p.specs[k].hasStatB != p.specs[k].op.Some?, InvalidOutcomeSpec)]
  }

  /** The checks of an instruction on the market, before the oracle is asked or a spec is read. */
  ghost function Checks(s: State, i: Instruction): seq<Check<Error>> {
    match i
    case DoAttachSpec(_) =>
      [Check(s.combo.Some?, SpecAlreadyAttached), Check(s.marketType < 16, NotAComboMarket),
       Check(s.status != Open, MarketNotOpen)]
    case DoTransfer(_) => []
    case DoPlaceBet(now, bettor, outcomeIndex, amount, funds) =>
      [Check(amount == 0, ZeroAmount), Check(s.status != Open, MarketNotOpen),
       Check(now >= s.lockTime, BettingClosed), Check(outcomeIndex >= |s.pools|, InvalidOutcomeIndex),
       Check(bettor in s.positions && s.positions[bettor].outcomeIndex != outcomeIndex, CannotSwitchOutcome),
       Check(funds < amount, InsufficientFunds),
       Check(s.totalPool + amount > 0xFFFF_FFFF_FFFF_FFFF, Math(MathOverflow))]
    case DoLock(now) => [Check(s.status != Open, MarketNotOpen), Check(now < s.lockTime, TooEarlyToLock)]
    case DoSettle(v3, claimed, _) =>
      [Check(v3 && s.combo.None?, NoComboSpec), Check(Terminal(s.status), AlreadyResolved),
       Check(s.status == Open, NotLocked), Check(claimed >= |s.pools|, InvalidOutcomeIndex),
       Check(!v3 && s.marketType >= 16, ComboRequiresV3), Check(v3 && s.marketType < 16, NotAComboMarket)]
    case DoCancel(now) =>
      var deadline: int := s.lockTime + s.resolutionTimeout;
      [Check(s.status == Open, NotLocked), Check(Terminal(s.status), AlreadyResolved),
       Check(deadline < -0x8000_0000_0000_0000 || deadline >= 0x8000_0000_0000_0000, Math(MathOverflow)),
       Check(now <= deadline, TooEarlyToCancel)]
    case DoClaimWinnings(owner) =>
      [Check(owner !in s.positions, NoPosition), Check(s.status != Settled, NotSettled),
       Check(owner in s.positions && s.positions[owner].claimed, AlreadyClaimed),
       Check(owner in s.positions && s.positions[owner].outcomeIndex != s.winningOutcome, NotAWinningPosition)]
    case DoClaimRefund(owner) =>
      [Check(owner !in s.positions, NoPosition), Check(s.status != Cancelled, NotCancelled),
       Check(owner in s.positions && s.positions[owner].claimed, AlreadyClaimed)]
    case DoWithdrawFees =>
      [Check(s.status != Settled, NotSettled), Check(s.feeWithdrawn, FeesAlreadyWithdrawn),
       Check(s.feeAmount == 0, NothingToWithdraw)]
  }

  /** The answer is that of the first failing check; without one it is success or about the spec or the proof. */
  ghost predicate InOrder(s: State, i: Instruction) {
    match FirstFailure(Checks(s, i))
    case Some(e) => Execute(s, i) == Err(e)
    case None =>
      match Execute(s, i)
      case Ok(_) => true
      case Err(e) =>
        (i.DoAttachSpec? && e.InvalidCombo?) || (i.DoSettle? && (e.Unverifiable? || e == OutcomeNotVerified))
  }

  lemma BetInOrder(s: State, i: Instruction)
    requires Inv(s) && i.DoPlaceBet?
    ensures InOrder(s, i)
  {
    if i.outcomeIndex < |s.pools| {
      StakesFit(s, i.outcomeIndex);
    }
    hide Inv, FirstFailure;
    FirstOfSeven(Checks(s, i));
  }

  lemma SettleInOrder(s: State, i: Instruction)
    requires Inv(s) && i.DoSettle?
    ensures InOrder(s, i)
  {
    FeeFits(s);
    hide Inv, FirstFailure, FeeAmount;
    FirstOfSeven(Checks(s, i));
  }

  lemma PayInOrder(s: State, i: Instruction)
    requires Inv(s) && (i.DoClaimWinnings? || i.DoClaimRefund? || i.DoWithdrawFees?)
    ensures InOrder(s, i)
  {
    SucceedsIffAllowed(s, i);
    hide Inv, FirstFailure, ClaimAmount;
    FirstOfSeven(Checks(s, i));
  }

  lemma TimedInOrder(s: State, i: Instruction)
    requires i.DoLock? || i.DoCancel? || i.DoAttachSpec?
    ensures InOrder(s, i)
  {
    hide FirstFailure, SpecVerdict;
    FirstOfSeven(Checks(s, i));
  }

  lemma TransferInOrder(s: State, i: Instruction)
    requires i.DoTransfer?
    ensures InOrder(s, i)
  {
  }

  /** Where several checks fail, the answer is that of the first. */
  lemma FirstErrorWins(s: State, i: Instruction)
    requires Inv(s)
    ensures InOrder(s, i)
  {
    hide Inv, InOrder;
    match i
    case DoTransfer(_) => TransferInOrder(s, i);
    case DoPlaceBet(_, _, _, _, _) => BetInOrder(s, i);
    case DoSettle(_, _, _) => SettleInOrder(s, i);
    case DoLock(_) => TimedInOrder(s, i);
    case DoCancel(_) => TimedInOrder(s, i);
    case DoAttachSpec(_) => TimedInOrder(s, i);
    case _ => PayInOrder(s, i);
  }

  lemma StakesFit(s: State, k: nat)
    requires Inv(s) && k < |s.pools|
    ensures s.pools[k] <= s.totalPool
    ensures forall o :: o in s.positions && s.positions[o].outcomeIndex == k ==> s.positions[o].amount <= s.totalPool
  {
    StakesWithinPools(s, k);
  }

  lemma FirstCreationErrorWins(now: i64, p: Setup)
    ensures FirstFailure(CreationChecks(now, p)) == match Initialize(now, p) case Err(e) => Some(e) case Ok(_) => None
  {
    hide FirstFailure;
    FirstOfSeven(CreationChecks(now, p));
  }

  // --- time ------------------------------------------------------------------------------------

  /** A bet at or after lock time changes nothing at all, whether or not anybody has locked the market. */
  lemma LateBetIsRefused(s: State, i: Instruction)
    requires i.DoPlaceBet? && i.now >= s.lockTime
    ensures After(s, i) == s
  {
  }

  /** The bets in a run all come at or after lock time. */
  ghost predicate OnlyLateBets(s: State, run: seq<Instruction>) {
    forall k :: 0 <= k < |run| && run[k].DoPlaceBet? ==> run[k].now >= s.lockTime
  }

  /** From lock time on no run changes a stake or a pool. */
  lemma {:induction false} StakesCloseAtLockTime(s: State, run: seq<Instruction>)
    requires OnlyLateBets(s, run)
    ensures SameStakes(s, Run(s, run)) && Run(s, run).pools == s.pools && Run(s, run).totalPool == s.totalPool
    decreases |run|
  {
    if run != [] {
      StepKeepsStakes(s, run[0]);
      StepRules(s, run[0]);
      hide After;
      assert forall k :: 0 <= k < |run[1..]| ==> run[1..][k] == run[k + 1];
      StakesCloseAtLockTime(After(s, run[0]), run[1..]);
    }
  }

  lemma StepKeepsStakes(s: State, i: Instruction)
    requires i.DoPlaceBet? ==> i.now >= s.lockTime
    ensures SameStakes(s, After(s, i)) && After(s, i).pools == s.pools && After(s, i).totalPool == s.totalPool
  {
    hide SpecVerdict;
  }
}
