/**
 * Safety and liveness of the escrow over whole runs, read off the invariant.
 */
module EscrowTheorems {
  import opened Wrappers
  import opened Numbers
  import opened PayoutMath
  import Strategy
  import opened Coverage
  import opened Settlement
  import opened Escrow
  import opened EscrowInvariant

  // --- conservation --------------------------------------------------------------------------

  /** A state some run of instructions reaches from a freshly initialized market. */
  ghost predicate Reachable(s: State) {
    exists now, setup, run :: Initialize(now, setup).Ok? && s == Run(Initialize(now, setup).value, run)
  }

  /** Every reachable state has balanced books and accounts for every token staked. */
  lemma ReachableInv(s: State)
    requires Reachable(s)
    ensures Inv(s)
  {
    hide Initialize, Run, Inv;
    var now, setup, run :| Initialize(now, setup).Ok? && s == Run(Initialize(now, setup).value, run);
    InitializeInv(now, setup);
    RunInv(Initialize(now, setup).value, run);
  }

  lemma {:induction false} RunSnoc(s: State, run: seq<Instruction>, i: Instruction)
    ensures Run(s, run + [i]) == After(Run(s, run), i)
    decreases |run|
  {
    hide After;
    if run == [] {
      assert [i][1..] == [];
    } else {
      assert (run + [i])[1..] == run[1..] + [i];
      RunSnoc(After(s, run[0]), run[1..], i);
    }
  }

  lemma FreshIsReachable(now: i64, setup: Setup)
    requires Initialize(now, setup).Ok?
    ensures Reachable(Initialize(now, setup).value)
  {
    assert Run(Initialize(now, setup).value, []) == Initialize(now, setup).value;
  }

  lemma StaysReachable(s: State, i: Instruction)
    requires Reachable(s)
    ensures Reachable(After(s, i))
  {
    hide Initialize, Run, After;
    var now, setup, run :| Initialize(now, setup).Ok? && s == Run(Initialize(now, setup).value, run);
    RunSnoc(Initialize(now, setup).value, run, i);
    assert After(s, i) == Run(Initialize(now, setup).value, run + [i]);
  }

  /** Settled, everyone entitled has been paid. */
  ghost predicate FullyClaimed(s: State) {
    && s.status == Settled
    && (forall o :: o in s.positions && s.positions[o].outcomeIndex == s.winningOutcome ==> s.positions[o].claimed)
    && (s.feeWithdrawn || s.feeAmount == 0)
  }

  ghost predicate FullyRefunded(s: State) {
    s.status == Cancelled && forall o :: o in s.positions ==> s.positions[o].claimed
  }

  lemma AllClaimedStake(ps: map<Owner, Position>, k: nat)
    requires forall o :: o in ps && ps[o].outcomeIndex == k ==> ps[o].claimed
    ensures Total(ps, ClaimedOn(k)) == Total(ps, On(k))
  {
    TotalMonotone(ps, ClaimedOn(k), On(k));
    TotalMonotone(ps, On(k), ClaimedOn(k));
  }

  /** Once everyone entitled is paid, exactly what outsiders sent is left, and nothing of the stakes. */
  lemma VaultEndsEmpty(s: State)
    requires Inv(s) && (FullyClaimed(s) || FullyRefunded(s))
    ensures s.vault == s.donated && PaidSum(s.payments) == s.totalPool
  {
    if s.status == Settled {
      AllClaimedStake(s.positions, s.winningOutcome);
    } else {
      TotalMonotone(s.positions, ClaimedStakes, Stakes);
      TotalMonotone(s.positions, Stakes, ClaimedStakes);
    }
  }

  // --- who gets what ---------------------------------------------------------------------------

  /**
   * On a settled market a claimed winner got at least the floored share and at most
   * the number of winners above it; a loser got nothing.
   */
  lemma WinnersGetTheirShare(s: State, o: Owner)
    requires Inv(s) && s.status == Settled && o in s.positions
    ensures s.positions[o].outcomeIndex != s.winningOutcome ==> !HasReceived(s, Bettor(o))
    ensures s.positions[o].claimed ==>
              exists i :: 0 <= i < |s.payments| && s.payments[i].to == Bettor(o)
                          && Share(s.positions[o].amount, Pot(s), s.totalWinningPool) <= s.payments[i].amount
                          && s.payments[i].amount < Share(s.positions[o].amount, Pot(s), s.totalWinningPool)
                                                    + Total(s.positions, CountOn(s.winningOutcome))
  {
    if HasReceived(s, Bettor(o)) {
      var i :| 0 <= i < |s.payments| && s.payments[i].to == Bettor(o);
      assert FairPayment(s, s.payments[i]);
    }
  }

  /** On a cancelled market a refunded bettor got exactly the stake. */
  lemma RefundsAreExact(s: State, o: Owner)
    requires Inv(s) && s.status == Cancelled && o in s.positions && s.positions[o].claimed
    ensures exists i :: 0 <= i < |s.payments| && s.payments[i] == Payment(Bettor(o), s.positions[o].amount)
  {
    assert HasReceived(s, Bettor(o));
    var i :| 0 <= i < |s.payments| && s.payments[i].to == Bettor(o);
    assert ExactRefund(s, s.payments[i]);
  }

  // --- nobody is stuck ----------------------------------------------------------------------------

  lemma RefundNeverStuck(s: State, o: Owner)
    requires Inv(s) && s.status == Cancelled && o in s.positions && !s.positions[o].claimed
    ensures ClaimRefund(s, o).Ok?
  {
    TotalRemove(s.positions, o, Stakes);
    TotalRemove(s.positions, o, ClaimedStakes);
    TotalMonotone(s.positions - {o}, ClaimedStakes, Stakes);
  }

  lemma FeeNeverStuck(s: State)
    requires Inv(s) && s.status == Settled
    ensures WithdrawFees(s).Ok? <==> s.feeAmount > 0 && !s.feeWithdrawn
  {
    if !s.feeWithdrawn {
      FeeCovered(s);
    }
  }

  // --- the life cycle -----------------------------------------------------------------------------

  predicate Terminal(st: Status) {
    st == Settled || st == Cancelled
  }

  /** The legal transitions of a market's status. */
  predicate Transition(from: Status, to: Status) {
    || from == to
    || (from == Open && to == Locked)
    || (from == Locked && Terminal(to))
  }

  lemma StepTransition(s: State, i: Instruction)
    ensures Transition(s.status, After(s, i).status)
    ensures s.status != Open ==> After(s, i).pools == s.pools && After(s, i).totalPool == s.totalPool
    ensures Terminal(s.status) ==> After(s, i).winningOutcome == s.winningOutcome
  {
  }

  /** A terminal market keeps its status, its outcome and its pools through any run. */
  lemma {:induction false} TerminalIsFinal(s: State, run: seq<Instruction>)
    requires Terminal(s.status)
    ensures Run(s, run).status == s.status
    ensures Run(s, run).winningOutcome == s.winningOutcome
    ensures Run(s, run).pools == s.pools && Run(s, run).totalPool == s.totalPool
    decreases |run|
  {
    if run != [] {
      StepTransition(s, run[0]);
      TerminalIsFinal(After(s, run[0]), run[1..]);
    }
  }

  /** The rules of a market: what it is about and how it resolves. */
  ghost predicate SameRules(a: State, b: State) {
    && b.fixtureId == a.fixtureId && b.specs == a.specs && b.marketType == a.marketType && b.feeBps == a.feeBps
    && b.lockTime == a.lockTime && b.resolutionTimeout == a.resolutionTimeout
    && (a.combo.Some? || a.status != Open ==> b.combo == a.combo)
    && (a.status != Open ==> b.status != Open)
  }

  lemma StepRules(s: State, i: Instruction)
    ensures SameRules(s, After(s, i))
  {
    hide SpecVerdict;
  }

  /** No instruction changes a rule; a combo spec is attached at most once, and only while betting is open. */
  lemma {:induction false} RulesNeverChange(s: State, run: seq<Instruction>)
    ensures SameRules(s, Run(s, run))
    decreases |run|
  {
    if run != [] {
      StepRules(s, run[0]);
      RulesNeverChange(After(s, run[0]), run[1..]);
    }
  }

  /** An attached spec is well-formed for the market it is attached to. */
  ghost predicate SpecFits(s: State) {
    s.combo.Some? ==> s.marketType >= COMBO_MARKET_TYPE_MIN && WellFormed(s.combo.value, NumOutcomes(s))
  }

  lemma {:induction false} AttachedSpecFits(s: State, run: seq<Instruction>)
    requires SpecFits(s)
    ensures SpecFits(Run(s, run)) && |Run(s, run).pools| == |s.pools|
    decreases |run|
  {
    if run != [] {
      StepSpecFits(s, run[0]);
      AttachedSpecFits(After(s, run[0]), run[1..]);
    }
  }

  lemma StepSpecFits(s: State, i: Instruction)
    requires SpecFits(s)
    ensures SpecFits(After(s, i)) && |After(s, i).pools| == |s.pools|
  {
    hide SpecVerdict, WellFormed;
    if i.DoAttachSpec? {
      ValidIffWellFormed(i.spec, NumOutcomes(s));
    }
  }

  /** Whatever happens next, the rules a bettor sees are the rules that will decide. */
  ghost predicate RulesAreFixed(s: State) {
    forall run :: SameRules(s, Run(s, run)) && Run(s, run).combo == s.combo
  }

  /** A spec that fits any market: one leg, and the same predicate on it for every outcome. */
  function AnySpec(n: nat): ComboSpec {
    ComboSpec([StatLeg(1, 100)], seq(n, i => ComboOutcome([Strategy.Single(0, Strategy.GreaterThan, 0)])))
  }

  lemma AnySpecFits(n: u8)
    ensures SpecVerdict(AnySpec(n), n).Ok?
  {
    OneCovers(Strategy.Single(0, Strategy.GreaterThan, 0), 1);
    ValidIffWellFormed(AnySpec(n), n);
    hide CoversExactly;
  }

  lemma {:induction false} PlainStaysPlain(s: State, run: seq<Instruction>)
    requires s.marketType < COMBO_MARKET_TYPE_MIN
    ensures Run(s, run).combo == s.combo
    decreases |run|
  {
    hide After, SpecVerdict;
    if run != [] {
      StepRules(s, run[0]);
      assert After(s, run[0]).combo == s.combo by {
        PlainStep(s, run[0]);
      }
      PlainStaysPlain(After(s, run[0]), run[1..]);
    }
  }

  lemma PlainStep(s: State, i: Instruction)
    requires s.marketType < COMBO_MARKET_TYPE_MIN
    ensures After(s, i).combo == s.combo
  {
  }

  /**
   * The rules of whoever has staked are fixed exactly when the market is plain, has its
   * spec already, or has stopped taking bets. An open compound market without a spec still
   * gets one, stakes or not.
   */
  lemma RulesAreFixedIff(s: State)
    ensures RulesAreFixed(s) <==> s.combo.Some? || s.marketType < COMBO_MARKET_TYPE_MIN || s.status != Open
  {
    hide Run, After, SameRules;
    if s.combo.Some? || s.marketType < COMBO_MARKET_TYPE_MIN || s.status != Open {
      forall run ensures SameRules(s, Run(s, run)) && Run(s, run).combo == s.combo {
        RulesNeverChange(s, run);
        if s.marketType < COMBO_MARKET_TYPE_MIN {
          PlainStaysPlain(s, run);
        } else {
          SameCombo(s, Run(s, run));
        }
      }
    } else {
      var spec := AnySpec(NumOutcomes(s));
      AnySpecFits(NumOutcomes(s));
      AttachedLater(s, spec);
      assert Run(s, [DoAttachSpec(spec)]).combo != s.combo;
    }
  }

  lemma SameCombo(s: State, s': State)
    requires SameRules(s, s') && (s.combo.Some? || s.status != Open)
    ensures s'.combo == s.combo
  {
  }

  lemma AttachedLater(s: State, spec: ComboSpec)
    requires s.combo.None? && s.marketType >= COMBO_MARKET_TYPE_MIN && s.status == Open
    requires SpecVerdict(spec, NumOutcomes(s)).Ok?
    ensures AttachSpec(s, spec).Ok? && Run(s, [DoAttachSpec(spec)]).combo == Some(spec)
  {
    hide SpecVerdict;
    assert [DoAttachSpec(spec)][1..] == [];
  }

  /** It happens: a market with a stake, no spec, and one attached after the bet. */
  lemma SpecCanFollowStakes()
    ensures exists s, o, spec :: Reachable(s) && o in s.positions && s.combo.None? && AttachSpec(s, spec).Ok?
                                 && !RulesAreFixed(s)
  {
    var outcome := OutcomeSpec(1, 100, true, 2, 100, Some(Strategy.Subtract), Strategy.GreaterThan, 0);
    var setup := Setup(1, 28, [outcome, outcome], 0, 10, 1);
    var s0, bet := Initialize(0, setup).value, DoPlaceBet(5, 7, 0, 100, 100);
    var s := After(s0, bet);
    FreshIsReachable(0, setup);
    StaysReachable(s0, bet);
    assert 7 in s.positions && s.combo.None? && s.status == Open && s.marketType == 28;
    hide Reachable, RulesAreFixed, Initialize, After;
    AnySpecFits(NumOutcomes(s));
    AttachedLater(s, AnySpec(NumOutcomes(s)));
    RulesAreFixedIff(s);
  }

  /** After a successful winnings claim no refund ever succeeds, and the other way round. */
  lemma NeverBothPay(s: State, winner: Owner, refunded: Owner, run: seq<Instruction>)
    ensures ClaimWinnings(s, winner).Ok? ==> ClaimRefund(Run(ClaimWinnings(s, winner).value, run), refunded).Err?
    ensures ClaimRefund(s, refunded).Ok? ==> ClaimWinnings(Run(ClaimRefund(s, refunded).value, run), winner).Err?
  {
    if ClaimWinnings(s, winner).Ok? {
      TerminalIsFinal(ClaimWinnings(s, winner).value, run);
    }
    if ClaimRefund(s, refunded).Ok? {
      TerminalIsFinal(ClaimRefund(s, refunded).value, run);
    }
  }

  /** Same stakes on the same outcomes by the same people. */
  ghost predicate SameStakes(a: State, b: State) {
    && a.positions.Keys == b.positions.Keys
    && forall o :: o in a.positions ==>
         a.positions[o].amount == b.positions[o].amount && a.positions[o].outcomeIndex == b.positions[o].outcomeIndex
  }

  /** Once a market has left Open, stakes and pools are frozen for good. */
  lemma {:induction false} StakesFreezeAtLock(s: State, run: seq<Instruction>)
    requires s.status != Open
    ensures SameStakes(s, Run(s, run)) && Run(s, run).pools == s.pools && Run(s, run).status != Open
    decreases |run|
  {
    if run != [] {
      StepTransition(s, run[0]);
      assert SameStakes(s, After(s, run[0]));
      StakesFreezeAtLock(After(s, run[0]), run[1..]);
    }
  }

  /** A market settles only on a verified outcome, and pays only on one somebody staked. */
  lemma SettledOnlyIfVerified(s: State, i: Instruction)
    requires s.status != Settled && After(s, i).status == Settled
    ensures i.DoSettle? && s.status == Locked && i.verdict == Ok(true)
    ensures i.claimed < |s.pools| && s.pools[i.claimed] > 0 && After(s, i).winningOutcome == i.claimed
    ensures i.v3 <==> s.marketType >= COMBO_MARKET_TYPE_MIN
    ensures i.v3 ==> s.combo.Some?
  {
  }

  // --- the time backstop -----------------------------------------------------------------------------

  /**
   * The escape hatch exists exactly where the deadline leaves room before the largest
   * `i64`: otherwise a locked market can never be cancelled.
   */
  lemma CancellableIffDeadlineFits(s: State)
    requires s.status == Locked && s.resolutionTimeout > 0
    ensures (exists now: i64 :: Cancel(s, now).Ok?) <==> s.lockTime + s.resolutionTimeout < I64_MAX
  {
    if s.lockTime + s.resolutionTimeout < I64_MAX {
      var now: i64 := I64_MAX;
      assert Cancel(s, now).Ok?;
    }
  }

  /** Such a market passes initialization, takes bets and locks, and then has no backstop. */
  lemma BackstopCanBeMissing()
    ensures exists s, o :: Reachable(s) && s.status == Locked && o in s.positions
                           && forall now: i64 :: Cancel(s, now).Err?
  {
    var spec := OutcomeSpec(1, 100, true, 2, 100, Some(Strategy.Subtract), Strategy.GreaterThan, 0);
    var setup := Setup(1, 0, [spec, spec], 0, 10, I64_MAX);
    var s0 := Initialize(0, setup).value;
    var bet, lock := DoPlaceBet(5, 7, 0, 100, 100), DoLock(10);
    var s1 := After(s0, bet);
    var s2 := After(s1, lock);
    FreshIsReachable(0, setup);
    StaysReachable(s0, bet);
    StaysReachable(s1, lock);
    assert s2.status == Locked && 7 in s2.positions;
    CancellableIffDeadlineFits(s2);
  }
}
