/**
 * The whole path of one market: from initialization through any run of instructions,
 * with settlements verified by the oracle, to the last payment.
 */
module EndToEnd {
  import opened Wrappers
  import opened Numbers
  import opened Strategy
  import opened Coverage
  import opened Settlement
  import opened PublishedTruth
  import PayoutMath
  import Escrow
  import opened EscrowInvariant
  import opened EscrowTheorems

  /**
   * After any run: pools, positions and total agree; vault and payments add up to
   * the total and what outsiders sent; nobody entitled is stuck; and once everyone
   * entitled is paid nothing but that is left.
   */
  lemma EveryRunBalances(now: i64, setup: Escrow.Setup, run: seq<Escrow.Instruction>, owner: Escrow.Owner)
    requires Escrow.Initialize(now, setup).Ok?
    ensures var s := Escrow.Run(Escrow.Initialize(now, setup).value, run);
            && s.totalPool == PayoutMath.Sum(s.pools) == Total(s.positions, Stakes)
            && s.vault + PaidSum(s.payments) == s.totalPool + s.donated
            && (OpenClaim(s, owner) ==> Escrow.ClaimWinnings(s, owner).Ok?)
            && (s.status == Escrow.Cancelled && owner in s.positions && !s.positions[owner].claimed ==>
                  Escrow.ClaimRefund(s, owner).Ok?)
            && (s.status == Escrow.Settled ==> (Escrow.WithdrawFees(s).Ok? <==> s.feeAmount > 0 && !s.feeWithdrawn))
            && (FullyClaimed(s) || FullyRefunded(s) ==> s.vault == s.donated)
  {
    hide Escrow.Initialize, Escrow.Run, Inv;
    InitializeInv(now, setup);
    var s := Escrow.Run(Escrow.Initialize(now, setup).value, run);
    RunInv(Escrow.Initialize(now, setup).value, run);
    BooksBalance(s);
    if OpenClaim(s, owner) {
      ClaimNeverStuck(s, owner);
    }
    if s.status == Escrow.Cancelled && owner in s.positions && !s.positions[owner].claimed {
      RefundNeverStuck(s, owner);
    }
    if s.status == Escrow.Settled {
      FeeNeverStuck(s);
    }
    if FullyClaimed(s) || FullyRefunded(s) {
      VaultEndsEmpty(s);
    }
  }

  /** The payment `owner` received, if any, is what the market's outcome entitles to. */
  ghost predicate PaidFairly(s: Escrow.State, owner: Escrow.Owner) {
    forall i :: 0 <= i < |s.payments| && s.payments[i].to == Escrow.Bettor(owner) ==>
      && owner in s.positions && Terminal(s.status)
      && (s.status == Escrow.Cancelled ==> s.payments[i].amount == s.positions[owner].amount)
      && (s.status == Escrow.Settled ==>
            && s.positions[owner].outcomeIndex == s.winningOutcome && s.totalWinningPool > 0 && Pot(s) >= 0
            && var floor := PayoutMath.Share(s.positions[owner].amount, Pot(s), s.totalWinningPool);
               floor <= s.payments[i].amount < floor + Total(s.positions, CountOn(s.winningOutcome)))
  }

  /**
   * After any run nobody was paid twice; who was paid on a settled market backed the
   * winner and got the floored share plus less than one unit per winner, and on a
   * cancelled market exactly the stake.
   */
  lemma EveryRunPaysFairly(now: i64, setup: Escrow.Setup, run: seq<Escrow.Instruction>, owner: Escrow.Owner)
    requires Escrow.Initialize(now, setup).Ok?
    ensures var s := Escrow.Run(Escrow.Initialize(now, setup).value, run);
            && PaidFairly(s, owner)
            && forall i, j :: 0 <= i < j < |s.payments| ==> s.payments[i].to != s.payments[j].to
  {
    hide Escrow.Initialize, Escrow.Run, Inv, PaidFairly;
    InitializeInv(now, setup);
    RunInv(Escrow.Initialize(now, setup).value, run);
    PaymentsAreFair(Escrow.Run(Escrow.Initialize(now, setup).value, run), owner);
  }

  lemma PaymentsAreFair(s: Escrow.State, owner: Escrow.Owner)
    requires Inv(s)
    ensures PaidFairly(s, owner)
    ensures forall i, j :: 0 <= i < j < |s.payments| ==> s.payments[i].to != s.payments[j].to
  {
    hide PayoutMath.Sum, PayoutMath.Share, Total, PaidSum, Books;
    forall i | 0 <= i < |s.payments| && s.payments[i].to == Escrow.Bettor(owner)
      ensures s.status == Escrow.Settled ==> FairPayment(s, s.payments[i])
      ensures s.status == Escrow.Cancelled ==> ExactRefund(s, s.payments[i])
    {
    }
  }

  lemma BooksBalance(s: Escrow.State)
    requires Inv(s)
    ensures s.totalPool == PayoutMath.Sum(s.pools) == Total(s.positions, Stakes)
    ensures s.vault + PaidSum(s.payments) == s.totalPool + s.donated
  {
    hide PayoutMath.Sum, Total, PaidSum, SettledBooks, RefundBooks;
  }

  // --- the winner is the truth ----------------------------------------------------------------

  /** A proof of the fixture's own published values, of which the plain outcome holds. */
  ghost predicate PlainProof<D(!new)>(w: World<D>, fixtureId: i64, spec: OutcomeSpec, proof: SettlementProof<D>) {
    && IsPublished(w, fixtureId, proof.batch) && PlainCarriesPublished(spec, proof, StatsOf(w, proof.batch))
    && PlainHolds(spec, proof.statAValue, proof.statBValue)
  }

  /** The recorded outcome, if any, holds of values published for the market's own fixture and rules. */
  ghost predicate ProvenWinner<D(!new)>(w: World<D>, s: Escrow.State) {
    s.winningOutcome == Escrow.UNSET_OUTCOME
    || (if s.marketType >= Escrow.COMBO_MARKET_TYPE_MIN then
          && s.combo.Some? && s.winningOutcome < |s.combo.value.outcomes|
          && exists proof :: CompoundProof(w, s.fixtureId, s.combo.value.legs,
                                           s.combo.value.outcomes[s.winningOutcome].predicates, proof)
        else
          s.winningOutcome < |s.specs| && exists proof :: PlainProof(w, s.fixtureId, s.specs[s.winningOutcome], proof))
  }

  /** A settlement's verdict is the oracle's on some proof, for the market's own rules, with the hash unbroken on it. */
  ghost predicate Genuine<D(!new)>(w: World<D>, s: Escrow.State, i: Escrow.Instruction) {
    i.DoSettle? ==>
      if i.v3 then
        s.combo.Some? && i.claimed < |s.combo.value.outcomes| ==>
          exists proof :: CompoundAnswer(w, s.fixtureId, s.combo.value, i.claimed, proof, i.verdict)
      else
        i.claimed < |s.specs| ==> exists proof :: PlainAnswer(w, s.fixtureId, s.specs[i.claimed], proof, i.verdict)
  }

  ghost predicate CompoundAnswer<D(!new)>(w: World<D>, fixtureId: i64, spec: ComboSpec, claimed: u8,
                                          proof: SettlementProofV3<D>, verdict: Result<bool, SettleError>)
    requires claimed < |spec.outcomes|
  {
    && verdict == BuildAndVerify(w.h, w.published, fixtureId, spec.legs, spec.outcomes[claimed].predicates, proof)
    && !ProofBreaks(w, spec.legs, proof)
  }

  ghost predicate PlainAnswer<D(!new)>(w: World<D>, fixtureId: i64, spec: OutcomeSpec, proof: SettlementProof<D>,
                                       verdict: Result<bool, SettleError>)
  {
    && verdict == BuildAndVerifyV2(w.h, w.published, fixtureId, spec, proof)
    && !PlainProofBreaks(w, spec, proof)
  }

  ghost predicate GenuineRun<D(!new)>(w: World<D>, s: Escrow.State, run: seq<Escrow.Instruction>)
    decreases |run|
  {
    run == [] || (Genuine(w, s, run[0]) && GenuineRun(w, Escrow.After(s, run[0]), run[1..]))
  }

  /** What makes a recorded outcome one of the market's rules. */
  ghost predicate WellRuled(s: Escrow.State) {
    && SpecFits(s) && |s.specs| == |s.pools| < 0x100
    && (s.status == Escrow.Open ==> s.winningOutcome == Escrow.UNSET_OUTCOME)
  }

  lemma StepWellRuled(s: Escrow.State, i: Escrow.Instruction)
    requires WellRuled(s)
    ensures WellRuled(Escrow.After(s, i))
  {
    hide SpecFits;
    StepSpecFits(s, i);
    StepRules(s, i);
    hide Escrow.AttachSpec;
    OpenStaysUndecided(s, i);
  }

  lemma OpenStaysUndecided(s: Escrow.State, i: Escrow.Instruction)
    requires s.status == Escrow.Open ==> s.winningOutcome == Escrow.UNSET_OUTCOME
    ensures Escrow.After(s, i).status == Escrow.Open ==> Escrow.After(s, i).winningOutcome == Escrow.UNSET_OUTCOME
  {
    hide SpecVerdict;
  }

  /** A successful settlement records the claimed outcome, verified, through the path of the market's type. */
  lemma SettlementRecords(s: Escrow.State, i: Escrow.Instruction)
    requires i.DoSettle? && Escrow.Execute(s, i).Ok?
    ensures i.verdict == Ok(true) && i.claimed < |s.pools| && Escrow.After(s, i).winningOutcome == i.claimed
    ensures i.v3 <==> s.marketType >= Escrow.COMBO_MARKET_TYPE_MIN
    ensures i.v3 ==> s.combo.Some?
  {
  }

  /** Nothing else touches the recorded outcome. */
  lemma OthersKeepWinner(s: Escrow.State, i: Escrow.Instruction)
    requires !i.DoSettle? || Escrow.Execute(s, i).Err?
    ensures Escrow.After(s, i).winningOutcome == s.winningOutcome
  {
    hide SpecVerdict;
  }

  lemma ComboCoversPools(s: Escrow.State)
    requires WellRuled(s) && s.combo.Some?
    ensures |s.combo.value.outcomes| == |s.pools|
  {
    hide CoversExactly;
  }

  lemma WinnerStep<D(!new)>(w: World<D>, s: Escrow.State, i: Escrow.Instruction)
    requires Public(w, s.fixtureId) && WellRuled(s) && Genuine(w, s, i) && ProvenWinner(w, s)
    ensures ProvenWinner(w, Escrow.After(s, i))
  {
    hide Escrow.After, Escrow.Execute, Public, CompoundProof, PlainProof, CompoundAnswer, PlainAnswer, WellFormed;
    StepRules(s, i);
    if i.DoSettle? && Escrow.Execute(s, i).Ok? {
      SettlementRecords(s, i);
      if i.v3 {
        ComboCoversPools(s);
        var proof :| CompoundAnswer(w, s.fixtureId, s.combo.value, i.claimed, proof, i.verdict);
        CompoundAnswerProves(w, s.fixtureId, s.combo.value, i.claimed, proof);
        SettledKeepsCombo(s, i);
      } else {
        var proof :| PlainAnswer(w, s.fixtureId, s.specs[i.claimed], proof, i.verdict);
        PlainAnswerProves(w, s.fixtureId, s.specs[i.claimed], proof);
      }
    } else {
      OthersKeepWinner(s, i);
    }
  }

  lemma SettledKeepsCombo(s: Escrow.State, i: Escrow.Instruction)
    requires i.DoSettle?
    ensures Escrow.After(s, i).combo == s.combo
  {
  }

  lemma CompoundAnswerProves<D(!new)>(w: World<D>, fixtureId: i64, spec: ComboSpec, claimed: u8,
                                      proof: SettlementProofV3<D>)
    requires Public(w, fixtureId) && claimed < |spec.outcomes|
    requires CompoundAnswer(w, fixtureId, spec, claimed, proof, Ok(true))
    ensures CompoundProof(w, fixtureId, spec.legs, spec.outcomes[claimed].predicates, proof)
  {
    hide BuildAndVerify, ProofBreaks, Public, IsPublished, CarriesPublished, OutcomeHolds;
    VerdictIsPublished(w, fixtureId, spec.legs, spec.outcomes[claimed].predicates, proof, true);
  }

  lemma PlainAnswerProves<D(!new)>(w: World<D>, fixtureId: i64, spec: OutcomeSpec, proof: SettlementProof<D>)
    requires Public(w, fixtureId) && PlainAnswer(w, fixtureId, spec, proof, Ok(true))
    ensures PlainProof(w, fixtureId, spec, proof)
  {
    hide BuildAndVerifyV2, PlainProofBreaks, Public, IsPublished, PlainCarriesPublished, PlainHolds;
    PlainVerdictIsPublished(w, fixtureId, spec, proof, true);
  }

  lemma {:induction false} WinnerRun<D(!new)>(w: World<D>, s: Escrow.State, run: seq<Escrow.Instruction>)
    requires Public(w, s.fixtureId) && WellRuled(s) && GenuineRun(w, s, run) && ProvenWinner(w, s)
    ensures ProvenWinner(w, Escrow.Run(s, run))
    decreases |run|
  {
    hide Escrow.After, Public, WellRuled, Genuine, ProvenWinner;
    if run != [] {
      StepRules(s, run[0]);
      StepWellRuled(s, run[0]);
      WinnerStep(w, s, run[0]);
      WinnerRun(w, Escrow.After(s, run[0]), run[1..]);
    }
  }

  /**
   * From initialization through any run, the outcome a market records, plain or compound,
   * holds of values published for its own fixture, under the rules it was born with or had
   * attached while betting was open; and a settled market has recorded one.
   */
  lemma SettledOutcomeIsPublished<D(!new)>(w: World<D>, now: i64, setup: Escrow.Setup, run: seq<Escrow.Instruction>)
    requires Escrow.Initialize(now, setup).Ok? && Public(w, setup.fixtureId)
    requires GenuineRun(w, Escrow.Initialize(now, setup).value, run)
    ensures var s := Escrow.Run(Escrow.Initialize(now, setup).value, run);
            && ProvenWinner(w, s) && s.fixtureId == setup.fixtureId && s.specs == setup.specs
            && (s.status == Escrow.Settled ==> s.winningOutcome != Escrow.UNSET_OUTCOME)
  {
    var s0 := Escrow.Initialize(now, setup).value;
    FreshIsWellRuled(now, setup);
    InitializeInv(now, setup);
    hide Escrow.Initialize, Escrow.Run, Public, GenuineRun, WellRuled, Inv, ProvenWinner;
    WinnerRun(w, s0, run);
    RulesNeverChange(s0, run);
    RunInv(s0, run);
    SettledHasWinner(Escrow.Run(s0, run));
  }

  lemma FreshIsWellRuled(now: i64, setup: Escrow.Setup)
    requires Escrow.Initialize(now, setup).Ok?
    ensures var s := Escrow.Initialize(now, setup).value;
            && WellRuled(s) && s.winningOutcome == Escrow.UNSET_OUTCOME
            && s.fixtureId == setup.fixtureId && s.specs == setup.specs
  {
  }

  lemma SettledHasWinner(s: Escrow.State)
    requires Inv(s)
    ensures s.status == Escrow.Settled ==> s.winningOutcome != Escrow.UNSET_OUTCOME
  {
  }
}
