/**
 * Prop vaults: one depositor's money, paid to the beneficiary if a proof says the
 * predicates hold, back to the depositor if a proof says they do not or time runs out.
 */
module PropVaults {
  import opened Wrappers
  import opened Numbers
  import opened Merkle
  import opened Borsh
  import opened Strategy
  import opened Coverage
  import opened Oracle
  import opened OracleSoundness
  import opened Settlement
  import opened PublishedTruth

  type Owner = nat

  datatype Status = Funded | PaidOut | Refunded

  datatype Error =
    | ZeroAmount | InvalidFixtureId | SelfHedgeVault
    | InvalidResolutionTimeout | LockTimeInPast | InvalidSpec(e: SpecError)
    | InsufficientFunds | AlreadyResolved | TooEarlyToLock
    | Unverifiable(s: SettleError) | MathOverflow | TooEarlyToCancel

  /** What is fixed at creation. */
  datatype Terms = Terms(depositor: Owner, beneficiary: Owner, fixtureId: i64, legs: seq<StatLeg>,
                         predicates: seq<WirePredicate>, lockTime: i64, resolutionTimeout: i64)

  /** `received` is everything ever put into the token account, the deposit included. */
  datatype State = State(terms: Terms, status: Status, balance: nat, received: nat,
                         toBeneficiary: nat, toDepositor: nat)

  function CreateVault(now: i64, terms: Terms, amount: u64, funds: u64): Result<State, Error> {
    if amount == 0 then Err(ZeroAmount)
    else if terms.fixtureId <= 0 then Err(InvalidFixtureId)
    else if terms.beneficiary == terms.depositor then Err(SelfHedgeVault)
    else if terms.resolutionTimeout <= 0 then Err(InvalidResolutionTimeout)
    else if terms.lockTime <= now then Err(LockTimeInPast)
    else
      match VaultVerdict(terms.legs, terms.predicates)
      case Err(e) => Err(InvalidSpec(e))
      case Ok(_) =>
        if funds < amount then Err(InsufficientFunds) else Ok(State(terms, Funded, amount, amount, 0, 0))
  }

  /** Both resolutions move the whole balance, deposit and later transfers alike. */
  function Resolve(s: State, toBeneficiary: bool): State {
    if toBeneficiary then s.(status := PaidOut, balance := 0, toBeneficiary := s.toBeneficiary + s.balance)
    else s.(status := Refunded, balance := 0, toDepositor := s.toDepositor + s.balance)
  }

  function SettleVault(s: State, now: i64, verdict: Result<bool, SettleError>): Result<State, Error> {
    if s.status != Funded then Err(AlreadyResolved)
    else if now < s.terms.lockTime then Err(TooEarlyToLock)
    else
      match verdict
      case Err(e) => Err(Unverifiable(e))
      case Ok(holds) => Ok(Resolve(s, holds))
  }

  function CancelVault(s: State, now: i64): Result<State, Error> {
    if s.status != Funded then Err(AlreadyResolved)
    else
      var deadline := s.terms.lockTime + s.terms.resolutionTimeout;
      if !(I64_MIN <= deadline <= I64_MAX) then Err(MathOverflow)
      else if now <= deadline then Err(TooEarlyToCancel)
      else Ok(Resolve(s, false))
  }

  // --- what is answered -----------------------------------------------------------------------

  /** One to five legs and as many predicates at most, which read every leg exactly once. */
  ghost predicate Sound(terms: Terms) {
    && 1 <= |terms.legs| <= 5 && 1 <= |terms.predicates| <= 5
    && ExactCover(RefsOf(terms.predicates), |terms.legs|)
  }

  ghost function CreationChecks(now: i64, terms: Terms, amount: u64): seq<Check<Error>> {
    [Check(amount == 0, ZeroAmount), Check(terms.fixtureId <= 0, InvalidFixtureId),
     Check(terms.beneficiary == terms.depositor, SelfHedgeVault),
     Check(terms.resolutionTimeout <= 0, InvalidResolutionTimeout), Check(terms.lockTime <= now, LockTimeInPast)]
  }

  /** The first failing check answers, then an unsound predicate list, then missing funds. */
  lemma CreationAnswers(now: i64, terms: Terms, amount: u64, funds: u64)
    ensures match FirstFailure(CreationChecks(now, terms, amount))
            case Some(e) => CreateVault(now, terms, amount, funds) == Err(e)
            case None =>
              match CreateVault(now, terms, amount, funds)
              case Err(InvalidSpec(_)) => !Sound(terms)
              case Err(e) => Sound(terms) && funds < amount && e == InsufficientFunds
              case Ok(s) =>
                && Sound(terms) && amount <= funds && s.terms == terms && s.status == Funded
                && s.balance == amount && s.received == amount && s.toBeneficiary == 0 && s.toDepositor == 0
  {
    CoverageIffExact(RefsOf(terms.predicates), |terms.legs|);
    hide FirstFailure, ExactCover;
    FirstOfSeven(CreationChecks(now, terms, amount));
  }

  /** A vault may be created. */
  ghost predicate Creatable(now: i64, terms: Terms, amount: u64, funds: u64) {
    && 0 < amount <= funds && terms.fixtureId > 0 && terms.beneficiary != terms.depositor
    && terms.resolutionTimeout > 0 && now < terms.lockTime && Sound(terms)
  }

  lemma CreatedIffCreatable(now: i64, terms: Terms, amount: u64, funds: u64)
    ensures CreateVault(now, terms, amount, funds).Ok? <==> Creatable(now, terms, amount, funds)
  {
    hide FirstFailure, Sound, CreateVault;
    CreationAnswers(now, terms, amount, funds);
    FirstOfSeven(CreationChecks(now, terms, amount));
  }

  ghost function SettleChecks(status: Status, terms: Terms, now: i64): seq<Check<Error>> {
    [Check(status != Funded, AlreadyResolved), Check(now < terms.lockTime, TooEarlyToLock)]
  }

  ghost function CancelChecks(status: Status, terms: Terms, now: i64): seq<Check<Error>> {
    var deadline: int := terms.lockTime + terms.resolutionTimeout;
    [Check(status != Funded, AlreadyResolved),
     Check(deadline < -0x8000_0000_0000_0000 || deadline >= 0x8000_0000_0000_0000, MathOverflow),
     Check(now <= deadline, TooEarlyToCancel)]
  }

  lemma ResolutionAnswers(s: State, now: i64, verdict: Result<bool, SettleError>)
    ensures match FirstFailure(SettleChecks(s.status, s.terms, now))
            case Some(e) => SettleVault(s, now, verdict) == Err(e)
            case None => match verdict
                         case Err(e) => SettleVault(s, now, verdict) == Err(Unverifiable(e))
                         case Ok(_) => SettleVault(s, now, verdict).Ok?
    ensures match FirstFailure(CancelChecks(s.status, s.terms, now))
            case Some(e) => CancelVault(s, now) == Err(e)
            case None => CancelVault(s, now).Ok?
  {
    hide FirstFailure;
    FirstOfSeven(SettleChecks(s.status, s.terms, now));
    FirstOfSeven(CancelChecks(s.status, s.terms, now));
  }

  /** All money is accounted for, and only the resolution that happened has paid. */
  ghost predicate Inv(s: State) {
    && s.balance + s.toBeneficiary + s.toDepositor == s.received
    && (s.status != PaidOut ==> s.toBeneficiary == 0)
    && (s.status != Refunded ==> s.toDepositor == 0)
  }

  // --- the account ---------------------------------------------------------------------------

  class PropVault {
    const terms: Terms
    var status: Status
    var balance: nat
    var received: nat
    var toBeneficiary: nat
    var toDepositor: nat

    ghost function Snapshot(): State
      reads this
    {
      State(terms, status, balance, received, toBeneficiary, toDepositor)
    }

    ghost predicate Valid()
      reads this
    {
      Inv(Snapshot())
    }

    /** Everything ever received has gone to one side, and only the state says so. */
    ghost predicate Emptied(beneficiary: bool)
      reads this
    {
      && status == (if beneficiary then PaidOut else Refunded) && balance == 0
      && toBeneficiary == (if beneficiary then received else 0)
      && toDepositor == (if beneficiary then 0 else received)
    }

    /** A vault that passed creation with `amount`. */
    constructor (terms: Terms, amount: u64)
      ensures Valid() && Snapshot() == State(terms, Funded, amount, amount, 0, 0)
    {
      this.terms := terms;
      status, balance, received, toBeneficiary, toDepositor := Funded, amount, amount, 0, 0;
    }

    method Settle(now: i64, verdict: Result<bool, SettleError>) returns (r: Result<(), Error>)
      requires Valid()
      modifies `status, `balance, `toBeneficiary, `toDepositor
      ensures Answers(r, SettleVault(old(Snapshot()), now, verdict), old(Snapshot()), Snapshot())
      ensures Valid()
      ensures r.Ok? <==> old(status) == Funded && now >= terms.lockTime && verdict.Ok?
      ensures r.Ok? ==> Emptied(verdict.value)
      ensures match FirstFailure(SettleChecks(old(status), terms, now))
              case Some(e) => r == Err(e)
              case None => verdict.Err? ==> r == Err(Unverifiable(verdict.error))
    {
      ResolutionAnswers(Snapshot(), now, verdict);
      hide FirstFailure;
      if status != Funded { return Err(AlreadyResolved); }
      if now < terms.lockTime { return Err(TooEarlyToLock); }
      if verdict.Err? { return Err(Unverifiable(verdict.error)); }
      var holds := verdict.value;
      var amount := balance;
      if amount > 0 {
        balance := balance - amount;
        if holds {
          toBeneficiary := toBeneficiary + amount;
        } else {
          toDepositor := toDepositor + amount;
        }
      }
      status := if holds then PaidOut else Refunded;
      return Ok(());
    }

    method Cancel(now: i64) returns (r: Result<(), Error>)
      requires Valid()
      modifies `status, `balance, `toDepositor
      ensures Answers(r, CancelVault(old(Snapshot()), now), old(Snapshot()), Snapshot())
      ensures Valid()
      ensures var deadline: int := terms.lockTime + terms.resolutionTimeout;
              r.Ok? <==> old(status) == Funded && I64_MIN <= deadline < now
      ensures r.Ok? ==> Emptied(false)
      ensures r.Err? ==> FirstFailure(CancelChecks(old(status), terms, now)) == Some(r.error)
    {
      ResolutionAnswers(Snapshot(), now, Ok(true));
      hide FirstFailure;
      if status != Funded { return Err(AlreadyResolved); }
      var deadline: int := terms.lockTime + terms.resolutionTimeout;
      if deadline < I64_MIN || deadline > I64_MAX { return Err(MathOverflow); }
      if now <= deadline { return Err(TooEarlyToCancel); }
      var amount := balance;
      if amount > 0 {
        balance := balance - amount;
        toDepositor := toDepositor + amount;
      }
      status := Refunded;
      return Ok(());
    }

    /** Tokens anybody sends to the vault's address. */
    method Receive(tokens: nat)
      requires Valid()
      modifies `balance, `received
      ensures Snapshot() == After(old(Snapshot()), DoTransfer(tokens)) && Valid()
    {
      balance := balance + tokens;
      received := received + tokens;
    }
  }

  /** `initialize_prop_vault`: nothing is created unless every check passes. */
  method OpenVault(now: i64, terms: Terms, amount: u64, funds: u64) returns (r: Result<PropVault, Error>)
    ensures match CreateVault(now, terms, amount, funds)
            case Ok(s) => r.Ok? && fresh(r.value) && r.value.Valid() && r.value.Snapshot() == s
            case Err(e) => r == Err(e)
    ensures r.Ok? <==> Creatable(now, terms, amount, funds)
  {
    CreatedIffCreatable(now, terms, amount, funds);
    hide Creatable;
    if amount == 0 { return Err(ZeroAmount); }
    if terms.fixtureId <= 0 { return Err(InvalidFixtureId); }
    if terms.beneficiary == terms.depositor { return Err(SelfHedgeVault); }
    if terms.resolutionTimeout <= 0 { return Err(InvalidResolutionTimeout); }
    if terms.lockTime <= now { return Err(LockTimeInPast); }
    var valid := ValidatePropVault(terms.legs, terms.predicates);
    if valid.Err? { return Err(InvalidSpec(valid.error)); }
    if funds < amount { return Err(InsufficientFunds); }
    var v := new PropVault(terms, amount);
    return Ok(v);
  }

  // --- runs ------------------------------------------------------------------------------------

  /** `DoTransfer`: anybody may send tokens to the account. */
  datatype Instruction =
    | DoSettle(now: i64, verdict: Result<bool, SettleError>)
    | DoCancel(now: i64)
    | DoTransfer(amount: nat)

  function After(s: State, i: Instruction): State {
    match i
    case DoSettle(now, verdict) => (match SettleVault(s, now, verdict) case Ok(s') => s' case Err(_) => s)
    case DoCancel(now) => (match CancelVault(s, now) case Ok(s') => s' case Err(_) => s)
    case DoTransfer(amount) => s.(balance := s.balance + amount, received := s.received + amount)
  }

  function Run(s: State, instructions: seq<Instruction>): State
    decreases |instructions|
  {
    if instructions == [] then s else Run(After(s, instructions[0]), instructions[1..])
  }

  /** A run is its instructions one after the other. */
  lemma {:induction false} RunsCompose(s: State, before: seq<Instruction>, i: Instruction)
    ensures Run(s, []) == s && Run(s, before + [i]) == After(Run(s, before), i)
    decreases |before|
  {
    hide After;
    var all := before + [i];
    if before == [] {
      assert all[1..] == [];
    } else {
      assert all[1..] == before[1..] + [i];
      RunsCompose(After(s, before[0]), before[1..], i);
    }
  }

  /** Whether a run holds a proof that the predicates hold. */
  ghost predicate Proves(run: seq<Instruction>, holds: bool) {
    exists i :: 0 <= i < |run| && run[i].DoSettle? && run[i].verdict == Ok(holds)
  }

  /** Whether a run holds a cancellation past the deadline. */
  ghost predicate TimesOut(terms: Terms, run: seq<Instruction>) {
    exists i :: 0 <= i < |run| && run[i].DoCancel? && run[i].now > terms.lockTime + terms.resolutionTimeout
  }

  lemma {:induction false} RunInv(s: State, run: seq<Instruction>)
    requires Inv(s)
    ensures var s' := Run(s, run);
            && Inv(s') && s'.terms == s.terms
            && (s.status != Funded ==>
                  s'.status == s.status && s'.toBeneficiary == s.toBeneficiary && s'.toDepositor == s.toDepositor)
            && (s.status == Funded && s'.status == PaidOut ==> Proves(run, true))
            && (s.status == Funded && s'.status == Refunded ==> Proves(run, false) || TimesOut(s.terms, run))
    decreases |run|
  {
    if run != [] {
      RunInv(After(s, run[0]), run[1..]);
      TailProves(run, true);
      TailProves(run, false);
      TailTimesOut(s.terms, run);
    }
  }

  lemma TailProves(run: seq<Instruction>, holds: bool)
    requires run != []
    ensures Proves(run[1..], holds) ==> Proves(run, holds)
    ensures run[0].DoSettle? && run[0].verdict == Ok(holds) ==> Proves(run, holds)
  {
    if Proves(run[1..], holds) {
      var i :| 0 <= i < |run[1..]| && run[1..][i].DoSettle? && run[1..][i].verdict == Ok(holds);
      assert run[i + 1] == run[1..][i];
    }
  }

  lemma TailTimesOut(terms: Terms, run: seq<Instruction>)
    requires run != []
    ensures TimesOut(terms, run[1..]) ==> TimesOut(terms, run)
    ensures run[0].DoCancel? && run[0].now > terms.lockTime + terms.resolutionTimeout ==> TimesOut(terms, run)
  {
    if TimesOut(terms, run[1..]) {
      var i :| 0 <= i < |run[1..]| && run[1..][i].DoCancel?
          && run[1..][i].now > terms.lockTime + terms.resolutionTimeout;
      assert run[i + 1] == run[1..][i];
    }
  }

  /**
   * From creation through any run: no money is made or lost, at most one side is ever
   * paid, the beneficiary only by a proof, the depositor only by a proof or past the deadline.
   */
  lemma EveryRunPaysOneSide(now: i64, terms: Terms, amount: u64, funds: u64, run: seq<Instruction>)
    requires CreateVault(now, terms, amount, funds).Ok?
    ensures var s := Run(CreateVault(now, terms, amount, funds).value, run);
            && s.balance + s.toBeneficiary + s.toDepositor == s.received
            && (s.toBeneficiary == 0 || s.toDepositor == 0)
            && (s.toBeneficiary > 0 ==> s.status == PaidOut && Proves(run, true))
            && (s.toDepositor > 0 ==> s.status == Refunded && (Proves(run, false) || TimesOut(terms, run)))
  {
    RunInv(CreateVault(now, terms, amount, funds).value, run);
  }

  /** A resolution empties the account, transfers received meanwhile included. */
  lemma ResolutionEmptiesTheVault(s: State, i: Instruction)
    requires Inv(s) && s.status == Funded && After(s, i).status != Funded
    ensures After(s, i).balance == 0 && After(s, i).toBeneficiary + After(s, i).toDepositor == s.received
  {
  }

  /** Without a proof the depositor gets the money back at any time past a deadline that fits. */
  lemma RefundableIffDeadlineFits(s: State)
    requires s.status == Funded && s.terms.resolutionTimeout > 0
    ensures (exists now: i64 :: CancelVault(s, now).Ok?) <==> s.terms.lockTime + s.terms.resolutionTimeout < I64_MAX
  {
    if s.terms.lockTime + s.terms.resolutionTimeout < I64_MAX {
      var now: i64 := I64_MAX;
      assert CancelVault(s, now).Ok?;
    }
  }

  /** Creation lets a deadline through that does not fit: such a vault has no refund without a proof. */
  lemma RefundCanBeMissing()
    ensures exists now: i64, terms: Terms, amount: u64 ::
              && CreateVault(now, terms, amount, amount).Ok?
              && forall later: i64 :: CancelVault(CreateVault(now, terms, amount, amount).value, later).Err?
  {
    var leg := StatLeg(1, 0);
    var predicates := [Single(0, GreaterThan, 0)];
    var terms := Terms(0, 1, 1, [leg], predicates, 1, I64_MAX);
    OneCovers(predicates[0], 1);
    CoverageIffExact(RefsOf(predicates), 1);
    var now: i64, amount: u64 := 0, 1;
    assert CreateVault(now, terms, amount, amount).Ok?;
    forall later: i64 ensures CancelVault(CreateVault(now, terms, amount, amount).value, later).Err? {
    }
  }

  // --- the predicate decides -----------------------------------------------------------------------

  /** The answer to a proof submitted for a vault, with the hash unbroken on it. */
  ghost predicate Answered<D(!new)>(w: World<D>, terms: Terms, proof: SettlementProofV3<D>, verdict: bool) {
    && BuildAndVerify(w.h, w.published, terms.fixtureId, terms.legs, terms.predicates, proof) == Ok(verdict)
    && !ProofBreaks(w, terms.legs, proof)
  }

  lemma AnswerIsTruth<D(!new)>(w: World<D>, terms: Terms, proof: SettlementProofV3<D>, verdict: bool)
    requires Public(w, terms.fixtureId) && Answered(w, terms, proof, verdict)
    ensures IsPublished(w, terms.fixtureId, proof.batch) && CarriesPublished(terms.legs, proof, StatsOf(w, proof.batch))
    ensures verdict <==> OutcomeHolds(terms.legs, terms.predicates, proof.leafValues)
  {
    hide Public, ProofBreaks, BuildAndVerify, OutcomeHolds, CarriesPublished, IsPublished;
    VerdictIsPublished(w, terms.fixtureId, terms.legs, terms.predicates, proof, verdict);
  }

  /**
   * A caller cannot choose the answer: two proofs for one vault, by anyone and from any
   * published batches that agree on its legs, pay the same side, the beneficiary exactly
   * if the predicates hold.
   */
  lemma NobodyChoosesTheSide<D(!new)>(s: State, w: World<D>, now: i64,
                                      proof1: SettlementProofV3<D>, v1: bool, proof2: SettlementProofV3<D>, v2: bool)
    requires Public(w, s.terms.fixtureId) && Answered(w, s.terms, proof1, v1) && Answered(w, s.terms, proof2, v2)
    requires AgreeOn(s.terms.legs, StatsOf(w, proof1.batch), StatsOf(w, proof2.batch))
    requires s.status == Funded && now >= s.terms.lockTime
    ensures SettleVault(s, now, Ok(v1)) == SettleVault(s, now, Ok(v2))
    ensures SettleVault(s, now, Ok(v1)).Ok?
            && (SettleVault(s, now, Ok(v1)).value.status == PaidOut
                <==> OutcomeHolds(s.terms.legs, s.terms.predicates, proof1.leafValues))
  {
    hide Answered, CarriesPublished, AgreeOn, OutcomeHolds, Public, StatsOf, IsPublished;
    AnswerIsTruth(w, s.terms, proof1, v1);
    AnswerIsTruth(w, s.terms, proof2, v2);
    PublishedValuesAgree(s.terms.legs, proof1, StatsOf(w, proof1.batch), proof2, StatsOf(w, proof2.batch));
  }

  /** Every verdict in the run is the oracle's on some proof for the vault's own terms, with the hash unbroken on it. */
  ghost predicate GenuineRun<D(!new)>(w: World<D>, terms: Terms, run: seq<Instruction>) {
    forall i :: 0 <= i < |run| && run[i].DoSettle? ==> GenuineVerdict(w, terms, run[i].verdict)
  }

  ghost predicate GenuineVerdict<D(!new)>(w: World<D>, terms: Terms, verdict: Result<bool, SettleError>) {
    exists proof :: verdict == BuildAndVerify(w.h, w.published, terms.fixtureId, terms.legs, terms.predicates, proof)
                    && !ProofBreaks(w, terms.legs, proof)
  }

  /** The values published for the fixture under some batch, and whether the predicates hold of them. */
  ghost predicate PublishedAs<D(!new)>(w: World<D>, terms: Terms, holds: bool) {
    exists proof: SettlementProofV3<D> ::
      && IsPublished(w, terms.fixtureId, proof.batch) && CarriesPublished(terms.legs, proof, StatsOf(w, proof.batch))
      && (holds <==> OutcomeHolds(terms.legs, terms.predicates, proof.leafValues))
  }

  lemma GenuineIsPublished<D(!new)>(w: World<D>, terms: Terms, verdict: bool)
    requires Public(w, terms.fixtureId) && GenuineVerdict(w, terms, Ok(verdict))
    ensures PublishedAs(w, terms, verdict)
  {
    hide Public, ProofBreaks, BuildAndVerify, OutcomeHolds, CarriesPublished, IsPublished, StatsOf;
    var proof :| BuildAndVerify(w.h, w.published, terms.fixtureId, terms.legs, terms.predicates, proof) == Ok(verdict)
                 && !ProofBreaks(w, terms.legs, proof);
    AnswerIsTruth(w, terms, proof, verdict);
  }

  /**
   * From creation through any run of genuine verdicts: the beneficiary is paid only if the
   * predicates hold of values published for the vault's own fixture, the depositor only if
   * they fail of such values or the deadline has passed.
   */
  lemma VaultPaysThePublished<D(!new)>(w: World<D>, now: i64, terms: Terms, amount: u64, funds: u64,
                                       run: seq<Instruction>)
    requires CreateVault(now, terms, amount, funds).Ok? && Public(w, terms.fixtureId) && GenuineRun(w, terms, run)
    ensures var s := Run(CreateVault(now, terms, amount, funds).value, run);
            && (s.toBeneficiary > 0 ==> PublishedAs(w, terms, true))
            && (s.toDepositor > 0 ==> PublishedAs(w, terms, false) || TimesOut(terms, run))
  {
    hide Public, GenuineVerdict, PublishedAs, CreateVault, Run, TimesOut;
    EveryRunPaysOneSide(now, terms, amount, funds, run);
    forall holds | Proves(run, holds) ensures PublishedAs(w, terms, holds) {
      var i :| 0 <= i < |run| && run[i].DoSettle? && run[i].verdict == Ok(holds);
      GenuineIsPublished(w, terms, holds);
    }
  }

  /** A vault that was created can always be evaluated: settlement never fails on coverage. */
  lemma CreatedVaultsAreEvaluable(now: i64, terms: Terms, amount: u64, funds: u64, values: seq<i32>)
    requires CreateVault(now, terms, amount, funds).Ok? && |values| == |terms.legs|
    ensures Evaluation(values, StrategyFor(terms.predicates)) == Ok(OutcomeHolds(terms.legs, terms.predicates, values))
  {
    hide Evaluation, AllHold;
    CoverageIffExact(RefsOf(terms.predicates), |terms.legs|);
    ValidatedIffEvaluable(terms.predicates, values);
  }
}
