/**
 * What every run of instructions keeps: the books balance, every token is accounted
 * for, winners get their floors and the last one the rest, refunds are exact.
 */
module EscrowInvariant {
  import opened Wrappers
  import opened Numbers
  import opened PayoutMath
  import opened Coverage
  import opened Settlement
  import opened Escrow

  // --- sums over positions -----------------------------------------------------------------

  /** A quantity read off one position, summed over all of them by `Total`. */
  datatype Measure =
    | Stakes                                              // every stake
    | On(k: nat)                                          // stakes on outcome k
    | ClaimedStakes                                       // stakes of claimed positions
    | ClaimedOn(k: nat)                                   // claimed stakes on outcome k
    | FloorsOn(k: nat, pot: nat, w: nat)                  // floored shares of outcome k
    | ClaimedFloors(k: nat, pot: nat, w: nat)             // of its claimed positions
    | CountOn(k: nat)                                     // number of positions on outcome k

  function Weigh(m: Measure, p: Position): nat {
    match m
    case Stakes => p.amount
    case On(k) => if p.outcomeIndex == k then p.amount else 0
    case ClaimedStakes => if p.claimed then p.amount else 0
    case ClaimedOn(k) => if p.claimed && p.outcomeIndex == k then p.amount else 0
    case FloorsOn(k, pot, w) => if p.outcomeIndex == k && w > 0 then Share(p.amount, pot, w) else 0
    case ClaimedFloors(k, pot, w) => if p.claimed && p.outcomeIndex == k && w > 0 then Share(p.amount, pot, w) else 0
    case CountOn(k) => if p.outcomeIndex == k then 1 else 0
  }

  ghost function Total(ps: map<Owner, Position>, m: Measure): nat
    decreases |ps|
  {
    if ps == map[] then 0
    else
      var o :| o in ps;
      Weigh(m, ps[o]) + Total(ps - {o}, m)
  }

  lemma {:induction false} TotalRemove(ps: map<Owner, Position>, o: Owner, m: Measure)
    requires o in ps
    ensures Total(ps, m) == Weigh(m, ps[o]) + Total(ps - {o}, m)
    decreases |ps|
  {
    var c :| c in ps && Total(ps, m) == Weigh(m, ps[c]) + Total(ps - {c}, m);
    if c != o {
      TotalRemove(ps - {c}, o, m);
      TotalRemove(ps - {o}, c, m);
      assert ps - {c} - {o} == ps - {o} - {c};
    }
  }

  lemma TotalPut(ps: map<Owner, Position>, o: Owner, p: Position, m: Measure)
    ensures Total(ps[o := p], m) == Total(ps, m) + Weigh(m, p) - (if o in ps then Weigh(m, ps[o]) else 0)
  {
    TotalRemove(ps[o := p], o, m);
    assert ps[o := p] - {o} == ps - {o};
    if o in ps {
      TotalRemove(ps, o, m);
    } else {
      assert ps - {o} == ps;
    }
  }

  lemma {:induction false} TotalMonotone(ps: map<Owner, Position>, a: Measure, b: Measure)
    requires forall o :: o in ps ==> Weigh(a, ps[o]) <= Weigh(b, ps[o])
    ensures Total(ps, a) <= Total(ps, b)
    decreases |ps|
  {
    if ps != map[] {
      var o :| o in ps;
      TotalRemove(ps, o, a);
      TotalRemove(ps, o, b);
      TotalMonotone(ps - {o}, a, b);
    }
  }

  lemma {:induction false} TotalZero(ps: map<Owner, Position>, m: Measure)
    requires forall o :: o in ps ==> Weigh(m, ps[o]) == 0
    ensures Total(ps, m) == 0
    decreases |ps|
  {
    if ps != map[] {
      var o :| o in ps;
      TotalRemove(ps, o, m);
      TotalZero(ps - {o}, m);
    }
  }

  lemma TotalEmpty(m: Measure)
    ensures Total(map[], m) == 0
  {
  }

  lemma WinnerWeighs(p: Position, k: nat, pot: nat, w: nat)
    requires w > 0
    ensures p.outcomeIndex == k ==> Weigh(FloorsOn(k, pot, w), p) == Share(p.amount, pot, w)
                                    && Weigh(On(k), p) == p.amount && Weigh(CountOn(k), p) == 1
    ensures p.outcomeIndex != k ==> Weigh(FloorsOn(k, pot, w), p) == Weigh(On(k), p) == Weigh(CountOn(k), p) == 0
  {
  }

  /** Flooring over all positions of an outcome, bracketed as in the list version. */
  lemma {:induction false} FloorsBracket(ps: map<Owner, Position>, k: nat, pot: nat, w: nat)
    requires w > 0
    ensures Bracketed(w, pot, Total(ps, FloorsOn(k, pot, w)), Total(ps, On(k)), Total(ps, CountOn(k)))
    decreases |ps|
  {
    hide Bracketed, Share, Total, Weigh;
    if ps == map[] {
      NothingBracketed(w, pot);
      TotalEmpty(FloorsOn(k, pot, w));
      TotalEmpty(On(k));
      TotalEmpty(CountOn(k));
    } else {
      var o :| o in ps;
      TotalRemove(ps, o, FloorsOn(k, pot, w));
      TotalRemove(ps, o, On(k));
      TotalRemove(ps, o, CountOn(k));
      FloorsBracket(ps - {o}, k, pot, w);
      WinnerWeighs(ps[o], k, pot, w);
      if ps[o].outcomeIndex == k {
        BracketStep(w, ps[o].amount, pot, Total(ps - {o}, FloorsOn(k, pot, w)), Total(ps - {o}, On(k)),
                    Total(ps - {o}, CountOn(k)));
      }
    }
  }

  lemma {:induction false} CountPositive(ps: map<Owner, Position>, k: nat)
    requires Total(ps, On(k)) > 0
    ensures Total(ps, CountOn(k)) > 0
    decreases |ps|
  {
    if ps != map[] {
      var o :| o in ps;
      TotalRemove(ps, o, On(k));
      TotalRemove(ps, o, CountOn(k));
      if ps[o].outcomeIndex != k {
        CountPositive(ps - {o}, k);
      }
    }
  }

  /** All floors of the winning outcome fit the pot, and miss it by less than the number of winners. */
  lemma FloorsFit(ps: map<Owner, Position>, k: nat, pot: nat, w: nat)
    requires w == Total(ps, On(k)) && w > 0
    ensures var floors := Total(ps, FloorsOn(k, pot, w));
            floors <= pot < floors + Total(ps, CountOn(k))
  {
    FloorsBracket(ps, k, pot, w);
    CountPositive(ps, k);
    BracketMeansSmall(w, pot, Total(ps, FloorsOn(k, pot, w)), Total(ps, CountOn(k)));
  }

  // --- the invariant ----------------------------------------------------------------------------

  /** Pools and positions agree, outcome by outcome and in total. */
  ghost predicate Books(s: State) {
    && MIN_OUTCOMES <= |s.pools| <= MAX_OUTCOMES && s.feeBps <= MAX_FEE_BPS
    && s.totalPool == Sum(s.pools) == Total(s.positions, Stakes)
    && (forall k :: 0 <= k < |s.pools| ==> s.pools[k] == Total(s.positions, On(k)))
    && (forall o :: o in s.positions ==> s.positions[o].amount > 0 && s.positions[o].outcomeIndex < |s.pools|)
  }

  function PaidSum(ps: seq<Payment>): nat {
    if ps == [] then 0 else PaidSum(ps[..|ps| - 1]) + ps[|ps| - 1].amount
  }

  ghost predicate HasReceived(s: State, r: Recipient) {
    exists i :: 0 <= i < |s.payments| && s.payments[i].to == r
  }

  /** Every token staked or sent is in the vault or in exactly one payment; nobody is paid twice. */
  ghost predicate Ledger(s: State) {
    && s.vault + PaidSum(s.payments) == s.totalPool + s.donated
    && (forall i, j :: 0 <= i < j < |s.payments| ==> s.payments[i].to != s.payments[j].to)
    && (HasReceived(s, Treasury) <==> s.feeWithdrawn)
    && (forall o :: HasReceived(s, Bettor(o)) <==> o in s.positions && s.positions[o].claimed)
  }

  ghost predicate Undecided(s: State) {
    && s.winningOutcome == UNSET_OUTCOME && s.totalWinningPool == 0 && s.feeAmount == 0
    && s.paidOut == 0 && s.winningStakeClaimed == 0 && s.payments == []
  }

  /** What winners share: the whole pool without the fee. */
  function Pot(s: State): int {
    s.totalPool - s.feeAmount
  }

  /** A payment on a settled market: the fee, or a winner's floor plus less than one unit per winner. */
  ghost predicate FairPayment(s: State, p: Payment) {
    match p.to
    case Treasury => p.amount == s.feeAmount
    case Bettor(o) =>
      && o in s.positions && s.positions[o].outcomeIndex == s.winningOutcome
      && s.totalWinningPool > 0 && Pot(s) >= 0
      && var floor := Share(s.positions[o].amount, Pot(s), s.totalWinningPool);
         floor <= p.amount < floor + Total(s.positions, CountOn(s.winningOutcome))
  }

  ghost predicate SettledBooks(s: State) {
    var win, w := s.winningOutcome, s.totalWinningPool;
    && win < |s.pools| && w == s.pools[win] && w > 0
    && s.feeAmount == Fee(s.totalPool, s.feeBps) && Pot(s) >= 0
    && s.winningStakeClaimed == Total(s.positions, ClaimedOn(win))
    && PaidSum(s.payments) == s.paidOut + (if s.feeWithdrawn then s.feeAmount else 0)
    && s.paidOut == (if s.winningStakeClaimed < w then Total(s.positions, ClaimedFloors(win, Pot(s), w)) else Pot(s))
    && forall i :: 0 <= i < |s.payments| ==> FairPayment(s, s.payments[i])
  }

  /** A payment on a cancelled market returns a stake exactly. */
  ghost predicate ExactRefund(s: State, p: Payment) {
    p.to.Bettor? && p.to.owner in s.positions && p.amount == s.positions[p.to.owner].amount
  }

  ghost predicate RefundBooks(s: State) {
    && s.totalWinningPool == 0 && s.feeAmount == 0 && s.paidOut == 0 && s.winningStakeClaimed == 0
    && PaidSum(s.payments) == Total(s.positions, ClaimedStakes)
    && forall i :: 0 <= i < |s.payments| ==> ExactRefund(s, s.payments[i])
  }

  ghost predicate Inv(s: State) {
    && Books(s) && Ledger(s)
    && match s.status
       case Open => Undecided(s)
       case Locked => Undecided(s)
       case Settled => SettledBooks(s)
       case Cancelled => RefundBooks(s)
  }

  // --- each instruction keeps it -------------------------------------------------------------------

  lemma {:induction false} SumUpdate(s: seq<nat>, k: nat, v: nat)
    requires k < |s|
    ensures Sum(s[k := v]) == Sum(s) + v - s[k]
  {
    var n := |s| - 1;
    if k == n {
      assert s[k := v][..n] == s[..n];
    } else {
      assert s[k := v][..n] == s[..n][k := v];
      SumUpdate(s[..n], k, v);
    }
  }

  lemma {:induction false} SumOfZeros(s: seq<nat>)
    requires forall i :: 0 <= i < |s| ==> s[i] == 0
    ensures Sum(s) == 0
  {
    if s != [] {
      SumOfZeros(s[..|s| - 1]);
    }
  }

  lemma InitializeInv(now: i64, setup: Setup)
    requires Initialize(now, setup).Ok?
    ensures Inv(Initialize(now, setup).value)
  {
    var s := Initialize(now, setup).value;
    SumOfZeros(s.pools);
    TotalEmpty(Stakes);
    forall k | 0 <= k < |s.pools| ensures s.pools[k] == Total(s.positions, On(k)) {
      TotalEmpty(On(k));
    }
  }

  /** While nothing has been paid no position is claimed. */
  lemma NoneClaimed(s: State)
    requires Ledger(s) && s.payments == []
    ensures forall o :: o in s.positions ==> !s.positions[o].claimed
    ensures forall k :: Total(s.positions, ClaimedOn(k)) == 0
    ensures forall k, pot, w :: Total(s.positions, ClaimedFloors(k, pot, w)) == 0
    ensures Total(s.positions, ClaimedStakes) == 0
  {
    forall o | o in s.positions ensures !s.positions[o].claimed {
      assert !HasReceived(s, Bettor(o));
    }
    forall k ensures Total(s.positions, ClaimedOn(k)) == 0 {
      TotalZero(s.positions, ClaimedOn(k));
    }
    forall k, pot, w ensures Total(s.positions, ClaimedFloors(k, pot, w)) == 0 {
      TotalZero(s.positions, ClaimedFloors(k, pot, w));
    }
    TotalZero(s.positions, ClaimedStakes);
  }

  lemma PlaceBetBooks(s: State, now: i64, bettor: Owner, outcomeIndex: u8, amount: u64, funds: u64)
    requires Inv(s) && PlaceBet(s, now, bettor, outcomeIndex, amount, funds).Ok?
    ensures Books(PlaceBet(s, now, bettor, outcomeIndex, amount, funds).value)
  {
    hide Sum, Total, SettledBooks, RefundBooks, Ledger;
    var s' := PlaceBet(s, now, bettor, outcomeIndex, amount, funds).value;
    var p := s'.positions[bettor];
    SumUpdate(s.pools, outcomeIndex, s.pools[outcomeIndex] + amount);
    TotalPut(s.positions, bettor, p, Stakes);
    forall k | 0 <= k < |s'.pools| ensures s'.pools[k] == Total(s'.positions, On(k)) {
      TotalPut(s.positions, bettor, p, On(k));
    }
  }

  lemma PlaceBetInv(s: State, now: i64, bettor: Owner, outcomeIndex: u8, amount: u64, funds: u64)
    requires Inv(s) && PlaceBet(s, now, bettor, outcomeIndex, amount, funds).Ok?
    ensures Inv(PlaceBet(s, now, bettor, outcomeIndex, amount, funds).value)
  {
    PlaceBetBooks(s, now, bettor, outcomeIndex, amount, funds);
    var s' := PlaceBet(s, now, bettor, outcomeIndex, amount, funds).value;
    NoneClaimed(s);
    assert forall o :: !HasReceived(s', Bettor(o));
    assert !HasReceived(s', Treasury) <==> !HasReceived(s, Treasury);
  }

  /** Instructions that touch neither positions nor payments keep books and ledger. */
  lemma SameMoney(s: State, s': State)
    requires Books(s) && Ledger(s)
    requires s'.pools == s.pools && s'.positions == s.positions && s'.payments == s.payments && s'.vault == s.vault
    requires s'.totalPool == s.totalPool && s'.feeBps == s.feeBps && s'.feeWithdrawn == s.feeWithdrawn
    requires s'.donated == s.donated
    ensures Books(s') && Ledger(s')
  {
    assert forall r :: HasReceived(s', r) <==> HasReceived(s, r);
  }

  lemma LockInv(s: State, now: i64)
    requires Inv(s) && Lock(s, now).Ok?
    ensures Inv(Lock(s, now).value)
  {
    SameMoney(s, Lock(s, now).value);
  }

  lemma AttachSpecInv(s: State, spec: ComboSpec)
    requires Inv(s) && AttachSpec(s, spec).Ok?
    ensures Inv(AttachSpec(s, spec).value)
  {
    hide SpecVerdict;
    SameMoney(s, AttachSpec(s, spec).value);
  }

  /** What a payment was does not depend on tokens that arrive later. */
  lemma TransferKeepsPayment(s: State, tokens: nat, p: Payment)
    ensures FairPayment(Transfer(s, tokens), p) == FairPayment(s, p)
    ensures ExactRefund(Transfer(s, tokens), p) == ExactRefund(s, p)
    ensures HasReceived(Transfer(s, tokens), p.to) == HasReceived(s, p.to)
  {
  }

  lemma TransferInv(s: State, tokens: nat)
    requires Inv(s)
    ensures Inv(Transfer(s, tokens))
  {
    hide FairPayment, ExactRefund, HasReceived;
    var s' := Transfer(s, tokens);
    forall r ensures HasReceived(s', r) <==> HasReceived(s, r) {
      TransferKeepsPayment(s, tokens, Payment(r, 0));
    }
    forall i | 0 <= i < |s.payments|
      ensures FairPayment(s', s.payments[i]) == FairPayment(s, s.payments[i])
      ensures ExactRefund(s', s.payments[i]) == ExactRefund(s, s.payments[i])
    {
      TransferKeepsPayment(s, tokens, s.payments[i]);
    }
  }

  lemma CancelInv(s: State, now: i64)
    requires Inv(s) && Cancel(s, now).Ok?
    ensures Inv(Cancel(s, now).value)
  {
    SameMoney(s, Cancel(s, now).value);
    NoneClaimed(s);
  }

  lemma SettleInv(s: State, v3: bool, claimed: u8, verdict: Result<bool, SettleError>)
    requires Inv(s) && Settle(s, v3, claimed, verdict).Ok?
    ensures Inv(Settle(s, v3, claimed, verdict).value)
  {
    var s' := Settle(s, v3, claimed, verdict).value;
    SameMoney(s, s');
    NoneClaimed(s);
    if s.pools[claimed] > 0 {
      NothingOverflows(0, s.totalPool, s.pools[claimed], s.feeBps);
    }
  }

  lemma PaidSumSnoc(ps: seq<Payment>, p: Payment)
    ensures PaidSum(ps + [p]) == PaidSum(ps) + p.amount
  {
    assert (ps + [p])[..|ps|] == ps;
  }

  /** Paying `p` out of the vault to someone not yet paid keeps the ledger. */
  lemma PayLedger(s: State, s': State, p: Payment)
    requires Ledger(s) && !HasReceived(s, p.to) && p.amount <= s.vault
    requires s'.payments == s.payments + [p] && s'.vault == s.vault - p.amount && s'.totalPool == s.totalPool
    requires s'.donated == s.donated
    requires s'.feeWithdrawn == (s.feeWithdrawn || p.to == Treasury)
    requires forall o :: (o in s'.positions && s'.positions[o].claimed)
                         <==> (o in s.positions && s.positions[o].claimed) || p.to == Bettor(o)
    ensures Ledger(s')
  {
    PaidSumSnoc(s.payments, p);
    forall r ensures HasReceived(s', r) <==> HasReceived(s, r) || r == p.to {
      assert s'.payments[|s.payments|] == p;
      if HasReceived(s, r) {
        var i :| 0 <= i < |s.payments| && s.payments[i].to == r;
        assert s'.payments[i].to == r;
      }
    }
    forall i, j | 0 <= i < j < |s'.payments| ensures s'.payments[i].to != s'.payments[j].to {
      if j == |s.payments| {
        assert HasReceived(s, s.payments[i].to);
      }
    }
  }

  /** Marking a position as claimed changes no stake. */
  lemma ClaimKeepsBooks(s: State, s': State, o: Owner)
    requires Books(s) && o in s.positions
    requires s'.positions == s.positions[o := s.positions[o].(claimed := true)]
    requires s'.pools == s.pools && s'.totalPool == s.totalPool && s'.feeBps == s.feeBps
    ensures Books(s')
    ensures forall k :: Total(s'.positions, On(k)) == Total(s.positions, On(k))
    ensures forall k :: Total(s'.positions, CountOn(k)) == Total(s.positions, CountOn(k))
    ensures forall k, pot, w :: Total(s'.positions, FloorsOn(k, pot, w)) == Total(s.positions, FloorsOn(k, pot, w))
  {
    var p := s.positions[o].(claimed := true);
    TotalPut(s.positions, o, p, Stakes);
    forall k ensures Total(s'.positions, On(k)) == Total(s.positions, On(k)) {
      TotalPut(s.positions, o, p, On(k));
    }
    forall k ensures Total(s'.positions, CountOn(k)) == Total(s.positions, CountOn(k)) {
      TotalPut(s.positions, o, p, CountOn(k));
    }
    forall k, pot, w ensures Total(s'.positions, FloorsOn(k, pot, w)) == Total(s.positions, FloorsOn(k, pot, w)) {
      TotalPut(s.positions, o, p, FloorsOn(k, pot, w));
    }
  }

  /** What a refund changes. */
  lemma RefundStep(s: State, owner: Owner)
    requires Inv(s) && ClaimRefund(s, owner).Ok?
    ensures var s' := ClaimRefund(s, owner).value;
            var pay := Payment(Bettor(owner), s.positions[owner].amount);
            && owner in s.positions && !s.positions[owner].claimed && pay.amount <= s.vault
            && s.status == Cancelled && Books(s) && Ledger(s) && RefundBooks(s) && !HasReceived(s, pay.to)
            && s' == s.(positions := s.positions[owner := s.positions[owner].(claimed := true)],
                        vault := s.vault - pay.amount, payments := s.payments + [pay])
  {
    hide Share, Fee, Sum, Total, Books, SettledBooks, Undecided, RefundBooks, PaidSum;
  }

  lemma RefundBooksStep(s: State, s': State, owner: Owner)
    requires RefundBooks(s) && owner in s.positions && !s.positions[owner].claimed
    requires s' == s.(positions := s.positions[owner := s.positions[owner].(claimed := true)], vault := s'.vault,
                      payments := s.payments + [Payment(Bettor(owner), s.positions[owner].amount)])
    ensures RefundBooks(s')
  {
    hide Share, Fee, Sum, Total, Books, SettledBooks, Undecided, PaidSum;
    var p := s.positions[owner].(claimed := true);
    TotalPut(s.positions, owner, p, ClaimedStakes);
    PaidSumSnoc(s.payments, Payment(Bettor(owner), s.positions[owner].amount));
    RefundsStayExact(s, s', owner);
  }

  lemma ClaimRefundInv(s: State, owner: Owner)
    requires Inv(s) && ClaimRefund(s, owner).Ok?
    ensures Inv(ClaimRefund(s, owner).value)
  {
    hide Share, Fee, Sum, Total, Books, Ledger, SettledBooks, RefundBooks, Undecided, HasReceived, PaidSum, ClaimRefund;
    var s' := ClaimRefund(s, owner).value;
    RefundStep(s, owner);
    PayLedger(s, s', Payment(Bettor(owner), s.positions[owner].amount));
    ClaimKeepsBooks(s, s', owner);
    RefundBooksStep(s, s', owner);
  }

  lemma RefundsStayExact(s: State, s': State, owner: Owner)
    requires owner in s.positions
    requires forall i :: 0 <= i < |s.payments| ==> ExactRefund(s, s.payments[i])
    requires s'.positions == s.positions[owner := s.positions[owner].(claimed := true)]
    requires s'.payments == s.payments + [Payment(Bettor(owner), s.positions[owner].amount)]
    ensures forall i :: 0 <= i < |s'.payments| ==> ExactRefund(s', s'.payments[i])
  {
    forall i | 0 <= i < |s'.payments| ensures ExactRefund(s', s'.payments[i]) {
      if i < |s.payments| {
        assert ExactRefund(s, s.payments[i]);
      }
    }
  }

  // --- claims -----------------------------------------------------------------------------------------

  /** All winning stake claimed means every winner claimed. */
  lemma AllStakeClaimed(ps: map<Owner, Position>, k: nat)
    requires forall o :: o in ps ==> ps[o].amount > 0
    requires Total(ps, ClaimedOn(k)) == Total(ps, On(k))
    ensures forall o :: o in ps && ps[o].outcomeIndex == k ==> ps[o].claimed
  {
    forall o | o in ps && ps[o].outcomeIndex == k ensures ps[o].claimed {
      TotalRemove(ps, o, ClaimedOn(k));
      TotalRemove(ps, o, On(k));
      TotalMonotone(ps - {o}, ClaimedOn(k), On(k));
    }
  }

  lemma ClaimedFloorsAreAll(ps: map<Owner, Position>, k: nat, pot: nat, w: nat)
    requires forall o :: o in ps && ps[o].outcomeIndex == k ==> ps[o].claimed
    ensures Total(ps, ClaimedFloors(k, pot, w)) == Total(ps, FloorsOn(k, pot, w))
  {
    TotalMonotone(ps, ClaimedFloors(k, pot, w), FloorsOn(k, pot, w));
    TotalMonotone(ps, FloorsOn(k, pot, w), ClaimedFloors(k, pot, w));
  }

  /** A winner who has not claimed yet. */
  ghost predicate OpenClaim(s: State, owner: Owner) {
    && s.status == Settled && owner in s.positions
    && !s.positions[owner].claimed && s.positions[owner].outcomeIndex == s.winningOutcome
  }

  /** What is staked and owed around one open claim. */
  lemma OpenClaimSums(s: State, owner: Owner)
    requires Inv(s) && OpenClaim(s, owner)
    ensures var win, w, stake, pot := s.winningOutcome, s.totalWinningPool, s.positions[owner].amount, Pot(s);
            var ps := s.positions[owner := s.positions[owner].(claimed := true)];
            && pot >= 0 && 0 < stake
            && s.winningStakeClaimed + stake == Total(ps, ClaimedOn(win)) <= w
            && s.paidOut == Total(s.positions, ClaimedFloors(win, pot, w))
            && s.paidOut + Share(stake, pot, w) == Total(ps, ClaimedFloors(win, pot, w))
            && Total(ps, ClaimedFloors(win, pot, w)) <= Total(s.positions, FloorsOn(win, pot, w))
            && (s.winningStakeClaimed + stake == w ==>
                  Total(ps, ClaimedFloors(win, pot, w)) == Total(s.positions, FloorsOn(win, pot, w)))
  {
    var win, w, stake, pot := s.winningOutcome, s.totalWinningPool, s.positions[owner].amount, Pot(s);
    var p := s.positions[owner].(claimed := true);
    var ps := s.positions[owner := p];
    TotalPut(s.positions, owner, p, ClaimedOn(win));
    TotalPut(s.positions, owner, p, On(win));
    TotalPut(s.positions, owner, p, FloorsOn(win, pot, w));
    TotalPut(s.positions, owner, p, ClaimedFloors(win, pot, w));
    TotalMonotone(ps, ClaimedOn(win), On(win));
    TotalMonotone(ps, ClaimedFloors(win, pot, w), FloorsOn(win, pot, w));
    if s.winningStakeClaimed + stake == w {
      AllStakeClaimed(ps, win);
      ClaimedFloorsAreAll(ps, win, pot, w);
    }
  }

  /** What a claim pays: no checked step fails, the vault covers it, the floor is met. */
  lemma ClaimPays(s: State, owner: Owner)
    requires Inv(s) && OpenClaim(s, owner)
    ensures var stake, pot, w := s.positions[owner].amount, Pot(s), s.totalWinningPool;
            var isLast := s.winningStakeClaimed + stake == w;
            && pot >= 0 && s.winningStakeClaimed + stake <= w
            && ClaimAmount(s, stake) == Ok(if isLast then pot - s.paidOut else Share(stake, pot, w))
            && s.paidOut + Share(stake, pot, w) <= pot <= s.vault + s.paidOut
            && (isLast ==> pot - s.paidOut < Share(stake, pot, w) + Total(s.positions, CountOn(s.winningOutcome)))
            && Total(s.positions, CountOn(s.winningOutcome)) > 0
  {
    var stake, pot, w := s.positions[owner].amount, Pot(s), s.totalWinningPool;
    OpenClaimSums(s, owner);
    FloorsFit(s.positions, s.winningOutcome, pot, w);
    NothingOverflows(stake, s.totalPool, w, s.feeBps);
    CountPositive(s.positions, s.winningOutcome);
  }

  /** No winner is ever stuck: an open claim on a settled market succeeds. */
  lemma ClaimNeverStuck(s: State, owner: Owner)
    requires Inv(s) && OpenClaim(s, owner)
    ensures ClaimWinnings(s, owner).Ok?
  {
    ClaimPays(s, owner);
  }

  lemma ClaimWinningsInv(s: State, owner: Owner)
    requires Inv(s) && ClaimWinnings(s, owner).Ok?
    ensures Inv(ClaimWinnings(s, owner).value)
  {
    var s' := ClaimWinnings(s, owner).value;
    var stake, pot, w := s.positions[owner].amount, Pot(s), s.totalWinningPool;
    OpenClaimSums(s, owner);
    ClaimPays(s, owner);
    var pay := s'.payments[|s.payments|];
    assert !HasReceived(s, Bettor(owner));
    PayLedger(s, s', pay);
    ClaimKeepsBooks(s, s', owner);
    PaidSumSnoc(s.payments, pay);
    ClaimSettledBooks(s, s', owner, pay);
  }

  /** The stakes, the pot and the number of winners are those of `s`. */
  ghost predicate SameShares(s: State, s': State) {
    && s'.totalPool == s.totalPool && s'.feeAmount == s.feeAmount
    && s'.winningOutcome == s.winningOutcome && s'.totalWinningPool == s.totalWinningPool
    && Total(s'.positions, CountOn(s.winningOutcome)) == Total(s.positions, CountOn(s.winningOutcome))
    && forall o :: o in s.positions ==>
         o in s'.positions && s'.positions[o].amount == s.positions[o].amount
         && s'.positions[o].outcomeIndex == s.positions[o].outcomeIndex
  }

  /** Fairness of a payment does not depend on which positions are claimed. */
  lemma FairFrame(s: State, s': State, p: Payment)
    requires FairPayment(s, p) && SameShares(s, s')
    ensures FairPayment(s', p)
  {
    hide Share, Total;
  }

  lemma PaymentsStayFair(s: State, s': State, pay: Payment)
    requires forall i :: 0 <= i < |s.payments| ==> FairPayment(s, s.payments[i])
    requires s'.payments == s.payments + [pay] && FairPayment(s', pay) && SameShares(s, s')
    ensures forall i :: 0 <= i < |s'.payments| ==> FairPayment(s', s'.payments[i])
  {
    hide FairPayment, SameShares;
    forall i | 0 <= i < |s'.payments| ensures FairPayment(s', s'.payments[i]) {
      if i < |s.payments| {
        FairFrame(s, s', s.payments[i]);
      }
    }
  }

  /** The payment of a claim is fair. */
  lemma ClaimIsFair(s: State, owner: Owner, pay: Payment)
    requires Inv(s) && OpenClaim(s, owner)
    requires Ok(pay.amount) == ClaimAmount(s, s.positions[owner].amount) && pay.to == Bettor(owner)
    ensures FairPayment(s, pay)
  {
    ClaimPays(s, owner);
    hide Share, Total, Fee, Sum, ClaimAmount, Ledger, Books;
  }

  lemma ClaimSameShares(s: State, s': State, owner: Owner)
    requires owner in s.positions
    requires s'.totalPool == s.totalPool && s'.feeAmount == s.feeAmount
    requires s'.winningOutcome == s.winningOutcome && s'.totalWinningPool == s.totalWinningPool
    requires s'.positions == s.positions[owner := s.positions[owner].(claimed := true)]
    ensures SameShares(s, s')
  {
    TotalPut(s.positions, owner, s.positions[owner].(claimed := true), CountOn(s.winningOutcome));
    hide Total;
  }

  lemma ClaimSettledBooks(s: State, s': State, owner: Owner, pay: Payment)
    requires Inv(s) && OpenClaim(s, owner)
    requires s' == s.(paidOut := s'.paidOut, winningStakeClaimed := s'.winningStakeClaimed, vault := s'.vault,
                      positions := s.positions[owner := s.positions[owner].(claimed := true)],
                      payments := s.payments + [pay])
    requires s'.winningStakeClaimed == s.winningStakeClaimed + s.positions[owner].amount
    requires Ok(pay.amount) == ClaimAmount(s, s.positions[owner].amount) && pay.to == Bettor(owner)
    requires s'.paidOut == s.paidOut + pay.amount
    ensures SettledBooks(s')
  {
    OpenClaimSums(s, owner);
    ClaimPays(s, owner);
    ClaimIsFair(s, owner, pay);
    PaidSumSnoc(s.payments, pay);
    ClaimSameShares(s, s', owner);
    hide Share, Total, Fee, Sum, ClaimAmount, Ledger, Books, FairPayment, SameShares;
    FairFrame(s, s', pay);
    PaymentsStayFair(s, s', pay);
  }

  /** The fee is always covered by the vault. */
  lemma FeeCovered(s: State)
    requires Inv(s) && s.status == Settled && !s.feeWithdrawn
    ensures s.feeAmount <= s.vault
  {
    if s.winningStakeClaimed < s.totalWinningPool {
      var win, w, pot := s.winningOutcome, s.totalWinningPool, Pot(s);
      TotalMonotone(s.positions, ClaimedFloors(win, pot, w), FloorsOn(win, pot, w));
      FloorsFit(s.positions, win, pot, w);
    }
  }

  lemma WithdrawFeesInv(s: State)
    requires Inv(s) && WithdrawFees(s).Ok?
    ensures Inv(WithdrawFees(s).value)
  {
    hide Share, Fee, Sum, Total, PaidSum;
    var s' := WithdrawFees(s).value;
    var pay := Payment(Treasury, s.feeAmount);
    PayLedger(s, s', pay);
    PaidSumSnoc(s.payments, pay);
    PaymentsStayFair(s, s', pay);
  }

  // --- every run ------------------------------------------------------------------------------------------

  /** Every instruction, successful or not, keeps the invariant. */
  lemma StepInv(s: State, i: Instruction)
    requires Inv(s)
    ensures Inv(After(s, i))
  {
    if Execute(s, i).Ok? {
      match i
      case DoAttachSpec(spec) => AttachSpecInv(s, spec);
      case DoTransfer(tokens) => TransferInv(s, tokens);
      case DoPlaceBet(now, bettor, outcome, amount, funds) => PlaceBetInv(s, now, bettor, outcome, amount, funds);
      case DoLock(now) => LockInv(s, now);
      case DoSettle(v3, claimed, verdict) => SettleInv(s, v3, claimed, verdict);
      case DoCancel(now) => CancelInv(s, now);
      case DoClaimWinnings(owner) => ClaimWinningsInv(s, owner);
      case DoClaimRefund(owner) => ClaimRefundInv(s, owner);
      case DoWithdrawFees => WithdrawFeesInv(s);
    }
  }

  lemma {:induction false} RunInv(s: State, run: seq<Instruction>)
    requires Inv(s)
    ensures Inv(Run(s, run))
    decreases |run|
  {
    if run != [] {
      StepInv(s, run[0]);
      RunInv(After(s, run[0]), run[1..]);
    }
  }
}
