/**
 * The keeper over whole runs: what it records is true across crashes, exactly when each
 * read it records is terminal; and a sweep without failures resolves every due market.
 */
module KeeperTheorems {
  import opened Wrappers
  import opened Numbers
  import S = Settlement
  import Escrow
  import opened EscrowTheorems
  import opened Keeper
  import opened KeeperSafety

  // --- safety over every interleaving ---------------------------------------------------------

  /** A process that has just loaded its store. */
  ghost predicate Boots(s: State) {
    s.threads == [] && s.sweeps == [] && !s.sweeping && s.inFlight == {} && Truthful(s)
  }

  lemma BootOrderly(s: State)
    requires Boots(s)
    ensures Orderly(s)
  {
  }

  /**
   * However sweeps, attempts and outsiders interleave, and whatever the reads show: each
   * market has at most one chain of attempts, within budget, and there is at most one sweep.
   */
  lemma AttemptsNeverOverlap(s: State, events: seq<Event>)
    requires Boots(s)
    ensures var s' := Run(s, events);
            OneEach(s') && forall i :: 0 <= i < |s'.threads| ==> 1 <= s'.threads[i].n <= Budget(s')
  {
    hide Truthful, OneEach, Run;
    BootOrderly(s);
    RunOrderly(s, events);
    var s' := Run(s, events);
    forall i | 0 <= i < |s'.threads| ensures 1 <= s'.threads[i].n <= Budget(s') {
      assert ThreadOk(s', s'.threads[i]);
    }
  }

  /**
   * In every interleaving in which each read that is recorded shows a terminal status,
   * recorded outcomes and receipts are the chain's. Every read may be stale.
   */
  lemma NeverContradictsChain(s: State, events: seq<Event>)
    requires Boots(s) && AllRecordTerminal(s, events)
    ensures Truthful(Run(s, events))
  {
    hide Run, AllRecordTerminal;
    BootOrderly(s);
    RunTruthful(s, events);
  }

  /** A read that shows the present state of the market satisfies the condition by itself. */
  lemma CurrentReadsAreTerminal(s: State, e: Event)
    requires Orderly(s)
    requires Records(s, e) ==> var k := s.threads[e.i].market; k in s.chain && e.t.read.m == s.chain[k]
    ensures RecordsTerminal(s, e)
  {
    if Records(s, e) {
      ThreadFact(s, e.i);
    }
  }

  // --- the chain only moves forward --------------------------------------------------------------

  /** Everything but the threads and what is recorded is as before. */
  ghost predicate SameWorld(s: State, s': State) {
    && s'.chain == s.chain && s'.maxAttempts == s.maxAttempts && s'.sweeps == s.sweeps
    && s'.records.Keys == s.records.Keys
  }

  lemma FailKeepsWorld(s: State, i: nat, retriable: bool)
    requires i < |s.threads|
    ensures SameWorld(s, Fail(s, i, retriable))
  {
  }

  lemma ResolveKeepsWorld(s: State, k: Key, seen: OnChain)
    ensures SameWorld(s, Resolve(s, k, seen)) && |Resolve(s, k, seen).threads| == |s.threads|
  {
  }

  /** A settlement attempt touches the chain only by settling a locked market. */
  lemma ThreadEffect(s: State, i: nat, e: ThreadEvent)
    requires i < |s.threads|
    ensures var s' := ThreadStep(s, i, e);
            || SameWorld(s, s')
            || (&& e.SettleLands? && s.threads[i].market in s.chain && Moves(s.chain[s.threads[i].market], e.to)
                && SameWorld(s.(chain := s.chain[s.threads[i].market := e.to]), s'))
  {
    hide CanRead, Fail, Resolve;
    var k := s.threads[i].market;
    FailKeepsWorld(s, i, true);
    FailKeepsWorld(s, i, false);
    match (s.threads[i].pc, e)
    case (Backfilling(seen), GotProof(_, _, _)) => ResolveKeepsWorld(s, k, seen);
    case (_, GotMarket(read, _)) =>
      if read.Seen? {
        ResolveKeepsWorld(s, k, read.m);
      }
    case _ =>
  }

  lemma ThreadGrows(s: State, i: nat, e: ThreadEvent)
    requires i < |s.threads|
    ensures var s' := ThreadStep(s, i, e);
            Grows(s, s') && s'.records.Keys == s.records.Keys && s'.sweeps == s.sweeps
  {
    hide ThreadStep;
    ThreadEffect(s, i, e);
  }

  lemma BackstopKeepsChain(s: State, i: nat, k: Key)
    requires i < |s.sweeps| && k in s.records
    ensures var s' := Backstop(s, i, k);
            s'.chain == s.chain && s'.maxAttempts == s.maxAttempts && s'.records == s.records
  {
  }

  /** A sweep's own transactions lock an open market or cancel a locked one. */
  lemma SweepLands(s: State, i: nat)
    requires i < |s.sweeps|
    ensures Grows(s, SweepStep(s, i, TxLands)) && SweepStep(s, i, TxLands).records.Keys == s.records.Keys
  {
    hide CanRead, Backstop;
  }

  /** Between them it touches only records. */
  lemma SweepKeepsChain(s: State, i: nat, e: SweepEvent)
    requires i < |s.sweeps| && e != TxLands
    ensures var s' := SweepStep(s, i, e);
            s'.chain == s.chain && s'.maxAttempts == s.maxAttempts && s'.records.Keys == s.records.Keys
  {
    hide CanRead, Backstop;
    var w := s.sweeps[i];
    match w.pc
    case Picking =>
      if e.Pick? && e.k in s.records {
        BackstopKeepsChain(s.(sweeps := s.sweeps[i := w.(todo := w.todo - {e.k})]), i, e.k);
      }
    case LockReading(k) =>
      if k in s.records {
        BackstopKeepsChain(s, i, k);
        BackstopKeepsChain(SetPhase(s, k, LockedPhase), i, k);
      }
    case Locking(k, _) =>
      if k in s.records {
        BackstopKeepsChain(s, i, k);
        BackstopKeepsChain(SetPhase(s, k, LockedPhase), i, k);
      }
    case _ =>
  }

  lemma SweepGrows(s: State, i: nat, e: SweepEvent)
    requires i < |s.sweeps|
    ensures Grows(s, SweepStep(s, i, e)) && SweepStep(s, i, e).records.Keys == s.records.Keys
  {
    hide SweepStep;
    if e == TxLands {
      SweepLands(s, i);
    } else {
      SweepKeepsChain(s, i, e);
    }
  }

  lemma StepGrows(s: State, e: Event)
    ensures Grows(s, Step(s, e)) && s.records.Keys <= Step(s, e).records.Keys
  {
    hide ThreadStep, SweepStep, CanRead;
    match e
    case OfThread(i, t) =>
      if i < |s.threads| {
        ThreadGrows(s, i, t);
      }
    case OfSweep(i, v) =>
      if i < |s.sweeps| {
        SweepGrows(s, i, v);
      }
    case _ =>
  }

  lemma GrowsTransitive(a: State, b: State, c: State)
    requires Grows(a, b) && Grows(b, c)
    ensures Grows(a, c)
  {
  }

  /** No transaction of anybody undoes a resolution: a market resolves once, for good. */
  lemma {:induction false} RunGrows(s: State, events: seq<Event>)
    ensures Grows(s, Run(s, events))
    decreases |events|
  {
    hide Step, Grows;
    if events == [] {
      assert Grows(s, s) by {
        GrowsReflexive(s);
      }
    } else {
      StepGrows(s, events[0]);
      RunGrows(Step(s, events[0]), events[1..]);
      GrowsTransitive(s, Step(s, events[0]), Run(s, events));
    }
  }

  lemma GrowsReflexive(s: State)
    ensures Grows(s, s)
  {
  }

  lemma {:induction false} RunConcat(s: State, a: seq<Event>, b: seq<Event>)
    ensures Run(s, a + b) == Run(Run(s, a), b)
    decreases |a|
  {
    hide Step;
    if a == [] {
      assert a + b == b;
    } else {
      assert (a + b)[1..] == a[1..] + b;
      RunConcat(Step(s, a[0]), a[1..], b);
    }
  }

  /** What a crash leaves: today's chain, and the memory as it was saved at some earlier time. */
  function Reloaded(now: State, saved: State): State {
    State(now.chain, saved.records, saved.receipts, {}, [], false, [], now.maxAttempts)
  }

  /** A restart from any earlier snapshot of the store is safe. */
  lemma RestartIsSafe(s: State, before: seq<Event>, since: seq<Event>, after: seq<Event>)
    requires Boots(s) && AllRecordTerminal(s, before)
    requires AllRecordTerminal(Reloaded(Run(s, before + since), Run(s, before)), after)
    ensures Truthful(Run(Reloaded(Run(s, before + since), Run(s, before)), after))
  {
    hide Truthful, Run, Grows, AllRecordTerminal;
    var saved := Run(s, before);
    RunConcat(s, before, since);
    var crashed := Run(saved, since);
    NeverContradictsChain(s, before);
    RunGrows(saved, since);
    OldTruthStands(saved, crashed);
    NeverContradictsChain(Reloaded(crashed, saved), after);
  }

  lemma OldTruthStands(saved: State, now: State)
    requires Truthful(saved) && Grows(saved, now)
    ensures Truthful(Reloaded(now, saved))
  {
  }

  // --- which reads may be recorded ---------------------------------------------------------------------

  /** One market in flight, its attempt suspended at `pc`. */
  function InFlight(m: OnChain, phase: Phase, pc: Attempt): State {
    State(map[0 := m], map[0 := Record(phase, 0, 10)], map[], {0}, [Thread(0, 1, pc)], false, [], 12)
  }

  /** The same market before it was finalised. */
  function Tracked(m: OnChain): State {
    State(map[0 := m], map[0 := Record(LockedPhase, 0, 10)], map[], {}, [], false, [], 12)
  }

  /** Finalise, read, prove, submit, confirm. */
  function OneSettlement(locked: OnChain, settled: OnChain): seq<Event> {
    [Finalise(0), OfThread(0, GotMarket(Seen(locked), true)), OfThread(0, GotProof(true, 2, true)),
     OfThread(0, SettleLands(settled)), OfThread(0, GotReply(Confirmed, true))]
  }

  lemma TrackedBoots(locked: OnChain)
    requires locked.status == Escrow.Locked
    ensures Boots(Tracked(locked)) && Step(Tracked(locked), Finalise(0)) == InFlight(locked, Settling, Fetching)
  {
  }

  lemma ReadProveSubmit(locked: OnChain)
    requires locked.status == Escrow.Locked
    ensures Step(InFlight(locked, Settling, Fetching), OfThread(0, GotMarket(Seen(locked), true)))
            == InFlight(locked, Settling, Proving)
    ensures Step(InFlight(locked, Settling, Proving), OfThread(0, GotProof(true, 2, true)))
            == InFlight(locked, Settling, Submitting(2, false))
  {
  }

  lemma LandConfirm(locked: OnChain, settled: OnChain)
    requires locked.status == Escrow.Locked && settled == OnChain(Escrow.Settled, 2)
    ensures Step(InFlight(locked, Settling, Submitting(2, false)), OfThread(0, SettleLands(settled)))
            == InFlight(settled, Settling, Submitting(2, true))
    ensures Step(InFlight(settled, Settling, Submitting(2, true)), OfThread(0, GotReply(Confirmed, true)))
            == InFlight(settled, Settling, Confirming)
  {
  }

  lemma FiveSteps(s0: State, e: seq<Event>, s1: State, s2: State, s3: State, s4: State, s5: State)
    requires |e| == 5 && Step(s0, e[0]) == s1 && Step(s1, e[1]) == s2 && Step(s2, e[2]) == s3
    requires Step(s3, e[3]) == s4 && Step(s4, e[4]) == s5
    requires RecordsTerminal(s0, e[0]) && RecordsTerminal(s1, e[1]) && RecordsTerminal(s2, e[2])
    requires RecordsTerminal(s3, e[3]) && RecordsTerminal(s4, e[4])
    ensures Run(s0, e) == s5 && AllRecordTerminal(s0, e)
  {
    hide Step, RecordsTerminal;
    assert Run(s5, e[5..]) == s5 && AllRecordTerminal(s5, e[5..]);
    assert e[4..][1..] == e[5..] && e[3..][1..] == e[4..] && e[2..][1..] == e[3..] && e[1..][1..] == e[2..];
    assert Run(s4, e[4..]) == s5 && AllRecordTerminal(s4, e[4..]);
    assert Run(s3, e[3..]) == s5 && AllRecordTerminal(s3, e[3..]);
    assert Run(s2, e[2..]) == s5 && AllRecordTerminal(s2, e[2..]);
    assert Run(s1, e[1..]) == s5 && AllRecordTerminal(s1, e[1..]);
  }

  /** An ordinary settlement, up to the confirming read. */
  lemma SettlementConfirms(locked: OnChain, settled: OnChain)
    requires locked.status == Escrow.Locked && settled == OnChain(Escrow.Settled, 2)
    ensures Run(Tracked(locked), OneSettlement(locked, settled)) == InFlight(settled, Settling, Confirming)
    ensures AllRecordTerminal(Tracked(locked), OneSettlement(locked, settled))
  {
    hide Step, Run, AllRecordTerminal, Tracked;
    TrackedBoots(locked);
    ReadProveSubmit(locked);
    LandConfirm(locked, settled);
    FiveSteps(Tracked(locked), OneSettlement(locked, settled), InFlight(locked, Settling, Fetching),
              InFlight(locked, Settling, Proving), InFlight(locked, Settling, Submitting(2, false)),
              InFlight(settled, Settling, Submitting(2, true)), InFlight(settled, Settling, Confirming));
  }

  lemma Misrecorded(settled: OnChain, m: OnChain)
    requires settled.status == Escrow.Settled && !Terminal(m.status)
    ensures !Truthful(Step(InFlight(settled, Settling, Confirming), OfThread(0, GotMarket(Seen(m), true))))
  {
    var s := Step(InFlight(settled, Settling, Confirming), OfThread(0, GotMarket(Seen(m), true)));
    assert s == InFlight(settled, CancelledPhase, Finished);
    assert 0 in s.records && IsOver(s.records[0].phase);
  }

  /** After some run that was right so far, recording this read makes the memory wrong. */
  ghost predicate CanMislead(m: OnChain) {
    exists s: State, events, i, retriable ::
      Boots(s) && AllRecordTerminal(s, events)
      && !Truthful(Step(Run(s, events), OfThread(i, GotMarket(Seen(m), retriable))))
  }

  /**
   * The condition on reads is exact: a terminal read never misleads, in no run and at no
   * point of it, and every other read does in some run.
   */
  lemma ReadIsSafeIffTerminal(m: OnChain)
    ensures !CanMislead(m) <==> Terminal(m.status)
  {
    hide Run, Step, Boots, Truthful, AllRecordTerminal;
    if Terminal(m.status) {
      forall s: State, events, i, retriable | Boots(s) && AllRecordTerminal(s, events)
        ensures Truthful(Step(Run(s, events), OfThread(i, GotMarket(Seen(m), retriable))))
      {
        BootOrderly(s);
        NeverContradictsChain(s, events);
        RunOrderly(s, events);
        StepKeeps(Run(s, events), OfThread(i, GotMarket(Seen(m), retriable)));
      }
    } else {
      var locked, settled := OnChain(Escrow.Locked, 0), OnChain(Escrow.Settled, 2);
      TrackedBoots(locked);
      SettlementConfirms(locked, settled);
      Misrecorded(settled, m);
      var s, events := Tracked(locked), OneSettlement(locked, settled);
      assert Boots(s) && AllRecordTerminal(s, events)
        && !Truthful(Step(Run(s, events), OfThread(0, GotMarket(Seen(m), true))));
    }
  }

  // --- the backstop ------------------------------------------------------------------------------------

  /** The sweep is between the check that found `k` due and the end of its visit. */
  ghost predicate Acting(s: State, k: Key) {
    && |s.sweeps| == 1 && k in s.records
    && match s.sweeps[0].pc
       case CancelReading(m, due) => m == k && due
       case Cancelling(m, due, _) => m == k && due
       case _ => false
  }

  predicate Stuck(p: Phase) {
    p == LockedPhase || p == Settling || p == ErrorPhase
  }

  /** The sweep's own reads succeed, before a cancel they are current, and its transactions succeed. */
  ghost predicate FailureFreeStep(s: State, e: Event) {
    match e
    case OfSweep(0, SweepRead(read)) =>
      |s.sweeps| == 1 ==>
        && read != Unreadable
        && (s.sweeps[0].pc.CancelReading? ==>
              read.Seen? && s.sweeps[0].pc.k in s.chain && read.m == s.chain[s.sweeps[0].pc.k])
    case OfSweep(0, TxReplied(ok)) => ok
    case _ => true
  }

  ghost predicate FailureFree(s: State, events: seq<Event>)
    decreases |events|
  {
    events == [] || (FailureFreeStep(s, events[0]) && FailureFree(Step(s, events[0]), events[1..]))
  }

  ghost predicate Closed(s: State, k: Key) {
    k in s.records && IsOver(s.records[k].phase)
  }

  lemma ActingStep(s: State, e: Event, k: Key)
    requires Orderly(s) && Acting(s, k) && FailureFreeStep(s, e)
    ensures Acting(Step(s, e), k) || Closed(Step(s, e), k)
  {
    hide ThreadStep;
    assert SweepOk(s, s.sweeps[0]);
    match e
    case OfThread(i, t) =>
      if i < |s.threads| {
        ThreadGrows(s, i, t);
      }
    case _ =>
  }

  /** The sweep has yet to pick `k`, a stuck record past its deadline whose market is past Open. */
  ghost predicate Waiting(s: State, k: Key) {
    && s.sweeping && |s.sweeps| == 1 && k in s.sweeps[0].todo
    && k in s.records && Stuck(s.records[k].phase)
    && s.sweeps[0].now > s.records[k].lockTime + s.records[k].resolutionTimeout
    && k in s.chain && s.chain[k].status != Escrow.Open
  }

  /** What every event leaves of a record: its times, and that it was created long ago. */
  ghost predicate SameTerms(s: State, s': State, k: Key) {
    && k in s.records && k in s'.records
    && s'.records[k].lockTime == s.records[k].lockTime
    && s'.records[k].resolutionTimeout == s.records[k].resolutionTimeout
    && (s'.records[k].phase == Created ==> s.records[k].phase == Created)
  }

  lemma FailKeepsTerms(s: State, i: nat, retriable: bool, k: Key)
    requires i < |s.threads| && k in s.records
    ensures SameTerms(s, Fail(s, i, retriable), k)
  {
  }

  lemma ResolveKeepsTerms(s: State, m: Key, seen: OnChain, k: Key)
    requires k in s.records
    ensures SameTerms(s, Resolve(s, m, seen), k) && |Resolve(s, m, seen).threads| == |s.threads|
  {
  }

  lemma ThreadKeepsTerms(s: State, i: nat, e: ThreadEvent, k: Key)
    requires i < |s.threads| && k in s.records
    ensures SameTerms(s, ThreadStep(s, i, e), k) && ThreadStep(s, i, e).sweeping == s.sweeping
  {
    hide CanRead, Fail, Resolve;
    FailKeepsFlag(s, i, true);
    FailKeepsFlag(s, i, false);
    FailKeepsTerms(s, i, true, k);
    FailKeepsTerms(s, i, false, k);
    match (s.threads[i].pc, e)
    case (Backfilling(seen), GotProof(_, _, _)) =>
      ResolveKeepsTerms(s, s.threads[i].market, seen, k);
      ResolveKeepsFlag(s, s.threads[i].market, seen);
    case (_, GotMarket(read, _)) =>
      if read.Seen? {
        ResolveKeepsTerms(s, s.threads[i].market, read.m, k);
        ResolveKeepsFlag(s, s.threads[i].market, read.m);
      }
    case _ =>
  }

  lemma FailKeepsFlag(s: State, i: nat, retriable: bool)
    requires i < |s.threads|
    ensures Fail(s, i, retriable).sweeping == s.sweeping
  {
  }

  lemma ResolveKeepsFlag(s: State, k: Key, seen: OnChain)
    ensures Resolve(s, k, seen).sweeping == s.sweeping
  {
  }

  /** Until its turn comes a waiting record waits, unless somebody else resolves it. */
  lemma WaitingStep(s: State, e: Event, k: Key)
    requires Waiting(s, k) && FailureFreeStep(s, e)
    ensures var s' := Step(s, e); Waiting(s', k) || Acting(s', k) || Closed(s', k)
  {
    hide ThreadStep, SweepStep, Grows;
    match e
    case OfThread(i, t) =>
      if i < |s.threads| {
        ThreadGrows(s, i, t);
        ThreadKeepsTerms(s, i, t, k);
        StillPastOpen(s, ThreadStep(s, i, t), k);
      }
    case OfSweep(i, v) =>
      if i < |s.sweeps| {
        WaitingSweepStep(s, v, k);
      }
    case _ =>
  }

  lemma StillPastOpen(s: State, s': State, k: Key)
    requires Grows(s, s') && k in s.chain && s.chain[k].status != Escrow.Open
    ensures k in s'.chain && s'.chain[k].status != Escrow.Open
  {
  }

  lemma WaitingSweepStep(s: State, v: SweepEvent, k: Key)
    requires Waiting(s, k) && FailureFreeStep(s, OfSweep(0, v))
    ensures var s' := SweepStep(s, 0, v); Waiting(s', k) || Acting(s', k) || Closed(s', k)
  {
    if s.sweeps[0].pc.Picking? || s.sweeps[0].pc.LockReading? || s.sweeps[0].pc.Locking? {
      hide SweepStep;
      WaitingLockHalf(s, v, k);
    } else {
      hide SweepStep;
      WaitingCancelHalf(s, v, k);
    }
  }

  lemma WaitingLockHalf(s: State, v: SweepEvent, k: Key)
    requires Waiting(s, k) && FailureFreeStep(s, OfSweep(0, v))
    requires s.sweeps[0].pc.Picking? || s.sweeps[0].pc.LockReading? || s.sweeps[0].pc.Locking?
    ensures var s' := SweepStep(s, 0, v); Waiting(s', k) || Acting(s', k) || Closed(s', k)
  {
    hide CanRead;
  }

  lemma WaitingCancelHalf(s: State, v: SweepEvent, k: Key)
    requires Waiting(s, k) && FailureFreeStep(s, OfSweep(0, v))
    requires s.sweeps[0].pc.CancelReading? || s.sweeps[0].pc.Cancelling? || s.sweeps[0].pc.Visited?
    ensures var s' := SweepStep(s, 0, v); Waiting(s', k) || Acting(s', k) || Closed(s', k)
  {
    hide CanRead;
  }

  /** A sweep that is acting on `k` or has yet to pick it. */
  ghost predicate Pending(s: State, k: Key) {
    Waiting(s, k) || Acting(s, k)
  }

  lemma PendingStep(s: State, e: Event, k: Key)
    requires Orderly(s) && Pending(s, k) && FailureFreeStep(s, e)
    ensures Pending(Step(s, e), k) || Closed(Step(s, e), k)
  {
    hide Orderly, Waiting, Acting, Closed, Step, FailureFreeStep;
    if Waiting(s, k) {
      WaitingStep(s, e, k);
    } else {
      ActingStep(s, e, k);
    }
  }

  lemma {:induction false} PendingResolves(s: State, events: seq<Event>, k: Key)
    requires Orderly(s) && Pending(s, k) && FailureFree(s, events) && !Pending(Run(s, events), k)
    ensures exists c :: 0 <= c <= |events| && Closed(Run(s, events[..c]), k)
    decreases |events|
  {
    hide Orderly, Pending, Closed, Step, FailureFreeStep;
    if events != [] {
      var e, rest := events[0], events[1..];
      var s1 := Step(s, e);
      PendingStep(s, e, k);
      StepKeeps(s, e);
      if Pending(s1, k) {
        PendingResolves(s1, rest, k);
        var c :| 0 <= c <= |rest| && Closed(Run(s1, rest[..c]), k);
        assert events[..c + 1][1..] == rest[..c];
        assert Closed(Run(s, events[..c + 1]), k);
      } else {
        assert events[..1] == [e] && [e][1..] == [];
        assert Run(s, events[..1]) == s1;
      }
    }
  }

  lemma SweepStartsWaiting(s: State, now: int, k: Key)
    requires Orderly(s) && !s.sweeping && k in s.records && Stuck(s.records[k].phase)
    requires now > s.records[k].lockTime + s.records[k].resolutionTimeout
    requires k in s.chain && s.chain[k].status != Escrow.Open
    ensures Waiting(Step(s, StartSweep(now)), k)
  {
  }

  /**
   * A sweep past the deadline that suffers no failure resolves every locked, settling or
   * error record whose market is past Open: whatever everybody else does meanwhile, the
   * record reaches a terminal phase before the sweep is over.
   */
  lemma FailureFreeSweepResolves(s: State, now: int, events: seq<Event>, k: Key)
    requires Orderly(s) && !s.sweeping && k in s.records && Stuck(s.records[k].phase)
    requires now > s.records[k].lockTime + s.records[k].resolutionTimeout
    requires k in s.chain && s.chain[k].status != Escrow.Open
    requires FailureFree(Step(s, StartSweep(now)), events)
    requires Run(Step(s, StartSweep(now)), events).sweeps == []
    ensures exists c :: 0 <= c <= |events| && Closed(Run(Step(s, StartSweep(now)), events[..c]), k)
  {
    hide Orderly, Step, Run, FailureFree, Closed;
    SweepStartsWaiting(s, now, k);
    StepKeeps(s, StartSweep(now));
    PendingResolves(Step(s, StartSweep(now)), events, k);
  }

  // --- the chain is the escrow ---------------------------------------------------------------------------

  function View(s: Escrow.State): OnChain {
    OnChain(s.status, s.winningOutcome)
  }

  /** Every on-chain instruction is one of the moves outsiders are allowed here. */
  lemma InstructionsAreMoves(s: Escrow.State, i: Escrow.Instruction)
    ensures Moves(View(s), View(Escrow.After(s, i)))
  {
    StepTransition(s, i);
    if s.status == Escrow.After(s, i).status {
      SameStatusSameWinner(s, i);
    }
  }

  /** Whatever instruction is executed, an outsider's event brings it about here. */
  lemma InstructionsHappen(s: Escrow.State, i: Escrow.Instruction, w: State, k: Key)
    requires k in w.chain && w.chain[k] == View(s)
    ensures Step(w, Outsider(k, View(Escrow.After(s, i)))).chain == w.chain[k := View(Escrow.After(s, i))]
  {
    InstructionsAreMoves(s, i);
  }

  /** A market just initialized, of whatever kind, is open and without a winner. */
  lemma CreationHappens(now: int, p: Escrow.Setup, w: State, k: Key)
    requires -0x8000_0000_0000_0000 <= now < 0x8000_0000_0000_0000 && Escrow.Initialize(now, p).Ok?
    ensures Escrow.Initialize(now, p).value.status == Escrow.Open
    ensures k !in w.chain ==>
              var w' := Step(w, Create(k));
              k in w'.chain && w'.chain == w.chain[k := w'.chain[k]] && w'.chain[k].status == Escrow.Open
    ensures k in w.chain ==> Step(w, Create(k)) == w
  {
  }

  lemma SameStatusSameWinner(s: Escrow.State, i: Escrow.Instruction)
    requires s.status == Escrow.After(s, i).status
    ensures s.winningOutcome == Escrow.After(s, i).winningOutcome
  {
  }

  /** The replies the settler relies on mean what it takes them to mean. */
  lemma SettleReplies(s: Escrow.State, v3: bool, claimed: u8, verdict: Result<bool, S.SettleError>)
    ensures Escrow.Settle(s, v3, claimed, verdict) == Err(Escrow.AlreadyResolved)
            <==> Terminal(s.status) && (v3 ==> s.combo.Some?)
    ensures Escrow.Settle(s, v3, claimed, verdict).Ok? ==>
              var to := View(Escrow.Settle(s, v3, claimed, verdict).value);
              s.status == Escrow.Locked && Terminal(to.status) && to.winner == claimed
  {
  }
}
