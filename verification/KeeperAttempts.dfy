/**
 * What settlement attempts get done: which event starts one, that failures are retried
 * within the budget, that an attempt without failures records the resolution, and when a
 * settled record has a receipt.
 */
module KeeperAttempts {
  import Escrow
  import opened EscrowTheorems
  import opened Keeper
  import opened KeeperSafety
  import opened KeeperTheorems

  // --- starting and retrying ---------------------------------------------------------------------

  /** A finalised match starts an attempt exactly for a known, unresolved market with none under way. */
  lemma FinalisationStartsIff(s: State, k: Key)
    requires Orderly(s)
    ensures var s' := Step(s, Finalise(k));
            && (k in s'.inFlight && k !in s.inFlight <==>
                  k in s.records && k !in s.inFlight
                  && s.records[k].phase != SettledPhase && s.records[k].phase != CancelledPhase)
            && (k in s'.inFlight && k !in s.inFlight ==>
                  s'.threads == s.threads + [Thread(k, 1, Fetching)] && s'.records[k].phase == Settling)
            && (k !in s'.inFlight || k in s.inFlight ==> s' == s)
  {
  }

  /** The events an attempt takes for a failure; finding the market still open is one of them. */
  predicate FailsAt(s: State, i: nat, e: ThreadEvent)
    requires i < |s.threads|
  {
    match (s.threads[i].pc, e)
    case (Fetching, GotMarket(read, _)) =>
      CanRead(s, s.threads[i].market, read) && (read.Seen? ==> read.m.status == Escrow.Open)
    case (Proving, GotProof(ok, _, _)) => !ok
    case (Submitting(_, _), GotReply(reply, _)) => reply == Refused
    case (Confirming, GotMarket(read, _)) => CanRead(s, s.threads[i].market, read) && !read.Seen?
    case _ => false
  }

  /** Waiting for the lock is always worth another try; other errors say so themselves. */
  predicate WorthRetrying(e: ThreadEvent) {
    match e
    case GotMarket(read, retriable) => retriable || read.Seen?
    case GotProof(_, _, retriable) => retriable
    case GotReply(_, retriable) => retriable
    case _ => true
  }

  /**
   * A failed attempt is tried again exactly while the error is worth it and the budget is
   * not used up: it sleeps, the record untouched, and wakes as the next attempt. Otherwise
   * the record is in error and the market is free for another finalisation.
   */
  lemma FailuresAreRetriedWithinBudget(s: State, i: nat, e: ThreadEvent)
    requires Orderly(s) && i < |s.threads| && FailsAt(s, i, e)
    ensures var s', t, k := Step(s, OfThread(i, e)), s.threads[i], s.threads[i].market;
            && s'.chain == s.chain && s'.receipts == s.receipts
            && (WorthRetrying(e) && t.n < s.maxAttempts ==>
                  && s'.records == s.records && s'.inFlight == s.inFlight
                  && s'.threads == s.threads[i := t.(pc := Sleeping)]
                  && Step(s', OfThread(i, Wake)).threads == s.threads[i := Thread(k, t.n + 1, Fetching)])
            && (!(WorthRetrying(e) && t.n < s.maxAttempts) ==>
                  && (k in s.records ==> k in s'.records && s'.records[k].phase == ErrorPhase)
                  && k !in s'.inFlight && s'.threads == s.threads[..i] + s.threads[i + 1..])
  {
    hide Orderly, ThreadStep, FailsAt, WorthRetrying;
    FailureFails(s, i, e);
    FailOutcome(s, i, WorthRetrying(e));
    assert WorthRetrying(e) && s.threads[i].n < s.maxAttempts ==>
             Step(Step(s, OfThread(i, e)), OfThread(i, Wake)).threads
             == s.threads[i := Thread(s.threads[i].market, s.threads[i].n + 1, Fetching)] by {
      if WorthRetrying(e) && s.threads[i].n < s.maxAttempts {
        Awakens(Step(s, OfThread(i, e)), i);
      }
    }
  }

  lemma FailureFails(s: State, i: nat, e: ThreadEvent)
    requires i < |s.threads| && FailsAt(s, i, e)
    ensures ThreadStep(s, i, e) == Fail(s, i, WorthRetrying(e))
  {
    hide CanRead, Fail, Resolve;
  }

  lemma FailOutcome(s: State, i: nat, retriable: bool)
    requires i < |s.threads|
    ensures var s', t, k := Fail(s, i, retriable), s.threads[i], s.threads[i].market;
            && s'.chain == s.chain && s'.receipts == s.receipts
            && (retriable && t.n < s.maxAttempts ==>
                  && s'.records == s.records && s'.inFlight == s.inFlight
                  && s'.threads == s.threads[i := t.(pc := Sleeping)])
            && (!(retriable && t.n < s.maxAttempts) ==>
                  && (k in s.records ==> k in s'.records && s'.records[k].phase == ErrorPhase)
                  && k !in s'.inFlight && s'.threads == s.threads[..i] + s.threads[i + 1..])
  {
  }

  lemma Awakens(s: State, i: nat)
    requires i < |s.threads| && s.threads[i].pc == Sleeping
    ensures ThreadStep(s, i, Wake).threads
            == s.threads[i := Thread(s.threads[i].market, s.threads[i].n + 1, Fetching)]
  {
  }

  // --- an attempt without failures -----------------------------------------------------------------

  /** The resolution is on record, and a settled market has its receipt. */
  ghost predicate Recorded(s: State, k: Key) {
    && k in s.chain && k in s.records
    && match s.chain[k].status
       case Settled =>
         s.records[k].phase == SettledPhase && k in s.receipts && s.receipts[k] == s.chain[k].winner
       case Cancelled => s.records[k].phase == CancelledPhase
       case _ => false
  }

  /** The attempt on `k` reads a market past its lock, gets its proof, and is not refused. */
  ghost predicate AttemptStepWorks(s: State, e: Event, k: Key) {
    e.OfThread? && e.i < |s.threads| && s.threads[e.i].market == k ==>
      match e.t
      case GotMarket(read, _) =>
        && read.Seen? && read.m.status != Escrow.Open
        && (s.threads[e.i].pc != Fetching ==> Terminal(read.m.status))
      case GotProof(ok, _, _) => ok
      case GotReply(reply, _) => reply != Refused
      case _ => true
  }

  ghost predicate AttemptWorks(s: State, events: seq<Event>, k: Key)
    decreases |events|
  {
    events == [] || (AttemptStepWorks(s, events[0], k) && AttemptWorks(Step(s, events[0]), events[1..], k))
  }

  /** Thread `i` is an attempt on `k` with nothing recorded yet. */
  ghost predicate Trying(s: State, k: Key, i: nat) {
    && i < |s.threads| && s.threads[i].market == k && k in s.records
    && s.threads[i].pc != Sleeping && s.threads[i].pc != Finished
  }

  ghost predicate UnderWay(s: State, k: Key) {
    exists i: nat :: Trying(s, k, i)
  }

  lemma ResolutionIsRecorded(s: State, k: Key, m: OnChain)
    requires k in s.records && CanRead(s, k, Seen(m)) && Terminal(m.status)
    ensures Recorded(Resolve(s, k, m), k)
  {
    TerminalReadsAreFinal(s, k, m);
  }

  /** Its own next event takes the attempt on, or to the record. */
  lemma OwnStep(s: State, k: Key, i: nat, e: ThreadEvent)
    requires Orderly(s) && Trying(s, k, i) && AttemptStepWorks(s, OfThread(i, e), k)
    ensures var s' := ThreadStep(s, i, e); Trying(s', k, i) || Recorded(s', k)
  {
    hide OneEach, AllOk, Recorded, Resolve;
    ThreadFact(s, i);
    match (s.threads[i].pc, e)
    case (Backfilling(seen), GotProof(_, _, _)) =>
      ResolutionIsRecorded(s, k, seen);
      StillRecorded(s, i, k, seen);
    case (_, GotMarket(read, retriable)) => OwnRead(s, k, i, read, retriable);
    case _ =>
  }

  lemma OwnRead(s: State, k: Key, i: nat, read: Read, retriable: bool)
    requires Orderly(s) && Trying(s, k, i) && AttemptStepWorks(s, OfThread(i, GotMarket(read, retriable)), k)
    ensures var s' := ThreadStep(s, i, GotMarket(read, retriable)); Trying(s', k, i) || Recorded(s', k)
  {
    hide OneEach, AllOk, Recorded, Resolve;
    if CanRead(s, k, read) && Terminal(read.m.status) {
      ResolutionIsRecorded(s, k, read.m);
      StillRecorded(s, i, k, read.m);
    }
  }

  lemma StillRecorded(s: State, i: nat, k: Key, m: OnChain)
    requires i < |s.threads| && Recorded(Resolve(s, k, m), k)
    ensures |Resolve(s, k, m).threads| == |s.threads|
    ensures Recorded(Put(Resolve(s, k, m), i, s.threads[i].(pc := Finished)), k)
  {
  }

  /** Other attempts leave this one where it is, perhaps at another place of the list. */
  lemma OthersStep(s: State, k: Key, i: nat, j: nat, e: ThreadEvent)
    requires Trying(s, k, i) && j < |s.threads| && j != i
    ensures UnderWay(ThreadStep(s, j, e), k)
  {
    hide CanRead, Resolve;
    var s' := ThreadStep(s, j, e);
    assert s'.records.Keys == s.records.Keys by {
      ThreadGrows(s, j, e);
    }
    assert |s'.threads| == |s.threads| ==> s'.threads == s.threads[j := s'.threads[j]] by {
      OtherPlaces(s, j, e);
    }
    assert |s'.threads| != |s.threads| ==> s'.threads == s.threads[..j] + s.threads[j + 1..] by {
      OtherPlaces(s, j, e);
    }
    hide ThreadStep;
    assert Trying(s', k, if |s'.threads| == |s.threads| || i < j then i else i - 1);
  }

  /** Thread `j` has changed or gone, the others are where they were. */
  ghost predicate SamePlaces(s: State, s': State, j: nat)
    requires j < |s.threads|
  {
    || (|s'.threads| == |s.threads| && s'.threads == s.threads[j := s'.threads[j]])
    || s'.threads == s.threads[..j] + s.threads[j + 1..]
  }

  lemma PutPlaces(s: State, j: nat)
    requires j < |s.threads|
    ensures SamePlaces(s, s, j) && SamePlaces(s, End(s, j), j)
    ensures forall s1: State, t | s1.threads == s.threads :: SamePlaces(s, Put(s1, j, t), j)
  {
  }

  lemma OtherPlaces(s: State, j: nat, e: ThreadEvent)
    requires j < |s.threads|
    ensures SamePlaces(s, ThreadStep(s, j, e), j)
  {
    hide CanRead, Fail, Resolve, SamePlaces;
    FailPlaces(s, j, true);
    FailPlaces(s, j, false);
    PutPlaces(s, j);
    match (s.threads[j].pc, e)
    case (Backfilling(seen), GotProof(_, _, _)) => ResolvePlaces(s, s.threads[j].market, seen);
    case (_, GotMarket(read, _)) =>
      if read.Seen? {
        ResolvePlaces(s, s.threads[j].market, read.m);
      }
    case _ =>
  }

  lemma FailPlaces(s: State, j: nat, retriable: bool)
    requires j < |s.threads|
    ensures SamePlaces(s, Fail(s, j, retriable), j)
  {
  }

  lemma ResolvePlaces(s: State, k: Key, m: OnChain)
    ensures Resolve(s, k, m).threads == s.threads
  {
  }

  lemma UnderWayStep(s: State, e: Event, k: Key)
    requires Orderly(s) && UnderWay(s, k) && AttemptStepWorks(s, e, k)
    ensures UnderWay(Step(s, e), k) || Recorded(Step(s, e), k)
  {
    hide ThreadStep, SweepStep, CanRead, Orderly, AttemptStepWorks, Recorded;
    var i: nat :| Trying(s, k, i);
    match e
    case OfThread(j, t) =>
      if j == i {
        OwnStep(s, k, i, t);
      } else if j < |s.threads| {
        OthersStep(s, k, i, j, t);
      }
    case OfSweep(j, v) =>
      if j < |s.sweeps| {
        SweepLeavesThreads(s, j, v);
        SweepGrows(s, j, v);
        assert Trying(Step(s, e), k, i);
      }
    case _ => assert Trying(Step(s, e), k, i);
  }

  lemma SweepLeavesThreads(s: State, i: nat, v: SweepEvent)
    requires i < |s.sweeps|
    ensures SweepStep(s, i, v).threads == s.threads && SweepStep(s, i, v).inFlight == s.inFlight
  {
    hide CanRead, Backstop, SetPhase;
    var w := s.sweeps[i];
    match w.pc
    case Picking =>
      if v.Pick? && v.k in s.records {
        BackstopLeavesThreads(s.(sweeps := s.sweeps[i := w.(todo := w.todo - {v.k})]), i, v.k);
      }
    case LockReading(m) =>
      PhaseLeavesThreads(s, i, m, LockedPhase);
    case Locking(m, _) =>
      PhaseLeavesThreads(s, i, m, LockedPhase);
    case CancelReading(m, _) =>
      if v.SweepRead? && v.read.Seen? {
        PhaseLeavesThreads(s, i, m, PhaseOf(v.read.m.status));
      }
    case Cancelling(m, _, _) => PhaseLeavesThreads(s, i, m, CancelledPhase);
    case _ =>
  }

  lemma BackstopLeavesThreads(s: State, i: nat, k: Key)
    requires i < |s.sweeps| && k in s.records
    ensures Backstop(s, i, k).threads == s.threads && Backstop(s, i, k).inFlight == s.inFlight
  {
  }

  lemma PhaseLeavesThreads(s: State, i: nat, k: Key, p: Phase)
    requires i < |s.sweeps|
    ensures var s1 := SetPhase(s, k, p);
            && s1.threads == s.threads && s1.inFlight == s.inFlight && s1.sweeps == s.sweeps
            && s1.records.Keys == s.records.Keys
            && (k in s.records ==>
                  && Backstop(s1, i, k).threads == s.threads && Backstop(s1, i, k).inFlight == s.inFlight
                  && Backstop(s, i, k).threads == s.threads && Backstop(s, i, k).inFlight == s.inFlight)
  {
  }

  lemma {:induction false} UnderWayRun(s: State, events: seq<Event>, k: Key)
    requires Orderly(s) && UnderWay(s, k) && AttemptWorks(s, events, k) && k !in Run(s, events).inFlight
    ensures exists c :: 0 <= c <= |events| && Recorded(Run(s, events[..c]), k)
    decreases |events|
  {
    hide Orderly, UnderWay, Recorded, Step, AttemptStepWorks;
    if events == [] {
      assert false by {
        UnderWayIsInFlight(s, k);
      }
    } else {
      var e, rest := events[0], events[1..];
      var s1 := Step(s, e);
      UnderWayStep(s, e, k);
      StepKeeps(s, e);
      if UnderWay(s1, k) {
        UnderWayRun(s1, rest, k);
        var c :| 0 <= c <= |rest| && Recorded(Run(s1, rest[..c]), k);
        assert events[..c + 1][1..] == rest[..c];
        assert Recorded(Run(s, events[..c + 1]), k);
      } else {
        assert events[..1] == [e] && [e][1..] == [];
        assert Run(s, events[..1]) == s1;
      }
    }
  }

  lemma UnderWayIsInFlight(s: State, k: Key)
    requires Orderly(s) && UnderWay(s, k)
    ensures k in s.inFlight
  {
    var i: nat :| Trying(s, k, i);
    assert s.threads[i].market == k;
  }

  /**
   * An attempt that suffers no failure records the resolution: from the finalisation on,
   * whatever everybody else does, by the time the market is no longer in flight its record
   * has had the chain's terminal phase, with a receipt of the winner if it settled.
   */
  lemma FailureFreeAttemptRecords(s: State, events: seq<Event>, k: Key)
    requires Orderly(s) && k in s.records && k !in s.inFlight && !IsOver(s.records[k].phase)
    requires AttemptWorks(Step(s, Finalise(k)), events, k)
    requires k !in Run(Step(s, Finalise(k)), events).inFlight
    ensures exists c :: 0 <= c <= |events| && Recorded(Run(Step(s, Finalise(k)), events[..c]), k)
  {
    hide Orderly, Run, AttemptWorks, Recorded;
    var s1 := Step(s, Finalise(k));
    StepKeeps(s, Finalise(k));
    assert Trying(s1, k, |s.threads|);
    UnderWayRun(s1, events, k);
  }

  /** An ordinary settlement to its end: the receipt holds the winner, and nothing is in flight. */
  lemma SettlementCompletes(locked: OnChain, settled: OnChain)
    requires locked.status == Escrow.Locked && settled == OnChain(Escrow.Settled, 2)
    ensures Run(Tracked(locked), OneSettlement(locked, settled)
                + [OfThread(0, GotMarket(Seen(settled), true)), OfThread(0, Leave)])
            == State(map[0 := settled], map[0 := Record(SettledPhase, 0, 10)], map[0 := 2], {}, [], false, [], 12)
  {
    hide Run, Tracked, OneSettlement;
    var last := [OfThread(0, GotMarket(Seen(settled), true)), OfThread(0, Leave)];
    SettlementConfirms(locked, settled);
    RunConcat(Tracked(locked), OneSettlement(locked, settled), last);
    LastTwoSteps(settled, last);
  }

  lemma LastTwoSteps(settled: OnChain, last: seq<Event>)
    requires settled == OnChain(Escrow.Settled, 2)
    requires last == [OfThread(0, GotMarket(Seen(settled), true)), OfThread(0, Leave)]
    ensures Run(InFlight(settled, Settling, Confirming), last)
            == State(map[0 := settled], map[0 := Record(SettledPhase, 0, 10)], map[0 := 2], {}, [], false, [], 12)
  {
    var s1 := Step(InFlight(settled, Settling, Confirming), last[0]);
    assert s1 == InFlight(settled, SettledPhase, Finished).(receipts := map[0 := 2]);
    assert last[1..] == [last[1]] && [last[1]][1..] == [];
    assert Step(s1, last[1]) == Run(Step(s1, last[1]), []);
    assert Run(s1, [last[1]]) == Step(s1, last[1]);
    assert {0} - {0} == {};
  }

  // --- receipts ---------------------------------------------------------------------------------------

  /** A settled record has a receipt. */
  ghost predicate Receipted(s: State, k: Key) {
    k in s.records && s.records[k].phase == SettledPhase ==> k in s.receipts
  }

  /** The two ways a record becomes settled without an attempt: adoption, and a late sweep. */
  predicate SettlesSilently(s: State, e: Event, k: Key) {
    match e
    case Adopt(m, read, _, _) => m == k && read.Seen? && read.m.status == Escrow.Settled
    case OfSweep(i, SweepRead(read)) =>
      && i < |s.sweeps| && s.sweeps[i].pc.CancelReading? && s.sweeps[i].pc.k == k
      && read.Seen? && read.m.status == Escrow.Settled
    case _ => false
  }

  predicate NeverSilently(s: State, events: seq<Event>, k: Key)
    decreases |events|
  {
    events == [] || (!SettlesSilently(s, events[0], k) && NeverSilently(Step(s, events[0]), events[1..], k))
  }

  lemma ThreadReceipts(s: State, i: nat, e: ThreadEvent, k: Key)
    requires Receipted(s, k) && i < |s.threads|
    ensures Receipted(ThreadStep(s, i, e), k)
  {
    hide CanRead, Fail, Resolve;
    FailReceipts(s, i, true, k);
    FailReceipts(s, i, false, k);
    match (s.threads[i].pc, e)
    case (Backfilling(seen), GotProof(_, _, _)) => ResolveReceipts(s, s.threads[i].market, seen, k);
    case (_, GotMarket(read, _)) =>
      if read.Seen? {
        ResolveReceipts(s, s.threads[i].market, read.m, k);
      }
    case _ =>
  }

  lemma FailReceipts(s: State, i: nat, retriable: bool, k: Key)
    requires Receipted(s, k) && i < |s.threads|
    ensures Receipted(Fail(s, i, retriable), k)
  {
  }

  lemma ResolveReceipts(s: State, m: Key, seen: OnChain, k: Key)
    requires Receipted(s, k)
    ensures Receipted(Resolve(s, m, seen), k) && Resolve(s, m, seen).threads == s.threads
  {
  }

  lemma LockHalfReceipts(s: State, i: nat, v: SweepEvent, k: Key)
    requires Receipted(s, k) && i < |s.sweeps|
    requires s.sweeps[i].pc.Picking? || s.sweeps[i].pc.LockReading? || s.sweeps[i].pc.Locking?
    ensures Receipted(SweepStep(s, i, v), k)
  {
    hide CanRead;
  }

  lemma CancelHalfReceipts(s: State, i: nat, v: SweepEvent, k: Key)
    requires Receipted(s, k) && i < |s.sweeps| && !SettlesSilently(s, OfSweep(i, v), k)
    requires s.sweeps[i].pc.CancelReading? || s.sweeps[i].pc.Cancelling? || s.sweeps[i].pc.Visited?
    ensures Receipted(SweepStep(s, i, v), k)
  {
    hide CanRead;
  }

  lemma StepReceipts(s: State, e: Event, k: Key)
    requires Receipted(s, k) && !SettlesSilently(s, e, k)
    ensures Receipted(Step(s, e), k)
  {
    hide ThreadStep, SweepStep, CanRead;
    match e
    case OfThread(i, t) =>
      if i < |s.threads| {
        ThreadReceipts(s, i, t, k);
      }
    case OfSweep(i, v) =>
      if i < |s.sweeps| {
        if s.sweeps[i].pc.Picking? || s.sweeps[i].pc.LockReading? || s.sweeps[i].pc.Locking? {
          LockHalfReceipts(s, i, v, k);
        } else {
          CancelHalfReceipts(s, i, v, k);
        }
      }
    case _ =>
  }

  lemma {:induction false} RunReceipts(s: State, events: seq<Event>, k: Key)
    requires Receipted(s, k) && NeverSilently(s, events, k)
    ensures Receipted(Run(s, events), k)
    decreases |events|
  {
    hide Receipted, SettlesSilently, Step;
    if events != [] {
      StepReceipts(s, events[0], k);
      RunReceipts(Step(s, events[0]), events[1..], k);
    }
  }

  /**
   * Whatever record an attempt settles has a receipt with the winner on chain: in every
   * run, only an adoption or a late sweep leaves a settled record without one.
   */
  lemma SettledHasReceipt(s: State, events: seq<Event>, k: Key)
    requires Boots(s) && AllRecordTerminal(s, events) && Receipted(s, k) && NeverSilently(s, events, k)
    ensures var s' := Run(s, events);
            k in s'.records && s'.records[k].phase == SettledPhase ==>
              && k in s'.receipts && k in s'.chain
              && s'.chain[k].status == Escrow.Settled && s'.receipts[k] == s'.chain[k].winner
  {
    hide Run, AllRecordTerminal, NeverSilently;
    NeverContradictsChain(s, events);
    RunReceipts(s, events, k);
  }

  /** The sweep does leave one: a market past its deadline that somebody else settled. */
  lemma SweepLeavesNoReceipt()
    ensures var s := State(map[0 := OnChain(Escrow.Settled, 2)], map[0 := Record(ErrorPhase, 0, 10)], map[],
                           {}, [], false, [], 12);
            var s' := Run(s, [StartSweep(11), OfSweep(0, Pick(0)),
                              OfSweep(0, SweepRead(Seen(OnChain(Escrow.Settled, 2))))]);
            && Boots(s) && 0 in s'.records && s'.records[0].phase == SettledPhase && 0 !in s'.receipts
  {
    var m := OnChain(Escrow.Settled, 2);
    var s := State(map[0 := m], map[0 := Record(ErrorPhase, 0, 10)], map[], {}, [], false, [], 12);
    var e := [StartSweep(11), OfSweep(0, Pick(0)), OfSweep(0, SweepRead(Seen(m)))];
    var s1, s2 := Step(s, e[0]), Step(Step(s, e[0]), e[1]);
    assert s1 == s.(sweeping := true, sweeps := [Sweep(11, {0}, Picking)]) by {
      assert s.records.Keys == {0};
    }
    assert {0} - {0} == {};
    assert s2 == s1.(sweeps := [Sweep(11, {}, CancelReading(0, true))]);
    LateSweepReads(s2, m);
    hide Step;
    assert e[1..][1..] == e[2..] && e[2..][1..] == [];
    assert Run(s2, e[2..]) == Step(s2, e[2]);
    assert Run(s1, e[1..]) == Run(s2, e[2..]);
  }

  lemma LateSweepReads(s: State, m: OnChain)
    requires m.status == Escrow.Settled && s.chain == map[0 := m] && 0 in s.records && s.receipts == map[]
    requires |s.sweeps| == 1 && s.sweeps[0].pc == CancelReading(0, true)
    ensures var s' := Step(s, OfSweep(0, SweepRead(Seen(m))));
            0 in s'.records && s'.records[0].phase == SettledPhase && 0 !in s'.receipts
  {
  }
}
