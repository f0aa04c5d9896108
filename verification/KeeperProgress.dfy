/**
 * What the keeper gets done: a sweep locks every due market it finds created, never early;
 * an attempt without failures records the outcome with its receipt; and where a
 * finalisation gets in before the lock, the keeper alone never locks the market.
 */
module KeeperProgress {
  import Escrow
  import opened EscrowTheorems
  import opened Keeper
  import opened KeeperSafety
  import opened KeeperTheorems

  // --- never early ------------------------------------------------------------------------------

  /** A suspended sweep locks only at or after lock time, and cancels only past the deadline. */
  ghost predicate TimelyVisit(s: State, w: Sweep) {
    match w.pc
    case LockReading(k) => k in s.records && w.now >= s.records[k].lockTime
    case Locking(k, _) => k in s.records && w.now >= s.records[k].lockTime
    case CancelReading(k, _) =>
      k in s.records && w.now > s.records[k].lockTime + s.records[k].resolutionTimeout
    case Cancelling(k, _, _) =>
      k in s.records && w.now > s.records[k].lockTime + s.records[k].resolutionTimeout
    case _ => true
  }

  ghost predicate Timely(s: State) {
    forall i :: 0 <= i < |s.sweeps| ==> TimelyVisit(s, s.sweeps[i])
  }

  /** Every record keeps its times. */
  ghost predicate SameTimes(s: State, s': State) {
    forall k :: k in s.records ==>
      && k in s'.records && s'.records[k].lockTime == s.records[k].lockTime
      && s'.records[k].resolutionTimeout == s.records[k].resolutionTimeout
  }

  lemma ThreadKeepsTimes(s: State, i: nat, e: ThreadEvent)
    requires i < |s.threads|
    ensures SameTimes(s, ThreadStep(s, i, e)) && ThreadStep(s, i, e).sweeps == s.sweeps
  {
    hide ThreadStep;
    ThreadGrows(s, i, e);
    forall k | k in s.records ensures SameTerms(s, ThreadStep(s, i, e), k) {
      ThreadKeepsTerms(s, i, e, k);
    }
  }

  lemma StillTimely(s: State, s': State)
    requires Timely(s) && SameTimes(s, s') && s'.sweeps == s.sweeps
    ensures Timely(s')
  {
    forall i | 0 <= i < |s'.sweeps| ensures TimelyVisit(s', s'.sweeps[i]) {
      assert TimelyVisit(s, s.sweeps[i]);
    }
  }

  /** What a sweep's event leaves: records with their times, other sweeps, and a timely visit. */
  ghost predicate VisitKept(s: State, s': State, i: nat)
    requires i < |s.sweeps|
  {
    && SameTimes(s, s')
    && (|s'.sweeps| == |s.sweeps| ==>
          TimelyVisit(s', s'.sweeps[i]) && forall j :: 0 <= j < |s.sweeps| && j != i ==> s'.sweeps[j] == s.sweeps[j])
    && (|s'.sweeps| != |s.sweeps| ==> s'.sweeps == s.sweeps[..i] + s.sweeps[i + 1..])
  }

  /** The sweeps other than `i` are those of `s`. */
  ghost predicate OthersSame(s: State, s1: State, i: nat)
    requires i < |s.sweeps|
  {
    && |s1.sweeps| == |s.sweeps| && s1.sweeps[i].now == s.sweeps[i].now
    && forall j :: 0 <= j < |s.sweeps| && j != i ==> s1.sweeps[j] == s.sweeps[j]
  }

  lemma VisitMoves(s: State, s1: State, i: nat, pc: Visit)
    requires i < |s.sweeps| && SameTimes(s, s1) && OthersSame(s, s1, i)
    requires TimelyVisit(s1, s1.sweeps[i].(pc := pc))
    ensures VisitKept(s, PutSweep(s1, i, pc), i)
  {
    hide SameTimes;
    var s' := PutSweep(s1, i, pc);
    assert s'.records == s1.records;
    assert SameTimes(s, s') by {
      TimesFollow(s, s1, s');
    }
  }

  lemma BackstopVisits(s: State, s1: State, i: nat, k: Key)
    requires i < |s.sweeps| && SameTimes(s, s1) && OthersSame(s, s1, i) && k in s1.records
    ensures VisitKept(s, Backstop(s1, i, k), i)
  {
    hide VisitKept, SameTimes, OthersSame;
    var r := s1.records[k];
    assert i < |s1.sweeps| by { SizeSame(s, s1, i); }
    if s1.sweeps[i].now > r.lockTime + r.resolutionTimeout {
      VisitMoves(s, s1, i, CancelReading(k, k in s1.chain && s1.chain[k].status != Escrow.Open));
    }
    VisitMoves(s, s1, i, Visited(k, false, false));
  }

  lemma SizeSame(s: State, s1: State, i: nat)
    requires i < |s.sweeps| && OthersSame(s, s1, i)
    ensures i < |s1.sweeps|
  {
  }

  lemma TimesFollow(s: State, s1: State, s': State)
    requires SameTimes(s, s1) && s'.records == s1.records
    ensures SameTimes(s, s')
  {
  }

  lemma PhaseKeepsTimes(s: State, i: nat, k: Key, p: Phase)
    requires i < |s.sweeps|
    ensures SameTimes(s, SetPhase(s, k, p)) && OthersSame(s, SetPhase(s, k, p), i)
    ensures SetPhase(s, k, p).sweeps == s.sweeps && SetPhase(s, k, p).records.Keys == s.records.Keys
  {
  }

  lemma LockHalfVisits(s: State, i: nat, e: SweepEvent)
    requires i < |s.sweeps| && TimelyVisit(s, s.sweeps[i])
    requires s.sweeps[i].pc.Picking? || s.sweeps[i].pc.LockReading? || s.sweeps[i].pc.Locking?
    ensures VisitKept(s, SweepStep(s, i, e), i)
  {
    hide CanRead, Backstop, SetPhase;
    var w := s.sweeps[i];
    match (w.pc, e)
    case (Picking, Pick(k)) =>
      var s1 := s.(sweeps := s.sweeps[i := w.(todo := w.todo - {k})]);
      if k in s.records {
        BackstopVisits(s, s1, i, k);
        if w.now >= s.records[k].lockTime {
          VisitMoves(s, s1, i, LockReading(k));
        }
      }
    case (LockReading(k), _) =>
      PhaseKeepsTimes(s, i, k, LockedPhase);
      BackstopVisits(s, s, i, k);
      BackstopVisits(s, SetPhase(s, k, LockedPhase), i, k);
    case (Locking(k, _), _) =>
      PhaseKeepsTimes(s, i, k, LockedPhase);
      BackstopVisits(s, s, i, k);
      BackstopVisits(s, SetPhase(s, k, LockedPhase), i, k);
    case _ =>
  }

  lemma CancelHalfVisits(s: State, i: nat, e: SweepEvent)
    requires i < |s.sweeps| && TimelyVisit(s, s.sweeps[i])
    requires s.sweeps[i].pc.CancelReading? || s.sweeps[i].pc.Cancelling? || s.sweeps[i].pc.Visited?
    ensures VisitKept(s, SweepStep(s, i, e), i)
  {
    hide CanRead;
  }

  lemma SweepVisits(s: State, i: nat, e: SweepEvent)
    requires i < |s.sweeps| && TimelyVisit(s, s.sweeps[i])
    ensures VisitKept(s, SweepStep(s, i, e), i)
  {
    hide SweepStep, TimelyVisit, VisitKept;
    if s.sweeps[i].pc.Picking? || s.sweeps[i].pc.LockReading? || s.sweeps[i].pc.Locking? {
      LockHalfVisits(s, i, e);
    } else {
      CancelHalfVisits(s, i, e);
    }
  }

  lemma StepTimely(s: State, e: Event)
    requires Timely(s)
    ensures Timely(Step(s, e))
  {
    hide ThreadStep, SweepStep, TimelyVisit, CanRead;
    match e
    case OfThread(i, t) =>
      if i < |s.threads| {
        ThreadKeepsTimes(s, i, t);
        StillTimely(s, ThreadStep(s, i, t));
      }
    case OfSweep(i, v) =>
      if i < |s.sweeps| {
        var s' := SweepStep(s, i, v);
        SweepVisits(s, i, v);
        forall j | 0 <= j < |s'.sweeps| ensures TimelyVisit(s', s'.sweeps[j]) {
          if |s'.sweeps| != |s.sweeps| || j != i {
            var j' := if |s'.sweeps| == |s.sweeps| || j < i then j else j + 1;
            assert s'.sweeps[j] == s.sweeps[j'];
            VisitStaysTimely(s, s', s.sweeps[j']);
          }
        }
      }
    case StartSweep(now) =>
      if !s.sweeping {
        NewSweepIsTimely(s, now);
      }
    case _ => StillTimely(s, Step(s, e));
  }

  lemma VisitStaysTimely(s: State, s': State, w: Sweep)
    requires TimelyVisit(s, w) && SameTimes(s, s')
    ensures TimelyVisit(s', w)
  {
  }

  lemma NewSweepIsTimely(s: State, now: int)
    requires Timely(s) && !s.sweeping
    ensures Timely(Step(s, StartSweep(now)))
  {
    var s' := Step(s, StartSweep(now));
    forall i | 0 <= i < |s'.sweeps| ensures TimelyVisit(s', s'.sweeps[i]) {
      if i < |s.sweeps| {
        assert TimelyVisit(s, s.sweeps[i]);
      }
    }
  }

  /**
   * In every run a sweep that is locking a market started at or after its lock time, and
   * one that is cancelling it past its deadline.
   */
  lemma {:induction false} SweepsAreTimely(s: State, events: seq<Event>)
    requires Timely(s)
    ensures Timely(Run(s, events))
    decreases |events|
  {
    hide Timely, Step;
    if events != [] {
      StepTimely(s, events[0]);
      SweepsAreTimely(Step(s, events[0]), events[1..]);
    }
  }

  lemma BootIsTimely(s: State)
    requires Boots(s)
    ensures Timely(s)
  {
  }

  // --- a due market is locked -------------------------------------------------------------------

  /** A sweep's reads succeed, and its lock is refused only where somebody else was faster. */
  ghost predicate LockStepWorks(s: State, e: Event) {
    match e
    case OfSweep(0, SweepRead(read)) => |s.sweeps| == 1 ==> read != Unreadable
    case OfSweep(0, TxReplied(ok)) =>
      |s.sweeps| == 1 && s.sweeps[0].pc.Locking? && !ok ==>
        !s.sweeps[0].pc.landed && s.sweeps[0].pc.k in s.chain && s.chain[s.sweeps[0].pc.k].status != Escrow.Open
    case _ => true
  }

  ghost predicate LocksWork(s: State, events: seq<Event>)
    decreases |events|
  {
    events == [] || (LockStepWorks(s, events[0]) && LocksWork(Step(s, events[0]), events[1..]))
  }

  predicate FromOutside(e: Event, k: Key) {
    e.Outsider? && e.k == k
  }

  /** The sweep has yet to lock `k`, or is at it; `alone` if nobody else sends transactions to it. */
  ghost predicate LockDue(s: State, k: Key, alone: bool) {
    && |s.sweeps| == 1 && k in s.records && s.records[k].phase == Created && k in s.chain
    && s.sweeps[0].now >= s.records[k].lockTime && k !in s.inFlight
    && match s.sweeps[0].pc
       case LockReading(m) => if m == k then NotYetLocked(s, k, alone) else Unvisited(s, k, alone)
       case Locking(m, landed) =>
         if m != k then Unvisited(s, k, alone)
         else if landed then s.chain[k].status != Escrow.Open
         else NotYetLocked(s, k, alone)
       case _ => Unvisited(s, k, alone)
  }

  ghost predicate NotYetLocked(s: State, k: Key, alone: bool) {
    k in s.chain && (alone ==> s.chain[k].status == Escrow.Open)
  }

  ghost predicate Unvisited(s: State, k: Key, alone: bool) {
    |s.sweeps| == 1 && Elsewhere(s.sweeps[0].pc, k) && k in s.sweeps[0].todo && NotYetLocked(s, k, alone)
  }

  /** The visit under way, if any, is to another record. */
  predicate Elsewhere(pc: Visit, k: Key) {
    pc.Picking? || pc.k != k
  }

  /** Betting is closed on chain, and the keeper knows it if nobody else could have closed it. */
  ghost predicate LockDone(s: State, k: Key, alone: bool) {
    && k in s.chain && s.chain[k].status != Escrow.Open
    && k in s.records && (alone ==> s.records[k].phase != Created)
  }

  lemma LockDoneStays(s: State, e: Event, k: Key, alone: bool)
    requires LockDone(s, k, alone)
    ensures LockDone(Step(s, e), k, alone)
  {
    hide Step;
    StepGrows(s, e);
    StepKeepsTerms(s, e, k);
  }

  lemma StepKeepsTerms(s: State, e: Event, k: Key)
    requires k in s.records
    ensures SameTerms(s, Step(s, e), k)
  {
    hide ThreadStep, SweepStep, CanRead;
    match e
    case OfThread(i, t) =>
      if i < |s.threads| {
        ThreadKeepsTerms(s, i, t, k);
      }
    case OfSweep(i, v) =>
      if i < |s.sweeps| {
        SweepKeepsTerms(s, i, v, k);
      }
    case _ =>
  }

  lemma SweepKeepsTerms(s: State, i: nat, e: SweepEvent, k: Key)
    requires i < |s.sweeps| && k in s.records
    ensures SameTerms(s, SweepStep(s, i, e), k)
  {
    hide CanRead, Backstop;
    var w := s.sweeps[i];
    match w.pc
    case Picking =>
      if e.Pick? && e.k in s.records {
        BackstopKeepsChain(s.(sweeps := s.sweeps[i := w.(todo := w.todo - {e.k})]), i, e.k);
      }
    case LockReading(m) => LockedBackstop(s, i, m);
    case Locking(m, _) => LockedBackstop(s, i, m);
    case _ =>
  }

  lemma LockedBackstop(s: State, i: nat, m: Key)
    requires i < |s.sweeps|
    ensures m in s.records ==>
              && Backstop(s, i, m).records == s.records
              && Backstop(SetPhase(s, m, LockedPhase), i, m).records
                 == s.records[m := s.records[m].(phase := LockedPhase)]
  {
  }

  /** Attempts on other markets leave the record and the chain state of this one. */
  lemma OtherThreads(s: State, i: nat, e: ThreadEvent, k: Key)
    requires i < |s.threads| && s.threads[i].market != k && k in s.records && k in s.chain
    ensures var s' := ThreadStep(s, i, e);
            && k in s'.records && s'.records[k] == s.records[k]
            && k in s'.chain && s'.chain[k] == s.chain[k] && s'.sweeps == s.sweeps
            && (k in s'.inFlight ==> k in s.inFlight)
  {
    hide CanRead, Fail, Resolve;
    OthersFail(s, i, true, k);
    OthersFail(s, i, false, k);
    match (s.threads[i].pc, e)
    case (Backfilling(seen), GotProof(_, _, _)) => OthersResolve(s, s.threads[i].market, seen, k);
    case (_, GotMarket(read, _)) =>
      if read.Seen? {
        OthersResolve(s, s.threads[i].market, read.m, k);
      }
    case _ =>
  }

  lemma OthersFail(s: State, i: nat, retriable: bool, k: Key)
    requires i < |s.threads| && s.threads[i].market != k && k in s.records
    ensures var s' := Fail(s, i, retriable);
            && k in s'.records && s'.records[k] == s.records[k]
            && s'.chain == s.chain && s'.sweeps == s.sweeps && s'.inFlight <= s.inFlight
  {
  }

  lemma OthersResolve(s: State, m: Key, seen: OnChain, k: Key)
    requires m != k && k in s.records
    ensures var s' := Resolve(s, m, seen);
            && k in s'.records && s'.records[k] == s.records[k] && s'.threads == s.threads
            && s'.chain == s.chain && s'.sweeps == s.sweeps && s'.inFlight == s.inFlight
  {
  }

  lemma NoThread(s: State, i: nat, k: Key)
    requires OneEach(s) && i < |s.threads| && k !in s.inFlight
    ensures s.threads[i].market != k
  {
  }

  lemma LockDueSweep(s: State, v: SweepEvent, k: Key, alone: bool)
    requires LockDue(s, k, alone) && LockStepWorks(s, OfSweep(0, v))
    ensures var s' := SweepStep(s, 0, v); LockDue(s', k, alone) || LockDone(s', k, alone)
  {
    if Elsewhere(s.sweeps[0].pc, k) {
      hide LockDone, SweepStep;
      if s.sweeps[0].pc.Picking? {
        PickDue(s, v, k, alone);
      } else {
        hide LockDue;
        ElsewhereDue(s, v, k, alone);
      }
    } else {
      hide LockDue, LockDone, SweepStep;
      LockHalfDue(s, v, k, alone);
    }
  }

  lemma PickDue(s: State, v: SweepEvent, k: Key, alone: bool)
    requires LockDue(s, k, alone) && s.sweeps[0].pc.Picking?
    ensures LockDue(SweepStep(s, 0, v), k, alone)
  {
  }

  /** A visit to another record leaves this one to be locked. */
  lemma ElsewhereDue(s: State, v: SweepEvent, k: Key, alone: bool)
    requires LockDue(s, k, alone) && Elsewhere(s.sweeps[0].pc, k) && !s.sweeps[0].pc.Picking?
    requires LockStepWorks(s, OfSweep(0, v))
    ensures LockDue(SweepStep(s, 0, v), k, alone)
  {
    hide SweepStep;
    if s.sweeps[0].pc.LockReading? || s.sweeps[0].pc.Locking? {
      ElsewhereLocks(s, v, k, alone);
    } else {
      ElsewhereCancels(s, v, k, alone);
    }
  }

  lemma ElsewhereLocks(s: State, v: SweepEvent, k: Key, alone: bool)
    requires LockDue(s, k, alone) && Elsewhere(s.sweeps[0].pc, k)
    requires s.sweeps[0].pc.LockReading? || s.sweeps[0].pc.Locking?
    requires LockStepWorks(s, OfSweep(0, v))
    ensures LockDue(SweepStep(s, 0, v), k, alone)
  {
    hide CanRead;
  }

  lemma ElsewhereCancels(s: State, v: SweepEvent, k: Key, alone: bool)
    requires LockDue(s, k, alone) && Elsewhere(s.sweeps[0].pc, k)
    requires s.sweeps[0].pc.CancelReading? || s.sweeps[0].pc.Cancelling? || s.sweeps[0].pc.Visited?
    requires LockStepWorks(s, OfSweep(0, v))
    ensures LockDue(SweepStep(s, 0, v), k, alone)
  {
    hide CanRead;
  }

  /** The lock half of the visit itself. */
  lemma LockHalfDue(s: State, v: SweepEvent, k: Key, alone: bool)
    requires LockDue(s, k, alone) && !Elsewhere(s.sweeps[0].pc, k) && LockStepWorks(s, OfSweep(0, v))
    ensures var s' := SweepStep(s, 0, v); LockDue(s', k, alone) || LockDone(s', k, alone)
  {
    assert s.sweeps[0].pc.LockReading? || s.sweeps[0].pc.Locking?;
  }

  lemma LockDueStep(s: State, e: Event, k: Key, alone: bool)
    requires Orderly(s) && LockDue(s, k, alone) && LockStepWorks(s, e)
    requires e != Finalise(k) && (alone ==> !FromOutside(e, k))
    ensures LockDue(Step(s, e), k, alone) || LockDone(Step(s, e), k, alone)
  {
    hide ThreadStep, SweepStep, CanRead, AllOk;
    match e
    case OfThread(i, t) =>
      if i < |s.threads| {
        NoThread(s, i, k);
        OtherThreads(s, i, t, k);
      }
    case OfSweep(i, v) =>
      if i < |s.sweeps| {
        LockDueSweep(s, v, k, alone);
      }
    case _ =>
  }

  lemma {:induction false} LockDueRun(s: State, events: seq<Event>, k: Key, alone: bool)
    requires Orderly(s) && (LockDue(s, k, alone) || LockDone(s, k, alone)) && LocksWork(s, events)
    requires Finalise(k) !in events && (alone ==> forall e <- events :: !FromOutside(e, k))
    ensures LockDue(Run(s, events), k, alone) || LockDone(Run(s, events), k, alone)
    decreases |events|
  {
    hide Orderly, LockDue, LockDone, LockStepWorks, Step;
    if events != [] {
      var e, s1 := events[0], Step(s, events[0]);
      StepKeeps(s, e);
      if LockDone(s, k, alone) {
        LockDoneStays(s, e, k, alone);
      } else {
        LockDueStep(s, e, k, alone);
      }
      LockDueRun(s1, events[1..], k, alone);
    }
  }

  /**
   * A sweep that starts at or after lock time locks every market whose record is still
   * created, whatever everybody else does meanwhile, unless the match is finalised first.
   * If nobody else sends that market transactions, the record says so.
   */
  lemma FailureFreeSweepLocks(s: State, now: int, events: seq<Event>, k: Key)
    requires Orderly(s) && !s.sweeping && k in s.records && k in s.chain && k !in s.inFlight
    requires s.records[k].phase == Created && now >= s.records[k].lockTime
    requires LocksWork(Step(s, StartSweep(now)), events) && Finalise(k) !in events
    requires Run(Step(s, StartSweep(now)), events).sweeps == []
    ensures var s' := Run(Step(s, StartSweep(now)), events);
            && k in s'.chain && s'.chain[k].status != Escrow.Open && k in s'.records
            && (s.chain[k].status == Escrow.Open && (forall e <- events :: !FromOutside(e, k)) ==>
                  s'.records[k].phase != Created)
  {
    hide Orderly, Run, LocksWork;
    var alone := s.chain[k].status == Escrow.Open && (forall e <- events :: !FromOutside(e, k));
    var s1 := Step(s, StartSweep(now));
    StepKeeps(s, StartSweep(now));
    assert LockDue(s1, k, alone) by {
      SweepStartsDue(s, now, k, alone);
    }
    LockDueRun(s1, events, k, alone);
  }

  lemma SweepStartsDue(s: State, now: int, k: Key, alone: bool)
    requires Orderly(s) && !s.sweeping && k in s.records && k in s.chain && k !in s.inFlight
    requires s.records[k].phase == Created && now >= s.records[k].lockTime
    requires alone ==> s.chain[k].status == Escrow.Open
    ensures LockDue(Step(s, StartSweep(now)), k, alone)
  {
  }

  // --- a market finalised too early is not ----------------------------------------------------------

  predicate LockingNow(w: Sweep, k: Key) {
    (w.pc.LockReading? || w.pc.Locking?) && w.pc.k == k
  }

  /** Open on chain, past created in memory, and no lock under way. */
  ghost predicate Overlooked(s: State, k: Key) {
    && k in s.chain && s.chain[k].status == Escrow.Open
    && k in s.records && s.records[k].phase != Created
    && forall i :: 0 <= i < |s.sweeps| ==> !LockingNow(s.sweeps[i], k)
  }

  lemma OverlookedSweep(s: State, i: nat, v: SweepEvent, k: Key)
    requires Overlooked(s, k) && i < |s.sweeps|
    ensures Overlooked(SweepStep(s, i, v), k)
  {
    hide SweepStep;
    assert !LockingNow(s.sweeps[i], k);
    SweepKeepsTerms(s, i, v, k);
    SweepLeavesOpen(s, i, v, k);
  }

  lemma SweepLeavesOpen(s: State, i: nat, v: SweepEvent, k: Key)
    requires Overlooked(s, k) && i < |s.sweeps|
    ensures var s' := SweepStep(s, i, v);
            && k in s'.chain && s'.chain[k] == s.chain[k]
            && forall j :: 0 <= j < |s'.sweeps| ==> !LockingNow(s'.sweeps[j], k)
  {
    hide SweepStep;
    assert !LockingNow(s.sweeps[i], k);
    if s.sweeps[i].pc.Picking? || s.sweeps[i].pc.LockReading? || s.sweeps[i].pc.Locking? {
      LockHalfLeavesOpen(s, i, v, k);
    } else {
      CancelHalfLeavesOpen(s, i, v, k);
    }
  }

  lemma LockHalfLeavesOpen(s: State, i: nat, v: SweepEvent, k: Key)
    requires Overlooked(s, k) && i < |s.sweeps| && !LockingNow(s.sweeps[i], k)
    requires s.sweeps[i].pc.Picking? || s.sweeps[i].pc.LockReading? || s.sweeps[i].pc.Locking?
    ensures var s' := SweepStep(s, i, v);
            && k in s'.chain && s'.chain[k] == s.chain[k]
            && forall j :: 0 <= j < |s'.sweeps| ==> !LockingNow(s'.sweeps[j], k)
  {
    hide CanRead, Backstop, SetPhase;
    var w := s.sweeps[i];
    match w.pc
    case Picking =>
      if v.Pick? && v.k in s.records {
        BackstopPc(s.(sweeps := s.sweeps[i := w.(todo := w.todo - {v.k})]), i, v.k);
      }
    case LockReading(m) => LockedPc(s, i, m);
    case Locking(m, _) => LockedPc(s, i, m);
    case _ =>
  }

  /** Going on to the cancel half ends the lock. */
  ghost predicate OnlyOffLock(s: State, s': State, i: nat)
    requires i < |s.sweeps|
  {
    && s'.chain == s.chain && |s'.sweeps| == |s.sweeps| && s'.sweeps == s.sweeps[i := s'.sweeps[i]]
    && !s'.sweeps[i].pc.LockReading? && !s'.sweeps[i].pc.Locking?
  }

  lemma BackstopPc(s: State, i: nat, m: Key)
    requires i < |s.sweeps| && m in s.records
    ensures OnlyOffLock(s, Backstop(s, i, m), i)
  {
  }

  lemma LockedPc(s: State, i: nat, m: Key)
    requires i < |s.sweeps|
    ensures var s1 := SetPhase(s, m, LockedPhase);
            m in s.records ==>
              && m in s1.records && s1.sweeps == s.sweeps && s1.chain == s.chain
              && OnlyOffLock(s, Backstop(s, i, m), i) && OnlyOffLock(s1, Backstop(s1, i, m), i)
  {
  }

  lemma CancelHalfLeavesOpen(s: State, i: nat, v: SweepEvent, k: Key)
    requires Overlooked(s, k) && i < |s.sweeps|
    requires s.sweeps[i].pc.CancelReading? || s.sweeps[i].pc.Cancelling? || s.sweeps[i].pc.Visited?
    ensures var s' := SweepStep(s, i, v);
            && k in s'.chain && s'.chain[k] == s.chain[k]
            && forall j :: 0 <= j < |s'.sweeps| ==> !LockingNow(s'.sweeps[j], k)
  {
    hide CanRead;
  }

  lemma OverlookedThread(s: State, i: nat, t: ThreadEvent, k: Key)
    requires Overlooked(s, k) && i < |s.threads|
    ensures Overlooked(ThreadStep(s, i, t), k)
  {
    hide ThreadStep;
    ThreadEffect(s, i, t);
    ThreadLeavesOpen(s, i, t, k);
    ThreadKeepsTerms(s, i, t, k);
    assert ThreadStep(s, i, t).sweeps == s.sweeps by {
      ThreadGrows(s, i, t);
    }
  }

  lemma ThreadLeavesOpen(s: State, i: nat, t: ThreadEvent, k: Key)
    requires i < |s.threads| && k in s.chain && s.chain[k].status == Escrow.Open
    ensures var s' := ThreadStep(s, i, t); k in s'.chain && s'.chain[k] == s.chain[k]
  {
    hide CanRead;
  }

  lemma OverlookedStep(s: State, e: Event, k: Key)
    requires Overlooked(s, k) && !FromOutside(e, k)
    ensures Overlooked(Step(s, e), k)
  {
    hide ThreadStep, SweepStep, CanRead;
    match e
    case OfThread(i, t) =>
      if i < |s.threads| {
        OverlookedThread(s, i, t, k);
      }
    case OfSweep(i, v) =>
      if i < |s.sweeps| {
        OverlookedSweep(s, i, v, k);
      }
    case _ =>
  }

  lemma {:induction false} OverlookedRun(s: State, events: seq<Event>, k: Key)
    requires Overlooked(s, k) && forall e <- events :: !FromOutside(e, k)
    ensures Overlooked(Run(s, events), k)
    decreases |events|
  {
    hide Overlooked, Step;
    if events != [] {
      OverlookedStep(s, events[0], k);
      OverlookedRun(Step(s, events[0]), events[1..], k);
    }
  }

  /**
   * A match finalised while its market is open and no lock is under way: in no run does
   * the keeper lock, settle or cancel that market, however many sweeps and attempts it
   * makes, until somebody else sends it a transaction.
   */
  lemma FinalisedTooEarlyStaysOpen(s: State, events: seq<Event>, k: Key)
    requires k in s.chain && s.chain[k].status == Escrow.Open
    requires k in s.records && s.records[k].phase == Created && k !in s.inFlight
    requires forall i :: 0 <= i < |s.sweeps| ==> !LockingNow(s.sweeps[i], k)
    requires forall e <- events :: !FromOutside(e, k)
    ensures var s' := Run(Step(s, Finalise(k)), events); k in s'.chain && s'.chain[k].status == Escrow.Open
  {
    hide Run;
    assert Overlooked(Step(s, Finalise(k)), k);
    OverlookedRun(Step(s, Finalise(k)), events, k);
  }

  // --- two ordinary sweeps --------------------------------------------------------------------------

  /** One market, its record, and a sweep suspended at `pc`, its visits made. */
  function Swept(status: Escrow.Status, phase: Phase, now: int, pc: Visit): State {
    State(map[0 := OnChain(status, 0)], map[0 := Record(phase, 10, 10)], map[], {}, [], true, [Sweep(now, {}, pc)], 12)
  }

  /** The same without a sweep. */
  function Idle(status: Escrow.Status, phase: Phase): State {
    State(map[0 := OnChain(status, 0)], map[0 := Record(phase, 10, 10)], map[], {}, [], false, [], 12)
  }

  /** The two events that start a sweep and pick the one market. */
  lemma PicksTheMarket(status: Escrow.Status, phase: Phase, now: int)
    ensures Step(Idle(status, phase), StartSweep(now)).sweeps == [Sweep(now, {0}, Picking)]
    ensures var s := Step(Step(Idle(status, phase), StartSweep(now)), OfSweep(0, Pick(0)));
            && (phase == Created && now >= 10 ==> s == Swept(status, phase, now, LockReading(0)))
            && (phase == LockedPhase && now > 20 ==>
                  s == Swept(status, phase, now, CancelReading(0, status != Escrow.Open)))
  {
    assert Idle(status, phase).records.Keys == {0} && {0} - {0} == {};
  }

  /** At lock time a sweep reads the market, locks it and is done. */
  lemma OrdinarySweepLocks()
    ensures var e := [StartSweep(10), OfSweep(0, Pick(0)), OfSweep(0, SweepRead(Seen(OnChain(Escrow.Open, 0)))),
                      OfSweep(0, TxLands), OfSweep(0, TxReplied(true)), OfSweep(0, Next), OfSweep(0, Done)];
            Run(Idle(Escrow.Open, Created), e) == Idle(Escrow.Locked, LockedPhase)
  {
    var m := OnChain(Escrow.Open, 0);
    var e := [StartSweep(10), OfSweep(0, Pick(0)), OfSweep(0, SweepRead(Seen(m))), OfSweep(0, TxLands),
              OfSweep(0, TxReplied(true)), OfSweep(0, Next), OfSweep(0, Done)];
    hide Step, Run, Idle, Swept;
    PicksTheMarket(Escrow.Open, Created, 10);
    LocksTheMarket();
    EndsAfterVisit(Escrow.Locked, LockedPhase, 10, false);
    SevenSteps(Idle(Escrow.Open, Created), e);
  }

  lemma LocksTheMarket()
    ensures var s := Swept(Escrow.Open, Created, 10, LockReading(0));
            Step(Step(Step(s, OfSweep(0, SweepRead(Seen(OnChain(Escrow.Open, 0))))), OfSweep(0, TxLands)),
                 OfSweep(0, TxReplied(true)))
            == Swept(Escrow.Locked, LockedPhase, 10, Visited(0, false, false))
  {
    assert Step(Swept(Escrow.Open, Created, 10, LockReading(0)), OfSweep(0, SweepRead(Seen(OnChain(Escrow.Open, 0)))))
           == Swept(Escrow.Open, Created, 10, Locking(0, false));
    assert Step(Swept(Escrow.Open, Created, 10, Locking(0, false)), OfSweep(0, TxLands))
           == Swept(Escrow.Locked, Created, 10, Locking(0, true));
  }

  lemma CancelsTheMarket()
    ensures var s := Swept(Escrow.Locked, LockedPhase, 21, CancelReading(0, true));
            Step(Step(Step(s, OfSweep(0, SweepRead(Seen(OnChain(Escrow.Locked, 0))))), OfSweep(0, TxLands)),
                 OfSweep(0, TxReplied(true)))
            == Swept(Escrow.Cancelled, CancelledPhase, 21, Visited(0, true, false))
  {
    var m := OnChain(Escrow.Locked, 0);
    assert Step(Swept(Escrow.Locked, LockedPhase, 21, CancelReading(0, true)), OfSweep(0, SweepRead(Seen(m))))
           == Swept(Escrow.Locked, LockedPhase, 21, Cancelling(0, true, false));
    assert Step(Swept(Escrow.Locked, LockedPhase, 21, Cancelling(0, true, false)), OfSweep(0, TxLands))
           == Swept(Escrow.Cancelled, LockedPhase, 21, Cancelling(0, true, true));
  }

  lemma EndsAfterVisit(status: Escrow.Status, phase: Phase, now: int, due: bool)
    ensures Step(Step(Swept(status, phase, now, Visited(0, due, false)), OfSweep(0, Next)), OfSweep(0, Done))
            == Idle(status, phase)
  {
  }

  /** A second after the deadline a sweep reads the locked market, cancels it and is done. */
  lemma OrdinarySweepCancels()
    ensures var e := [StartSweep(21), OfSweep(0, Pick(0)), OfSweep(0, SweepRead(Seen(OnChain(Escrow.Locked, 0)))),
                      OfSweep(0, TxLands), OfSweep(0, TxReplied(true)), OfSweep(0, Next), OfSweep(0, Done)];
            Run(Idle(Escrow.Locked, LockedPhase), e) == Idle(Escrow.Cancelled, CancelledPhase)
  {
    var m := OnChain(Escrow.Locked, 0);
    var e := [StartSweep(21), OfSweep(0, Pick(0)), OfSweep(0, SweepRead(Seen(m))), OfSweep(0, TxLands),
              OfSweep(0, TxReplied(true)), OfSweep(0, Next), OfSweep(0, Done)];
    hide Step, Run, Idle, Swept;
    PicksTheMarket(Escrow.Locked, LockedPhase, 21);
    CancelsTheMarket();
    EndsAfterVisit(Escrow.Cancelled, CancelledPhase, 21, true);
    SevenSteps(Idle(Escrow.Locked, LockedPhase), e);
  }

  lemma SevenSteps(s: State, e: seq<Event>)
    requires |e| == 7
    ensures Run(s, e)
            == Step(Step(Step(Step(Step(Step(Step(s, e[0]), e[1]), e[2]), e[3]), e[4]), e[5]), e[6])
  {
    hide Step;
    var s4 := Step(Step(Step(Step(s, e[0]), e[1]), e[2]), e[3]);
    FourSteps(s, e[..4]);
    ThreeSteps(s4, e[4..]);
    assert e == e[..4] + e[4..];
    RunConcat(s, e[..4], e[4..]);
  }

  lemma FourSteps(s: State, e: seq<Event>)
    requires |e| == 4
    ensures Run(s, e) == Step(Step(Step(Step(s, e[0]), e[1]), e[2]), e[3])
  {
    hide Step;
    ThreeSteps(Step(s, e[0]), e[1..]);
  }

  lemma ThreeSteps(s: State, e: seq<Event>)
    requires |e| == 3
    ensures Run(s, e) == Step(Step(Step(s, e[0]), e[1]), e[2])
  {
    hide Step;
    assert e[1..][1..] == [e[2]] && [e[2]][1..] == [];
    assert Run(Step(Step(s, e[0]), e[1]), [e[2]]) == Step(Step(Step(s, e[0]), e[1]), e[2]);
  }
}
