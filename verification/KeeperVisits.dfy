/**
 * What single reads and replies make of a record: adoption, the two halves of a sweep's
 * visit, and resolutions found out of band; and that a record in phase locked means a
 * market that is locked.
 */
module KeeperVisits {
  import Escrow
  import opened EscrowTheorems
  import opened Keeper
  import opened KeeperSafety
  import opened KeeperTheorems
  import opened KeeperProgress
  import opened KeeperAttempts

  /** An unknown market is adopted as it was read: missing and open ones are to be locked later. */
  lemma AdoptedAsSeen(s: State, k: Key, read: Read, lockTime: int, resolutionTimeout: int)
    requires k !in s.records
    ensures var s' := Step(s, Adopt(k, read, lockTime, resolutionTimeout));
            && (read == Unreadable || !CanRead(s, k, read) ==> s' == s)
            && (read != Unreadable && CanRead(s, k, read) ==>
                  && s'.records.Keys == s.records.Keys + {k}
                  && s'.records[k].lockTime == lockTime && s'.records[k].resolutionTimeout == resolutionTimeout
                  && match read
                     case Missing => s'.records[k].phase == Created
                     case Seen(m) =>
                       (match m.status
                        case Open => s'.records[k].phase == Created
                        case Locked => s'.records[k].phase == LockedPhase
                        case Settled => s'.records[k].phase == SettledPhase
                        case Cancelled => s'.records[k].phase == CancelledPhase))
  {
    hide CanRead;
  }

  /** The sweep is over, and nothing else has changed. */
  ghost predicate SweepOver(s: State, s': State) {
    s' == s.(sweeping := false, sweeps := s'.sweeps) && |s'.sweeps| == |s.sweeps| - 1
  }

  /** The sweep is at `pc`, and nothing else has changed. */
  ghost predicate OnlyAt(s: State, s': State, i: nat, pc: Visit) {
    i < |s.sweeps| && s' == s.(sweeps := s.sweeps[i := s.sweeps[i].(pc := pc)])
  }

  /** A record that is over is passed by; any other is visited, and locked first if it is due. */
  lemma PickVisits(s: State, i: nat, k: Key)
    requires i < |s.sweeps| && s.sweeps[i].pc == Picking && k in s.sweeps[i].todo && k in s.records
    ensures var s', w, r := Step(s, OfSweep(i, Pick(k))), s.sweeps[i], s.records[k];
            && s' == s.(sweeps := s'.sweeps) && |s'.sweeps| == |s.sweeps|
            && s'.sweeps[i].todo == w.todo - {k} && s'.sweeps[i].now == w.now
            && (r.phase == SettledPhase || r.phase == CancelledPhase ==> s'.sweeps[i].pc == Picking)
            && (r.phase == Created && w.now >= r.lockTime ==> s'.sweeps[i].pc == LockReading(k))
            && (r.phase == Created && w.now < r.lockTime ==> s'.sweeps[i].pc == Visited(k, false, false))
            && (r.phase == LockedPhase || r.phase == Settling || r.phase == ErrorPhase ==>
                  (s'.sweeps[i].pc.CancelReading? <==> w.now > r.lockTime + r.resolutionTimeout))
  {
  }

  /** Before the lock: only a market read as open is sent one, and only one read as locked is noted as such. */
  lemma LockReadDecides(s: State, i: nat, read: Read)
    requires i < |s.sweeps| && s.sweeps[i].pc.LockReading? && s.sweeps[i].pc.k in s.records
    requires read == Unreadable || CanRead(s, s.sweeps[i].pc.k, read)
    ensures var s', k := Step(s, OfSweep(i, SweepRead(read))), s.sweeps[i].pc.k;
            && (read == Unreadable ==> SweepOver(s, s'))
            && (read.Seen? && read.m.status == Escrow.Open ==> OnlyAt(s, s', i, Locking(k, false)))
            && (read.Seen? && read.m.status == Escrow.Locked ==>
                  && k in s'.records && s'.records == s.records[k := s.records[k].(phase := LockedPhase)]
                  && OnlyOffLock(s, s', i))
            && (read == Missing || (read.Seen? && Terminal(read.m.status)) ==>
                  s'.records == s.records && OnlyOffLock(s, s', i))
  {
  }

  /** A lock that succeeds is noted; one that is refused leaves the record for the next sweep. */
  lemma LockReplyDecides(s: State, i: nat, ok: bool)
    requires i < |s.sweeps| && s.sweeps[i].pc.Locking? && s.sweeps[i].pc.k in s.records
    requires ok ==> s.sweeps[i].pc.landed
    ensures var s', k := Step(s, OfSweep(i, TxReplied(ok))), s.sweeps[i].pc.k;
            && OnlyOffLock(s, s', i)
            && s'.records == if ok then s.records[k := s.records[k].(phase := LockedPhase)] else s.records
  {
  }

  /** Past the deadline: a market read as locked is cancelled, one read as resolved is recorded as read. */
  lemma CancelReadDecides(s: State, i: nat, read: Read)
    requires i < |s.sweeps| && s.sweeps[i].pc.CancelReading? && s.sweeps[i].pc.k in s.records
    requires read == Unreadable || CanRead(s, s.sweeps[i].pc.k, read)
    ensures var s', k, due := Step(s, OfSweep(i, SweepRead(read))), s.sweeps[i].pc.k, s.sweeps[i].pc.due;
            && (read == Unreadable ==> SweepOver(s, s'))
            && (read.Seen? && read.m.status == Escrow.Locked ==> OnlyAt(s, s', i, Cancelling(k, due, false)))
            && (read == Missing || (read.Seen? && read.m.status == Escrow.Open) ==>
                  OnlyAt(s, s', i, Visited(k, due, false)))
            && (read.Seen? && Terminal(read.m.status) ==>
                  s'.records == s.records[k := s.records[k].(
                    phase := if read.m.status == Escrow.Settled then SettledPhase else CancelledPhase)])
  {
  }

  // --- resolutions found ---------------------------------------------------------------------------

  /** Refused as already resolved, the settler reads the market and records what it finds. */
  lemma OutOfBandIsRecorded(s: State, i: nat, a: bool, b: bool)
    requires Orderly(s) && i < |s.threads| && s.threads[i].pc.Submitting? && s.threads[i].market in s.records
    requires Resolved(s, s.threads[i].market)
    ensures var k := s.threads[i].market;
            var s1 := Step(s, OfThread(i, GotReply(AlreadyResolved, a)));
            var s2 := Step(s1, OfThread(i, GotMarket(Seen(s.chain[k]), b)));
            Recorded(s2, k) && k !in Step(s2, OfThread(i, Leave)).inFlight
  {
    var k := s.threads[i].market;
    var s1 := Step(s, OfThread(i, GotReply(AlreadyResolved, a)));
    assert s1 == Put(s, i, s.threads[i].(pc := Resolving));
    assert CanRead(s1, k, Seen(s.chain[k]));
  }

  /** An attempt that finds its market resolved records it, with or without a proof to show. */
  lemma FoundResolvedIsRecorded(s: State, i: nat, a: bool, ok: bool, claimed: nat, b: bool)
    requires i < |s.threads| && s.threads[i].pc == Fetching && s.threads[i].market in s.records
    requires Resolved(s, s.threads[i].market)
    ensures var k := s.threads[i].market;
            var s1 := Step(s, OfThread(i, GotMarket(Seen(s.chain[k]), a)));
            var s2 := Step(s1, OfThread(i, GotProof(ok, claimed, b)));
            Recorded(s2, k) && k !in Step(s2, OfThread(i, Leave)).inFlight
  {
    var k := s.threads[i].market;
    var s1 := Step(s, OfThread(i, GotMarket(Seen(s.chain[k]), a)));
    assert s1 == Put(s, i, s.threads[i].(pc := Backfilling(s.chain[k])));
  }

  // --- what locked means --------------------------------------------------------------------------

  /** A record in phase locked, and a lock that has landed, are of a market that is no longer open. */
  ghost predicate LocksAreReal(s: State) {
    && (forall k :: k in s.records && s.records[k].phase == LockedPhase ==> PastOpen(s, k))
    && forall i :: 0 <= i < |s.sweeps| ==> LandedIsReal(s, s.sweeps[i])
  }

  ghost predicate PastOpen(s: State, k: Key) {
    k in s.chain && s.chain[k].status != Escrow.Open
  }

  ghost predicate LandedIsReal(s: State, w: Sweep) {
    w.pc.Locking? && w.pc.landed ==> PastOpen(s, w.pc.k)
  }

  /** Whatever else moves, a record is put in phase locked only for a market past Open. */
  ghost predicate NewLocksReal(s: State, s': State) {
    forall k :: k in s'.records && s'.records[k].phase == LockedPhase ==>
      PastOpen(s', k) || (k in s.records && s.records[k].phase == LockedPhase)
  }

  lemma StillReal(s: State, s': State)
    requires LocksAreReal(s) && Grows(s, s') && NewLocksReal(s, s')
    requires forall i :: 0 <= i < |s'.sweeps| ==> LandedIsReal(s', s'.sweeps[i]) || s'.sweeps[i] in s.sweeps
    ensures LocksAreReal(s')
  {
    forall k | k in s'.records && s'.records[k].phase == LockedPhase ensures PastOpen(s', k) {
      if k in s.records && s.records[k].phase == LockedPhase {
        assert PastOpen(s, k);
      }
    }
    forall i | 0 <= i < |s'.sweeps| ensures LandedIsReal(s', s'.sweeps[i]) {
      if s'.sweeps[i] in s.sweeps {
        var j :| 0 <= j < |s.sweeps| && s.sweeps[j] == s'.sweeps[i];
        assert LandedIsReal(s, s.sweeps[j]);
      }
    }
  }

  lemma FailSetsNoLock(s: State, i: nat, retriable: bool)
    requires i < |s.threads|
    ensures NewLocksReal(s, Fail(s, i, retriable))
  {
  }

  lemma ResolveSetsNoLock(s: State, k: Key, seen: OnChain)
    ensures NewLocksReal(s, Resolve(s, k, seen)) && |Resolve(s, k, seen).threads| == |s.threads|
  {
  }

  lemma ThreadSetsNoLock(s: State, i: nat, e: ThreadEvent)
    requires i < |s.threads|
    ensures NewLocksReal(s, ThreadStep(s, i, e))
  {
    hide CanRead, Fail, Resolve;
    FailSetsNoLock(s, i, true);
    FailSetsNoLock(s, i, false);
    match (s.threads[i].pc, e)
    case (Backfilling(seen), GotProof(_, _, _)) => ResolveSetsNoLock(s, s.threads[i].market, seen);
    case (_, GotMarket(read, _)) =>
      if read.Seen? {
        ResolveSetsNoLock(s, s.threads[i].market, read.m);
      }
    case _ =>
  }

  /** What one event of sweep `i` does to locks. */
  ghost predicate SweepLocksReal(s: State, s': State, i: nat)
    requires i < |s.sweeps|
  {
    && NewLocksReal(s, s')
    && (|s'.sweeps| == |s.sweeps| ==> LandedIsReal(s', s'.sweeps[i]) && s'.sweeps == s.sweeps[i := s'.sweeps[i]])
    && (|s'.sweeps| != |s.sweeps| ==> s'.sweeps == s.sweeps[..i] + s.sweeps[i + 1..])
  }

  lemma LockHalfReal(s: State, i: nat, v: SweepEvent)
    requires i < |s.sweeps| && LandedIsReal(s, s.sweeps[i])
    requires s.sweeps[i].pc.Picking? || s.sweeps[i].pc.LockReading? || s.sweeps[i].pc.Locking?
    ensures SweepLocksReal(s, SweepStep(s, i, v), i)
  {
    hide Backstop;
    var w := s.sweeps[i];
    match w.pc
    case Picking =>
      if v.Pick? && v.k in s.records {
        var s1 := s.(sweeps := s.sweeps[i := w.(todo := w.todo - {v.k})]);
        BackstopPc(s1, i, v.k);
        BackstopKeepsChain(s1, i, v.k);
      }
    case LockReading(m) =>
      LockedPc(s, i, m);
      LockedBackstop(s, i, m);
    case Locking(m, _) =>
      LockedPc(s, i, m);
      LockedBackstop(s, i, m);
  }

  lemma CancelHalfReal(s: State, i: nat, v: SweepEvent)
    requires i < |s.sweeps|
    requires s.sweeps[i].pc.CancelReading? || s.sweeps[i].pc.Cancelling? || s.sweeps[i].pc.Visited?
    ensures SweepLocksReal(s, SweepStep(s, i, v), i)
  {
    hide CanRead;
  }

  lemma SweepReal(s: State, i: nat, v: SweepEvent)
    requires LocksAreReal(s) && i < |s.sweeps|
    ensures LocksAreReal(SweepStep(s, i, v))
  {
    hide SweepStep;
    assert LandedIsReal(s, s.sweeps[i]);
    if s.sweeps[i].pc.Picking? || s.sweeps[i].pc.LockReading? || s.sweeps[i].pc.Locking? {
      LockHalfReal(s, i, v);
    } else {
      CancelHalfReal(s, i, v);
    }
    SweepGrows(s, i, v);
    StillReal(s, SweepStep(s, i, v));
  }

  lemma StepReal(s: State, e: Event)
    requires LocksAreReal(s)
    ensures LocksAreReal(Step(s, e))
  {
    hide ThreadStep, SweepStep, LocksAreReal, Grows;
    match e
    case OfThread(i, t) =>
      if i < |s.threads| {
        ThreadSetsNoLock(s, i, t);
        ThreadGrows(s, i, t);
        StillReal(s, ThreadStep(s, i, t));
      }
    case OfSweep(i, v) =>
      if i < |s.sweeps| {
        SweepReal(s, i, v);
      }
    case _ =>
      StepGrows(s, e);
      StillReal(s, Step(s, e));
  }

  /**
   * In every run, whatever the reads show and whichever transactions fail, a market whose
   * record says locked is closed for betting on chain.
   */
  lemma {:induction false} LockedMeansLocked(s: State, events: seq<Event>)
    requires LocksAreReal(s)
    ensures LocksAreReal(Run(s, events))
    decreases |events|
  {
    hide LocksAreReal, Step;
    if events != [] {
      StepReal(s, events[0]);
      LockedMeansLocked(Step(s, events[0]), events[1..]);
    }
  }
}
