/**
 * What every interleaving keeps: attempts do not overlap and are bounded, sweeps do
 * not overlap, and the keeper's memory never contradicts the chain as long as what it
 * records shows a terminal status.
 */
module KeeperSafety {
  import Escrow
  import opened EscrowTheorems
  import opened Keeper

  // --- the invariant ------------------------------------------------------------------------

  /** A terminal phase and a receipt are the chain's own word. */
  ghost predicate Truthful(s: State) {
    && (forall k :: k in s.records && IsOver(s.records[k].phase) ==>
          k in s.chain && PhaseOf(s.chain[k].status) == s.records[k].phase)
    && (forall k :: k in s.receipts ==> k in s.chain && s.chain[k] == OnChain(Escrow.Settled, s.receipts[k]))
  }

  /** At most one chain of attempts per market, at most one sweep. */
  ghost predicate OneEach(s: State) {
    && (forall i, j :: 0 <= i < j < |s.threads| ==> s.threads[i].market != s.threads[j].market)
    && (forall k :: k in s.inFlight <==> exists i :: 0 <= i < |s.threads| && s.threads[i].market == k)
    && |s.sweeps| == (if s.sweeping then 1 else 0)
  }

  ghost predicate Resolved(s: State, k: Key) {
    k in s.chain && Terminal(s.chain[k].status)
  }

  /** The attempt budget: the first attempt always runs. */
  function Budget(s: State): int {
    if s.maxAttempts > 1 then s.maxAttempts else 1
  }

  /** What a suspended attempt knows. */
  ghost predicate ThreadOk(s: State, t: Thread) {
    && 1 <= t.n <= Budget(s)
    && match t.pc
       case Sleeping => t.n < s.maxAttempts
       case Backfilling(seen) => Resolved(s, t.market) && seen == s.chain[t.market]
       case Submitting(claimed, landed) => landed ==> Resolved(s, t.market)
       case Confirming => Resolved(s, t.market)
       case Resolving => Resolved(s, t.market)
       case _ => true
  }

  /** What a suspended sweep knows. */
  ghost predicate SweepOk(s: State, w: Sweep) {
    match w.pc
    case CancelReading(k, due) => due ==> k in s.chain && s.chain[k].status != Escrow.Open
    case Cancelling(k, due, landed) =>
      (due ==> k in s.chain && s.chain[k].status != Escrow.Open)
      && (landed ==> k in s.chain && s.chain[k].status == Escrow.Cancelled)
    case _ => true
  }

  ghost predicate AllOk(s: State) {
    && (forall i :: 0 <= i < |s.threads| ==> ThreadOk(s, s.threads[i]))
    && (forall i :: 0 <= i < |s.sweeps| ==> SweepOk(s, s.sweeps[i]))
  }

  /** What every event keeps, whatever the reads show. */
  ghost predicate Orderly(s: State) {
    OneEach(s) && AllOk(s)
  }

  // --- the chain only moves forward ---------------------------------------------------------------

  ghost predicate Grows(s: State, s': State) {
    && s'.maxAttempts == s.maxAttempts
    && forall k :: k in s.chain ==> k in s'.chain && Earlier(s.chain[k], s'.chain[k])
  }

  lemma GrownThread(s: State, s': State, t: Thread)
    requires Grows(s, s') && ThreadOk(s, t)
    ensures ThreadOk(s', t)
  {
  }

  lemma GrownSweep(s: State, s': State, w: Sweep)
    requires Grows(s, s') && SweepOk(s, w)
    ensures SweepOk(s', w)
  {
  }

  /** What threads and sweeps know survives the chain moving on. */
  lemma AllGrown(s: State, s': State)
    requires AllOk(s) && Grows(s, s') && s'.threads == s.threads && s'.sweeps == s.sweeps
    ensures AllOk(s')
  {
    forall i | 0 <= i < |s.threads| ensures ThreadOk(s', s.threads[i]) {
      GrownThread(s, s', s.threads[i]);
    }
    forall i | 0 <= i < |s.sweeps| ensures SweepOk(s', s.sweeps[i]) {
      GrownSweep(s, s', s.sweeps[i]);
    }
  }

  // --- the primitive effects ------------------------------------------------------------------------

  lemma ChainAdvances(s: State, k: Key, to: OnChain)
    requires Orderly(s) && (k in s.chain ==> Moves(s.chain[k], to))
    ensures var s' := s.(chain := s.chain[k := to]);
            Orderly(s') && (Truthful(s) ==> Truthful(s'))
  {
    AllGrown(s, s.(chain := s.chain[k := to]));
  }

  lemma PhaseSet(s: State, k: Key, p: Phase)
    requires Orderly(s)
    ensures Orderly(SetPhase(s, k, p))
    ensures Truthful(s) && (IsOver(p) ==> k in s.chain && PhaseOf(s.chain[k].status) == p) ==>
              Truthful(SetPhase(s, k, p))
  {
    AllGrown(s, SetPhase(s, k, p));
  }

  lemma ResolutionRecorded(s: State, k: Key, seen: OnChain)
    requires Orderly(s)
    ensures Orderly(Resolve(s, k, seen))
    ensures Truthful(s) && Resolved(s, k) && seen == s.chain[k] ==> Truthful(Resolve(s, k, seen))
  {
    PhaseSet(s, k, if seen.status == Escrow.Settled then SettledPhase else CancelledPhase);
    AllGrown(s, Resolve(s, k, seen));
  }

  lemma ThreadPut(s: State, i: nat, t: Thread)
    requires Orderly(s) && i < |s.threads| && t.market == s.threads[i].market && ThreadOk(s, t)
    ensures Orderly(Put(s, i, t)) && (Truthful(s) ==> Truthful(Put(s, i, t)))
  {
    var s' := Put(s, i, t);
    assert Grows(s, s');
    forall j | 0 <= j < |s'.threads| ensures ThreadOk(s', s'.threads[j]) {
      GrownThread(s, s', s'.threads[j]);
    }
    forall j | 0 <= j < |s.sweeps| ensures SweepOk(s', s.sweeps[j]) {
      GrownSweep(s, s', s.sweeps[j]);
    }
    forall k ensures k in s'.inFlight <==> exists j :: 0 <= j < |s'.threads| && s'.threads[j].market == k {
      if k in s.inFlight {
        var j :| 0 <= j < |s.threads| && s.threads[j].market == k;
        assert s'.threads[j].market == k;
      }
    }
  }

  lemma ThreadEnds(s: State, i: nat)
    requires Orderly(s) && i < |s.threads|
    ensures Orderly(End(s, i)) && (Truthful(s) ==> Truthful(End(s, i)))
  {
    var s' := End(s, i);
    assert Grows(s, s');
    forall j | 0 <= j < |s'.threads|
      ensures ThreadOk(s', s'.threads[j]) && s'.threads[j].market != s.threads[i].market
    {
      var j' := if j < i then j else j + 1;
      assert s'.threads[j] == s.threads[j'];
      GrownThread(s, s', s.threads[j']);
    }
    forall j | 0 <= j < |s.sweeps| ensures SweepOk(s', s.sweeps[j]) {
      GrownSweep(s, s', s.sweeps[j]);
    }
    forall k ensures k in s'.inFlight <==> exists j :: 0 <= j < |s'.threads| && s'.threads[j].market == k {
      if k in s'.inFlight {
        var j :| 0 <= j < |s.threads| && s.threads[j].market == k;
        assert s'.threads[if j < i then j else j - 1].market == k;
      }
    }
  }

  lemma AttemptFails(s: State, i: nat, retriable: bool)
    requires Orderly(s) && i < |s.threads|
    ensures Orderly(Fail(s, i, retriable)) && (Truthful(s) ==> Truthful(Fail(s, i, retriable)))
  {
    var t := s.threads[i];
    hide Truthful, OneEach, AllOk;
    if !retriable || t.n >= s.maxAttempts {
      PhaseSet(s, t.market, ErrorPhase);
      ThreadEnds(SetPhase(s, t.market, ErrorPhase), i);
    } else {
      ThreadFact(s, i);
      ThreadPut(s, i, t.(pc := Sleeping));
    }
  }

  lemma ThreadFact(s: State, i: nat)
    requires Orderly(s) && i < |s.threads|
    ensures ThreadOk(s, s.threads[i])
  {
  }

  lemma SweepPut(s: State, i: nat, pc: Visit)
    requires Orderly(s) && i < |s.sweeps| && SweepOk(s, s.sweeps[i].(pc := pc))
    ensures Orderly(PutSweep(s, i, pc)) && (Truthful(s) ==> Truthful(PutSweep(s, i, pc)))
  {
    var s' := PutSweep(s, i, pc);
    assert Grows(s, s');
    forall j | 0 <= j < |s.threads| ensures ThreadOk(s', s.threads[j]) {
      GrownThread(s, s', s.threads[j]);
    }
    forall j | 0 <= j < |s'.sweeps| ensures SweepOk(s', s'.sweeps[j]) {
      GrownSweep(s, s', s'.sweeps[j]);
    }
  }

  lemma SweepEnds(s: State, i: nat)
    requires Orderly(s) && i < |s.sweeps|
    ensures Orderly(EndSweep(s, i)) && (Truthful(s) ==> Truthful(EndSweep(s, i)))
  {
    var s' := EndSweep(s, i);
    assert Grows(s, s') && |s'.sweeps| == 0;
    forall j | 0 <= j < |s.threads| ensures ThreadOk(s', s.threads[j]) {
      GrownThread(s, s', s.threads[j]);
    }
  }

  // --- every event -----------------------------------------------------------------------------------

  /** Whether an event records a read of the market, and what that read shows. */
  predicate Records(s: State, e: Event) {
    && e.OfThread? && e.i < |s.threads| && e.t.GotMarket? && e.t.read.Seen?
    && (s.threads[e.i].pc == Confirming || s.threads[e.i].pc == Resolving)
  }

  /** What is about to be recorded shows a terminal status. */
  predicate RecordsTerminal(s: State, e: Event) {
    Records(s, e) ==> Terminal(e.t.read.m.status)
  }

  /** A read that shows a terminal status shows the market as it is, however stale the read. */
  lemma TerminalReadsAreFinal(s: State, k: Key, m: OnChain)
    requires CanRead(s, k, Seen(m)) && Terminal(m.status)
    ensures Resolved(s, k) && m == s.chain[k]
  {
  }

  ghost predicate Kept(s: State, s': State, truth: bool) {
    Orderly(s') && (Truthful(s) && truth ==> Truthful(s'))
  }

  lemma ThreadStepKeeps(s: State, i: nat, e: ThreadEvent)
    requires Orderly(s) && i < |s.threads|
    ensures Kept(s, ThreadStep(s, i, e), RecordsTerminal(s, OfThread(i, e)))
  {
    hide Truthful, OneEach, AllOk, Put, End, Fail, Resolve;
    var t := s.threads[i];
    ThreadFact(s, i);
    match (t.pc, e)
    case (Sleeping, Wake) => ThreadPut(s, i, Thread(t.market, t.n + 1, Fetching));
    case (Fetching, GotMarket(read, retriable)) =>
      AttemptFails(s, i, retriable);
      AttemptFails(s, i, true);
      if CanRead(s, t.market, read) && read.Seen? {
        if Terminal(read.m.status) {
          TerminalReadsAreFinal(s, t.market, read.m);
          ThreadPut(s, i, t.(pc := Backfilling(read.m)));
        } else if read.m.status != Escrow.Open {
          ThreadPut(s, i, t.(pc := Proving));
        }
      }
    case (Backfilling(seen), GotProof(_, _, _)) => RecordAndFinish(s, i, seen);
    case (Proving, GotProof(ok, claimed, retriable)) =>
      AttemptFails(s, i, retriable);
      ThreadPut(s, i, t.(pc := Submitting(claimed, false)));
    case (Submitting(claimed, landed), SettleLands(to)) => SettleLandsKeeps(s, i, to);
    case (Submitting(claimed, landed), GotReply(reply, retriable)) =>
      AttemptFails(s, i, retriable);
      if landed {
        ThreadPut(s, i, t.(pc := Confirming));
      }
      if Resolved(s, t.market) {
        ThreadPut(s, i, t.(pc := Resolving));
      }
    case (Confirming, GotMarket(read, retriable)) =>
      AttemptFails(s, i, retriable);
      if read.Seen? {
        RecordAndFinish(s, i, read.m);
        if CanRead(s, t.market, read) && Terminal(read.m.status) {
          TerminalReadsAreFinal(s, t.market, read.m);
        }
      }
    case (Resolving, GotMarket(read, _)) =>
      ThreadEnds(s, i);
      if read.Seen? {
        RecordAndFinish(s, i, read.m);
        if CanRead(s, t.market, read) && Terminal(read.m.status) {
          TerminalReadsAreFinal(s, t.market, read.m);
        }
      }
    case (Finished, Leave) => ThreadEnds(s, i);
    case _ =>
  }

  lemma RecordAndFinish(s: State, i: nat, seen: OnChain)
    requires Orderly(s) && i < |s.threads|
    ensures |Resolve(s, s.threads[i].market, seen).threads| == |s.threads|
    ensures var s' := Put(Resolve(s, s.threads[i].market, seen), i, s.threads[i].(pc := Finished));
            Kept(s, s', Resolved(s, s.threads[i].market) && seen == s.chain[s.threads[i].market])
  {
    var t := s.threads[i];
    ThreadFact(s, i);
    ResolutionRecorded(s, t.market, seen);
    var s1 := Resolve(s, t.market, seen);
    assert s1.threads == s.threads && s1.maxAttempts == s.maxAttempts;
    hide Truthful, OneEach, AllOk;
    ThreadPut(s1, i, t.(pc := Finished));
  }

  lemma SettleLandsKeeps(s: State, i: nat, to: OnChain)
    requires Orderly(s) && i < |s.threads|
    ensures Kept(s, ThreadStep(s, i, SettleLands(to)), true)
  {
    hide Truthful, OneEach, AllOk;
    var t := s.threads[i];
    assert ThreadStep(s, i, SettleLands(to)) != s ==> t.pc.Submitting?;
    if t.pc.Submitting? && !t.pc.landed && t.market in s.chain && s.chain[t.market].status == Escrow.Locked
       && Terminal(to.status) && to.winner == t.pc.claimed {
      ChainAdvances(s, t.market, to);
      var s1 := s.(chain := s.chain[t.market := to]);
      ThreadFact(s, i);
      ThreadPut(s1, i, t.(pc := Submitting(t.pc.claimed, true)));
    }
  }

  lemma BackstopKeeps(s: State, i: nat, k: Key)
    requires Orderly(s) && i < |s.sweeps| && k in s.records
    ensures Kept(s, Backstop(s, i, k), true)
  {
    hide Truthful, OneEach, AllOk;
    SweepPut(s, i, CancelReading(k, k in s.chain && s.chain[k].status != Escrow.Open));
    SweepPut(s, i, Visited(k, false, false));
  }

  lemma PickKeeps(s: State, i: nat, k: Key)
    requires Orderly(s) && i < |s.sweeps|
    ensures Kept(s, s.(sweeps := s.sweeps[i := s.sweeps[i].(todo := s.sweeps[i].todo - {k})]), true)
  {
    var s' := s.(sweeps := s.sweeps[i := s.sweeps[i].(todo := s.sweeps[i].todo - {k})]);
    assert Grows(s, s');
    forall j | 0 <= j < |s.threads| ensures ThreadOk(s', s.threads[j]) {
      GrownThread(s, s', s.threads[j]);
    }
    forall j | 0 <= j < |s'.sweeps| ensures SweepOk(s', s'.sweeps[j]) {
      assert SweepOk(s, s.sweeps[j]);
    }
  }

  lemma SweepFact(s: State, i: nat)
    requires Orderly(s) && i < |s.sweeps|
    ensures SweepOk(s, s.sweeps[i])
  {
  }

  lemma SweepStepKeeps(s: State, i: nat, e: SweepEvent)
    requires Orderly(s) && i < |s.sweeps|
    ensures Kept(s, SweepStep(s, i, e), true)
  {
    hide Truthful, OneEach, AllOk, PutSweep, EndSweep, Backstop, SetPhase;
    var w := s.sweeps[i];
    SweepFact(s, i);
    SweepEnds(s, i);
    match (w.pc, e)
    case (Picking, Pick(k)) =>
      if k in s.records {
        PickKeeps(s, i, k);
        var s1 := s.(sweeps := s.sweeps[i := w.(todo := w.todo - {k})]);
        SweepPut(s1, i, LockReading(k));
        BackstopKeeps(s1, i, k);
      }
    case (LockReading(k), SweepRead(read)) =>
      SweepPut(s, i, Locking(k, false));
      if k in s.records {
        BackstopKeeps(s, i, k);
        LockedKeeps(s, i, k);
      }
    case (Locking(k, landed), TxLands) => LockLandsKeeps(s, i, k);
    case (Locking(k, landed), TxReplied(ok)) =>
      if k in s.records {
        BackstopKeeps(s, i, k);
        LockedKeeps(s, i, k);
      }
    case (CancelReading(k, due), SweepRead(read)) =>
      SweepPut(s, i, Cancelling(k, due, false));
      SweepPut(s, i, Visited(k, due, false));
      if CanRead(s, k, read) && read.Seen? && Terminal(read.m.status) {
        TerminalReadsAreFinal(s, k, read.m);
        PhaseAndVisit(s, i, k, PhaseOf(read.m.status), Visited(k, due, false));
      }
    case (Cancelling(k, due, landed), TxLands) => CancelLandsKeeps(s, i, k, due);
    case (Cancelling(k, due, landed), TxReplied(ok)) =>
      SweepPut(s, i, Visited(k, due, !ok));
      if landed {
        PhaseAndVisit(s, i, k, CancelledPhase, Visited(k, due, !ok));
      }
    case (Visited(_, _, _), Next) => SweepPut(s, i, Picking);
    case _ =>
  }

  lemma PhaseAndVisit(s: State, i: nat, k: Key, p: Phase, pc: Visit)
    requires Orderly(s) && i < |s.sweeps| && pc.Visited?
    requires IsOver(p) ==> k in s.chain && PhaseOf(s.chain[k].status) == p
    ensures |SetPhase(s, k, p).sweeps| == |s.sweeps| && Kept(s, PutSweep(SetPhase(s, k, p), i, pc), true)
  {
    hide Truthful, OneEach, AllOk;
    PhaseSet(s, k, p);
    SweepPut(SetPhase(s, k, p), i, pc);
  }

  lemma LockedKeeps(s: State, i: nat, k: Key)
    requires Orderly(s) && i < |s.sweeps| && k in s.records
    ensures var s1 := SetPhase(s, k, LockedPhase);
            k in s1.records && s1.sweeps == s.sweeps && Kept(s, Backstop(s1, i, k), true)
  {
    hide Truthful, OneEach, AllOk, Backstop;
    PhaseSet(s, k, LockedPhase);
    BackstopKeeps(SetPhase(s, k, LockedPhase), i, k);
  }

  lemma LockLandsKeeps(s: State, i: nat, k: Key)
    requires Orderly(s) && i < |s.sweeps| && s.sweeps[i].pc.Locking? && s.sweeps[i].pc.k == k
    ensures Kept(s, SweepStep(s, i, TxLands), true)
  {
    hide Truthful, OneEach, AllOk;
    if !s.sweeps[i].pc.landed && k in s.chain && s.chain[k].status == Escrow.Open {
      ChainAdvances(s, k, s.chain[k].(status := Escrow.Locked));
      SweepPut(s.(chain := s.chain[k := s.chain[k].(status := Escrow.Locked)]), i, Locking(k, true));
    }
  }

  lemma CancelLandsKeeps(s: State, i: nat, k: Key, due: bool)
    requires Orderly(s) && i < |s.sweeps| && s.sweeps[i].pc.Cancelling? && s.sweeps[i].pc.k == k
             && s.sweeps[i].pc.due == due
    ensures Kept(s, SweepStep(s, i, TxLands), true)
  {
    hide Truthful, OneEach, AllOk;
    if !s.sweeps[i].pc.landed && k in s.chain && s.chain[k].status == Escrow.Locked {
      ChainAdvances(s, k, s.chain[k].(status := Escrow.Cancelled));
      SweepPut(s.(chain := s.chain[k := s.chain[k].(status := Escrow.Cancelled)]), i, Cancelling(k, due, true));
    }
  }

  lemma FinaliseKeeps(s: State, k: Key)
    requires Orderly(s)
    ensures Kept(s, Step(s, Finalise(k)), true)
  {
    PhaseSet(s, k, Settling);
    if k in s.records && k !in s.inFlight && !IsOver(s.records[k].phase) {
      hide Truthful;
      ThreadStarts(SetPhase(s, k, Settling), k);
    }
  }

  lemma ThreadStarts(s: State, k: Key)
    requires Orderly(s) && k !in s.inFlight
    ensures Kept(s, s.(inFlight := s.inFlight + {k}, threads := s.threads + [Thread(k, 1, Fetching)]), true)
  {
    var t := Thread(k, 1, Fetching);
    var s' := s.(inFlight := s.inFlight + {k}, threads := s.threads + [t]);
    assert Grows(s, s');
    forall j | 0 <= j < |s'.threads| ensures ThreadOk(s', s'.threads[j]) {
      if j < |s.threads| {
        GrownThread(s, s', s.threads[j]);
      }
    }
    forall j | 0 <= j < |s.sweeps| ensures SweepOk(s', s.sweeps[j]) {
      GrownSweep(s, s', s.sweeps[j]);
    }
    forall m ensures m in s'.inFlight <==> exists j :: 0 <= j < |s'.threads| && s'.threads[j].market == m {
      if m in s.inFlight {
        var j :| 0 <= j < |s.threads| && s.threads[j].market == m;
        assert s'.threads[j].market == m;
      }
      assert s'.threads[|s.threads|].market == k;
    }
    forall j | 0 <= j < |s.threads| ensures s.threads[j].market != k {
      assert s.threads[j].market in s.inFlight;
    }
  }

  lemma AdoptKeeps(s: State, k: Key, read: Read, lockTime: int, resolutionTimeout: int)
    requires Orderly(s)
    ensures Kept(s, Step(s, Adopt(k, read, lockTime, resolutionTimeout)), true)
  {
    var s' := Step(s, Adopt(k, read, lockTime, resolutionTimeout));
    AllGrown(s, s');
    if read.Seen? && Terminal(read.m.status) && CanRead(s, k, read) {
      TerminalReadsAreFinal(s, k, read.m);
    }
  }

  lemma StartSweepKeeps(s: State, now: int)
    requires Orderly(s)
    ensures Kept(s, Step(s, StartSweep(now)), true)
  {
    var s' := Step(s, StartSweep(now));
    assert Grows(s, s');
    forall j | 0 <= j < |s.threads| ensures ThreadOk(s', s.threads[j]) {
      GrownThread(s, s', s.threads[j]);
    }
    forall j | 0 <= j < |s'.sweeps| ensures SweepOk(s', s'.sweeps[j]) {
      if j < |s.sweeps| {
        GrownSweep(s, s', s.sweeps[j]);
      }
    }
  }

  /**
   * Every event keeps the order of attempts and sweeps; it keeps the truth of the
   * memory too, if what it records shows a terminal status.
   */
  lemma StepKeeps(s: State, e: Event)
    requires Orderly(s)
    ensures Orderly(Step(s, e))
    ensures Truthful(s) && RecordsTerminal(s, e) ==> Truthful(Step(s, e))
  {
    hide Truthful, OneEach, AllOk, ThreadStep, SweepStep, SetPhase;
    match e
    case Create(k) =>
      if k !in s.chain {
        ChainAdvances(s, k, OnChain(Escrow.Open, 0));
      }
    case Outsider(k, to) =>
      if k in s.chain && Moves(s.chain[k], to) {
        ChainAdvances(s, k, to);
      }
    case Adopt(k, read, lockTime, resolutionTimeout) => AdoptKeeps(s, k, read, lockTime, resolutionTimeout);
    case Finalise(k) => FinaliseKeeps(s, k);
    case OfThread(i, t) =>
      if i < |s.threads| {
        ThreadStepKeeps(s, i, t);
      }
    case StartSweep(now) => StartSweepKeeps(s, now);
    case OfSweep(i, v) =>
      if i < |s.sweeps| {
        SweepStepKeeps(s, i, v);
      }
  }

  lemma {:induction false} RunOrderly(s: State, events: seq<Event>)
    requires Orderly(s)
    ensures Orderly(Run(s, events))
    decreases |events|
  {
    hide Orderly, Step;
    if events != [] {
      StepKeeps(s, events[0]);
      RunOrderly(Step(s, events[0]), events[1..]);
    }
  }

  /** Every read that is recorded shows a terminal status; each can be checked when it arrives. */
  predicate AllRecordTerminal(s: State, events: seq<Event>)
    decreases |events|
  {
    events == [] || (RecordsTerminal(s, events[0]) && AllRecordTerminal(Step(s, events[0]), events[1..]))
  }

  lemma {:induction false} RunTruthful(s: State, events: seq<Event>)
    requires Orderly(s) && Truthful(s) && AllRecordTerminal(s, events)
    ensures Orderly(Run(s, events)) && Truthful(Run(s, events))
    decreases |events|
  {
    hide Orderly, Truthful, Step, RecordsTerminal;
    if events != [] {
      StepKeeps(s, events[0]);
      RunTruthful(Step(s, events[0]), events[1..]);
    }
  }
}
