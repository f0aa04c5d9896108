/**
 * The keeper against one chain: the sweeper, the retrying settler and everybody else,
 * interleaved at every await. One event is what one of them does between two awaits.
 */
module Keeper {
  import opened Escrow
  import opened EscrowTheorems

  type Key = nat

  // --- the chain as seen from outside -------------------------------------------------------

  /** What `fetchMarket` returns of a market. */
  datatype OnChain = OnChain(status: Status, winner: nat)

  /** One transaction of anybody: open to locked, locked to a terminal status, or neither. */
  predicate Moves(a: OnChain, b: OnChain) {
    a == b || (a.status == Open && b.status == Locked) || (a.status == Locked && Terminal(b.status))
  }

  /** `a` was the state of a market that is now in state `b`. */
  predicate Earlier(a: OnChain, b: OnChain) {
    a == b || (a.status == Open && b.status != Open) || (a.status == Locked && Terminal(b.status))
  }

  // --- the keeper's memory --------------------------------------------------------------------

  datatype Phase = Created | LockedPhase | Settling | SettledPhase | CancelledPhase | ErrorPhase

  datatype Record = Record(phase: Phase, lockTime: int, resolutionTimeout: int)

  /** Where a settlement attempt is suspended. */
  datatype Attempt =
    | Sleeping                                     // the retry timer is running
    | Fetching                                     // reading the market
    | Backfilling(seen: OnChain)                   // already resolved: re-fetching the proof
    | Proving                                      // building the proof
    | Submitting(claimed: nat, landed: bool)       // settle_market sent, perhaps executed
    | Confirming                                   // it succeeded: reading the market again
    | Resolving                                    // it was refused as resolved: reading the market
    | Finished                                     // recorded, still in flight

  /** One chain of attempts; `n` is the running `settleAttempts`. */
  datatype Thread = Thread(market: Key, n: nat, pc: Attempt)

  /** Where a sweep is suspended; `due` says the backstop was due when it was checked. */
  datatype Visit =
    | Picking
    | LockReading(k: Key)
    | Locking(k: Key, landed: bool)
    | CancelReading(k: Key, due: bool)
    | Cancelling(k: Key, due: bool, landed: bool)
    | Visited(k: Key, due: bool, failed: bool)

  /** `now` is read once, at the start. */
  datatype Sweep = Sweep(now: int, todo: set<Key>, pc: Visit)

  datatype State = State(
    chain: map<Key, OnChain>, records: map<Key, Record>, receipts: map<Key, nat>,
    inFlight: set<Key>, threads: seq<Thread>, sweeping: bool, sweeps: seq<Sweep>, maxAttempts: int)

  // --- events ---------------------------------------------------------------------------------

  /** A read fails, finds no account, or shows the market. */
  datatype Read = Unreadable | Missing | Seen(m: OnChain)

  datatype Reply = Confirmed | AlreadyResolved | Refused

  datatype ThreadEvent =
    | Wake
    | GotMarket(read: Read, retriable: bool)
    | GotProof(ok: bool, claimed: nat, retriable: bool)
    | SettleLands(to: OnChain)
    | GotReply(reply: Reply, retriable: bool)
    | Leave

  datatype SweepEvent =
    | Pick(k: Key)
    | SweepRead(read: Read)
    | TxLands
    | TxReplied(ok: bool)
    | Next
    | Done

  datatype Event =
    | Create(k: Key)
    | Outsider(k: Key, to: OnChain)
    | Adopt(k: Key, read: Read, lockTime: int, resolutionTimeout: int)
    | Finalise(k: Key)
    | OfThread(i: nat, t: ThreadEvent)
    | StartSweep(now: int)
    | OfSweep(i: nat, v: SweepEvent)

  /** A read may be stale: it shows some state the market has had. */
  predicate CanRead(s: State, k: Key, read: Read) {
    match read
    case Unreadable => true
    case Missing => k !in s.chain
    case Seen(m) => k in s.chain && Earlier(m, s.chain[k])
  }

  function PhaseOf(status: Status): Phase {
    match status
    case Open => Created
    case Locked => LockedPhase
    case Settled => SettledPhase
    case Cancelled => CancelledPhase
  }

  predicate IsOver(p: Phase) {
    p == SettledPhase || p == CancelledPhase
  }

  function SetPhase(s: State, k: Key, p: Phase): State {
    if k in s.records then s.(records := s.records[k := s.records[k].(phase := p)]) else s
  }

  function Put(s: State, i: nat, t: Thread): State
    requires i < |s.threads|
  {
    s.(threads := s.threads[i := t])
  }

  /** `inFlight.delete`, and the chain of attempts ends. */
  function End(s: State, i: nat): State
    requires i < |s.threads|
  {
    s.(inFlight := s.inFlight - {s.threads[i].market}, threads := s.threads[..i] + s.threads[i + 1..])
  }

  /** `recordResolution`: anything that is not settled is recorded as cancelled. */
  function Resolve(s: State, k: Key, seen: OnChain): State {
    var recorded := SetPhase(s, k, if seen.status == Settled then SettledPhase else CancelledPhase);
    if seen.status == Settled then recorded.(receipts := s.receipts[k := seen.winner]) else recorded
  }

  /** The catch block: give up with an error, or wait for the next attempt. */
  function Fail(s: State, i: nat, retriable: bool): State
    requires i < |s.threads|
  {
    var t := s.threads[i];
    if !retriable || t.n >= s.maxAttempts then End(SetPhase(s, t.market, ErrorPhase), i)
    else Put(s, i, t.(pc := Sleeping))
  }

  function ThreadStep(s: State, i: nat, e: ThreadEvent): State
    requires i < |s.threads|
  {
    var t := s.threads[i];
    var k := t.market;
    match (t.pc, e)
    case (Sleeping, Wake) => Put(s, i, Thread(k, t.n + 1, Fetching))
    case (Fetching, GotMarket(read, retriable)) =>
      if !CanRead(s, k, read) then s
      else if !read.Seen? then Fail(s, i, retriable)
      else if Terminal(read.m.status) then Put(s, i, t.(pc := Backfilling(read.m)))
      else if read.m.status == Open then Fail(s, i, true)
      else Put(s, i, t.(pc := Proving))
    case (Backfilling(seen), GotProof(_, _, _)) => Put(Resolve(s, k, seen), i, t.(pc := Finished))
    case (Proving, GotProof(ok, claimed, retriable)) =>
      if ok then Put(s, i, t.(pc := Submitting(claimed, false))) else Fail(s, i, retriable)
    case (Submitting(claimed, landed), SettleLands(to)) =>
      if !landed && k in s.chain && s.chain[k].status == Locked && Terminal(to.status) && to.winner == claimed
      then Put(s.(chain := s.chain[k := to]), i, t.(pc := Submitting(claimed, true)))
      else s
    case (Submitting(_, landed), GotReply(reply, retriable)) =>
      (match reply
       case Confirmed => if landed then Put(s, i, t.(pc := Confirming)) else s
       case AlreadyResolved =>
         if k in s.chain && Terminal(s.chain[k].status) then Put(s, i, t.(pc := Resolving)) else s
       case Refused => Fail(s, i, retriable))
    case (Confirming, GotMarket(read, retriable)) =>
      if !CanRead(s, k, read) then s
      else if read.Seen? then Put(Resolve(s, k, read.m), i, t.(pc := Finished))
      else Fail(s, i, retriable)
    case (Resolving, GotMarket(read, _)) =>
      if !CanRead(s, k, read) then s
      else if read.Seen? then Put(Resolve(s, k, read.m), i, t.(pc := Finished))
      else End(s, i)
    case (Finished, Leave) => End(s, i)
    case _ => s
  }

  // --- the sweep ------------------------------------------------------------------------------

  function PutSweep(s: State, i: nat, pc: Visit): State
    requires i < |s.sweeps|
  {
    s.(sweeps := s.sweeps[i := s.sweeps[i].(pc := pc)])
  }

  /** An error thrown out of the loop, or its end: the `finally` clears the flag. */
  function EndSweep(s: State, i: nat): State
    requires i < |s.sweeps|
  {
    s.(sweeping := false, sweeps := s.sweeps[..i] + s.sweeps[i + 1..])
  }

  /** The second half of a visit: is the cancel backstop due? */
  function Backstop(s: State, i: nat, k: Key): State
    requires i < |s.sweeps| && k in s.records
  {
    var r, now := s.records[k], s.sweeps[i].now;
    if (r.phase == LockedPhase || r.phase == Settling || r.phase == ErrorPhase)
        && now > r.lockTime + r.resolutionTimeout
    then PutSweep(s, i, CancelReading(k, k in s.chain && s.chain[k].status != Open))
    else PutSweep(s, i, Visited(k, false, false))
  }

  function SweepStep(s: State, i: nat, e: SweepEvent): State
    requires i < |s.sweeps|
  {
    var w := s.sweeps[i];
    match (w.pc, e)
    case (Picking, Pick(k)) =>
      if k !in w.todo || k !in s.records then s
      else
        var s1 := s.(sweeps := s.sweeps[i := w.(todo := w.todo - {k})]);
        var r := s.records[k];
        if IsOver(r.phase) then s1
        else if r.phase == Created && w.now >= r.lockTime then PutSweep(s1, i, LockReading(k))
        else Backstop(s1, i, k)
    case (Picking, Done) => if w.todo == {} then EndSweep(s, i) else s
    case (LockReading(k), SweepRead(read)) =>
      if !CanRead(s, k, read) || k !in s.records then s
      else if read == Unreadable then EndSweep(s, i)
      else if read.Seen? && read.m.status == Open then PutSweep(s, i, Locking(k, false))
      else if read.Seen? && read.m.status == Locked then Backstop(SetPhase(s, k, LockedPhase), i, k)
      else Backstop(s, i, k)
    case (Locking(k, landed), TxLands) =>
      if !landed && k in s.chain && s.chain[k].status == Open
      then PutSweep(s.(chain := s.chain[k := s.chain[k].(status := Locked)]), i, Locking(k, true))
      else s
    case (Locking(k, landed), TxReplied(ok)) =>
      if k !in s.records || (ok && !landed) then s
      else Backstop(if ok then SetPhase(s, k, LockedPhase) else s, i, k)
    case (CancelReading(k, due), SweepRead(read)) =>
      if !CanRead(s, k, read) then s
      else if read == Unreadable then EndSweep(s, i)
      else if read.Seen? && read.m.status == Locked then PutSweep(s, i, Cancelling(k, due, false))
      else if read.Seen? && Terminal(read.m.status) then
        PutSweep(SetPhase(s, k, PhaseOf(read.m.status)), i, Visited(k, due, false))
      else PutSweep(s, i, Visited(k, due, false))
    case (Cancelling(k, due, landed), TxLands) =>
      if !landed && k in s.chain && s.chain[k].status == Locked
      then PutSweep(s.(chain := s.chain[k := s.chain[k].(status := Cancelled)]), i, Cancelling(k, due, true))
      else s
    case (Cancelling(k, due, landed), TxReplied(ok)) =>
      if ok && !landed then s
      else PutSweep(if ok then SetPhase(s, k, CancelledPhase) else s, i, Visited(k, due, !ok))
    case (Visited(_, _, _), Next) => PutSweep(s, i, Picking)
    case _ => s
  }

  // --- runs -------------------------------------------------------------------------------------

  function Step(s: State, e: Event): State {
    match e
    case Create(k) => if k in s.chain then s else s.(chain := s.chain[k := OnChain(Open, 0)])
    case Outsider(k, to) => if k in s.chain && Moves(s.chain[k], to) then s.(chain := s.chain[k := to]) else s
    case Adopt(k, read, lockTime, resolutionTimeout) =>
      if k in s.records || !CanRead(s, k, read) || read == Unreadable then s
      else
        var phase := if read.Seen? then PhaseOf(read.m.status) else Created;
        s.(records := s.records[k := Record(phase, lockTime, resolutionTimeout)])
    case Finalise(k) =>
      if k !in s.records || k in s.inFlight || IsOver(s.records[k].phase) then s
      else SetPhase(s, k, Settling).(inFlight := s.inFlight + {k}, threads := s.threads + [Thread(k, 1, Fetching)])
    case OfThread(i, t) => if i < |s.threads| then ThreadStep(s, i, t) else s
    case StartSweep(now) =>
      if s.sweeping then s
      else s.(sweeping := true, sweeps := s.sweeps + [Sweep(now, s.records.Keys, Picking)])
    case OfSweep(i, v) => if i < |s.sweeps| then SweepStep(s, i, v) else s
  }

  function Run(s: State, events: seq<Event>): State
    decreases |events|
  {
    if events == [] then s else Run(Step(s, events[0]), events[1..])
  }
}
