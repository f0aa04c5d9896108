/**
 * Leader election over a session-level advisory lock. Sessions can die without their
 * client noticing; the lock is then free at once. Every leader re-asserts the lock on
 * its own session each period and exits when that fails.
 *
 * Time is explicit: it never passes a pending timer, nor a query's time limit.
 */
module Leader {
  import opened Wrappers

  type Id = nat
  type Session = nat

  const VERIFY_MS := 15_000
  const RETRY_MS := 5_000

  /**
   * Where `attempt` is suspended. `answered` is what the server replied, not yet received;
   * `Acquiring` is the wait for `onAcquire`, with the lock granted and `run()` unresolved.
   */
  datatype Attempt =
    | Idle
    | Connecting
    | Asking(answered: Option<bool>, limit: int)
    | RetryAt(due: int)
    | Acquiring
    | Leading

  /** Where the verify loop is suspended. */
  datatype Verify =
    | NoLoop
    | TimerAt(due: int)
    | Verifying(answered: Option<bool>, limit: int)

  /** One process: `acquired`, whether `run()` resolved, and whether the process is gone. */
  datatype Instance = Instance(session: Option<Session>, acquired: bool, resolved: bool, gone: bool,
                               attempt: Attempt, verify: Verify)

  /**
   * `died` has every session ever opened and when it ended; `granted` those the lock was given
   * to. `queryMs` bounds how long a query can be under way: an assumption about the network,
   * since the client is created without a query timeout.
   */
  datatype World = World(now: int, instances: map<Id, Instance>, died: map<Session, Option<int>>,
                         holder: Option<Session>, granted: set<Session>, queryMs: nat)

  datatype Event =
    | Advance(to: int)
    | Launch(i: Id)
    | Connected(i: Id, s: Session)
    | ConnectFails(i: Id)
    | ServerRuns(i: Id)
    | Answered(i: Id)
    | Acquired(i: Id)
    | AskFails(i: Id)
    | Retry(i: Id)
    | Tick(i: Id)
    | VerifyAnswered(i: Id)
    | VerifyFails(i: Id)
    | Dies(s: Session)
    | Noticed(i: Id)
    | Stop(i: Id)

  predicate Alive(w: World, s: Session) {
    s in w.died && w.died[s] == None
  }

  function Put(w: World, i: Id, x: Instance): World {
    w.(instances := w.instances[i := x])
  }

  /** The server ends a session and releases its lock. */
  function EndSession(w: World, s: Session): World {
    if Alive(w, s) then
      w.(died := w.died[s := Some(w.now)], holder := if w.holder == Some(s) then None else w.holder)
    else w
  }

  function EndOwn(w: World, x: Instance): World {
    if x.session.Some? then EndSession(w, x.session.value) else w
  }

  /** `process.exit` and `stop`: the process is gone and so is its session. */
  function Exit(w: World, i: Id): World
    requires i in w.instances
  {
    Put(EndOwn(w, w.instances[i]), i, w.instances[i].(gone := true))
  }

  /** `standDown` acts only on a leader. */
  function StandDown(w: World, i: Id): World
    requires i in w.instances
  {
    if w.instances[i].acquired then Exit(w, i) else w
  }

  /** `pg_try_advisory_lock` on session `s`; granted again to the session that holds it. */
  function TryLock(w: World, s: Session): (World, bool) {
    if w.holder == None || w.holder == Some(s) then (w.(holder := Some(s), granted := w.granted + {s}), true)
    else (w, false)
  }

  function Running(w: World, i: Id): Option<Instance> {
    if i in w.instances && !w.instances[i].gone then Some(w.instances[i]) else None
  }

  /** Nothing pending is due before `to`. */
  predicate NothingDueBefore(x: Instance, to: int) {
    x.gone
    || ((match x.attempt
         case Asking(_, limit) => to <= limit
         case _ => true)
        && (match x.verify
            case TimerAt(due) => to <= due
            case Verifying(_, limit) => to <= limit
            case NoLoop => true))
  }

  function RunOnServer(w: World, i: Id, x: Instance): World {
    if x.session.None? || !Alive(w, x.session.value) then w
    else
      var (w', locked) := TryLock(w, x.session.value);
      if x.attempt.Asking? && x.attempt.answered == None then
        Put(w', i, x.(attempt := Asking(Some(locked), x.attempt.limit)))
      else if x.verify.Verifying? && x.verify.answered == None then
        Put(w', i, x.(verify := Verifying(Some(locked), x.verify.limit)))
      else w
  }

  /** `locked`: lead, start verifying and wait for `onAcquire`; otherwise give the session back and retry. */
  function Receive(w: World, i: Id, x: Instance, locked: bool): World {
    if locked then
      Put(w, i, x.(acquired := true, attempt := Acquiring, verify := TimerAt(w.now + VERIFY_MS)))
    else
      Put(EndOwn(w, x), i, x.(session := None, attempt := RetryAt(w.now + RETRY_MS)))
  }

  function Step(w: World, e: Event): World {
    match e
    case Advance(to) =>
      if to >= w.now && forall i :: i in w.instances ==> NothingDueBefore(w.instances[i], to) then w.(now := to) else w
    case Launch(i) =>
      if i in w.instances then w else Put(w, i, Instance(None, false, false, false, Connecting, NoLoop))
    case Dies(s) => EndSession(w, s)
    case Connected(i, s) =>
      var x := Running(w, i);
      if x.None? || x.value.attempt != Connecting || s in w.died then w
      else Put(w.(died := w.died[s := None]), i,
               x.value.(session := Some(s), attempt := Asking(None, w.now + w.queryMs)))
    case ConnectFails(i) =>
      var x := Running(w, i);
      if x.None? || x.value.attempt != Connecting then w
      else Put(w, i, x.value.(session := None, attempt := RetryAt(w.now + RETRY_MS)))
    case ServerRuns(i) =>
      var x := Running(w, i);
      if x.None? then w else RunOnServer(w, i, x.value)
    case Answered(i) =>
      var x := Running(w, i);
      if x.None? || !x.value.attempt.Asking? || x.value.attempt.answered == None then w
      else Receive(w, i, x.value, x.value.attempt.answered.value)
    case Acquired(i) =>
      var x := Running(w, i);
      if x.None? || x.value.attempt != Acquiring then w
      else Put(w, i, x.value.(resolved := true, attempt := Leading))
    case AskFails(i) =>
      var x := Running(w, i);
      if x.None? || !x.value.attempt.Asking? then w
      else Put(w, i, x.value.(session := None, attempt := RetryAt(w.now + RETRY_MS)))
    case Retry(i) =>
      var x := Running(w, i);
      if x.None? || !x.value.attempt.RetryAt? || x.value.attempt.due > w.now then w
      else Put(w, i, x.value.(attempt := Connecting))
    case Tick(i) =>
      var x := Running(w, i);
      if x.None? || !x.value.verify.TimerAt? || x.value.verify.due > w.now then w
      else Put(w, i, x.value.(verify := Verifying(None, w.now + w.queryMs)))
    case VerifyAnswered(i) =>
      var x := Running(w, i);
      if x.None? || !x.value.verify.Verifying? || x.value.verify.answered == None then w
      else if x.value.verify.answered == Some(true) then Put(w, i, x.value.(verify := TimerAt(w.now + VERIFY_MS)))
      else StandDown(w, i)
    case VerifyFails(i) =>
      var x := Running(w, i);
      if x.None? || !x.value.verify.Verifying? then w else StandDown(w, i)
    case Noticed(i) =>
      var x := Running(w, i);
      if x.None? || x.value.session.None? || Alive(w, x.value.session.value) then w else StandDown(w, i)
    case Stop(i) =>
      var x := Running(w, i);
      if x.None? then w else Exit(w, i)
  }

  function Run(w: World, events: seq<Event>): World
    decreases |events|
  {
    if events == [] then w else Run(Step(w, events[0]), events[1..])
  }

  /** No process yet. */
  predicate Fresh(w: World) {
    w.instances == map[] && w.holder == None && w.granted == {} && w.died == map[]
  }

  /** The instance acts as the leader. */
  predicate Believes(w: World, i: Id) {
    i in w.instances && w.instances[i].acquired && !w.instances[i].gone
  }

  // --- the invariant --------------------------------------------------------------------------

  /** How long a leader may outlive its session: one period and two queries. */
  function Grace(w: World): int {
    VERIFY_MS + 2 * w.queryMs
  }

  ghost predicate SessionOk(w: World, i: Id, x: Instance) {
    x.session.Some? ==>
      && x.session.value in w.died
      && (forall j :: j in w.instances && j != i && !w.instances[j].gone ==> w.instances[j].session != x.session)
      && (Alive(w, x.session.value) || w.died[x.session.value].value <= w.now)
  }

  /** A reply `true` on its way, or leadership, means the lock is held or was lost with the session. */
  ghost predicate HoldsOrDied(w: World, s: Session) {
    s in w.granted && s in w.died && (w.died[s] == None ==> w.holder == Some(s))
  }

  /** When the session ended, or now. */
  function LastSeen(w: World, s: Session): int
    requires s in w.died
  {
    if w.died[s].Some? then w.died[s].value else w.now
  }

  ghost predicate InstanceOk(w: World, x: Instance) {
    && (x.acquired <==> x.attempt == Acquiring || x.attempt == Leading)
    && (x.resolved <==> x.attempt == Leading)
    && (x.verify != NoLoop <==> x.acquired)
    && match x.attempt
       case Asking(answered, limit) =>
         && x.session.Some? && x.session.value in w.died && w.now <= limit <= w.now + w.queryMs
         && (answered == Some(true) ==>
               HoldsOrDied(w, x.session.value) && limit <= LastSeen(w, x.session.value) + w.queryMs)
       case Acquiring => LeaderOk(w, x)
       case Leading => LeaderOk(w, x)
       case _ => x.session == None
  }

  /** A leader holds the lock or lost it with its session, and will find out in time. */
  ghost predicate LeaderOk(w: World, x: Instance) {
    x.session.Some? && HoldsOrDied(w, x.session.value) && VerifyOk(w, x.verify, x.session.value)
  }

  /** The verify loop keeps every leader's time without a session within the grace. */
  ghost predicate VerifyOk(w: World, v: Verify, s: Session)
    requires s in w.died
  {
    match v
    case NoLoop => false
    case TimerAt(due) => w.now <= due <= LastSeen(w, s) + w.queryMs + VERIFY_MS
    case Verifying(answered, limit) =>
      && answered != Some(false)
      && w.now <= limit <= w.now + w.queryMs && limit <= LastSeen(w, s) + Grace(w)
      && (answered == Some(true) ==> limit <= LastSeen(w, s) + w.queryMs)
  }

  ghost predicate Inv(w: World) {
    && (w.holder.Some? ==> Alive(w, w.holder.value))
    && (forall i :: i in w.instances && !w.instances[i].gone ==>
          SessionOk(w, i, w.instances[i]) && InstanceOk(w, w.instances[i]))
  }

  /** A session ends: its leader keeps running for at most the grace. */
  lemma SessionEnds(w: World, s: Session)
    requires Inv(w)
    ensures Inv(EndSession(w, s))
  {
    var w' := EndSession(w, s);
    forall i | i in w.instances && !w.instances[i].gone
      ensures SessionOk(w', i, w.instances[i]) && InstanceOk(w', w.instances[i])
    {
      assert SessionOk(w, i, w.instances[i]) && InstanceOk(w, w.instances[i]);
    }
  }

  /** Rewriting one instance concerns nobody else, if its session stays its own. */
  lemma InstancePut(w: World, i: Id, x: Instance)
    requires Inv(w)
    requires x.gone || (SessionOk(w, i, x) && InstanceOk(w, x))
    ensures Inv(Put(w, i, x))
  {
    hide InstanceOk;
    var w' := Put(w, i, x);
    forall j | j in w'.instances && !w'.instances[j].gone
      ensures SessionOk(w', j, w'.instances[j]) && InstanceOk(w', w'.instances[j])
    {
      InstancesApart(w, w', w'.instances[j]);
      if j != i {
        assert SessionOk(w, j, w.instances[j]) && InstanceOk(w, w.instances[j]);
      }
    }
  }

  /** What an instance knows does not depend on the other instances. */
  lemma InstancesApart(w: World, w': World, x: Instance)
    requires w' == w.(instances := w'.instances)
    ensures InstanceOk(w', x) == InstanceOk(w, x)
  {
  }

  lemma InstanceExits(w: World, i: Id)
    requires Inv(w) && i in w.instances
    ensures Inv(Exit(w, i))
  {
    hide Inv;
    var x := w.instances[i];
    if x.session.Some? {
      SessionEnds(w, x.session.value);
    }
    InstancePut(EndOwn(w, x), i, x.(gone := true));
  }

  lemma TimePasses(w: World, to: int)
    requires Inv(w) && to >= w.now
    requires forall i :: i in w.instances ==> NothingDueBefore(w.instances[i], to)
    ensures Inv(w.(now := to))
  {
    var w' := w.(now := to);
    forall i | i in w.instances && !w.instances[i].gone
      ensures SessionOk(w', i, w.instances[i]) && InstanceOk(w', w.instances[i])
    {
      assert NothingDueBefore(w.instances[i], to);
      assert SessionOk(w, i, w.instances[i]) && InstanceOk(w, w.instances[i]);
    }
  }

  /** Granting the free lock takes it from nobody. */
  lemma LockTried(w: World, s: Session)
    requires Inv(w) && Alive(w, s)
    ensures var (w', locked) := TryLock(w, s);
            && Inv(w') && w'.instances == w.instances && w'.died == w.died && w'.now == w.now
            && w'.queryMs == w.queryMs && (locked ==> HoldsOrDied(w', s))
            && (w.holder == Some(s) ==> locked)
  {
    var (w', locked) := TryLock(w, s);
    forall i | i in w.instances && !w.instances[i].gone
      ensures SessionOk(w', i, w.instances[i]) && InstanceOk(w', w.instances[i])
    {
      assert SessionOk(w, i, w.instances[i]) && InstanceOk(w, w.instances[i]);
    }
  }

  lemma ServerRan(w: World, i: Id)
    requires Inv(w) && i in w.instances && !w.instances[i].gone
    ensures Inv(RunOnServer(w, i, w.instances[i]))
  {
    hide Inv;
    var x := w.instances[i];
    OneOk(w, i);
    if x.session.Some? && Alive(w, x.session.value) {
      var s := x.session.value;
      LockTried(w, s);
      var (w', locked) := TryLock(w, s);
      OneOk(w', i);
      if x.attempt.Asking? && x.attempt.answered == None {
        InstancePut(w', i, x.(attempt := Asking(Some(locked), x.attempt.limit)));
      } else if x.verify.Verifying? && x.verify.answered == None {
        InstancePut(w', i, x.(verify := Verifying(Some(locked), x.verify.limit)));
      }
    }
  }

  lemma OneOk(w: World, i: Id)
    requires Inv(w) && i in w.instances && !w.instances[i].gone
    ensures SessionOk(w, i, w.instances[i]) && InstanceOk(w, w.instances[i])
  {
  }

  lemma ReplyReceived(w: World, i: Id)
    requires Inv(w) && i in w.instances && !w.instances[i].gone
    requires w.instances[i].attempt.Asking? && w.instances[i].attempt.answered.Some?
    ensures Inv(Receive(w, i, w.instances[i], w.instances[i].attempt.answered.value))
  {
    hide Inv;
    var x := w.instances[i];
    OneOk(w, i);
    if x.attempt.answered.value {
      InstancePut(w, i, x.(acquired := true, attempt := Acquiring, verify := TimerAt(w.now + VERIFY_MS)));
    } else {
      SessionEnds(w, x.session.value);
      InstancePut(EndOwn(w, x), i, x.(session := None, attempt := RetryAt(w.now + RETRY_MS)));
    }
  }

  lemma SessionOpened(w: World, i: Id, s: Session)
    requires Inv(w) && i in w.instances && !w.instances[i].gone
    requires w.instances[i].attempt == Connecting && s !in w.died
    ensures Inv(Step(w, Connected(i, s)))
  {
    hide Inv;
    var x := w.instances[i];
    OneOk(w, i);
    var w1 := w.(died := w.died[s := None]);
    NewSession(w, s);
    InstancePut(w1, i, x.(session := Some(s), attempt := Asking(None, w.now + w.queryMs)));
  }

  lemma NewSession(w: World, s: Session)
    requires Inv(w) && s !in w.died
    ensures Inv(w.(died := w.died[s := None]))
    ensures forall j :: j in w.instances && !w.instances[j].gone ==> w.instances[j].session != Some(s)
  {
    var w' := w.(died := w.died[s := None]);
    forall i | i in w.instances && !w.instances[i].gone
      ensures SessionOk(w', i, w.instances[i]) && InstanceOk(w', w.instances[i]) && w.instances[i].session != Some(s)
    {
      assert SessionOk(w, i, w.instances[i]) && InstanceOk(w, w.instances[i]);
    }
  }

  lemma StepInv(w: World, e: Event)
    requires Inv(w)
    ensures Inv(Step(w, e))
  {
    hide Inv, RunOnServer, Receive, Exit, EndSession;
    match e
    case Advance(to) =>
      if to >= w.now && forall i :: i in w.instances ==> NothingDueBefore(w.instances[i], to) {
        TimePasses(w, to);
      }
    case Launch(i) =>
      if i !in w.instances {
        InstancePut(w, i, Instance(None, false, false, false, Connecting, NoLoop));
      }
    case Dies(s) => SessionEnds(w, s);
    case Connected(i, s) =>
      if Running(w, i).Some? && Running(w, i).value.attempt == Connecting && s !in w.died {
        SessionOpened(w, i, s);
      }
    case Stop(i) =>
      if Running(w, i).Some? {
        InstanceExits(w, i);
      }
    case ServerRuns(i) =>
      if Running(w, i).Some? {
        ServerRan(w, i);
      }
    case Answered(i) =>
      if Running(w, i).Some? && w.instances[i].attempt.Asking? && w.instances[i].attempt.answered.Some? {
        ReplyReceived(w, i);
      }
    case _ => LocalStepInv(w, e);
  }

  /** The events that concern one instance and, if it stands down, its session. */
  lemma LocalStepInv(w: World, e: Event)
    requires Inv(w)
    requires e.ConnectFails? || e.AskFails? || e.Acquired? || e.Retry? || e.Tick? || e.VerifyAnswered?
             || e.VerifyFails? || e.Noticed?
    ensures Inv(Step(w, e))
  {
    hide Inv, Exit;
    var i := e.i;
    if Running(w, i).Some? {
      var x := w.instances[i];
      OneOk(w, i);
      InstanceExits(w, i);
      match e
      case Acquired(_) =>
        if x.attempt == Acquiring {
          InstancePut(w, i, x.(resolved := true, attempt := Leading));
        }
      case ConnectFails(_) =>
        if x.attempt == Connecting {
          InstancePut(w, i, x.(session := None, attempt := RetryAt(w.now + RETRY_MS)));
        }
      case AskFails(_) =>
        if x.attempt.Asking? {
          InstancePut(w, i, x.(session := None, attempt := RetryAt(w.now + RETRY_MS)));
        }
      case Retry(_) =>
        if x.attempt.RetryAt? {
          InstancePut(w, i, x.(attempt := Connecting));
        }
      case Tick(_) =>
        if x.verify.TimerAt? && x.verify.due <= w.now {
          InstancePut(w, i, x.(verify := Verifying(None, w.now + w.queryMs)));
        }
      case VerifyAnswered(_) =>
        if x.verify.Verifying? && x.verify.answered == Some(true) {
          InstancePut(w, i, x.(verify := TimerAt(w.now + VERIFY_MS)));
        }
      case _ =>
    }
  }

  lemma FreshInv(w: World)
    requires Fresh(w)
    ensures Inv(w)
  {
  }

  lemma {:induction false} RunInv(w: World, events: seq<Event>)
    requires Inv(w)
    ensures Inv(Run(w, events))
    decreases |events|
  {
    hide Inv, Step;
    if events != [] {
      StepInv(w, events[0]);
      RunInv(Step(w, events[0]), events[1..]);
    }
  }

  // --- leadership -------------------------------------------------------------------------------

  /** `run()` resolves only for an instance whose own session was given the lock. */
  lemma ResolvesOnlyWithLock(w: World, events: seq<Event>, i: Id)
    requires Fresh(w)
    requires var w' := Run(w, events); i in w'.instances && !w'.instances[i].gone && w'.instances[i].resolved
    ensures var w' := Run(w, events);
            Believes(w', i) && w'.instances[i].session.Some? && w'.instances[i].session.value in w'.granted
  {
    hide Run;
    FreshInv(w);
    RunInv(w, events);
    OneOk(Run(w, events), i);
  }

  /**
   * Of two instances that both act as leader, at most one has a session; the other
   * lost it at most one period and two queries ago.
   */
  lemma AtMostOneLeads(w: World, i: Id, j: Id)
    requires Inv(w) && Believes(w, i) && Believes(w, j) && i != j
    ensures exists k :: k in {i, j} && w.instances[k].session.Some? && w.instances[k].session.value in w.died
                        && !Alive(w, w.instances[k].session.value)
                        && w.now <= w.died[w.instances[k].session.value].value + Grace(w)
  {
    OneOk(w, i);
    OneOk(w, j);
    var k := if Alive(w, w.instances[i].session.value) then j else i;
    assert !Alive(w, w.instances[k].session.value);
  }

  /** What a leader's world keeps: its session while it leads, and dead sessions dead. */
  ghost predicate SameLeader(w: World, w': World, i: Id) {
    && i in w.instances && i in w'.instances
    && w'.instances[i].session == w.instances[i].session && w'.queryMs == w.queryMs
    && forall s :: s in w.died && w.died[s].Some? ==> s in w'.died && w'.died[s] == w.died[s]
  }

  lemma LeaderStep(w: World, e: Event, i: Id)
    requires Inv(w) && Believes(w, i)
    ensures var w' := Step(w, e);
            if Believes(w', i) then SameLeader(w, w', i) else i in w'.instances && w'.instances[i].gone
  {
    hide Inv, SessionOk, HoldsOrDied, VerifyOk, NothingDueBefore;
    OneOk(w, i);
  }

  lemma GoneForGood(w: World, e: Event, i: Id)
    requires i in w.instances && w.instances[i].gone
    ensures i in Step(w, e).instances && Step(w, e).instances[i].gone
  {
  }

  lemma {:induction false} GoneThroughout(w: World, events: seq<Event>, i: Id)
    requires i in w.instances && w.instances[i].gone
    ensures !Believes(Run(w, events), i)
    decreases |events|
  {
    hide Step;
    if events != [] {
      GoneForGood(w, events[0], i);
      GoneThroughout(Step(w, events[0]), events[1..], i);
    }
  }

  lemma {:induction false} LeaderRun(w: World, events: seq<Event>, i: Id)
    requires Inv(w) && Believes(w, i) && Believes(Run(w, events), i)
    ensures SameLeader(w, Run(w, events), i)
    decreases |events|
  {
    hide Inv, Step, Believes;
    if events == [] {
      assert SameLeader(w, w, i) by {
        assert i in w.instances by {
          LeaderPresent(w, i);
        }
      }
    } else {
      var w1 := Step(w, events[0]);
      StepInv(w, events[0]);
      LeaderStep(w, events[0], i);
      if Believes(w1, i) {
        LeaderRun(w1, events[1..], i);
      } else {
        GoneThroughout(w1, events[1..], i);
      }
    }
  }

  lemma LeaderPresent(w: World, i: Id)
    requires Believes(w, i)
    ensures i in w.instances
  {
  }

  lemma OverlapFrom(w: World, events: seq<Event>, i: Id, j: Id)
    requires Inv(w) && i != j && Believes(w, i) && Believes(w, j)
    requires Believes(Run(w, events), i) && Believes(Run(w, events), j)
    ensures Run(w, events).now <= w.now + 15_000 + 2 * w.queryMs
  {
    hide Run;
    var w' := Run(w, events);
    RunInv(w, events);
    LeaderRun(w, events, i);
    LeaderRun(w, events, j);
    AtMostOneLeads(w, i, j);
    OneOk(w, i);
    OneOk(w, j);
    OneOk(w', i);
    OneOk(w', j);
  }

  /** In every run, two instances never both lead for longer than one period and two queries. */
  lemma OverlapIsBounded(start: World, before: seq<Event>, during: seq<Event>, i: Id, j: Id)
    requires Fresh(start) && i != j
    ensures var w := Run(start, before);
            var w' := Run(w, during);
            Believes(w, i) && Believes(w, j) && Believes(w', i) && Believes(w', j)
            ==> w'.now <= w.now + 15_000 + 2 * w.queryMs
  {
    hide Run, Inv, Believes;
    FreshInv(start);
    RunInv(start, before);
    var w := Run(start, before);
    if Believes(w, i) && Believes(w, j) && Believes(Run(w, during), i) && Believes(Run(w, during), j) {
      OverlapFrom(w, during, i, j);
    }
  }

  /** The instance leads and `run()` has resolved: the keeper behind it acts. */
  predicate Acts(w: World, i: Id) {
    Believes(w, i) && w.instances[i].resolved
  }

  /** A process takes a free lock: launch, connect, ask, answer, `onAcquire`. */
  function Election(i: Id, s: Session): seq<Event> {
    [Launch(i), Connected(i, s), ServerRuns(i), Answered(i), Acquired(i)]
  }

  /** The world once the server has granted the lock to a new process. */
  function Granted(w: World, i: Id, s: Session): World {
    var x := Instance(Some(s), false, false, false, Asking(Some(true), w.now + w.queryMs), NoLoop);
    w.(instances := w.instances[i := x],
       died := w.died[s := None], holder := Some(s), granted := w.granted + {s})
  }

  lemma GrantedFirst(w: World, i: Id, s: Session)
    requires i !in w.instances && s !in w.died && w.holder == None
    ensures Step(Step(Step(w, Launch(i)), Connected(i, s)), ServerRuns(i)) == Granted(w, i, s)
  {
    var w1 := Step(w, Launch(i));
    var w2 := Step(w1, Connected(i, s));
    var asking := Instance(Some(s), false, false, false, Asking(None, w.now + w.queryMs), NoLoop);
    assert w2.instances == w.instances[i := asking];
    assert Step(w2, ServerRuns(i)).instances == Granted(w, i, s).instances;
  }

  lemma Elected(w: World, i: Id, s: Session)
    requires i !in w.instances && s !in w.died && w.holder == None
    ensures var w' := Run(w, Election(i, s));
            && Acts(w', i) && w'.holder == Some(s) && Alive(w', s) && w'.died.Keys == w.died.Keys + {s}
            && w'.instances.Keys == w.instances.Keys + {i}
            && forall j :: j in w.instances ==> w'.instances[j] == w.instances[j]
  {
    hide Run, Step, Election, Acts;
    RunElection(w, i, s);
    GrantedFirst(w, i, s);
    WonAfterGrant(w, i, s);
  }

  lemma RunElection(w: World, i: Id, s: Session)
    ensures Run(w, Election(i, s))
            == Step(Step(Step(Step(Step(w, Launch(i)), Connected(i, s)), ServerRuns(i)), Answered(i)), Acquired(i))
  {
    hide Step;
    var e := Election(i, s);
    var w1 := Step(w, e[0]);
    var w2 := Step(w1, e[1]);
    var w3 := Step(w2, e[2]);
    var w4 := Step(w3, e[3]);
    var w5 := Step(w4, e[4]);
    assert e[1..][1..] == e[2..] && e[2..][1..] == e[3..] && e[3..][1..] == e[4..] && e[4..][1..] == [];
    assert Run(w4, e[4..]) == w5;
    assert Run(w3, e[3..]) == w5;
    assert Run(w2, e[2..]) == w5;
    assert Run(w1, e[1..]) == w5;
  }

  lemma WonAfterGrant(w: World, i: Id, s: Session)
    requires i !in w.instances
    ensures var w' := Step(Step(Granted(w, i, s), Answered(i)), Acquired(i));
            w'.instances.Keys == w.instances.Keys + {i} && Acts(w', i)
            && w' == Granted(w, i, s).(instances := w'.instances)
            && forall j :: j in w.instances ==> w'.instances[j] == w.instances[j]
  {
    var w1 := Step(Granted(w, i, s), Answered(i));
    assert w1.instances.Keys == w.instances.Keys + {i};
  }

  lemma {:induction false} RunConcat(w: World, a: seq<Event>, b: seq<Event>)
    ensures Run(w, a + b) == Run(Run(w, a), b)
    decreases |a|
  {
    hide Step;
    if a == [] {
      assert a + b == b;
    } else {
      assert (a + b)[1..] == a[1..] + b;
      RunConcat(Step(w, a[0]), a[1..], b);
    }
  }

  /** The overlap is real: a session that dies silently leaves two leaders for a while. */
  lemma TwoCanLead(w: World)
    requires Fresh(w)
    ensures exists events, i, j :: i != j && Acts(Run(w, events), i) && Acts(Run(w, events), j)
  {
    hide Election;
    var a, b := Election(0, 0), Election(1, 1);
    Elected(w, 0, 0);
    var w1 := Run(w, a);
    var w2 := Step(w1, Dies(0));
    assert Run(w1, [Dies(0)]) == w2 by {
      assert [Dies(0)][1..] == [];
    }
    assert w2.holder == None && w2.instances == w1.instances && w2.died.Keys == w1.died.Keys;
    Elected(w2, 1, 1);
    hide Run, Step;
    RunConcat(w, a, [Dies(0)] + b);
    RunConcat(w1, [Dies(0)], b);
    var w3 := Run(w2, b);
    assert Run(w, a + ([Dies(0)] + b)) == w3;
    assert Acts(w3, 0) && Acts(w3, 1);
  }

  /** A number beyond all of `used`. */
  lemma Unused(used: set<nat>) returns (n: nat)
    ensures n !in used && forall m :: m in used ==> m < n
    decreases |used|
  {
    if used == {} {
      n := 0;
    } else {
      var m :| m in used;
      var k := Unused(used - {m});
      n := if k <= m then m + 1 else k;
      assert used == used - {m} + {m};
    }
  }

  /** Whoever holds the lock can lose it. */
  lemma LockSetFree(w: World) returns (events: seq<Event>)
    requires Inv(w)
    ensures var w' := Run(w, events);
            w'.holder == None && w'.instances == w.instances && w'.died.Keys == w.died.Keys
  {
    if w.holder == None {
      events := [];
    } else {
      var dies := Dies(w.holder.value);
      events := [dies];
      assert Run(w, [dies]) == Step(w, dies) by {
        assert [dies][1..] == [];
      }
    }
  }

  /**
   * The converse of `AtMostOneLeads`: from any world in which a leader's session is dead,
   * some run makes a second instance lead and act while the first still does.
   */
  lemma DeadLeaderCanBeJoined(w: World, i: Id)
    requires Inv(w) && Believes(w, i) && w.instances[i].session.Some? && !Alive(w, w.instances[i].session.value)
    ensures exists events, j :: j != i && Believes(Run(w, events), i) && Acts(Run(w, events), j)
  {
    hide Run, Inv, Election;
    var before := LockSetFree(w);
    var w1 := Run(w, before);
    var j := Unused(w1.instances.Keys);
    var s := Unused(w1.died.Keys);
    Elected(w1, j, s);
    RunConcat(w, before, Election(j, s));
    var events := before + Election(j, s);
    assert Believes(Run(w, events), i) && Acts(Run(w, events), j);
  }
}
