/**
 * That the election works: time is never stuck, a healthy leader leads on, one that cannot
 * verify goes, and a standby takes a free lock within its next try.
 */
module LeaderProgress {
  import opened Wrappers
  import opened Leader

  // --- leaving ------------------------------------------------------------------------------------

  /** What ends a leader: a failed verification, a broken connection it notices, or being stopped. */
  predicate Ends(w: World, e: Event, i: Id) {
    match e
    case VerifyFails(j) => j == i && i in w.instances && w.instances[i].verify.Verifying?
    case Noticed(j) =>
      && j == i && i in w.instances && w.instances[i].session.Some?
      && !(w.instances[i].session.value in w.died && w.died[w.instances[i].session.value] == None)
    case Stop(j) => j == i
    case _ => false
  }

  /** A leader goes exactly when one of these happens to it, and nobody keeps the lock for it. */
  lemma LeaderGoesIff(w: World, e: Event, i: Id)
    requires Inv(w) && Believes(w, i)
    ensures var w' := Step(w, e);
            && i in w'.instances && (w'.instances[i].gone <==> Ends(w, e, i))
            && (Ends(w, e, i) ==> w'.holder != w.instances[i].session || w'.holder == None)
  {
    hide Inv, SessionOk, NothingDueBefore;
    OneOk(w, i);
    HolderLives(w);
    LeaderAnswered(w, i);
  }

  lemma LeaderAnswered(w: World, i: Id)
    requires Inv(w) && Believes(w, i)
    ensures var v := w.instances[i].verify; v.Verifying? && v.answered.Some? ==> v.answered == Some(true)
  {
    hide Inv;
    OneOk(w, i);
    var x := w.instances[i];
    assert LeaderOk(w, x);
    if x.verify.Verifying? && x.verify.answered.Some? {
      OneOrTheOther(x.verify.answered);
    }
  }

  lemma OneOrTheOther(answer: Option<bool>)
    requires answer.Some?
    ensures answer == Some(true) || answer == Some(false)
  {
    if answer.value {
      assert answer == Some(true);
    }
  }

  lemma HolderLives(w: World)
    requires Inv(w)
    ensures w.holder.Some? ==> Alive(w, w.holder.value)
  {
  }

  /** A process that does not lead goes only by being stopped: losing its session costs it nothing. */
  lemma OthersGoIfStopped(w: World, e: Event, i: Id)
    requires Inv(w) && i in w.instances && !w.instances[i].gone && !w.instances[i].acquired
    ensures i in Step(w, e).instances && (Step(w, e).instances[i].gone <==> e == Stop(i))
  {
    hide Inv, SessionOk, NothingDueBefore, LeaderOk;
    OneOk(w, i);
  }

  // --- time ---------------------------------------------------------------------------------------------

  /** Something is due at a running instance: a query has reached its limit, or the verify timer its time. */
  predicate DueNow(w: World, e: Event, i: Id) {
    && i in w.instances && !w.instances[i].gone
    && match e
       case AskFails(j) => j == i && w.instances[i].attempt.Asking? && w.instances[i].attempt.limit <= w.now
       case Tick(j) => j == i && w.instances[i].verify.TimerAt? && w.instances[i].verify.due <= w.now
       case VerifyFails(j) => j == i && w.instances[i].verify.Verifying? && w.instances[i].verify.limit <= w.now
       case _ => false
  }

  /** From every world that a run reaches, a millisecond can pass or some instance can act at once. */
  lemma NeverStuck(w: World)
    requires Inv(w)
    ensures Step(w, Advance(w.now + 1)).now == w.now + 1
            || exists i, e :: DueNow(w, e, i) && Step(w, e) != w
  {
    hide Inv, SessionOk, HoldsOrDied, Exit;
    if i :| i in w.instances && !NothingDueBefore(w.instances[i], w.now + 1) {
      var x := w.instances[i];
      OneOk(w, i);
      if x.attempt.Asking? && x.attempt.limit <= w.now {
        Changes(w, AskFails(i), i);
        assert DueNow(w, AskFails(i), i);
      } else if x.verify.TimerAt? {
        Changes(w, Tick(i), i);
        assert DueNow(w, Tick(i), i);
      } else {
        Changes(w, VerifyFails(i), i);
        assert DueNow(w, VerifyFails(i), i);
      }
    }
  }

  lemma Changes(w: World, e: Event, i: Id)
    requires Inv(w) && i in w.instances && !w.instances[i].gone
    requires || (e == AskFails(i) && w.instances[i].attempt.Asking?)
             || (e == Tick(i) && w.instances[i].verify.TimerAt? && w.instances[i].verify.due <= w.now)
             || (e == VerifyFails(i) && w.instances[i].verify.Verifying?)
    ensures i in Step(w, e).instances && Step(w, e).instances[i] != w.instances[i]
  {
    OneOk(w, i);
  }

  // --- a healthy leader --------------------------------------------------------------------------------

  /** A process leads on a live session, nobody else is running, and it verifies at `due`. */
  ghost predicate Healthy(w: World, i: Id, due: int) {
    && i in w.instances && !w.instances[i].gone && w.instances[i].acquired && w.instances[i].session.Some?
    && w.instances[i].session.value in w.died && w.died[w.instances[i].session.value] == None
    && w.holder == w.instances[i].session && w.instances[i].verify == TimerAt(due)
    && w.instances[i].attempt == Leading && w.now <= due
    && forall j :: j in w.instances && j != i ==> w.instances[j].gone
  }

  /** Its timer fires at `due`, the server grants the lock again, and the next timer is set. */
  function Round(i: Id, due: int): seq<Event> {
    [Advance(due), Tick(i), ServerRuns(i), VerifyAnswered(i)]
  }

  lemma RoundKeepsLeading(w: World, i: Id, due: int)
    requires Healthy(w, i, due)
    ensures var w' := Run(w, Round(i, due)); Healthy(w', i, due + 15_000) && w'.now == due
  {
    var w1 := Step(w, Advance(due));
    assert w1 == w.(now := due);
    TickAndAnswer(w1, i);
    FourEvents(w, Round(i, due));
  }

  lemma TickAndAnswer(w: World, i: Id)
    requires Healthy(w, i, w.now)
    ensures var w' := Step(Step(Step(w, Tick(i)), ServerRuns(i)), VerifyAnswered(i));
            Healthy(w', i, w.now + 15_000) && w'.now == w.now
  {
    var x := w.instances[i];
    var w2 := Step(w, Tick(i));
    assert w2.instances[i] == x.(verify := Verifying(None, w.now + w.queryMs));
    var w3 := Step(w2, ServerRuns(i));
    assert w3.instances[i] == x.(verify := Verifying(Some(true), w.now + w.queryMs));
  }

  lemma FourEvents(w: World, e: seq<Event>)
    requires |e| == 4
    ensures Run(w, e) == Step(Step(Step(Step(w, e[0]), e[1]), e[2]), e[3])
  {
    hide Step;
    assert e[1..][1..] == e[2..] && e[2..][1..] == [e[3]] && [e[3]][1..] == [];
    var w3 := Step(Step(Step(w, e[0]), e[1]), e[2]);
    assert Run(w3, [e[3]]) == Step(w3, e[3]);
    assert Run(Step(Step(w, e[0]), e[1]), e[2..]) == Run(w3, [e[3]]);
  }

  /** A leader whose session lives can verify every fifteen seconds for as long as one likes. */
  lemma {:induction false} HealthyLeaderLeadsOn(w: World, i: Id, due: int, rounds: nat)
    requires Healthy(w, i, due)
    ensures exists events :: Healthy(Run(w, events), i, due + rounds * 15_000)
    decreases rounds
  {
    hide Healthy, Run;
    if rounds == 0 {
      assert Run(w, []) == w by {
        NoEvents(w);
      }
      assert Healthy(Run(w, []), i, due + 0 * 15_000);
    } else {
      RoundKeepsLeading(w, i, due);
      var w1 := Run(w, Round(i, due));
      HealthyLeaderLeadsOn(w1, i, due + 15_000, rounds - 1);
      var events :| Healthy(Run(w1, events), i, due + 15_000 + (rounds - 1) * 15_000);
      RunConcat(w, Round(i, due), events);
      assert due + 15_000 + (rounds - 1) * 15_000 == due + rounds * 15_000;
      assert Healthy(Run(w, Round(i, due) + events), i, due + rounds * 15_000);
    }
  }

  lemma NoEvents(w: World)
    ensures Run(w, []) == w
  {
  }

  // --- a standby ------------------------------------------------------------------------------------------

  /** Refused or failed: the process has no session, no lock, and tries again five seconds later. */
  lemma RefusedTriesAgain(w: World, i: Id, e: Event)
    requires Inv(w) && i in w.instances && !w.instances[i].gone
    requires || (e == Answered(i) && w.instances[i].attempt.Asking? && w.instances[i].attempt.answered == Some(false))
             || (e == AskFails(i) && w.instances[i].attempt.Asking?)
             || (e == ConnectFails(i) && w.instances[i].attempt == Connecting)
    ensures var w' := Step(w, e);
            && i in w'.instances && !w'.instances[i].gone && !w'.instances[i].acquired
            && w'.instances[i].session == None && w'.instances[i].attempt == RetryAt(w.now + 5_000)
            && (e == Answered(i) ==>
                  && w.instances[i].session.Some? && w.instances[i].session.value in w'.died
                  && w'.died[w.instances[i].session.value].Some?)
    ensures forall t: int, w'': World | w'' == Step(w, e).(now := t) ::
              i in w''.instances && (Step(w'', Retry(i)) != w'' <==> t >= w.now + 5_000)
  {
    hide Inv, NothingDueBefore;
    OneOk(w, i);
    RefusedEffect(w, i, e);
    forall t: int, w'': World | w'' == Step(w, e).(now := t)
      ensures i in w''.instances && (Step(w'', Retry(i)) != w'' <==> t >= w.now + 5_000)
    {
      hide Step;
      RetryIff(w'', i, w.now + 5_000);
    }
  }

  lemma RefusedEffect(w: World, i: Id, e: Event)
    requires Inv(w) && i in w.instances && !w.instances[i].gone
    requires || (e == Answered(i) && w.instances[i].attempt.Asking? && w.instances[i].attempt.answered == Some(false))
             || (e == AskFails(i) && w.instances[i].attempt.Asking?)
             || (e == ConnectFails(i) && w.instances[i].attempt == Connecting)
    ensures var w' := Step(w, e);
            && i in w'.instances && !w'.instances[i].gone && !w'.instances[i].acquired
            && w'.instances[i].session == None && w'.instances[i].attempt == RetryAt(w.now + 5_000)
            && (e == Answered(i) ==>
                  && w.instances[i].session.Some? && w.instances[i].session.value in w'.died
                  && w'.died[w.instances[i].session.value].Some?)
  {
    hide Inv, NothingDueBefore;
    OneOk(w, i);
  }

  lemma RetryIff(w: World, i: Id, due: int)
    requires i in w.instances && !w.instances[i].gone && w.instances[i].attempt == RetryAt(due)
    ensures Step(w, Retry(i)) != w <==> w.now >= due
    ensures w.now >= due ==>
              Step(w, Retry(i)) == w.(instances := w.instances[i := w.instances[i].(attempt := Connecting)])
  {
    var x := w.instances[i].(attempt := Connecting);
    assert w.instances[i := x][i] != w.instances[i];
  }

  /**
   * A standby that is due for its next try while the lock is free can take it on any new
   * session, and then leads, verifies fifteen seconds later, and nobody else holds the lock.
   */
  lemma StandbyTakesOver(w: World, i: Id, due: int, s: Session)
    requires i in w.instances && w.instances[i] == Instance(None, false, false, false, RetryAt(due), NoLoop)
    requires w.now <= due && w.holder == None && s !in w.died
    requires forall j :: j in w.instances ==> NothingDueBefore(w.instances[j], due)
    ensures var w' := Run(w, [Advance(due), Retry(i), Connected(i, s), ServerRuns(i), Answered(i), Acquired(i)]);
            && Acts(w', i) && w'.now == due && w'.holder == Some(s) && Alive(w', s)
            && w'.instances[i].session == Some(s) && w'.instances[i].verify == TimerAt(due + 15_000)
  {
    var e := [Advance(due), Retry(i), Connected(i, s), ServerRuns(i), Answered(i), Acquired(i)];
    var w2 := w.(now := due, instances := w.instances[i := w.instances[i].(attempt := Connecting)]);
    assert Step(Step(w, e[0]), e[1]) == w2;
    Connects(w2, i, s);
    hide Step, Acts, Alive;
    FourEvents(w2, e[2..]);
    assert e == e[..2] + e[2..];
    RunConcat(w, e[..2], e[2..]);
    assert e[..2][1..] == [e[1]] && [e[1]][1..] == [];
    assert Run(Step(w, e[0]), [e[1]]) == w2;
  }

  lemma Connects(w: World, i: Id, s: Session)
    requires i in w.instances && w.instances[i] == Instance(None, false, false, false, Connecting, NoLoop)
    requires w.holder == None && s !in w.died
    ensures var w' := Step(Step(Step(Step(w, Connected(i, s)), ServerRuns(i)), Answered(i)), Acquired(i));
            && Acts(w', i) && w'.now == w.now && w'.holder == Some(s) && Alive(w', s)
            && w'.instances[i].session == Some(s) && w'.instances[i].verify == TimerAt(w.now + 15_000)
  {
    var asking := Instance(Some(s), false, false, false, Asking(None, w.now + w.queryMs), NoLoop);
    var w1 := Step(w, Connected(i, s));
    assert w1.instances[i] == asking && Alive(w1, s);
    var w2 := Step(w1, ServerRuns(i));
    assert w2.instances[i] == asking.(attempt := Asking(Some(true), w.now + w.queryMs));
  }
}
