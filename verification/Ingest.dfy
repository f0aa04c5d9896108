/**
 * Ingesting the feed of one fixture: stale updates are dropped, partial scores are
 * merged, finalisation is announced once.
 */
module Ingest {
  import opened Wrappers

  const GAME_FINALISED := 100

  datatype PartialScore = PartialScore(p1: Option<int>, p2: Option<int>)
  datatype Score = Score(p1: int, p2: int)
  datatype Update = Update(seqNo: int, ts: int, statusId: Option<int>, score: Option<PartialScore>)

  datatype Fixture = Fixture(lastSeq: Option<int>, lastTs: int, statusId: Option<int>, score: Option<Score>,
                             finalisedSeq: Option<int>)

  predicate IsFinal(u: Update) {
    u.statusId == Some(GAME_FINALISED)
  }

  /** Not newer than the last one, and not a finalisation. */
  predicate IsStale(f: Fixture, u: Update) {
    f.lastSeq.Some? && u.seqNo <= f.lastSeq.value && !IsFinal(u)
  }

  function Merge(known: Option<Score>, s: PartialScore): Score {
    var base := if known.Some? then known.value else Score(0, 0);
    Score(if s.p1.Some? then s.p1.value else base.p1, if s.p2.Some? then s.p2.value else base.p2)
  }

  /** The fixture after one update, and whether settlement is started. */
  function Apply(f: Fixture, u: Update): (Fixture, bool) {
    if IsStale(f, u) then (f, false)
    else
      var starts := IsFinal(u) && f.finalisedSeq == None;
      (Fixture(Some(u.seqNo), u.ts, if u.statusId.Some? then u.statusId else f.statusId,
               if u.score.Some? then Some(Merge(f.score, u.score.value)) else f.score,
               if starts then Some(u.seqNo) else f.finalisedSeq), starts)
  }

  class FixtureRecord {
    var lastSeq: Option<int>
    var lastTs: int
    var statusId: Option<int>
    var score: Option<Score>
    var finalisedSeq: Option<int>

    ghost function Snapshot(): Fixture
      reads this
    {
      Fixture(lastSeq, lastTs, statusId, score, finalisedSeq)
    }

    constructor ()
      ensures Snapshot() == Fixture(None, 0, None, None, None)
    {
      lastSeq, lastTs, statusId, score, finalisedSeq := None, 0, None, None, None;
    }

    /** `starts`: the settlers are told that the fixture is final. */
    method Ingest(u: Update) returns (starts: bool)
      modifies this
      ensures (Snapshot(), starts) == Apply(old(Snapshot()), u)
    {
      if lastSeq.Some? && u.seqNo <= lastSeq.value && u.statusId != Some(GAME_FINALISED) {
        return false;
      }
      lastSeq := Some(u.seqNo);
      lastTs := u.ts;
      if u.statusId.Some? {
        statusId := u.statusId;
      }
      if u.score.Some? {
        var s := u.score.value;
        var p1 := if s.p1.Some? then s.p1.value else if score.Some? then score.value.p1 else 0;
        var p2 := if s.p2.Some? then s.p2.value else if score.Some? then score.value.p2 else 0;
        score := Some(Score(p1, p2));
      }
      starts := false;
      if u.statusId == Some(GAME_FINALISED) && finalisedSeq == None {
        finalisedSeq := Some(u.seqNo);
        starts := true;
      }
    }
  }

  // --- whole feeds --------------------------------------------------------------------------

  function Feed(f: Fixture, us: seq<Update>): Fixture {
    if us == [] then f else Apply(Feed(f, us[..|us| - 1]), us[|us| - 1]).0
  }

  /** How often settlement is started over a feed. */
  function Starts(f: Fixture, us: seq<Update>): nat {
    if us == [] then 0
    else
      var rest := us[..|us| - 1];
      Starts(f, rest) + (if Apply(Feed(f, rest), us[|us| - 1]).1 then 1 else 0)
  }

  function FirstFinal(us: seq<Update>): Option<int> {
    if us == [] then None
    else
      var earlier := FirstFinal(us[..|us| - 1]);
      if earlier.Some? then earlier
      else if IsFinal(us[|us| - 1]) then Some(us[|us| - 1].seqNo) else None
  }

  /**
   * Whatever the order, repeats and gaps of a feed, settlement starts exactly once if
   * it holds a finalisation, status 100, and never otherwise, with the first one's number.
   */
  lemma {:induction false} SettlementStartsOnce(f: Fixture, us: seq<Update>)
    requires f.finalisedSeq == None
    ensures Feed(f, us).finalisedSeq == FirstFinal(us)
    ensures Starts(f, us) == (if FirstFinal(us).Some? then 1 else 0)
    ensures FirstFinal(us).Some? <==> exists u :: u in us && u.statusId == Some(100)
  {
    if us != [] {
      var rest := us[..|us| - 1];
      SettlementStartsOnce(f, rest);
      assert us == rest + [us[|us| - 1]];
    }
  }

  /** Delivering an update again right away changes nothing and starts nothing. */
  lemma RedeliveryIsHarmless(f: Fixture, u: Update)
    ensures Apply(Apply(f, u).0, u) == (Apply(f, u).0, false)
  {
  }

  /** The updates that were not stale when they came. */
  function Accepted(f: Fixture, us: seq<Update>): seq<Update> {
    if us == [] then []
    else
      var rest, u := us[..|us| - 1], us[|us| - 1];
      if IsStale(Feed(f, rest), u) then Accepted(f, rest) else Accepted(f, rest) + [u]
  }

  /** The goals an update reports for one side, if any. */
  function Reported(u: Update, home: bool): Option<int> {
    if u.score.None? then None else if home then u.score.value.p1 else u.score.value.p2
  }

  /** The last goals reported for one side. */
  function LastReport(us: seq<Update>, home: bool): Option<int> {
    if us == [] then None
    else
      var last := Reported(us[|us| - 1], home);
      if last.Some? then last else LastReport(us[..|us| - 1], home)
  }

  lemma LastReportSnoc(us: seq<Update>, u: Update, home: bool)
    ensures LastReport(us + [u], home) == (if Reported(u, home).Some? then Reported(u, home) else LastReport(us, home))
  {
    assert (us + [u])[..|us|] == us;
  }

  function OrZero(goals: Option<int>): int {
    if goals.Some? then goals.value else 0
  }

  /** The merged score has each side's last accepted report, or nothing reported yet counted as 0. */
  lemma {:induction false} ScoreIsLastReport(f: Fixture, us: seq<Update>)
    requires f.score == None
    ensures var s, known := Feed(f, us).score, Accepted(f, us);
            && (s.Some? ==> s.value == Score(OrZero(LastReport(known, true)), OrZero(LastReport(known, false))))
            && (s.None? <==> forall u :: u in known ==> u.score.None?)
            && (s.None? ==> LastReport(known, true).None? && LastReport(known, false).None?)
  {
    if us != [] {
      var rest, u := us[..|us| - 1], us[|us| - 1];
      ScoreIsLastReport(f, rest);
      var known := Accepted(f, rest);
      LastReportSnoc(known, u, true);
      LastReportSnoc(known, u, false);
    }
  }

  /** As long as nothing is final, accepted numbers only go up. */
  lemma {:induction false} AcceptedAscend(f: Fixture, us: seq<Update>)
    requires forall u :: u in us ==> !IsFinal(u)
    ensures var known := Accepted(f, us);
            && (forall i, j :: 0 <= i < j < |known| ==> known[i].seqNo < known[j].seqNo)
            && Feed(f, us).lastSeq == (if known == [] then f.lastSeq else Some(known[|known| - 1].seqNo))
  {
    if us != [] {
      var rest, u := us[..|us| - 1], us[|us| - 1];
      assert us == rest + [u];
      AcceptedAscend(f, rest);
    }
  }

  /** A feed whose numbers only go up is taken whole, and a finalisation is taken out of turn. */
  lemma {:induction false} InOrderIsTaken(f: Fixture, us: seq<Update>)
    requires forall i, j :: 0 <= i < j < |us| ==> us[i].seqNo < us[j].seqNo
    requires f.lastSeq.Some? ==> forall u :: u in us ==> f.lastSeq.value < u.seqNo
    ensures Accepted(f, us) == us
    ensures Feed(f, us).lastSeq == (if us == [] then f.lastSeq else Some(us[|us| - 1].seqNo))
  {
    if us != [] {
      var rest, u := us[..|us| - 1], us[|us| - 1];
      forall i, j | 0 <= i < j < |rest| ensures rest[i].seqNo < rest[j].seqNo {
        assert rest[i] == us[i] && rest[j] == us[j];
      }
      InOrderIsTaken(f, rest);
      assert us == rest + [u];
      if rest != [] {
        assert rest[|rest| - 1] == us[|us| - 2];
      }
      assert u in us;
    }
  }

  lemma {:induction false} FinalIsTaken(f: Fixture, us: seq<Update>, u: Update)
    requires u in us && u.statusId == Some(100)
    ensures u in Accepted(f, us)
  {
    var rest, last := us[..|us| - 1], us[|us| - 1];
    assert us == rest + [last];
    if last != u {
      FinalIsTaken(f, rest, u);
    }
  }

  function LastStatus(us: seq<Update>): Option<int> {
    if us == [] then None
    else if us[|us| - 1].statusId.Some? then us[|us| - 1].statusId else LastStatus(us[..|us| - 1])
  }

  lemma LastStatusSnoc(us: seq<Update>, u: Update)
    ensures LastStatus(us + [u]) == (if u.statusId.Some? then u.statusId else LastStatus(us))
  {
    assert (us + [u])[..|us|] == us;
  }

  /** The status is the last one an accepted update carried, the time that of the last accepted update. */
  lemma {:induction false} StatusIsLastReport(f: Fixture, us: seq<Update>)
    ensures var known := Accepted(f, us);
            && Feed(f, us).statusId == (if LastStatus(known).Some? then LastStatus(known) else f.statusId)
            && Feed(f, us).lastTs == (if known == [] then f.lastTs else known[|known| - 1].ts)
  {
    if us != [] {
      var rest, u := us[..|us| - 1], us[|us| - 1];
      StatusIsLastReport(f, rest);
      LastStatusSnoc(Accepted(f, rest), u);
    }
  }
}
