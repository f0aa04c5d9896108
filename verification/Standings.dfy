/**
 * Group tables: counters updated match by match, rows sorted by points, goal
 * difference, goals scored and code. Unproven matches count as unplayed.
 */
module Standings {
  import opened Wrappers
  import opened Sorting
  import opened Components

  /** A group-stage fixture as stored: teams may be unresolved, scores unproven. */
  datatype Fixture = Fixture(home: Option<Code>, away: Option<Code>, proven: bool, p1: Option<int>, p2: Option<int>)

  /** A fixture whose two teams are known. */
  datatype Match = Match(home: Code, away: Code, proven: bool, p1: Option<int>, p2: Option<int>)

  datatype Row = Row(code: Code, played: int, won: int, drawn: int, lost: int, gf: int, ga: int, gd: int, points: int)

  datatype Group = Group(letter: nat, rows: seq<Row>, provenCount: nat, totalCount: nat)

  function Resolve(f: Fixture): Option<Match> {
    if f.home.Some? && f.away.Some? then Some(Match(f.home.value, f.away.value, f.proven, f.p1, f.p2)) else None
  }

  function Resolved(fs: seq<Fixture>): seq<Match> {
    if fs == [] then []
    else
      var rest := Resolved(fs[..|fs| - 1]);
      match Resolve(fs[|fs| - 1])
      case Some(m) => rest + [m]
      case None => rest
  }

  /** `ms` are the fixtures whose two teams are known, at the places `at`, with their scores. */
  ghost predicate Picked(fs: seq<Fixture>, ms: seq<Match>, at: seq<nat>) {
    && |at| == |ms| && (forall i, j :: 0 <= i < j < |at| ==> at[i] < at[j])
    && (forall i :: 0 <= i < |fs| ==> (i in at <==> fs[i].home.Some? && fs[i].away.Some?))
    && forall k :: 0 <= k < |at| ==>
         && at[k] < |fs| && fs[at[k]].home == Some(ms[k].home) && fs[at[k]].away == Some(ms[k].away)
         && fs[at[k]].proven == ms[k].proven && fs[at[k]].p1 == ms[k].p1 && fs[at[k]].p2 == ms[k].p2
  }

  lemma PickOneMore(fs: seq<Fixture>, ms: seq<Match>, at: seq<nat>, f: Fixture)
    requires Picked(fs, ms, at)
    ensures Resolve(f).None? ==> Picked(fs + [f], ms, at)
    ensures Resolve(f).Some? ==> Picked(fs + [f], ms + [Resolve(f).value], at + [|fs|])
  {
    assert |fs| !in at;
    assert forall i :: i in at + [|fs|] <==> i in at || i == |fs|;
  }

  lemma {:induction false} ResolvedAre(fs: seq<Fixture>) returns (at: seq<nat>)
    ensures Picked(fs, Resolved(fs), at)
  {
    at := [];
    if fs != [] {
      var n := |fs| - 1;
      at := ResolvedAre(fs[..n]);
      PickOneMore(fs[..n], Resolved(fs[..n]), at, fs[n]);
      assert fs[..n] + [fs[n]] == fs;
      if Resolve(fs[n]).Some? {
        at := at + [n];
      }
    }
  }

  function Pairings(ms: seq<Match>): seq<Pairing> {
    seq(|ms|, i requires 0 <= i < |ms| => Pairing(ms[i].home, ms[i].away))
  }

  // --- what a table says --------------------------------------------------------------------

  datatype Stat = Played | Won | Drawn | Lost | For | Against | Points

  /** The match has a score anybody can verify. */
  predicate Counts(m: Match) {
    m.proven && m.p1.Some? && m.p2.Some?
  }

  /** What a side that scored `own` against `other` earns. */
  function Gain(stat: Stat, own: int, other: int): int {
    match stat
    case Played => 1
    case Won => if own > other then 1 else 0
    case Drawn => if own == other then 1 else 0
    case Lost => if own < other then 1 else 0
    case For => own
    case Against => other
    case Points => if own > other then 3 else if own == other then 1 else 0
  }

  /** What one match adds to the row of `c`; a team that plays itself earns both sides. */
  function Earned(stat: Stat, m: Match, c: Code): int {
    if Counts(m) then
      (if m.home == c then Gain(stat, m.p1.value, m.p2.value) else 0)
      + (if m.away == c then Gain(stat, m.p2.value, m.p1.value) else 0)
    else 0
  }

  function Sum(ms: seq<Match>, stat: Stat, c: Code): int {
    if ms == [] then 0 else Sum(ms[..|ms| - 1], stat, c) + Earned(stat, ms[|ms| - 1], c)
  }

  /** The row of a team, column by column as a sum over matches. */
  function RowOf(ms: seq<Match>, c: Code): Row {
    Row(c, Sum(ms, Played, c), Sum(ms, Won, c), Sum(ms, Drawn, c), Sum(ms, Lost, c),
        Sum(ms, For, c), Sum(ms, Against, c), Sum(ms, For, c) - Sum(ms, Against, c), Sum(ms, Points, c))
  }

  /** The comparator of the table; `locale` breaks ties by code. */
  predicate Above(locale: (Code, Code) -> bool, x: Row, y: Row) {
    if x.points != y.points then x.points > y.points
    else if x.gd != y.gd then x.gd > y.gd
    else if x.gf != y.gf then x.gf > y.gf
    else locale(x.code, y.code)
  }

  function TableOrder(locale: (Code, Code) -> bool): (Row, Row) -> bool {
    (x: Row, y: Row) => Above(locale, x, y)
  }

  // --- building one table -----------------------------------------------------------------------

  function NewRow(c: Code): Row {
    Row(c, 0, 0, 0, 0, 0, 0, 0, 0)
  }

  /** `rowFor`: the row of a team, created on first use. */
  function WithRow(rows: map<Code, Row>, c: Code): map<Code, Row> {
    if c in rows then rows else rows[c := NewRow(c)]
  }

  /** The rows after the matches in `ms`, before goal differences are filled in. */
  ghost predicate Tallied(ms: seq<Match>, codes: set<Code>, rows: map<Code, Row>) {
    && rows.Keys == codes
    && forall c :: c in codes ==> rows[c] == RowOf(ms, c).(gd := 0)
  }

  /** The codes of the matches, home and away. */
  ghost function Teams(ms: seq<Match>): set<Code> {
    (set m | m in ms :: m.home) + (set m | m in ms :: m.away)
  }

  method OpenRows(ms: seq<Match>) returns (rows: map<Code, Row>)
    ensures Tallied([], Teams(ms), rows)
  {
    rows := map[];
    for k := 0 to |ms|
      invariant Tallied([], Teams(ms[..k]), rows)
    {
      assert ms[..k + 1] == ms[..k] + [ms[k]];
      rows := WithRow(rows, ms[k].home);
      rows := WithRow(rows, ms[k].away);
    }
    assert ms[..|ms|] == ms;
  }

  /** One counted match, field by field; `h` and `a` may be the same row. */
  method PlayMatch(m: Match, rows0: map<Code, Row>) returns (rows: map<Code, Row>)
    requires m.home in rows0 && m.away in rows0 && Counts(m)
    ensures rows.Keys == rows0.Keys
    ensures forall c :: c in rows0 ==>
              rows[c] == Row(rows0[c].code, rows0[c].played + Earned(Played, m, c), rows0[c].won + Earned(Won, m, c),
                             rows0[c].drawn + Earned(Drawn, m, c), rows0[c].lost + Earned(Lost, m, c),
                             rows0[c].gf + Earned(For, m, c), rows0[c].ga + Earned(Against, m, c), rows0[c].gd,
                             rows0[c].points + Earned(Points, m, c))
  {
    var h, a, p1, p2 := m.home, m.away, m.p1.value, m.p2.value;
    rows := rows0[h := rows0[h].(played := rows0[h].played + 1)];
    rows := rows[a := rows[a].(played := rows[a].played + 1)];
    rows := rows[h := rows[h].(gf := rows[h].gf + p1, ga := rows[h].ga + p2)];
    rows := rows[a := rows[a].(gf := rows[a].gf + p2, ga := rows[a].ga + p1)];
    if p1 > p2 {
      rows := rows[h := rows[h].(won := rows[h].won + 1, points := rows[h].points + 3)];
      rows := rows[a := rows[a].(lost := rows[a].lost + 1)];
    } else if p1 < p2 {
      rows := rows[a := rows[a].(won := rows[a].won + 1, points := rows[a].points + 3)];
      rows := rows[h := rows[h].(lost := rows[h].lost + 1)];
    } else {
      rows := rows[h := rows[h].(drawn := rows[h].drawn + 1, points := rows[h].points + 1)];
      rows := rows[a := rows[a].(drawn := rows[a].drawn + 1, points := rows[a].points + 1)];
    }
  }

  method TallyMatches(ms: seq<Match>, rows0: map<Code, Row>) returns (rows: map<Code, Row>)
    requires Tallied([], Teams(ms), rows0)
    ensures Tallied(ms, Teams(ms), rows)
  {
    rows := rows0;
    for k := 0 to |ms|
      invariant Tallied(ms[..k], Teams(ms), rows)
    {
      assert ms[..k + 1][..k] == ms[..k];
      assert ms[k] in ms;
      if Counts(ms[k]) {
        rows := PlayMatch(ms[k], rows);
      }
    }
    assert ms[..|ms|] == ms;
  }

  /** The finished rows of `codes`, each once. */
  ghost predicate Lists(ms: seq<Match>, codes: set<Code>, list: seq<Row>) {
    && (forall r :: r in list <==> r.code in codes && r == RowOf(ms, r.code))
    && (forall i, j :: 0 <= i < j < |list| ==> list[i].code != list[j].code)
  }

  lemma ListOneMore(ms: seq<Match>, codes: set<Code>, list: seq<Row>, c: Code)
    requires Lists(ms, codes, list) && c !in codes
    ensures Lists(ms, codes + {c}, list + [RowOf(ms, c)])
  {
    hide Sum;
    forall i | 0 <= i < |list| ensures list[i].code != c {
      assert list[i] in list;
    }
  }

  /** The rows as a list, in any order, with goal differences filled in. */
  method ListRows(ghost ms: seq<Match>, ghost codes: set<Code>, rows: map<Code, Row>) returns (list: seq<Row>)
    requires Tallied(ms, codes, rows)
    ensures Lists(ms, codes, list)
  {
    hide Lists;
    list := [];
    NothingListed(ms);
    var todo := rows.Keys;
    assert codes - todo == {};
    while todo != {}
      invariant todo <= codes && Lists(ms, codes - todo, list)
      decreases todo
    {
      var c :| c in todo;
      var r := rows[c].(gd := rows[c].gf - rows[c].ga);
      ListOneMore(ms, codes - todo, list, c);
      assert codes - todo + {c} == codes - (todo - {c});
      list := list + [r];
      todo := todo - {c};
    }
    assert codes - {} == codes;
  }

  lemma NothingListed(ms: seq<Match>)
    ensures Lists(ms, {}, [])
  {
  }

  // --- the whole report ------------------------------------------------------------------------------

  /** The matches with both teams among `codes`. */
  function Within(ms: seq<Match>, codes: seq<Code>): seq<Match> {
    if ms == [] then []
    else
      var m := ms[|ms| - 1];
      Within(ms[..|ms| - 1], codes) + (if m.home in codes && m.away in codes then [m] else [])
  }

  function ProvenCount(ms: seq<Match>): nat {
    if ms == [] then 0 else ProvenCount(ms[..|ms| - 1]) + (if ms[|ms| - 1].proven then 1 else 0)
  }

  /** `String.fromCharCode(65 + i)`: A, B, C, ... */
  function Letter(i: nat): nat {
    (65 + i) % 0x1_0000
  }

  /** The report on one component: its rows, each over all matches, in table order. */
  ghost predicate IsTable(ms: seq<Match>, codes: seq<Code>, i: nat, g: Group, locale: (Code, Code) -> bool) {
    && g.letter == Letter(i)
    && Ascending(g.rows, TableOrder(locale))
    && (forall r :: r in g.rows <==> r.code in codes && r == RowOf(ms, r.code))
    && g.totalCount == |Within(ms, codes)| && g.provenCount == ProvenCount(Within(ms, codes))
  }

  ghost predicate TablesOf(ms: seq<Match>, comps: seq<seq<Code>>, gs: seq<Group>, locale: (Code, Code) -> bool) {
    |gs| == |comps| && forall i :: 0 <= i < |gs| ==> IsTable(ms, comps[i], i, gs[i], locale)
  }

  /** One table per component of the resolved fixtures. */
  ghost predicate IsStandings(ms: seq<Match>, gs: seq<Group>, locale: (Code, Code) -> bool) {
    exists comps :: Partitions(Pairings(ms), comps, locale) && TablesOf(ms, comps, gs, locale)
  }

  /** A component holds both teams of a match or neither. */
  ghost predicate KeepsMatches(ms: seq<Match>, codes: seq<Code>) {
    forall m :: m in ms ==> (m.home in codes <==> m.away in codes)
  }

  lemma MatchIsPairing(ms: seq<Match>, m: Match)
    requires m in ms
    ensures Plays(Pairings(ms), m.home, m.away) && Plays(Pairings(ms), m.away, m.home)
  {
    var k :| 0 <= k < |ms| && ms[k] == m;
    assert Pairings(ms)[k] == Pairing(m.home, m.away);
  }

  lemma ClassKeepsMatches(ms: seq<Match>, codes: seq<Code>)
    requires IsClass(Pairings(ms), codes)
    ensures KeepsMatches(ms, codes)
  {
    var ps := Pairings(ms);
    forall m | m in ms ensures m.home in codes <==> m.away in codes {
      MatchIsPairing(ms, m);
      LinkedToItself(ps, m.home);
      LinkedToItself(ps, m.away);
      LinkedOneMore(ps, m.home, m.home, m.away);
      LinkedOneMore(ps, m.away, m.away, m.home);
    }
  }

  lemma {:induction false} WithinMembers(ms: seq<Match>, codes: seq<Code>)
    ensures forall m :: m in Within(ms, codes) <==> m in ms && m.home in codes && m.away in codes
  {
    if ms != [] {
      WithinMembers(ms[..|ms| - 1], codes);
      assert ms == ms[..|ms| - 1] + [ms[|ms| - 1]];
    }
  }

  /** All matches of a team are in its group, so its group row is its row. */
  lemma {:induction false} GroupSumIsSum(ms: seq<Match>, codes: seq<Code>, stat: Stat, c: Code)
    requires KeepsMatches(ms, codes) && c in codes
    ensures Sum(Within(ms, codes), stat, c) == Sum(ms, stat, c)
  {
    if ms != [] {
      var m, rest := ms[|ms| - 1], ms[..|ms| - 1];
      assert m in ms && (m.home in codes <==> m.away in codes);
      RestIsKept(ms, codes);
      hide KeepsMatches;
      GroupSumIsSum(rest, codes, stat, c);
      SumWithinStep(ms, codes, stat, c);
    }
  }

  lemma SumWithinStep(ms: seq<Match>, codes: seq<Code>, stat: Stat, c: Code)
    requires ms != [] && c in codes
    requires ms[|ms| - 1].home in codes <==> ms[|ms| - 1].away in codes
    ensures Sum(Within(ms, codes), stat, c)
            == Sum(Within(ms[..|ms| - 1], codes), stat, c) + Earned(stat, ms[|ms| - 1], c)
  {
    var m, w := ms[|ms| - 1], Within(ms[..|ms| - 1], codes);
    assert (w + [m])[..|w|] == w && w + [] == w;
  }

  lemma GroupRowIsRow(ms: seq<Match>, codes: seq<Code>, c: Code)
    requires KeepsMatches(ms, codes) && c in codes
    ensures RowOf(Within(ms, codes), c) == RowOf(ms, c)
  {
    forall stat ensures Sum(Within(ms, codes), stat, c) == Sum(ms, stat, c) {
      GroupSumIsSum(ms, codes, stat, c);
    }
  }

  /** The teams of a component's matches are the component. */
  lemma TeamsOfClass(ms: seq<Match>, codes: seq<Code>)
    requires IsClass(Pairings(ms), codes)
    ensures Teams(Within(ms, codes)) == Elements(codes)
  {
    WithinMembers(ms, codes);
    ClassKeepsMatches(ms, codes);
    forall c | c in codes ensures c in Teams(Within(ms, codes)) {
      var d :| Plays(Pairings(ms), c, d);
      var k :| 0 <= k < |ms| && (Pairings(ms)[k] == Pairing(c, d) || Pairings(ms)[k] == Pairing(d, c));
      assert ms[k] in ms;
      assert ms[k] in Within(ms, codes);
    }
  }

  lemma TableOrderIsStrict(ps: seq<Pairing>, rows: seq<Row>, locale: (Code, Code) -> bool)
    requires OrdersCodes(ps, locale) && forall r :: r in rows ==> IsCode(ps, r.code)
    ensures Orders(TableOrder(locale), rows)
  {
    hide IsCode;
  }

  method FilterMatches(ms: seq<Match>, codes: seq<Code>) returns (r: seq<Match>, proven: nat)
    ensures r == Within(ms, codes) && proven == ProvenCount(r)
  {
    r, proven := [], 0;
    for k := 0 to |ms|
      invariant r == Within(ms[..k], codes) && proven == ProvenCount(r)
    {
      assert ms[..k + 1][..k] == ms[..k];
      var m := ms[k];
      if m.home in codes && m.away in codes {
        assert (r + [m])[..|r|] == r;
        r := r + [m];
        if m.proven {
          proven := proven + 1;
        }
      }
    }
    assert ms[..|ms|] == ms;
  }

  method BuildTable(ms: seq<Match>, codes: seq<Code>, i: nat, locale: (Code, Code) -> bool) returns (g: Group)
    requires IsClass(Pairings(ms), codes) && OrdersCodes(Pairings(ms), locale)
    ensures IsTable(ms, codes, i, g, locale)
  {
    ClassKeepsMatches(ms, codes);
    TeamsOfClass(ms, codes);
    var matches, proven := FilterMatches(ms, codes);
    var rows := OpenRows(matches);
    rows := TallyMatches(matches, rows);
    var list := ListRows(matches, Elements(codes), rows);
    forall c | c in codes ensures RowOf(matches, c) == RowOf(ms, c) {
      GroupRowIsRow(ms, codes, c);
    }
    TableOrderIsStrict(Pairings(ms), list, locale);
    SortMembers(list, TableOrder(locale));
    SortAscends(list, TableOrder(locale));
    g := Group(Letter(i), Sort(list, TableOrder(locale)), proven, |matches|);
  }

  lemma ClassesOf(ps: seq<Pairing>, comps: seq<seq<Code>>, locale: (Code, Code) -> bool)
    requires Partitions(ps, comps, locale)
    ensures forall i :: 0 <= i < |comps| ==> IsClass(ps, comps[i])
  {
  }

  lemma OneMoreTable(ms: seq<Match>, comps: seq<seq<Code>>, i: nat, gs: seq<Group>, g: Group,
                     locale: (Code, Code) -> bool)
    requires i < |comps| && |gs| == i && TablesOf(ms, comps[..i], gs, locale)
    requires IsTable(ms, comps[i], i, g, locale)
    ensures TablesOf(ms, comps[..i + 1], gs + [g], locale)
  {
    hide IsTable;
  }

  lemma AllTables(ms: seq<Match>, comps: seq<seq<Code>>, gs: seq<Group>, locale: (Code, Code) -> bool)
    requires Partitions(Pairings(ms), comps, locale) && TablesOf(ms, comps[..|comps|], gs, locale)
    ensures IsStandings(ms, gs, locale)
  {
    assert comps[..|comps|] == comps;
  }

  lemma NoTables(ms: seq<Match>, comps: seq<seq<Code>>, locale: (Code, Code) -> bool)
    ensures TablesOf(ms, comps[..0], [], locale)
  {
  }

  method GetStandings(fixtures: seq<Fixture>, locale: (Code, Code) -> bool) returns (groups: seq<Group>)
    requires OrdersCodes(Pairings(Resolved(fixtures)), locale)
    ensures IsStandings(Resolved(fixtures), groups, locale)
  {
    hide *;
    var ms := Resolved(fixtures);
    var comps := FindComponents(Pairings(ms), locale);
    ClassesOf(Pairings(ms), comps, locale);
    NoTables(ms, comps, locale);
    groups := [];
    for i := 0 to |comps|
      invariant |groups| == i && TablesOf(ms, comps[..i], groups, locale)
    {
      var g := BuildTable(ms, comps[i], i, locale);
      OneMoreTable(ms, comps, i, groups, g, locale);
      groups := groups + [g];
    }
    AllTables(ms, comps, groups, locale);
  }

  // --- what tables say ---------------------------------------------------------------------------

  /**
   * The better row comes first: more points, then the better goal difference, then more
   * goals, then the code. Groups are lettered A, B, C and so on.
   */
  lemma RowsAreRanked(ms: seq<Match>, gs: seq<Group>, locale: (Code, Code) -> bool, i: nat, j: nat, k: nat)
    requires IsStandings(ms, gs, locale) && i < |gs| && j < k < |gs[i].rows|
    ensures var x, y := gs[i].rows[j], gs[i].rows[k];
            && x.points >= y.points
            && (x.points == y.points ==> x.gd >= y.gd)
            && (x.points == y.points && x.gd == y.gd ==> x.gf >= y.gf)
            && (x.points == y.points && x.gd == y.gd && x.gf == y.gf ==> locale(x.code, y.code))
    ensures i < 26 ==> gs[i].letter == 'A' as int + i
  {
    hide Sum, Within, Partitions, RowOf, ProvenCount, Above;
    var comps :| Partitions(Pairings(ms), comps, locale) && TablesOf(ms, comps, gs, locale);
    assert IsTable(ms, comps[i], i, gs[i], locale);
    AboveMeans(locale, gs[i].rows[j], gs[i].rows[k]);
  }

  lemma AboveMeans(locale: (Code, Code) -> bool, x: Row, y: Row)
    requires Above(locale, x, y)
    ensures x.points >= y.points
    ensures x.points == y.points ==> x.gd >= y.gd
    ensures x.points == y.points && x.gd == y.gd ==> x.gf >= y.gf
    ensures x.points == y.points && x.gd == y.gd && x.gf == y.gf ==> locale(x.code, y.code)
  {
  }

  lemma SingleSum(m: Match, stat: Stat, c: Code)
    ensures Sum([m], stat, c) == Earned(stat, m, c)
  {
    assert [m][..0] == [];
  }

  /** All codes of a single match are in one component. */
  lemma OneComponent(m: Match, comps: seq<seq<Code>>, locale: (Code, Code) -> bool)
    requires Partitions(Pairings([m]), comps, locale)
    ensures |comps| == 1 && forall c :: c in comps[0] <==> c == m.home || c == m.away
  {
    var ps := Pairings([m]);
    assert ps == [Pairing(m.home, m.away)];
    assert m in [m];
    MatchIsPairing([m], m);
    assert IsCode(ps, m.home) && IsCode(ps, m.away);
    assert forall c :: IsCode(ps, c) ==> c == m.home || c == m.away;
    var i :| 0 <= i < |comps| && m.home in comps[i];
    ClassKeepsMatches([m], comps[i]);
    if |comps| > 1 {
      var j := if i == 0 then 1 else 0;
      assert IsClass(ps, comps[j]) && comps[j][0] in comps[j] && IsCode(ps, comps[j][0]);
      NotInTwo(ps, comps, i, j, m.home);
      NotInTwo(ps, comps, i, j, m.away);
    }
    assert IsClass(ps, comps[0]);
  }

  /** What a side that scored `own` against `other` has after one match. */
  function RowAfter(c: Code, own: int, other: int): Row {
    Row(c, 1, if own > other then 1 else 0, if own == other then 1 else 0, if own < other then 1 else 0,
        own, other, own - other, if own > other then 3 else if own == other then 1 else 0)
  }

  lemma RowsAfterOne(m: Match)
    requires m.home != m.away && m.proven && m.p1.Some? && m.p2.Some?
    ensures RowOf([m], m.home) == RowAfter(m.home, m.p1.value, m.p2.value)
    ensures RowOf([m], m.away) == RowAfter(m.away, m.p2.value, m.p1.value)
  {
    forall stat, c ensures Sum([m], stat, c) == Earned(stat, m, c) {
      SingleSum(m, stat, c);
    }
    hide Sum;
  }

  /** The winner's row first; after a draw the code decides. */
  ghost function RowsInOrder(m: Match, locale: (Code, Code) -> bool): seq<Row>
    requires m.p1.Some? && m.p2.Some?
  {
    var x, y := m.p1.value, m.p2.value;
    var homeRow, awayRow := RowAfter(m.home, x, y), RowAfter(m.away, y, x);
    if x > y || (x == y && locale(m.home, m.away)) then [homeRow, awayRow] else [awayRow, homeRow]
  }

  /**
   * The report on one proven match, in full: whoever scored more heads the group with the
   * three points, and a draw gives both one.
   */
  lemma OneMatchReport(m: Match, gs: seq<Group>, locale: (Code, Code) -> bool)
    requires m.home != m.away && m.proven && m.p1.Some? && m.p2.Some?
    requires IsStandings([m], gs, locale) && OrdersCodes(Pairings([m]), locale)
    ensures gs == [Group('A' as int, RowsInOrder(m, locale), 1, 1)]
  {
    var comps :| Partitions(Pairings([m]), comps, locale) && TablesOf([m], comps, gs, locale);
    OneComponent(m, comps, locale);
    assert IsCode(Pairings([m]), m.home) && IsCode(Pairings([m]), m.away) by {
      assert m in [m];
      MatchIsPairing([m], m);
    }
    hide IsTable, RowAfter, Partitions, OrdersCodes, IsCode;
    OneTable(m, comps[0], gs[0], locale);
    assert gs == [gs[0]];
  }

  lemma OneTable(m: Match, codes: seq<Code>, g: Group, locale: (Code, Code) -> bool)
    requires m.home != m.away && m.proven && m.p1.Some? && m.p2.Some?
    requires IsTable([m], codes, 0, g, locale) && OrdersCodes(Pairings([m]), locale)
    requires IsCode(Pairings([m]), m.home) && IsCode(Pairings([m]), m.away)
    requires forall c :: c in codes <==> c == m.home || c == m.away
    ensures g == Group('A' as int, RowsInOrder(m, locale), 1, 1)
  {
    hide *;
    OneWithin(m, codes);
    OneTablesRows(m, codes, g, locale);
    TwoAscend(m, locale);
    TableParts([m], codes, 0, g, locale);
    FirstLetter();
    AscendingIsUnique(g.rows, RowsInOrder(m, locale), TableOrder(locale));
  }

  lemma FirstLetter()
    ensures Letter(0) == 'A' as int
  {
  }

  lemma TableParts(ms: seq<Match>, codes: seq<Code>, i: nat, g: Group, locale: (Code, Code) -> bool)
    requires IsTable(ms, codes, i, g, locale)
    ensures g.letter == Letter(i) && Ascending(g.rows, TableOrder(locale))
    ensures g.totalCount == |Within(ms, codes)| && g.provenCount == ProvenCount(Within(ms, codes))
  {
  }

  lemma OneTablesRows(m: Match, codes: seq<Code>, g: Group, locale: (Code, Code) -> bool)
    requires m.home != m.away && m.proven && m.p1.Some? && m.p2.Some?
    requires IsTable([m], codes, 0, g, locale) && OrdersCodes(Pairings([m]), locale)
    requires IsCode(Pairings([m]), m.home) && IsCode(Pairings([m]), m.away)
    requires forall c :: c in codes <==> c == m.home || c == m.away
    ensures SameMembers(g.rows, RowsInOrder(m, locale)) && Orders(TableOrder(locale), g.rows)
  {
    RowsAfterOne(m);
    hide RowOf, Within, ProvenCount, IsCode, Above, OrdersCodes, Orders;
    var rows := RowsInOrder(m, locale);
    assert rows[0] in rows && rows[1] in rows;
    TableOrderIsStrict(Pairings([m]), g.rows, locale);
  }

  lemma TwoAscend(m: Match, locale: (Code, Code) -> bool)
    requires m.home != m.away && m.p1.Some? && m.p2.Some? && OrdersCodes(Pairings([m]), locale)
    requires IsCode(Pairings([m]), m.home) && IsCode(Pairings([m]), m.away)
    ensures Ascending(RowsInOrder(m, locale), TableOrder(locale))
  {
    hide IsCode;
  }

  lemma OneWithin(m: Match, codes: seq<Code>)
    requires m.home in codes && m.away in codes && m.proven
    ensures |Within([m], codes)| == 1 && ProvenCount(Within([m], codes)) == 1
  {
    assert [m][..0] == [];
    assert Within([m], codes) == [m];
  }

  // --- what tables conserve ------------------------------------------------------------------------

  lemma {:induction false} PlayedIsDecided(ms: seq<Match>, c: Code)
    ensures Sum(ms, Played, c) == Sum(ms, Won, c) + Sum(ms, Drawn, c) + Sum(ms, Lost, c)
    ensures Sum(ms, Points, c) == 3 * Sum(ms, Won, c) + Sum(ms, Drawn, c)
  {
    if ms != [] {
      PlayedIsDecided(ms[..|ms| - 1], c);
    }
  }

  /** In every row of a standings report the columns add up. */
  lemma RowsAddUp(ms: seq<Match>, gs: seq<Group>, locale: (Code, Code) -> bool, i: nat, r: Row)
    requires IsStandings(ms, gs, locale) && i < |gs| && r in gs[i].rows
    ensures r.played == r.won + r.drawn + r.lost
    ensures r.points == 3 * r.won + r.drawn
    ensures r.gd == r.gf - r.ga
  {
    PlayedIsDecided(ms, r.code);
  }

  function Cell(stat: Stat, r: Row): int {
    match stat
    case Played => r.played
    case Won => r.won
    case Drawn => r.drawn
    case Lost => r.lost
    case For => r.gf
    case Against => r.ga
    case Points => r.points
  }

  /** One column of a table, added up. */
  function Column(rows: seq<Row>, stat: Stat): int {
    if rows == [] then 0 else Column(rows[..|rows| - 1], stat) + Cell(stat, rows[|rows| - 1])
  }

  function GoalDifference(rows: seq<Row>): int {
    if rows == [] then 0 else GoalDifference(rows[..|rows| - 1]) + rows[|rows| - 1].gd
  }

  /** What both sides of the counted matches earn together. */
  function Paid(ms: seq<Match>, stat: Stat): int {
    if ms == [] then 0
    else
      var m := ms[|ms| - 1];
      Paid(ms[..|ms| - 1], stat)
      + (if Counts(m) then Gain(stat, m.p1.value, m.p2.value) + Gain(stat, m.p2.value, m.p1.value) else 0)
  }

  function Decisive(ms: seq<Match>): nat {
    if ms == [] then 0
    else
      var m := ms[|ms| - 1];
      Decisive(ms[..|ms| - 1]) + (if Counts(m) && m.p1 != m.p2 then 1 else 0)
  }

  function Level(ms: seq<Match>): nat {
    if ms == [] then 0
    else
      var m := ms[|ms| - 1];
      Level(ms[..|ms| - 1]) + (if Counts(m) && m.p1 == m.p2 then 1 else 0)
  }

  ghost predicate Distinct(cs: seq<Code>) {
    forall i, j :: 0 <= i < j < |cs| ==> cs[i] != cs[j]
  }

  /** A column, read off the matches team by team. */
  function Across(ms: seq<Match>, cs: seq<Code>, stat: Stat): int {
    if cs == [] then 0 else Across(ms, cs[..|cs| - 1], stat) + Sum(ms, stat, cs[|cs| - 1])
  }

  function SidesIn(m: Match, cs: seq<Code>, stat: Stat): int {
    if Counts(m) then
      (if m.home in cs then Gain(stat, m.p1.value, m.p2.value) else 0)
      + (if m.away in cs then Gain(stat, m.p2.value, m.p1.value) else 0)
    else 0
  }

  /** One match adds to a column what its two sides earn, each once. */
  lemma {:induction false} AcrossStep(ms: seq<Match>, cs: seq<Code>, stat: Stat)
    requires ms != [] && Distinct(cs)
    ensures Across(ms, cs, stat) == Across(ms[..|ms| - 1], cs, stat) + SidesIn(ms[|ms| - 1], cs, stat)
  {
    if cs != [] {
      var rest, c := cs[..|cs| - 1], cs[|cs| - 1];
      AcrossStep(ms, rest, stat);
      assert cs == rest + [c] && c !in rest;
    }
  }

  lemma {:induction false} AcrossIsPaid(ms: seq<Match>, cs: seq<Code>, stat: Stat)
    requires Distinct(cs) && KeepsMatches(ms, cs)
    ensures Across(ms, cs, stat) == Paid(Within(ms, cs), stat)
  {
    if ms == [] {
      AcrossNothing(cs, stat);
    } else {
      var m, rest := ms[|ms| - 1], ms[..|ms| - 1];
      assert m in ms && (m.home in cs <==> m.away in cs);
      RestIsKept(ms, cs);
      hide KeepsMatches;
      AcrossStep(ms, cs, stat);
      AcrossIsPaid(rest, cs, stat);
      PaidWithinStep(ms, cs, stat);
    }
  }

  lemma RestIsKept(ms: seq<Match>, cs: seq<Code>)
    requires ms != [] && KeepsMatches(ms, cs)
    ensures KeepsMatches(ms[..|ms| - 1], cs)
  {
    assert ms == ms[..|ms| - 1] + [ms[|ms| - 1]];
  }

  lemma PaidWithinStep(ms: seq<Match>, cs: seq<Code>, stat: Stat)
    requires ms != []
    requires ms[|ms| - 1].home in cs <==> ms[|ms| - 1].away in cs
    ensures Paid(Within(ms, cs), stat)
            == Paid(Within(ms[..|ms| - 1], cs), stat) + SidesIn(ms[|ms| - 1], cs, stat)
  {
    var m, w := ms[|ms| - 1], Within(ms[..|ms| - 1], cs);
    assert (w + [m])[..|w|] == w && w + [] == w;
  }

  lemma {:induction false} AcrossNothing(cs: seq<Code>, stat: Stat)
    ensures Across([], cs, stat) == 0
  {
    if cs != [] {
      AcrossNothing(cs[..|cs| - 1], stat);
    }
  }

  function CodesOf(rows: seq<Row>): seq<Code> {
    seq(|rows|, i requires 0 <= i < |rows| => rows[i].code)
  }

  lemma {:induction false} ColumnIsAcross(ms: seq<Match>, rows: seq<Row>, stat: Stat)
    requires forall r :: r in rows ==> r == RowOf(ms, r.code)
    ensures Column(rows, stat) == Across(ms, CodesOf(rows), stat)
    ensures GoalDifference(rows) == Column(rows, For) - Column(rows, Against)
  {
    hide Sum;
    if rows != [] {
      var n := |rows| - 1;
      assert rows == rows[..n] + [rows[n]];
      ColumnIsAcross(ms, rows[..n], stat);
      assert CodesOf(rows)[..n] == CodesOf(rows[..n]);
      assert rows[n] in rows;
    }
  }

  lemma {:induction false} SidesBalance(ms: seq<Match>)
    ensures Paid(ms, For) == Paid(ms, Against) && Paid(ms, Won) == Paid(ms, Lost) == Decisive(ms)
    ensures Paid(ms, Played) == 2 * (Decisive(ms) + Level(ms)) && Paid(ms, Drawn) == 2 * Level(ms)
    ensures Paid(ms, Points) == 3 * Decisive(ms) + 2 * Level(ms)
  {
    if ms != [] {
      SidesBalance(ms[..|ms| - 1]);
    }
  }

  /** The teams in the rows of a group are its component. */
  lemma RowCodes(ms: seq<Match>, codes: seq<Code>, i: nat, g: Group, locale: (Code, Code) -> bool)
    requires IsTable(ms, codes, i, g, locale)
    ensures SameMembers(CodesOf(g.rows), codes)
  {
    hide Sum, Within;
    var cs := CodesOf(g.rows);
    forall c ensures c in cs <==> c in codes {
      if c in codes {
        assert RowOf(ms, c) in g.rows;
        var k :| 0 <= k < |g.rows| && g.rows[k] == RowOf(ms, c);
        assert cs[k] == c;
      }
      if c in cs {
        var k :| 0 <= k < |cs| && cs[k] == c;
        assert g.rows[k] in g.rows;
      }
    }
  }

  lemma GroupColumn(ms: seq<Match>, codes: seq<Code>, i: nat, g: Group, locale: (Code, Code) -> bool, stat: Stat)
    requires IsClass(Pairings(ms), codes) && IsTable(ms, codes, i, g, locale)
    requires OrdersCodes(Pairings(ms), locale)
    ensures Column(g.rows, stat) == Paid(Within(ms, codes), stat)
    ensures GoalDifference(g.rows) == Column(g.rows, For) - Column(g.rows, Against)
  {
    var cs := CodesOf(g.rows);
    ClassKeepsMatches(ms, codes);
    ColumnIsAcross(ms, g.rows, stat);
    RowCodes(ms, codes, i, g, locale);
    TableOrderIsStrict(Pairings(ms), g.rows, locale);
    forall j, k | 0 <= j < k < |cs| ensures cs[j] != cs[k] {
      assert TableOrder(locale)(g.rows[j], g.rows[k]);
      assert g.rows[j] in g.rows && g.rows[k] in g.rows;
    }
    AcrossIsPaid(ms, cs, stat);
    SameWithin(ms, cs, codes);
  }

  lemma {:induction false} SameWithin(ms: seq<Match>, cs: seq<Code>, ds: seq<Code>)
    requires SameMembers(cs, ds)
    ensures Within(ms, cs) == Within(ms, ds)
  {
    if ms != [] {
      SameWithin(ms[..|ms| - 1], cs, ds);
    }
  }

  /**
   * In every group goals scored are goals conceded, goal differences cancel, wins and
   * losses are the decisive matches between its own teams, and points are three for each
   * of these and two for each of its draws.
   */
  lemma GroupsBalance(ms: seq<Match>, gs: seq<Group>, locale: (Code, Code) -> bool, i: nat)
    requires IsStandings(ms, gs, locale) && OrdersCodes(Pairings(ms), locale) && i < |gs|
    ensures Column(gs[i].rows, For) == Column(gs[i].rows, Against) && GoalDifference(gs[i].rows) == 0
    ensures var own := Within(ms, CodesOf(gs[i].rows));
            && Column(gs[i].rows, Won) == Column(gs[i].rows, Lost) == Decisive(own)
            && Column(gs[i].rows, Drawn) == 2 * Level(own)
            && Column(gs[i].rows, Played) == 2 * (Decisive(own) + Level(own))
            && Column(gs[i].rows, Points) == 3 * Decisive(own) + 2 * Level(own)
            && Decisive(own) + Level(own) <= gs[i].provenCount == ProvenCount(own)
  {
    hide Within, CodesOf, IsClass;
    var comps :| Partitions(Pairings(ms), comps, locale) && TablesOf(ms, comps, gs, locale);
    var within := Within(ms, comps[i]);
    forall stat ensures Column(gs[i].rows, stat) == Paid(within, stat) {
      GroupColumn(ms, comps[i], i, gs[i], locale, stat);
    }
    GroupColumn(ms, comps[i], i, gs[i], locale, For);
    RowCodes(ms, comps[i], i, gs[i], locale);
    SameWithin(ms, CodesOf(gs[i].rows), comps[i]);
    SidesBalance(within);
    CountedAreProven(within);
  }

  lemma {:induction false} CountedAreProven(ms: seq<Match>)
    ensures Decisive(ms) + Level(ms) <= ProvenCount(ms) <= |ms|
  {
    if ms != [] {
      CountedAreProven(ms[..|ms| - 1]);
    }
  }

  function TotalMatches(gs: seq<Group>): nat {
    if gs == [] then 0 else TotalMatches(gs[..|gs| - 1]) + gs[|gs| - 1].totalCount
  }

  /** Number of matches inside the first components. */
  function Inside(ms: seq<Match>, comps: seq<seq<Code>>): nat {
    if comps == [] then 0 else Inside(ms, comps[..|comps| - 1]) + |Within(ms, comps[|comps| - 1])|
  }

  ghost predicate InSome(comps: seq<seq<Code>>, c: Code) {
    exists i :: 0 <= i < |comps| && c in comps[i]
  }

  ghost predicate Apart(comps: seq<seq<Code>>) {
    forall i, j :: 0 <= i < j < |comps| ==> Elements(comps[i]) !! Elements(comps[j])
  }

  lemma OneMoreComponent(comps: seq<seq<Code>>, c: Code)
    requires comps != [] && Apart(comps)
    ensures var n := |comps| - 1;
            && Apart(comps[..n])
            && (c in comps[n] ==> InSome(comps, c) && !InSome(comps[..n], c))
            && (c !in comps[n] ==> (InSome(comps, c) <==> InSome(comps[..n], c)))
  {
    var n := |comps| - 1;
    assert forall i :: 0 <= i < n ==> comps[..n][i] == comps[i];
    if c in comps[n] {
      forall i | 0 <= i < n ensures c !in comps[..n][i] {
        assert c in Elements(comps[n]);
      }
    } else if InSome(comps, c) {
      var i :| 0 <= i < |comps| && c in comps[i];
      assert c in comps[..n][i];
    }
  }

  lemma WithinStep(ms: seq<Match>, cs: seq<Code>)
    requires ms != [] && KeepsMatches(ms, cs)
    ensures |Within(ms, cs)| == |Within(ms[..|ms| - 1], cs)| + (if ms[|ms| - 1].home in cs then 1 else 0)
  {
    assert ms[|ms| - 1] in ms;
  }

  /** A match lies inside exactly one component, or in none of a prefix. */
  lemma {:induction false} InsideStep(ms: seq<Match>, comps: seq<seq<Code>>)
    requires ms != [] && KeptByAll(ms, comps) && Apart(comps)
    ensures Inside(ms, comps)
            == Inside(ms[..|ms| - 1], comps) + (if InSome(comps, ms[|ms| - 1].home) then 1 else 0)
  {
    if comps != [] {
      var n := |comps| - 1;
      assert KeepsMatches(ms, comps[n]);
      assert KeptByAll(ms, comps[..n]);
      hide KeepsMatches, KeptByAll, Within, Apart, InSome;
      OneMoreComponent(comps, ms[|ms| - 1].home);
      WithinStep(ms, comps[n]);
      InsideStep(ms, comps[..n]);
    } else {
      assert !InSome(comps, ms[|ms| - 1].home);
    }
  }

  ghost predicate KeptByAll(ms: seq<Match>, comps: seq<seq<Code>>) {
    forall i :: 0 <= i < |comps| ==> KeepsMatches(ms, comps[i])
  }

  lemma {:induction false} AllInside(ms: seq<Match>, comps: seq<seq<Code>>)
    requires KeptByAll(ms, comps) && Apart(comps)
    requires forall m :: m in ms ==> InSome(comps, m.home)
    ensures Inside(ms, comps) == |ms|
  {
    if ms == [] {
      InsideNothing(comps);
    } else {
      var rest := ms[..|ms| - 1];
      assert ms == rest + [ms[|ms| - 1]];
      forall i | 0 <= i < |comps| ensures KeepsMatches(rest, comps[i]) {
        RestIsKept(ms, comps[i]);
      }
      hide Apart, InSome;
      assert ms[|ms| - 1] in ms;
      forall m | m in rest ensures InSome(comps, m.home) {
        assert m in ms;
      }
      AllInside(rest, comps);
      InsideStep(ms, comps);
    }
  }

  lemma {:induction false} InsideNothing(comps: seq<seq<Code>>)
    ensures Inside([], comps) == 0
  {
    if comps != [] {
      InsideNothing(comps[..|comps| - 1]);
    }
  }

  lemma {:induction false} TotalIsInside(ms: seq<Match>, comps: seq<seq<Code>>, gs: seq<Group>,
                                         locale: (Code, Code) -> bool)
    requires TablesOf(ms, comps, gs, locale)
    ensures TotalMatches(gs) == Inside(ms, comps)
  {
    if gs != [] {
      var n := |gs| - 1;
      TotalIsInside(ms, comps[..n], gs[..n], locale);
    }
  }

  /** Both teams of the match have a row in the group. */
  ghost predicate ReportedIn(m: Match, g: Group) {
    m.home in CodesOf(g.rows) && m.away in CodesOf(g.rows)
  }

  /**
   * Every resolved match is reported in exactly one group, and no other group has even
   * one of its teams; the counts say how many matches each group reports.
   */
  lemma EveryMatchOnce(ms: seq<Match>, gs: seq<Group>, locale: (Code, Code) -> bool)
    requires IsStandings(ms, gs, locale)
    ensures forall m :: m in ms ==>
              exists i :: 0 <= i < |gs| && ReportedIn(m, gs[i])
                          && forall j :: 0 <= j < |gs| && j != i ==>
                               m.home !in CodesOf(gs[j].rows) && m.away !in CodesOf(gs[j].rows)
    ensures forall i :: 0 <= i < |gs| ==> gs[i].totalCount == |Within(ms, CodesOf(gs[i].rows))|
    ensures TotalMatches(gs) == |ms|
  {
    hide CodesOf, Within, IsTable, Elements;
    var comps :| Partitions(Pairings(ms), comps, locale) && TablesOf(ms, comps, gs, locale);
    forall i | 0 <= i < |comps|
      ensures KeepsMatches(ms, comps[i]) && SameMembers(CodesOf(gs[i].rows), comps[i])
              && gs[i].totalCount == |Within(ms, CodesOf(gs[i].rows))|
    {
      ClassKeepsMatches(ms, comps[i]);
      RowCodes(ms, comps[i], i, gs[i], locale);
      SameWithin(ms, CodesOf(gs[i].rows), comps[i]);
      CountOf(ms, comps[i], i, gs[i], locale);
    }
    forall m | m in ms ensures exists i :: 0 <= i < |comps| && m.home in comps[i] {
      MatchIsPairing(ms, m);
      assert IsCode(Pairings(ms), m.home);
    }
    forall m | m in ms
      ensures exists i :: 0 <= i < |gs| && ReportedIn(m, gs[i])
                          && forall j :: 0 <= j < |gs| && j != i ==>
                               m.home !in CodesOf(gs[j].rows) && m.away !in CodesOf(gs[j].rows)
    {
      var i :| 0 <= i < |comps| && m.home in comps[i];
      assert m.away in comps[i] && ReportedIn(m, gs[i]);
      forall j | 0 <= j < |gs| && j != i ensures m.home !in comps[j] && m.away !in comps[j] {
        NotInTwo(Pairings(ms), comps, i, j, m.home);
        NotInTwo(Pairings(ms), comps, i, j, m.away);
      }
    }
    AllInside(ms, comps);
    TotalIsInside(ms, comps, gs, locale);
  }

  lemma CountOf(ms: seq<Match>, codes: seq<Code>, i: nat, g: Group, locale: (Code, Code) -> bool)
    requires IsTable(ms, codes, i, g, locale)
    ensures g.totalCount == |Within(ms, codes)|
  {
  }

  lemma NotInTwo(ps: seq<Pairing>, comps: seq<seq<Code>>, i: nat, j: nat, c: Code)
    requires IntoClasses(ps, comps) && i < |comps| && j < |comps| && i != j && c in comps[i]
    ensures c !in comps[j]
  {
    assert c in Elements(comps[i]);
    assert Elements(comps[i]) !! Elements(comps[j]);
    assert c !in Elements(comps[j]);
  }

  // --- no dependence on order ----------------------------------------------------------------------

  lemma {:induction false} SumConcat(a: seq<Match>, b: seq<Match>, stat: Stat, c: Code)
    ensures Sum(a + b, stat, c) == Sum(a, stat, c) + Sum(b, stat, c)
  {
    if b == [] {
      assert a + b == a;
    } else {
      assert (a + b)[..|a + b| - 1] == a + b[..|b| - 1];
      SumConcat(a, b[..|b| - 1], stat, c);
    }
  }

  lemma {:induction false} WithinConcat(a: seq<Match>, b: seq<Match>, codes: seq<Code>)
    ensures Within(a + b, codes) == Within(a, codes) + Within(b, codes)
  {
    if b == [] {
      assert a + b == a;
    } else {
      assert (a + b)[..|a + b| - 1] == a + b[..|b| - 1];
      WithinConcat(a, b[..|b| - 1], codes);
    }
  }

  lemma {:induction false} ResolvedConcat(a: seq<Fixture>, b: seq<Fixture>)
    ensures Resolved(a + b) == Resolved(a) + Resolved(b)
  {
    if b == [] {
      assert a + b == a;
    } else {
      assert (a + b)[..|a + b| - 1] == a + b[..|b| - 1];
      ResolvedConcat(a, b[..|b| - 1]);
    }
  }

  lemma {:induction false} ProvenConcat(a: seq<Match>, b: seq<Match>)
    ensures ProvenCount(a + b) == ProvenCount(a) + ProvenCount(b)
  {
    if b == [] {
      assert a + b == a;
    } else {
      assert (a + b)[..|a + b| - 1] == a + b[..|b| - 1];
      ProvenConcat(a, b[..|b| - 1]);
    }
  }

  lemma {:induction false} SumPermutation(a: seq<Match>, b: seq<Match>, stat: Stat, c: Code)
    requires multiset(a) == multiset(b)
    ensures Sum(a, stat, c) == Sum(b, stat, c)
    decreases |a|
  {
    if a == [] {
      assert |b| == |multiset(b)| == 0;
    } else {
      var x := [a[|a| - 1]];
      var u, v := PickOut(a, b);
      SumPermutation(a[..|a| - 1], u + v, stat, c);
      SumConcat(u, v, stat, c);
      SumConcat(u, x + v, stat, c);
      SumConcat(x, v, stat, c);
    }
  }

  lemma {:induction false} WithinPermutation(a: seq<Match>, b: seq<Match>, codes: seq<Code>)
    requires multiset(a) == multiset(b)
    ensures |Within(a, codes)| == |Within(b, codes)|
    ensures ProvenCount(Within(a, codes)) == ProvenCount(Within(b, codes))
    decreases |a|
  {
    if a == [] {
      assert |b| == |multiset(b)| == 0;
    } else {
      var n := |a| - 1;
      var x := [a[n]];
      var u, v := PickOut(a, b);
      WithinPermutation(a[..n], u + v, codes);
      hide *;
      assert a == a[..n] + x + [] && a[..n] == a[..n] + [];
      assert b == u + x + v;
      TakenOut(a[..n], x, [], codes);
      TakenOut(u, x, v, codes);
    }
  }

  /** What the matches `x` in the middle add to the counts. */
  lemma TakenOut(u: seq<Match>, x: seq<Match>, v: seq<Match>, codes: seq<Code>)
    ensures |Within(u + x + v, codes)| == |Within(u + v, codes)| + |Within(x, codes)|
    ensures ProvenCount(Within(u + x + v, codes)) == ProvenCount(Within(u + v, codes)) + ProvenCount(Within(x, codes))
  {
    hide Within, ProvenCount;
    WithinConcat(u, v, codes);
    WithinConcat(u + x, v, codes);
    WithinConcat(u, x, codes);
    ProvenConcat(Within(u, codes), Within(v, codes));
    ProvenConcat(Within(u + x, codes), Within(v, codes));
    ProvenConcat(Within(u, codes), Within(x, codes));
  }

  lemma {:induction false} ResolvedPermutation(a: seq<Fixture>, b: seq<Fixture>)
    requires multiset(a) == multiset(b)
    ensures multiset(Resolved(a)) == multiset(Resolved(b))
    decreases |a|
  {
    if a == [] {
      assert |b| == |multiset(b)| == 0;
    } else {
      var n := |a| - 1;
      var x := [a[n]];
      var u, v := PickOut(a, b);
      ResolvedPermutation(a[..n], u + v);
      assert a == a[..n] + x;
      ResolvedConcat(a[..n], x);
      ResolvedConcat(u, v);
      ResolvedConcat(u, x + v);
      ResolvedConcat(x, v);
      MiddleMoves(Resolved(u), Resolved(x), Resolved(v));
      MiddleMoves(Resolved(a[..n]), Resolved(x), []);
      hide Resolved;
      assert Resolved(a[..n]) + [] == Resolved(a[..n]) && Resolved(x) + [] == Resolved(x);
    }
  }

  lemma SamePairings(a: seq<Match>, b: seq<Match>)
    requires SameMembers(a, b)
    ensures SameMembers(Pairings(a), Pairings(b))
  {
    forall p ensures p in Pairings(a) <==> p in Pairings(b) {
      if p in Pairings(a) {
        var k :| 0 <= k < |a| && Pairings(a)[k] == p;
        assert a[k] in b;
        var j :| 0 <= j < |b| && b[j] == a[k];
        assert Pairings(b)[j] == p;
      }
      if p in Pairings(b) {
        var k :| 0 <= k < |b| && Pairings(b)[k] == p;
        assert b[k] in a;
        var j :| 0 <= j < |a| && a[j] == b[k];
        assert Pairings(a)[j] == p;
      }
    }
  }

  lemma TableIsUnique(a: seq<Match>, b: seq<Match>, codes: seq<Code>, i: nat, g: Group, h: Group,
                      locale: (Code, Code) -> bool)
    requires multiset(a) == multiset(b) && IsClass(Pairings(a), codes) && OrdersCodes(Pairings(a), locale)
    requires IsTable(a, codes, i, g, locale) && IsTable(b, codes, i, h, locale)
    ensures g == h
  {
    WithinPermutation(a, b, codes);
    forall stat, c ensures Sum(a, stat, c) == Sum(b, stat, c) {
      SumPermutation(a, b, stat, c);
    }
    assert forall c :: RowOf(a, c) == RowOf(b, c);
    TableOrderIsStrict(Pairings(a), g.rows, locale);
    AscendingIsUnique(g.rows, h.rows, TableOrder(locale));
  }

  /** Listing the fixtures in another order gives the very same report. */
  lemma StandingsAreOrderFree(fs: seq<Fixture>, hs: seq<Fixture>, a: seq<Group>, b: seq<Group>,
                              locale: (Code, Code) -> bool)
    requires multiset(fs) == multiset(hs) && OrdersCodes(Pairings(Resolved(fs)), locale)
    requires IsStandings(Resolved(fs), a, locale) && IsStandings(Resolved(hs), b, locale)
    ensures a == b
  {
    var ms, ns := Resolved(fs), Resolved(hs);
    ResolvedPermutation(fs, hs);
    forall m ensures m in ms <==> m in ns {
      assert m in multiset(ms) <==> m in multiset(ns);
    }
    SamePairings(ms, ns);
    var u :| Partitions(Pairings(ms), u, locale) && TablesOf(ms, u, a, locale);
    var v :| Partitions(Pairings(ns), v, locale) && TablesOf(ns, v, b, locale);
    ComponentsAreOrderFree(Pairings(ms), Pairings(ns), u, v, locale);
    forall i | 0 <= i < |a| ensures a[i] == b[i] {
      TableIsUnique(ms, ns, u[i], i, a[i], b[i], locale);
    }
  }
}
