/**
 * When an honest multiproof is accepted, for any hash: iff the largest index has as many
 * bits as the tree has levels. The walk climbs one layer per bit of that index and then
 * stops, at the root or short of it.
 */
module MultiproofCompleteness {
  import opened Wrappers
  import opened Numbers
  import opened Merkle
  import opened Multiproof
  import opened OracleErrors

  // --- one level, walked along its parents ------------------------------------------

  ghost function Keys<D(!new)>(level: seq<Entry<D>>): set<nat> {
    set e | e in level :: e.idx
  }

  /** The members of `s` that lie under parent `q` or later. */
  ghost function From(s: set<nat>, q: nat): set<nat> {
    set i | i in s && i >= 2 * q
  }

  ghost function Halve(s: set<nat>): set<nat> {
    set i | i in s :: i / 2
  }

  /** `level` lists, in order, exactly the positions of `s` from parent `q` on. */
  ghost predicate Lists<D(!new)>(level: seq<Entry<D>>, s: set<nat>, q: nat) {
    StrictlyAscending(level) && Keys(level) == From(s, q)
  }

  lemma KeysOfTail<D(!new)>(level: seq<Entry<D>>, k: nat)
    requires StrictlyAscending(level) && k <= |level|
    ensures Keys(level[k..]) == set e | e in level && (k == 0 || e.idx > level[k - 1].idx) :: e.idx
    ensures StrictlyAscending(level[k..])
  {
    forall e | e in level && (k == 0 || e.idx > level[k - 1].idx) ensures e in level[k..] {
      var j :| 0 <= j < |level| && level[j] == e;
      assert j >= k;
      assert level[k..][j - k] == e;
    }
    forall e | e in level[k..] ensures e in level && (k == 0 || e.idx > level[k - 1].idx) {
      var j :| 0 <= j < |level| - k && level[k..][j] == e;
      assert level[k + j] == e;
    }
  }

  lemma KeyAt<D(!new)>(level: seq<Entry<D>>, s: set<nat>, q: nat, i: nat)
    requires Lists(level, s, q) && i in s && i >= 2 * q
    ensures exists k :: 0 <= k < |level| && level[k].idx == i
  {
    assert i in Keys(level);
    var e :| e in level && e.idx == i;
  }

  /** Moving from parent `q` to the next: none, one or both of its children are listed. */
  lemma StepParent<D(!new)>(level: seq<Entry<D>>, s: set<nat>, q: nat)
    requires Lists(level, s, q)
    ensures level == [] || level[0].idx >= 2 * q + 2 ==>
              2 * q !in s && 2 * q + 1 !in s && Lists(level, s, q + 1)
    ensures level != [] && level[0].idx < 2 * q + 2 && PairAhead(level) ==>
              level[0].idx == 2 * q && level[1].idx == 2 * q + 1
              && 2 * q in s && 2 * q + 1 in s && Lists(level[2..], s, q + 1)
    ensures level != [] && level[0].idx < 2 * q + 2 && !PairAhead(level) ==>
              level[0].idx / 2 == q && level[0].idx in s && Sibling(level[0].idx) !in s
              && Lists(level[1..], s, q + 1)
  {
    if level == [] || level[0].idx >= 2 * q + 2 {
      SkipParent(level, s, q);
    } else {
      assert level[0] in level;
      assert level[0].idx in Keys(level);
      if PairAhead(level) {
        assert level[1] in level;
        assert level[1].idx in Keys(level);
        KeysOfTail(level, 2);
        TailFrom(level, s, q, 2);
      } else {
        KeysOfTail(level, 1);
        LoneSibling(level, s, q);
        TailFrom(level, s, q, 1);
      }
    }
  }

  lemma SkipParent<D(!new)>(level: seq<Entry<D>>, s: set<nat>, q: nat)
    requires Lists(level, s, q) && (level == [] || level[0].idx >= 2 * q + 2)
    ensures 2 * q !in s && 2 * q + 1 !in s && Lists(level, s, q + 1)
  {
    forall i | i in s && i >= 2 * q ensures i >= 2 * q + 2 {
      KeyAt(level, s, q, i);
    }
    assert From(s, q) == From(s, q + 1);
  }

  lemma LoneSibling<D(!new)>(level: seq<Entry<D>>, s: set<nat>, q: nat)
    requires Lists(level, s, q) && level != [] && level[0].idx / 2 == q && !PairAhead(level)
    ensures Sibling(level[0].idx) !in s
  {
    if Sibling(level[0].idx) in s && Sibling(level[0].idx) >= 2 * q {
      KeyAt(level, s, q, Sibling(level[0].idx));
    }
  }

  lemma TailFrom<D(!new)>(level: seq<Entry<D>>, s: set<nat>, q: nat, k: nat)
    requires Lists(level, s, q) && 0 < k <= |level|
    requires forall j :: 0 <= j < k ==> level[j].idx < 2 * q + 2
    requires forall i :: i in s && 2 * q <= i < 2 * q + 2 ==> i <= level[k - 1].idx
    ensures Lists(level[k..], s, q + 1)
  {
    KeysOfTail(level, k);
    forall i | i in From(s, q + 1) ensures i in Keys(level[k..]) {
      KeyAt(level, s, q, i);
    }
    forall i | i in Keys(level[k..]) ensures i in From(s, q + 1) {
      assert i in Keys(level);
    }
  }

  // --- honest multiproofs ---------------------------------------------------------------

  /** Hashes missing at one level, in index order: parents with exactly one known child. */
  ghost function Missing<D>(layer: seq<D>, s: set<nat>, q: nat): seq<D>
    decreases |layer| - q
  {
    if 2 * q + 1 >= |layer| then []
    else if 2 * q in s && 2 * q + 1 !in s then [layer[2 * q + 1]] + Missing(layer, s, q + 1)
    else if 2 * q !in s && 2 * q + 1 in s then [layer[2 * q]] + Missing(layer, s, q + 1)
    else Missing(layer, s, q + 1)
  }

  /** What an honest prover supplies for the positions `s` of a perfect tree. */
  ghost function HonestFeed<D>(node: (D, D) -> D, layer: seq<D>, s: set<nat>, d: nat): seq<D>
    requires Perfect(layer, d)
    decreases d
  {
    if d == 0 then []
    else Missing(layer, s, 0) + HonestFeed(node, Up(node, layer), Halve(s), d - 1)
  }

  /** Every entry carries the tree's own hash for its index. */
  predicate Matches<D(==)>(level: seq<Entry<D>>, layer: seq<D>) {
    forall k :: 0 <= k < |level| ==> level[k].idx < |layer| && level[k].hash == layer[level[k].idx]
  }

  /** A round over `level` succeeds, leaves `rest`, and lands on the layer `up`. */
  predicate Lands<D(==)>(node: (D, D) -> D, level: seq<Entry<D>>, feed: seq<D>, up: seq<D>, rest: seq<D>) {
    var r := Climb(node, level, feed);
    r.Round? && r.rest == rest && Matches(r.next, up)
  }

  lemma LandPair<D>(node: (D, D) -> D, level: seq<Entry<D>>, layer: seq<D>, feed: seq<D>, rest: seq<D>)
    requires |layer| % 2 == 0 && Matches(level, layer) && PairAhead(level)
    requires Lands(node, level[2..], feed, Up(node, layer), rest)
    ensures Lands(node, level, feed, Up(node, layer), rest)
  {
    ParentMatches(node, level[0], level[1].hash, layer);
    MatchesCons(ParentEntry(node, level[0], level[1].hash), Climb(node, level[2..], feed).next, Up(node, layer));
  }

  lemma LandLone<D>(node: (D, D) -> D, level: seq<Entry<D>>, layer: seq<D>, feed: seq<D>, rest: seq<D>)
    requires |layer| % 2 == 0 && Matches(level, layer) && level != [] && !PairAhead(level)
    requires Sibling(level[0].idx) < |layer|
    requires Lands(node, level[1..], feed, Up(node, layer), rest)
    ensures Lands(node, level, [layer[Sibling(level[0].idx)]] + feed, Up(node, layer), rest)
  {
    var sib := layer[Sibling(level[0].idx)];
    assert ([sib] + feed)[1..] == feed;
    ParentMatches(node, level[0], sib, layer);
    MatchesCons(ParentEntry(node, level[0], sib), Climb(node, level[1..], feed).next, Up(node, layer));
  }

  lemma LandNone<D(!new)>(node: (D, D) -> D, layer: seq<D>, s: set<nat>, q: nat, rest: seq<D>)
    requires Keys<D>([]) == From(s, q)
    ensures Lands(node, [], Missing(layer, s, q) + rest, Up(node, layer), rest)
  {
    forall i | i in s ensures i < 2 * q {
      assert i in From(s, q) || i < 2 * q;
    }
    NothingMissing(layer, s, q);
    assert [] + rest == rest;
  }

  /** What one parent contributes to the missing hashes. */
  lemma MissingStep<D>(layer: seq<D>, s: set<nat>, q: nat, rest: seq<D>)
    requires 2 * q + 1 < |layer|
    ensures (2 * q in s <==> 2 * q + 1 in s) ==> Missing(layer, s, q) == Missing(layer, s, q + 1)
    ensures forall i :: i in s && i / 2 == q && Sibling(i) !in s ==>
              Missing(layer, s, q) + rest == [layer[Sibling(i)]] + (Missing(layer, s, q + 1) + rest)
  {
  }

  lemma {:induction false} ClimbHonest<D(!new)>(node: (D, D) -> D, level: seq<Entry<D>>, layer: seq<D>,
                                                s: set<nat>, q: nat, rest: seq<D>)
    requires |layer| % 2 == 0 && Matches(level, layer) && Lists(level, s, q)
    ensures Lands(node, level, Missing(layer, s, q) + rest, Up(node, layer), rest)
    decreases |layer| - q
  {
    if level == [] {
      LandNone(node, layer, s, q, rest);
    } else {
      StepParent(level, s, q);
      MissingStep(layer, s, q, rest);
      if level[0].idx >= 2 * q + 2 {
        ClimbHonest(node, level, layer, s, q + 1, rest);
      } else if PairAhead(level) {
        ClimbHonest(node, level[2..], layer, s, q + 1, rest);
        LandPair(node, level, layer, Missing(layer, s, q + 1) + rest, rest);
      } else {
        ClimbHonest(node, level[1..], layer, s, q + 1, rest);
        LandLone(node, level, layer, Missing(layer, s, q + 1) + rest, rest);
      }
    }
  }

  lemma ParentMatches<D>(node: (D, D) -> D, e: Entry<D>, sib: D, layer: seq<D>)
    requires |layer| % 2 == 0 && e.idx < |layer| && Sibling(e.idx) < |layer|
    requires e.hash == layer[e.idx] && sib == layer[Sibling(e.idx)]
    ensures var p := ParentEntry(node, e, sib);
            p.idx < |Up(node, layer)| && p.hash == Up(node, layer)[p.idx]
  {
    assert e.idx == 2 * (e.idx / 2) || e.idx == 2 * (e.idx / 2) + 1;
  }

  lemma MatchesCons<D>(e: Entry<D>, s: seq<Entry<D>>, layer: seq<D>)
    requires e.idx < |layer| && e.hash == layer[e.idx] && Matches(s, layer)
    ensures Matches([e] + s, layer)
  {
  }

  lemma {:induction false} NothingMissing<D>(layer: seq<D>, s: set<nat>, q: nat)
    requires forall i :: i in s ==> i < 2 * q
    ensures Missing(layer, s, q) == []
    decreases |layer| - q
  {
    if 2 * q + 1 < |layer| {
      NothingMissing(layer, s, q + 1);
    }
  }

  /** The indices of the next level are exactly the halves of this one's. */
  lemma {:induction false} ClimbKeys<D(!new)>(node: (D, D) -> D, level: seq<Entry<D>>, feed: seq<D>)
    requires Climb(node, level, feed).Round?
    ensures Keys(Climb(node, level, feed).next) == Halve(Keys(level))
    decreases |level|
  {
    if level == [] {
    } else if PairAhead(level) {
      var tail := Climb(node, level[2..], feed).next;
      ClimbKeys(node, level[2..], feed);
      KeysCons(ParentEntry(node, level[0], level[1].hash), tail);
      assert level == [level[0]] + ([level[1]] + level[2..]);
      KeysCons(level[0], [level[1]] + level[2..]);
      KeysCons(level[1], level[2..]);
      HalveUnion(level[0].idx, {level[1].idx} + Keys(level[2..]));
      HalveUnion(level[1].idx, Keys(level[2..]));
      if level[0].idx % 2 == 0 {
        assert level[1].idx / 2 == level[0].idx / 2;
      }
    } else {
      var tail := Climb(node, level[1..], feed[1..]).next;
      ClimbKeys(node, level[1..], feed[1..]);
      KeysCons(ParentEntry(node, level[0], feed[0]), tail);
      assert level == [level[0]] + level[1..];
      KeysCons(level[0], level[1..]);
      HalveUnion(level[0].idx, Keys(level[1..]));
    }
  }

  lemma KeysCons<D(!new)>(e: Entry<D>, s: seq<Entry<D>>)
    ensures Keys([e] + s) == {e.idx} + Keys(s)
  {
    var t := [e] + s;
    assert e in t;
    assert forall f :: f in s ==> f in t;
    assert forall f :: f in t ==> f == e || f in s;
  }

  lemma HalveUnion(i: nat, s: set<nat>)
    ensures Halve({i} + s) == {i / 2} + Halve(s)
  {
    assert i in {i} + s;
    assert forall j :: j in s ==> j in {i} + s;
  }

  // --- completeness -----------------------------------------------------------------------

  lemma KeysOfSorted<D(!new)>(entries: seq<Entry<D>>)
    ensures Keys(SortByIdx(entries)) == Keys(entries)
  {
    SortKeepsMembers(entries);
  }

  function MaxIdx<D>(entries: seq<Entry<D>>): nat
    requires entries != []
  {
    if |entries| == 1 then entries[0].idx
    else
      var m := MaxIdx(entries[1..]);
      if entries[0].idx >= m then entries[0].idx else m
  }

  lemma {:induction false} MaxIdxIsMax<D(!new)>(entries: seq<Entry<D>>)
    requires entries != []
    ensures MaxIdx(entries) in Keys(entries)
    ensures forall i :: i in Keys(entries) ==> i <= MaxIdx(entries)
  {
    assert entries == [entries[0]] + entries[1..];
    KeysCons(entries[0], entries[1..]);
    if |entries| > 1 {
      MaxIdxIsMax(entries[1..]);
    }
  }

  lemma TopOfSorted<D(!new)>(entries: seq<Entry<D>>)
    requires entries != []
    ensures SortByIdx(entries) != [] && TopIdx(SortByIdx(entries)) == MaxIdx(entries)
  {
    SortAscends(entries);
    KeysOfSorted(entries);
    MaxIdxIsMax(entries);
    var level := SortByIdx(entries);
    assert level[|level| - 1] in level;
    assert TopIdx(level) in Keys(level);
    var e :| e in level && e.idx == MaxIdx(entries);
    var k :| 0 <= k < |level| && level[k] == e;
  }

  lemma OnlyZero<D(!new)>(level: seq<Entry<D>>)
    requires level != [] && StrictlyAscending(level) && TopIdx(level) == 0
    ensures |level| == 1 && level[0].idx == 0 && Keys(level) == {0}
  {
    assert level == [level[0]];
  }

  /** One round over an honest feed: on to the layer above, with its honest feed left. */
  lemma HonestRound<D(!new)>(node: (D, D) -> D, level: seq<Entry<D>>, layer: seq<D>, d: nat, rest: seq<D>)
    requires level != [] && StrictlyAscending(level) && d > 0
    requires Perfect(layer, d) && Matches(level, layer)
    ensures var r := Climb(node, level, HonestFeed(node, layer, Keys(level), d) + rest);
            && r.Round? && Matches(r.next, Up(node, layer))
            && r.rest == HonestFeed(node, Up(node, layer), Keys(r.next), d - 1) + rest
  {
    var s := Keys(level);
    assert From(s, 0) == s;
    var above := HonestFeed(node, Up(node, layer), Halve(s), d - 1) + rest;
    assert HonestFeed(node, layer, s, d) + rest == Missing(layer, s, 0) + above;
    ClimbHonest(node, level, layer, s, 0, above);
    ClimbKeys(node, level, Missing(layer, s, 0) + above);
  }

  /** Unfolds one round of the walk, with the shape of the level it reaches. */
  lemma WalkStep<D(!new)>(node: (D, D) -> D, level: seq<Entry<D>>, feed: seq<D>)
    requires level != [] && StrictlyAscending(level) && TopIdx(level) > 0
    requires Climb(node, level, feed).Round?
    ensures var r := Climb(node, level, feed);
            && r.next != [] && StrictlyAscending(r.next)
            && TopIdx(r.next) == TopIdx(level) / 2
            && BitLength(TopIdx(level)) == 1 + BitLength(TopIdx(r.next))
            && Walk(node, level, feed) == Walk(node, r.next, r.rest)
  {
    ClimbShape(node, level, feed);
  }

  /** What the walk returns on the honest feed of `layer`: `b` layers up, the rest unread. */
  ghost function HonestEnd<D>(node: (D, D) -> D, layer: seq<D>, d: nat, b: nat, rest: seq<D>): Option<(D, seq<D>)>
    requires Perfect(layer, d) && b <= d
  {
    var top := Above(node, layer, d, b);
    Some((top[0], HonestFeed(node, top, {0}, d - b) + rest))
  }

  lemma HonestEndAbove<D>(node: (D, D) -> D, layer: seq<D>, d: nat, b: nat, rest: seq<D>)
    requires Perfect(layer, d) && b < d
    ensures HonestEnd(node, layer, d, b + 1, rest) == HonestEnd(node, Up(node, layer), d - 1, b, rest)
  {
    assert d - (b + 1) == (d - 1) - b;
  }

  /** The walk over an honest feed climbs one layer per bit of the largest index. */
  lemma {:induction false} WalkHonest<D(!new)>(node: (D, D) -> D, level: seq<Entry<D>>, layer: seq<D>, d: nat,
                                               rest: seq<D>)
    requires level != [] && StrictlyAscending(level)
    requires Perfect(layer, d) && Matches(level, layer) && BitLength(TopIdx(level)) <= d
    ensures Walk(node, level, HonestFeed(node, layer, Keys(level), d) + rest)
            == HonestEnd(node, layer, d, BitLength(TopIdx(level)), rest)
    decreases d
  {
    hide HonestFeed, Perfect, BitLength, Up, Climb;
    BitLengthZero(TopIdx(level));
    if TopIdx(level) == 0 {
      OnlyZero(level);
    } else {
      var feed := HonestFeed(node, layer, Keys(level), d) + rest;
      HonestRound(node, level, layer, d, rest);
      WalkStep(node, level, feed);
      var next := Climb(node, level, feed).next;
      UpIsPerfect(node, layer, d);
      WalkHonest(node, next, Up(node, layer), d - 1, rest);
      HonestEndAbove(node, layer, d, BitLength(TopIdx(next)), rest);
    }
  }

  lemma LoneRootNeedsMore<D>(node: (D, D) -> D, layer: seq<D>, d: nat)
    requires Perfect(layer, d)
    ensures HonestFeed(node, layer, {0}, d) == [] <==> d == 0
  {
    if d > 0 {
      assert 0 in {0} && 1 !in {0};
      assert |Missing(layer, {0}, 0)| > 0;
    }
  }

  /** Sorting keeps an honest, distinct list of entries honest. */
  lemma SortedMatches<D(!new)>(entries: seq<Entry<D>>, layer: seq<D>)
    requires entries != [] && DistinctKeys(entries) && Matches(entries, layer)
    ensures var level := SortByIdx(entries);
            && level != [] && StrictlyAscending(level) && Matches(level, layer)
            && Keys(level) == Keys(entries) && TopIdx(level) == MaxIdx(entries)
  {
    SortKeepsKeys(entries);
    SortKeepsMembers(entries);
    KeysOfSorted(entries);
    TopOfSorted(entries);
    var level := SortByIdx(entries);
    forall k | 0 <= k < |level| ensures level[k].idx < |layer| && level[k].hash == layer[level[k].idx] {
      assert level[k] in level && level[k] in entries;
    }
  }

  lemma VerdictIsWalk<D(!new)>(node: (D, D) -> D, entries: seq<Entry<D>>, feed: seq<D>, root: D)
    requires entries != [] && DistinctKeys(entries)
    ensures SortByIdx(entries) != [] && StrictlyAscending(SortByIdx(entries))
    ensures Verdict(node, entries, feed, root).Ok? <==> Walk(node, SortByIdx(entries), feed) == Some((root, []))
  {
    SortKeepsKeys(entries);
    SortAscends(entries);
  }

  lemma HonestEndIsRoot<D>(node: (D, D) -> D, layer: seq<D>, d: nat, b: nat)
    requires Perfect(layer, d) && b <= d
    ensures HonestEnd(node, layer, d, b, []) == Some((Root(node, layer, d), [])) <==> b == d
  {
    hide BitLength, Up;
    var top := Above(node, layer, d, b);
    LoneRootNeedsMore(node, top, d - b);
    AboveKeepsRoot(node, layer, d, b);
    assert HonestFeed(node, top, {0}, d - b) + [] == HonestFeed(node, top, {0}, d - b);
  }

  /**
   * Completeness, for any hash: the honest multiproof of a non-empty set of
   * distinct positions is accepted exactly when the largest position has as many
   * bits as the tree has levels. With fewer, the walk stops below the root.
   */
  lemma HonestAcceptedIffFullDepth<D(!new)>(node: (D, D) -> D, layer: seq<D>, d: nat, entries: seq<Entry<D>>)
    requires Perfect(layer, d) && entries != [] && DistinctKeys(entries) && Matches(entries, layer)
    ensures Verdict(node, entries, HonestFeed(node, layer, Keys(entries), d), Root(node, layer, d)).Ok?
            <==> BitLength(MaxIdx(entries)) == d
  {
    var level := SortByIdx(entries);
    SortedMatches(entries, layer);
    assert TopIdx(level) < Pow2(d);
    hide HonestFeed, BitLength, Up, Climb, Walk, HonestEnd, Verdict;
    BitLengthIsLeast(TopIdx(level), d);
    WalkHonest(node, level, layer, d, []);
    HonestEndIsRoot(node, layer, d, BitLength(TopIdx(level)));
    var feed := HonestFeed(node, layer, Keys(entries), d);
    assert feed + [] == feed;
    VerdictIsWalk(node, entries, feed, Root(node, layer, d));
  }

  /** A lone index 0 does no hashing, so its honest proof in a two-leaf tree is refused. */
  lemma LoneZeroIsRefused<D(!new)>(node: (D, D) -> D, left: D, right: D)
    ensures var entries := [Entry(0, left)];
            && HonestFeed(node, [left, right], Keys(entries), 1) == [right]
            && Verdict(node, entries, [right], Root(node, [left, right], 1)) == Err(StatProofMismatch)
  {
    var entries := [Entry(0, left)];
    var layer := [left, right];
    assert entries[0] in entries;
    assert Keys(entries) == {0};
    assert Perfect(layer, 1) by { assert Pow2(1) == 2 * Pow2(0); }
    assert Missing(layer, {0}, 0) == [right] + Missing(layer, {0}, 1);
    HonestAcceptedIffFullDepth(node, layer, 1, entries);
  }
}
