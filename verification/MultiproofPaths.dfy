/**
 * The shared multiproof refines the plain per-leaf sibling path, for any hash; and
 * what it consumes, and whether it is accepted, does not depend on how the
 * (index, leaf) pairs are ordered.
 */
module MultiproofPaths {
  import opened Wrappers
  import opened Numbers
  import opened Merkle
  import opened Multiproof
  import opened MultiproofCompleteness

  /** The directions of `path` are the bits of `idx`, lowest first, and exhaust it. */
  predicate Follows<D>(path: seq<ProofNode<D>>, idx: nat) {
    if path == [] then idx == 0
    else path[0].isRightSibling == (idx % 2 == 0) && Follows(path[1..], idx / 2)
  }

  /** One round gives every entry a parent, hashed with some sibling of it. */
  lemma {:induction false} ParentInNext<D>(node: (D, D) -> D, level: seq<Entry<D>>, feed: seq<D>, k: nat)
    requires StrictlyAscending(level) && k < |level| && Climb(node, level, feed).Round?
    ensures exists m, sib :: 0 <= m < |Climb(node, level, feed).next|
                             && Climb(node, level, feed).next[m] == ParentEntry(node, level[k], sib)
    decreases |level|
  {
    var next := Climb(node, level, feed).next;
    var step := if PairAhead(level) then 2 else 1;
    var feed' := if step == 2 then feed else feed[1..];
    if k >= step {
      ParentInNext(node, level[step..], feed', k - step);
      var tail := Climb(node, level[step..], feed').next;
      var m, sib :| 0 <= m < |tail| && tail[m] == ParentEntry(node, level[step..][k - step], sib);
      assert next[m + 1] == ParentEntry(node, level[k], sib);
    } else if k == 0 {
      var sib := if step == 2 then level[1].hash else feed[0];
      assert next[0] == ParentEntry(node, level[0], sib);
    } else {
      assert level[0].idx % 2 == 0;
      assert next[0] == ParentEntry(node, level[1], level[0].hash);
    }
  }

  lemma {:induction false} WalkPath<D>(node: (D, D) -> D, level: seq<Entry<D>>, feed: seq<D>, k: nat)
    returns (path: seq<ProofNode<D>>)
    requires level != [] && StrictlyAscending(level) && k < |level|
    requires Walk(node, level, feed).Some?
    ensures |path| == BitLength(TopIdx(level)) && Follows(path, level[k].idx)
    ensures Fold(node, level[k].hash, path) == Walk(node, level, feed).value.0
    decreases TopIdx(level)
  {
    if TopIdx(level) == 0 {
      path := [];
    } else {
      ClimbShape(node, level, feed);
      ParentInNext(node, level, feed, k);
      var next, rest := Climb(node, level, feed).next, Climb(node, level, feed).rest;
      var m, sib :| 0 <= m < |next| && next[m] == ParentEntry(node, level[k], sib);
      var above := WalkPath(node, next, rest, m);
      path := [ProofNode(sib, level[k].idx % 2 == 0)] + above;
      assert path[1..] == above;
    }
  }

  /**
   * Whenever the multiproof is accepted, each leaf has a plain sibling path, with
   * directions given by the bits of its index, that folds to the same root.
   */
  lemma AcceptedLeafHasPath<D(!new)>(node: (D, D) -> D, entries: seq<Entry<D>>, feed: seq<D>, root: D, e: Entry<D>)
    requires Verdict(node, entries, feed, root).Ok? && e in entries
    ensures exists path :: |path| == BitLength(MaxIdx(entries)) && Follows(path, e.idx)
                           && Fold(node, e.hash, path) == root
  {
    VerdictIsWalk(node, entries, feed, root);
    SortKeepsMembers(entries);
    TopOfSorted(entries);
    var level := SortByIdx(entries);
    var k :| 0 <= k < |level| && level[k] == e;
    var path := WalkPath(node, level, feed, k);
  }

  // --- what is consumed -----------------------------------------------------------------

  /** Parents with exactly one known child. */
  ghost function Lonely(s: set<nat>): set<nat> {
    set i | i in s && Sibling(i) !in s :: i / 2
  }

  /** Hashes consumed in `rounds` rounds from the positions `s`. */
  ghost function Consumed(s: set<nat>, rounds: nat): nat
    decreases rounds
  {
    if rounds == 0 then 0 else |Lonely(s)| + Consumed(Halve(s), rounds - 1)
  }

  /** Consumption of one round, over the parents from `q` on. */
  ghost function LonelyFrom(s: set<nat>, q: nat): set<nat> {
    set p | p in Lonely(s) && p >= q
  }

  lemma LonelyStep(s: set<nat>, q: nat)
    ensures (2 * q in s <==> 2 * q + 1 in s) ==> LonelyFrom(s, q) == LonelyFrom(s, q + 1)
    ensures (2 * q in s <==> 2 * q + 1 !in s) ==> LonelyFrom(s, q) == {q} + LonelyFrom(s, q + 1)
  {
    assert Sibling(2 * q) == 2 * q + 1 && Sibling(2 * q + 1) == 2 * q;
    if q in Lonely(s) {
      var i :| i in s && Sibling(i) !in s && i / 2 == q;
      assert i == 2 * q || i == 2 * q + 1;
    }
    if 2 * q in s && 2 * q + 1 !in s {
      assert (2 * q) / 2 in Lonely(s);
    }
    if 2 * q !in s && 2 * q + 1 in s {
      assert (2 * q + 1) / 2 in Lonely(s);
    }
  }

  lemma {:induction false} ClimbConsumes<D(!new)>(node: (D, D) -> D, level: seq<Entry<D>>, s: set<nat>, q: nat,
                                                  feed: seq<D>)
    requires Lists(level, s, q)
    ensures Climb(node, level, feed).Round? <==> |LonelyFrom(s, q)| <= |feed|
    ensures Climb(node, level, feed).Round? ==> Climb(node, level, feed).rest == feed[|LonelyFrom(s, q)|..]
    decreases |level|, if level == [] then 0 else level[0].idx - q
  {
    if level == [] {
      NoneLonely(level, s, q);
    } else {
      assert level[0] in level;
      assert level[0].idx in Keys(level);
      StepParent(level, s, q);
      LonelyStep(s, q);
      if level[0].idx >= 2 * q + 2 {
        ClimbConsumes(node, level, s, q + 1, feed);
      } else if PairAhead(level) {
        ClimbConsumes(node, level[2..], s, q + 1, feed);
      } else if feed != [] {
        ClimbConsumes(node, level[1..], s, q + 1, feed[1..]);
        assert q !in LonelyFrom(s, q + 1);
      } else {
        assert q in LonelyFrom(s, q);
      }
    }
  }

  lemma NoneLonely<D(!new)>(level: seq<Entry<D>>, s: set<nat>, q: nat)
    requires level == [] && Lists(level, s, q)
    ensures LonelyFrom(s, q) == {}
  {
    forall p | p in LonelyFrom(s, q) ensures false {
      var i :| i in s && Sibling(i) !in s && i / 2 == p;
      KeyAt(level, s, q, i);
    }
  }

  /** One round, counted against the whole level's positions. */
  lemma RoundConsumes<D(!new)>(node: (D, D) -> D, level: seq<Entry<D>>, feed: seq<D>)
    requires level != [] && StrictlyAscending(level)
    ensures var n := |Lonely(Keys(level))|;
            && (Climb(node, level, feed).Round? <==> n <= |feed|)
            && (n <= |feed| ==> Climb(node, level, feed).rest == feed[n..]
                                && Keys(Climb(node, level, feed).next) == Halve(Keys(level)))
  {
    var s := Keys(level);
    assert From(s, 0) == s;
    assert LonelyFrom(s, 0) == Lonely(s);
    ClimbConsumes(node, level, s, 0, feed);
    if Climb(node, level, feed).Round? {
      ClimbKeys(node, level, feed);
    }
  }

  lemma {:induction false} WalkConsumes<D(!new)>(node: (D, D) -> D, level: seq<Entry<D>>, feed: seq<D>)
    requires level != [] && StrictlyAscending(level)
    ensures var n := Consumed(Keys(level), BitLength(TopIdx(level)));
            && (Walk(node, level, feed).Some? <==> n <= |feed|)
            && (n <= |feed| ==> Walk(node, level, feed).value.1 == feed[n..])
    decreases TopIdx(level)
  {
    hide BitLength, Climb, Lonely, Keys, Halve, StrictlyAscending;
    BitLengthZero(TopIdx(level));
    if TopIdx(level) > 0 {
      RoundConsumes(node, level, feed);
      var lone := |Lonely(Keys(level))|;
      if Climb(node, level, feed).Round? {
        WalkStep(node, level, feed);
        var next, rest := Climb(node, level, feed).next, Climb(node, level, feed).rest;
        WalkConsumes(node, next, rest);
        var above := Consumed(Keys(next), BitLength(TopIdx(next)));
        if above <= |rest| {
          assert rest[above..] == feed[lone + above..];
        }
      } else {
        ShortWalk(node, level, feed);
      }
    }
  }

  lemma ShortWalk<D>(node: (D, D) -> D, level: seq<Entry<D>>, feed: seq<D>)
    requires level != [] && StrictlyAscending(level) && TopIdx(level) > 0 && Climb(node, level, feed).Short?
    ensures Walk(node, level, feed).None?
  {
  }

  /** How many hashes an accepted multiproof carries depends on its index set alone. */
  lemma AcceptedLength<D(!new)>(node: (D, D) -> D, entries: seq<Entry<D>>, feed: seq<D>, root: D)
    requires Verdict(node, entries, feed, root).Ok?
    ensures |feed| == Consumed(Keys(entries), BitLength(MaxIdx(entries)))
  {
    VerdictIsWalk(node, entries, feed, root);
    KeysOfSorted(entries);
    TopOfSorted(entries);
    WalkConsumes(node, SortByIdx(entries), feed);
  }

  /** The order of the (index, leaf) pairs is irrelevant, errors included. */
  lemma VerdictOfPermutation<D(!new)>(node: (D, D) -> D, a: seq<Entry<D>>, b: seq<Entry<D>>, feed: seq<D>, root: D)
    requires multiset(a) == multiset(b)
    ensures Verdict(node, a, feed, root) == Verdict(node, b, feed, root)
  {
    assert |a| == |multiset(a)| == |multiset(b)| == |b|;
    DistinctIsKeysOnce(a);
    DistinctIsKeysOnce(b);
    SortAscends(a);
    SortAscends(b);
    if DistinctKeys(a) {
      SortKeepsKeys(a);
      SortKeepsKeys(b);
      StrictIsUnique(SortByIdx(a), SortByIdx(b));
    }
  }
}
