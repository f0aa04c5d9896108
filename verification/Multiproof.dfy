/**
 * `verify_multiproof`: several leaves authenticated together under one root.
 *
 * `Climb` is one round of the walk and `Walk` all of them, as recursive functions
 * over the known nodes of a level and the hashes not yet consumed. The method
 * below is the imperative walk; it is proved equal to them.
 */
module Multiproof {
  import opened Wrappers
  import opened Numbers
  import opened Merkle
  import opened OracleErrors
  import opened Sorting

  /** A known node of the current level: its index there and its hash. */
  datatype Entry<D> = Entry(idx: nat, hash: D)

  /** `idx ^ 1`. */
  function Sibling(idx: nat): nat {
    if idx % 2 == 0 then idx + 1 else idx - 1
  }

  function ParentEntry<D>(node: (D, D) -> D, e: Entry<D>, sibling: D): Entry<D> {
    Entry(e.idx / 2, if e.idx % 2 == 0 then node(e.hash, sibling) else node(sibling, e.hash))
  }

  // --- sorting by index ---------------------------------------------------------

  predicate Ascending<D>(s: seq<Entry<D>>) {
    forall i, j :: 0 <= i < j < |s| ==> s[i].idx <= s[j].idx
  }

  predicate StrictlyAscending<D>(s: seq<Entry<D>>) {
    forall i, j :: 0 <= i < j < |s| ==> s[i].idx < s[j].idx
  }

  function ByIdx<D>(): (Entry<D>, Entry<D>) -> bool {
    (e: Entry<D>, f: Entry<D>) => e.idx < f.idx
  }

  /** `sort_by_key(|(i, _)| *i)`: the stable sort by index. */
  function SortByIdx<D>(s: seq<Entry<D>>): seq<Entry<D>> {
    Sort(s, ByIdx())
  }

  /** `dedup_by_key(|(i, _)| *i)`: of a run of equal indices only the first is kept. */
  function DedupByIdx<D>(s: seq<Entry<D>>): seq<Entry<D>>
    decreases |s|
  {
    if |s| < 2 then s
    else if s[0].idx == s[1].idx then DedupByIdx([s[0]] + s[2..])
    else [s[0]] + DedupByIdx(s[1..])
  }

  lemma {:induction false} InsertKeepsAscending<D>(e: Entry<D>, s: seq<Entry<D>>)
    requires Ascending(s)
    ensures Ascending(Insert(e, s, ByIdx()))
    ensures var first := Insert(e, s, ByIdx())[0].idx;
            first == e.idx || (s != [] && first == s[0].idx)
  {
    if s != [] && e.idx > s[0].idx {
      InsertKeepsAscending(e, s[1..]);
      var r := Insert(e, s[1..], ByIdx());
      assert s[0].idx <= r[0].idx;
      assert Insert(e, s, ByIdx()) == [s[0]] + r;
    }
  }

  lemma {:induction false} SortAscends<D>(s: seq<Entry<D>>)
    ensures Ascending(SortByIdx(s))
    ensures multiset(SortByIdx(s)) == multiset(s)
    ensures |SortByIdx(s)| == |s|
  {
    SortMembers(s, ByIdx());
    if s != [] {
      SortAscends(s[1..]);
      InsertKeepsAscending(s[0], SortByIdx(s[1..]));
    }
  }

  lemma {:induction false} SortOfSorted<D>(s: seq<Entry<D>>)
    requires Ascending(s)
    ensures SortByIdx(s) == s
  {
    if s == [] {
    } else {
      SortOfSorted(s[1..]);
      assert s == [s[0]] + s[1..];
    }
  }

  lemma {:induction false} DedupOfStrict<D>(s: seq<Entry<D>>)
    requires StrictlyAscending(s)
    ensures DedupByIdx(s) == s
  {
    if |s| >= 2 {
      DedupOfStrict(s[1..]);
      assert s == [s[0]] + s[1..];
    }
  }

  /** An element is kept exactly if the one before it has another index. */
  lemma {:induction false} DedupSnoc<D>(s: seq<Entry<D>>, e: Entry<D>)
    ensures DedupByIdx<D>([]) == []
    ensures DedupByIdx(s + [e])
            == if s != [] && s[|s| - 1].idx == e.idx then DedupByIdx(s) else DedupByIdx(s) + [e]
    decreases |s|
  {
    var t := s + [e];
    if |s| >= 2 {
      var rest := if s[0].idx == s[1].idx then [s[0]] + s[2..] else s[1..];
      DedupSnoc(rest, e);
      assert (if s[0].idx == s[1].idx then [t[0]] + t[2..] else t[1..]) == rest + [e];
      assert rest[|rest| - 1].idx == s[|s| - 1].idx;
    } else if |s| == 1 {
      assert [t[0]] + t[2..] == s && t[1..] == [e];
    } else {
      assert t == [e];
    }
  }

  // --- the walk -------------------------------------------------------------------

  /** Outcome of one round: the supplied hashes ran out, or the level above. */
  datatype Round<D> = Short | Round(next: seq<Entry<D>>, rest: seq<D>)

  function Prepend<D>(done: seq<Entry<D>>, r: Round<D>): Round<D> {
    match r
    case Short => Short
    case Round(next, rest) => Round(done + next, rest)
  }

  lemma PrependTwice<D>(a: seq<Entry<D>>, b: seq<Entry<D>>, r: Round<D>)
    ensures Prepend(a, Prepend(b, r)) == Prepend(a + b, r)
  {
    if r.Round? {
      assert a + (b + r.next) == (a + b) + r.next;
    }
  }

  predicate PairAhead<D>(level: seq<Entry<D>>) {
    |level| > 1 && level[1].idx == Sibling(level[0].idx)
  }

  function Climb<D>(node: (D, D) -> D, level: seq<Entry<D>>, feed: seq<D>): Round<D>
    decreases |level|
  {
    if level == [] then Round([], feed)
    else if PairAhead(level) then
      Prepend([ParentEntry(node, level[0], level[1].hash)], Climb(node, level[2..], feed))
    else if feed == [] then Short
    else Prepend([ParentEntry(node, level[0], feed[0])], Climb(node, level[1..], feed[1..]))
  }

  /** Largest index of a level, which drives the number of rounds. */
  function TopIdx<D>(level: seq<Entry<D>>): nat
    requires level != []
  {
    level[|level| - 1].idx
  }

  lemma ConsAscends<D>(e: Entry<D>, s: seq<Entry<D>>)
    requires StrictlyAscending(s)
    ensures s == [] || e.idx < s[0].idx ==> StrictlyAscending([e] + s)
    ensures s != [] ==> TopIdx([e] + s) == TopIdx(s)
  {
  }

  lemma {:induction false} ClimbShape<D>(node: (D, D) -> D, level: seq<Entry<D>>, feed: seq<D>)
    requires StrictlyAscending(level)
    requires Climb(node, level, feed).Round?
    ensures var next := Climb(node, level, feed).next;
            && StrictlyAscending(next)
            && (level != [] ==> next != [] && next[0].idx == level[0].idx / 2 && TopIdx(next) == TopIdx(level) / 2)
            && (level == [] ==> next == [])
    decreases |level|
  {
    if level == [] {
    } else {
      var k := if PairAhead(level) then 2 else 1;
      var feed' := if k == 2 then feed else feed[1..];
      ClimbShape(node, level[k..], feed');
      var tail := Climb(node, level[k..], feed').next;
      var next := Climb(node, level, feed).next;
      assert next == [next[0]] + tail;
      ConsAscends(next[0], tail);
      if k < |level| {
        assert level[k..][0] == level[k];
        assert TopIdx(level[k..]) == TopIdx(level);
      }
    }
  }

  /** All rounds; the value is the final hash and what is left of the feed. */
  function Walk<D>(node: (D, D) -> D, level: seq<Entry<D>>, feed: seq<D>): Option<(D, seq<D>)>
    requires level != [] && StrictlyAscending(level)
    decreases TopIdx(level)
  {
    if TopIdx(level) == 0 then Some((level[0].hash, feed))
    else
      match Climb(node, level, feed)
      case Short => None
      case Round(next, rest) =>
        ClimbShape(node, level, feed);
        Walk(node, next, rest)
  }

  function Zip<D>(indices: seq<u32>, hashes: seq<D>): (r: seq<Entry<D>>)
    requires |indices| == |hashes|
  {
    seq(|indices|, i requires 0 <= i < |indices| => Entry(indices[i], hashes[i]))
  }

  function Hashes<D>(proof: seq<ProofNode<D>>): seq<D> {
    seq(|proof|, i requires 0 <= i < |proof| => proof[i].hash)
  }

  predicate DistinctKeys<D>(s: seq<Entry<D>>) {
    forall i, j :: 0 <= i < j < |s| ==> s[i].idx != s[j].idx
  }

  ghost predicate Fresh<D>(s: seq<Entry<D>>, idx: nat) {
    forall f :: f in s ==> f.idx != idx
  }

  lemma HeadKey<D>(e: Entry<D>, s: seq<Entry<D>>)
    ensures DistinctKeys([e] + s) <==> DistinctKeys(s) && Fresh(s, e.idx)
  {
    var t := [e] + s;
    assert forall k :: 0 <= k < |s| ==> s[k] == t[k + 1];
    if DistinctKeys(t) {
      forall i, j | 0 <= i < j < |s| ensures s[i].idx != s[j].idx {
        assert t[i + 1].idx != t[j + 1].idx;
      }
      forall f | f in s ensures f.idx != e.idx {
        var k :| 0 <= k < |s| && s[k] == f;
        assert t[0].idx != t[k + 1].idx;
      }
    }
  }

  lemma FreshHead<D>(e: Entry<D>, s: seq<Entry<D>>, idx: nat)
    ensures Fresh([e] + s, idx) <==> e.idx != idx && Fresh(s, idx)
  {
    var t := [e] + s;
    assert e in t;
    assert forall f :: f in s ==> f in t;
  }

  lemma {:induction false} InsertKeepsKeys<D>(e: Entry<D>, s: seq<Entry<D>>)
    ensures DistinctKeys(Insert(e, s, ByIdx())) <==> DistinctKeys([e] + s)
  {
    if s != [] && e.idx > s[0].idx {
      var tail := Insert(e, s[1..], ByIdx());
      InsertKeepsKeys(e, s[1..]);
      InsertMembers(e, s[1..], ByIdx());
      assert Fresh(tail, s[0].idx) <==> e.idx != s[0].idx && Fresh(s[1..], s[0].idx);
      assert s == [s[0]] + s[1..];
      FreshHead(s[0], s[1..], e.idx);
      HeadKey(s[0], tail);
      HeadKey(e, s[1..]);
      HeadKey(e, s);
      HeadKey(s[0], s[1..]);
    }
  }

  lemma SortKeepsMembers<D>(s: seq<Entry<D>>)
    ensures forall f :: f in SortByIdx(s) <==> f in s
  {
    SortMembers(s, ByIdx());
  }

  lemma {:induction false} SortKeepsDistinct<D>(s: seq<Entry<D>>)
    ensures DistinctKeys(SortByIdx(s)) <==> DistinctKeys(s)
  {
    if s != [] {
      var tail := SortByIdx(s[1..]);
      SortKeepsDistinct(s[1..]);
      SortKeepsMembers(s[1..]);
      InsertKeepsKeys(s[0], tail);
      HeadKey(s[0], tail);
      HeadKey(s[0], s[1..]);
      assert Fresh(tail, s[0].idx) <==> Fresh(s[1..], s[0].idx);
      assert s == [s[0]] + s[1..];
    }
  }

  lemma SortKeepsKeys<D>(s: seq<Entry<D>>)
    ensures DistinctKeys(s) <==> StrictlyAscending(SortByIdx(s))
  {
    SortAscends(s);
    SortKeepsDistinct(s);
    var level := SortByIdx(s);
    if DistinctKeys(level) {
      assert StrictlyAscending(level);
    }
  }

  /** Sorted by distinct keys, a level is determined by its entries as a multiset. */
  lemma FirstMoves<T>(a: seq<T>)
    requires a != []
    ensures multiset(a) == multiset(a[1..]) + multiset([a[0]])
  {
    assert a == [a[0]] + a[1..];
  }

  lemma {:induction false} StrictIsUnique<D>(a: seq<Entry<D>>, b: seq<Entry<D>>)
    requires StrictlyAscending(a) && StrictlyAscending(b)
    requires multiset(a) == multiset(b)
    ensures a == b
  {
    if a == [] || b == [] {
      assert |a| == |multiset(a)| == |multiset(b)| == |b|;
    } else {
      assert a[0] in multiset(b) && b[0] in multiset(a);
      assert a[0] in b && b[0] in a;
      FirstMoves(a);
      FirstMoves(b);
      MultisetCancels(multiset(a[1..]), multiset(b[1..]), multiset([a[0]]));
      StrictIsUnique(a[1..], b[1..]);
    }
  }

  /** Distinctness of keys, said of the multiset of entries. */
  ghost predicate KeysOnce<D(!new)>(m: multiset<Entry<D>>) {
    forall e :: e in m ==> m[e] == 1 && (forall f :: f in m && f.idx == e.idx ==> f == e)
  }

  lemma {:induction false} DistinctIsOnce<D(!new)>(s: seq<Entry<D>>, k: nat)
    requires DistinctKeys(s) && k < |s|
    ensures multiset(s)[s[k]] == 1
  {
    var rest := s[..k] + s[k + 1..];
    assert s == s[..k] + ([s[k]] + s[k + 1..]);
    assert multiset(s) == multiset(s[..k]) + (multiset{s[k]} + multiset(s[k + 1..]));
    assert multiset(rest) == multiset(s[..k]) + multiset(s[k + 1..]);
    assert s[k] !in rest;
    assert s[k] !in multiset(rest);
  }

  lemma {:induction false} DistinctIsKeysOnce<D(!new)>(s: seq<Entry<D>>)
    ensures DistinctKeys(s) <==> KeysOnce(multiset(s))
  {
    if DistinctKeys(s) {
      forall e | e in multiset(s)
        ensures multiset(s)[e] == 1 && forall f :: f in multiset(s) && f.idx == e.idx ==> f == e
      {
        var k :| 0 <= k < |s| && s[k] == e;
        DistinctIsOnce(s, k);
      }
    } else {
      var i, j :| 0 <= i < j < |s| && s[i].idx == s[j].idx;
      assert s[i] in multiset(s) && s[j] in multiset(s);
      if s[i] == s[j] {
        Twice(s, i, j);
      }
    }
  }

  // --- the program ----------------------------------------------------------------

  /** The walk does not run out of hashes. */
  predicate Completes<D(==)>(node: (D, D) -> D, entries: seq<Entry<D>>, feed: seq<D>)
    requires entries != [] && DistinctKeys(entries)
  {
    SortKeepsKeys(entries);
    SortAscends(entries);
    Walk(node, SortByIdx(entries), feed).Some?
  }

  /** What `verify_multiproof` answers, in terms of the walk. */
  function Verdict<D(==)>(node: (D, D) -> D, entries: seq<Entry<D>>, feed: seq<D>, root: D): Result<(), Error> {
    if entries == [] then Err(MissingStat)
    else if !DistinctKeys(entries) then Err(DuplicateStatCoverage)
    else
      var level := SortByIdx(entries);
      SortKeepsKeys(entries);
      SortAscends(entries);
      if Walk(node, level, feed) == Some((root, [])) then Ok(()) else Err(StatProofMismatch)
  }

  method HasEqualNeighbours<D>(level: seq<Entry<D>>) returns (b: bool)
    requires Ascending(level)
    ensures b <==> !StrictlyAscending(level)
  {
    var i := 0;
    while i + 1 < |level|
      invariant 0 <= i && (level != [] ==> i < |level|)
      invariant forall j, k :: 0 <= j < k <= i && k < |level| ==> level[j].idx < level[k].idx
    {
      if level[i].idx == level[i + 1].idx {
        return true;
      }
      i := i + 1;
    }
    return false;
  }

  /** One pass of the inner loop; `fed` counts the consumed hashes. */
  method ClimbLevel<D>(node: (D, D) -> D, level: seq<Entry<D>>, multiproof: seq<ProofNode<D>>, start: nat)
    returns (short: bool, next: seq<Entry<D>>, fed: nat)
    requires start <= |multiproof|
    ensures start <= fed <= |multiproof|
    ensures Climb(node, level, Hashes(multiproof)[start..])
            == if short then Short else Round(next, Hashes(multiproof)[fed..])
  {
    ghost var feed := Hashes(multiproof);
    next, fed := [], start;
    var i := 0;
    while i < |level|
      invariant 0 <= i <= |level| && start <= fed <= |multiproof|
      invariant Climb(node, level, feed[start..]) == Prepend(next, Climb(node, level[i..], feed[fed..]))
    {
      var e := level[i];
      ghost var done := next;
      if i + 1 < |level| && level[i + 1].idx == Sibling(e.idx) {
        assert PairAhead(level[i..]) && level[i..][2..] == level[i + 2..];
        next := next + [ParentEntry(node, e, level[i + 1].hash)];
        i := i + 2;
      } else {
        assert !PairAhead(level[i..]) && level[i..][1..] == level[i + 1..];
        if fed >= |multiproof| {
          return true, [], fed;
        }
        assert feed[fed..][0] == multiproof[fed].hash && feed[fed..][1..] == feed[fed + 1..];
        next := next + [ParentEntry(node, e, multiproof[fed].hash)];
        fed := fed + 1;
        i := i + 1;
      }
      PrependTwice(done, next[|done|..], Climb(node, level[i..], feed[fed..]));
    }
    assert level[|level|..] == [];
    return false, next, fed;
  }

  method VerifyMultiproof<D(==)>(node: (D, D) -> D, leafHashes: seq<D>, leafIndices: seq<u32>,
                                 multiproof: seq<ProofNode<D>>, root: D)
    returns (r: Result<(), Error>, ghost rounds: nat)
    requires |leafHashes| == |leafIndices|
    ensures r == Verdict(node, Zip(leafIndices, leafHashes), Hashes(multiproof), root)
    ensures var entries, feed := Zip(leafIndices, leafHashes), Hashes(multiproof);
            entries != [] && DistinctKeys(entries) && Completes(node, entries, feed) ==>
              rounds == BitLength(TopIdx(SortByIdx(entries)))
  {
    if |leafHashes| == 0 {
      return Err(MissingStat), 0;
    }
    var level := SortByIdx(Zip(leafIndices, leafHashes));
    SortAscends(Zip(leafIndices, leafHashes));
    SortKeepsKeys(Zip(leafIndices, leafHashes));
    var duplicate := HasEqualNeighbours(level);
    if duplicate {
      return Err(DuplicateStatCoverage), 0;
    }
    var fed := 0;
    rounds := 0;
    ghost var answer := Walk(node, level, Hashes(multiproof));
    assert Hashes(multiproof)[0..] == Hashes(multiproof);
    while |level| > 1 || level[0].idx != 0
      invariant level != [] && StrictlyAscending(level) && 0 <= fed <= |multiproof|
      invariant Walk(node, level, Hashes(multiproof)[fed..]) == answer
      invariant rounds + BitLength(TopIdx(level)) == BitLength(TopIdx(SortByIdx(Zip(leafIndices, leafHashes))))
      decreases TopIdx(level)
    {
      var short, next, fed' := ClimbLevel(node, level, multiproof, fed);
      if short {
        return Err(StatProofMismatch), rounds;
      }
      ClimbShape(node, level, Hashes(multiproof)[fed..]);
      SortOfSorted(next);
      DedupOfStrict(next);
      level := DedupByIdx(SortByIdx(next));
      fed := fed';
      rounds := rounds + 1;
    }
    assert answer == Some((level[0].hash, Hashes(multiproof)[fed..]));
    if fed != |multiproof| {
      return Err(StatProofMismatch), rounds;
    }
    assert Hashes(multiproof)[fed..] == [];
    if level[0].hash != root {
      return Err(StatProofMismatch), rounds;
    }
    return Ok(()), rounds;
  }
}
