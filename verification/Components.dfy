/**
 * The groups of the tournament: connected components of the group-stage fixtures,
 * found with an explicit stack and a set of codes already seen.
 */
module Components {
  import opened Sorting

  /** A team code. */
  type Code = string

  /** The code unit order of the default `sort()`. */
  predicate CodeLess(a: Code, b: Code) {
    b != [] && (a == [] || a[0] < b[0] || (a[0] == b[0] && CodeLess(a[1..], b[1..])))
  }

  /** The first difference decides, and a proper prefix comes first. */
  lemma {:induction false} CodeLessIsDictionaryOrder(a: Code, b: Code)
    ensures CodeLess(a, b) <==>
              || (|a| < |b| && a == b[..|a|])
              || exists i :: 0 <= i < |a| && i < |b| && a[..i] == b[..i] && a[i] < b[i]
  {
    if a != [] && b != [] {
      CodeLessIsDictionaryOrder(a[1..], b[1..]);
      assert a == [a[0]] + a[1..] && b == [b[0]] + b[1..];
      if a[0] == b[0] {
        forall i | 0 <= i < |a| && i < |b|
          ensures i > 0 ==> (a[..i] == b[..i] <==> a[1..][..i - 1] == b[1..][..i - 1])
          ensures i > 0 ==> a[i] == a[1..][i - 1] && b[i] == b[1..][i - 1]
        {
          if i > 0 {
            assert a[..i] == [a[0]] + a[1..][..i - 1] && b[..i] == [b[0]] + b[1..][..i - 1];
          }
        }
      }
    }
  }

  lemma {:induction false} CodeLessIrreflexive(a: Code)
    ensures !CodeLess(a, a)
  {
    if a != [] {
      CodeLessIrreflexive(a[1..]);
    }
  }

  lemma {:induction false} CodeLessTransitive(a: Code, b: Code, c: Code)
    requires CodeLess(a, b) && CodeLess(b, c)
    ensures CodeLess(a, c)
  {
    if a != [] && a[0] == b[0] == c[0] {
      CodeLessTransitive(a[1..], b[1..], c[1..]);
    }
  }

  lemma {:induction false} CodeLessTotal(a: Code, b: Code)
    requires a != b
    ensures CodeLess(a, b) || CodeLess(b, a)
  {
    if a != [] && b != [] && a[0] == b[0] {
      assert a == [a[0]] + a[1..] && b == [b[0]] + b[1..];
      CodeLessTotal(a[1..], b[1..]);
    }
  }

  lemma CodeLessOrders(codes: seq<Code>)
    ensures Orders(CodeLess, codes)
    ensures forall a, b :: a in codes && b in codes && a != b ==> CodeLess(a, b) || CodeLess(b, a)
  {
    forall a | a in codes ensures !CodeLess(a, a) {
      CodeLessIrreflexive(a);
    }
    forall a, b, c | a in codes && b in codes && c in codes && CodeLess(a, b) && CodeLess(b, c) ensures CodeLess(a, c) {
      CodeLessTransitive(a, b, c);
    }
    forall a, b | a in codes && b in codes && a != b ensures CodeLess(a, b) || CodeLess(b, a) {
      CodeLessTotal(a, b);
    }
  }

  // --- who played whom --------------------------------------------------------------------

  /** The two teams of a fixture. */
  datatype Pairing = Pairing(home: Code, away: Code)

  ghost predicate Plays(ps: seq<Pairing>, a: Code, b: Code) {
    Pairing(a, b) in ps || Pairing(b, a) in ps
  }

  ghost predicate IsCode(ps: seq<Pairing>, c: Code) {
    exists d :: Plays(ps, c, d)
  }

  /** `localeCompare` tells the codes that occur apart; other strings it may tie. */
  ghost predicate OrdersCodes(ps: seq<Pairing>, locale: (Code, Code) -> bool) {
    && (forall a :: IsCode(ps, a) ==> !locale(a, a))
    && (forall a, b, c :: IsCode(ps, a) && IsCode(ps, b) && IsCode(ps, c) && locale(a, b) && locale(b, c) ==>
          locale(a, c))
    && (forall a, b :: IsCode(ps, a) && IsCode(ps, b) && a != b ==> locale(a, b) || locale(b, a))
  }

  ghost predicate Chain(ps: seq<Pairing>, path: seq<Code>) {
    path != [] && forall i :: 0 <= i < |path| - 1 ==> Plays(ps, path[i], path[i + 1])
  }

  /** A chain of fixtures leads from one team to the other. */
  ghost predicate Linked(ps: seq<Pairing>, a: Code, b: Code) {
    exists path :: Chain(ps, path) && path[0] == a && path[|path| - 1] == b
  }

  lemma LinkedToItself(ps: seq<Pairing>, a: Code)
    ensures Linked(ps, a, a)
  {
    assert Chain(ps, [a]);
  }

  lemma LinkedOneMore(ps: seq<Pairing>, a: Code, b: Code, c: Code)
    requires Linked(ps, a, b) && Plays(ps, b, c)
    ensures Linked(ps, a, c)
  {
    var path :| Chain(ps, path) && path[0] == a && path[|path| - 1] == b;
    assert Chain(ps, path + [c]);
  }

  lemma {:induction false} LinkedSymmetric(ps: seq<Pairing>, a: Code, b: Code)
    requires Linked(ps, a, b)
    ensures Linked(ps, b, a)
  {
    var path :| Chain(ps, path) && path[0] == a && path[|path| - 1] == b;
    var n := |path|;
    var back := seq(n, i requires 0 <= i < n => path[n - 1 - i]);
    forall i | 0 <= i < n - 1 ensures Plays(ps, back[i], back[i + 1]) {
      assert Plays(ps, path[n - 2 - i], path[n - 2 - i + 1]);
    }
    assert Chain(ps, back);
  }

  lemma LinkedTransitive(ps: seq<Pairing>, a: Code, b: Code, c: Code)
    requires Linked(ps, a, b) && Linked(ps, b, c)
    ensures Linked(ps, a, c)
  {
    var p :| Chain(ps, p) && p[0] == a && p[|p| - 1] == b;
    var q :| Chain(ps, q) && q[0] == b && q[|q| - 1] == c;
    var r := p + q[1..];
    forall i | 0 <= i < |r| - 1 ensures Plays(ps, r[i], r[i + 1]) {
      if i < |p| - 1 {
        assert Plays(ps, p[i], p[i + 1]);
      } else {
        assert Plays(ps, q[i - |p| + 1], q[i - |p| + 2]);
      }
    }
    assert Chain(ps, r);
  }

  /** A set no fixture leaves keeps every chain that starts in it. */
  lemma {:induction false} ClosedUnderLinks(ps: seq<Pairing>, s: set<Code>, path: seq<Code>)
    requires forall x, y :: x in s && Plays(ps, x, y) ==> y in s
    requires Chain(ps, path) && path[0] in s
    ensures path[|path| - 1] in s
  {
    if |path| > 1 {
      assert Plays(ps, path[0], path[1]);
      forall i | 0 <= i < |path[1..]| - 1 ensures Plays(ps, path[1..][i], path[1..][i + 1]) {
        assert Plays(ps, path[i + 1], path[i + 1 + 1]);
      }
      ClosedUnderLinks(ps, s, path[1..]);
    }
  }

  lemma ClosedHoldsLinked(ps: seq<Pairing>, s: set<Code>, a: Code, b: Code)
    requires forall x, y :: x in s && Plays(ps, x, y) ==> y in s
    requires a in s && Linked(ps, a, b)
    ensures b in s
  {
    var path :| Chain(ps, path) && path[0] == a && path[|path| - 1] == b;
    ClosedUnderLinks(ps, s, path);
  }

  // --- the adjacency map ----------------------------------------------------------------------

  type Adjacency = map<Code, set<Code>>

  /** `link(a, b)`: one direction of one fixture. */
  function Link(adj: Adjacency, a: Code, b: Code): Adjacency {
    adj[a := (if a in adj then adj[a] else {}) + {b}]
  }

  ghost predicate IsAdjacency(ps: seq<Pairing>, adj: Adjacency) {
    && (forall a, b :: a in adj && b in adj[a] <==> Plays(ps, a, b))
    && (forall a :: a in adj ==> adj[a] != {})
  }

  lemma PlaysSnoc(ps: seq<Pairing>, p: Pairing, a: Code, b: Code)
    ensures Plays(ps + [p], a, b) <==> Plays(ps, a, b) || p == Pairing(a, b) || p == Pairing(b, a)
  {
  }

  lemma LinkBothWays(ps: seq<Pairing>, p: Pairing, adj: Adjacency)
    requires IsAdjacency(ps, adj)
    ensures IsAdjacency(ps + [p], Link(Link(adj, p.home, p.away), p.away, p.home))
  {
    hide Plays;
    var next := Link(Link(adj, p.home, p.away), p.away, p.home);
    forall a, b ensures a in next && b in next[a] <==> Plays(ps + [p], a, b) {
      PlaysSnoc(ps, p, a, b);
      assert a in adj && b in adj[a] <==> Plays(ps, a, b);
    }
  }

  method BuildAdjacency(ps: seq<Pairing>) returns (adj: Adjacency)
    ensures IsAdjacency(ps, adj)
  {
    adj := map[];
    for k := 0 to |ps|
      invariant IsAdjacency(ps[..k], adj)
    {
      LinkBothWays(ps[..k], ps[k], adj);
      assert ps[..k + 1] == ps[..k] + [ps[k]];
      adj := Link(adj, ps[k].home, ps[k].away);
      adj := Link(adj, ps[k].away, ps[k].home);
    }
    assert ps[..|ps|] == ps;
  }

  // --- the stack loop ---------------------------------------------------------------------------

  function Elements(s: seq<Code>): set<Code> {
    set c | c in s
  }

  ghost predicate NoRepeat(s: seq<Code>) {
    forall i, j :: 0 <= i < j < |s| ==> s[i] != s[j]
  }

  /** Everything a fixture links to the set is in it. */
  ghost predicate Closed(ps: seq<Pairing>, s: set<Code>) {
    forall x, y :: x in s && Plays(ps, x, y) ==> y in s
  }

  /**
   * The state of one exploration: what is seen beyond `before` is on the stack or in
   * the component, once; neighbours of the component are seen.
   */
  ghost predicate Exploring(ps: seq<Pairing>, root: Code, before: set<Code>, seen: set<Code>,
                            stack: seq<Code>, comp: seq<Code>)
  {
    && Closed(ps, before) && root !in before
    && seen == before + Elements(comp) + Elements(stack)
    && NoRepeat(comp + stack)
    && (forall c :: c in comp + stack ==> c !in before && Linked(ps, root, c) && IsCode(ps, c))
    && root in comp + stack
  }

  /**
   * The inner loop: everything `cur` plays is pushed unless it was seen already.
   * Set iteration order does not matter, so any order is allowed.
   */
  method PushNeighbours(ghost ps: seq<Pairing>, ghost root: Code, ghost before: set<Code>, neighbours: set<Code>,
                        cur: Code, ghost comp: seq<Code>, seen0: set<Code>, stack0: seq<Code>)
    returns (seen: set<Code>, stack: seq<Code>)
    requires Exploring(ps, root, before, seen0, stack0, comp) && cur in comp
    requires forall n :: n in neighbours <==> Plays(ps, cur, n)
    ensures Exploring(ps, root, before, seen, stack, comp)
    ensures seen0 <= seen && neighbours <= seen
  {
    seen, stack := seen0, stack0;
    var todo := neighbours;
    while todo != {}
      invariant Exploring(ps, root, before, seen, stack, comp)
      invariant todo <= neighbours <= todo + seen && seen0 <= seen
      decreases todo
    {
      var n :| n in todo;
      if n !in seen {
        Push(ps, root, before, seen, stack, comp, cur, n);
        seen := seen + {n};
        stack := stack + [n];
      }
      todo := todo - {n};
    }
  }

  lemma Push(ps: seq<Pairing>, root: Code, before: set<Code>, seen: set<Code>, stack: seq<Code>, comp: seq<Code>,
             cur: Code, n: Code)
    requires Exploring(ps, root, before, seen, stack, comp) && cur in comp && Plays(ps, cur, n) && n !in seen
    ensures Exploring(ps, root, before, seen + {n}, stack + [n], comp)
  {
    assert cur in comp + stack;
    LinkedOneMore(ps, root, cur, n);
    assert Plays(ps, n, cur);
    assert comp + (stack + [n]) == comp + stack + [n];
    assert forall c :: c in comp + stack ==> c in seen;
  }

  /** Moving the top of the stack to the component changes nothing that counts. */
  lemma Pop(ps: seq<Pairing>, root: Code, before: set<Code>, seen: set<Code>, stack: seq<Code>, comp: seq<Code>)
    requires Exploring(ps, root, before, seen, stack, comp) && stack != []
    ensures var cur := stack[|stack| - 1];
            cur !in comp && Exploring(ps, root, before, seen, stack[..|stack| - 1], comp + [cur])
  {
    var cur, rest := stack[|stack| - 1], stack[..|stack| - 1];
    assert stack == rest + [cur];
    var a, b := comp + stack, comp + [cur] + rest;
    assert a[|comp| + |rest|] == cur;
    forall i | 0 <= i < |comp| ensures comp[i] != cur {
      assert a[i] == comp[i];
    }
    forall i, j | 0 <= i < j < |b| ensures b[i] != b[j] {
      var i' := if i == |comp| then |comp| + |rest| else if i < |comp| then i else i - 1;
      var j' := if j == |comp| then |comp| + |rest| else if j < |comp| then j else j - 1;
      assert a[i'] == b[i] && a[j'] == b[j] && i' != j';
    }
    assert forall c :: c in a <==> c in b;
  }

  ghost predicate NeighboursSeen(ps: seq<Pairing>, comp: seq<Code>, seen: set<Code>) {
    forall x, y :: x in comp && Plays(ps, x, y) ==> y in seen
  }

  /** One component: the closed set of everything linked to `root`. */
  method Explore(ghost ps: seq<Pairing>, adj: Adjacency, root: Code, ghost all: set<Code>, before: set<Code>)
    returns (comp: seq<Code>, seen: set<Code>)
    requires IsAdjacency(ps, adj) && adj.Keys == all
    requires root in all && root !in before && Closed(ps, before)
    ensures NoRepeat(comp) && root in comp && seen == before + Elements(comp) && Closed(ps, seen)
    ensures forall c :: c in comp <==> Linked(ps, root, c)
    ensures Elements(comp) <= all && Elements(comp) !! before
  {
    var stack := [root];
    comp := [];
    seen := before + {root};
    RootIsExploring(ps, adj, root, before);
    while stack != []
      invariant Exploring(ps, root, before, seen, stack, comp)
      invariant NeighboursSeen(ps, comp, seen)
      decreases all - Elements(comp)
    {
      ghost var was := comp;
      var cur := stack[|stack| - 1];
      Pop(ps, root, before, seen, stack, comp);
      stack := stack[..|stack| - 1];
      comp := comp + [cur];
      assert cur in comp + stack;
      KnownCodes(ps, adj, cur);
      seen, stack := PushNeighbours(ps, root, before, adj[cur], cur, comp, seen, stack);
      assert Elements(comp) == Elements(was) + {cur};
    }
    ExplorationEnds(ps, root, before, seen, comp);
    forall c | c in comp ensures c in all {
      assert c in comp + [];
      KnownCodes(ps, adj, c);
    }
  }

  lemma KnownCodes(ps: seq<Pairing>, adj: Adjacency, c: Code)
    requires IsAdjacency(ps, adj)
    ensures c in adj <==> IsCode(ps, c)
  {
    if c in adj {
      var d :| d in adj[c];
      assert Plays(ps, c, d);
    }
  }

  lemma RootIsExploring(ps: seq<Pairing>, adj: Adjacency, root: Code, before: set<Code>)
    requires IsAdjacency(ps, adj) && root in adj && root !in before && Closed(ps, before)
    ensures Exploring(ps, root, before, before + {root}, [root], [])
  {
    LinkedToItself(ps, root);
    KnownCodes(ps, adj, root);
    assert [] + [root] == [root];
  }

  /** When the stack is empty the component is exactly what `root` is linked to. */
  lemma ExplorationEnds(ps: seq<Pairing>, root: Code, before: set<Code>, seen: set<Code>, comp: seq<Code>)
    requires Exploring(ps, root, before, seen, [], comp) && NeighboursSeen(ps, comp, seen)
    ensures NoRepeat(comp) && root in comp && seen == before + Elements(comp) && Closed(ps, seen)
    ensures forall c :: c in comp <==> Linked(ps, root, c)
    ensures Elements(comp) !! before
  {
    assert comp + [] == comp;
    forall x, y | x in Elements(comp) && Plays(ps, x, y) ensures y in Elements(comp) {
      assert y in seen;
      assert Plays(ps, y, x);
    }
    forall c | Linked(ps, root, c) ensures c in comp {
      ClosedHoldsLinked(ps, Elements(comp), root, c);
    }
  }

  // --- all components ----------------------------------------------------------------------------

  /** The components as the code lists them: each sorted, ordered by their first codes. */
  ghost predicate Partitions(ps: seq<Pairing>, comps: seq<seq<Code>>, locale: (Code, Code) -> bool) {
    && IntoClasses(ps, comps)
    && (forall c :: IsCode(ps, c) ==> exists i :: 0 <= i < |comps| && c in comps[i])
    && Ascending(comps, HeadOrder(locale))
  }

  /** Every list is one sorted class of linked codes; different lists are different classes. */
  ghost predicate IntoClasses(ps: seq<Pairing>, comps: seq<seq<Code>>) {
    && (forall i :: 0 <= i < |comps| ==> IsClass(ps, comps[i]))
    && (forall i, j :: 0 <= i < j < |comps| ==> Elements(comps[i]) !! Elements(comps[j]))
  }

  /** A sorted list of all codes linked to each of its members. */
  ghost predicate IsClass(ps: seq<Pairing>, comp: seq<Code>) {
    && comp != [] && Ascending(comp, CodeLess)
    && (forall x :: x in comp ==> IsCode(ps, x))
    && (forall x, y :: x in comp ==> (y in comp <==> Linked(ps, x, y)))
  }

  /** `a[0].localeCompare(b[0])`: `locale` says which of two codes comes first. */
  function HeadOrder(locale: (Code, Code) -> bool): (seq<Code>, seq<Code>) -> bool {
    (a: seq<Code>, b: seq<Code>) => a != [] && b != [] && locale(a[0], b[0])
  }

  lemma SortedIsClass(ps: seq<Pairing>, root: Code, comp: seq<Code>)
    requires NoRepeat(comp) && root in comp && (forall c :: c in comp ==> IsCode(ps, c))
    requires forall c :: c in comp <==> Linked(ps, root, c)
    ensures IsClass(ps, Sort(comp, CodeLess)) && Elements(Sort(comp, CodeLess)) == Elements(comp)
  {
    CodeLessOrders(comp);
    SortAscends(comp, CodeLess);
    SortMembers(comp, CodeLess);
    forall x, y | x in comp ensures y in comp <==> Linked(ps, x, y) {
      LinkedSymmetric(ps, root, x);
      if y in comp {
        LinkedTransitive(ps, x, root, y);
      } else if Linked(ps, x, y) {
        LinkedTransitive(ps, root, x, y);
      }
    }
  }

  lemma HeadsCompare(ps: seq<Pairing>, comps: seq<seq<Code>>, locale: (Code, Code) -> bool)
    requires IntoClasses(ps, comps) && OrdersCodes(ps, locale)
    ensures Comparable(comps, HeadOrder(locale)) && Orders(HeadOrder(locale), comps)
  {
    assert forall comp :: comp in comps ==> IsClass(ps, comp) && IsCode(ps, comp[0]) by {
      forall comp | comp in comps ensures IsClass(ps, comp) && IsCode(ps, comp[0]) {
        assert IsClass(ps, comp);
        assert comp[0] in comp;
      }
    }
    forall i, j | 0 <= i < j < |comps|
      ensures HeadOrder(locale)(comps[i], comps[j]) || HeadOrder(locale)(comps[j], comps[i])
    {
      assert comps[i][0] in Elements(comps[i]) && comps[j][0] in Elements(comps[j]);
    }
  }

  lemma ClassesArePairwise(ps: seq<Pairing>, comps: seq<seq<Code>>, sorted: seq<seq<Code>>)
    requires IntoClasses(ps, comps) && SameMembers(sorted, comps) && NoTwice(sorted)
    ensures IntoClasses(ps, sorted)
  {
    forall i | 0 <= i < |sorted| ensures IsClass(ps, sorted[i]) {
      assert sorted[i] in comps;
    }
    forall i, j | 0 <= i < j < |sorted| ensures Elements(sorted[i]) !! Elements(sorted[j]) {
      assert sorted[i] in comps && sorted[j] in comps;
      var a :| 0 <= a < |comps| && comps[a] == sorted[i];
      var b :| 0 <= b < |comps| && comps[b] == sorted[j];
      assert a != b;
    }
  }

  ghost predicate NoTwice(s: seq<seq<Code>>) {
    forall i, j :: 0 <= i < j < |s| ==> s[i] != s[j]
  }

  /** The whole computation: a seen-set loop over the keys, then the two sorts. */
  method FindComponents(ps: seq<Pairing>, locale: (Code, Code) -> bool) returns (components: seq<seq<Code>>)
    requires OrdersCodes(ps, locale)
    ensures Partitions(ps, components, locale)
  {
    hide Partitions, IsClass, Orders;
    var adj := BuildAdjacency(ps);
    var todo := adj.Keys;
    var seen: set<Code> := {};
    components := [];
    while todo != {}
      invariant todo <= adj.Keys <= todo + seen
      invariant Closed(ps, seen) && IntoClasses(ps, components) && Covered(components, seen)
      decreases todo
    {
      var code :| code in todo;
      if code !in seen {
        var comp: seq<Code>;
        ghost var before := seen;
        comp, seen := Explore(ps, adj, code, adj.Keys, seen);
        forall c | c in comp ensures IsCode(ps, c) {
          assert c in Elements(comp);
          KnownCodes(ps, adj, c);
        }
        SortedIsClass(ps, code, comp);
        AddClass(ps, components, before, Sort(comp, CodeLess));
        components := components + [Sort(comp, CodeLess)];
      }
      todo := todo - {code};
    }
    forall c | IsCode(ps, c) ensures exists i :: 0 <= i < |components| && c in components[i] {
      KnownCodes(ps, adj, c);
    }
    SortComponents(ps, components, locale);
    components := Sort(components, HeadOrder(locale));
  }

  /** The seen codes are those of the components found so far. */
  ghost predicate Covered(comps: seq<seq<Code>>, seen: set<Code>) {
    forall c :: c in seen <==> exists i :: 0 <= i < |comps| && c in comps[i]
  }

  lemma AddClass(ps: seq<Pairing>, comps: seq<seq<Code>>, seen: set<Code>, comp: seq<Code>)
    requires IntoClasses(ps, comps) && Covered(comps, seen) && IsClass(ps, comp) && Elements(comp) !! seen
    ensures IntoClasses(ps, comps + [comp]) && Covered(comps + [comp], seen + Elements(comp))
  {
    var more := comps + [comp];
    forall i | 0 <= i < |comps| ensures Elements(comps[i]) !! Elements(comp) {
      assert Elements(comps[i]) <= seen;
    }
    forall c ensures c in seen + Elements(comp) <==> exists i :: 0 <= i < |more| && c in more[i] {
      if c in Elements(comp) {
        assert more[|comps|] == comp;
      } else if c in seen {
        var i :| 0 <= i < |comps| && c in comps[i];
        assert more[i] == comps[i];
      }
    }
  }

  lemma SortComponents(ps: seq<Pairing>, comps: seq<seq<Code>>, locale: (Code, Code) -> bool)
    requires IntoClasses(ps, comps) && OrdersCodes(ps, locale)
    requires forall c :: IsCode(ps, c) ==> exists i :: 0 <= i < |comps| && c in comps[i]
    ensures Partitions(ps, Sort(comps, HeadOrder(locale)), locale)
  {
    var order := HeadOrder(locale);
    var sorted := Sort(comps, order);
    HeadsCompare(ps, comps, locale);
    SortAscends(comps, order);
    SortMembers(comps, order);
    assert forall i, j :: 0 <= i < j < |sorted| ==> order(sorted[i], sorted[j]);
    ClassesArePairwise(ps, comps, sorted);
    forall c | IsCode(ps, c) ensures exists i :: 0 <= i < |sorted| && c in sorted[i] {
      var i :| 0 <= i < |comps| && c in comps[i];
      assert comps[i] in sorted;
    }
  }

  // --- what the components are ----------------------------------------------------------------------

  /** Two teams share a component exactly when a chain of fixtures links them. */
  lemma SameComponentIffLinked(ps: seq<Pairing>, comps: seq<seq<Code>>, locale: (Code, Code) -> bool, a: Code, b: Code)
    requires Partitions(ps, comps, locale) && IsCode(ps, a) && IsCode(ps, b)
    ensures (exists i :: 0 <= i < |comps| && a in comps[i] && b in comps[i]) <==> Linked(ps, a, b)
    ensures forall i, j :: 0 <= i < |comps| && 0 <= j < |comps| && a in comps[i] && a in comps[j] ==> i == j
  {
    var i :| 0 <= i < |comps| && a in comps[i];
    assert IsClass(ps, comps[i]);
    assert forall k :: 0 <= k < |comps| && a in comps[k] ==> a in Elements(comps[k]);
  }

  /** The components do not depend on the order in which fixtures are listed. */
  lemma ComponentsAreOrderFree(ps: seq<Pairing>, qs: seq<Pairing>, a: seq<seq<Code>>, b: seq<seq<Code>>,
                               locale: (Code, Code) -> bool)
    requires SameMembers(ps, qs) && OrdersCodes(ps, locale)
    requires Partitions(ps, a, locale) && Partitions(qs, b, locale)
    ensures a == b
  {
    forall c ensures c in a <==> c in b {
      if c in a {
        ClassIsListed(ps, qs, a, b, locale, c);
      }
      if c in b {
        ClassIsListed(qs, ps, b, a, locale, c);
      }
    }
    HeadsCompare(ps, a, locale);
    AscendingIsUnique(a, b, HeadOrder(locale));
  }

  lemma SameLinks(ps: seq<Pairing>, qs: seq<Pairing>, a: Code, b: Code)
    requires SameMembers(ps, qs) && Linked(ps, a, b)
    ensures Linked(qs, a, b)
  {
    var path :| Chain(ps, path) && path[0] == a && path[|path| - 1] == b;
    forall i | 0 <= i < |path| - 1 ensures Plays(qs, path[i], path[i + 1]) {
      assert Plays(ps, path[i], path[i + 1]);
    }
    assert Chain(qs, path);
  }

  lemma ClassIsListed(ps: seq<Pairing>, qs: seq<Pairing>, a: seq<seq<Code>>, b: seq<seq<Code>>,
                      locale: (Code, Code) -> bool, comp: seq<Code>)
    requires SameMembers(ps, qs) && comp in a
    requires Partitions(ps, a, locale) && Partitions(qs, b, locale)
    ensures comp in b
  {
    assert IsClass(ps, comp);
    var x := comp[0];
    assert x in comp && IsCode(ps, x);
    var d :| Plays(ps, x, d);
    assert Plays(qs, x, d) && IsCode(qs, x);
    var j :| 0 <= j < |b| && x in b[j];
    assert IsClass(qs, b[j]);
    forall y ensures y in comp <==> y in b[j] {
      if Linked(ps, x, y) {
        SameLinks(ps, qs, x, y);
      }
      if Linked(qs, x, y) {
        SameLinks(qs, ps, x, y);
      }
    }
    CodeLessOrders(comp);
    AscendingIsUnique(comp, b[j], CodeLess);
  }
}
