/** Kahn's algorithm over dependency lists with repeated entries
    (topological_order in scripts/derive-gates.py, require_dag in
    scripts/check-status-transitions.py). */
module DependencyGraph {
  import opened Common

  /** The dependency list of each node. A Python dictionary also has an order of
      its keys, which is `nodes`. */
  datatype Graph = Graph(nodes: seq<string>, deps: map<string, seq<string>>)

  predicate Distinct(s: seq<string>)
  {
    forall i, j :: 0 <= i < j < |s| ==> s[i] != s[j]
  }

  function Elements(s: seq<string>): set<string>
  {
    set n | n in s
  }

  ghost predicate WellFormed(g: Graph)
  {
    Distinct(g.nodes) && forall n :: n in g.deps <==> n in g.nodes
  }

  /** No dependency is unknown. */
  predicate Closed(g: Graph)
  {
    forall n :: n in g.deps ==> forall d :: d in g.deps[n] ==> d in g.deps
  }

  /** A permutation of the nodes with each dependency before its dependents. */
  ghost predicate Topological(g: Graph, order: seq<string>)
  {
    && Distinct(order) && (forall n :: n in order <==> n in g.deps)
    && DependenciesFirst(g, order)
  }

  predicate DependenciesFirst(g: Graph, order: seq<string>)
  {
    forall i :: 0 <= i < |order| && order[i] in g.deps ==> forall d :: d in g.deps[order[i]] ==> d in order[..i]
  }

  /** Each node of the path depends on the next one. */
  predicate Path(g: Graph, p: seq<string>)
  {
    p != [] && (forall i :: 0 <= i < |p| ==> p[i] in g.deps) &&
    (forall i :: 0 <= i < |p| - 1 ==> p[i + 1] in g.deps[p[i]])
  }

  ghost predicate Cyclic(g: Graph)
  {
    exists p :: Path(g, p) && |p| > 1 && p[0] == p[|p| - 1]
  }

  /** `n` depends on `m`, directly or through others, or is `m`. */
  ghost predicate Reaches(g: Graph, n: string, m: string)
  {
    exists p :: Path(g, p) && p[0] == n && p[|p| - 1] == m
  }

  // --------------------------------------------------------------- reachability

  lemma ReachesItself(g: Graph, n: string)
    requires n in g.deps
    ensures Reaches(g, n, n)
  {
    SingletonPath(g, n);
    assert [n][0] == n;
  }

  /** What a dependency reaches is reached. */
  lemma ReachesFurther(g: Graph, n: string, d: string, m: string)
    requires n in g.deps && d in g.deps[n] && Reaches(g, d, m)
    ensures Reaches(g, n, m)
  {
    var p :| Path(g, p) && p[0] == d && p[|p| - 1] == m;
    var longer := [n] + p;
    assert Path(g, longer) && longer[0] == n && longer[|longer| - 1] == m;
  }

  /** Whatever is reached is the node itself or is reached by a dependency. */
  lemma ReachesByDependency(g: Graph, n: string, m: string) returns (d: string)
    requires Reaches(g, n, m)
    ensures n in g.deps && m in g.deps
    ensures m == n || (d in g.deps[n] && d in g.deps && Reaches(g, d, m))
  {
    var p :| Path(g, p) && p[0] == n && p[|p| - 1] == m;
    d := n;
    if |p| > 1 {
      d := p[1];
      var rest := p[1..];
      assert Path(g, rest) && rest[0] == d && rest[|rest| - 1] == m;
    }
  }

  // ------------------------------------------------------- orders and cycles

  lemma {:induction false} PathGoesBack(g: Graph, order: seq<string>, p: seq<string>, i: nat)
    requires Topological(g, order) && Path(g, p) && |p| > 1 && i < |order| && order[i] == p[0]
    ensures p[|p| - 1] in order[..i]
    decreases |p|
  {
    assert p[1] in order[..i];
    var j :| 0 <= j < i && order[j] == p[1];
    if |p| > 2 {
      PathGoesBack(g, order, p[1..], j);
    }
  }

  /** A graph with a topological order has no cycle. */
  lemma OrderExcludesCycle(g: Graph, order: seq<string>)
    requires Topological(g, order)
    ensures !Cyclic(g)
  {
    if p :| Path(g, p) && |p| > 1 && p[0] == p[|p| - 1] {
      var i :| 0 <= i < |order| && order[i] == p[0];
      PathGoesBack(g, order, p, i);
    }
  }

  predicate WaitsIn(g: Graph, stuck: set<string>, n: string)
    requires n in g.deps
  {
    exists d :: d in g.deps[n] && d in stuck
  }

  /** Nodes that all depend on each other's set contain a cycle: walk along the
      dependencies until a node comes back. */
  lemma {:induction false} StuckIsCyclic(g: Graph, stuck: set<string>, walk: seq<string>)
    requires stuck <= g.deps.Keys && Path(g, walk) && walk[|walk| - 1] in stuck
    requires forall n :: n in stuck ==> WaitsIn(g, stuck, n)
    ensures Cyclic(g)
    decreases stuck - Elements(walk)
  {
    var d :| d in g.deps[walk[|walk| - 1]] && d in stuck;
    var longer := walk + [d];
    if d in walk {
      var i :| 0 <= i < |walk| && walk[i] == d;
      var p := longer[i..];
      assert Path(g, p) && |p| > 1 && p[0] == p[|p| - 1];
    } else {
      assert d in stuck - Elements(walk) && d !in stuck - Elements(longer);
      StuckIsCyclic(g, stuck, longer);
    }
  }

  // ---------------------------------------------------------- counting the edges

  /** How many entries of a dependency list are not done yet. */
  function Pending(list: seq<string>, done: set<string>): nat
  {
    if list == [] then 0
    else Pending(list[..|list| - 1], done) + (if list[|list| - 1] in done then 0 else 1)
  }

  lemma {:induction false} PendingStep(list: seq<string>, done: set<string>, n: string)
    requires n !in done
    ensures Pending(list, done) == Pending(list, done + {n}) + multiset(list)[n]
  {
    if list != [] {
      PendingStep(list[..|list| - 1], done, n);
      assert list == list[..|list| - 1] + [list[|list| - 1]];
    }
  }

  lemma {:induction false} PendingZero(list: seq<string>, done: set<string>)
    ensures Pending(list, done) == 0 <==> forall d :: d in list ==> d in done
  {
    if list != [] {
      PendingZero(list[..|list| - 1], done);
      assert list == list[..|list| - 1] + [list[|list| - 1]];
    }
  }

  lemma {:induction false} PendingNothingDone(list: seq<string>)
    ensures Pending(list, {}) == |list|
  {
    if list != [] {
      PendingNothingDone(list[..|list| - 1]);
    }
  }

  lemma {:induction false} DistinctSize(s: seq<string>)
    requires Distinct(s)
    ensures |Elements(s)| == |s|
  {
    if s != [] {
      DistinctSize(s[..|s| - 1]);
      assert Elements(s) == Elements(s[..|s| - 1]) + {s[|s| - 1]};
    }
  }

  // ----------------------------------------------------------- the initial queue

  function Insert(n: string, sorted: seq<string>): (r: seq<string>)
    ensures multiset(r) == multiset(sorted) + multiset{n}
  {
    if sorted == [] || Before(n, sorted[0]) then [n] + sorted
    else
      assert sorted == [sorted[0]] + sorted[1..];
      [sorted[0]] + Insert(n, sorted[1..])
  }

  function Sorted(s: seq<string>): (r: seq<string>)
    ensures multiset(r) == multiset(s)
  {
    if s == [] then []
    else
      assert s == s[..|s| - 1] + [s[|s| - 1]];
      Insert(s[|s| - 1], Sorted(s[..|s| - 1]))
  }

  lemma SameElements(a: seq<string>, b: seq<string>)
    requires multiset(a) == multiset(b)
    ensures |a| == |b| && forall n :: n in a <==> n in b
    ensures Distinct(a) ==> Distinct(b)
  {
    assert |multiset(a)| == |multiset(b)|;
    forall n ensures n in a <==> n in b {
      assert n in multiset(a) <==> n in multiset(b);
    }
    if Distinct(a) {
      DistinctSize(a);
      assert Elements(a) == Elements(b);
      if i, j :| 0 <= i < j < |b| && b[i] == b[j] {
        RepeatShrinks(b, i, j);
      }
    }
  }

  lemma {:induction false} SetSize(s: seq<string>)
    ensures |Elements(s)| <= |s|
  {
    if s != [] {
      SetSize(s[1..]);
      assert Elements(s) == Elements(s[1..]) + {s[0]};
    }
  }

  lemma RepeatShrinks(s: seq<string>, i: nat, j: nat)
    requires i < j < |s| && s[i] == s[j]
    ensures |Elements(s)| < |s|
  {
    var t := s[..j] + s[j + 1..];
    SetSize(t);
    forall n | n in s ensures n in t {
      var k :| 0 <= k < |s| && s[k] == n;
      if k < j { assert t[k] == n; } else if k > j { assert t[k - 1] == n; } else { assert t[i] == n; }
    }
    assert Elements(s) == Elements(t);
  }

  // --------------------------------------------------------------- the algorithm

  datatype GraphError = UnknownDependency | DependencyCycle

  function Followers(outgoing: map<string, seq<string>>, n: string): seq<string>
  {
    if n in outgoing then outgoing[n] else []
  }

  /** Each entry of a dependency list is one edge: `outgoing` lists exactly the
      entries of the nodes in `counted`. */
  ghost predicate Edges(g: Graph, outgoing: map<string, seq<string>>, counted: seq<string>)
  {
    forall d, n :: multiset(Followers(outgoing, d))[n] == if n in counted && n in g.deps then multiset(g.deps[n])[d] else 0
  }

  /** The first j entries of the list of `n` have been added. */
  ghost predicate Added(g: Graph, n: string, outgoing: map<string, seq<string>>, more: map<string, seq<string>>, j: nat)
    requires n in g.deps && j <= |g.deps[n]|
  {
    forall d, m :: multiset(Followers(more, d))[m] ==
      (if m == n then multiset(g.deps[n][..j])[d] else multiset(Followers(outgoing, d))[m])
  }

  lemma AppendCounts(s: seq<string>, x: string, y: string)
    ensures multiset(s + [x])[y] == multiset(s)[y] + if x == y then 1 else 0
  {
  }

  lemma AddedStep(g: Graph, n: string, outgoing: map<string, seq<string>>, more: map<string, seq<string>>, j: nat)
    requires n in g.deps && j < |g.deps[n]| && Added(g, n, outgoing, more, j)
    ensures Added(g, n, outgoing, more[g.deps[n][j] := Followers(more, g.deps[n][j]) + [n]], j + 1)
  {
    var d := g.deps[n][j];
    var next := more[d := Followers(more, d) + [n]];
    forall x, m ensures multiset(Followers(next, x))[m] ==
      (if m == n then multiset(g.deps[n][..j + 1])[x] else multiset(Followers(outgoing, x))[m])
    {
      assert g.deps[n][..j + 1] == g.deps[n][..j] + [d];
      AppendCounts(g.deps[n][..j], d, x);
      AppendCounts(Followers(more, d), n, m);
      assert Followers(next, x) == if x == d then Followers(more, d) + [n] else Followers(more, x);
    }
  }

  lemma AllAdded(g: Graph, n: string, outgoing: map<string, seq<string>>, more: map<string, seq<string>>, counted: seq<string>)
    requires n in g.deps && n !in counted && Edges(g, outgoing, counted) && Added(g, n, outgoing, more, |g.deps[n]|)
    ensures Edges(g, more, counted + [n])
  {
    assert g.deps[n][..|g.deps[n]|] == g.deps[n];
  }

  method AddEdges(g: Graph, n: string, outgoing: map<string, seq<string>>, ghost counted: seq<string>)
    returns (more: map<string, seq<string>>)
    requires n in g.deps && n !in counted && Edges(g, outgoing, counted)
    ensures Edges(g, more, counted + [n])
  {
    more := outgoing;
    for j := 0 to |g.deps[n]|
      invariant Added(g, n, outgoing, more, j)
    {
      var d := g.deps[n][j];
      AddedStep(g, n, outgoing, more, j);
      more := more[d := Followers(more, d) + [n]];
    }
    AllAdded(g, n, outgoing, more, counted);
  }

  method BuildEdges(g: Graph) returns (r: Result<map<string, seq<string>>, GraphError>)
    requires WellFormed(g)
    ensures r.Ok? <==> Closed(g)
    ensures r.Ok? ==> Edges(g, r.value, g.nodes)
    ensures r.Err? ==> r.error == UnknownDependency
  {
    var outgoing: map<string, seq<string>> := map[];
    for i := 0 to |g.nodes|
      invariant Edges(g, outgoing, g.nodes[..i])
      invariant forall k :: 0 <= k < i ==> forall d :: d in g.deps[g.nodes[k]] ==> d in g.deps
    {
      var n := g.nodes[i];
      assert n in g.deps;
      if exists d :: d in g.deps[n] && d !in g.deps {
        return Err(UnknownDependency);
      }
      assert n !in g.nodes[..i];
      outgoing := AddEdges(g, n, outgoing, g.nodes[..i]);
      assert g.nodes[..i + 1] == g.nodes[..i] + [n];
    }
    assert g.nodes[..|g.nodes|] == g.nodes;
    r := Ok(outgoing);
  }

  /** The state between two nodes taken from the queue: an indegree is the number
      of dependencies not yet ordered, and the nodes with none left are exactly
      those ordered or queued. */
  ghost predicate Peeling(g: Graph, indegree: map<string, int>, ordered: seq<string>, queue: seq<string>)
  {
    && indegree.Keys == g.deps.Keys && Distinct(ordered + queue)
    && (forall n :: n in g.deps ==> indegree[n] == Pending(g.deps[n], Elements(ordered)))
    && (forall n :: n in ordered + queue <==> n in g.deps && indegree[n] == 0)
    && DependenciesFirst(g, ordered)
  }

  /** The nodes still waiting for a list of releases. */
  ghost predicate Releasing(g: Graph, indegree: map<string, int>, ordered: seq<string>, queue: seq<string>,
                            remaining: seq<string>)
  {
    && indegree.Keys == g.deps.Keys && Distinct(ordered + queue)
    && (forall n :: n in remaining ==> n in g.deps)
    && (forall n :: n in g.deps ==> indegree[n] == Pending(g.deps[n], Elements(ordered)) + multiset(remaining)[n])
    && (forall n :: n in ordered + queue <==> n in g.deps && indegree[n] == 0)
  }

  lemma HeadIsNew(ordered: seq<string>, queue: seq<string>)
    requires Distinct(ordered + queue) && queue != []
    ensures queue[0] !in ordered && queue[0] in ordered + queue
    ensures (ordered + [queue[0]]) + queue[1..] == ordered + queue
  {
    assert (ordered + queue)[|ordered|] == queue[0];
    forall i | 0 <= i < |ordered| ensures ordered[i] != queue[0] {
      assert (ordered + queue)[i] == ordered[i];
    }
  }

  lemma TakeFromQueue(g: Graph, outgoing: map<string, seq<string>>, indegree: map<string, int>, ordered: seq<string>,
                      queue: seq<string>)
    requires Edges(g, outgoing, g.nodes) && WellFormed(g) && queue != []
    requires Peeling(g, indegree, ordered, queue)
    ensures Releasing(g, indegree, ordered + [queue[0]], queue[1..], Followers(outgoing, queue[0]))
    ensures DependenciesFirst(g, ordered + [queue[0]])
  {
    var n, more := queue[0], ordered + [queue[0]];
    HeadIsNew(ordered, queue);
    forall m | m in g.deps
      ensures indegree[m] == Pending(g.deps[m], Elements(more)) + multiset(Followers(outgoing, n))[m]
    {
      OneMoreDone(g, outgoing, ordered, n, m);
    }
    FollowersAreNodes(g, outgoing, n);
    PendingZero(g.deps[n], Elements(ordered));
    OrderExtends(g, ordered, n);
  }

  lemma OneMoreDone(g: Graph, outgoing: map<string, seq<string>>, ordered: seq<string>, n: string, m: string)
    requires Edges(g, outgoing, g.nodes) && WellFormed(g) && n !in ordered && m in g.deps
    ensures Pending(g.deps[m], Elements(ordered)) ==
      Pending(g.deps[m], Elements(ordered + [n])) + multiset(Followers(outgoing, n))[m]
  {
    assert Elements(ordered + [n]) == Elements(ordered) + {n};
    PendingStep(g.deps[m], Elements(ordered), n);
  }

  lemma FollowersAreNodes(g: Graph, outgoing: map<string, seq<string>>, n: string)
    requires Edges(g, outgoing, g.nodes)
    ensures forall m :: m in Followers(outgoing, n) ==> m in g.deps
  {
    forall m | m in Followers(outgoing, n) ensures m in g.deps {
      assert multiset(Followers(outgoing, n))[m] > 0;
    }
  }

  lemma OrderExtends(g: Graph, ordered: seq<string>, n: string)
    requires DependenciesFirst(g, ordered) && n in g.deps && forall d :: d in g.deps[n] ==> d in ordered
    ensures DependenciesFirst(g, ordered + [n])
  {
    var more := ordered + [n];
    assert more[..|ordered|] == ordered;
    forall i | 0 <= i < |more| && more[i] in g.deps ensures forall d :: d in g.deps[more[i]] ==> d in more[..i] {
      if i < |ordered| { assert more[..i] == ordered[..i]; }
    }
  }

  lemma ReleaseOne(g: Graph, indegree: map<string, int>, ordered: seq<string>, queue: seq<string>, m: string, rest: seq<string>)
    requires Releasing(g, indegree, ordered, queue, [m] + rest)
    ensures m in indegree && m !in ordered + queue
    ensures Releasing(g, indegree[m := indegree[m] - 1], ordered, if indegree[m] == 1 then queue + [m] else queue, rest)
  {
    assert m in [m] + rest && multiset([m] + rest) == multiset{m} + multiset(rest);
    assert forall n :: n in rest ==> n in [m] + rest;
    assert m !in ordered + queue;
    assert ordered + (queue + [m]) == (ordered + queue) + [m];
  }

  /** The inner loop: every edge of the node just ordered is released once. */
  method Release(g: Graph, followers: seq<string>, before: map<string, int>, ghost ordered: seq<string>, waiting: seq<string>)
    returns (indegree: map<string, int>, queue: seq<string>)
    requires Releasing(g, before, ordered, waiting, followers)
    ensures Releasing(g, indegree, ordered, queue, [])
  {
    indegree, queue := before, waiting;
    assert followers[0..] == followers;
    for k := 0 to |followers|
      invariant Releasing(g, indegree, ordered, queue, followers[k..])
    {
      var m := followers[k];
      assert followers[k..] == [m] + followers[k + 1..];
      ReleaseOne(g, indegree, ordered, queue, m, followers[k + 1..]);
      indegree := indegree[m := indegree[m] - 1];
      if indegree[m] == 0 {
        queue := queue + [m];
      }
    }
    assert followers[|followers|..] == [];
  }

  /** What is left when the queue runs dry depends on what is left. */
  lemma LeftoverIsCyclic(g: Graph, indegree: map<string, int>, ordered: seq<string>, n: string)
    requires Closed(g) && Peeling(g, indegree, ordered, []) && n in g.deps && n !in ordered
    ensures Cyclic(g)
  {
    forall m | m in Leftover(g, ordered) ensures WaitsIn(g, Leftover(g, ordered), m) {
      LeftoverWaits(g, indegree, ordered, m);
    }
    SingletonPath(g, n);
    StuckIsCyclic(g, Leftover(g, ordered), [n]);
  }

  function Leftover(g: Graph, ordered: seq<string>): set<string>
  {
    g.deps.Keys - Elements(ordered)
  }

  lemma SingletonPath(g: Graph, n: string)
    requires n in g.deps
    ensures Path(g, [n])
  {
  }

  lemma LeftoverWaits(g: Graph, indegree: map<string, int>, ordered: seq<string>, n: string)
    requires Closed(g) && Peeling(g, indegree, ordered, []) && n in g.deps && n !in ordered
    ensures WaitsIn(g, Leftover(g, ordered), n)
  {
    assert n !in ordered + [];
    PendingZero(g.deps[n], Elements(ordered));
    var d :| d in g.deps[n] && d !in Elements(ordered);
    assert d in Leftover(g, ordered);
  }

  lemma InitialQueue(g: Graph, indegree: map<string, int>, queue: seq<string>)
    requires WellFormed(g) && indegree.Keys == g.deps.Keys && Distinct(queue)
    requires forall n :: n in g.deps ==> indegree[n] == |g.deps[n]|
    requires forall n :: n in queue <==> n in g.deps && indegree[n] == 0
    ensures Peeling(g, indegree, [], queue)
  {
    assert [] + queue == queue && Elements([]) == {};
    forall n | n in g.deps ensures indegree[n] == Pending(g.deps[n], {}) {
      PendingNothingDone(g.deps[n]);
    }
  }

  method Roots(g: Graph, indegree: map<string, int>) returns (queue: seq<string>)
    requires WellFormed(g) && indegree.Keys == g.deps.Keys
    ensures Distinct(queue) && forall n :: n in queue <==> n in g.deps && indegree[n] == 0
  {
    var found: seq<string> := [];
    for i := 0 to |g.nodes|
      invariant Distinct(found)
      invariant forall n :: n in found <==> n in g.nodes[..i] && indegree[n] == 0
    {
      assert g.nodes[i] in g.deps;
      assert g.nodes[..i + 1] == g.nodes[..i] + [g.nodes[i]];
      if indegree[g.nodes[i]] == 0 {
        found := found + [g.nodes[i]];
      }
    }
    assert g.nodes[..|g.nodes|] == g.nodes;
    queue := Sorted(found);
    SameElements(found, queue);
  }

  /** The common part of both programs: order nodes until none is left in the queue. */
  method Peel(g: Graph, outgoing: map<string, seq<string>>) returns (ordered: seq<string>)
    requires WellFormed(g) && Closed(g) && Edges(g, outgoing, g.nodes)
    ensures Distinct(ordered) && DependenciesFirst(g, ordered) && forall n :: n in ordered ==> n in g.deps
    ensures |ordered| == |g.deps| <==> Topological(g, ordered)
    ensures |ordered| == |g.deps| <==> !Cyclic(g)
  {
    var indegree := map n | n in g.deps :: |g.deps[n]|;
    var queue := Roots(g, indegree);
    ordered := [];
    InitialQueue(g, indegree, queue);
    while queue != []
      invariant Peeling(g, indegree, ordered, queue)
      decreases g.deps.Keys - Elements(ordered)
    {
      TakeFromQueue(g, outgoing, indegree, ordered, queue);
      HeadIsNew(ordered, queue);
      var n := queue[0];
      ghost var before := ordered;
      ordered, queue := ordered + [n], queue[1..];
      indegree, queue := Release(g, Followers(outgoing, n), indegree, ordered, queue);
      LessIsLeft(g, before, n);
      Released(g, indegree, ordered, queue);
    }
    assert ordered + [] == ordered;
    Verdict(g, indegree, ordered);
  }

  lemma Released(g: Graph, indegree: map<string, int>, ordered: seq<string>, queue: seq<string>)
    requires Releasing(g, indegree, ordered, queue, []) && DependenciesFirst(g, ordered)
    ensures Peeling(g, indegree, ordered, queue)
  {
    var none: seq<string> := [];
    assert multiset(none) == multiset{};
  }

  lemma LessIsLeft(g: Graph, ordered: seq<string>, n: string)
    requires n in g.deps && n !in ordered
    ensures g.deps.Keys - Elements(ordered + [n]) < g.deps.Keys - Elements(ordered)
  {
    assert n in g.deps.Keys - Elements(ordered) && n !in g.deps.Keys - Elements(ordered + [n]);
  }

  /** All nodes are ordered exactly when there is no cycle. */
  lemma Verdict(g: Graph, indegree: map<string, int>, ordered: seq<string>)
    requires WellFormed(g) && Closed(g) && Peeling(g, indegree, ordered, []) && ordered + [] == ordered
    ensures |ordered| == |g.deps| <==> Topological(g, ordered)
    ensures |ordered| == |g.deps| <==> !Cyclic(g)
  {
    Counted(g, ordered);
    if |ordered| == |g.deps| {
      OrderExcludesCycle(g, ordered);
    } else {
      var n :| n in g.deps && n !in ordered;
      LeftoverIsCyclic(g, indegree, ordered, n);
    }
  }

  lemma Counted(g: Graph, ordered: seq<string>)
    requires Distinct(ordered) && forall n :: n in ordered ==> n in g.deps
    ensures |ordered| == |g.deps| <==> forall n :: n in g.deps ==> n in ordered
  {
    DistinctSize(ordered);
    var rest := g.deps.Keys - Elements(ordered);
    assert g.deps.Keys == Elements(ordered) + rest;
    assert |g.deps.Keys| == |Elements(ordered)| + |rest|;
    if rest == {} {
    } else {
      var n :| n in rest;
      assert n in g.deps && n !in ordered;
    }
  }

  /** topological_order is exact: it answers for every acyclic closed graph, and
      then with a permutation that puts dependencies first. */
  method TopologicalOrder(g: Graph) returns (r: Result<seq<string>, GraphError>)
    requires WellFormed(g)
    ensures r.Ok? ==> Topological(g, r.value)
    ensures r.Ok? <==> Closed(g) && !Cyclic(g)
    ensures r == Err(DependencyCycle) <==> Closed(g) && Cyclic(g)
  {
    var edges := BuildEdges(g);
    if edges.Err? {
      return Err(edges.error);
    }
    var ordered := Peel(g, edges.value);
    r := if |ordered| != |g.deps| then Err(DependencyCycle) else Ok(ordered);
  }

  /** require_dag keeps only the number of visited nodes and accepts the same graphs. */
  method RequireDag(g: Graph) returns (r: Result<(), GraphError>)
    requires WellFormed(g)
    ensures r.Ok? <==> Closed(g) && !Cyclic(g)
    ensures r == Err(DependencyCycle) <==> Closed(g) && Cyclic(g)
  {
    var edges := BuildEdges(g);
    if edges.Err? {
      return Err(edges.error);
    }
    var ordered := Peel(g, edges.value);
    r := if |ordered| != |g.deps| then Err(DependencyCycle) else Ok(());
  }
}
