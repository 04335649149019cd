/**
 The plan's dependency analysis: Kahn's algorithm with a ready list kept in declaration order, then the
 longest-path table and the enumeration of every critical path.
 */
module DependencyGraph {
  import opened Collections
  import opened Digraph
  import opened Sorting

  // ---------- Adjacency ----------

  function Predecessors<T(==)>(edges: seq<(T, T)>, node: T): seq<T> {
    if edges == [] then []
    else
      var rest, last := Predecessors(edges[..|edges| - 1], node), edges[|edges| - 1];
      if last.1 == node then rest + [last.0] else rest
  }

  function Successors<T(==)>(edges: seq<(T, T)>, node: T): seq<T> {
    if edges == [] then []
    else
      var rest, last := Successors(edges[..|edges| - 1], node), edges[|edges| - 1];
      if last.0 == node then rest + [last.1] else rest
  }

  /** Both adjacency lists count every edge as often as the edge list does. */
  lemma {:induction false} AdjacencyCounts<T>(edges: seq<(T, T)>, a: T, b: T)
    ensures multiset(Predecessors(edges, b))[a] == multiset(edges)[(a, b)]
    ensures multiset(Successors(edges, a))[b] == multiset(edges)[(a, b)]
  {
    if edges == [] {
    } else {
      var front, last := edges[..|edges| - 1], edges[|edges| - 1];
      AdjacencyCounts(front, a, b);
      assert edges == front + [last];
    }
  }

  lemma PredecessorIffEdge<T>(edges: seq<(T, T)>, a: T, b: T)
    ensures a in Predecessors(edges, b) <==> (a, b) in edges
    ensures b in Successors(edges, a) <==> (a, b) in edges
  {
    AdjacencyCounts(edges, a, b);
    assert a in Predecessors(edges, b) <==> a in multiset(Predecessors(edges, b));
    assert b in Successors(edges, a) <==> b in multiset(Successors(edges, a));
    assert (a, b) in edges <==> (a, b) in multiset(edges);
  }

  predicate KnownEndpoints<T(==)>(nodes: seq<T>, edges: seq<(T, T)>) {
    forall e | e in edges :: e.0 in nodes && e.1 in nodes
  }

  ghost predicate Adjacency<T>(nodes: seq<T>, edges: seq<(T, T)>, predecessors: map<T, seq<T>>,
                               successors: map<T, seq<T>>)
  {
    && predecessors.Keys == successors.Keys == ToSet(nodes)
    && (forall n :: n in predecessors ==> predecessors[n] == Predecessors(edges, n))
    && (forall n :: n in successors ==> successors[n] == Successors(edges, n))
  }

  method BuildAdjacency<T(==, !new)>(nodes: seq<T>, edges: seq<(T, T)>)
    returns (known: bool, predecessors: map<T, seq<T>>, successors: map<T, seq<T>>)
    ensures known <==> KnownEndpoints(nodes, edges)
    ensures known ==> Adjacency(nodes, edges, predecessors, successors)
  {
    predecessors := map n | n in nodes :: [];
    successors := map n | n in nodes :: [];
    for k := 0 to |edges|
      invariant KnownEndpoints(nodes, edges[..k])
      invariant Adjacency(nodes, edges[..k], predecessors, successors)
    {
      var (source, target) := edges[k];
      assert edges[..k + 1][..k] == edges[..k];
      if source !in predecessors || target !in predecessors {
        return false, predecessors, successors;
      }
      predecessors := predecessors[target := predecessors[target] + [source]];
      successors := successors[source := successors[source] + [target]];
    }
    assert edges[..|edges|] == edges;
    known := true;
  }

  // ---------- Kahn's algorithm ----------

  /** `node_order`: the declared position of a node. */
  function Position<T(==)>(nodes: seq<T>, x: T): (k: nat)
    ensures k <= |nodes|
    ensures x in nodes ==> k < |nodes| && nodes[k] == x
  {
    if nodes == [] then 0 else if nodes[0] == x then 0 else 1 + Position(nodes[1..], x)
  }

  ghost predicate Eligible<T>(edges: seq<(T, T)>, done: seq<T>, n: T) {
    n !in done && forall e | e in edges && e.1 == n :: e.0 in done
  }

  /** Every element is the earliest declared node whose predecessors all stand before it. */
  ghost predicate GreedyOrder<T(!new)>(nodes: seq<T>, edges: seq<(T, T)>, order: seq<T>) {
    && NoDup(order)
    && (forall n :: n in order ==> n in nodes)
    && forall i :: 0 <= i < |order| ==> GreedyChoice(nodes, edges, order[..i], order[i])
  }

  ghost predicate GreedyChoice<T>(nodes: seq<T>, edges: seq<(T, T)>, done: seq<T>, n: T) {
    && Eligible(edges, done, n)
    && forall m | m in nodes && Eligible(edges, done, m) :: Position(nodes, n) <= Position(nodes, m)
  }

  /** The number of predecessor entries not yet placed: what the source's `indegree` holds. */
  ghost function Waiting<T>(predecessors: seq<T>, done: seq<T>): nat {
    if predecessors == [] then 0
    else Waiting(predecessors[1..], done) + if predecessors[0] in done then 0 else 1
  }

  lemma {:induction false} WaitingZero<T>(predecessors: seq<T>, done: seq<T>)
    ensures Waiting(predecessors, done) == 0 <==> forall p :: p in predecessors ==> p in done
  {
    if predecessors != [] {
      WaitingZero(predecessors[1..], done);
      assert predecessors == [predecessors[0]] + predecessors[1..];
      assert predecessors[0] in predecessors;
    }
  }

  lemma {:induction false} WaitingInitially<T>(predecessors: seq<T>)
    ensures Waiting(predecessors, []) == |predecessors|
  {
    if predecessors != [] {
      WaitingInitially(predecessors[1..]);
    }
  }

  lemma {:induction false} WaitingStep<T>(predecessors: seq<T>, done: seq<T>, node: T)
    requires node !in done
    ensures Waiting(predecessors, done + [node]) == Waiting(predecessors, done) - multiset(predecessors)[node]
  {
    if predecessors != [] {
      WaitingStep(predecessors[1..], done, node);
      assert predecessors == [predecessors[0]] + predecessors[1..];
      assert multiset(predecessors) == multiset{predecessors[0]} + multiset(predecessors[1..]);
    }
  }

  ghost predicate CanCountDown<T>(indegree: map<T, int>, ready: seq<T>, successors: seq<T>) {
    && (forall x :: x in successors ==> x in indegree)
    && (forall x :: x in indegree ==> multiset(successors)[x] <= indegree[x])
    && NoDup(ready) && (forall x :: x in ready ==> x !in successors)
  }

  ghost predicate CountedDown<T(!new)>(indegree: map<T, int>, ready: seq<T>, successors: seq<T>,
                                       indegree': map<T, int>, ready': seq<T>)
  {
    && indegree'.Keys == indegree.Keys
    && (forall x :: x in indegree ==> indegree'[x] == indegree[x] - multiset(successors)[x])
    && NoDup(ready')
    && (forall x :: x in ready' <==> x in ready || (x in successors && x in indegree && indegree'[x] == 0))
  }

  lemma CountOccurrence<T>(successors: seq<T>, j: nat, x: T)
    requires j < |successors|
    ensures multiset(successors[..j + 1])[x] == multiset(successors[..j])[x] + (if x == successors[j] then 1 else 0)
    ensures multiset(successors[..j + 1])[x] <= multiset(successors)[x]
    ensures x in successors[..j + 1] <==> x in successors[..j] || x == successors[j]
  {
    assert successors[..j + 1] == successors[..j] + [successors[j]];
    assert successors == successors[..j + 1] + successors[j + 1..];
  }

  lemma CountNothing<T(!new)>(indegree: map<T, int>, ready: seq<T>, successors: seq<T>)
    requires CanCountDown(indegree, ready, successors)
    ensures CountedDown(indegree, ready, successors[..0], indegree, ready)
  {
  }

  /** Counting one occurrence down. */
  lemma CountOne<T(!new)>(indegree: map<T, int>, ready: seq<T>, successors: seq<T>, j: nat, counted: map<T, int>,
                          listed: seq<T>)
    requires CanCountDown(indegree, ready, successors) && j < |successors|
    requires CountedDown(indegree, ready, successors[..j], counted, listed)
    ensures successors[j] in counted
    ensures var s := successors[j];
      var next := counted[s := counted[s] - 1];
      CountedDown(indegree, ready, successors[..j + 1], next, if next[s] == 0 then listed + [s] else listed)
  {
    var s := successors[j];
    assert s in successors;
    var next := counted[s := counted[s] - 1];
    var list := if next[s] == 0 then listed + [s] else listed;
    forall x | x in indegree ensures next[x] == indegree[x] - multiset(successors[..j + 1])[x] {
      CountOccurrence(successors, j, x);
    }
    CountOccurrence(successors, j, s);
    assert counted[s] > 0;
    assert s !in listed;
    forall x ensures x in list <==> x in ready || (x in successors[..j + 1] && x in indegree && next[x] == 0) {
      CountOccurrence(successors, j, x);
    }
  }

  /** The inner loop: every occurrence of a successor is counted down; who reaches zero becomes ready. */
  method CountDown<T(==, !new)>(indegree: map<T, int>, ready: seq<T>, successors: seq<T>)
    returns (indegree': map<T, int>, ready': seq<T>)
    requires CanCountDown(indegree, ready, successors)
    ensures CountedDown(indegree, ready, successors, indegree', ready')
  {
    hide CanCountDown, CountedDown;
    indegree', ready' := indegree, ready;
    CountNothing(indegree, ready, successors);
    for j := 0 to |successors|
      invariant CountedDown(indegree, ready, successors[..j], indegree', ready')
    {
      CountOne(indegree, ready, successors, j, indegree', ready');
      var s := successors[j];
      indegree' := indegree'[s := indegree'[s] - 1];
      if indegree'[s] == 0 {
        ready' := ready' + [s];
      }
    }
    assert successors[..|successors|] == successors;
  }

  ghost predicate KahnState<T(!new)>(nodes: seq<T>, edges: seq<(T, T)>, indegree: map<T, int>, ready: seq<T>,
                                     topological: seq<T>)
  {
    && GreedyOrder(nodes, edges, topological)
    && indegree.Keys == ToSet(nodes)
    && (forall n :: n in indegree ==> indegree[n] == Waiting(Predecessors(edges, n), topological))
    && NoDup(ready)
    && (forall n :: n in ready <==> n in nodes && n !in topological && indegree[n] == 0)
  }

  lemma EligibleIffZero<T(!new)>(nodes: seq<T>, edges: seq<(T, T)>, indegree: map<T, int>, ready: seq<T>,
                                 topological: seq<T>, n: T)
    requires KahnState(nodes, edges, indegree, ready, topological) && n in nodes
    ensures Eligible(edges, topological, n) <==> n in ready
  {
    WaitingZero(Predecessors(edges, n), topological);
    forall a ensures a in Predecessors(edges, n) <==> (a, n) in edges {
      PredecessorIffEdge(edges, a, n);
    }
  }

  lemma PlacedHaveNoWaiting<T(!new)>(nodes: seq<T>, edges: seq<(T, T)>, order: seq<T>, n: T)
    requires GreedyOrder(nodes, edges, order) && n in order
    ensures forall a :: (a, n) in edges ==> a in order
  {
    var i :| 0 <= i < |order| && order[i] == n;
    assert GreedyChoice(nodes, edges, order[..i], order[i]);
    forall a | (a, n) in edges ensures a in order {
      assert (a, n).1 == n;
      assert a in order[..i];
    }
  }

  lemma ExtendGreedyOrder<T(!new)>(nodes: seq<T>, edges: seq<(T, T)>, order: seq<T>, n: T)
    requires GreedyOrder(nodes, edges, order) && n in nodes && GreedyChoice(nodes, edges, order, n)
    ensures GreedyOrder(nodes, edges, order + [n])
  {
    var longer := order + [n];
    forall i | 0 <= i < |longer| ensures GreedyChoice(nodes, edges, longer[..i], longer[i]) {
      if i < |order| {
        assert longer[..i] == order[..i];
        assert GreedyChoice(nodes, edges, order[..i], order[i]);
      } else {
        assert longer[..i] == order;
      }
    }
  }

  method TopologicalOrder<T(==, !new)>(nodes: seq<T>, edges: seq<(T, T)>, predecessors: map<T, seq<T>>,
                                       successors: map<T, seq<T>>)
    returns (topological: seq<T>)
    requires NoDup(nodes) && KnownEndpoints(nodes, edges)
    requires Adjacency(nodes, edges, predecessors, successors)
    ensures GreedyOrder(nodes, edges, topological)
    ensures |topological| <= |nodes|
    ensures |topological| == |nodes| <==> !Cyclic(ToSet(edges))
    ensures |topological| == |nodes| ==> ToSet(topological) == ToSet(nodes)
  {
    var indegree: map<T, int> := map n | n in nodes :: |predecessors[n]|;
    var ready := Filter(nodes, n => n in indegree && indegree[n] == 0);
    topological := [];
    KahnStart(nodes, edges, indegree, ready);
    while ready != []
      invariant KahnState(nodes, edges, indegree, ready, topological)
      decreases |nodes| - |topological|
    {
      ready := SortByPosition(nodes, edges, indegree, ready, topological);
      var node := ready[0];
      indegree, ready := PlaceFirst(nodes, edges, indegree, ready, topological, successors[node]);
      topological := topological + [node];
    }
    KahnDone(nodes, edges, indegree, topological);
  }

  method PlaceFirst<T(==, !new)>(ghost nodes: seq<T>, ghost edges: seq<(T, T)>, indegree: map<T, int>, ready: seq<T>,
                                 ghost topological: seq<T>, successors: seq<T>)
    returns (indegree': map<T, int>, ready': seq<T>)
    requires NoDup(nodes) && KahnState(nodes, edges, indegree, ready, topological) && ready != []
    requires GreedyOrder(nodes, edges, topological + [ready[0]])
    requires KnownEndpoints(nodes, edges) && successors == Successors(edges, ready[0])
    ensures KahnState(nodes, edges, indegree', ready', topological + [ready[0]])
    ensures |topological| < |nodes|
  {
    KahnStep(nodes, edges, indegree, ready, topological);
    indegree', ready' := CountDown(indegree, ready[1..], successors);
    KahnAdvance(nodes, edges, indegree, ready, topological, indegree', ready');
  }

  lemma KahnStart<T(!new)>(nodes: seq<T>, edges: seq<(T, T)>, indegree: map<T, int>, ready: seq<T>)
    requires NoDup(nodes) && indegree.Keys == ToSet(nodes)
    requires forall n :: n in nodes ==> indegree[n] == |Predecessors(edges, n)|
    requires ready == Filter(nodes, n => n in indegree && indegree[n] == 0)
    ensures KahnState(nodes, edges, indegree, ready, [])
  {
    FilterNoDup(nodes, n => n in indegree && indegree[n] == 0);
    forall n | n in nodes ensures indegree[n] == Waiting(Predecessors(edges, n), []) {
      WaitingInitially(Predecessors(edges, n));
    }
  }

  /** `ready.sort(key=node_order.__getitem__)`. */
  method SortByPosition<T(==, !new)>(nodes: seq<T>, ghost edges: seq<(T, T)>, ghost indegree: map<T, int>,
                                     ready: seq<T>, ghost topological: seq<T>)
    returns (sorted: seq<T>)
    requires KahnState(nodes, edges, indegree, ready, topological) && ready != []
    ensures KahnState(nodes, edges, indegree, sorted, topological) && sorted != []
    ensures GreedyChoice(nodes, edges, topological, sorted[0])
    ensures GreedyOrder(nodes, edges, topological + [sorted[0]])
  {
    var earlier := (a: T, b: T) => Position(nodes, a) <= Position(nodes, b);
    sorted := Sort(earlier, ready);
    SortCorrect(earlier, ready);
    SortKeepsState(ready, sorted);
    KahnChoice(nodes, edges, indegree, sorted, topological);
  }

  lemma SortKeepsState<T>(before: seq<T>, after: seq<T>)
    requires multiset(before) == multiset(after)
    ensures |before| == |after|
    ensures NoDup(before) ==> NoDup(after)
    ensures forall x :: x in before <==> x in after
  {
    assert |multiset(before)| == |before| && |multiset(after)| == |after|;
    forall x ensures x in before <==> x in after {
      assert x in before <==> x in multiset(before);
      assert x in after <==> x in multiset(after);
    }
    if NoDup(before) {
      NoDupCardinality(before);
      assert ToSet(before) == ToSet(after);
      CardinalityNoDup(after);
    }
  }

  lemma KahnChoice<T(!new)>(nodes: seq<T>, edges: seq<(T, T)>, indegree: map<T, int>, ready: seq<T>,
                            topological: seq<T>)
    requires KahnState(nodes, edges, indegree, ready, topological) && ready != []
    requires Sorted((a, b) => Position(nodes, a) <= Position(nodes, b), ready)
    ensures GreedyChoice(nodes, edges, topological, ready[0])
    ensures GreedyOrder(nodes, edges, topological + [ready[0]])
  {
    var node := ready[0];
    EligibleIffZero(nodes, edges, indegree, ready, topological, node);
    forall m | m in nodes && Eligible(edges, topological, m)
      ensures Position(nodes, node) <= Position(nodes, m)
    {
      EligibleIffZero(nodes, edges, indegree, ready, topological, m);
    }
    ExtendGreedyOrder(nodes, edges, topological, node);
  }

  /** Placing `node` releases exactly its outgoing edges. */
  lemma KahnStep<T(!new)>(nodes: seq<T>, edges: seq<(T, T)>, indegree: map<T, int>, ready: seq<T>,
                          topological: seq<T>)
    requires KahnState(nodes, edges, indegree, ready, topological) && ready != []
    requires GreedyOrder(nodes, edges, topological + [ready[0]]) && KnownEndpoints(nodes, edges)
    ensures forall n :: n in nodes ==>
      Waiting(Predecessors(edges, n), topological + [ready[0]])
        == indegree[n] - multiset(Successors(edges, ready[0]))[n]
    ensures forall n :: n in nodes && (n in topological || n in ready) ==> n !in Successors(edges, ready[0])
    ensures CanCountDown(indegree, ready[1..], Successors(edges, ready[0]))
  {
    var node := ready[0];
    forall n | n in nodes
      ensures 0 <= multiset(Successors(edges, node))[n] <= indegree[n]
      ensures Waiting(Predecessors(edges, n), topological + [node])
        == indegree[n] - multiset(Successors(edges, node))[n]
      ensures (n in topological || n in ready) ==> n !in Successors(edges, node)
    {
      WaitingStep(Predecessors(edges, n), topological, node);
      AdjacencyCounts(edges, node, n);
      PredecessorIffEdge(edges, node, n);
      if n in topological {
        PlacedHaveNoWaiting(nodes, edges, topological, n);
      } else if n in ready {
        EligibleIffZero(nodes, edges, indegree, ready, topological, n);
        assert (node, n).1 == n;
      }
    }
    forall n | n in Successors(edges, node) ensures n in nodes {
      PredecessorIffEdge(edges, node, n);
    }
  }

  lemma KahnAdvance<T(!new)>(nodes: seq<T>, edges: seq<(T, T)>, indegree: map<T, int>, ready: seq<T>,
                             topological: seq<T>, indegree': map<T, int>, ready': seq<T>)
    requires NoDup(nodes)
    requires KahnState(nodes, edges, indegree, ready, topological) && ready != []
    requires GreedyOrder(nodes, edges, topological + [ready[0]])
    requires forall n :: n in nodes ==>
      Waiting(Predecessors(edges, n), topological + [ready[0]])
        == indegree[n] - multiset(Successors(edges, ready[0]))[n]
    requires forall n :: n in nodes && (n in topological || n in ready) ==> n !in Successors(edges, ready[0])
    requires CountedDown(indegree, ready[1..], Successors(edges, ready[0]), indegree', ready')
    ensures KahnState(nodes, edges, indegree', ready', topological + [ready[0]])
    ensures |topological| < |nodes|
  {
    var node := ready[0];
    assert ready == [node] + ready[1..];
    forall n ensures n in ready' <==> n in nodes && n !in topological + [node] && indegree'[n] == 0 {
      if n in nodes && n !in Successors(edges, node) {
        assert multiset(Successors(edges, node))[n] == 0;
      }
    }
    NoDupCovers(topological + [node], ToSet(nodes));
    NoDupCardinality(nodes);
  }

  lemma GreedyRespects<T(!new)>(nodes: seq<T>, edges: seq<(T, T)>, order: seq<T>)
    requires GreedyOrder(nodes, edges, order)
    ensures Respects(ToSet(edges), order)
  {
    forall i, j | 0 <= i < |order| && 0 <= j < |order| && (order[i], order[j]) in ToSet(edges) ensures i < j {
      assert GreedyChoice(nodes, edges, order[..j], order[j]);
      assert (order[i], order[j]).1 == order[j];
      assert order[i] in order[..j];
    }
  }

  lemma KahnDone<T(!new)>(nodes: seq<T>, edges: seq<(T, T)>, indegree: map<T, int>, topological: seq<T>)
    requires NoDup(nodes) && KnownEndpoints(nodes, edges)
    requires KahnState(nodes, edges, indegree, [], topological)
    ensures |topological| <= |nodes|
    ensures |topological| == |nodes| <==> !Cyclic(ToSet(edges))
    ensures |topological| == |nodes| ==> ToSet(topological) == ToSet(nodes)
  {
    NoDupCovers(topological, ToSet(nodes));
    NoDupCardinality(nodes);
    if |topological| == |nodes| {
      KahnComplete(nodes, edges, topological);
    } else {
      KahnStuck(nodes, edges, indegree, topological);
    }
  }

  lemma KahnComplete<T(!new)>(nodes: seq<T>, edges: seq<(T, T)>, topological: seq<T>)
    requires KnownEndpoints(nodes, edges) && GreedyOrder(nodes, edges, topological)
    requires ToSet(topological) == ToSet(nodes)
    ensures !Cyclic(ToSet(edges))
  {
    GreedyRespects(nodes, edges, topological);
    forall a, b | (a, b) in ToSet(edges) ensures a in topological && b in topological {
      assert (a, b) in edges;
      assert a in ToSet(nodes) && b in ToSet(nodes);
      assert a in ToSet(topological) && b in ToSet(topological);
    }
    OrderedIsAcyclic(ToSet(edges), topological);
  }

  lemma KahnStuck<T(!new)>(nodes: seq<T>, edges: seq<(T, T)>, indegree: map<T, int>, topological: seq<T>)
    requires NoDup(nodes) && KnownEndpoints(nodes, edges)
    requires KahnState(nodes, edges, indegree, [], topological)
    requires |topological| < |nodes|
    ensures Cyclic(ToSet(edges))
  {
    var rest := set n | n in nodes && n !in topological;
    if rest == {} {
      forall n | n in nodes ensures n in topological {
        assert n !in rest;
      }
      SubsetCardinality(ToSet(nodes), ToSet(topological));
      NoDupCardinality(nodes);
      CardinalityNoDup(topological);
    }
    forall n | n in rest ensures HasPredecessorIn(ToSet(edges), rest, n) {
      EligibleIffZero(nodes, edges, indegree, [], topological, n);
      var e :| e in edges && e.1 == n && e.0 !in topological;
      assert (e.0, n) in ToSet(edges) && e.0 in rest;
    }
    StuckIsCyclic(ToSet(edges), rest);
  }

  /** A linear extension of the whole graph: every node once, every edge forwards. */
  ghost predicate LinearExtension<T>(nodes: seq<T>, edges: seq<(T, T)>, order: seq<T>) {
    && NoDup(order) && |order| == |nodes|
    && (forall n :: n in order ==> n in nodes)
    && Respects(ToSet(edges), order)
  }

  /** Kahn's order is a linear extension, and no other one is lexicographically smaller by declared position. */
  lemma GreedyIsLexicographicallyLeast<T(!new)>(nodes: seq<T>, edges: seq<(T, T)>, order: seq<T>, other: seq<T>)
    requires KnownEndpoints(nodes, edges) && NoDup(nodes)
    requires GreedyOrder(nodes, edges, order) && |order| == |nodes|
    requires LinearExtension(nodes, edges, other)
    ensures LinearExtension(nodes, edges, order)
    ensures order == other || exists i ::
      && 0 <= i < |order| && order[..i] == other[..i]
      && Position(nodes, order[i]) < Position(nodes, other[i])
  {
    hide Respects, GreedyOrder, GreedyChoice, LinearExtension, Eligible;
    GreedyIsExtension(nodes, edges, order);
    if order != other {
      LinearExtensionFacts(nodes, edges, order);
      LinearExtensionFacts(nodes, edges, other);
      var i := FirstDifference(order, other);
      PrefixLeavesEligible(nodes, edges, other, i);
      ChosenIsFirst(nodes, edges, order, i, other[i]);
      PositionsDiffer(nodes, order[i], other[i]);
    }
  }

  lemma GreedyIsExtension<T(!new)>(nodes: seq<T>, edges: seq<(T, T)>, order: seq<T>)
    requires KnownEndpoints(nodes, edges) && NoDup(nodes) && GreedyOrder(nodes, edges, order) && |order| == |nodes|
    ensures LinearExtension(nodes, edges, order)
  {
    GreedyRespects(nodes, edges, order);
    hide Respects, GreedyChoice;
  }

  lemma LinearExtensionFacts<T>(nodes: seq<T>, edges: seq<(T, T)>, order: seq<T>)
    requires LinearExtension(nodes, edges, order)
    ensures NoDup(order) && |order| == |nodes| && forall n :: n in order ==> n in nodes
  {
  }

  /** What Kahn's loop chose comes no later than anything else it could have chosen. */
  lemma ChosenIsFirst<T(!new)>(nodes: seq<T>, edges: seq<(T, T)>, order: seq<T>, i: nat, n: T)
    requires GreedyOrder(nodes, edges, order) && i < |order| && n in nodes
    requires Eligible(edges, order[..i], n)
    ensures order[i] in nodes && Position(nodes, order[i]) <= Position(nodes, n)
  {
    assert GreedyChoice(nodes, edges, order[..i], order[i]);
    hide GreedyOrder;
  }

  lemma PositionsDiffer<T>(nodes: seq<T>, a: T, b: T)
    requires a in nodes && b in nodes && a != b
    ensures Position(nodes, a) != Position(nodes, b)
  {
    assert nodes[Position(nodes, a)] == a && nodes[Position(nodes, b)] == b;
  }

  lemma PrefixLeavesEligible<T(!new)>(nodes: seq<T>, edges: seq<(T, T)>, order: seq<T>, i: nat)
    requires KnownEndpoints(nodes, edges) && NoDup(nodes)
    requires LinearExtension(nodes, edges, order) && i < |order|
    ensures Eligible(edges, order[..i], order[i])
  {
    NoDupCovers(order, ToSet(nodes));
    NoDupCardinality(nodes);
    forall e | e in edges && e.1 == order[i] ensures e.0 in order[..i] {
      assert e.0 in ToSet(order);
      var k :| 0 <= k < |order| && order[k] == e.0;
      assert (order[k], order[i]) == e;
      assert (order[k], order[i]) in ToSet(edges);
      assert order[k] in order[..i];
    }
  }

  lemma FirstDifference<T>(a: seq<T>, b: seq<T>) returns (i: nat)
    requires |a| == |b| && a != b
    ensures i < |a| && a[..i] == b[..i] && a[i] != b[i]
  {
    i :| 0 <= i < |a| && a[i] != b[i];
    while exists j :: 0 <= j < i && a[j] != b[j]
      invariant i < |a| && a[i] != b[i]
      decreases i
    {
      var j :| 0 <= j < i && a[j] != b[j];
      i := j;
    }
  }
}
