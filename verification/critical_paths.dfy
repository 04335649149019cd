/**
 The longest-path table over a topological order and the enumeration of every critical path.
 Parallel edges are allowed: a path is then listed once for every way of choosing its edges.
 */
module CriticalPaths {
  import opened Collections
  import opened Digraph
  import opened DependencyGraph
  import opened Sorting

  ghost predicate EndsAt<T>(edges: seq<(T, T)>, p: seq<T>, node: T) {
    IsWalk(ToSet(edges), p) && p[|p| - 1] == node
  }

  /** The number of edge choices along a path: 1 for every path when the edges are distinct. */
  ghost function Weight<T>(edges: seq<(T, T)>, p: seq<T>): nat {
    if |p| < 2 then 1 else Weight(edges, p[..|p| - 1]) * multiset(edges)[(p[|p| - 2], p[|p| - 1])]
  }

  lemma {:induction false} WeightOfDistinctEdges<T>(edges: seq<(T, T)>, p: seq<T>)
    requires NoDup(edges) && IsWalk(ToSet(edges), p)
    ensures Weight(edges, p) == 1
  {
    if |p| >= 2 {
      var front := p[..|p| - 1];
      forall i | 0 <= i < |front| - 1 ensures (front[i], front[i + 1]) in ToSet(edges) {
        assert (p[i], p[i + 1]) in ToSet(edges);
      }
      WeightOfDistinctEdges(edges, front);
      assert (p[|p| - 2], p[|p| - 2 + 1]) in ToSet(edges);
      NoDupMultiplicity(edges, (p[|p| - 2], p[|p| - 1]));
    }
  }

  ghost predicate LongestTo<T(!new)>(edges: seq<(T, T)>, node: T, length: nat) {
    && (exists p :: EndsAt(edges, p, node) && |p| == length)
    && forall p :: EndsAt(edges, p, node) ==> |p| <= length
  }

  /** `paths` holds exactly the longest paths into `node`, each with its multiplicity. */
  ghost predicate ListsLongest<T(!new)>(edges: seq<(T, T)>, node: T, length: nat, paths: seq<seq<T>>) {
    && LongestTo(edges, node, length)
    && forall p {:trigger multiset(paths)[p]} ::
         multiset(paths)[p] == if EndsAt(edges, p, node) && |p| == length then Weight(edges, p) else 0
  }

  // ---------- The recurrence ----------

  /** `max(table[parent] for parent in parents)`. */
  function MaxOf<T(==)>(table: map<T, nat>, parents: seq<T>): (m: nat)
    requires parents != [] && forall p :: p in parents ==> p in table
    ensures exists p :: p in parents && table[p] == m
    ensures forall p :: p in parents ==> table[p] <= m
  {
    assert parents == [parents[0]] + parents[1..];
    if |parents| == 1 then table[parents[0]]
    else
      var rest := MaxOf(table, parents[1..]);
      if table[parents[0]] >= rest then table[parents[0]] else rest
  }

  /** `[path + [node] for path in paths]`. */
  function Appended<T>(paths: seq<seq<T>>, node: T): seq<seq<T>> {
    if paths == [] then [] else [paths[0] + [node]] + Appended(paths[1..], node)
  }

  /** What one parent contributes to the path comprehension. */
  function ParentPaths<T(==)>(head: T, lengths: map<T, nat>, paths: map<T, seq<seq<T>>>, best: nat, node: T)
    : seq<seq<T>>
    requires head in lengths && head in paths
  {
    if lengths[head] == best then Appended(paths[head], node) else []
  }

  /** The path comprehension over the parents whose length is the best one. */
  function ExtendPaths<T(==)>(parents: seq<T>, lengths: map<T, nat>, paths: map<T, seq<seq<T>>>, best: nat, node: T)
    : seq<seq<T>>
    requires forall p :: p in parents ==> p in lengths && p in paths
  {
    if parents == [] then []
    else
      ParentPaths(parents[0], lengths, paths, best, node)
      + ExtendPaths(parents[1..], lengths, paths, best, node)
  }

  lemma {:induction false} AppendedCount<T>(paths: seq<seq<T>>, node: T, q: seq<T>)
    ensures multiset(Appended(paths, node))[q] ==
      if q != [] && q[|q| - 1] == node then multiset(paths)[q[..|q| - 1]] else 0
  {
    if paths == [] {
    } else {
      AppendedCount(paths[1..], node, q);
      assert paths == [paths[0]] + paths[1..];
      var head := paths[0] + [node];
      if q != [] && q[|q| - 1] == node {
        assert q == q[..|q| - 1] + [node];
        assert head[..|head| - 1] == paths[0];
        assert q == head <==> q[..|q| - 1] == paths[0];
      }
    }
  }

  ghost predicate PathsEndAtTheirKey<T>(paths: map<T, seq<seq<T>>>) {
    forall n, p :: n in paths && p in paths[n] ==> p != [] && p[|p| - 1] == n
  }

  lemma {:induction false} ExtendCount<T>(parents: seq<T>, lengths: map<T, nat>, paths: map<T, seq<seq<T>>>,
                                          best: nat, node: T, q: seq<T>)
    requires forall p :: p in parents ==> p in lengths && p in paths
    requires PathsEndAtTheirKey(paths)
    ensures multiset(ExtendPaths(parents, lengths, paths, best, node))[q] ==
      if |q| >= 2 && q[|q| - 1] == node && q[|q| - 2] in parents && lengths[q[|q| - 2]] == best
      then multiset(paths[q[|q| - 2]])[q[..|q| - 1]] * multiset(parents)[q[|q| - 2]]
      else 0
  {
    if parents == [] {
    } else {
      hide PathsEndAtTheirKey;
      ExtendCount(parents[1..], lengths, paths, best, node, q);
      ParentCount(parents[0], lengths, paths, best, node, q);
      hide ExtendPaths;
      ExtendUnfold(parents, lengths, paths, best, node, q);
      if |q| >= 2 && q[|q| - 2] in parents {
        CountHead(multiset(paths[q[|q| - 2]])[q[..|q| - 1]], parents, q[|q| - 2]);
      }
    }
  }

  lemma ExtendUnfold<T>(parents: seq<T>, lengths: map<T, nat>, paths: map<T, seq<seq<T>>>, best: nat, node: T,
                        q: seq<T>)
    requires parents != [] && forall p :: p in parents ==> p in lengths && p in paths
    ensures multiset(ExtendPaths(parents, lengths, paths, best, node))[q]
      == multiset(ParentPaths(parents[0], lengths, paths, best, node))[q]
      + multiset(ExtendPaths(parents[1..], lengths, paths, best, node))[q]
  {
  }

  lemma ParentCount<T>(head: T, lengths: map<T, nat>, paths: map<T, seq<seq<T>>>, best: nat, node: T, q: seq<T>)
    requires head in lengths && head in paths && PathsEndAtTheirKey(paths)
    ensures multiset(ParentPaths(head, lengths, paths, best, node))[q] ==
      if |q| >= 2 && q[|q| - 1] == node && q[|q| - 2] == head && lengths[head] == best
      then multiset(paths[head])[q[..|q| - 1]] else 0
  {
    AppendedCount(paths[head], node, q);
    if q != [] && q[..|q| - 1] in paths[head] {
      var front := q[..|q| - 1];
      assert front != [] && front[|front| - 1] == head;
    }
  }

  lemma CountHead<T>(m: nat, parents: seq<T>, x: T)
    requires parents != []
    ensures m * multiset(parents)[x] == m * multiset(parents[1..])[x] + if parents[0] == x then m else 0
  {
    assert parents == [parents[0]] + parents[1..];
    assert multiset(parents)[x] == multiset(parents[1..])[x] + if parents[0] == x then 1 else 0;
  }

  // ---------- The table ----------

  ghost predicate TableFor<T(!new)>(edges: seq<(T, T)>, done: seq<T>, earliest: map<T, nat>, lengths: map<T, nat>,
                                    paths: map<T, seq<seq<T>>>)
  {
    && earliest.Keys == lengths.Keys == paths.Keys == ToSet(done)
    && (forall n :: n in lengths ==> earliest[n] + 1 == lengths[n])
    && (forall n :: n in lengths ==> ListsLongest(edges, n, lengths[n], paths[n]))
  }

  lemma TablePathsEndAtTheirKey<T(!new)>(edges: seq<(T, T)>, done: seq<T>, earliest: map<T, nat>,
                                         lengths: map<T, nat>, paths: map<T, seq<seq<T>>>)
    requires TableFor(edges, done, earliest, lengths, paths)
    ensures PathsEndAtTheirKey(paths)
  {
    forall n, p | n in paths && p in paths[n] ensures p != [] && p[|p| - 1] == n {
      assert ListsLongest(edges, n, lengths[n], paths[n]);
      assert p in multiset(paths[n]);
    }
  }

  lemma FrontOfPath<T(!new)>(edges: seq<(T, T)>, p: seq<T>, node: T)
    requires |p| >= 2
    ensures EndsAt(edges, p, node) <==>
      p[|p| - 1] == node && (p[|p| - 2], node) in edges && EndsAt(edges, p[..|p| - 1], p[|p| - 2])
  {
    var front := p[..|p| - 1];
    if EndsAt(edges, p, node) {
      assert (p[|p| - 2], p[|p| - 2 + 1]) in ToSet(edges);
      forall i | 0 <= i < |front| - 1 ensures (front[i], front[i + 1]) in ToSet(edges) {
        assert (p[i], p[i + 1]) in ToSet(edges);
      }
    }
    if p[|p| - 1] == node && (p[|p| - 2], node) in edges && EndsAt(edges, front, p[|p| - 2]) {
      forall i | 0 <= i < |p| - 1 ensures (p[i], p[i + 1]) in ToSet(edges) {
        if i < |front| - 1 {
          assert (front[i], front[i + 1]) in ToSet(edges);
        }
      }
    }
  }

  lemma SourceRow<T(!new)>(edges: seq<(T, T)>, node: T)
    requires forall e :: e in edges ==> e.1 != node
    ensures ListsLongest(edges, node, 1, [[node]])
  {
    assert EndsAt(edges, [node], node);
    forall p | EndsAt(edges, p, node) ensures p == [node] {
      if |p| >= 2 {
        FrontOfPath(edges, p, node);
        assert false;
      }
    }
  }

  /** One path into `node`, split into its front (a path into a parent) and its last edge. */
  lemma InnerPath<T(!new)>(edges: seq<(T, T)>, node: T, best: nat, p: seq<T>, length: nat, paths: seq<seq<T>>)
    requires |p| >= 2
    requires p[|p| - 2] in Predecessors(edges, node) ==>
      ListsLongest(edges, p[|p| - 2], length, paths) && length <= best
    ensures EndsAt(edges, p, node) ==> |p| <= best + 1
    ensures
      (if p[|p| - 1] == node && p[|p| - 2] in Predecessors(edges, node) && length == best
       then multiset(paths)[p[..|p| - 1]] * multiset(Predecessors(edges, node))[p[|p| - 2]] else 0)
      == if EndsAt(edges, p, node) && |p| == best + 1 then Weight(edges, p) else 0
  {
    var parent, front := p[|p| - 2], p[..|p| - 1];
    FrontOfPath(edges, p, node);
    PredecessorIffEdge(edges, parent, node);
    AdjacencyCounts(edges, parent, node);
  }

  ghost predicate RowsKnown<T(!new)>(edges: seq<(T, T)>, parents: seq<T>, lengths: map<T, nat>,
                                     paths: map<T, seq<seq<T>>>)
  {
    && (forall p :: p in parents ==> p in lengths && p in paths)
    && (forall p :: p in parents ==> ListsLongest(edges, p, lengths[p], paths[p]))
  }

  lemma RowCounts<T(!new)>(edges: seq<(T, T)>, lengths: map<T, nat>, paths: map<T, seq<seq<T>>>, node: T, best: nat,
                           p: seq<T>)
    requires RowsKnown(edges, Predecessors(edges, node), lengths, paths) && PathsEndAtTheirKey(paths)
    requires forall a :: a in Predecessors(edges, node) ==> lengths[a] <= best
    requires Predecessors(edges, node) != [] && best >= 1
    ensures EndsAt(edges, p, node) ==> |p| <= best + 1
    ensures multiset(ExtendPaths(Predecessors(edges, node), lengths, paths, best, node))[p] ==
      if EndsAt(edges, p, node) && |p| == best + 1 then Weight(edges, p) else 0
  {
    ExtendCount(Predecessors(edges, node), lengths, paths, best, node, p);
    if |p| >= 2 {
      var parent := p[|p| - 2];
      if parent in Predecessors(edges, node) {
        InnerPath(edges, node, best, p, lengths[parent], paths[parent]);
      } else {
        InnerPath(edges, node, best, p, 0, []);
      }
    }
  }

  /** A longest path into the best predecessor, extended by the node. */
  lemma InnerLongest<T(!new)>(edges: seq<(T, T)>, lengths: map<T, nat>, paths: map<T, seq<seq<T>>>, node: T, best: nat)
    requires Predecessors(edges, node) != []
    requires RowsKnown(edges, Predecessors(edges, node), lengths, paths)
    requires best == MaxOf(lengths, Predecessors(edges, node))
    ensures best >= 1 && exists p :: EndsAt(edges, p, node) && |p| == best + 1
  {
    hide MaxOf, Predecessors;
    var parent :| parent in Predecessors(edges, node) && lengths[parent] == best;
    assert ListsLongest(edges, parent, lengths[parent], paths[parent]);
    var p :| EndsAt(edges, p, parent) && |p| == best;
    var longest := p + [node];
    assert longest[..|longest| - 1] == p;
    PredecessorIffEdge(edges, parent, node);
    FrontOfPath(edges, longest, node);
    assert EndsAt(edges, longest, node);
  }

  /** The row computed from the predecessors' rows lists exactly the longest paths into `node`. */
  lemma InnerRow<T(!new)>(edges: seq<(T, T)>, lengths: map<T, nat>, paths: map<T, seq<seq<T>>>, node: T, best: nat)
    requires Predecessors(edges, node) != []
    requires RowsKnown(edges, Predecessors(edges, node), lengths, paths) && PathsEndAtTheirKey(paths)
    requires best == MaxOf(lengths, Predecessors(edges, node))
    ensures ListsLongest(edges, node, best + 1, ExtendPaths(Predecessors(edges, node), lengths, paths, best, node))
  {
    InnerLongest(edges, lengths, paths, node, best);
    hide EndsAt, ExtendPaths, PathsEndAtTheirKey, RowsKnown, Weight, Predecessors;
    var row := ExtendPaths(Predecessors(edges, node), lengths, paths, best, node);
    forall q
      ensures EndsAt(edges, q, node) ==> |q| <= best + 1
      ensures multiset(row)[q] == if EndsAt(edges, q, node) && |q| == best + 1 then Weight(edges, q) else 0
    {
      RowCounts(edges, lengths, paths, node, best, q);
    }
  }

  method LongestPaths<T(==, !new)>(nodes: seq<T>, edges: seq<(T, T)>, predecessors: map<T, seq<T>>,
                                   topological: seq<T>)
    returns (earliest: map<T, nat>, lengths: map<T, nat>, paths: map<T, seq<seq<T>>>)
    requires predecessors.Keys == ToSet(nodes) && ToSet(topological) == ToSet(nodes)
    requires forall n :: n in predecessors ==> predecessors[n] == Predecessors(edges, n)
    requires GreedyOrder(nodes, edges, topological)
    ensures TableFor(edges, topological, earliest, lengths, paths)
  {
    earliest, lengths, paths := map[], map[], map[];
    assert TableFor(edges, topological[..0], earliest, lengths, paths);
    hide TableFor, ListsLongest, GreedyOrder, Predecessors;
    for k := 0 to |topological|
      invariant TableFor(edges, topological[..k], earliest, lengths, paths)
    {
      var node := topological[k];
      assert topological[..k + 1] == topological[..k] + [node];
      PredecessorsAreDone(nodes, edges, topological, k);
      assert predecessors[node] == Predecessors(edges, node);
      var wave, length, row := TableRow(edges, topological[..k], earliest, lengths, paths, node, predecessors[node]);
      ExtendTable(edges, topological[..k], earliest, lengths, paths, node, wave, length, row);
      earliest, lengths, paths := earliest[node := wave], lengths[node := length], paths[node := row];
    }
    assert topological[..|topological|] == topological;
  }

  /** One turn of the table loop. */
  method TableRow<T(==, !new)>(ghost edges: seq<(T, T)>, ghost done: seq<T>, earliest: map<T, nat>,
                               lengths: map<T, nat>,
                               paths: map<T, seq<seq<T>>>, node: T, parents: seq<T>)
    returns (wave: nat, length: nat, row: seq<seq<T>>)
    requires TableFor(edges, done, earliest, lengths, paths)
    requires parents == Predecessors(edges, node) && forall p :: p in parents ==> p in done
    ensures wave + 1 == length && ListsLongest(edges, node, length, row)
  {
    if parents == [] {
      NoEdgeInto(edges, node);
      SourceRow(edges, node);
      return 0, 1, [[node]];
    }
    TableKnows(edges, done, earliest, lengths, paths, parents);
    var parentLength := MaxOf(lengths, parents);
    InnerRow(edges, lengths, paths, node, parentLength);
    return MaxOf(earliest, parents) + 1, parentLength + 1, ExtendPaths(parents, lengths, paths, parentLength, node);
  }

  lemma NoEdgeInto<T>(edges: seq<(T, T)>, node: T)
    requires Predecessors(edges, node) == []
    ensures forall e :: e in edges ==> e.1 != node
  {
    forall e | e in edges ensures e.1 != node {
      PredecessorIffEdge(edges, e.0, e.1);
    }
  }

  lemma ExtendTable<T(!new)>(edges: seq<(T, T)>, done: seq<T>, earliest: map<T, nat>, lengths: map<T, nat>,
                             paths: map<T, seq<seq<T>>>, node: T, wave: nat, length: nat, row: seq<seq<T>>)
    requires TableFor(edges, done, earliest, lengths, paths)
    requires wave + 1 == length && ListsLongest(edges, node, length, row)
    ensures TableFor(edges, done + [node], earliest[node := wave], lengths[node := length], paths[node := row])
  {
    assert ToSet(done + [node]) == ToSet(done) + {node};
    var lengths', paths' := lengths[node := length], paths[node := row];
    forall n | n in lengths' ensures ListsLongest(edges, n, lengths'[n], paths'[n]) {
      if n != node {
        assert n in lengths && ListsLongest(edges, n, lengths[n], paths[n]);
        assert lengths'[n] == lengths[n] && paths'[n] == paths[n];
      }
    }
  }

  lemma PredecessorsAreDone<T(!new)>(nodes: seq<T>, edges: seq<(T, T)>, topological: seq<T>, k: nat)
    requires GreedyOrder(nodes, edges, topological) && k < |topological|
    ensures forall p :: p in Predecessors(edges, topological[k]) ==> p in topological[..k]
  {
    assert GreedyChoice(nodes, edges, topological[..k], topological[k]);
    forall p | p in Predecessors(edges, topological[k]) ensures p in topological[..k] {
      PredecessorIffEdge(edges, p, topological[k]);
      assert (p, topological[k]).1 == topological[k];
    }
  }

  lemma TableKnows<T(!new)>(edges: seq<(T, T)>, done: seq<T>, earliest: map<T, nat>, lengths: map<T, nat>,
                            paths: map<T, seq<seq<T>>>, parents: seq<T>)
    requires TableFor(edges, done, earliest, lengths, paths) && parents != []
    requires forall p :: p in parents ==> p in done
    ensures forall p :: p in parents ==> p in earliest
    ensures RowsKnown(edges, parents, lengths, paths) && PathsEndAtTheirKey(paths)
    ensures MaxOf(earliest, parents) + 1 == MaxOf(lengths, parents)
  {
    TablePathsEndAtTheirKey(edges, done, earliest, lengths, paths);
    forall p | p in parents ensures p in lengths && p in earliest && p in paths {
      assert p in ToSet(done);
    }
    var first, longest := MaxOf(earliest, parents), MaxOf(lengths, parents);
    var a :| a in parents && earliest[a] == first;
    var b :| b in parents && lengths[b] == longest;
    assert earliest[b] <= first && lengths[a] <= longest;
  }

  // ---------- Critical paths ----------

  /** A maximum-length path of the whole graph. */
  ghost predicate Critical<T(!new)>(nodes: seq<T>, edges: seq<(T, T)>, p: seq<T>) {
    InGraph(nodes, edges, p) && forall q :: InGraph(nodes, edges, q) ==> |q| <= |p|
  }

  ghost predicate InGraph<T>(nodes: seq<T>, edges: seq<(T, T)>, p: seq<T>) {
    IsWalk(ToSet(edges), p) && p[|p| - 1] in nodes
  }

  /** `path for node in nodes if longest_length[node] == depth for path in longest_paths[node]`. */
  function CollectCritical<T(==)>(nodes: seq<T>, lengths: map<T, nat>, paths: map<T, seq<seq<T>>>, depth: nat)
    : seq<seq<T>>
    requires forall n :: n in nodes ==> n in lengths && n in paths
  {
    if nodes == [] then []
    else
      (if lengths[nodes[0]] == depth then paths[nodes[0]] else [])
      + CollectCritical(nodes[1..], lengths, paths, depth)
  }

  lemma {:induction false} CollectCount<T>(nodes: seq<T>, lengths: map<T, nat>, paths: map<T, seq<seq<T>>>,
                                           depth: nat, p: seq<T>)
    requires forall n :: n in nodes ==> n in lengths && n in paths
    requires PathsEndAtTheirKey(paths) && NoDup(nodes)
    ensures multiset(CollectCritical(nodes, lengths, paths, depth))[p] ==
      if p != [] && p[|p| - 1] in nodes && lengths[p[|p| - 1]] == depth then multiset(paths[p[|p| - 1]])[p] else 0
  {
    if nodes == [] {
    } else {
      assert nodes == [nodes[0]] + nodes[1..];
      CollectCount(nodes[1..], lengths, paths, depth, p);
      if p in paths[nodes[0]] {
        assert p != [] && p[|p| - 1] == nodes[0];
      }
    }
  }

  ghost predicate CriticalList<T(!new)>(nodes: seq<T>, edges: seq<(T, T)>, paths: seq<seq<T>>) {
    forall p {:trigger multiset(paths)[p]} ::
      multiset(paths)[p] == if Critical(nodes, edges, p) then Weight(edges, p) else 0
  }

  /** Two lists of the critical paths hold the same paths equally often. */
  lemma CriticalListUnique<T(!new)>(nodes: seq<T>, edges: seq<(T, T)>, a: seq<seq<T>>, b: seq<seq<T>>)
    requires CriticalList(nodes, edges, a)
    ensures CriticalList(nodes, edges, b) <==> multiset(a) == multiset(b)
  {
    if CriticalList(nodes, edges, b) {
      forall p ensures multiset(a)[p] == multiset(b)[p] {
      }
    }
  }

  /** With distinct edges the list is sound, complete and free of repetitions. */
  lemma CriticalListOfDistinctEdges<T(!new)>(nodes: seq<T>, edges: seq<(T, T)>, paths: seq<seq<T>>)
    requires CriticalList(nodes, edges, paths) && NoDup(edges)
    ensures forall p :: p in paths <==> Critical(nodes, edges, p)
    ensures NoDup(paths)
  {
    forall p ensures multiset(paths)[p] == if Critical(nodes, edges, p) then 1 else 0 {
      if Critical(nodes, edges, p) {
        WeightOfDistinctEdges(edges, p);
      }
    }
    forall p ensures p in paths <==> Critical(nodes, edges, p) {
      assert p in paths <==> p in multiset(paths);
    }
    MultiplicityNoDup(paths);
  }

  /** What the table knows about the whole graph. */
  ghost predicate AllRows<T(!new)>(nodes: seq<T>, edges: seq<(T, T)>, lengths: map<T, nat>,
                                   paths: map<T, seq<seq<T>>>)
  {
    && NoDup(nodes) && nodes != []
    && RowsKnown(edges, nodes, lengths, paths) && PathsEndAtTheirKey(paths)
  }

  lemma DepthBounds<T(!new)>(nodes: seq<T>, edges: seq<(T, T)>, lengths: map<T, nat>, paths: map<T, seq<seq<T>>>,
                             depth: nat)
    requires AllRows(nodes, edges, lengths, paths) && depth == MaxOf(lengths, nodes)
    ensures forall q :: InGraph(nodes, edges, q) ==> |q| <= depth
    ensures exists q :: InGraph(nodes, edges, q) && |q| == depth
  {
    forall q | InGraph(nodes, edges, q) ensures |q| <= depth {
      var n := q[|q| - 1];
      assert ListsLongest(edges, n, lengths[n], paths[n]) && EndsAt(edges, q, n);
    }
    var deepest :| deepest in nodes && lengths[deepest] == depth;
    assert ListsLongest(edges, deepest, lengths[deepest], paths[deepest]);
    var top :| EndsAt(edges, top, deepest) && |top| == depth;
    assert InGraph(nodes, edges, top);
  }

  lemma DepthIsCritical<T(!new)>(nodes: seq<T>, edges: seq<(T, T)>, lengths: map<T, nat>, paths: map<T, seq<seq<T>>>,
                                 depth: nat)
    requires AllRows(nodes, edges, lengths, paths) && depth == MaxOf(lengths, nodes)
    ensures CriticalList(nodes, edges, CollectCritical(nodes, lengths, paths, depth))
  {
    DepthBounds(nodes, edges, lengths, paths, depth);
    var top :| InGraph(nodes, edges, top) && |top| == depth;
    forall p ensures multiset(CollectCritical(nodes, lengths, paths, depth))[p] ==
        if Critical(nodes, edges, p) then Weight(edges, p) else 0
    {
      CollectCount(nodes, lengths, paths, depth, p);
      assert Critical(nodes, edges, p) <==> InGraph(nodes, edges, p) && |p| == depth;
      if p != [] && p[|p| - 1] in nodes {
        var n := p[|p| - 1];
        assert ListsLongest(edges, n, lengths[n], paths[n]);
      }
    }
  }

  // ---------- The analysis as a whole ----------

  datatype GraphError = NodesMismatch | UnknownEdge | DependencyMismatch | CycleFound | EmptyGraph

  datatype Analysis<T> = Analysis(earliest: map<T, nat>, criticalPaths: seq<seq<T>>)

  predicate DependenciesAgree<T(==)>(nodes: seq<T>, edges: seq<(T, T)>, dependsOn: map<T, seq<T>>)
    requires forall n :: n in nodes ==> n in dependsOn
  {
    forall n | n in nodes :: ToSet(dependsOn[n]) == ToSet(Predecessors(edges, n))
  }

  /** The first check that fails, in the order in which the source makes them. */
  ghost function GraphDefect<T(!new)>(nodes: seq<T>, edges: seq<(T, T)>, dependsOn: map<T, seq<T>>)
    : Option<GraphError>
  {
    if !NoDup(nodes) || ToSet(nodes) != dependsOn.Keys then Some(NodesMismatch)
    else if !KnownEndpoints(nodes, edges) then Some(UnknownEdge)
    else if !DependenciesAgree(nodes, edges, dependsOn) then Some(DependencyMismatch)
    else if Cyclic(ToSet(edges)) then Some(CycleFound)
    else if nodes == [] then Some(EmptyGraph)
    else None
  }

  /** What the analysis promises about its answer. */
  ghost predicate AnalysisOf<T(!new)>(nodes: seq<T>, edges: seq<(T, T)>, leq: (T, T) -> bool, a: Analysis<T>) {
    && a.earliest.Keys == ToSet(nodes)
    && (forall n :: n in a.earliest ==> LongestTo(edges, n, a.earliest[n] + 1))
    && CriticalList(nodes, edges, a.criticalPaths)
    && Sorted(Lex(leq), a.criticalPaths)
  }

  method AnalyzeDependencyGraph<T(==, !new)>(nodes: seq<T>, edges: seq<(T, T)>, dependsOn: map<T, seq<T>>,
                                             leq: (T, T) -> bool)
    returns (r: Result<Analysis<T>, GraphError>)
    requires TotalOrder(leq)
    ensures r.Err? ==> GraphDefect(nodes, edges, dependsOn) == Some(r.error)
    ensures r.Ok? ==> GraphDefect(nodes, edges, dependsOn) == None && AnalysisOf(nodes, edges, leq, r.value)
  {
    CardinalityNoDup(nodes);
    if |nodes| != |ToSet(nodes)| || ToSet(nodes) != dependsOn.Keys {
      if NoDup(nodes) {
        NoDupCardinality(nodes);
      }
      return Err(NodesMismatch);
    }
    var known, predecessors, successors := BuildAdjacency(nodes, edges);
    if !known {
      return Err(UnknownEdge);
    }
    if exists n | n in nodes :: ToSet(dependsOn[n]) != ToSet(predecessors[n]) {
      return Err(DependencyMismatch);
    }
    assert DependenciesAgree(nodes, edges, dependsOn);
    r := AnalyzeAcyclic(nodes, edges, predecessors, successors, leq);
  }

  method AnalyzeAcyclic<T(==, !new)>(nodes: seq<T>, edges: seq<(T, T)>, predecessors: map<T, seq<T>>,
                                     successors: map<T, seq<T>>, leq: (T, T) -> bool)
    returns (r: Result<Analysis<T>, GraphError>)
    requires TotalOrder(leq) && NoDup(nodes) && KnownEndpoints(nodes, edges)
    requires Adjacency(nodes, edges, predecessors, successors)
    ensures r == Err(CycleFound) <==> Cyclic(ToSet(edges))
    ensures r == Err(EmptyGraph) <==> !Cyclic(ToSet(edges)) && nodes == []
    ensures r.Err? ==> r == Err(CycleFound) || r == Err(EmptyGraph)
    ensures r.Ok? ==> AnalysisOf(nodes, edges, leq, r.value)
  {
    hide Cyclic, KnownEndpoints, TotalOrder, NoDup, CriticalList, AllRows, LongestTo, TableFor, Sorted,
      GreedyOrder, Respects;
    var topological := TopologicalOrder(nodes, edges, predecessors, successors);
    if |topological| != |nodes| {
      return Err(CycleFound);
    }
    var earliest, lengths, paths := LongestPaths(nodes, edges, predecessors, topological);
    if nodes == [] {
      return Err(EmptyGraph);
    }
    TableCoversNodes(nodes, edges, topological, earliest, lengths, paths);
    var critical := DeepestPaths(nodes, edges, lengths, paths, leq);
    r := Ok(Analysis(earliest, critical));
  }

  method DeepestPaths<T(==, !new)>(nodes: seq<T>, ghost edges: seq<(T, T)>, lengths: map<T, nat>,
                                   paths: map<T, seq<seq<T>>>, leq: (T, T) -> bool)
    returns (critical: seq<seq<T>>)
    requires TotalOrder(leq) && AllRows(nodes, edges, lengths, paths)
    ensures CriticalList(nodes, edges, critical) && Sorted(Lex(leq), critical)
  {
    var depth := MaxOf(lengths, nodes);
    DepthIsCritical(nodes, edges, lengths, paths, depth);
    critical := SortPaths(nodes, edges, leq, CollectCritical(nodes, lengths, paths, depth));
  }

  lemma TableCoversNodes<T(!new)>(nodes: seq<T>, edges: seq<(T, T)>, done: seq<T>, earliest: map<T, nat>,
                                  lengths: map<T, nat>, paths: map<T, seq<seq<T>>>)
    requires TableFor(edges, done, earliest, lengths, paths)
    requires NoDup(nodes) && nodes != [] && ToSet(done) == ToSet(nodes)
    ensures AllRows(nodes, edges, lengths, paths) && earliest.Keys == ToSet(nodes)
    ensures forall n :: n in earliest ==> LongestTo(edges, n, earliest[n] + 1)
  {
    TablePathsEndAtTheirKey(edges, done, earliest, lengths, paths);
    forall n | n in nodes ensures n in lengths && n in paths {
      assert n in ToSet(nodes);
    }
    forall n | n in earliest ensures LongestTo(edges, n, earliest[n] + 1) {
      assert ListsLongest(edges, n, lengths[n], paths[n]);
    }
  }

  method SortPaths<T(==, !new)>(ghost nodes: seq<T>, ghost edges: seq<(T, T)>, leq: (T, T) -> bool, paths: seq<seq<T>>)
    returns (sorted: seq<seq<T>>)
    requires TotalOrder(leq) && CriticalList(nodes, edges, paths)
    ensures CriticalList(nodes, edges, sorted) && Sorted(Lex(leq), sorted)
  {
    sorted := Sort(Lex(leq), paths);
    LexIsTotalOrder(leq);
    SortCorrect(Lex(leq), paths);
    CriticalListUnique(nodes, edges, paths, sorted);
  }

  /** `sorted(listed) != critical_paths`: the comparison asks for the critical paths, each as often as it occurs. */
  lemma SortedListingIsCritical<T(!new)>(nodes: seq<T>, edges: seq<(T, T)>, leq: (T, T) -> bool,
                                         critical: seq<seq<T>>, listed: seq<seq<T>>)
    requires TotalOrder(leq) && CriticalList(nodes, edges, critical) && Sorted(Lex(leq), critical)
    ensures Sort(Lex(leq), listed) == critical <==> CriticalList(nodes, edges, listed)
  {
    LexIsTotalOrder(leq);
    SortCorrect(Lex(leq), listed);
    CriticalListUnique(nodes, edges, critical, listed);
    if multiset(listed) == multiset(critical) {
      SortedUnique(Lex(leq), Sort(Lex(leq), listed), critical);
    }
  }

  // ---------- The analysis, read off the edge list ----------

  ghost predicate IsPath<T>(edges: seq<(T, T)>, p: seq<T>) {
    p != [] && forall i, j :: 0 <= i < j == i + 1 < |p| ==> (p[i], p[j]) in edges
  }

  ghost predicate ListsNodes<T(!new)>(nodes: seq<T>, dependsOn: map<T, seq<T>>) {
    (forall i, j :: 0 <= i < j < |nodes| ==> nodes[i] != nodes[j]) && forall n :: n in dependsOn <==> n in nodes
  }

  ghost predicate EdgesInside<T(!new)>(nodes: seq<T>, edges: seq<(T, T)>) {
    forall a, b :: (a, b) in edges ==> a in nodes && b in nodes
  }

  ghost predicate EdgesAreDependencies<T(!new)>(edges: seq<(T, T)>, dependsOn: map<T, seq<T>>) {
    forall n, d :: n in dependsOn ==> (d in dependsOn[n] <==> (d, n) in edges)
  }

  ghost predicate NoPathReturns<T(!new)>(edges: seq<(T, T)>) {
    forall p :: IsPath(edges, p) && |p| >= 2 ==> p[0] != p[|p| - 1]
  }

  lemma PathIsWalk<T(!new)>(edges: seq<(T, T)>)
    ensures forall p :: IsPath(edges, p) <==> IsWalk(ToSet(edges), p)
    ensures NoPathReturns(edges) <==> !Cyclic(ToSet(edges))
  {
    forall p ensures IsPath(edges, p) <==> IsWalk(ToSet(edges), p) {
    }
    if Cyclic(ToSet(edges)) {
      var v :| Reaches(ToSet(edges), v, v);
      var p :| IsWalk(ToSet(edges), p) && |p| >= 2 && p[0] == v && p[|p| - 1] == v;
      assert IsPath(edges, p);
    }
    if p :| IsPath(edges, p) && |p| >= 2 && p[0] == p[|p| - 1] {
      assert Reaches(ToSet(edges), p[0], p[0]);
    }
  }

  lemma DependenciesAreEdges<T(!new)>(nodes: seq<T>, edges: seq<(T, T)>, dependsOn: map<T, seq<T>>)
    requires ListsNodes(nodes, dependsOn)
    ensures DependenciesAgree(nodes, edges, dependsOn) <==> EdgesAreDependencies(edges, dependsOn)
  {
    forall n, d ensures d in ToSet(Predecessors(edges, n)) <==> (d, n) in edges {
      PredecessorIffEdge(edges, d, n);
    }
  }

  lemma EndpointsAreInside<T(!new)>(nodes: seq<T>, edges: seq<(T, T)>)
    ensures KnownEndpoints(nodes, edges) <==> EdgesInside(nodes, edges)
  {
    if EdgesInside(nodes, edges) {
      forall e | e in edges ensures e.0 in nodes && e.1 in nodes {
        assert (e.0, e.1) in edges;
      }
    }
  }

  /** The first defect in the order of the checks, each as what it says of nodes and edges. */
  lemma DefectIs<T(!new)>(nodes: seq<T>, edges: seq<(T, T)>, dependsOn: map<T, seq<T>>)
    ensures GraphDefect(nodes, edges, dependsOn) ==
      if !ListsNodes(nodes, dependsOn) then Some(NodesMismatch)
      else if !EdgesInside(nodes, edges) then Some(UnknownEdge)
      else if !EdgesAreDependencies(edges, dependsOn) then Some(DependencyMismatch)
      else if !NoPathReturns(edges) then Some(CycleFound)
      else if nodes == [] then Some(EmptyGraph)
      else None
  {
    assert ListsNodes(nodes, dependsOn) <==> NoDup(nodes) && ToSet(nodes) == dependsOn.Keys;
    hide NoPathReturns, EdgesInside, EdgesAreDependencies, Cyclic, KnownEndpoints, DependenciesAgree;
    PathIsWalk(edges);
    EndpointsAreInside(nodes, edges);
    if ListsNodes(nodes, dependsOn) {
      DependenciesAreEdges(nodes, edges, dependsOn);
    }
  }

  /** `n` is the number of vertices of a longest path that ends in `node`. */
  ghost predicate LongestPathInto<T(!new)>(edges: seq<(T, T)>, node: T, n: int) {
    && (exists p :: IsPath(edges, p) && p[|p| - 1] == node && |p| == n)
    && forall p :: IsPath(edges, p) && p[|p| - 1] == node ==> |p| <= n
  }

  ghost predicate LongestOfAll<T(!new)>(nodes: seq<T>, edges: seq<(T, T)>, p: seq<T>) {
    && IsPath(edges, p) && p[|p| - 1] in nodes
    && forall q :: IsPath(edges, q) && q[|q| - 1] in nodes ==> |q| <= |p|
  }

  lemma LongestIs<T(!new)>(edges: seq<(T, T)>, node: T, n: nat)
    ensures LongestTo(edges, node, n) <==> LongestPathInto(edges, node, n)
  {
    PathIsWalk(edges);
    hide IsWalk, NoPathReturns, Cyclic;
    forall p ensures EndsAt(edges, p, node) <==> IsPath(edges, p) && p[|p| - 1] == node {
      assert IsPath(edges, p) <==> IsWalk(ToSet(edges), p);
    }
  }

  lemma CriticalIs<T(!new)>(nodes: seq<T>, edges: seq<(T, T)>, p: seq<T>)
    ensures Critical(nodes, edges, p) <==> LongestOfAll(nodes, edges, p)
  {
    PathIsWalk(edges);
    hide IsWalk, NoPathReturns, Cyclic;
    forall q ensures InGraph(nodes, edges, q) <==> IsPath(edges, q) && q[|q| - 1] in nodes {
      assert IsPath(edges, q) <==> IsWalk(ToSet(edges), q);
    }
  }

  /** The analysis: longest paths into every node, and every longest path of the graph in lexicographic order. */
  ghost predicate ReadsAs<T(!new)>(nodes: seq<T>, edges: seq<(T, T)>, leq: (T, T) -> bool, a: Analysis<T>) {
    && (forall n :: n in a.earliest <==> n in nodes)
    && (forall n :: n in a.earliest ==> LongestPathInto(edges, n, a.earliest[n] + 1))
    && (forall p {:trigger multiset(a.criticalPaths)[p]} ::
          multiset(a.criticalPaths)[p] == if LongestOfAll(nodes, edges, p) then Weight(edges, p) else 0)
    && (forall i, j :: 0 <= i < j < |a.criticalPaths| ==> Precedes(leq, a.criticalPaths[i], a.criticalPaths[j]))
  }

  lemma AnalysisMeans<T(!new)>(nodes: seq<T>, edges: seq<(T, T)>, leq: (T, T) -> bool, a: Analysis<T>)
    ensures AnalysisOf(nodes, edges, leq, a) <==> ReadsAs(nodes, edges, leq, a)
  {
    hide LongestTo, LongestPathInto, Critical, LongestOfAll, LexLeq, Precedes, Weight;
    forall n: T, k: nat ensures LongestTo(edges, n, k) <==> LongestPathInto(edges, n, k) {
      LongestIs(edges, n, k);
    }
    forall p ensures Critical(nodes, edges, p) <==> LongestOfAll(nodes, edges, p) {
      CriticalIs(nodes, edges, p);
    }
    forall p: seq<T>, q: seq<T> ensures Lex(leq)(p, q) <==> Precedes(leq, p, q) {
      LexMeans(leq, p, q);
    }
    assert a.earliest.Keys == ToSet(nodes) <==> forall n :: n in a.earliest <==> n in nodes;
  }
}
