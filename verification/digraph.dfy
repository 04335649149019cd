/** Directed graphs over a finite arc set: walks, reachability and cycles. */
module Digraph {
  import opened Collections

  /** A directed walk lists its vertices; a single vertex is a walk. */
  ghost predicate IsWalk<T>(arcs: set<(T, T)>, p: seq<T>) {
    |p| > 0 && forall i, j :: 0 <= i < j == i + 1 < |p| ==> (p[i], p[j]) in arcs
  }

  ghost predicate Reaches<T(!new)>(arcs: set<(T, T)>, a: T, b: T) {
    exists p :: IsWalk(arcs, p) && |p| >= 2 && p[0] == a && p[|p| - 1] == b
  }

  ghost predicate Cyclic<T(!new)>(arcs: set<(T, T)>) {
    exists v :: Reaches(arcs, v, v)
  }

  lemma ArcReaches<T(!new)>(arcs: set<(T, T)>, a: T, b: T)
    requires (a, b) in arcs
    ensures Reaches(arcs, a, b)
  {
    assert IsWalk(arcs, [a, b]);
  }

  lemma ReachesTransitive<T(!new)>(arcs: set<(T, T)>, a: T, b: T, c: T)
    requires Reaches(arcs, a, b) && Reaches(arcs, b, c)
    ensures Reaches(arcs, a, c)
  {
    var p :| IsWalk(arcs, p) && |p| >= 2 && p[0] == a && p[|p| - 1] == b;
    var q :| IsWalk(arcs, q) && |q| >= 2 && q[0] == b && q[|q| - 1] == c;
    var w := p + q[1..];
    forall i | 0 <= i < |w| - 1 ensures (w[i], w[i + 1]) in arcs {
      if i < |p| - 1 {
        assert (p[i], p[i + 1]) in arcs;
      } else {
        assert w[i] == q[i - (|p| - 1)] && w[i + 1] == q[i - (|p| - 1) + 1];
      }
    }
    assert IsWalk(arcs, w);
  }

  /** What a vertex reaches: its successors and what they reach. */
  lemma ReachesFirstStep<T(!new)>(arcs: set<(T, T)>, a: T, c: T)
    requires Reaches(arcs, a, c)
    ensures exists b :: (a, b) in arcs && (b == c || Reaches(arcs, b, c))
  {
    var p :| IsWalk(arcs, p) && |p| >= 2 && p[0] == a && p[|p| - 1] == c;
    assert (a, p[1]) in arcs;
    if |p| > 2 {
      assert IsWalk(arcs, p[1..]);
      assert p[1..][|p| - 2] == c;
    }
  }

  /** An order that places the source of every arc first rules out cycles. */
  ghost predicate Respects<T>(arcs: set<(T, T)>, order: seq<T>) {
    forall i, j :: 0 <= i < |order| && 0 <= j < |order| && (order[i], order[j]) in arcs ==> i < j
  }

  lemma {:induction false} WalkClimbs<T>(arcs: set<(T, T)>, order: seq<T>, p: seq<T>, i: nat, j: nat)
    requires IsWalk(arcs, p) && Respects(arcs, order)
    requires forall v :: v in p ==> v in order
    requires i < |order| && j < |order| && order[i] == p[0] && order[j] == p[|p| - 1]
    requires |p| >= 2
    ensures i < j
  {
    assert p[1] in order;
    var k :| 0 <= k < |order| && order[k] == p[1];
    assert (order[i], order[k]) in arcs;
    if |p| > 2 {
      assert IsWalk(arcs, p[1..]);
      WalkClimbs(arcs, order, p[1..], k, j);
    }
  }

  lemma {:induction false} WalkStays<T>(arcs: set<(T, T)>, inside: set<T>, p: seq<T>)
    requires IsWalk(arcs, p) && p[0] in inside
    requires forall a, b :: (a, b) in arcs && a in inside ==> b in inside
    ensures forall v :: v in p ==> v in inside
  {
    if |p| > 1 {
      assert IsWalk(arcs, p[1..]);
      assert (p[0], p[1]) in arcs;
      WalkStays(arcs, inside, p[1..]);
    }
  }

  lemma ReachesInOrder<T(!new)>(arcs: set<(T, T)>, order: seq<T>, i: nat, j: nat)
    requires Respects(arcs, order)
    requires forall a, b :: (a, b) in arcs ==> b in order
    requires i < |order| && j < |order| && Reaches(arcs, order[i], order[j])
    ensures i < j
  {
    var p :| IsWalk(arcs, p) && |p| >= 2 && p[0] == order[i] && p[|p| - 1] == order[j];
    WalkStays(arcs, ToSet(order), p);
    WalkClimbs(arcs, order, p, i, j);
  }

  lemma OrderedIsAcyclic<T(!new)>(arcs: set<(T, T)>, order: seq<T>)
    requires Respects(arcs, order)
    requires forall a, b :: (a, b) in arcs ==> a in order && b in order
    ensures !Cyclic(arcs)
  {
    if Cyclic(arcs) {
      var v :| Reaches(arcs, v, v);
      var p :| IsWalk(arcs, p) && |p| >= 2 && p[0] == v && p[|p| - 1] == v;
      assert (p[0], p[1]) in arcs;
      var i :| 0 <= i < |order| && order[i] == v;
      ReachesInOrder(arcs, order, i, i);
    }
  }

  ghost predicate HasPredecessorIn<T(!new)>(arcs: set<(T, T)>, inside: set<T>, v: T) {
    exists u :: u in inside && (u, v) in arcs
  }

  ghost predicate Stuck<T(!new)>(arcs: set<(T, T)>, inside: set<T>) {
    inside != {} && forall v :: v in inside ==> HasPredecessorIn(arcs, inside, v)
  }

  lemma PrependArc<T>(arcs: set<(T, T)>, u: T, q: seq<T>)
    requires IsWalk(arcs, q) && (u, q[0]) in arcs
    ensures IsWalk(arcs, [u] + q)
  {
    var p := [u] + q;
    forall i | 0 <= i < |p| - 1 ensures (p[i], p[i + 1]) in arcs {
      if i > 0 {
        assert p[i] == q[i - 1] && p[i + 1] == q[i];
      }
    }
  }

  /** Inside a set where everybody has a predecessor one can walk backwards for ever. */
  lemma {:induction false} BackwardWalk<T(!new)>(arcs: set<(T, T)>, inside: set<T>, n: nat) returns (p: seq<T>)
    requires Stuck(arcs, inside)
    ensures IsWalk(arcs, p) && |p| == n + 1
    ensures forall i :: 0 <= i < |p| ==> p[i] in inside
  {
    if n == 0 {
      var v :| v in inside;
      p := [v];
    } else {
      var q := BackwardWalk(arcs, inside, n - 1);
      assert HasPredecessorIn(arcs, inside, q[0]);
      var u :| u in inside && (u, q[0]) in arcs;
      PrependArc(arcs, u, q);
      p := [u] + q;
    }
  }

  lemma SubWalk<T>(arcs: set<(T, T)>, p: seq<T>, i: nat, j: nat)
    requires IsWalk(arcs, p) && i < j < |p|
    ensures IsWalk(arcs, p[i..j + 1])
  {
    var w := p[i..j + 1];
    forall k | 0 <= k < |w| - 1 ensures (w[k], w[k + 1]) in arcs {
      assert (p[i + k], p[i + k + 1]) in arcs;
    }
  }

  /** ... so it closes a cycle, by the pigeonhole principle. */
  lemma StuckIsCyclic<T(!new)>(arcs: set<(T, T)>, inside: set<T>)
    requires Stuck(arcs, inside)
    ensures Cyclic(arcs)
  {
    var p := BackwardWalk(arcs, inside, |inside|);
    if NoDup(p) {
      NoDupCovers(p, inside);
    }
    var i, j :| 0 <= i < j < |p| && p[i] == p[j];
    SubWalk(arcs, p, i, j);
    var w := p[i..j + 1];
    assert |w| >= 2 && w[0] == p[i] && w[|w| - 1] == p[i];
    assert Reaches(arcs, p[i], p[i]);
  }
}
