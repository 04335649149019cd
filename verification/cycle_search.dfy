/** Depth-first search for a dependency cycle, with the two marking sets of the plan ledger's checker. */
module CycleSearch {
  import opened Collections
  import opened Digraph

  /** An arc leads from a dependency to what depends on it. */
  ghost function Arcs<T(!new)>(dependencies: map<T, seq<T>>): set<(T, T)> {
    set b, a | b in dependencies && a in dependencies[b] :: (a, b)
  }

  predicate Closed<T(==)>(dependencies: map<T, seq<T>>) {
    forall b | b in dependencies :: forall a | a in dependencies[b] :: a in dependencies
  }

  class Search<T(==,!new)> {
    const dependencies: map<T, seq<T>>
    var visited: set<T>
    var visiting: set<T>
    /** The open calls, innermost first, and the closed ones in the order they closed. */
    ghost var trail: seq<T>
    ghost var finished: seq<T>

    ghost predicate Trail()
      reads this
    {
      && visiting == ToSet(trail) && NoDup(trail) && visiting <= dependencies.Keys
      && (trail != [] ==> IsWalk(Arcs(dependencies), trail))
    }

    ghost predicate Finished()
      reads this
    {
      && visited == ToSet(finished) && NoDup(finished) && visited <= dependencies.Keys
      && forall j, a :: 0 <= j < |finished| && a in dependencies[finished[j]] ==> a in finished[..j]
    }

    ghost predicate Valid()
      reads this
    {
      Closed(dependencies) && Trail() && Finished() && visited !! visiting
    }

    constructor (dependencies: map<T, seq<T>>)
      requires Closed(dependencies)
      ensures this.dependencies == dependencies && Valid() && trail == [] && visited == {}
    {
      this.dependencies := dependencies;
      visited, visiting := {}, {};
      trail, finished := [], [];
    }

    /** Visit everything the vertex depends on; meeting an open call again closes a cycle. */
    method Visit(id: T) returns (acyclic: bool)
      requires Valid() && id in dependencies
      requires trail != [] ==> (id, trail[0]) in Arcs(dependencies)
      modifies this
      ensures acyclic ==> Valid() && trail == old(trail) && old(visited) + {id} <= visited
      ensures !acyclic ==> Cyclic(Arcs(dependencies))
      decreases dependencies.Keys - visiting
    {
      if id in visited {
        return true;
      }
      if id in visiting {
        ClosesCycle(Arcs(dependencies), trail, id);
        return false;
      }
      Open(id);
      for k := 0 to |dependencies[id]|
        invariant Valid() && trail == [id] + old(trail)
        invariant old(visited) <= visited
        invariant forall a :: a in dependencies[id][..k] ==> a in visited
      {
        assert (dependencies[id][k], id) in Arcs(dependencies);
        var below := Visit(dependencies[id][k]);
        if !below {
          return false;
        }
      }
      Close(id);
      return true;
    }

    method Open(id: T)
      requires Valid() && id in dependencies && id !in visited && id !in visiting
      requires trail != [] ==> (id, trail[0]) in Arcs(dependencies)
      modifies `visiting, `trail
      ensures Valid() && visiting == old(visiting) + {id} && trail == [id] + old(trail)
    {
      if trail != [] {
        PrependArc(Arcs(dependencies), id, trail);
      }
      visiting := visiting + {id};
      trail := [id] + trail;
    }

    method Close(id: T)
      requires Valid() && trail != [] && trail[0] == id
      requires forall a :: a in dependencies[id] ==> a in visited
      modifies this
      ensures Valid() && visited == old(visited) + {id} && trail == old(trail)[1..]
    {
      var rest := trail[1..];
      assert trail == [id] + rest && id in visiting;
      if |trail| > 1 {
        assert forall i, j :: 0 <= i < j == i + 1 < |rest| ==> rest[i] == trail[i + 1] && rest[j] == trail[j + 1];
      }
      visiting := visiting - {id};
      visited := visited + {id};
      trail := rest;
      ghost var closed := finished;
      finished := closed + [id];
      forall j, a | 0 <= j < |finished| && a in dependencies[finished[j]] ensures a in finished[..j] {
        if j < |closed| {
          assert finished[j] == closed[j] && finished[..j] == closed[..j];
        } else {
          assert finished[..j] == closed;
        }
      }
    }

    /** When every vertex has been visited, the closing order is a topological one. */
    lemma AllVisitedIsAcyclic()
      requires Valid() && visited == dependencies.Keys
      ensures !Cyclic(Arcs(dependencies))
    {
      forall i, j | 0 <= i < |finished| && 0 <= j < |finished| && (finished[i], finished[j]) in Arcs(dependencies)
        ensures i < j
      {
        assert finished[i] in finished[..j];
      }
      OrderedIsAcyclic(Arcs(dependencies), finished);
    }
  }

  lemma ClosesCycle<T(!new)>(arcs: set<(T, T)>, trail: seq<T>, id: T)
    requires IsWalk(arcs, trail) && id in trail && (id, trail[0]) in arcs
    ensures Cyclic(arcs)
  {
    var i :| 0 <= i < |trail| && trail[i] == id;
    if i > 0 {
      SubWalk(arcs, trail, 0, i);
    }
    var back := trail[..i + 1];
    PrependArc(arcs, id, back);
    var loop := [id] + back;
    assert IsWalk(arcs, loop) && |loop| >= 2 && loop[0] == id && loop[|loop| - 1] == id;
    assert Reaches(arcs, id, id);
  }

  /** Search from every vertex in turn: the verdict is right, whatever the order. */
  method Acyclic<T(==,!new)>(ids: seq<T>, dependencies: map<T, seq<T>>) returns (acyclic: bool)
    requires Closed(dependencies) && ToSet(ids) == dependencies.Keys
    ensures acyclic <==> !Cyclic(Arcs(dependencies))
  {
    var search := new Search(dependencies);
    for k := 0 to |ids|
      invariant search.Valid() && search.trail == [] && search.dependencies == dependencies
      invariant forall id :: id in ids[..k] ==> id in search.visited
    {
      var below := search.Visit(ids[k]);
      if !below {
        return false;
      }
    }
    search.AllVisitedIsAcyclic();
    return true;
  }
}
