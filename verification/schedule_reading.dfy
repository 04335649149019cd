/**
 Acceptance read off the plan file: which packages, edges, lanes and slots a plan must list so that the checker
 accepts it, without the tables and collections the checker builds on its way.
 */
module ScheduleReading {
  import opened Collections
  import opened DependencyGraph
  import opened CriticalPaths
  import opened ExecutionSchedule

  // ---------- Once in a list of lists ----------

  ghost predicate At<T>(ss: seq<seq<T>>, k: int, i: int, x: T) {
    0 <= k < |ss| && 0 <= i < |ss[k]| && ss[k][i] == x
  }

  ghost predicate Somewhere<T>(ss: seq<seq<T>>, x: T) {
    exists k, i :: At(ss, k, i, x)
  }

  /** No wanted element stands at two places. */
  ghost predicate Once<T(!new)>(ss: seq<seq<T>>, wanted: T -> bool) {
    forall k, i, l, j, x :: At(ss, k, i, x) && At(ss, l, j, x) && wanted(x) ==> k == l && i == j
  }

  ghost predicate OnceInRow<T>(s: seq<T>, wanted: T -> bool) {
    forall i, j :: 0 <= i < j < |s| && wanted(s[i]) ==> s[i] != s[j]
  }

  function Flat<T>(ss: seq<seq<T>>): seq<T> {
    if ss == [] then [] else Flat(ss[..|ss| - 1]) + ss[|ss| - 1]
  }

  lemma {:induction false} FlatMembers<T>(ss: seq<seq<T>>, x: T)
    ensures x in Flat(ss) <==> Somewhere(ss, x)
  {
    if ss != [] {
      var front, last := ss[..|ss| - 1], ss[|ss| - 1];
      FlatMembers(front, x);
      assert forall k, i :: At(front, k, i, x) ==> At(ss, k, i, x);
      assert forall k, i :: At(ss, k, i, x) && k < |front| ==> At(front, k, i, x);
      assert forall i :: 0 <= i < |last| && last[i] == x ==> At(ss, |ss| - 1, i, x);
    }
  }

  lemma {:induction false} RowOnce<T(!new)>(s: seq<T>, wanted: T -> bool)
    ensures NoDup(Filter(s, wanted)) <==> OnceInRow(s, wanted)
  {
    if s != [] {
      var head, rest := s[0], s[1..];
      assert s == [head] + rest;
      RowOnce(rest, wanted);
      NoDupConcat(if wanted(head) then [head] else [], Filter(rest, wanted));
      assert forall i :: 0 <= i < |rest| ==> rest[i] == s[i + 1];
      assert forall i :: 1 <= i < |s| ==> s[i] == rest[i - 1];
      assert forall x :: x in rest <==> exists j :: 1 <= j < |s| && s[j] == x;
    }
  }

  lemma {:induction false} FlatOnce<T(!new)>(ss: seq<seq<T>>, wanted: T -> bool)
    ensures NoDup(Filter(Flat(ss), wanted)) <==> Once(ss, wanted)
  {
    if ss != [] {
      var front, last := ss[..|ss| - 1], ss[|ss| - 1];
      FlatOnce(front, wanted);
      FilterConcat(Flat(front), last, wanted);
      NoDupConcat(Filter(Flat(front), wanted), Filter(last, wanted));
      RowOnce(last, wanted);
      OnceSplits(ss, wanted);
      forall x ensures x in Flat(front) <==> Somewhere(front, x) {
        FlatMembers(front, x);
      }
      hide Once, NoDup, OnceInRow, Somewhere;
    }
  }

  lemma InFrontAndLast<T>(ss: seq<seq<T>>, k: int, i: int, j: int, x: T)
    requires At(ss, k, i, x) && k < |ss| - 1 && At(ss, |ss| - 1, j, x)
    ensures x in ss[|ss| - 1] && Somewhere(ss[..|ss| - 1], x)
  {
    assert At(ss[..|ss| - 1], k, i, x);
  }

  /** Nothing twice in the front, nothing twice in the last, nothing in both. */
  lemma OnceSplits<T(!new)>(ss: seq<seq<T>>, wanted: T -> bool)
    requires ss != []
    ensures var front, last := ss[..|ss| - 1], ss[|ss| - 1];
      Once(ss, wanted) <==>
        && Once(front, wanted) && OnceInRow(last, wanted)
        && forall x :: x in last && wanted(x) ==> !Somewhere(front, x)
  {
    var front, last := ss[..|ss| - 1], ss[|ss| - 1];
    var n := |front|;
    assert forall k, i, x :: At(ss, k, i, x) && k < n <==> At(front, k, i, x);
    assert forall i, x :: At(ss, n, i, x) <==> 0 <= i < |last| && last[i] == x;
    if Once(ss, wanted) {
      assert forall j :: 0 <= j < |last| ==> At(ss, n, j, last[j]);
      forall x, k, i | At(front, k, i, x) && wanted(x) ensures x !in last {
        assert At(ss, k, i, x);
      }
    }
    if Once(front, wanted) && OnceInRow(last, wanted)
       && forall x :: x in last && wanted(x) ==> !Somewhere(front, x)
    {
      forall k, i, l, j, x | At(ss, k, i, x) && At(ss, l, j, x) && wanted(x) ensures k == l && i == j {
        if k < n && l < n {
          assert At(front, k, i, x) && At(front, l, j, x);
        } else if k < n {
          InFrontAndLast(ss, k, i, j, x);
          assert false;
        } else if l < n {
          InFrontAndLast(ss, l, j, i, x);
          assert false;
        }
      }
    }
  }

  // ---------- Packages and graph ----------

  /** The package of an id is the last one listed under it. */
  ghost predicate Describes(packages: seq<Package>, id: PackageId, p: Package) {
    exists k :: 0 <= k < |packages| && packages[k] == p && p.id == id
                && forall j :: k < j < |packages| ==> packages[j].id != id
  }

  lemma {:induction false} PackageMapIs(packages: seq<Package>, id: PackageId, p: Package)
    ensures id in PackageMap(packages) && PackageMap(packages)[id] == p <==> Describes(packages, id, p)
  {
    if packages != [] {
      var front, last := packages[..|packages| - 1], packages[|packages| - 1];
      PackageMapIs(front, id, p);
      if last.id == id {
        assert packages[|packages| - 1] == last;
      } else {
        if k :| 0 <= k < |front| && front[k] == p && p.id == id && forall j :: k < j < |front| ==> front[j].id != id {
          assert packages[k] == p && forall j :: k < j < |packages| ==> packages[j].id != id;
        }
        if k :| 0 <= k < |packages| && packages[k] == p && p.id == id
                && forall j :: k < j < |packages| ==> packages[j].id != id {
          assert front[k] == p && forall j :: k < j < |front| ==> front[j].id != id;
        }
      }
    }
  }

  /** The listed graph: every package a node, its dependencies the edges into it, no path back to where it began. */
  ghost predicate GraphReads(plan: Plan) {
    && plan.nodes != [] && (forall i, j :: 0 <= i < j < |plan.nodes| ==> plan.nodes[i] != plan.nodes[j])
    && (forall id, p :: Describes(plan.packages, id, p) ==> id in plan.nodes)
    && (forall id :: id in plan.nodes ==> exists p :: Describes(plan.packages, id, p))
    && EdgesInside(plan.nodes, plan.edges)
    && (forall id, p :: Describes(plan.packages, id, p) ==> forall d :: d in p.dependsOn <==> (d, id) in plan.edges)
    && NoPathReturns(plan.edges)
  }

  lemma GraphIs(plan: Plan)
    ensures GraphDefect(plan.nodes, plan.edges, DependsOn(PackageMap(plan.packages))) == None <==> GraphReads(plan)
    ensures GraphReads(plan) ==> ToSet(plan.nodes) == PackageMap(plan.packages).Keys
  {
    var packages := PackageMap(plan.packages);
    DefectIs(plan.nodes, plan.edges, DependsOn(packages));
    forall id, p ensures id in packages && packages[id] == p <==> Describes(plan.packages, id, p) {
      PackageMapIs(plan.packages, id, p);
    }
    hide GraphDefect, PackageMap, Describes, NoPathReturns, EdgesInside;
    forall id ensures id in packages <==> exists p :: Describes(plan.packages, id, p) {
      if id in packages {
        assert Describes(plan.packages, id, packages[id]);
      }
    }
  }

  /** Waves are longest-path depths, and everything else leads to the release. */
  ghost predicate DepthsRead(plan: Plan) {
    && (forall id, p :: Describes(plan.packages, id, p) ==> LongestPathInto(plan.edges, id, p.wave + 1))
    && (forall id, p :: Describes(plan.packages, id, p) && id != "PKG-MAIN-90-INTEGRATE-QUALIFY-RELEASE" ==>
          PathLeads(plan.edges, id, "PKG-MAIN-90-INTEGRATE-QUALIFY-RELEASE"))
  }

  ghost predicate PathLeads(edges: seq<(PackageId, PackageId)>, a: PackageId, b: PackageId) {
    exists path :: IsPath(edges, path) && |path| >= 2 && path[0] == a && path[|path| - 1] == b
  }

  lemma PathLeadsIs(edges: seq<(PackageId, PackageId)>, a: PackageId, b: PackageId)
    ensures Digraph.Reaches(ToSet(edges), a, b) <==> PathLeads(edges, a, b)
  {
    PathIsWalk(edges);
    hide NoPathReturns, IsPath, Digraph.IsWalk;
  }

  lemma DescribedAre(plan: Plan)
    ensures var packages := PackageMap(plan.packages);
      && (forall id, p :: Describes(plan.packages, id, p) ==> id in packages && packages[id] == p)
      && (forall id :: id in packages ==> Describes(plan.packages, id, packages[id]))
  {
    var packages := PackageMap(plan.packages);
    forall id, p ensures id in packages && packages[id] == p <==> Describes(plan.packages, id, p) {
      PackageMapIs(plan.packages, id, p);
    }
  }

  lemma DepthsAre(plan: Plan)
    ensures WavesAreEarliest(plan, PackageMap(plan.packages)) && AllJoinRelease(plan, PackageMap(plan.packages))
      <==> DepthsRead(plan)
  {
    var packages := PackageMap(plan.packages);
    DescribedAre(plan);
    hide PackageMap, Describes, Digraph.Reaches, PathLeads, LongestTo, LongestPathInto;
    forall id | id in packages
      ensures packages[id].wave >= 0 && LongestTo(plan.edges, id, (packages[id].wave + 1) as nat)
        <==> LongestPathInto(plan.edges, id, packages[id].wave + 1)
      ensures Digraph.Reaches(ToSet(plan.edges), id, RELEASE_ID) <==> PathLeads(plan.edges, id, RELEASE_ID)
    {
      WaveIs(plan.edges, id, packages[id].wave);
      PathLeadsIs(plan.edges, id, RELEASE_ID);
    }
  }

  lemma WaveIs(edges: seq<(PackageId, PackageId)>, id: PackageId, wave: int)
    ensures wave >= 0 && LongestTo(edges, id, (wave + 1) as nat) <==> LongestPathInto(edges, id, wave + 1)
  {
    if wave >= 0 {
      LongestIs(edges, id, wave + 1);
    }
  }

  // ---------- Queue, lanes and slots ----------

  ghost predicate HasRole(plan: Plan, id: PackageId, role: Role) {
    exists p :: Describes(plan.packages, id, p) && p.ownerRole == role
  }

  function LaneLists(lanes: seq<Lane>): seq<seq<PackageId>> {
    seq(|lanes|, k requires 0 <= k < |lanes| => lanes[k].packages)
  }

  function SlotLists(slots: seq<Slot>): seq<seq<PackageId>> {
    seq(|slots|, k requires 0 <= k < |slots| => slots[k].main + slots[k].workers)
  }

  function MainLists(slots: seq<Slot>): seq<seq<PackageId>> {
    seq(|slots|, k requires 0 <= k < |slots| => slots[k].main)
  }

  predicate NamesKnown(names: seq<PackageId>, nodes: seq<PackageId>) {
    forall id | id in names :: id in nodes
  }

  /** The queue lists the Main packages once each; the others are Worker packages, each once in the lanes. */
  ghost predicate QueueAndLanesRead(plan: Plan, schedule: Schedule) {
    && (forall i, j :: 0 <= i < j < |schedule.mainSerialQueue| ==>
          schedule.mainSerialQueue[i] != schedule.mainSerialQueue[j])
    && (forall id :: id in schedule.mainSerialQueue <==> HasRole(plan, id, Main))
    && (forall lane | lane in schedule.lanes ::
          && NamesKnown(lane.packages, plan.nodes) && NamesKnown(lane.forkAfter, plan.nodes)
          && NamesKnown(lane.crossLaneWaits, plan.nodes) && NamesKnown(lane.joinAt, plan.nodes))
    && (forall id :: id in plan.nodes && id !in schedule.mainSerialQueue ==>
          HasRole(plan, id, Worker) && Somewhere(LaneLists(schedule.lanes), id))
    && WorkersOnce(plan, LaneLists(schedule.lanes))
  }

  ghost predicate WorkersOnce(plan: Plan, lists: seq<seq<PackageId>>) {
    forall k, i, l, j, id :: At(lists, k, i, id) && At(lists, l, j, id) && HasRole(plan, id, Worker) ==>
      k == l && i == j
  }

  lemma {:induction false} LaneWorkersAre(lanes: seq<Lane>, packages: map<PackageId, Package>)
    ensures LaneWorkers(lanes, packages)
      == Filter(Flat(LaneLists(lanes)), id => id in packages && packages[id].ownerRole == Worker)
  {
    if lanes != [] {
      hide Filter;
      var front, last := lanes[..|lanes| - 1], lanes[|lanes| - 1];
      LaneWorkersAre(front, packages);
      var lists := LaneLists(lanes);
      assert lists[..|lists| - 1] == LaneLists(front) && lists[|lists| - 1] == last.packages;
      FilterConcat(Flat(LaneLists(front)), last.packages, id => id in packages && packages[id].ownerRole == Worker);
    }
  }

  lemma RolesAre(plan: Plan, id: PackageId, role: Role)
    ensures var packages := PackageMap(plan.packages);
      HasRole(plan, id, role) <==> id in packages && packages[id].ownerRole == role
  {
    var packages := PackageMap(plan.packages);
    hide PackageMap, Describes;
    forall p ensures id in packages && packages[id] == p <==> Describes(plan.packages, id, p) {
      PackageMapIs(plan.packages, id, p);
    }
    if id in packages {
      assert Describes(plan.packages, id, packages[id]);
    }
  }

  lemma LanesOnce(plan: Plan, lanes: seq<Lane>)
    ensures NoDup(LaneWorkers(lanes, PackageMap(plan.packages))) <==> WorkersOnce(plan, LaneLists(lanes))
    ensures forall id :: id in LaneWorkers(lanes, PackageMap(plan.packages)) <==>
      HasRole(plan, id, Worker) && Somewhere(LaneLists(lanes), id)
  {
    var packages := PackageMap(plan.packages);
    var isWorker := id => id in packages && packages[id].ownerRole == Worker;
    LaneWorkersAre(lanes, packages);
    FlatOnce(LaneLists(lanes), isWorker);
    forall id ensures HasRole(plan, id, Worker) <==> isWorker(id)
      ensures id in Flat(LaneLists(lanes)) <==> Somewhere(LaneLists(lanes), id)
    {
      RolesAre(plan, id, Worker);
      FlatMembers(LaneLists(lanes), id);
    }
    hide PackageMap, HasRole, Somewhere, At, Flat, LaneLists, LaneWorkers, NoDup;
  }

  lemma QueueAndLanesAre(plan: Plan, schedule: Schedule)
    requires ToSet(plan.nodes) == PackageMap(plan.packages).Keys
    ensures QueueAndLanesOk(PackageMap(plan.packages), schedule) <==> QueueAndLanesRead(plan, schedule)
  {
    var packages := PackageMap(plan.packages);
    LanesOnce(plan, schedule.lanes);
    LanesAreKnown(schedule.lanes, packages, plan.nodes);
    hide PackageMap, HasRole, Somewhere, WorkersOnce, LaneLists, LaneWorkers, LaneKnown, NamesKnown, MainIds, WorkerIds;
    QueueIs(plan, schedule.mainSerialQueue);
    if ToSet(schedule.mainSerialQueue) == MainIds(packages) {
      WorkersAre(plan, schedule.mainSerialQueue, LaneWorkers(schedule.lanes, packages), LaneLists(schedule.lanes));
    }
  }

  lemma QueueIs(plan: Plan, queue: seq<PackageId>)
    ensures ToSet(queue) == MainIds(PackageMap(plan.packages)) <==>
      forall id :: id in queue <==> HasRole(plan, id, Main)
  {
    var packages := PackageMap(plan.packages);
    hide PackageMap, HasRole;
    forall id ensures id in MainIds(packages) <==> HasRole(plan, id, Main) {
      RolesAre(plan, id, Main);
    }
    hide MainIds;
  }

  /** With the queue settled, the lanes cover the rest exactly when each of the rest is a listed Worker package. */
  lemma WorkersAre(plan: Plan, queue: seq<PackageId>, workers: seq<PackageId>, lists: seq<seq<PackageId>>)
    requires ToSet(plan.nodes) == PackageMap(plan.packages).Keys
    requires ToSet(queue) == MainIds(PackageMap(plan.packages))
    requires forall id :: id in workers <==> HasRole(plan, id, Worker) && Somewhere(lists, id)
    ensures ToSet(workers) == WorkerIds(PackageMap(plan.packages)) <==>
      forall id :: id in plan.nodes && id !in queue ==> HasRole(plan, id, Worker) && Somewhere(lists, id)
  {
    var packages := PackageMap(plan.packages);
    hide PackageMap, HasRole, Somewhere;
    forall id ensures id in WorkerIds(packages) <==> id in plan.nodes && id !in queue
      ensures HasRole(plan, id, Worker) ==> id in WorkerIds(packages)
    {
      RolesAre(plan, id, Worker);
      assert id in packages <==> id in ToSet(plan.nodes);
      assert id in queue <==> id in MainIds(packages);
    }
    hide MainIds, WorkerIds;
  }

  lemma LanesAreKnown(lanes: seq<Lane>, packages: map<PackageId, Package>, nodes: seq<PackageId>)
    requires ToSet(nodes) == packages.Keys
    ensures (forall k :: 0 <= k < |lanes| ==> LaneKnown(lanes[k], packages)) <==>
      forall lane | lane in lanes ::
        && NamesKnown(lane.packages, nodes) && NamesKnown(lane.forkAfter, nodes)
        && NamesKnown(lane.crossLaneWaits, nodes) && NamesKnown(lane.joinAt, nodes)
  {
    forall lane: Lane ensures LaneKnown(lane, packages) <==>
      && NamesKnown(lane.packages, nodes) && NamesKnown(lane.forkAfter, nodes)
      && NamesKnown(lane.crossLaneWaits, nodes) && NamesKnown(lane.joinAt, nodes)
    {
      assert forall id :: id in nodes <==> id in packages;
    }
    hide LaneKnown, NamesKnown;
  }

  /** Slots are numbered, within capacity and role, place every package once, and let every edge run forward. */
  ghost predicate SlotsRead(plan: Plan, schedule: Schedule) {
    var slots := schedule.slots;
    && (forall i :: 0 <= i < |slots| ==>
          && slots[i].slot == i && |slots[i].main| <= schedule.mainSlots && |slots[i].workers| <= schedule.workerSlots
          && (forall id :: id in slots[i].main ==> id in schedule.mainSerialQueue)
          && (forall id :: id in slots[i].workers ==> id in plan.nodes && id !in schedule.mainSerialQueue))
    && (forall id :: id in plan.nodes <==> Somewhere(SlotLists(slots), id))
    && (forall k, i, l, j, id :: At(SlotLists(slots), k, i, id) && At(SlotLists(slots), l, j, id) ==> k == l && i == j)
    && Flat(MainLists(slots)) == schedule.mainSerialQueue
    && schedule.metrics.referenceSlots == |slots|
    && (forall a, b, k, l, i, j ::
          (a, b) in plan.edges && At(SlotLists(slots), k, i, a) && At(SlotLists(slots), l, j, b) ==> k < l)
  }

  lemma {:induction false} PlacedAre(slots: seq<Slot>)
    ensures Placed(slots) == Flat(SlotLists(slots)) && PlacedOnMain(slots) == Flat(MainLists(slots))
  {
    if slots != [] {
      var front := slots[..|slots| - 1];
      PlacedAre(front);
      var lists, mains := SlotLists(slots), MainLists(slots);
      assert lists[..|lists| - 1] == SlotLists(front) && mains[..|mains| - 1] == MainLists(front);
    }
  }

  lemma {:induction false} FilterEvery<T>(s: seq<T>, every: T -> bool)
    requires forall x :: every(x)
    ensures Filter(s, every) == s
  {
    if s != [] {
      FilterEvery(s[1..], every);
    }
  }

  lemma SlotsOnce(slots: seq<Slot>)
    ensures NoDup(Placed(slots)) <==> forall k, i, l, j, id ::
      At(SlotLists(slots), k, i, id) && At(SlotLists(slots), l, j, id) ==> k == l && i == j
    ensures forall id :: id in Placed(slots) <==> Somewhere(SlotLists(slots), id)
  {
    var every := (id: PackageId) => true;
    PlacedAre(slots);
    FilterEvery(Flat(SlotLists(slots)), every);
    FlatOnce(SlotLists(slots), every);
    forall id ensures id in Flat(SlotLists(slots)) <==> Somewhere(SlotLists(slots), id) {
      FlatMembers(SlotLists(slots), id);
    }
    hide Flat, SlotLists, Somewhere, At, Placed, NoDup, Filter;
  }

  lemma InSlotIs(slots: seq<Slot>, k: int, id: PackageId)
    ensures InSlot(slots, k, id) <==> exists i :: At(SlotLists(slots), k, i, id)
  {
    if InSlot(slots, k, id) {
      var all := slots[k].main + slots[k].workers;
      assert id in all;
      var i :| 0 <= i < |all| && all[i] == id;
      assert At(SlotLists(slots), k, i, id);
    }
  }

  lemma EdgesForward(edges: seq<(PackageId, PackageId)>, slots: seq<Slot>)
    ensures EdgesRunForward(edges, slots) <==> forall a, b, k, l, i, j ::
      (a, b) in edges && At(SlotLists(slots), k, i, a) && At(SlotLists(slots), l, j, b) ==> k < l
  {
    forall k, id ensures InSlot(slots, k, id) <==> exists i :: At(SlotLists(slots), k, i, id) {
      InSlotIs(slots, k, id);
    }
    hide InSlot, At, SlotLists;
    if EdgesRunForward(edges, slots) {
      forall a, b, k, l, i, j
        | (a, b) in edges && At(SlotLists(slots), k, i, a) && At(SlotLists(slots), l, j, b) ensures k < l
      {
        assert InSlot(slots, k, (a, b).0) && InSlot(slots, l, (a, b).1);
      }
    } else {
      var e, k, l :| e in edges && InSlot(slots, k, e.0) && InSlot(slots, l, e.1) && !(k < l);
      var i :| At(SlotLists(slots), k, i, e.0);
      var j :| At(SlotLists(slots), l, j, e.1);
      assert (e.0, e.1) in edges;
    }
  }

  lemma SlotsAreFit(plan: Plan, schedule: Schedule)
    requires ToSet(plan.nodes) == PackageMap(plan.packages).Keys
    requires ToSet(schedule.mainSerialQueue) == MainIds(PackageMap(plan.packages))
    ensures SlotsFit(schedule, PackageMap(plan.packages)) <==> forall i :: 0 <= i < |schedule.slots| ==>
      && |schedule.slots[i].main| <= schedule.mainSlots && |schedule.slots[i].workers| <= schedule.workerSlots
      && (forall id :: id in schedule.slots[i].main ==> id in schedule.mainSerialQueue)
      && (forall id :: id in schedule.slots[i].workers ==> id in plan.nodes && id !in schedule.mainSerialQueue)
  {
    var packages := PackageMap(plan.packages);
    forall id ensures id in MainIds(packages) <==> id in schedule.mainSerialQueue
      ensures id in WorkerIds(packages) <==> id in plan.nodes && id !in schedule.mainSerialQueue
    {
      assert id in packages <==> id in ToSet(plan.nodes);
      assert id in MainIds(packages) <==> id in ToSet(schedule.mainSerialQueue);
    }
    hide MainIds, WorkerIds, PackageMap;
  }

  lemma SlotsAre(plan: Plan, schedule: Schedule)
    requires ToSet(plan.nodes) == PackageMap(plan.packages).Keys
    requires ToSet(schedule.mainSerialQueue) == MainIds(PackageMap(plan.packages))
    ensures CapacityScheduleOk(plan, PackageMap(plan.packages), schedule) <==> SlotsRead(plan, schedule)
  {
    hide PackageMap, MainIds, Placed, PlacedOnMain, NoDup, Somewhere, At, SlotLists, MainLists, EdgesRunForward,
      SlotsFit;
    SlotsOnce(schedule.slots);
    PlacedAre(schedule.slots);
    EdgesForward(plan.edges, schedule.slots);
    SlotsAreFit(plan, schedule);
    EveryoneIsPlaced(plan, schedule.slots);
  }

  lemma EveryoneIsPlaced(plan: Plan, slots: seq<Slot>)
    requires ToSet(plan.nodes) == PackageMap(plan.packages).Keys
    ensures ToSet(Placed(slots)) == PackageMap(plan.packages).Keys <==>
      forall id :: id in plan.nodes <==> Somewhere(SlotLists(slots), id)
  {
    SlotsOnce(slots);
    hide PackageMap, Placed, NoDup, Somewhere, At, SlotLists;
    assert forall id :: id in plan.nodes <==> id in PackageMap(plan.packages);
  }

  // ---------- Metrics and critical paths ----------

  ghost predicate MetricsRead(plan: Plan, schedule: Schedule) {
    var m := schedule.metrics;
    && m.packageCount == m.allSerialUnitSlots == Some(|plan.nodes|)
    && m.mainPackageCount == Some(|schedule.mainSerialQueue|)
    && m.workerPackageCount == Some(|plan.nodes| - |schedule.mainSerialQueue|)
    && exists p :: LongestOfAll(plan.nodes, plan.edges, p) && m.dagDepth == Some(|p|)
  }

  lemma MetricsAre(plan: Plan, schedule: Schedule)
    requires NoDup(plan.nodes) && ToSet(plan.nodes) == PackageMap(plan.packages).Keys
    requires NoDup(schedule.mainSerialQueue)
    requires ToSet(schedule.mainSerialQueue) == MainIds(PackageMap(plan.packages))
    ensures MetricsCurrent(plan, PackageMap(plan.packages), schedule.metrics) <==> MetricsRead(plan, schedule)
  {
    hide Critical, LongestOfAll, PackageMap, NoDup, MainIds, WorkerIds;
    RolesCount(PackageMap(plan.packages), plan.nodes, schedule.mainSerialQueue);
    forall p ensures Critical(plan.nodes, plan.edges, p) <==> LongestOfAll(plan.nodes, plan.edges, p) {
      CriticalIs(plan.nodes, plan.edges, p);
    }
  }

  lemma RolesCount(packages: map<PackageId, Package>, nodes: seq<PackageId>, queue: seq<PackageId>)
    requires NoDup(nodes) && ToSet(nodes) == packages.Keys && NoDup(queue) && ToSet(queue) == MainIds(packages)
    ensures |packages| == |nodes| && |MainIds(packages)| == |queue| && |WorkerIds(packages)| == |nodes| - |queue|
  {
    NoDupCardinality(nodes);
    NoDupCardinality(queue);
    assert |packages| == |packages.Keys|;
    assert packages.Keys == MainIds(packages) + WorkerIds(packages);
  }

  ghost predicate CriticalRead(plan: Plan, schedule: Schedule) {
    forall p {:trigger multiset(schedule.criticalPaths)[p]} ::
      multiset(schedule.criticalPaths)[p]
        == if LongestOfAll(plan.nodes, plan.edges, p) then Weight(plan.edges, p) else 0
  }

  lemma CriticalPathsAre(plan: Plan, schedule: Schedule)
    ensures CriticalList(plan.nodes, plan.edges, schedule.criticalPaths) <==> CriticalRead(plan, schedule)
  {
    forall p ensures Critical(plan.nodes, plan.edges, p) <==> LongestOfAll(plan.nodes, plan.edges, p) {
      CriticalIs(plan.nodes, plan.edges, p);
    }
    hide Critical, LongestOfAll, Weight;
  }

  // ---------- Acceptance ----------

  /** The checker accepts exactly the plan files that read like this. */
  lemma AcceptedIff(plan: Plan)
    ensures Accepted(plan) <==>
      && plan.schedule.Some? && GraphReads(plan) && DepthsRead(plan) && MetricsRead(plan, plan.schedule.value)
      && CriticalRead(plan, plan.schedule.value) && QueueAndLanesRead(plan, plan.schedule.value)
      && SlotsRead(plan, plan.schedule.value)
  {
    GraphIs(plan);
    DepthsAre(plan);
    if plan.schedule.Some? && GraphReads(plan) {
      var schedule := plan.schedule.value;
      assert NoDup(plan.nodes);
      CriticalPathsAre(plan, schedule);
      QueueAndLanesAre(plan, schedule);
      if QueueAndLanesOk(PackageMap(plan.packages), schedule) {
        SlotsAre(plan, schedule);
        MetricsAre(plan, schedule);
      }
    }
    hide GraphDefect, DependsOn, PackageMap, GraphReads, DepthsRead, MetricsRead, CriticalRead, QueueAndLanesRead,
      SlotsRead, WavesAreEarliest, AllJoinRelease, MetricsCurrent, CriticalList, QueueAndLanesOk, CapacityScheduleOk;
  }
}
