/** The release plan's execution schedule: what the checker accepts and what an accepted schedule guarantees. */
module ExecutionSchedule {
  import opened Collections
  import opened Digraph
  import opened DependencyGraph
  import opened CriticalPaths
  import opened Sorting

  type PackageId = string

  const RELEASE_ID: PackageId := "PKG-MAIN-90-INTEGRATE-QUALIFY-RELEASE"

  datatype Role = Main | Worker | OtherRole(name: string)

  datatype Package = Package(id: PackageId, ownerRole: Role, wave: int, dependsOn: seq<PackageId>)

  datatype Slot = Slot(slot: int, main: seq<PackageId>, workers: seq<PackageId>)

  datatype Lane = Lane(packages: seq<PackageId>, forkAfter: seq<PackageId>, crossLaneWaits: seq<PackageId>,
                       joinAt: seq<PackageId>)

  /** Keys the checker reads with `get` may be missing. */
  datatype Metrics = Metrics(packageCount: Option<int>, mainPackageCount: Option<int>, workerPackageCount: Option<int>,
                             allSerialUnitSlots: Option<int>, dagDepth: Option<int>, referenceSlots: int)

  datatype Schedule = Schedule(metrics: Metrics, criticalPaths: seq<seq<PackageId>>, mainSerialQueue: seq<PackageId>,
                               lanes: seq<Lane>, slots: seq<Slot>, mainSlots: int, workerSlots: int)

  datatype Plan = Plan(nodes: seq<PackageId>, edges: seq<(PackageId, PackageId)>, packages: seq<Package>,
                       schedule: Option<Schedule>)

  datatype ScheduleError =
    | MissingSchedule
    | BadGraph(cause: GraphError)
    | StaleWave
    | DoesNotJoinRelease
    | StaleMetrics
    | CriticalPathsMismatch
    | BadMainQueue
    | UnknownLanePackage
    | BadLaneCoverage
    | SlotsNotContiguous
    | OverCapacity
    | WrongRole
    | ScheduledTwice
    | CoverageMismatch
    | MainOrderMismatch
    | SlotCountMismatch
    | DependencyViolated

  /** `{package["id"]: package for package in plan["packages"]}`. */
  function PackageMap(packages: seq<Package>): map<PackageId, Package> {
    if packages == [] then map[]
    else
      var last := packages[|packages| - 1];
      PackageMap(packages[..|packages| - 1])[last.id := last]
  }

  function DependsOn(packages: map<PackageId, Package>): map<PackageId, seq<PackageId>> {
    map id | id in packages :: packages[id].dependsOn
  }

  function MainIds(packages: map<PackageId, Package>): set<PackageId> {
    set id | id in packages && packages[id].ownerRole == Main
  }

  function WorkerIds(packages: map<PackageId, Package>): set<PackageId> {
    packages.Keys - MainIds(packages)
  }

  // ---------- What the checker accepts ----------

  /** Everything the slots place, in order. */
  function Placed(slots: seq<Slot>): seq<PackageId> {
    if slots == [] then []
    else
      var last := slots[|slots| - 1];
      Placed(slots[..|slots| - 1]) + (last.main + last.workers)
  }

  function PlacedOnMain(slots: seq<Slot>): seq<PackageId> {
    if slots == [] then [] else PlacedOnMain(slots[..|slots| - 1]) + slots[|slots| - 1].main
  }

  predicate InSlot(slots: seq<Slot>, i: int, id: PackageId) {
    0 <= i < |slots| && (id in slots[i].main || id in slots[i].workers)
  }

  function LaneWorkers(lanes: seq<Lane>, packages: map<PackageId, Package>): seq<PackageId> {
    if lanes == [] then []
    else
      LaneWorkers(lanes[..|lanes| - 1], packages) + WorkersOf(lanes[|lanes| - 1], packages)
  }

  function WorkersOf(lane: Lane, packages: map<PackageId, Package>): seq<PackageId> {
    Filter(lane.packages, id => id in packages && packages[id].ownerRole == Worker)
  }

  predicate LaneKnown(lane: Lane, packages: map<PackageId, Package>) {
    ToSet(lane.packages) + ToSet(lane.forkAfter) + ToSet(lane.crossLaneWaits) + ToSet(lane.joinAt) <= packages.Keys
  }

  ghost predicate WavesAreEarliest(plan: Plan, packages: map<PackageId, Package>) {
    forall id :: id in packages ==>
      packages[id].wave >= 0 && LongestTo(plan.edges, id, (packages[id].wave + 1) as nat)
  }

  ghost predicate AllJoinRelease(plan: Plan, packages: map<PackageId, Package>) {
    forall id :: id in packages && id != RELEASE_ID ==> Reaches(ToSet(plan.edges), id, RELEASE_ID)
  }

  ghost predicate MetricsCurrent(plan: Plan, packages: map<PackageId, Package>, metrics: Metrics) {
    && metrics.packageCount == Some(|packages|)
    && metrics.mainPackageCount == Some(|MainIds(packages)|)
    && metrics.workerPackageCount == Some(|WorkerIds(packages)|)
    && metrics.allSerialUnitSlots == Some(|packages|)
    && exists p :: Critical(plan.nodes, plan.edges, p) && metrics.dagDepth == Some(|p|)
  }

  predicate SlotFits(schedule: Schedule, slot: Slot, packages: map<PackageId, Package>) {
    && |slot.main| <= schedule.mainSlots && |slot.workers| <= schedule.workerSlots
    && ToSet(slot.main) <= MainIds(packages) && ToSet(slot.workers) <= WorkerIds(packages)
  }

  predicate SlotsFit(schedule: Schedule, packages: map<PackageId, Package>) {
    forall i | 0 <= i < |schedule.slots| :: SlotFits(schedule, schedule.slots[i], packages)
  }

  ghost predicate EdgesRunForward(edges: seq<(PackageId, PackageId)>, slots: seq<Slot>) {
    forall e, i, j :: e in edges && InSlot(slots, i, e.0) && InSlot(slots, j, e.1) ==> i < j
  }

  ghost predicate CapacityScheduleOk(plan: Plan, packages: map<PackageId, Package>, schedule: Schedule) {
    && (forall i :: 0 <= i < |schedule.slots| ==> schedule.slots[i].slot == i)
    && SlotsFit(schedule, packages)
    && NoDup(Placed(schedule.slots)) && ToSet(Placed(schedule.slots)) == packages.Keys
    && PlacedOnMain(schedule.slots) == schedule.mainSerialQueue
    && schedule.metrics.referenceSlots == |schedule.slots|
    && EdgesRunForward(plan.edges, schedule.slots)
  }

  ghost predicate QueueAndLanesOk(packages: map<PackageId, Package>, schedule: Schedule) {
    && NoDup(schedule.mainSerialQueue) && ToSet(schedule.mainSerialQueue) == MainIds(packages)
    && (forall k :: 0 <= k < |schedule.lanes| ==> LaneKnown(schedule.lanes[k], packages))
    && NoDup(LaneWorkers(schedule.lanes, packages))
    && ToSet(LaneWorkers(schedule.lanes, packages)) == WorkerIds(packages)
  }

  /** The declarative reading of an accepted plan. */
  ghost predicate Accepted(plan: Plan) {
    var packages := PackageMap(plan.packages);
    && plan.schedule.Some?
    && GraphDefect(plan.nodes, plan.edges, DependsOn(packages)) == None
    && WavesAreEarliest(plan, packages)
    && AllJoinRelease(plan, packages)
    && MetricsCurrent(plan, packages, plan.schedule.value.metrics)
    && CriticalList(plan.nodes, plan.edges, plan.schedule.value.criticalPaths)
    && QueueAndLanesOk(packages, plan.schedule.value)
    && CapacityScheduleOk(plan, packages, plan.schedule.value)
  }

  /** The smallest plan: the release package alone. */
  function LonePlan(id: PackageId): Plan {
    Plan([id], [], [Package(id, Main, 0, [])],
         Some(Schedule(Metrics(Some(1), Some(1), Some(0), Some(1), Some(1), 1), [[id]], [id], [],
                       [Slot(0, [id], [])], 1, 0)))
  }

  lemma FirstArc<T>(arcs: set<(T, T)>, p: seq<T>)
    requires IsWalk(arcs, p) && |p| > 1
    ensures (p[0], p[1]) in arcs
  {
  }

  lemma LoneGraph(id: PackageId)
    ensures forall p :: Critical([id], [], p) <==> p == [id]
    ensures LongestTo([], id, 1) && !Cyclic(ToSet<(PackageId, PackageId)>([]))
    ensures CriticalList([id], [], [[id]])
  {
    var none: seq<(PackageId, PackageId)> := [];
    assert ToSet(none) == {};
    forall p: seq<PackageId> ensures IsWalk(ToSet(none), p) <==> |p| == 1 {
      if |p| > 1 && IsWalk(ToSet(none), p) {
        FirstArc(ToSet(none), p);
      }
    }
    assert InGraph([id], none, [id]);
    forall p {:trigger multiset([[id]])[p]}
      ensures multiset([[id]])[p] == if Critical([id], none, p) then Weight(none, p) else 0
    {
      assert multiset([[id]])[p] == if p == [id] then 1 else 0;
      assert Critical([id], none, p) <==> p == [id];
      assert Weight(none, [id]) == 1;
    }
  }

  lemma OneSlot(s: Slot)
    ensures Placed([s]) == s.main + s.workers && PlacedOnMain([s]) == s.main
  {
    assert [s][..0] == [];
  }

  lemma OnePackage(p: Package)
    ensures PackageMap([p]) == map[p.id := p]
    ensures MainIds(PackageMap([p])) == if p.ownerRole == Main then {p.id} else {}
  {
    assert [p][..0] == [];
  }

  lemma LoneSchedule(id: PackageId)
    ensures var packages := PackageMap(LonePlan(id).packages);
      && QueueAndLanesOk(packages, LonePlan(id).schedule.value)
      && CapacityScheduleOk(LonePlan(id), packages, LonePlan(id).schedule.value)
  {
    hide Placed, PlacedOnMain, PackageMap, MainIds;
    OneSlot(Slot(0, [id], []));
    OnePackage(Package(id, Main, 0, []));
  }

  lemma LoneMetrics(id: PackageId)
    ensures var plan, packages := LonePlan(id), PackageMap(LonePlan(id).packages);
      && packages.Keys == {id} && WavesAreEarliest(plan, packages)
      && GraphDefect(plan.nodes, plan.edges, DependsOn(packages)) == None
      && MetricsCurrent(plan, packages, plan.schedule.value.metrics)
  {
    LoneGraph(id);
    OnePackage(Package(id, Main, 0, []));
    hide CriticalList, Cyclic, LongestTo, PackageMap, MainIds;
    assert Critical([id], [], [id]);
  }

  /** Acceptance can be met: what follows from it is not empty. */
  lemma LoneReleaseIsAccepted()
    ensures Accepted(LonePlan(RELEASE_ID))
  {
    LoneGraph(RELEASE_ID);
    LoneMetrics(RELEASE_ID);
    LoneSchedule(RELEASE_ID);
    hide QueueAndLanesOk, CapacityScheduleOk, CriticalList, WavesAreEarliest, GraphDefect, MetricsCurrent, PackageMap;
  }

  // ---------- Reachability worklist ----------

  method ReachableFrom(nodes: seq<PackageId>, edges: seq<(PackageId, PackageId)>,
                       successors: map<PackageId, seq<PackageId>>, start: PackageId)
    returns (seen: set<PackageId>)
    requires KnownEndpoints(nodes, edges) && start in nodes
    requires successors.Keys == ToSet(nodes)
    requires forall n :: n in successors ==> successors[n] == Successors(edges, n)
    ensures forall x :: x in seen <==> Reaches(ToSet(edges), start, x)
  {
    hide Reaches;
    var pending := successors[start];
    seen := {};
    StepFrom(nodes, edges, start, start);
    while pending != []
      invariant seen <= ToSet(nodes) && (forall x :: x in pending ==> x in nodes)
      invariant forall x :: x in seen || x in pending ==> Reaches(ToSet(edges), start, x)
      invariant forall x, y :: (x == start || x in seen) && (x, y) in ToSet(edges) ==> y in seen || y in pending
      decreases |ToSet(nodes) - seen|, |pending|
    {
      var node := pending[|pending| - 1];
      assert node in pending;
      ghost var before := pending;
      pending := pending[..|pending| - 1];
      assert before == pending + [node];
      if node !in seen {
        assert node in ToSet(nodes) - seen;
        assert ToSet(nodes) - (seen + {node}) < ToSet(nodes) - seen;
        SubsetCardinality(ToSet(nodes) - (seen + {node}), ToSet(nodes) - seen);
        seen := seen + {node};
        StepFrom(nodes, edges, start, node);
        pending := pending + successors[node];
      }
    }
    forall x | Reaches(ToSet(edges), start, x) ensures x in seen {
      ReachedIsSeen(ToSet(edges), seen, start, x);
    }
  }

  lemma ReachedIsSeen(arcs: set<(PackageId, PackageId)>, seen: set<PackageId>, start: PackageId, x: PackageId)
    requires forall a, b :: (a == start || a in seen) && (a, b) in arcs ==> b in seen
    requires Reaches(arcs, start, x)
    ensures x in seen
  {
    var p :| IsWalk(arcs, p) && |p| >= 2 && p[0] == start && p[|p| - 1] == x;
    assert (p[0], p[1]) in arcs;
    assert IsWalk(arcs, p[1..]);
    WalkStays(arcs, seen, p[1..]);
    assert p[1..][|p| - 2] == x;
  }

  lemma StepFrom(nodes: seq<PackageId>, edges: seq<(PackageId, PackageId)>, start: PackageId, node: PackageId)
    requires KnownEndpoints(nodes, edges) && (node == start || Reaches(ToSet(edges), start, node))
    ensures forall y :: y in Successors(edges, node) <==> (node, y) in ToSet(edges)
    ensures forall y :: y in Successors(edges, node) ==> y in nodes && Reaches(ToSet(edges), start, y)
  {
    forall y ensures y in Successors(edges, node) <==> (node, y) in ToSet(edges) {
      PredecessorIffEdge(edges, node, y);
    }
    forall y | y in Successors(edges, node) ensures y in nodes && Reaches(ToSet(edges), start, y) {
      assert (node, y) in edges;
      ArcReaches(ToSet(edges), node, y);
      if node != start {
        ReachesTransitive(ToSet(edges), start, node, y);
      }
    }
  }

  method EveryPackageJoins(plan: Plan, packages: map<PackageId, Package>) returns (ok: bool)
    requires KnownEndpoints(plan.nodes, plan.edges) && ToSet(plan.nodes) == packages.Keys
    ensures ok <==> AllJoinRelease(plan, packages)
  {
    var known, predecessors, successors := BuildAdjacency(plan.nodes, plan.edges);
    var todo := packages.Keys - {RELEASE_ID};
    while todo != {}
      invariant todo <= packages.Keys - {RELEASE_ID}
      invariant forall id :: id in packages && id != RELEASE_ID && id !in todo ==>
        Reaches(ToSet(plan.edges), id, RELEASE_ID)
      decreases |todo|
    {
      var id :| id in todo;
      assert id in ToSet(plan.nodes);
      var seen := ReachableFrom(plan.nodes, plan.edges, successors, id);
      if RELEASE_ID !in seen {
        return false;
      }
      todo := todo - {id};
    }
    ok := true;
  }

  // ---------- The capacity schedule ----------

  datatype Placement = Placement(slots: map<PackageId, int>, main: seq<PackageId>)

  ghost predicate PlacementOf(slots: seq<Slot>, placement: Placement) {
    && placement.main == PlacedOnMain(slots)
    && placement.slots.Keys == ToSet(Placed(slots))
    && forall id :: id in placement.slots ==> InSlot(slots, placement.slots[id], id)
  }

  /** `for package_id in [*slot["main"], *slot["workers"]]`: refuse a second placement. */
  method PlaceSlot(taken: map<PackageId, int>, slot: int, ids: seq<PackageId>)
    returns (ok: bool, placed: map<PackageId, int>)
    ensures ok <==> NoDup(ids) && forall id :: id in ids ==> id !in taken
    ensures ok ==> placed == taken + map id | id in ids :: slot
  {
    placed := taken;
    for k := 0 to |ids|
      invariant NoDup(ids[..k]) && forall id :: id in ids[..k] ==> id !in taken
      invariant placed == taken + map id | id in ids[..k] :: slot
    {
      if ids[k] in placed {
        if ids[k] !in taken {
          assert ids[k] in ids[..k];
        }
        return false, placed;
      }
      assert ids[..k + 1] == ids[..k] + [ids[k]];
      placed := placed[ids[k] := slot];
    }
    assert ids[..|ids|] == ids;
    ok := true;
  }

  method PlacePackages(schedule: Schedule, packages: map<PackageId, Package>)
    returns (r: Result<Placement, ScheduleError>)
    requires forall i :: 0 <= i < |schedule.slots| ==> schedule.slots[i].slot == i
    ensures r.Ok? <==> SlotsFit(schedule, packages) && NoDup(Placed(schedule.slots))
    ensures r.Ok? ==> PlacementOf(schedule.slots, r.value)
  {
    var slots := schedule.slots;
    var placed: map<PackageId, int> := map[];
    var main := [];
    assert PlacementOf(slots[..0], Placement(placed, main)) && NoDup(Placed(slots[..0]));
    hide PlacementOf, NoDup, Placed;
    for k := 0 to |slots|
      invariant forall j :: 0 <= j < k ==> SlotFits(schedule, slots[j], packages)
      invariant NoDup(Placed(slots[..k])) && PlacementOf(slots[..k], Placement(placed, main))
    {
      var slot := slots[k];
      if |slot.main| > schedule.mainSlots || |slot.workers| > schedule.workerSlots {
        return Err(OverCapacity);
      }
      if !(ToSet(slot.main) <= MainIds(packages)) || !(ToSet(slot.workers) <= WorkerIds(packages)) {
        return Err(WrongRole);
      }
      var ok, placed' := PlaceSlot(placed, slot.slot, slot.main + slot.workers);
      PlaceSlotDecides(slots, k, placed, main);
      if !ok {
        return Err(ScheduledTwice);
      }
      ExtendPlacement(slots, k, placed, main, placed');
      placed, main := placed', main + slot.main;
    }
    assert slots[..|slots|] == slots;
    r := Ok(Placement(placed, main));
  }

  /** Whether the next slot repeats a package decides whether the longer prefix does, and a repeat is never undone. */
  lemma PlaceSlotDecides(slots: seq<Slot>, k: nat, placed: map<PackageId, int>, main: seq<PackageId>)
    requires k < |slots| && PlacementOf(slots[..k], Placement(placed, main)) && NoDup(Placed(slots[..k]))
    ensures NoDup(Placed(slots[..k + 1])) <==>
      NoDup(slots[k].main + slots[k].workers)
      && forall id :: id in slots[k].main + slots[k].workers ==> id !in placed
    ensures NoDup(Placed(slots)) ==> NoDup(Placed(slots[..k + 1]))
  {
    hide PlacementOf, NoDup, Placed;
    PlacedIds(slots[..k], Placement(placed, main));
    PlacedStep(slots, k);
    PlacedPrefix(slots, k + 1);
    NoDupConcat(Placed(slots[..k]), slots[k].main + slots[k].workers);
    if NoDup(Placed(slots)) {
      NoDupPrefix(Placed(slots), Placed(slots[..k + 1]));
    }
  }

  lemma PlacedStep(slots: seq<Slot>, k: nat)
    requires k < |slots|
    ensures Placed(slots[..k + 1]) == Placed(slots[..k]) + (slots[k].main + slots[k].workers)
  {
    assert slots[..k + 1][..k] == slots[..k];
  }

  lemma NoDupPrefix(all: seq<PackageId>, prefix: seq<PackageId>)
    requires prefix <= all && NoDup(all)
    ensures NoDup(prefix)
  {
  }

  lemma PlacedIds(slots: seq<Slot>, placement: Placement)
    requires PlacementOf(slots, placement)
    ensures forall id :: id in placement.slots <==> id in Placed(slots)
  {
  }

  lemma {:induction false} PlacedPrefix(slots: seq<Slot>, k: nat)
    requires k <= |slots|
    ensures Placed(slots[..k]) <= Placed(slots)
    decreases |slots|
  {
    if k < |slots| {
      assert slots[..|slots| - 1][..k] == slots[..k];
      PlacedPrefix(slots[..|slots| - 1], k);
    } else {
      assert slots[..k] == slots;
    }
  }

  lemma ExtendPlacement(slots: seq<Slot>, k: nat, placed: map<PackageId, int>, main: seq<PackageId>,
                        placed': map<PackageId, int>)
    requires k < |slots| && slots[k].slot == k
    requires PlacementOf(slots[..k], Placement(placed, main))
    requires placed' == placed + map id | id in slots[k].main + slots[k].workers :: slots[k].slot
    ensures PlacementOf(slots[..k + 1], Placement(placed', main + slots[k].main))
  {
    var ids := slots[k].main + slots[k].workers;
    assert slots[..k + 1][..k] == slots[..k];
    assert Placed(slots[..k + 1]) == Placed(slots[..k]) + ids;
    assert ToSet(Placed(slots[..k + 1])) == ToSet(Placed(slots[..k])) + ToSet(ids);
    forall id | id in placed' ensures InSlot(slots[..k + 1], placed'[id], id) {
      if id !in ids {
        assert InSlot(slots[..k], placed[id], id);
      }
    }
  }

  /** A placed package lies in exactly one slot. */
  lemma {:induction false} InSlotIffPlaced(slots: seq<Slot>, id: PackageId)
    ensures id in Placed(slots) <==> exists i :: InSlot(slots, i, id)
    ensures NoDup(Placed(slots)) ==> forall i, j :: InSlot(slots, i, id) && InSlot(slots, j, id) ==> i == j
  {
    if slots != [] {
      var front, last := slots[..|slots| - 1], slots[|slots| - 1];
      InSlotIffPlaced(front, id);
      hide NoDup, InSlot;
      NoDupConcat(Placed(front), last.main + last.workers);
      InSlotStep(slots, id);
    }
  }

  lemma InSlotStep(slots: seq<Slot>, id: PackageId)
    requires slots != []
    ensures var n := |slots| - 1;
      && (forall i :: InSlot(slots, i, id) && i != n <==> InSlot(slots[..n], i, id))
      && (InSlot(slots, n, id) <==> id in slots[n].main + slots[n].workers)
  {
  }

  lemma EdgeCheck(edges: seq<(PackageId, PackageId)>, slots: seq<Slot>, placement: Placement)
    requires PlacementOf(slots, placement) && NoDup(Placed(slots))
    requires forall e :: e in edges ==> e.0 in placement.slots && e.1 in placement.slots
    ensures EdgesRunForward(edges, slots) <==>
      forall e :: e in edges ==> placement.slots[e.0] < placement.slots[e.1]
  {
    forall e, i, j | e in edges && InSlot(slots, i, e.0) && InSlot(slots, j, e.1)
      ensures i == placement.slots[e.0] && j == placement.slots[e.1]
    {
      InSlotIffPlaced(slots, e.0);
      InSlotIffPlaced(slots, e.1);
      assert InSlot(slots, placement.slots[e.0], e.0) && InSlot(slots, placement.slots[e.1], e.1);
    }
    if EdgesRunForward(edges, slots) {
      forall e | e in edges ensures placement.slots[e.0] < placement.slots[e.1] {
        assert InSlot(slots, placement.slots[e.0], e.0) && InSlot(slots, placement.slots[e.1], e.1);
      }
    }
  }

  method CheckCapacitySchedule(plan: Plan, packages: map<PackageId, Package>, schedule: Schedule)
    returns (r: Result<(), ScheduleError>)
    requires forall e :: e in plan.edges ==> e.0 in packages && e.1 in packages
    ensures r.Ok? <==> CapacityScheduleOk(plan, packages, schedule)
  {
    if exists i | 0 <= i < |schedule.slots| :: schedule.slots[i].slot != i {
      return Err(SlotsNotContiguous);
    }
    var placed := PlacePackages(schedule, packages);
    if placed.Err? {
      return Err(placed.error);
    }
    var placement := placed.value;
    if placement.slots.Keys != packages.Keys {
      return Err(CoverageMismatch);
    }
    if placement.main != schedule.mainSerialQueue {
      return Err(MainOrderMismatch);
    }
    if schedule.metrics.referenceSlots != |schedule.slots| {
      return Err(SlotCountMismatch);
    }
    EdgeCheck(plan.edges, schedule.slots, placement);
    if exists e | e in plan.edges :: placement.slots[e.0] >= placement.slots[e.1] {
      return Err(DependencyViolated);
    }
    r := Ok(());
  }

  method CollectLaneWorkers(lanes: seq<Lane>, packages: map<PackageId, Package>)
    returns (known: bool, workers: seq<PackageId>)
    ensures known <==> forall k :: 0 <= k < |lanes| ==> LaneKnown(lanes[k], packages)
    ensures known ==> workers == LaneWorkers(lanes, packages)
  {
    hide WorkersOf, LaneKnown;
    workers := [];
    for k := 0 to |lanes|
      invariant forall j :: 0 <= j < k ==> LaneKnown(lanes[j], packages)
      invariant workers == LaneWorkers(lanes[..k], packages)
    {
      if !LaneKnown(lanes[k], packages) {
        return false, workers;
      }
      assert lanes[..k + 1][..k] == lanes[..k];
      workers := workers + WorkersOf(lanes[k], packages);
    }
    assert lanes[..|lanes|] == lanes;
    known := true;
  }

  predicate SameMembersOnce(s: seq<PackageId>, ids: set<PackageId>)
    ensures SameMembersOnce(s, ids) <==> NoDup(s) && ToSet(s) == ids
  {
    CardinalityNoDup(s);
    if NoDup(s) then NoDupCardinality(s); |s| == |ToSet(s)| && ToSet(s) == ids
    else |s| == |ToSet(s)| && ToSet(s) == ids
  }

  method CheckQueueAndLanes(packages: map<PackageId, Package>, schedule: Schedule)
    returns (r: Result<(), ScheduleError>)
    ensures r.Ok? <==> QueueAndLanesOk(packages, schedule)
  {
    if !SameMembersOnce(schedule.mainSerialQueue, MainIds(packages)) {
      return Err(BadMainQueue);
    }
    var known, workers := CollectLaneWorkers(schedule.lanes, packages);
    if !known {
      return Err(UnknownLanePackage);
    }
    if !SameMembersOnce(workers, WorkerIds(packages)) {
      return Err(BadLaneCoverage);
    }
    r := Ok(());
  }

  /** `max(earliest.values()) + 1` is the length of every critical path. */
  lemma DepthOfAnalysis(nodes: seq<PackageId>, edges: seq<(PackageId, PackageId)>, earliest: map<PackageId, nat>)
    requires nodes != [] && earliest.Keys == ToSet(nodes)
    requires forall n :: n in earliest ==> LongestTo(edges, n, earliest[n] + 1)
    requires forall n :: n in nodes ==> n in earliest
    ensures exists p :: Critical(nodes, edges, p) && |p| == MaxOf(earliest, nodes) + 1
    ensures forall p :: Critical(nodes, edges, p) ==> |p| == MaxOf(earliest, nodes) + 1
  {
    var depth := MaxOf(earliest, nodes) + 1;
    forall q | InGraph(nodes, edges, q) ensures |q| <= depth {
      var n := q[|q| - 1];
      assert LongestTo(edges, n, earliest[n] + 1) && EndsAt(edges, q, n);
    }
    var deepest :| deepest in nodes && earliest[deepest] == MaxOf(earliest, nodes);
    assert LongestTo(edges, deepest, earliest[deepest] + 1);
    var top :| EndsAt(edges, top, deepest) && |top| == depth;
    assert InGraph(nodes, edges, top);
    assert Critical(nodes, edges, top);
  }

  method CheckWaves(plan: Plan, packages: map<PackageId, Package>, earliest: map<PackageId, nat>) returns (ok: bool)
    requires earliest.Keys == packages.Keys
    requires forall n :: n in earliest ==> LongestTo(plan.edges, n, earliest[n] + 1)
    ensures ok <==> WavesAreEarliest(plan, packages)
  {
    ok := forall id | id in packages :: packages[id].wave == earliest[id];
    forall id | id in packages
      ensures packages[id].wave == earliest[id] <==>
        (packages[id].wave >= 0 && LongestTo(plan.edges, id, (packages[id].wave + 1) as nat))
    {
      assert LongestTo(plan.edges, id, earliest[id] + 1);
    }
  }

  method CheckMetrics(plan: Plan, packages: map<PackageId, Package>, metrics: Metrics, earliest: map<PackageId, nat>)
    returns (ok: bool)
    requires plan.nodes != [] && earliest.Keys == ToSet(plan.nodes)
    requires forall n :: n in earliest ==> LongestTo(plan.edges, n, earliest[n] + 1)
    ensures ok <==> MetricsCurrent(plan, packages, metrics)
  {
    hide Critical, LongestTo;
    forall n | n in plan.nodes ensures n in earliest {
      assert n in ToSet(plan.nodes);
    }
    DepthOfAnalysis(plan.nodes, plan.edges, earliest);
    ok := metrics.packageCount == Some(|packages|)
      && metrics.mainPackageCount == Some(|MainIds(packages)|)
      && metrics.workerPackageCount == Some(|WorkerIds(packages)|)
      && metrics.allSerialUnitSlots == Some(|packages|)
      && metrics.dagDepth == Some(MaxOf(earliest, plan.nodes) + 1);
  }

  method CheckCriticalPaths(plan: Plan, listed: seq<seq<PackageId>>, critical: seq<seq<PackageId>>)
    returns (ok: bool)
    requires CriticalList(plan.nodes, plan.edges, critical) && Sorted(Lex(TextLeq()), critical)
    ensures ok <==> CriticalList(plan.nodes, plan.edges, listed)
  {
    TextOrder();
    SortedListingIsCritical(plan.nodes, plan.edges, TextLeq(), critical, listed);
    ok := Sort(Lex(TextLeq()), listed) == critical;
  }

  method ValidateSchedule(plan: Plan) returns (r: Result<Schedule, ScheduleError>)
    ensures r.Ok? <==> Accepted(plan)
    ensures r.Ok? ==> plan.schedule == Some(r.value)
  {
    if plan.schedule.None? {
      return Err(MissingSchedule);
    }
    var schedule := plan.schedule.value;
    var packages := PackageMap(plan.packages);
    TextOrder();
    var analysed := AnalyzeDependencyGraph(plan.nodes, plan.edges, DependsOn(packages), TextLeq());
    if analysed.Err? {
      return Err(BadGraph(analysed.error));
    }
    var analysis := analysed.value;
    var ok := CheckWaves(plan, packages, analysis.earliest);
    if !ok {
      return Err(StaleWave);
    }
    ok := EveryPackageJoins(plan, packages);
    if !ok {
      return Err(DoesNotJoinRelease);
    }
    ok := CheckMetrics(plan, packages, schedule.metrics, analysis.earliest);
    if !ok {
      return Err(StaleMetrics);
    }
    ok := CheckCriticalPaths(plan, schedule.criticalPaths, analysis.criticalPaths);
    if !ok {
      return Err(CriticalPathsMismatch);
    }
    var checked := CheckQueueAndLanes(packages, schedule);
    if checked.Err? {
      return Err(checked.error);
    }
    EndpointsAreKeys(plan.nodes, plan.edges, packages.Keys);
    checked := CheckCapacitySchedule(plan, packages, schedule);
    if checked.Err? {
      return Err(checked.error);
    }
    r := Ok(schedule);
  }

  lemma EndpointsAreKeys(nodes: seq<PackageId>, edges: seq<(PackageId, PackageId)>, ids: set<PackageId>)
    requires KnownEndpoints(nodes, edges) && ToSet(nodes) == ids
    ensures forall e :: e in edges ==> e.0 in ids && e.1 in ids
  {
    forall e | e in edges ensures e.0 in ids && e.1 in ids {
      assert e.0 in ToSet(nodes) && e.1 in ToSet(nodes);
    }
  }

  // ---------- What acceptance guarantees ----------

  /** The part of acceptance that speaks of the graph and the slots alone. */
  ghost predicate Laid(edges: seq<(PackageId, PackageId)>, slots: seq<Slot>, ids: set<PackageId>) {
    && NoDup(Placed(slots)) && ToSet(Placed(slots)) == ids
    && (forall a, b :: (a, b) in ToSet(edges) ==> a in ids && b in ids)
    && EdgesRunForward(edges, slots)
  }

  lemma AcceptedIsLaid(plan: Plan)
    requires Accepted(plan)
    ensures plan.schedule.Some?
    ensures Laid(plan.edges, plan.schedule.value.slots, PackageMap(plan.packages).Keys)
    ensures ToSet(plan.nodes) == PackageMap(plan.packages).Keys && KnownEndpoints(plan.nodes, plan.edges)
    ensures plan.nodes != [] && !Cyclic(ToSet(plan.edges))
  {
    hide WavesAreEarliest, AllJoinRelease, MetricsCurrent, CriticalList, QueueAndLanesOk, SlotsFit, DependenciesAgree;
    assert CapacityScheduleOk(plan, PackageMap(plan.packages), plan.schedule.value);
    EndpointsAreKeys(plan.nodes, plan.edges, PackageMap(plan.packages).Keys);
    forall a, b | (a, b) in ToSet(plan.edges)
      ensures a in PackageMap(plan.packages) && b in PackageMap(plan.packages)
    {
      assert (a, b) in plan.edges;
    }
  }

  lemma AcceptedParts(plan: Plan)
    requires Accepted(plan)
    ensures WavesAreEarliest(plan, PackageMap(plan.packages))
    ensures AllJoinRelease(plan, PackageMap(plan.packages))
    ensures MetricsCurrent(plan, PackageMap(plan.packages), plan.schedule.value.metrics)
    ensures CriticalList(plan.nodes, plan.edges, plan.schedule.value.criticalPaths)
    ensures QueueAndLanesOk(PackageMap(plan.packages), plan.schedule.value)
    ensures CapacityScheduleOk(plan, PackageMap(plan.packages), plan.schedule.value)
  {
    hide WavesAreEarliest, AllJoinRelease, MetricsCurrent, CriticalList, QueueAndLanesOk, CapacityScheduleOk,
      GraphDefect;
  }

  lemma ArcsInside(edges: seq<(PackageId, PackageId)>, slots: seq<Slot>, ids: set<PackageId>)
    requires Laid(edges, slots, ids)
    ensures forall a, b :: (a, b) in ToSet(edges) ==> a in ids && b in ids
  {
  }

  lemma PlacedSomewhere(edges: seq<(PackageId, PackageId)>, slots: seq<Slot>, ids: set<PackageId>, id: PackageId)
    requires Laid(edges, slots, ids)
    ensures id in ids <==> exists i :: InSlot(slots, i, id)
  {
    assert id in ToSet(Placed(slots)) <==> id in Placed(slots);
    InSlotIffPlaced(slots, id);
  }

  /** Along a walk the slots grow strictly. */
  lemma {:induction false} SlotsGrowAlongWalks(edges: seq<(PackageId, PackageId)>, slots: seq<Slot>,
                                               ids: set<PackageId>,
                                               p: seq<PackageId>, i: int, j: int)
    requires Laid(edges, slots, ids) && IsWalk(ToSet(edges), p)
    requires InSlot(slots, i, p[0]) && InSlot(slots, j, p[|p| - 1])
    ensures i + |p| - 1 <= j
    decreases |p|
  {
    if |p| == 1 {
      InSlotIffPlaced(slots, p[0]);
    } else {
      var last := (p[|p| - 2], p[|p| - 1]);
      FrontOfPath(edges, p, p[|p| - 1]);
      PlacedSomewhere(edges, slots, ids, last.0);
      assert last in ToSet(edges) && last in edges;
      var k :| InSlot(slots, k, last.0);
      SlotsGrowAlongWalks(edges, slots, ids, p[..|p| - 1], i, k);
      assert InSlot(slots, k, last.0) && InSlot(slots, j, last.1);
    }
  }

  /** A walk of n packages needs n slots up to the one its end is placed in. */
  lemma WalkNeedsSlots(edges: seq<(PackageId, PackageId)>, slots: seq<Slot>, ids: set<PackageId>,
                       p: seq<PackageId>, j: int)
    requires Laid(edges, slots, ids) && IsWalk(ToSet(edges), p) && InSlot(slots, j, p[|p| - 1])
    ensures |p| - 1 <= j
  {
    PlacedSomewhere(edges, slots, ids, p[|p| - 1]);
    if |p| >= 2 {
      assert (p[0], p[1]) in ToSet(edges);
    }
    PlacedSomewhere(edges, slots, ids, p[0]);
    var i :| InSlot(slots, i, p[0]);
    SlotsGrowAlongWalks(edges, slots, ids, p, i, j);
  }

  lemma WalkEndsInside<T(!new)>(arcs: set<(T, T)>, inside: set<T>, a: T, b: T)
    requires Reaches(arcs, a, b) && forall x, y :: (x, y) in arcs ==> x in inside && y in inside
    ensures a in inside && b in inside
  {
    var p :| IsWalk(arcs, p) && |p| >= 2 && p[0] == a && p[|p| - 1] == b;
    assert (p[0], p[1]) in arcs;
    WalkStays(arcs, inside, p);
    assert p[|p| - 1] in p;
  }

  ghost predicate IsSink<T(!new)>(arcs: set<(T, T)>, v: T) {
    forall b :: (v, b) !in arcs
  }

  lemma UniqueSink<T(!new)>(arcs: set<(T, T)>, ids: set<T>, sink: T)
    requires ids != {} && !Cyclic(arcs) && forall x, y :: (x, y) in arcs ==> x in ids && y in ids
    requires forall id :: id in ids && id != sink ==> Reaches(arcs, id, sink)
    ensures sink in ids
    ensures forall id :: id in ids ==> (IsSink(arcs, id) <==> id == sink)
  {
    var some :| some in ids;
    if some != sink {
      WalkEndsInside(arcs, ids, some, sink);
    }
    forall id | id in ids && id != sink ensures exists b :: (id, b) in arcs {
      ReachesFirstStep(arcs, id, sink);
    }
    forall b | (sink, b) in arcs ensures false {
      ArcReaches(arcs, sink, b);
      if b != sink {
        ReachesTransitive(arcs, sink, b, sink);
      }
    }
  }

  lemma LongerPath(nodes: seq<PackageId>, edges: seq<(PackageId, PackageId)>, p: seq<PackageId>, b: PackageId)
    requires InGraph(nodes, edges, p) && (p[|p| - 1], b) in ToSet(edges) && KnownEndpoints(nodes, edges)
    ensures !Critical(nodes, edges, p)
  {
    var longer := p + [b];
    assert longer[..|longer| - 1] == p;
    FrontOfPath(edges, longer, b);
    assert (p[|p| - 1], b).1 in nodes;
    assert InGraph(nodes, edges, longer);
  }

  /** The release package exists and is the only package without a successor. */
  lemma ReleaseIsTheUniqueSink(plan: Plan)
    requires Accepted(plan)
    ensures RELEASE_ID in PackageMap(plan.packages)
    ensures forall id :: id in PackageMap(plan.packages) ==>
      (IsSink(ToSet(plan.edges), id) <==> id == RELEASE_ID)
  {
    AcceptedIsLaid(plan);
    AcceptedParts(plan);
    hide IsSink, Reaches, Accepted, Laid, WavesAreEarliest, MetricsCurrent, CriticalList, QueueAndLanesOk,
      CapacityScheduleOk, Cyclic;
    assert plan.nodes[0] in ToSet(plan.nodes);
    ArcsInside(plan.edges, plan.schedule.value.slots, PackageMap(plan.packages).Keys);
    UniqueSink(ToSet(plan.edges), PackageMap(plan.packages).Keys, RELEASE_ID);
  }

  /** Every listed critical path is one, and ends in the release package. */
  lemma CriticalPathsEndInRelease(plan: Plan, p: seq<PackageId>)
    requires Accepted(plan) && p in plan.schedule.value.criticalPaths
    ensures Critical(plan.nodes, plan.edges, p) && p[|p| - 1] == RELEASE_ID
  {
    AcceptedIsLaid(plan);
    AcceptedParts(plan);
    hide Accepted, Laid, WavesAreEarliest, AllJoinRelease, MetricsCurrent, QueueAndLanesOk, CapacityScheduleOk;
    assert multiset(plan.schedule.value.criticalPaths)[p] > 0;
    assert p[|p| - 1] in ToSet(plan.nodes);
    ReleaseIsTheUniqueSink(plan);
    if p[|p| - 1] != RELEASE_ID {
      assert !IsSink(ToSet(plan.edges), p[|p| - 1]);
      var b :| (p[|p| - 1], b) in ToSet(plan.edges);
      LongerPath(plan.nodes, plan.edges, p, b);
    }
  }

  /** Whatever a package reaches is placed strictly later. */
  lemma ReachedPackagesComeLater(plan: Plan, a: PackageId, b: PackageId, i: int, j: int)
    requires Accepted(plan) && Reaches(ToSet(plan.edges), a, b)
    requires InSlot(plan.schedule.value.slots, i, a) && InSlot(plan.schedule.value.slots, j, b)
    ensures i < j
  {
    AcceptedIsLaid(plan);
    hide Accepted;
    var p :| IsWalk(ToSet(plan.edges), p) && |p| >= 2 && p[0] == a && p[|p| - 1] == b;
    SlotsGrowAlongWalks(plan.edges, plan.schedule.value.slots, PackageMap(plan.packages).Keys, p, i, j);
  }

  /** The release is placed strictly after every other package. */
  lemma ReleaseIsLast(plan: Plan, id: PackageId, i: int, j: int)
    requires Accepted(plan) && id != RELEASE_ID
    requires InSlot(plan.schedule.value.slots, i, id) && InSlot(plan.schedule.value.slots, j, RELEASE_ID)
    ensures i < j
  {
    AcceptedIsLaid(plan);
    AcceptedParts(plan);
    hide Accepted, Laid, WavesAreEarliest, MetricsCurrent, CriticalList, QueueAndLanesOk, CapacityScheduleOk, Reaches;
    PlacedSomewhere(plan.edges, plan.schedule.value.slots, PackageMap(plan.packages).Keys, id);
    ReachedPackagesComeLater(plan, id, RELEASE_ID, i, j);
  }

  lemma WaveIsEarliest(plan: Plan, id: PackageId)
    requires Accepted(plan) && id in PackageMap(plan.packages)
    ensures PackageMap(plan.packages)[id].wave >= 0
    ensures LongestTo(plan.edges, id, (PackageMap(plan.packages)[id].wave + 1) as nat)
  {
    AcceptedParts(plan);
    hide LongestTo, Accepted, AllJoinRelease, MetricsCurrent, CriticalList, QueueAndLanesOk, CapacityScheduleOk;
  }

  /** No package runs before its dependency wave. */
  lemma SlotsRespectWaves(plan: Plan, id: PackageId, j: int)
    requires Accepted(plan) && InSlot(plan.schedule.value.slots, j, id)
    ensures id in PackageMap(plan.packages) && PackageMap(plan.packages)[id].wave <= j
  {
    hide *;
    AcceptedIsLaid(plan);
    PlacedSomewhere(plan.edges, plan.schedule.value.slots, PackageMap(plan.packages).Keys, id);
    WaveIsEarliest(plan, id);
    var wave := PackageMap(plan.packages)[id].wave;
    LongestWalkNeedsSlots(plan.edges, plan.schedule.value.slots, PackageMap(plan.packages).Keys, id, wave, j);
  }

  lemma LongestWalkNeedsSlots(edges: seq<(PackageId, PackageId)>, slots: seq<Slot>, ids: set<PackageId>,
                              id: PackageId, wave: nat, j: int)
    requires Laid(edges, slots, ids) && LongestTo(edges, id, wave + 1) && InSlot(slots, j, id)
    ensures wave <= j
  {
    var p :| EndsAt(edges, p, id) && |p| == wave + 1;
    WalkNeedsSlots(edges, slots, ids, p, j);
  }

  /** The recorded depth is the length of every critical path, and there are at least that many slots. */
  lemma ScheduleIsAsLongAsTheGraphIsDeep(plan: Plan, p: seq<PackageId>)
    requires Accepted(plan) && Critical(plan.nodes, plan.edges, p)
    ensures plan.schedule.value.metrics.dagDepth == Some(|p|)
    ensures |p| <= |plan.schedule.value.slots|
  {
    var slots, ids := plan.schedule.value.slots, PackageMap(plan.packages).Keys;
    AcceptedIsLaid(plan);
    AcceptedParts(plan);
    hide Accepted, Laid, WavesAreEarliest, AllJoinRelease, CriticalList, QueueAndLanesOk, CapacityScheduleOk;
    assert p[|p| - 1] in ToSet(plan.nodes);
    PlacedSomewhere(plan.edges, slots, ids, p[|p| - 1]);
    var j :| InSlot(slots, j, p[|p| - 1]);
    WalkNeedsSlots(plan.edges, slots, ids, p, j);
  }

  lemma {:induction false} MainCapacity(slots: seq<Slot>, limit: int)
    requires forall i :: 0 <= i < |slots| ==> |slots[i].main| <= limit
    ensures |PlacedOnMain(slots)| <= |slots| * limit
  {
    if slots != [] {
      MainCapacity(slots[..|slots| - 1], limit);
      assert |slots| * limit == (|slots| - 1) * limit + limit;
    }
  }

  lemma {:induction false} WorkerCapacity(slots: seq<Slot>, limit: int)
    requires forall i :: 0 <= i < |slots| ==> |slots[i].workers| <= limit
    ensures |Placed(slots)| - |PlacedOnMain(slots)| <= |slots| * limit
  {
    if slots != [] {
      WorkerCapacity(slots[..|slots| - 1], limit);
      assert |slots| * limit == (|slots| - 1) * limit + limit;
    }
  }

  /** Each role's packages fit: the slot count is at least packages over capacity. */
  lemma CapacityBoundsSlots(plan: Plan)
    requires Accepted(plan)
    ensures |MainIds(PackageMap(plan.packages))| <= |plan.schedule.value.slots| * plan.schedule.value.mainSlots
    ensures |WorkerIds(PackageMap(plan.packages))| <= |plan.schedule.value.slots| * plan.schedule.value.workerSlots
  {
    AcceptedParts(plan);
    hide Accepted, WavesAreEarliest, AllJoinRelease, MetricsCurrent, CriticalList, EdgesRunForward, SlotsFit;
    RolesFit(PackageMap(plan.packages), plan.schedule.value);
  }

  lemma RolesFit(packages: map<PackageId, Package>, schedule: Schedule)
    requires NoDup(schedule.mainSerialQueue) && ToSet(schedule.mainSerialQueue) == MainIds(packages)
    requires PlacedOnMain(schedule.slots) == schedule.mainSerialQueue && SlotsFit(schedule, packages)
    requires NoDup(Placed(schedule.slots)) && ToSet(Placed(schedule.slots)) == packages.Keys
    ensures |MainIds(packages)| <= |schedule.slots| * schedule.mainSlots
    ensures |WorkerIds(packages)| <= |schedule.slots| * schedule.workerSlots
  {
    MainCapacity(schedule.slots, schedule.mainSlots);
    WorkerCapacity(schedule.slots, schedule.workerSlots);
    NoDupCardinality(schedule.mainSerialQueue);
    NoDupCardinality(Placed(schedule.slots));
    assert packages.Keys == MainIds(packages) + WorkerIds(packages);
  }

  lemma {:induction false} MainOrderFollowsSlots(slots: seq<Slot>, a: nat, b: nat)
    requires a <= b < |PlacedOnMain(slots)|
    ensures exists i, j ::
      i <= j && InSlot(slots, i, PlacedOnMain(slots)[a]) && InSlot(slots, j, PlacedOnMain(slots)[b])
  {
    var front, last := slots[..|slots| - 1], |slots| - 1;
    if b < |PlacedOnMain(front)| {
      MainOrderFollowsSlots(front, a, b);
      var i, j :| i <= j && InSlot(front, i, PlacedOnMain(front)[a]) && InSlot(front, j, PlacedOnMain(front)[b]);
      assert InSlot(slots, i, PlacedOnMain(slots)[a]) && InSlot(slots, j, PlacedOnMain(slots)[b]);
    } else {
      assert InSlot(slots, last, PlacedOnMain(slots)[b]);
      if a < |PlacedOnMain(front)| {
        MainOrderFollowsSlots(front, a, a);
        var i, j :| i <= j && InSlot(front, i, PlacedOnMain(front)[a]) && InSlot(front, j, PlacedOnMain(front)[a]);
        assert InSlot(slots, i, PlacedOnMain(slots)[a]);
      } else {
        assert InSlot(slots, last, PlacedOnMain(slots)[a]);
      }
    }
  }

  /** The serial queue of Main work is a linear extension of reachability between Main packages. */
  lemma MainQueueIsLinearExtension(plan: Plan, a: nat, b: nat)
    requires Accepted(plan)
    requires a < |plan.schedule.value.mainSerialQueue| && b < |plan.schedule.value.mainSerialQueue|
    requires Reaches(ToSet(plan.edges), plan.schedule.value.mainSerialQueue[a], plan.schedule.value.mainSerialQueue[b])
    ensures a < b
  {
    if b <= a {
      var queue, slots := plan.schedule.value.mainSerialQueue, plan.schedule.value.slots;
      AcceptedParts(plan);
      hide Accepted, WavesAreEarliest, AllJoinRelease, MetricsCurrent, CriticalList, EdgesRunForward, SlotsFit;
      MainOrderFollowsSlots(slots, b, a);
      var i, j :| i <= j && InSlot(slots, i, queue[b]) && InSlot(slots, j, queue[a]);
      ReachedPackagesComeLater(plan, queue[a], queue[b], j, i);
    }
  }
}
