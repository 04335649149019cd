/** Which catalog tools a turn may use, and the greedy choice of the few whose schemas are exposed. */
module CapabilityPlanner {
  import opened Collections
  import opened Sorting
  import opened Text

  datatype Capability =
    | TemporalLookup | OpenWorldLookup | LiteratureResearch | WorkspaceRead | WorkspaceWrite | Execution | ToolDiscovery

  datatype Risk = Low | Elevated | High

  datatype Tool = Tool(name: string, capabilities: set<Capability>, activationRequirements: set<string>, readOnly: bool,
                       destructive: bool, requiresApproval: bool, risk: Risk, directlyExposable: bool,
                       exposurePriority: nat)
  {
    predicate Mutating() {
      destructive || WorkspaceWrite in capabilities
    }

    predicate Risky() {
      risk != Low || requiresApproval || Mutating() || Execution in capabilities
    }
  }

  datatype Operation = Conversation | Needs(capability: Capability)

  /** The fields of the turn's intent contract that planning reads. */
  datatype Contract = Contract(operations: seq<Operation>, sideQuestion: bool, mutationForbidden: bool,
                               clarificationNeeded: bool)
  {
    predicate DiscoverySideQuestion() {
      sideQuestion && Needs(ToolDiscovery) in operations
    }
  }

  /** `refused` maps the tools the environment declares ineligible to its reason code. */
  datatype Policy = Policy(session: set<Capability>, profile: set<Capability>, environment: set<Capability>,
                           refused: map<string, string>, allowed: Option<set<string>>, denied: set<string>,
                           maxExposed: nat)
  {
    function Granted(): set<Capability> {
      session * profile * environment
    }
  }

  datatype Reason =
    | CapabilityNotRequired | SessionUnavailable | ProfileDisallows | EnvironmentUnavailable | NotInAllowlist
    | ExplicitlyDenied | EnvironmentRefusal(code: string) | MutationForbidden | MutationNotRequired
    | ExecutionNotRequired | ClarificationBlocks | DiscoveryScope | FallbackUnsafe | RequiredCapabilityUnavailable

  datatype PlanError = DuplicateCatalogNames | BlankPolicyName

  datatype Plan = Plan(required: set<Capability>, unavailable: set<Capability>, eligible: seq<string>,
                       exposed: seq<string>)

  const SAFE_FALLBACK: set<Capability> :=
    {TemporalLookup, OpenWorldLookup, LiteratureResearch, WorkspaceRead, ToolDiscovery}

  // ---------- Eligibility ----------

  function Required(contract: Contract): set<Capability> {
    var needed := set o | o in contract.operations && o.Needs? :: o.capability;
    if contract.DiscoverySideQuestion() then {ToolDiscovery}
    else if contract.mutationForbidden then needed - {WorkspaceWrite}
    else needed
  }

  predicate IsSafeFallbackTool(tool: Tool) {
    && tool.readOnly && !tool.destructive && !tool.requiresApproval && tool.risk == Low
    && tool.activationRequirements == {}
    && WorkspaceWrite !in tool.capabilities && Execution !in tool.capabilities
    && tool.capabilities * SAFE_FALLBACK != {}
  }

  function When(condition: bool, reason: Reason): seq<Reason> {
    if condition then [reason] else []
  }

  /** One entry per failed check, in the order of the checks. */
  function FailedChecks(tool: Tool, matched: set<Capability>, required: set<Capability>, contract: Contract,
                        policy: Policy): seq<Reason>
  {
    When(matched == {}, CapabilityNotRequired)
      + When(matched != {} && matched * policy.session == {}, SessionUnavailable)
      + When(matched != {} && matched * policy.profile == {}, ProfileDisallows)
      + When(matched != {} && matched * policy.environment == {}, EnvironmentUnavailable)
      + When(policy.allowed.Some? && tool.name !in policy.allowed.value, NotInAllowlist)
      + When(tool.name in policy.denied, ExplicitlyDenied)
      + (if tool.name in policy.refused then [EnvironmentRefusal(policy.refused[tool.name])] else [])
      + When(contract.mutationForbidden && tool.Mutating(), MutationForbidden)
      + When(tool.Mutating() && WorkspaceWrite !in required, MutationNotRequired)
      + When(Execution in tool.capabilities && Execution !in required, ExecutionNotRequired)
      + When(contract.clarificationNeeded && tool.Risky(), ClarificationBlocks)
      + When(contract.DiscoverySideQuestion() && tool.capabilities != {ToolDiscovery}, DiscoveryScope)
  }

  function ExclusionReasons(tool: Tool, matched: set<Capability>, required: set<Capability>, contract: Contract,
                            policy: Policy): seq<Reason>
  {
    Dedup(FailedChecks(tool, matched, required, contract, policy))
  }

  /** What the planning loop concludes about one tool: no reasons means eligible. */
  function Verdict(tool: Tool, contract: Contract, policy: Policy, fallback: bool): seq<Reason> {
    var required := Required(contract);
    var candidate := fallback && IsSafeFallbackTool(tool);
    var matched := if candidate then tool.capabilities * SAFE_FALLBACK else tool.capabilities * required;
    var reasons := ExclusionReasons(tool, matched, required, contract, policy)
                   + When(fallback && !candidate, FallbackUnsafe);
    var usable := matched * if candidate then policy.Granted() else required * policy.Granted();
    if reasons == [] && usable == {} then [RequiredCapabilityUnavailable] else reasons
  }

  predicate IsEligible(tool: Tool, contract: Contract, policy: Policy, fallback: bool) {
    Verdict(tool, contract, policy, fallback) == []
  }

  /** `p` is at most as permissive as `q`. */
  predicate Narrows(p: Policy, q: Policy) {
    && p.session <= q.session && p.profile <= q.profile && p.environment <= q.environment
    && q.refused.Keys <= p.refused.Keys && q.denied <= p.denied
    && (q.allowed.Some? ==> p.allowed.Some? && p.allowed.value <= q.allowed.value)
  }

  lemma DedupEmpty<T>(s: seq<T>)
    ensures Dedup(s) == [] <==> s == []
  {
    if s != [] {
      assert s[0] in s;
    }
  }

  lemma NoReasons(tool: Tool, matched: set<Capability>, required: set<Capability>, contract: Contract, policy: Policy)
    ensures ExclusionReasons(tool, matched, required, contract, policy) == [] <==>
      && matched * policy.session != {} && matched * policy.profile != {} && matched * policy.environment != {}
      && (policy.allowed.Some? ==> tool.name in policy.allowed.value)
      && tool.name !in policy.denied && tool.name !in policy.refused
      && (tool.Mutating() ==> !contract.mutationForbidden && WorkspaceWrite in required)
      && (Execution in tool.capabilities ==> Execution in required)
      && (contract.clarificationNeeded ==> !tool.Risky())
      && (contract.DiscoverySideQuestion() ==> tool.capabilities == {ToolDiscovery})
  {
    DedupEmpty(FailedChecks(tool, matched, required, contract, policy));
  }

  /** Whether the turn asks for a capability. A side question about tools asks for their discovery alone. */
  predicate Asks(contract: Contract, c: Capability) {
    if contract.sideQuestion && Needs(ToolDiscovery) in contract.operations then c == ToolDiscovery
    else Needs(c) in contract.operations && (contract.mutationForbidden ==> c != WorkspaceWrite)
  }

  predicate Writes(tool: Tool) {
    tool.destructive || WorkspaceWrite in tool.capabilities
  }

  predicate Hazardous(tool: Tool) {
    tool.risk != Low || tool.requiresApproval || Writes(tool) || Execution in tool.capabilities
  }

  /** One capability of the tool that is wanted and that session, profile and environment all grant. */
  predicate Grants(tool: Tool, contract: Contract, policy: Policy, fallback: bool, c: Capability) {
    && c in tool.capabilities && c in policy.session && c in policy.profile && c in policy.environment
    && if fallback then c in {TemporalLookup, OpenWorldLookup, LiteratureResearch, WorkspaceRead, ToolDiscovery}
       else Asks(contract, c)
  }

  /** The planner's rules, read as one condition. */
  ghost predicate Permitted(tool: Tool, contract: Contract, policy: Policy, fallback: bool) {
    && (exists c :: Grants(tool, contract, policy, fallback, c))
    && (fallback ==> tool.readOnly && !Hazardous(tool) && tool.activationRequirements == {})
    && (policy.allowed.Some? ==> tool.name in policy.allowed.value)
    && tool.name !in policy.denied && tool.name !in policy.refused
    && (Writes(tool) ==> !contract.mutationForbidden && Asks(contract, WorkspaceWrite))
    && (Execution in tool.capabilities ==> Asks(contract, Execution))
    && (contract.clarificationNeeded ==> !Hazardous(tool))
    && (contract.sideQuestion && Needs(ToolDiscovery) in contract.operations ==> tool.capabilities == {ToolDiscovery})
  }

  lemma RequiredAreAsked(contract: Contract)
    ensures forall c :: c in Required(contract) <==> Asks(contract, c)
  {
    forall c ensures c in Required(contract) <==> Asks(contract, c) {
      assert Needs(c) in contract.operations ==> Needs(c).capability == c;
    }
  }

  /**
   A tool is eligible exactly when one single capability of it is wanted and granted by session, profile and
   environment together.
   */
  lemma EligibleIffPermitted(tool: Tool, contract: Contract, policy: Policy, fallback: bool)
    ensures IsEligible(tool, contract, policy, fallback) <==> Permitted(tool, contract, policy, fallback)
  {
    var required := Required(contract);
    RequiredAreAsked(contract);
    hide Required;
    var candidate := fallback && IsSafeFallbackTool(tool);
    var wanted := if fallback then SAFE_FALLBACK else required;
    var matched := if candidate then tool.capabilities * SAFE_FALLBACK else tool.capabilities * required;
    var usable := matched * if candidate then policy.Granted() else required * policy.Granted();
    NoReasons(tool, matched, required, contract, policy);
    hide ExclusionReasons;
    if usable != {} {
      var c :| c in usable;
      assert c in matched * policy.session && c in matched * policy.profile && c in matched * policy.environment;
      assert c in tool.capabilities && c in policy.Granted() && (fallback && candidate ==> c in SAFE_FALLBACK);
      assert Grants(tool, contract, policy, candidate, c);
    }
    if c :| Grants(tool, contract, policy, fallback, c) {
      assert c in wanted && c in policy.Granted();
      if fallback {
        SafeWhenHarmless(tool, c);
      }
      assert candidate == fallback ==> c in usable;
    }
  }

  lemma SafeWhenHarmless(tool: Tool, c: Capability)
    requires c in tool.capabilities && c in SAFE_FALLBACK
    ensures IsSafeFallbackTool(tool) <==> tool.readOnly && !Hazardous(tool) && tool.activationRequirements == {}
  {
    assert c in tool.capabilities * SAFE_FALLBACK;
  }

  /** Eligibility is antitone in policy: narrowing never adds a tool. */
  lemma EligibilityIsAntitone(tool: Tool, contract: Contract, p: Policy, q: Policy, fallback: bool)
    requires Narrows(p, q) && IsEligible(tool, contract, p, fallback)
    ensures IsEligible(tool, contract, q, fallback)
  {
    EligibleIffPermitted(tool, contract, p, fallback);
    EligibleIffPermitted(tool, contract, q, fallback);
  }

  // ---------- The greedy cover ----------

  function Covers(tool: Tool, uncovered: set<Capability>): set<Capability> {
    tool.capabilities * uncovered
  }

  function Flag(b: bool): nat {
    if b then 1 else 0
  }

  /** The sort key of the candidates: more coverage, then safer, then priority, then name. */
  predicate KeyLeq(uncovered: set<Capability>, a: Tool, b: Tool) {
    var x, y := |Covers(a, uncovered)|, |Covers(b, uncovered)|;
    if x != y then x > y
    else if a.Risky() != b.Risky() then Flag(a.Risky()) < Flag(b.Risky())
    else if a.exposurePriority != b.exposurePriority then a.exposurePriority < b.exposurePriority
    else TextLeq()(a.name, b.name)
  }

  lemma KeyIsTotalPreorder(uncovered: set<Capability>)
    ensures TotalPreorder((a: Tool, b: Tool) => KeyLeq(uncovered, a, b))
    ensures forall a, b :: KeyLeq(uncovered, a, b) || KeyLeq(uncovered, b, a)
    ensures forall a, b, c :: KeyLeq(uncovered, a, b) && KeyLeq(uncovered, b, c) ==> KeyLeq(uncovered, a, c)
    ensures forall a, b :: KeyLeq(uncovered, a, b) && KeyLeq(uncovered, b, a) ==> a.name == b.name
  {
    TextOrder();
  }

  ghost predicate UniqueNames(tools: set<Tool>) {
    forall a, b :: a in tools && b in tools && a.name == b.name ==> a == b
  }

  lemma FewerNamesStayUnique(tools: set<Tool>, fewer: set<Tool>)
    requires UniqueNames(tools) && fewer <= tools
    ensures UniqueNames(fewer)
  {
  }

  ghost predicate IsBest(tools: set<Tool>, uncovered: set<Capability>, t: Tool) {
    && t in tools && Covers(t, uncovered) != {}
    && forall o :: o in tools && Covers(o, uncovered) != {} ==> KeyLeq(uncovered, t, o)
  }

  ghost predicate SomeCandidate(tools: set<Tool>, uncovered: set<Capability>) {
    exists t :: t in tools && Covers(t, uncovered) != {}
  }

  lemma {:induction false} BestExists(tools: set<Tool>, uncovered: set<Capability>)
    requires SomeCandidate(tools, uncovered)
    ensures exists t :: IsBest(tools, uncovered, t)
    decreases |tools|
  {
    KeyIsTotalPreorder(uncovered);
    var t :| t in tools && Covers(t, uncovered) != {};
    var rest := tools - {t};
    if SomeCandidate(rest, uncovered) {
      BestExists(rest, uncovered);
      var b :| IsBest(rest, uncovered, b);
      assert KeyLeq(uncovered, t, t);
      assert forall o :: o in tools ==> o == t || o in rest;
      assert IsBest(tools, uncovered, if KeyLeq(uncovered, b, t) then b else t);
    } else {
      assert KeyLeq(uncovered, t, t);
      assert forall o :: o in tools ==> o == t || o in rest;
      assert IsBest(tools, uncovered, t);
    }
  }

  lemma BestIsUnique(tools: set<Tool>, uncovered: set<Capability>, a: Tool, b: Tool)
    requires UniqueNames(tools) && IsBest(tools, uncovered, a) && IsBest(tools, uncovered, b)
    ensures a == b
  {
    KeyIsTotalPreorder(uncovered);
  }

  ghost function Best(tools: set<Tool>, uncovered: set<Capability>): (t: Tool)
    requires SomeCandidate(tools, uncovered)
    ensures IsBest(tools, uncovered, t)
  {
    BestExists(tools, uncovered);
    var t :| IsBest(tools, uncovered, t);
    t
  }

  /** The greedy cover depends on the set of tools alone, not on any order of the catalog. */
  ghost function GreedyCover(tools: set<Tool>, uncovered: set<Capability>, limit: nat): seq<Tool>
    decreases limit
  {
    if limit == 0 || !SomeCandidate(tools, uncovered) then []
    else
      var t := Best(tools, uncovered);
      [t] + GreedyCover(tools - {t}, uncovered - t.capabilities, limit - 1)
  }

  lemma GreedyUnfolds(tools: set<Tool>, uncovered: set<Capability>, limit: nat, t: Tool)
    requires limit > 0 && UniqueNames(tools) && IsBest(tools, uncovered, t)
    ensures GreedyCover(tools, uncovered, limit)
      == [t] + GreedyCover(tools - {t}, uncovered - t.capabilities, limit - 1)
  {
    assert SomeCandidate(tools, uncovered);
    BestIsUnique(tools, uncovered, Best(tools, uncovered), t);
  }

  /** Half-way through, the tools selected so far are extended by the greedy cover of what remains. */
  ghost predicate OnTheWay(all: set<Tool>, required: set<Capability>, limit: nat, selected: seq<Tool>,
                           remaining: seq<Tool>, uncovered: set<Capability>)
  {
    && |selected| <= limit && NoDup(remaining) && UniqueNames(ToSet(remaining))
    && GreedyCover(all, required, limit)
         == selected + GreedyCover(ToSet(remaining), uncovered, limit - |selected|)
  }

  method MinimalExposure(eligible: seq<Tool>, required: set<Capability>, limit: nat) returns (selected: seq<Tool>)
    requires UniqueNames(ToSet(eligible)) && NoDup(eligible)
    ensures selected == GreedyCover((set t | t in eligible && t.directlyExposable), required, limit)
  {
    hide *;
    ghost var all := set t | t in eligible && t.directlyExposable;
    var uncovered := required;
    var remaining := Filter(eligible, (t: Tool) => t.directlyExposable);
    selected := [];
    GreedyStart(eligible, required, limit);
    while uncovered != {} && remaining != [] && |selected| < limit
      invariant |selected| <= limit && OnTheWay(all, required, limit, selected, remaining, uncovered)
      decreases |remaining|
    {
      var best := BestCandidate(remaining, uncovered);
      if best == None {
        break;
      }
      var chosen := best.value;
      var rest := Remove(remaining, chosen);
      GreedyStep(all, required, limit, selected, remaining, rest, uncovered, chosen);
      selected, uncovered, remaining := selected + [chosen], uncovered - chosen.capabilities, rest;
    }
    GreedyStops(all, required, limit, selected, remaining, uncovered);
  }

  lemma GreedyStart(eligible: seq<Tool>, required: set<Capability>, limit: nat)
    requires UniqueNames(ToSet(eligible)) && NoDup(eligible)
    ensures var all := set t | t in eligible && t.directlyExposable;
      OnTheWay(all, required, limit, [], Filter(eligible, (t: Tool) => t.directlyExposable), required)
  {
    hide GreedyCover;
    var all := set t | t in eligible && t.directlyExposable;
    var remaining := Filter(eligible, (t: Tool) => t.directlyExposable);
    FilterNoDup(eligible, (t: Tool) => t.directlyExposable);
    assert ToSet(remaining) == all;
    assert [] + GreedyCover(all, required, limit) == GreedyCover(all, required, limit);
  }

  lemma GreedyStops(all: set<Tool>, required: set<Capability>, limit: nat, selected: seq<Tool>, remaining: seq<Tool>,
                    uncovered: set<Capability>)
    requires OnTheWay(all, required, limit, selected, remaining, uncovered)
    requires |selected| == limit || uncovered == {} || forall t :: t in remaining ==> Covers(t, uncovered) == {}
    ensures selected == GreedyCover(all, required, limit)
  {
    assert GreedyCover(ToSet(remaining), uncovered, limit - |selected|) == [];
    assert selected + [] == selected;
  }

  lemma GreedyStep(all: set<Tool>, required: set<Capability>, limit: nat, selected: seq<Tool>, remaining: seq<Tool>,
                   rest: seq<Tool>, uncovered: set<Capability>, chosen: Tool)
    requires OnTheWay(all, required, limit, selected, remaining, uncovered) && |selected| < limit
    requires IsBest(ToSet(remaining), uncovered, chosen)
    requires NoDup(remaining) ==> NoDup(rest) && ToSet(rest) == ToSet(remaining) - {chosen}
    ensures OnTheWay(all, required, limit, selected + [chosen], rest, uncovered - chosen.capabilities)
  {
    hide GreedyCover, IsBest, NoDup;
    GreedyUnfolds(ToSet(remaining), uncovered, limit - |selected|, chosen);
    FewerNamesStayUnique(ToSet(remaining), ToSet(rest));
    hide UniqueNames;
    var tail := GreedyCover(ToSet(remaining) - {chosen}, uncovered - chosen.capabilities, limit - |selected| - 1);
    assert selected + ([chosen] + tail) == (selected + [chosen]) + tail;
  }

  /** Filter the tools that still cover something, sort them by key, and take the first. */
  method BestCandidate(remaining: seq<Tool>, uncovered: set<Capability>) returns (best: Option<Tool>)
    ensures best == None ==> forall t :: t in remaining ==> Covers(t, uncovered) == {}
    ensures best != None ==> best.value in remaining && IsBest(ToSet(remaining), uncovered, best.value)
  {
    var candidates := Filter(remaining, (t: Tool) => Covers(t, uncovered) != {});
    if candidates == [] {
      FilterEmpty(remaining, (t: Tool) => Covers(t, uncovered) != {});
      return None;
    }
    var key := (a: Tool, b: Tool) => KeyLeq(uncovered, a, b);
    KeyIsTotalPreorder(uncovered);
    var sorted := Sort(key, candidates);
    SortCorrect(key, candidates);
    assert |multiset(sorted)| == |multiset(candidates)|;
    forall o | o in candidates ensures KeyLeq(uncovered, sorted[0], o) {
      assert o in multiset(sorted);
      var i :| 0 <= i < |sorted| && sorted[i] == o;
      assert key(sorted[0], sorted[i]) || i == 0;
    }
    assert sorted[0] in multiset(candidates);
    best := Some(sorted[0]);
  }

  /** `remaining.remove(chosen)`. */
  method Remove(remaining: seq<Tool>, chosen: Tool) returns (rest: seq<Tool>)
    requires chosen in remaining
    ensures |rest| < |remaining|
    ensures NoDup(remaining) ==> NoDup(rest) && ToSet(rest) == ToSet(remaining) - {chosen}
  {
    var i := 0;
    while remaining[i] != chosen
      invariant 0 <= i < |remaining| && chosen !in remaining[..i]
      decreases |remaining| - i
    {
      assert remaining[..i + 1] == remaining[..i] + [remaining[i]];
      assert remaining == remaining[..i + 1] + remaining[i + 1..];
      i := i + 1;
    }
    rest := remaining[..i] + remaining[i + 1..];
    assert remaining == remaining[..i] + [chosen] + remaining[i + 1..];
  }

  // ---------- What the cover achieves ----------

  ghost function CapabilitiesOf(tools: seq<Tool>): set<Capability> {
    set t, c | t in tools && c in t.capabilities :: c
  }

  /** What of `uncovered` the tools can cover at all. */
  ghost function Coverable(tools: set<Tool>, uncovered: set<Capability>): set<Capability> {
    set t, c | t in tools && c in Covers(t, uncovered) :: c
  }

  /** The selection respects the limit, repeats nothing, and stops short only when everything coverable is covered. */
  lemma {:induction false} CoverIsComplete(tools: set<Tool>, uncovered: set<Capability>, limit: nat)
    ensures var selected := GreedyCover(tools, uncovered, limit);
      && |selected| <= limit && NoDup(selected) && ToSet(selected) <= tools
      && (|selected| < limit ==> Coverable(tools, uncovered) <= CapabilitiesOf(selected))
    decreases limit
  {
    var selected := GreedyCover(tools, uncovered, limit);
    if limit == 0 || !SomeCandidate(tools, uncovered) {
      assert selected == [];
    } else {
      var t := Best(tools, uncovered);
      var left := uncovered - t.capabilities;
      var rest := GreedyCover(tools - {t}, left, limit - 1);
      CoverIsComplete(tools - {t}, left, limit - 1);
      assert t !in ToSet(rest);
      CoverGrows(tools, uncovered, t, rest);
    }
  }

  lemma CoverGrows(tools: set<Tool>, uncovered: set<Capability>, t: Tool, rest: seq<Tool>)
    ensures ToSet([t] + rest) == {t} + ToSet(rest)
    ensures Coverable(tools - {t}, uncovered - t.capabilities) <= CapabilitiesOf(rest) ==>
      Coverable(tools, uncovered) <= CapabilitiesOf([t] + rest)
  {
    var left := uncovered - t.capabilities;
    if Coverable(tools - {t}, left) <= CapabilitiesOf(rest) {
      forall c | c in Coverable(tools, uncovered) ensures c in CapabilitiesOf([t] + rest) {
        assert t in [t] + rest;
        if c !in t.capabilities {
          var u :| u in tools && c in Covers(u, uncovered);
          assert u in tools - {t} && c in Covers(u, left);
          assert c in Coverable(tools - {t}, left);
          var w :| w in rest && c in w.capabilities;
          assert w in [t] + rest;
        }
      }
    }
  }

  /** The harmonic number 1 + 1/2 + ... + 1/n. */
  ghost function Harmonic(n: nat): real {
    if n == 0 then 0.0 else Harmonic(n - 1) + 1.0 / n as real
  }

  ghost function HarmonicTimes(n: nat, k: nat): real {
    Harmonic(n) * k as real
  }

  lemma {:induction false} HarmonicGap(n: nat, c: nat)
    requires c <= n && n > 0
    ensures Harmonic(n) - Harmonic(n - c) >= c as real / n as real
    decreases c
  {
    if c > 0 {
      HarmonicGap(n, c - 1);
      var m := n - c + 1;
      assert Harmonic(m) == Harmonic(m - 1) + 1.0 / m as real;
      assert 1.0 / m as real >= 1.0 / n as real;
      assert c as real / n as real == (c - 1) as real / n as real + 1.0 / n as real;
    }
  }

  lemma CoverableSplits(cover: set<Tool>, uncovered: set<Capability>, t: Tool)
    requires t in cover
    ensures |Coverable(cover, uncovered)| <= |Coverable(cover - {t}, uncovered)| + |Covers(t, uncovered)|
  {
    var rest := cover - {t};
    forall c ensures c in Coverable(cover, uncovered) <==> c in Coverable(rest, uncovered) + Covers(t, uncovered) {
      if c in Coverable(cover, uncovered) && c !in Covers(t, uncovered) {
        var u :| u in cover && c in Covers(u, uncovered);
        assert u in rest;
      }
      if c in Coverable(rest, uncovered) {
        var u :| u in rest && c in Covers(u, uncovered);
        assert u in cover;
      }
    }
    assert Coverable(cover, uncovered) == Coverable(rest, uncovered) + Covers(t, uncovered);
  }

  /** `k` sets of at most `c` elements each cover at most `k * c` elements. */
  lemma {:induction false} UnionBound(cover: set<Tool>, uncovered: set<Capability>, c: nat)
    requires forall t :: t in cover ==> |Covers(t, uncovered)| <= c
    ensures |Coverable(cover, uncovered)| <= |cover| * c
    decreases |cover|
  {
    if cover == {} {
      assert Coverable(cover, uncovered) == {};
    } else {
      var t :| t in cover;
      var rest := cover - {t};
      UnionBound(rest, uncovered, c);
      CoverableSplits(cover, uncovered, t);
      assert |cover| == |rest| + 1;
      assert |cover| * c == |rest| * c + c;
    }
  }

  /** `cover` reaches everything that can be reached. */
  ghost predicate IsCover(tools: set<Tool>, uncovered: set<Capability>, cover: set<Tool>) {
    cover <= tools && Coverable(tools, uncovered) <= Coverable(cover, uncovered)
  }

  lemma CoverAfterChoice(tools: set<Tool>, uncovered: set<Capability>, cover: set<Tool>, t: Tool)
    requires IsCover(tools, uncovered, cover) && t in tools
    ensures IsCover(tools - {t}, uncovered - t.capabilities, cover - {t})
    ensures Coverable(tools - {t}, uncovered - t.capabilities) == Coverable(tools, uncovered) - Covers(t, uncovered)
    ensures Covers(t, uncovered) <= Coverable(tools, uncovered)
  {
    var left := uncovered - t.capabilities;
    forall c | c in Coverable(tools, uncovered) - Covers(t, uncovered)
      ensures c in Coverable(cover - {t}, left) && c in Coverable(tools - {t}, left)
    {
      var u :| u in cover && c in Covers(u, uncovered);
      assert u != t && c in Covers(u, left);
    }
    forall c | c in Coverable(tools - {t}, left) ensures c in Coverable(tools, uncovered) - Covers(t, uncovered) {
      var u :| u in tools - {t} && c in Covers(u, left);
      assert c in Covers(u, uncovered);
    }
  }

  lemma BestCoversItsShare(tools: set<Tool>, uncovered: set<Capability>, cover: set<Tool>, t: Tool)
    requires IsCover(tools, uncovered, cover) && IsBest(tools, uncovered, t)
    ensures |Coverable(tools, uncovered)| <= |cover| * |Covers(t, uncovered)|
  {
    forall u | u in cover ensures |Covers(u, uncovered)| <= |Covers(t, uncovered)| {
      if Covers(u, uncovered) != {} {
        assert KeyLeq(uncovered, t, u);
      }
    }
    UnionBound(cover, uncovered, |Covers(t, uncovered)|);
    SubsetCardinality(Coverable(tools, uncovered), Coverable(cover, uncovered));
  }

  lemma RoundCounts(tools: set<Tool>, uncovered: set<Capability>, cover: set<Tool>, t: Tool)
    requires IsCover(tools, uncovered, cover) && IsBest(tools, uncovered, t)
    ensures 0 < |Covers(t, uncovered)| <= |Coverable(tools, uncovered)| <= |cover| * |Covers(t, uncovered)|
    ensures |Coverable(tools - {t}, uncovered - t.capabilities)|
      == |Coverable(tools, uncovered)| - |Covers(t, uncovered)|
  {
    BestCoversItsShare(tools, uncovered, cover, t);
    CoverAfterChoice(tools, uncovered, cover, t);
    SubsetCardinality(Covers(t, uncovered), Coverable(tools, uncovered));
  }

  /**
   The greedy cover is within the harmonic factor of optimal: if n of the required capabilities can be covered, and
   any k of the exposable tools cover them, then at most H(n) * k tools are selected.
   */
  lemma {:induction false} GreedyIsNearOptimal(tools: set<Tool>, uncovered: set<Capability>, limit: nat,
                                               cover: set<Tool>, k: nat)
    requires IsCover(tools, uncovered, cover) && |cover| <= k
    ensures |GreedyCover(tools, uncovered, limit)| as real <= HarmonicTimes(|Coverable(tools, uncovered)|, k)
    decreases limit
  {
    hide IsCover, SomeCandidate, Coverable, Covers, Harmonic, HarmonicTimes, KeyLeq, Best;
    if limit == 0 || !SomeCandidate(tools, uncovered) {
      HarmonicIsNonnegative(|Coverable(tools, uncovered)|, k);
    } else {
      var t := Best(tools, uncovered);
      assert t in tools;
      hide IsBest;
      CoverAfterChoice(tools, uncovered, cover, t);
      SubsetCardinality(cover - {t}, cover);
      GreedyIsNearOptimal(tools - {t}, uncovered - t.capabilities, limit - 1, cover - {t}, k);
      NearOptimalStep(tools, uncovered, cover, t, |GreedyCover(tools - {t}, uncovered - t.capabilities, limit - 1)|, k);
    }
  }

  lemma NearOptimalStep(tools: set<Tool>, uncovered: set<Capability>, cover: set<Tool>, t: Tool, rest: nat, k: nat)
    requires IsCover(tools, uncovered, cover) && |cover| <= k && IsBest(tools, uncovered, t)
    requires rest as real <= HarmonicTimes(|Coverable(tools - {t}, uncovered - t.capabilities)|, k)
    ensures (1 + rest) as real <= HarmonicTimes(|Coverable(tools, uncovered)|, k)
  {
    hide *;
    RoundCounts(tools, uncovered, cover, t);
    ChargeOneTool(|Coverable(tools, uncovered)|, |Covers(t, uncovered)|, |cover|, k);
  }

  lemma {:induction false} HarmonicIsNonnegative(n: nat, k: nat)
    ensures Harmonic(n) >= 0.0 && HarmonicTimes(n, k) >= 0.0
  {
    if n > 0 {
      HarmonicIsNonnegative(n - 1, k);
    }
  }

  lemma ChargeOneTool(n: nat, c: nat, m: nat, k: nat)
    requires 0 < c <= n <= m * c && m <= k
    ensures HarmonicTimes(n, k) >= 1.0 + HarmonicTimes(n - c, k)
  {
    HarmonicGap(n, c);
    hide Harmonic;
    WidenFactor(n, c, m, k);
    ShareOfAll(n as real, c as real, k as real);
    ScaleGap(Harmonic(n), Harmonic(n - c), c as real / n as real, k as real);
  }

  lemma WidenFactor(n: nat, c: nat, m: nat, k: nat)
    requires n <= m * c && m <= k
    ensures n as real <= k as real * c as real
  {
    assert m * c <= k * c;
    assert (k * c) as real == k as real * c as real;
  }

  lemma ShareOfAll(n: real, c: real, k: real)
    requires n > 0.0 && n <= k * c
    ensures (c / n) * k >= 1.0
  {
    assert (c / n) * k == (k * c) / n;
  }

  lemma ScaleGap(h: real, h': real, share: real, k: real)
    requires h - h' >= share && share * k >= 1.0 && k >= 0.0
    ensures h * k >= 1.0 + h' * k
  {
    assert (h - h') * k >= share * k;
    assert (h - h') * k == h * k - h' * k;
  }

  // ---------- Planning ----------

  ghost function ExposableTools(catalog: seq<Tool>, contract: Contract, policy: Policy, fallback: bool): set<Tool> {
    set t | t in catalog && IsEligible(t, contract, policy, fallback) && t.directlyExposable
  }

  function EligibleOf(catalog: seq<Tool>, contract: Contract, policy: Policy, fallback: bool): seq<Tool> {
    Filter(catalog, (t: Tool) => IsEligible(t, contract, policy, fallback))
  }

  ghost function ExposedTools(catalog: seq<Tool>, contract: Contract, policy: Policy, fallback: bool): seq<Tool> {
    GreedyCover(ExposableTools(catalog, contract, policy, fallback), Required(contract) * policy.Granted(),
                policy.maxExposed)
  }

  function Names(tools: seq<Tool>): (r: seq<string>)
    ensures |r| == |tools| && forall i :: 0 <= i < |r| ==> r[i] == tools[i].name
  {
    if tools == [] then [] else Names(tools[..|tools| - 1]) + [tools[|tools| - 1].name]
  }

  /** A name in the policy's lists is blank once stripped. */
  predicate NamesBlank(policy: Policy) {
    || (exists n | n in policy.denied :: Strip(n) == [])
    || (policy.allowed.Some? && exists n | n in policy.allowed.value :: Strip(n) == [])
  }

  // ---------- The exposed tools, pick by pick ----------

  /** What a selection has left uncovered. */
  function LeftAfter(wanted: set<Capability>, chosen: seq<Tool>): set<Capability> {
    set c | c in wanted && forall t | t in chosen :: c !in t.capabilities
  }

  ghost predicate NameBefore(a: string, b: string) {
    a <= b || exists i :: 0 <= i < |a| && i < |b| && a[..i] == b[..i] && (a[i] as int) < b[i] as int
  }

  /** More of what is left, then the harmless before the hazardous, then the smaller priority, then the name. */
  ghost predicate Outranks(left: set<Capability>, a: Tool, b: Tool) {
    var x, y := |a.capabilities * left|, |b.capabilities * left|;
    || x > y
    || (x == y && !Hazardous(a) && Hazardous(b))
    || (x == y && (Hazardous(a) <==> Hazardous(b))
        && (a.exposurePriority < b.exposurePriority
            || (a.exposurePriority == b.exposurePriority && NameBefore(a.name, b.name))))
  }

  /** The next pick: it covers something that is left, and no other candidate outranks it. */
  ghost predicate Picks(pool: set<Tool>, wanted: set<Capability>, chosen: seq<Tool>, t: Tool) {
    var left := LeftAfter(wanted, chosen);
    && t in pool && t !in chosen && t.capabilities * left != {}
    && forall o :: o in pool && o !in chosen && o.capabilities * left != {} ==> Outranks(left, t, o)
  }

  /** Every pick is the best one, and picking ends only at the limit or when nothing left can be covered. */
  ghost predicate PicksOut(pool: set<Tool>, wanted: set<Capability>, limit: nat, chosen: seq<Tool>) {
    && |chosen| <= limit
    && (forall i :: 0 <= i < |chosen| ==> Picks(pool, wanted, chosen[..i], chosen[i]))
    && (|chosen| < limit ==>
          forall o :: o in pool && o !in chosen ==> o.capabilities * LeftAfter(wanted, chosen) == {})
  }

  lemma KeyMeans(left: set<Capability>, a: Tool, b: Tool)
    ensures KeyLeq(left, a, b) <==> Outranks(left, a, b)
  {
    TextMeans(a.name, b.name);
  }

  lemma PickIsBest(pool: set<Tool>, wanted: set<Capability>, t: Tool)
    requires IsBest(pool, wanted, t)
    ensures Picks(pool, wanted, [], t)
  {
    hide KeyLeq, Outranks;
    assert LeftAfter(wanted, []) == wanted;
    forall o | o in pool && o.capabilities * wanted != {} ensures Outranks(wanted, t, o) {
      assert Covers(o, wanted) != {};
      KeyMeans(wanted, t, o);
    }
  }

  lemma LeftAfterFirst(wanted: set<Capability>, t: Tool, chosen: seq<Tool>)
    ensures LeftAfter(wanted - t.capabilities, chosen) == LeftAfter(wanted, [t] + chosen)
  {
  }

  lemma PicksAfterFirst(pool: set<Tool>, wanted: set<Capability>, t: Tool, chosen: seq<Tool>, next: Tool)
    requires Picks(pool - {t}, wanted - t.capabilities, chosen, next)
    ensures Picks(pool, wanted, [t] + chosen, next)
  {
    LeftAfterFirst(wanted, t, chosen);
    hide LeftAfter, Outranks;
  }

  /** The greedy cover is such a selection. */
  lemma {:induction false} CoverPicksOut(pool: set<Tool>, wanted: set<Capability>, limit: nat)
    ensures PicksOut(pool, wanted, limit, GreedyCover(pool, wanted, limit))
    decreases limit
  {
    var chosen := GreedyCover(pool, wanted, limit);
    hide IsBest, Picks;
    if limit == 0 {
    } else if !SomeCandidate(pool, wanted) {
      assert LeftAfter(wanted, []) == wanted;
      assert forall o :: o in pool ==> Covers(o, wanted) == {};
    } else {
      var t := Best(pool, wanted);
      var rest := GreedyCover(pool - {t}, wanted - t.capabilities, limit - 1);
      assert chosen == [t] + rest;
      CoverPicksOut(pool - {t}, wanted - t.capabilities, limit - 1);
      PickIsBest(pool, wanted, t);
      LeftAfterFirst(wanted, t, rest);
      forall i | 0 <= i < |chosen| ensures Picks(pool, wanted, chosen[..i], chosen[i]) {
        if i > 0 {
          assert chosen[..i] == [t] + rest[..i - 1];
          PicksAfterFirst(pool, wanted, t, rest[..i - 1], rest[i - 1]);
        }
      }
    }
  }

  /** The exposable tools, by the rules themselves. */
  ghost function Pool(catalog: seq<Tool>, contract: Contract, policy: Policy, fallback: bool): set<Tool> {
    set t | t in catalog && Permitted(t, contract, policy, fallback) && t.directlyExposable
  }

  /** What the exposed tools are to cover: what is asked for and granted by all three. */
  ghost function Obtainable(contract: Contract, policy: Policy): set<Capability> {
    set c | c in policy.session && c in policy.profile && c in policy.environment && Asks(contract, c)
  }

  /** A plan, by the rules: who is eligible, who is exposed, and what stays unavailable. */
  ghost predicate Plans(plan: Plan, catalog: seq<Tool>, contract: Contract, policy: Policy, fallback: bool) {
    && (forall c :: c in plan.required <==> Asks(contract, c))
    && (forall c :: c in plan.unavailable <==> Asks(contract, c) && c !in Obtainable(contract, policy))
    && plan.eligible == Names(Filter(catalog, (t: Tool) => Permitted(t, contract, policy, fallback)))
    && exists chosen ::
         && PicksOut(Pool(catalog, contract, policy, fallback), Obtainable(contract, policy), policy.maxExposed, chosen)
         && plan.exposed == Names(chosen)
  }

  lemma PlanMeans(plan: Plan, catalog: seq<Tool>, contract: Contract, policy: Policy, fallback: bool)
    requires plan.eligible == Names(EligibleOf(catalog, contract, policy, fallback))
    requires plan.exposed == Names(ExposedTools(catalog, contract, policy, fallback))
    requires plan.required == Required(contract) && plan.unavailable == Required(contract) - policy.Granted()
    ensures Plans(plan, catalog, contract, policy, fallback)
  {
    hide *;
    ObtainableIs(contract, policy);
    RequiredAreAsked(contract);
    EligibleByRule(catalog, contract, policy, fallback);
    CoverPicksOut(Pool(catalog, contract, policy, fallback), Obtainable(contract, policy), policy.maxExposed);
    assert ExposedTools(catalog, contract, policy, fallback)
        == GreedyCover(Pool(catalog, contract, policy, fallback), Obtainable(contract, policy), policy.maxExposed) by {
      ExposedIs(catalog, contract, policy, fallback);
    }
    PlansIs(plan, catalog, contract, policy, fallback, ExposedTools(catalog, contract, policy, fallback));
  }

  lemma ObtainableIs(contract: Contract, policy: Policy)
    ensures Obtainable(contract, policy) == Required(contract) * policy.Granted()
  {
    RequiredAreAsked(contract);
    hide Required, Asks;
  }

  lemma EligibleByRule(catalog: seq<Tool>, contract: Contract, policy: Policy, fallback: bool)
    ensures EligibleOf(catalog, contract, policy, fallback)
      == Filter(catalog, (t: Tool) => Permitted(t, contract, policy, fallback))
    ensures Pool(catalog, contract, policy, fallback) == ExposableTools(catalog, contract, policy, fallback)
  {
    forall t ensures IsEligible(t, contract, policy, fallback) <==> Permitted(t, contract, policy, fallback) {
      EligibleIffPermitted(t, contract, policy, fallback);
    }
    hide IsEligible, Permitted, Filter;
    FilterAgree(catalog, (t: Tool) => IsEligible(t, contract, policy, fallback),
                (t: Tool) => Permitted(t, contract, policy, fallback));
  }

  lemma ExposedIs(catalog: seq<Tool>, contract: Contract, policy: Policy, fallback: bool)
    ensures ExposedTools(catalog, contract, policy, fallback)
      == GreedyCover(ExposableTools(catalog, contract, policy, fallback), Required(contract) * policy.Granted(),
                     policy.maxExposed)
  {
    hide GreedyCover, ExposableTools, Required;
  }

  lemma PlansIs(plan: Plan, catalog: seq<Tool>, contract: Contract, policy: Policy, fallback: bool, chosen: seq<Tool>)
    requires forall c :: c in plan.required <==> Asks(contract, c)
    requires Obtainable(contract, policy) == plan.required * policy.Granted()
    requires plan.unavailable == plan.required - policy.Granted()
    requires plan.eligible == Names(Filter(catalog, (t: Tool) => Permitted(t, contract, policy, fallback)))
    requires PicksOut(Pool(catalog, contract, policy, fallback), Obtainable(contract, policy), policy.maxExposed,
                      chosen)
    requires plan.exposed == Names(chosen)
    ensures Plans(plan, catalog, contract, policy, fallback)
  {
    hide Asks, Obtainable, PicksOut, Pool, Permitted, Names, Filter;
  }

  method MakePlan(catalog: seq<Tool>, contract: Contract, policy: Policy, fallback: bool)
    returns (r: Result<Plan, PlanError>)
    ensures r == Err(DuplicateCatalogNames) <==> !NoDup(Names(catalog))
    ensures r == Err(BlankPolicyName) <==> NoDup(Names(catalog)) && NamesBlank(policy)
    ensures r.Ok? <==> NoDup(Names(catalog)) && !NamesBlank(policy)
    ensures r.Ok? <==>
      && NoDup(Names(catalog)) && (forall n | n in policy.denied :: !AllSpace(n))
      && (policy.allowed != None ==> forall n | n in policy.allowed.value :: !AllSpace(n))
    ensures r.Ok? ==>
      && r.value.eligible == Names(EligibleOf(catalog, contract, policy, fallback))
      && r.value.exposed == Names(ExposedTools(catalog, contract, policy, fallback))
      && r.value.required == Required(contract)
      && r.value.unavailable == Required(contract) - policy.Granted()
      && Plans(r.value, catalog, contract, policy, fallback)
  {
    forall n: string ensures Strip(n) == [] <==> AllSpace(n) {
      BlankIff(n);
    }
    hide Strip, AllSpace;
    if !NoDup(Names(catalog)) {
      return Err(DuplicateCatalogNames);
    }
    if NamesBlank(policy) {
      return Err(BlankPolicyName);
    }
    var required := Required(contract);
    var available := required * policy.Granted();
    var eligible := EligibleTools(catalog, contract, policy, fallback);
    ExposableAreEligible(catalog, contract, policy, fallback);
    hide EligibleOf, ExposableTools, IsEligible, NoDup, UniqueNames;
    var exposed := MinimalExposure(eligible, available, policy.maxExposed);
    r := Ok(Plan(required, required - available, Names(eligible), Names(exposed)));
    PlanMeans(r.value, catalog, contract, policy, fallback);
  }

  lemma ExposableAreEligible(catalog: seq<Tool>, contract: Contract, policy: Policy, fallback: bool)
    ensures (set t | t in EligibleOf(catalog, contract, policy, fallback) && t.directlyExposable)
         == ExposableTools(catalog, contract, policy, fallback)
  {
  }

  lemma NamesIdentifyTools(catalog: seq<Tool>)
    requires NoDup(Names(catalog))
    ensures NoDup(catalog) && UniqueNames(ToSet(catalog))
  {
    forall i, j | 0 <= i < j < |catalog| ensures catalog[i] != catalog[j] {
      assert Names(catalog)[i] != Names(catalog)[j];
    }
    forall a, b | a in ToSet(catalog) && b in ToSet(catalog) && a.name == b.name ensures a == b {
      var i :| 0 <= i < |catalog| && catalog[i] == a;
      var j :| 0 <= j < |catalog| && catalog[j] == b;
      assert Names(catalog)[i] == Names(catalog)[j];
    }
  }

  method EligibleTools(catalog: seq<Tool>, contract: Contract, policy: Policy, fallback: bool)
    returns (eligible: seq<Tool>)
    requires NoDup(Names(catalog))
    ensures eligible == EligibleOf(catalog, contract, policy, fallback)
    ensures NoDup(eligible) && UniqueNames(ToSet(eligible))
  {
    eligible := CollectEligible(catalog, contract, policy, fallback);
    EligibleKeepsNames(catalog, contract, policy, fallback);
  }

  method CollectEligible(catalog: seq<Tool>, contract: Contract, policy: Policy, fallback: bool)
    returns (eligible: seq<Tool>)
    ensures eligible == EligibleOf(catalog, contract, policy, fallback)
  {
    hide *;
    eligible := [];
    EligibleEnds(catalog, contract, policy, fallback);
    for k := 0 to |catalog|
      invariant eligible == EligibleUpTo(catalog, k, contract, policy, fallback)
    {
      var reasons := Verdict(catalog[k], contract, policy, fallback);
      EligibleAppend(catalog, k, contract, policy, fallback);
      if reasons == [] {
        eligible := eligible + [catalog[k]];
      }
    }
  }

  ghost function EligibleUpTo(catalog: seq<Tool>, k: nat, contract: Contract, policy: Policy, fallback: bool)
    : seq<Tool>
    requires k <= |catalog|
  {
    EligibleOf(catalog[..k], contract, policy, fallback)
  }

  lemma EligibleEnds(catalog: seq<Tool>, contract: Contract, policy: Policy, fallback: bool)
    ensures EligibleUpTo(catalog, 0, contract, policy, fallback) == []
    ensures EligibleUpTo(catalog, |catalog|, contract, policy, fallback)
      == EligibleOf(catalog, contract, policy, fallback)
  {
    assert catalog[..|catalog|] == catalog;
  }

  lemma EligibleKeepsNames(catalog: seq<Tool>, contract: Contract, policy: Policy, fallback: bool)
    requires NoDup(Names(catalog))
    ensures var eligible := EligibleOf(catalog, contract, policy, fallback);
      NoDup(eligible) && UniqueNames(ToSet(eligible))
  {
    NamesIdentifyTools(catalog);
    FilterNoDup(catalog, (t: Tool) => IsEligible(t, contract, policy, fallback));
    FewerNamesStayUnique(ToSet(catalog), ToSet(EligibleOf(catalog, contract, policy, fallback)));
  }

  lemma EligibleAppend(catalog: seq<Tool>, k: nat, contract: Contract, policy: Policy, fallback: bool)
    requires k < |catalog|
    ensures EligibleUpTo(catalog, k + 1, contract, policy, fallback)
      == EligibleUpTo(catalog, k, contract, policy, fallback)
         + (if Verdict(catalog[k], contract, policy, fallback) == [] then [catalog[k]] else [])
  {
    assert catalog[..k + 1] == catalog[..k] + [catalog[k]];
    FilterConcat(catalog[..k], [catalog[k]], (t: Tool) => IsEligible(t, contract, policy, fallback));
  }

  lemma NameAt(tools: seq<Tool>, n: string)
    ensures n in Names(tools) <==> exists t :: t in tools && t.name == n
  {
    if n in Names(tools) {
      var k :| 0 <= k < |tools| && Names(tools)[k] == n;
      assert tools[k] in tools;
    }
    if t :| t in tools && t.name == n {
      var k :| 0 <= k < |tools| && tools[k] == t;
      assert Names(tools)[k] == n;
    }
  }

  /** Only eligible tools are exposed, each once. */
  lemma ExposedAreEligible(catalog: seq<Tool>, contract: Contract, policy: Policy, fallback: bool)
    ensures forall t | t in ExposedTools(catalog, contract, policy, fallback) ::
      t in catalog && IsEligible(t, contract, policy, fallback) && t.directlyExposable
    ensures NoDup(ExposedTools(catalog, contract, policy, fallback))
    ensures forall n | n in Names(ExposedTools(catalog, contract, policy, fallback)) ::
      n in Names(EligibleOf(catalog, contract, policy, fallback))
  {
    var exposed := ExposedTools(catalog, contract, policy, fallback);
    CoverIsComplete(ExposableTools(catalog, contract, policy, fallback), Required(contract) * policy.Granted(),
                    policy.maxExposed);
    assert forall t | t in exposed :: t in ToSet(exposed);
    hide ExposedTools, IsEligible;
    forall n | n in Names(exposed) ensures n in Names(EligibleOf(catalog, contract, policy, fallback)) {
      NameAt(exposed, n);
      var t :| t in exposed && t.name == n;
      assert t in EligibleOf(catalog, contract, policy, fallback);
      NameAt(EligibleOf(catalog, contract, policy, fallback), n);
    }
  }

  /** The exposed tools, in their order, do not depend on the order of the catalog. */
  lemma ExposureIgnoresCatalogOrder(a: seq<Tool>, b: seq<Tool>, contract: Contract, policy: Policy, fallback: bool)
    requires multiset(a) == multiset(b)
    ensures ExposedTools(a, contract, policy, fallback) == ExposedTools(b, contract, policy, fallback)
  {
    forall t ensures t in a <==> t in b {
      assert t in a <==> t in multiset(a);
      assert t in b <==> t in multiset(b);
    }
    assert ExposableTools(a, contract, policy, fallback) == ExposableTools(b, contract, policy, fallback);
  }
}
