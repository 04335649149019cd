/** Fitting an authoritative capability plan into the policy ceilings and the schema budget of one model call. */
module ExposureAdapter {
  import opened Collections

  const MUTATION_TOOLS: set<string> := {"file_write", "file_edit", "apply_patch"}
  const CLARIFICATION_BLOCKED_TOOLS: set<string> :=
    MUTATION_TOOLS + {"exec_command", "execute_code", "execute_code_v2", "write_stdin", "kill_session", "process_stop"}
  const NEUTRAL_TOOLS: set<string> := {"tool_search", "tool_activate", "tool_result_read"}

  datatype Baseline = Baseline(toolNames: seq<string>, limit: int, discoverable: seq<string>)

  datatype CapabilityPlan = CapabilityPlan(turnId: string, contractVersion: string, eligible: seq<string>,
                                           exposed: seq<string>)

  datatype Contract = Contract(turnId: string, contractVersion: string, mutationForbidden: bool,
                               clarificationNeeded: bool)

  datatype Ceilings = Ceilings(disabled: bool, allowed: Option<set<string>>, denied: set<string>,
                               sandbox: Option<set<string>>)

  datatype AdapterError = TurnMismatch | VersionMismatch | DeferredUnauthorized

  datatype Exposure = Exposure(toolNames: seq<string>, discoverable: seq<string>, deferred: seq<string>,
                               activationAllowed: seq<string>, brokerRequired: bool)

  // ---------- Ceilings ----------

  predicate WithinHardCeilings(name: string, ceilings: Ceilings) {
    if ceilings.disabled then false
    else if ceilings.allowed.Some? && name !in ceilings.allowed.value then false
    else if name in ceilings.denied then false
    else !(ceilings.sandbox.Some? && name !in ceilings.sandbox.value)
  }

  predicate Allowed(name: string, contract: Contract, ceilings: Ceilings) {
    && WithinHardCeilings(name, ceilings)
    && !(contract.mutationForbidden && name in MUTATION_TOOLS)
    && !(contract.clarificationNeeded && name in CLARIFICATION_BLOCKED_TOOLS)
  }

  function ActivationAllowed(plan: CapabilityPlan, contract: Contract, ceilings: Ceilings): seq<string> {
    Filter(plan.eligible, (n: string) => Allowed(n, contract, ceilings))
  }

  /** Who may be exposed directly: what the planner exposes, and the infrastructure the baseline already had. */
  predicate Authoritative(name: string, baseline: seq<string>, exposed: seq<string>) {
    name in exposed || (name in baseline && name in NEUTRAL_TOOLS)
  }

  /** The candidates: the baseline's survivors in their order, then the planner's additions in theirs. */
  function Candidates(baseline: seq<string>, plan: CapabilityPlan, contract: Contract, ceilings: Ceilings)
    : seq<string>
  {
    Filter(baseline, (n: string) => Authoritative(n, baseline, plan.exposed) && Allowed(n, contract, ceilings))
    + Additions(baseline, plan.exposed, contract, ceilings)
  }

  /** What the planner exposes beyond the baseline, each once. */
  function Additions(baseline: seq<string>, exposed: seq<string>, contract: Contract, ceilings: Ceilings): seq<string> {
    Filter(Dedup(exposed), (n: string) => n !in baseline && Allowed(n, contract, ceilings))
  }

  lemma AdditionsStep(baseline: seq<string>, exposed: seq<string>, k: nat, contract: Contract, ceilings: Ceilings)
    requires k < |exposed|
    ensures var before, name := Additions(baseline, exposed[..k], contract, ceilings), exposed[k];
      Additions(baseline, exposed[..k + 1], contract, ceilings)
        == before + (if name !in baseline && Allowed(name, contract, ceilings) && name !in before then [name] else [])
  {
    var front, name := exposed[..k], exposed[k];
    var fits := (n: string) => n !in baseline && Allowed(n, contract, ceilings);
    assert exposed[..k + 1] == front + [name] && (front + [name])[..k] == front;
    assert Dedup(front + [name]) == Dedup(front) + (if name in front then [] else [name]);
    FilterConcat(Dedup(front), [name], fits);
    assert Filter([name], fits) == if fits(name) then [name] else [];
    assert name in Dedup(front) <==> name in front;
  }

  /** The planner's additions appended one by one. */
  method AppendExposed(baseline: seq<string>, kept: seq<string>, plan: CapabilityPlan, contract: Contract,
                       ceilings: Ceilings)
    returns (names: seq<string>)
    requires forall n :: n in plan.exposed ==> (n in kept <==> n in baseline)
    ensures names == kept + Additions(baseline, plan.exposed, contract, ceilings)
  {
    hide Additions, Allowed, Dedup;
    names := kept;
    NoAdditions(baseline, contract, ceilings);
    assert plan.exposed[..0] == [];
    for k := 0 to |plan.exposed|
      invariant names == kept + Additions(baseline, plan.exposed[..k], contract, ceilings)
    {
      var name := plan.exposed[k];
      AdditionsStep(baseline, plan.exposed, k, contract, ceilings);
      if name !in names && Allowed(name, contract, ceilings) {
        names := names + [name];
      }
    }
    assert plan.exposed[..|plan.exposed|] == plan.exposed;
  }

  lemma NoAdditions(baseline: seq<string>, contract: Contract, ceilings: Ceilings)
    ensures Additions(baseline, [], contract, ceilings) == []
  {
  }

  method EnforcedToolNames(baseline: seq<string>, plan: CapabilityPlan, contract: Contract, ceilings: Ceilings)
    returns (names: seq<string>)
    ensures names == Candidates(baseline, plan, contract, ceilings)
  {
    var authoritative := (n: string) => Authoritative(n, baseline, plan.exposed);
    var allowed := (n: string) => Allowed(n, contract, ceilings);
    var fits := (n: string) => n !in baseline && Allowed(n, contract, ceilings);
    if ceilings.disabled {
      FilterNone(baseline, (n: string) => Authoritative(n, baseline, plan.exposed) && Allowed(n, contract, ceilings));
      FilterNone(Dedup(plan.exposed), fits);
      return [];
    }
    var kept := Filter(baseline, authoritative);
    names := AppendExposed(baseline, kept, plan, contract, ceilings);
    FilterConcat(kept, Filter(Dedup(plan.exposed), fits), allowed);
    FilterTwice(baseline, authoritative, allowed,
                (n: string) => Authoritative(n, baseline, plan.exposed) && Allowed(n, contract, ceilings));
    FilterTwice(Dedup(plan.exposed), fits, allowed, fits);
    names := Filter(names, allowed);
  }

  lemma AdditionsMembers(baseline: seq<string>, exposed: seq<string>, contract: Contract, ceilings: Ceilings)
    ensures var added := Additions(baseline, exposed, contract, ceilings);
      && NoDup(added)
      && forall n :: n in added <==> n in exposed && n !in baseline && Allowed(n, contract, ceilings)
  {
    var fits := (n: string) => n !in baseline && Allowed(n, contract, ceilings);
    FilterNoDup(Dedup(exposed), fits);
    forall n ensures n in Filter(Dedup(exposed), fits) <==> n in exposed && fits(n) {
      assert n in Dedup(exposed) <==> n in exposed;
    }
  }

  lemma SurvivorsMembers(baseline: seq<string>, exposed: seq<string>, contract: Contract, ceilings: Ceilings)
    requires NoDup(baseline)
    ensures
      var fits := (n: string) => Authoritative(n, baseline, exposed) && Allowed(n, contract, ceilings);
      var kept := Filter(baseline, fits);
      && NoDup(kept)
      && forall n :: n in kept <==>
           n in baseline && Authoritative(n, baseline, exposed) && Allowed(n, contract, ceilings)
  {
    FilterNoDup(baseline, (n: string) => Authoritative(n, baseline, exposed) && Allowed(n, contract, ceilings));
  }

  lemma CandidatesMembers(baseline: seq<string>, plan: CapabilityPlan, contract: Contract, ceilings: Ceilings)
    requires NoDup(baseline)
    ensures var c := Candidates(baseline, plan, contract, ceilings);
      && NoDup(c)
      && forall n :: n in c <==> Authoritative(n, baseline, plan.exposed) && Allowed(n, contract, ceilings)
  {
    hide Additions, Allowed;
    AdditionsMembers(baseline, plan.exposed, contract, ceilings);
    SurvivorsMembers(baseline, plan.exposed, contract, ceilings);
    NoDupConcat(
      Filter(baseline, (n: string) => Authoritative(n, baseline, plan.exposed) && Allowed(n, contract, ceilings)),
      Additions(baseline, plan.exposed, contract, ceilings));
  }

  // ---------- The schema budget ----------

  function ExposedCandidates(candidates: seq<string>, exposed: seq<string>): seq<string> {
    Dedup(Filter(exposed, (n: string) => n in candidates))
  }

  /** Planner-exposed tools first, in the planner's order; then infrastructure; then the rest. */
  function Priority(candidates: seq<string>, exposed: seq<string>): seq<string> {
    ExposedCandidates(candidates, exposed)
    + Filter(candidates, (n: string) => n !in exposed && n in NEUTRAL_TOOLS)
    + Filter(candidates, (n: string) => n !in exposed && n !in NEUTRAL_TOOLS)
  }

  lemma PriorityIsPermutation(candidates: seq<string>, exposed: seq<string>)
    requires NoDup(candidates)
    ensures NoDup(Priority(candidates, exposed)) && ToSet(Priority(candidates, exposed)) == ToSet(candidates)
    ensures |Priority(candidates, exposed)| == |candidates|
  {
    var a := ExposedCandidates(candidates, exposed);
    var b := Filter(candidates, (n: string) => n !in exposed && n in NEUTRAL_TOOLS);
    var c := Filter(candidates, (n: string) => n !in exposed && n !in NEUTRAL_TOOLS);
    FilterNoDup(candidates, (n: string) => n !in exposed && n in NEUTRAL_TOOLS);
    FilterNoDup(candidates, (n: string) => n !in exposed && n !in NEUTRAL_TOOLS);
    forall n ensures (n in a <==> n in exposed && n in candidates)
      ensures n in b <==> n in candidates && n !in exposed && n in NEUTRAL_TOOLS
      ensures n in c <==> n in candidates && n !in exposed && n !in NEUTRAL_TOOLS
    {
    }
    assert Priority(candidates, exposed) == a + b + c;
    NoDupConcat(a, b);
    NoDupConcat(a + b, c);
    forall n ensures n in a + b + c <==> n in candidates {
      assert n in a <==> n in exposed && n in candidates;
      assert n in b <==> n in candidates && n !in exposed && n in NEUTRAL_TOOLS;
      assert n in c <==> n in candidates && n !in exposed && n !in NEUTRAL_TOOLS;
    }
    NoDupCardinality(candidates);
    NoDupCardinality(a + b + c);
  }

  /** The names that survive a budget: the first of the priority order. */
  function Kept(candidates: seq<string>, exposed: seq<string>, limit: int): set<string> {
    var order := Priority(candidates, exposed);
    ToSet(order[..if limit < 0 then 0 else if limit > |order| then |order| else limit])
  }

  lemma KeptGrowsWithTheLimit(candidates: seq<string>, exposed: seq<string>, small: int, large: int)
    requires NoDup(candidates) && small <= large
    ensures Kept(candidates, exposed, small) <= Kept(candidates, exposed, large) <= ToSet(candidates)
    ensures |Kept(candidates, exposed, large)| ==
      if large < 0 then 0 else if large > |candidates| then |candidates| else large
    ensures large >= |candidates| ==> Kept(candidates, exposed, large) == ToSet(candidates)
  {
    var order := Priority(candidates, exposed);
    PriorityIsPermutation(candidates, exposed);
    hide Priority;
    var n := if large < 0 then 0 else if large > |order| then |order| else large;
    assert order[..|order|] == order;
    assert NoDup(order[..n]);
    NoDupCardinality(order[..n]);
  }

  /** Infrastructure is kept only when every planner-exposed candidate is kept too. */
  lemma PlannerToolsAreEvictedLast(candidates: seq<string>, exposed: seq<string>, limit: int, a: string, b: string)
    requires NoDup(candidates) && a in candidates && a in exposed && b in candidates && b !in exposed
    requires b in Kept(candidates, exposed, limit)
    ensures a in Kept(candidates, exposed, limit)
  {
    var order := Priority(candidates, exposed);
    PriorityIsPermutation(candidates, exposed);
    var first := ExposedCandidates(candidates, exposed);
    var n := if limit < 0 then 0 else if limit > |order| then |order| else limit;
    assert first <= order && a in first && b !in first;
    var i :| 0 <= i < |order[..n]| && order[..n][i] == b;
    var j :| 0 <= j < |first| && first[j] == a;
    assert forall m :: 0 <= m < |first| ==> order[m] == first[m];
    assert i >= |first|;
    assert order[..n][j] == a;
  }

  /** Build the priority order with the source's three loops and keep its first `limit` names. */
  method ReconcileSchemaBudget(candidates: seq<string>, exposed: seq<string>, limit: int) returns (names: seq<string>)
    requires NoDup(candidates)
    ensures names == Filter(candidates, (n: string) => n in Kept(candidates, exposed, limit))
  {
    KeptGrowsWithTheLimit(candidates, exposed, limit, limit);
    if limit <= 0 {
      FilterNone(candidates, (n: string) => n in Kept(candidates, exposed, limit));
      return [];
    }
    if |candidates| <= limit {
      FilterAll(candidates, (n: string) => n in Kept(candidates, exposed, limit));
      return candidates;
    }
    var order := BuildPriority(candidates, exposed);
    PriorityIsPermutation(candidates, exposed);
    var keep := ToSet(order[..limit]);
    names := Filter(candidates, (n: string) => n in keep);
  }

  lemma {:induction false} FilterAll<T>(s: seq<T>, p: T -> bool)
    requires forall x :: x in s ==> p(x)
    ensures Filter(s, p) == s
  {
    if s != [] {
      assert s == [s[0]] + s[1..];
      FilterAll(s[1..], p);
    }
  }

  method BuildPriority(candidates: seq<string>, exposed: seq<string>) returns (order: seq<string>)
    requires NoDup(candidates)
    ensures order == Priority(candidates, exposed)
  {
    order := ExposedFirst(candidates, exposed);
    ghost var first := order;
    order := AppendNew(candidates, order, true);
    ghost var second := order;
    order := AppendNew(candidates, order, false);
    PriorityBlocks(candidates, exposed, first, second);
  }

  lemma ExposedStep(candidates: seq<string>, exposed: seq<string>, k: nat)
    requires k < |exposed|
    ensures var before, name := ExposedCandidates(candidates, exposed[..k]), exposed[k];
      ExposedCandidates(candidates, exposed[..k + 1])
        == before + if name in candidates && name !in before then [name] else []
  {
    var wanted := (n: string) => n in candidates;
    var front, name := Filter(exposed[..k], wanted), exposed[k];
    assert exposed[..k + 1] == exposed[..k] + [name];
    FilterConcat(exposed[..k], [name], wanted);
    assert Filter([name], wanted) == if wanted(name) then [name] else [];
    if wanted(name) {
      DedupAppend(front, name);
    } else {
      assert front + [] == front;
    }
  }

  lemma DedupAppend<T>(s: seq<T>, x: T)
    ensures Dedup(s + [x]) == Dedup(s) + if x in s then [] else [x]
  {
    assert (s + [x])[..|s|] == s;
  }

  method ExposedFirst(candidates: seq<string>, exposed: seq<string>) returns (order: seq<string>)
    ensures order == ExposedCandidates(candidates, exposed)
  {
    order := [];
    assert exposed[..0] == [];
    for k := 0 to |exposed|
      invariant order == ExposedCandidates(candidates, exposed[..k])
    {
      ExposedStep(candidates, exposed, k);
      if exposed[k] in candidates && exposed[k] !in order {
        order := order + [exposed[k]];
      }
    }
    assert exposed[..|exposed|] == exposed;
  }

  /** Append the candidates not yet listed; in the first of the two passes only infrastructure. */
  method AppendNew(candidates: seq<string>, start: seq<string>, neutralOnly: bool) returns (order: seq<string>)
    requires NoDup(candidates)
    ensures order == start + Filter(candidates, (n: string) => n !in start && (neutralOnly ==> n in NEUTRAL_TOOLS))
  {
    var unlisted := (n: string) => n !in start && (neutralOnly ==> n in NEUTRAL_TOOLS);
    order := start;
    for k := 0 to |candidates|
      invariant order == start + Filter(candidates[..k], unlisted)
    {
      var name := candidates[k];
      assert candidates[..k + 1] == candidates[..k] + [name];
      FilterConcat(candidates[..k], [name], unlisted);
      assert name !in candidates[..k];
      assert Filter([name], unlisted) == if unlisted(name) then [name] else [];
      if (neutralOnly ==> name in NEUTRAL_TOOLS) && name !in order {
        order := order + [name];
      }
    }
    assert candidates[..|candidates|] == candidates;
  }

  lemma PriorityBlocks(candidates: seq<string>, exposed: seq<string>, first: seq<string>, second: seq<string>)
    requires first == ExposedCandidates(candidates, exposed)
    requires second == first + Filter(candidates, (n: string) => n !in first && (true ==> n in NEUTRAL_TOOLS))
    ensures second + Filter(candidates, (n: string) => n !in second && (false ==> n in NEUTRAL_TOOLS))
      == Priority(candidates, exposed)
  {
    forall n | n in candidates ensures n in first <==> n in exposed {
      assert n in first <==> n in Filter(exposed, (n: string) => n in candidates);
    }
    FilterAgree(candidates, (n: string) => n !in first && (true ==> n in NEUTRAL_TOOLS),
                (n: string) => n !in exposed && n in NEUTRAL_TOOLS);
    forall n | n in candidates ensures n in second <==> n in exposed || n in NEUTRAL_TOOLS {
      assert n in second <==> n in first || n in Filter(candidates, (n: string) => n !in exposed && n in NEUTRAL_TOOLS);
    }
    FilterAgree(candidates, (n: string) => n !in second && (false ==> n in NEUTRAL_TOOLS),
                (n: string) => n !in exposed && n !in NEUTRAL_TOOLS);
  }

  // ---------- The two passes ----------

  function Discoverable(baseline: Baseline, finalNames: seq<string>, plan: CapabilityPlan, contract: Contract,
                        ceilings: Ceilings): seq<string>
  {
    var allowed := ToSet(ActivationAllowed(plan, contract, ceilings));
    Dedup(Filter(baseline.discoverable + plan.eligible + finalNames, (n: string) => n in allowed))
  }

  function Deferred(finalNames: seq<string>, discoverable: seq<string>): seq<string> {
    Filter(discoverable, (n: string) => n !in finalNames)
  }

  /** What must wait for activation: exactly the allowed tools that are not exposed, each once. */
  lemma DeferredMembers(baseline: Baseline, finalNames: seq<string>, plan: CapabilityPlan, contract: Contract,
                        ceilings: Ceilings)
    ensures var d := Deferred(finalNames, Discoverable(baseline, finalNames, plan, contract, ceilings));
      && NoDup(d)
      && forall n :: n in d <==> n in ActivationAllowed(plan, contract, ceilings) && n !in finalNames
  {
    var discoverable := Discoverable(baseline, finalNames, plan, contract, ceilings);
    FilterNoDup(discoverable, (n: string) => n !in finalNames);
    forall n ensures n in discoverable <==> n in ActivationAllowed(plan, contract, ceilings) {
      if n in ActivationAllowed(plan, contract, ceilings) {
        assert n in plan.eligible;
        assert n in baseline.discoverable + plan.eligible + finalNames;
      }
    }
  }

  /** The budget the names must fit: one slot is the broker's as soon as some allowed tool is left out. */
  ghost predicate NeedsBroker(candidates: seq<string>, exposed: seq<string>, activationAllowed: seq<string>,
                              limit: int)
  {
    exists n :: n in activationAllowed && n !in Kept(candidates, exposed, limit)
  }

  predicate WithinBudget(e: Exposure, limit: int) {
    && NoDup(e.toolNames) && NoDup(e.deferred)
    && |e.toolNames| + (if e.brokerRequired then 1 else 0) <= (if limit > 0 then limit else 0)
    && (e.brokerRequired <==> e.deferred != [])
  }

  predicate WithinCeilings(e: Exposure, contract: Contract, ceilings: Ceilings) {
    && (forall n | n in e.toolNames :: Allowed(n, contract, ceilings))
    && (forall n | n in e.deferred + e.discoverable :: n in e.activationAllowed)
    && (forall n | n in e.activationAllowed :: Allowed(n, contract, ceilings))
  }

  /** Every tool that may be activated is exposed or deferred, never both. */
  predicate AccountsForAll(e: Exposure) {
    forall n | n in e.activationAllowed :: n in e.toolNames <==> n !in e.deferred
  }

  ghost function KeptNames(candidates: seq<string>, exposed: seq<string>, limit: int): seq<string> {
    Filter(candidates, (n: string) => n in Kept(candidates, exposed, limit))
  }

  lemma KeptNamesMembers(candidates: seq<string>, exposed: seq<string>, limit: int)
    requires NoDup(candidates)
    ensures var names := KeptNames(candidates, exposed, limit);
      && NoDup(names) && ToSet(names) == Kept(candidates, exposed, limit)
      && |names| <= (if limit > 0 then limit else 0)
  {
    var names := KeptNames(candidates, exposed, limit);
    KeptGrowsWithTheLimit(candidates, exposed, limit, limit);
    FilterNoDup(candidates, (n: string) => n in Kept(candidates, exposed, limit));
    assert ToSet(names) == Kept(candidates, exposed, limit);
    NoDupCardinality(names);
  }

  /** The second pass only shrinks the first, so it never turns the broker off again. */
  lemma SecondPassKeepsBroker(candidates: seq<string>, exposed: seq<string>, activationAllowed: seq<string>, limit: int)
    requires NoDup(candidates) && NeedsBroker(candidates, exposed, activationAllowed, limit)
    ensures Kept(candidates, exposed, limit - 1) <= Kept(candidates, exposed, limit)
    ensures NeedsBroker(candidates, exposed, activationAllowed, limit - 1)
  {
    KeptGrowsWithTheLimit(candidates, exposed, limit - 1, limit);
    var n :| n in activationAllowed && n !in Kept(candidates, exposed, limit);
    assert n !in Kept(candidates, exposed, limit - 1);
  }

  /** What one pass leaves: the names that fit the limit, and every other allowed tool deferred, each once. */
  ghost predicate IsPass(candidates: seq<string>, exposed: seq<string>, activationAllowed: seq<string>, limit: int,
                         names: seq<string>, discoverable: seq<string>, deferred: seq<string>)
  {
    && names == KeptNames(candidates, exposed, limit)
    && NoDup(deferred)
    && (forall n :: n in discoverable <==> n in activationAllowed)
    && (forall n :: n in deferred <==> n in activationAllowed && n !in names)
  }

  /** One pass: fit the budget, then see what must be deferred. */
  method OnePass(baseline: Baseline, candidates: seq<string>, plan: CapabilityPlan, contract: Contract,
                 ceilings: Ceilings, limit: int)
    returns (names: seq<string>, discoverable: seq<string>, deferred: seq<string>)
    requires NoDup(candidates)
    ensures discoverable == Discoverable(baseline, names, plan, contract, ceilings)
    ensures deferred == Deferred(names, discoverable)
    ensures IsPass(candidates, plan.exposed, ActivationAllowed(plan, contract, ceilings), limit,
                   names, discoverable, deferred)
  {
    names := ReconcileSchemaBudget(candidates, plan.exposed, limit);
    discoverable := Discoverable(baseline, names, plan, contract, ceilings);
    deferred := Deferred(names, discoverable);
    DeferredMembers(baseline, names, plan, contract, ceilings);
  }

  lemma PassFacts(candidates: seq<string>, exposed: seq<string>, activationAllowed: seq<string>, limit: int,
                  names: seq<string>, discoverable: seq<string>, deferred: seq<string>)
    requires NoDup(candidates)
    requires IsPass(candidates, exposed, activationAllowed, limit, names, discoverable, deferred)
    ensures !exists n | n in deferred :: n !in activationAllowed
    ensures deferred != [] <==> NeedsBroker(candidates, exposed, activationAllowed, limit)
  {
    KeptNamesMembers(candidates, exposed, limit);
    hide Kept, KeptNames;
    forall n ensures n in names <==> n in Kept(candidates, exposed, limit) {
      assert n in names <==> n in ToSet(names);
    }
    if deferred != [] {
      assert deferred[0] in deferred;
    }
  }

  /** The pass a positive budget settles on delivers everything the exposure promises. */
  lemma PassDelivers(candidates: seq<string>, exposed: seq<string>, activationAllowed: seq<string>, limit: int,
                     e: Exposure, contract: Contract, ceilings: Ceilings)
    requires NoDup(candidates) && limit > 0 && e.activationAllowed == activationAllowed
    requires IsPass(candidates, exposed, activationAllowed, limit - (if e.brokerRequired then 1 else 0),
                    e.toolNames, e.discoverable, e.deferred)
    requires e.brokerRequired <==> e.deferred != []
    requires forall n | n in candidates + activationAllowed :: Allowed(n, contract, ceilings)
    ensures WithinBudget(e, limit) && WithinCeilings(e, contract, ceilings) && AccountsForAll(e)
  {
    KeptNamesMembers(candidates, exposed, limit - (if e.brokerRequired then 1 else 0));
    assert forall n | n in e.toolNames :: n in candidates;
    hide Kept, KeptNames, Allowed;
  }

  lemma EverythingIsAllowed(baseline: seq<string>, plan: CapabilityPlan, contract: Contract, ceilings: Ceilings)
    requires NoDup(baseline)
    ensures NoDup(Candidates(baseline, plan, contract, ceilings))
    ensures forall n | n in Candidates(baseline, plan, contract, ceilings) + ActivationAllowed(plan, contract, ceilings)
              :: Allowed(n, contract, ceilings)
  {
    CandidatesMembers(baseline, plan, contract, ceilings);
    hide Candidates, Allowed;
  }

  lemma PassKeeps(candidates: seq<string>, exposed: seq<string>, activationAllowed: seq<string>, limit: int,
                  e: Exposure)
    requires IsPass(candidates, exposed, activationAllowed, limit - (if e.brokerRequired then 1 else 0),
                    e.toolNames, e.discoverable, e.deferred)
    ensures e.toolNames == KeptNames(candidates, exposed, limit - (if e.brokerRequired then 1 else 0))
    ensures forall n :: n in e.discoverable || n in e.deferred ==> n in activationAllowed
  {
  }

  // ---------- What an exposure may contain ----------

  /** The ceilings and the contract, tool by tool. */
  predicate Permits(n: string, contract: Contract, ceilings: Ceilings) {
    && !ceilings.disabled && n !in ceilings.denied
    && (ceilings.allowed.Some? ==> n in ceilings.allowed.value)
    && (ceilings.sandbox.Some? ==> n in ceilings.sandbox.value)
    && (contract.mutationForbidden ==> n !in {"file_write", "file_edit", "apply_patch"})
    && (contract.clarificationNeeded ==>
          n !in {"file_write", "file_edit", "apply_patch", "exec_command", "execute_code", "execute_code_v2",
                 "write_stdin", "kill_session", "process_stop"})
  }

  /** The planner's choice, or infrastructure the model could already call. */
  predicate Wanted(n: string, baseline: Baseline, plan: CapabilityPlan) {
    n in plan.exposed || (n in baseline.toolNames && n in {"tool_search", "tool_activate", "tool_result_read"})
  }

  /** Nothing anywhere in the exposure escapes a ceiling, and no eligible tool is lost to anything but a ceiling. */
  ghost predicate Sanctioned(e: Exposure, baseline: Baseline, plan: CapabilityPlan, contract: Contract,
                             ceilings: Ceilings)
  {
    && (forall n :: n in e.toolNames || n in e.discoverable || n in e.deferred || n in e.activationAllowed ==>
          Permits(n, contract, ceilings))
    && (forall n :: n in e.activationAllowed <==> n in plan.eligible && Permits(n, contract, ceilings))
    && (forall n :: n in e.toolNames ==> Wanted(n, baseline, plan))
  }

  /** A wanted tool stays out only for want of room, and one of the planner's only for tools the planner put first. */
  ghost predicate FillsTheBudget(e: Exposure, baseline: Baseline, plan: CapabilityPlan, contract: Contract,
                                 ceilings: Ceilings)
  {
    forall n :: Wanted(n, baseline, plan) && Permits(n, contract, ceilings) && n !in e.toolNames ==>
      && |e.toolNames| + (if e.brokerRequired then 1 else 0) == baseline.limit
      && (forall j, m :: 0 <= j < |plan.exposed| && plan.exposed[j] == n && m in e.toolNames ==> m in plan.exposed[..j])
  }

  /** The names come in the order of the baseline, then of the planner's list, each once; so do those that must wait. */
  predicate InOrder(e: Exposure, baseline: Baseline, plan: CapabilityPlan) {
    && e.toolNames == Filter(Dedup(baseline.toolNames + plan.exposed), (n: string) => n in e.toolNames)
    && e.discoverable == Filter(Dedup(baseline.discoverable + plan.eligible), (n: string) => n in e.activationAllowed)
    && e.deferred == Filter(e.discoverable, (n: string) => n !in e.toolNames)
  }

  lemma {:induction false} FilterDedup<T>(s: seq<T>, p: T -> bool)
    ensures Dedup(Filter(s, p)) == Filter(Dedup(s), p)
  {
    hide Filter, Dedup;
    if s == [] {
      NothingToDedup(s, p);
    } else {
      var front, last := s[..|s| - 1], s[|s| - 1];
      FilterDedup(front, p);
      FilterDedupStep(front, last, p);
      assert front + [last] == s;
    }
  }

  lemma NothingToDedup<T>(s: seq<T>, p: T -> bool)
    requires s == []
    ensures Dedup(Filter(s, p)) == Filter(Dedup(s), p)
  {
  }

  lemma FilterDedupStep<T>(s: seq<T>, x: T, p: T -> bool)
    requires Dedup(Filter(s, p)) == Filter(Dedup(s), p)
    ensures Dedup(Filter(s + [x], p)) == Filter(Dedup(s + [x]), p)
  {
    hide Filter, Dedup;
    AppendFiltered(s, x, p);
    AppendFiltered(Dedup(s), x, p);
    AppendDeduped(s, x);
    AppendDeduped(Filter(s, p), x);
  }

  lemma AppendDeduped<T>(s: seq<T>, x: T)
    ensures Dedup(s + [x]) == if x in s then Dedup(s) else Dedup(s) + [x]
  {
    assert (s + [x])[..|s|] == s;
  }

  lemma AppendFiltered<T>(s: seq<T>, x: T, p: T -> bool)
    ensures Filter(s + [x], p) == if p(x) then Filter(s, p) + [x] else Filter(s, p)
    ensures x in Filter(s, p) <==> x in s && p(x)
  {
    FilterConcat(s, [x], p);
    FilterSingle(x, p);
    assert Filter(s, p) + [] == Filter(s, p);
  }

  /** Exposed names add nothing to what can be discovered: the eligible ones are listed already. */
  lemma DiscoverableIs(baseline: Baseline, names: seq<string>, plan: CapabilityPlan, contract: Contract,
                       ceilings: Ceilings)
    ensures Discoverable(baseline, names, plan, contract, ceilings)
      == Filter(Dedup(baseline.discoverable + plan.eligible),
                (n: string) => n in ActivationAllowed(plan, contract, ceilings))
  {
    var activation := ActivationAllowed(plan, contract, ceilings);
    var listed, all := baseline.discoverable + plan.eligible, baseline.discoverable + plan.eligible + names;
    var allowed, inSet := (n: string) => n in activation, (n: string) => n in ToSet(activation);
    assert forall n :: n in activation ==> n in plan.eligible && n in listed;
    hide ActivationAllowed;
    FilterAgree(all, inSet, allowed);
    FilterDedup(all, allowed);
    DedupConcat(listed, names);
    FilterConcat(Dedup(listed), Filter(Dedup(names), n => n !in listed), allowed);
    FilterNone(Filter(Dedup(names), n => n !in listed), allowed);
  }

  lemma AllowedIsPermitted(contract: Contract, ceilings: Ceilings)
    ensures forall n :: Allowed(n, contract, ceilings) <==> Permits(n, contract, ceilings)
  {
  }

  lemma AuthoritativeIsWanted(baseline: Baseline, plan: CapabilityPlan)
    ensures forall n :: Authoritative(n, Dedup(baseline.toolNames), plan.exposed) <==> Wanted(n, baseline, plan)
  {
    hide Dedup;
  }

  lemma CandidatesAreWanted(baseline: Baseline, plan: CapabilityPlan, contract: Contract, ceilings: Ceilings)
    ensures var c := Candidates(Dedup(baseline.toolNames), plan, contract, ceilings);
      NoDup(c) && forall n :: n in c <==> Wanted(n, baseline, plan) && Permits(n, contract, ceilings)
  {
    CandidatesMembers(Dedup(baseline.toolNames), plan, contract, ceilings);
    AllowedIsPermitted(contract, ceilings);
    AuthoritativeIsWanted(baseline, plan);
    hide *;
  }

  lemma ActivationIsPermitted(plan: CapabilityPlan, contract: Contract, ceilings: Ceilings)
    ensures forall n :: n in ActivationAllowed(plan, contract, ceilings) <==>
      n in plan.eligible && Permits(n, contract, ceilings)
  {
    AllowedIsPermitted(contract, ceilings);
    hide Allowed, Permits;
  }

  lemma {:induction false} ExposedPrefix(candidates: seq<string>, exposed: seq<string>, k: nat)
    requires k <= |exposed|
    ensures ExposedCandidates(candidates, exposed[..k]) <= ExposedCandidates(candidates, exposed)
    decreases |exposed| - k
  {
    if k == |exposed| {
      assert exposed[..k] == exposed;
    } else {
      ExposedStep(candidates, exposed, k);
      ExposedPrefix(candidates, exposed, k + 1);
    }
  }

  lemma KeptAt(candidates: seq<string>, exposed: seq<string>, limit: int, t: nat)
    requires t < |Priority(candidates, exposed)| && t < limit
    ensures Priority(candidates, exposed)[t] in Kept(candidates, exposed, limit)
  {
    hide Priority;
    var order := Priority(candidates, exposed);
    var n := if limit > |order| then |order| else limit;
    assert order[..n][t] == order[t];
  }

  lemma KeptIndex(candidates: seq<string>, exposed: seq<string>, limit: int, m: string) returns (i: nat)
    requires m in Kept(candidates, exposed, limit)
    ensures i < |Priority(candidates, exposed)| && i < limit && Priority(candidates, exposed)[i] == m
  {
    hide Priority;
    var order := Priority(candidates, exposed);
    var n := if limit < 0 then 0 else if limit > |order| then |order| else limit;
    i :| 0 <= i < |order[..n]| && order[..n][i] == m;
  }

  lemma ExposedUpTo(candidates: seq<string>, exposed: seq<string>, j: nat)
    requires j < |exposed| && exposed[j] in candidates
    ensures var upTo := ExposedCandidates(candidates, exposed[..j + 1]);
      && exposed[j] in upTo && upTo <= Priority(candidates, exposed) && forall x :: x in upTo ==> x in exposed[..j + 1]
  {
    hide Filter, Dedup, Priority;
    ExposedPrefix(candidates, exposed, j + 1);
    ExposedComeFirst(candidates, exposed);
    assert exposed[..j + 1][j] == exposed[j];
  }

  lemma ExposedComeFirst(candidates: seq<string>, exposed: seq<string>)
    ensures ExposedCandidates(candidates, exposed) <= Priority(candidates, exposed)
  {
    hide ExposedCandidates;
  }

  /** Among the planner's own tools, its order decides: what is kept stands before what is evicted. */
  lemma PlannerOrderDecides(candidates: seq<string>, exposed: seq<string>, limit: int, j: nat, m: string)
    requires j < |exposed| && exposed[j] in candidates && exposed[j] !in Kept(candidates, exposed, limit)
    requires m in Kept(candidates, exposed, limit)
    ensures m in exposed[..j]
  {
    hide Priority, Kept, ExposedCandidates;
    var upTo := ExposedCandidates(candidates, exposed[..j + 1]);
    ExposedUpTo(candidates, exposed, j);
    var q: nat :| q < |upTo| && upTo[q] == exposed[j];
    if q < limit {
      KeptAt(candidates, exposed, limit, q);
      assert false;
    }
    var i := KeptIndex(candidates, exposed, limit, m);
    assert m == upTo[i] && m in upTo && m != exposed[j];
    assert m in exposed[..j + 1] && exposed[..j + 1] == exposed[..j] + [exposed[j]];
  }

  /** What the names that fit a limit are, read without the priority order. */
  lemma KeptNamesFill(candidates: seq<string>, exposed: seq<string>, limit: int, n: string)
    requires NoDup(candidates) && limit >= 0 && n in candidates && n !in KeptNames(candidates, exposed, limit)
    ensures |KeptNames(candidates, exposed, limit)| == limit
    ensures forall j, m :: 0 <= j < |exposed| && exposed[j] == n && m in KeptNames(candidates, exposed, limit) ==>
      m in exposed[..j]
  {
    var names := KeptNames(candidates, exposed, limit);
    KeptNamesMembers(candidates, exposed, limit);
    KeptGrowsWithTheLimit(candidates, exposed, limit, limit);
    NoDupCardinality(names);
    hide Kept, NoDup;
    assert n !in Kept(candidates, exposed, limit) && n in ToSet(candidates);
    forall j, m | 0 <= j < |exposed| && exposed[j] == n && m in names ensures m in exposed[..j] {
      assert m in ToSet(names);
      PlannerOrderDecides(candidates, exposed, limit, j, m);
    }
  }

  lemma {:induction false} DedupConcat<T>(a: seq<T>, b: seq<T>)
    ensures Dedup(a + b) == Dedup(a) + Filter(Dedup(b), x => x !in a)
  {
    if b == [] {
      assert a + b == a;
    } else {
      var front, last := b[..|b| - 1], b[|b| - 1];
      assert b == front + [last] && a + b == (a + front) + [last];
      DedupConcat(a, front);
      DedupAppend(a + front, last);
      DedupAppend(front, last);
      FilterConcat(Dedup(front), [last], x => x !in a);
    }
  }

  lemma NamesKeepOrder(baseline: seq<string>, plan: CapabilityPlan, contract: Contract, ceilings: Ceilings, limit: int)
    ensures var names := KeptNames(Candidates(Dedup(baseline), plan, contract, ceilings), plan.exposed, limit);
      names == Filter(Dedup(baseline + plan.exposed), (n: string) => n in names)
  {
    var base, exposed := Dedup(baseline), Dedup(plan.exposed);
    var candidates := Candidates(base, plan, contract, ceilings);
    var names := KeptNames(candidates, plan.exposed, limit);
    var kept := (n: string) => n in Kept(candidates, plan.exposed, limit);
    var survives := (n: string) => Authoritative(n, base, plan.exposed) && Allowed(n, contract, ceilings);
    var fits := (n: string) => n !in base && Allowed(n, contract, ceilings);
    var listed := (n: string) => n in names;
    hide Dedup, Kept, Authoritative, Allowed;
    FilterConcat(Filter(base, survives), Filter(exposed, fits), kept);
    forall n ensures n in names <==> (n in Filter(base, survives) || n in Filter(exposed, fits)) && kept(n) {
    }
    FilterTwice(base, survives, kept, listed);
    FilterTwice(exposed, fits, kept, (n: string) => n !in baseline && listed(n));
    DedupConcat(baseline, plan.exposed);
    FilterConcat(base, Filter(exposed, n => n !in baseline), listed);
    FilterTwice(exposed, n => n !in baseline, listed, (n: string) => n !in baseline && listed(n));
  }

  /** What the two passes leave, read against the ceilings and the plan themselves. */
  lemma ExposureIsSanctioned(e: Exposure, baseline: Baseline, plan: CapabilityPlan, contract: Contract,
                             ceilings: Ceilings)
    requires e.activationAllowed == ActivationAllowed(plan, contract, ceilings)
    requires baseline.limit <= 0 ==> e.toolNames == e.discoverable == e.deferred == []
    requires baseline.limit > 0 ==>
      && e.toolNames == KeptNames(Candidates(Dedup(baseline.toolNames), plan, contract, ceilings), plan.exposed,
                                  baseline.limit - (if e.brokerRequired then 1 else 0))
      && (forall n :: n in e.discoverable || n in e.deferred ==> n in e.activationAllowed)
      && e.discoverable == Discoverable(baseline, e.toolNames, plan, contract, ceilings)
      && e.deferred == Deferred(e.toolNames, e.discoverable)
    ensures Sanctioned(e, baseline, plan, contract, ceilings)
    ensures baseline.limit > 0 ==> FillsTheBudget(e, baseline, plan, contract, ceilings)
    ensures baseline.limit > 0 ==> InOrder(e, baseline, plan)
  {
    DiscoverableIs(baseline, e.toolNames, plan, contract, ceilings);
    NamesKeepOrder(baseline.toolNames, plan, contract, ceilings,
                   baseline.limit - (if e.brokerRequired then 1 else 0));
    CandidatesAreWanted(baseline, plan, contract, ceilings);
    ActivationIsPermitted(plan, contract, ceilings);
    hide Candidates, ActivationAllowed, Permits, Wanted, NoDup, Kept, Dedup, Discoverable, Filter;
    if baseline.limit > 0 {
      var candidates := Candidates(Dedup(baseline.toolNames), plan, contract, ceilings);
      var limit := baseline.limit - (if e.brokerRequired then 1 else 0);
      forall n | n in candidates && n !in e.toolNames
        ensures |e.toolNames| == limit
        ensures forall j, m :: 0 <= j < |plan.exposed| && plan.exposed[j] == n && m in e.toolNames ==>
          m in plan.exposed[..j]
      {
        KeptNamesFill(candidates, plan.exposed, limit, n);
      }
    }
  }

  method Adapt(baseline: Baseline, plan: CapabilityPlan, contract: Contract, ceilings: Ceilings)
    returns (r: Result<Exposure, AdapterError>)
    ensures r == Err(TurnMismatch) <==> plan.turnId != contract.turnId
    ensures r == Err(VersionMismatch) <==>
      plan.turnId == contract.turnId && plan.contractVersion != contract.contractVersion
    ensures r.Err? ==> r.error != DeferredUnauthorized
    ensures r.Ok? ==> r.value.activationAllowed == ActivationAllowed(plan, contract, ceilings)
    ensures r.Ok? && baseline.limit > 0 ==>
      WithinBudget(r.value, baseline.limit) && WithinCeilings(r.value, contract, ceilings) && AccountsForAll(r.value)
    ensures r.Ok? && baseline.limit > 0 ==>
      var candidates := Candidates(Dedup(baseline.toolNames), plan, contract, ceilings);
      && (r.value.brokerRequired <==> NeedsBroker(candidates, plan.exposed, r.value.activationAllowed, baseline.limit))
      && r.value.toolNames ==
           KeptNames(candidates, plan.exposed, baseline.limit - (if r.value.brokerRequired then 1 else 0))
    ensures r.Ok? && baseline.limit > 0 ==>
      && r.value.discoverable == Discoverable(baseline, r.value.toolNames, plan, contract, ceilings)
      && r.value.deferred == Deferred(r.value.toolNames, r.value.discoverable)
    ensures r.Ok? && baseline.limit <= 0 ==>
      r.value.toolNames == r.value.discoverable == r.value.deferred == [] && !r.value.brokerRequired
    ensures r.Ok? ==> Sanctioned(r.value, baseline, plan, contract, ceilings)
    ensures r.Ok? && baseline.limit > 0 ==>
      FillsTheBudget(r.value, baseline, plan, contract, ceilings) && InOrder(r.value, baseline, plan)
  {
    hide *;
    if plan.turnId != contract.turnId {
      return Err(TurnMismatch);
    }
    if plan.contractVersion != contract.contractVersion {
      return Err(VersionMismatch);
    }
    var baselineNames := Dedup(baseline.toolNames);
    var candidates := EnforcedToolNames(baselineNames, plan, contract, ceilings);
    EverythingIsAllowed(baselineNames, plan, contract, ceilings);
    var activation := ActivationAllowed(plan, contract, ceilings);
    var limit := baseline.limit;
    var names, discoverable, deferred := OnePass(baseline, candidates, plan, contract, ceilings, limit);
    PassFacts(candidates, plan.exposed, activation, limit, names, discoverable, deferred);
    if exists n | n in deferred :: n !in activation {
      return Err(DeferredUnauthorized);
    }
    var broker := deferred != [];
    if broker {
      SecondPassKeepsBroker(candidates, plan.exposed, activation, limit);
      var reduced := if limit - 1 > 0 then limit - 1 else 0;
      names, discoverable, deferred := OnePass(baseline, candidates, plan, contract, ceilings, reduced);
      PassFacts(candidates, plan.exposed, activation, reduced, names, discoverable, deferred);
      if exists n | n in deferred :: n !in activation {
        return Err(DeferredUnauthorized);
      }
      broker := deferred != [];
    }
    if limit <= 0 {
      names, discoverable, deferred, broker := [], [], [], false;
    }
    var e := Exposure(names, discoverable, deferred, activation, broker);
    if limit > 0 {
      PassDelivers(candidates, plan.exposed, activation, limit, e, contract, ceilings);
      PassKeeps(candidates, plan.exposed, activation, limit, e);
    }
    ExposureIsSanctioned(e, baseline, plan, contract, ceilings);
    r := Ok(e);
  }
}
