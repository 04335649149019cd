/** From catalog to model call: what the planner and the exposure adapter guarantee together. */
module ToolExposure {
  import opened Collections
  import CapabilityPlanner
  import ExposureAdapter

  /** The planner's plan as the adapter receives it. */
  function AdapterPlan(turnId: string, contractVersion: string, plan: CapabilityPlanner.Plan)
    : ExposureAdapter.CapabilityPlan
  {
    ExposureAdapter.CapabilityPlan(turnId, contractVersion, plan.eligible, plan.exposed)
  }

  ghost predicate PlannedFrom(plan: CapabilityPlanner.Plan, catalog: seq<CapabilityPlanner.Tool>,
                              contract: CapabilityPlanner.Contract, policy: CapabilityPlanner.Policy, fallback: bool)
  {
    && plan.eligible == CapabilityPlanner.Names(CapabilityPlanner.EligibleOf(catalog, contract, policy, fallback))
    && plan.exposed == CapabilityPlanner.Names(CapabilityPlanner.ExposedTools(catalog, contract, policy, fallback))
  }

  /** A name a catalog tool has that the policies permit. */
  ghost predicate PermittedName(n: string, catalog: seq<CapabilityPlanner.Tool>, contract: CapabilityPlanner.Contract,
                                policy: CapabilityPlanner.Policy, fallback: bool)
  {
    exists t :: t in catalog && t.name == n && CapabilityPlanner.Permitted(t, contract, policy, fallback)
  }

  lemma EligibleNamesArePermitted(catalog: seq<CapabilityPlanner.Tool>, contract: CapabilityPlanner.Contract,
                                  policy: CapabilityPlanner.Policy, fallback: bool, n: string)
    requires n in CapabilityPlanner.Names(CapabilityPlanner.EligibleOf(catalog, contract, policy, fallback))
    ensures PermittedName(n, catalog, contract, policy, fallback)
  {
    hide CapabilityPlanner.Permitted, CapabilityPlanner.IsEligible;
    CapabilityPlanner.NameAt(CapabilityPlanner.EligibleOf(catalog, contract, policy, fallback), n);
    var t :| t in CapabilityPlanner.EligibleOf(catalog, contract, policy, fallback) && t.name == n;
    CapabilityPlanner.EligibleIffPermitted(t, contract, policy, fallback);
  }

  /**
   Plan a turn and fit the plan into one model call: every schema that is exposed is infrastructure the baseline
   already had or a tool all policies permit, every tool that can be activated is permitted, and all fit the budget.
   */
  method PlanAndExpose(catalog: seq<CapabilityPlanner.Tool>, contract: CapabilityPlanner.Contract,
                       policy: CapabilityPlanner.Policy, fallback: bool, baseline: ExposureAdapter.Baseline,
                       turn: ExposureAdapter.Contract, ceilings: ExposureAdapter.Ceilings)
    returns (r: Option<ExposureAdapter.Exposure>)
    ensures r.Some? <==>
      NoDup(CapabilityPlanner.Names(catalog)) && !CapabilityPlanner.NamesBlank(policy)
    ensures r.Some? ==> forall n | n in r.value.toolNames ::
      || (n in baseline.toolNames && n in ExposureAdapter.NEUTRAL_TOOLS)
      || PermittedName(n, catalog, contract, policy, fallback)
    ensures r.Some? ==> forall n | n in r.value.activationAllowed ::
      PermittedName(n, catalog, contract, policy, fallback)
    ensures r.Some? && baseline.limit > 0 ==> ExposureAdapter.WithinBudget(r.value, baseline.limit)
    ensures r.Some? ==> forall n ::
      n in r.value.toolNames || n in r.value.discoverable || n in r.value.deferred || n in r.value.activationAllowed ==>
        ExposureAdapter.Permits(n, turn, ceilings)
  {
    var planned := CapabilityPlanner.MakePlan(catalog, contract, policy, fallback);
    if planned.Err? {
      return None;
    }
    hide CapabilityPlanner.NamesBlank, CapabilityPlanner.EligibleOf, CapabilityPlanner.ExposedTools, PermittedName,
      ExposureAdapter.Candidates, ExposureAdapter.WithinCeilings, ExposureAdapter.WithinBudget,
      ExposureAdapter.AccountsForAll, ExposureAdapter.KeptNames, ExposureAdapter.NeedsBroker, ExposureAdapter.Permits,
      ExposureAdapter.Sanctioned, ExposureAdapter.FillsTheBudget, ExposureAdapter.InOrder, CapabilityPlanner.Plans,
      ExposureAdapter.Discoverable, ExposureAdapter.Deferred, ExposureAdapter.ActivationAllowed;
    var plan := AdapterPlan(turn.turnId, turn.contractVersion, planned.value);
    var adapted := ExposureAdapter.Adapt(baseline, plan, turn, ceilings);
    ExposureIsPermitted(catalog, contract, policy, fallback, baseline, plan, planned.value, turn, ceilings,
                        adapted.value);
    SanctionedNames(adapted.value, baseline, plan, turn, ceilings);
    r := Some(adapted.value);
  }

  lemma SanctionedNames(e: ExposureAdapter.Exposure, baseline: ExposureAdapter.Baseline,
                        plan: ExposureAdapter.CapabilityPlan, turn: ExposureAdapter.Contract,
                        ceilings: ExposureAdapter.Ceilings)
    requires ExposureAdapter.Sanctioned(e, baseline, plan, turn, ceilings)
    ensures forall n ::
      n in e.toolNames || n in e.discoverable || n in e.deferred || n in e.activationAllowed ==>
        ExposureAdapter.Permits(n, turn, ceilings)
  {
    hide ExposureAdapter.Permits;
  }

  lemma ExposureIsPermitted(catalog: seq<CapabilityPlanner.Tool>, contract: CapabilityPlanner.Contract,
                            policy: CapabilityPlanner.Policy, fallback: bool, baseline: ExposureAdapter.Baseline,
                            plan: ExposureAdapter.CapabilityPlan, planned: CapabilityPlanner.Plan,
                            turn: ExposureAdapter.Contract, ceilings: ExposureAdapter.Ceilings,
                            e: ExposureAdapter.Exposure)
    requires PlannedFrom(planned, catalog, contract, policy, fallback)
    requires plan == AdapterPlan(turn.turnId, turn.contractVersion, planned)
    requires e.activationAllowed == ExposureAdapter.ActivationAllowed(plan, turn, ceilings)
    requires baseline.limit <= 0 ==> e.toolNames == []
    requires baseline.limit > 0 ==>
      e.toolNames == ExposureAdapter.KeptNames(
        ExposureAdapter.Candidates(Dedup(baseline.toolNames), plan, turn, ceilings), plan.exposed,
        baseline.limit - (if e.brokerRequired then 1 else 0))
    ensures forall n | n in e.toolNames ::
      || (n in baseline.toolNames && n in ExposureAdapter.NEUTRAL_TOOLS)
      || PermittedName(n, catalog, contract, policy, fallback)
    ensures forall n | n in e.activationAllowed :: PermittedName(n, catalog, contract, policy, fallback)
  {
    var candidates := ExposureAdapter.Candidates(Dedup(baseline.toolNames), plan, turn, ceilings);
    ExposureAdapter.CandidatesMembers(Dedup(baseline.toolNames), plan, turn, ceilings);
    CapabilityPlanner.ExposedAreEligible(catalog, contract, policy, fallback);
    hide PermittedName, ExposureAdapter.Candidates, ExposureAdapter.Allowed, ExposureAdapter.Kept,
      CapabilityPlanner.EligibleOf, CapabilityPlanner.ExposedTools, CapabilityPlanner.Names;
    forall n | n in e.toolNames
      ensures (n in baseline.toolNames && n in ExposureAdapter.NEUTRAL_TOOLS)
              || PermittedName(n, catalog, contract, policy, fallback)
    {
      assert n in candidates;
      if n in plan.exposed {
        EligibleNamesArePermitted(catalog, contract, policy, fallback, n);
      }
    }
    forall n | n in e.activationAllowed ensures PermittedName(n, catalog, contract, policy, fallback) {
      EligibleNamesArePermitted(catalog, contract, policy, fallback, n);
    }
  }
}
