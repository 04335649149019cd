/** Deciding what may follow a failed verification: never a replay, and only within a budget. */
module RecoveryPolicies {
  import opened Collections
  import opened OutcomeVerification
  import opened Text

  // ---------- What is known of the operation ----------

  datatype OperationStatus = Precommitted | Started | OpSucceeded | OpFailed | OpUnknown

  datatype Boundary = NotStarted | CrossedBoundary | UnknownBoundary

  datatype Operation = Operation(id: string, status: OperationStatus, boundary: Boundary) {
    /** The constructor strips the id, refuses a blank one, and accepts only the boundary that fits the status. */
    predicate Valid() {
      && id != [] && Strip(id) == id
      && boundary == match status
                     case Precommitted => NotStarted
                     case Started => CrossedBoundary
                     case OpSucceeded => CrossedBoundary
                     case OpFailed => CrossedBoundary
                     case OpUnknown => UnknownBoundary
    }

    predicate OutcomeKnown() {
      status.OpSucceeded? || status.OpFailed?
    }
  }

  datatype Execution = ExecSucceeded | ExecFailed | ExecPartial | ExecUnknown

  datatype Approval = NotRequired | Pending | Applied | Rejected | Expired | Drifted | ApprovalUnknown

  datatype Continuation =
    | NoContinuation | NotContinued | Continuing | Continued | ContinuationFailed | ContinuationUnknown

  datatype ApprovalState = ApprovalState(approval: Approval, continuation: Continuation) {
    predicate Valid() {
      approval.Applied? <==> !continuation.NoContinuation?
    }
  }

  datatype Reason =
    | OutcomeUnknown | ExecutionUnknown | ApprovalOutcomeUnknown | ApprovalPending | RefusedBefore(approval: Approval)
    | RefusedAfter(approval: Approval) | ReceiptTerminal | ReceiptRequiresApproval | PreSideEffectFailure
    | OperationMissing | OperationNotStarted | KnownFailure | FailureInconsistent | SuccessInconsistent
    | ReplanAfterSuccess | AlreadySucceeded | AppliedMissing | AppliedNotCompleted | ContinueExactResult
    | ContinuationOutcomeUnknown | AlreadyContinued | ContinuationHasFailed
    | Satisfied | NonBlocking | BudgetExhausted | FreshIdRequired | FreshIdReused

  datatype ControlledAction =
    | ModelReplan | CorrectiveReplan | NewOperation | ApprovalContinuation | BlockedUnknown | TerminalAction
  {
    predicate Replacement() {
      CorrectiveReplan? || NewOperation?
    }
  }

  datatype Controlled = Controlled(action: ControlledAction, reason: Reason, operationId: Option<string>,
                                   supersedes: Option<string>)

  function IdOf(operation: Option<Operation>): Option<string> {
    if operation.Some? then Some(operation.value.id) else None
  }

  function Only(action: ControlledAction, reason: Reason, operation: Option<Operation>): Controlled {
    Controlled(action, reason, IdOf(operation), None)
  }

  function Replacing(action: ControlledAction, reason: Reason, operation: Operation): Controlled {
    Controlled(action, reason, Some(operation.id), Some(operation.id))
  }

  function AfterApproval(operation: Option<Operation>, continuation: Continuation): Controlled {
    if operation.None? then Only(TerminalAction, AppliedMissing, None)
    else if operation.value.status.Started? || operation.value.status.OpUnknown?
      then Only(BlockedUnknown, OutcomeUnknown, operation)
    else if operation.value.status.Precommitted? then Only(TerminalAction, AppliedNotCompleted, operation)
    else if continuation.NotContinued? || continuation.Continuing?
      then Only(ApprovalContinuation, ContinueExactResult, operation)
    else if continuation.ContinuationUnknown? then Only(BlockedUnknown, ContinuationOutcomeUnknown, operation)
    else Only(TerminalAction, if continuation.Continued? then AlreadyContinued else ContinuationHasFailed, operation)
  }

  /** The coordinator's cascade. */
  function Coordinate(operation: Option<Operation>, execution: Execution, retry: Retry, approval: ApprovalState)
    : Controlled
  {
    if operation.Some? && (operation.value.status.Started? || operation.value.status.OpUnknown?)
      then Only(BlockedUnknown, OutcomeUnknown, operation)
    else if execution.ExecUnknown? then Only(BlockedUnknown, ExecutionUnknown, operation)
    else if approval.approval.ApprovalUnknown? then Only(BlockedUnknown, ApprovalOutcomeUnknown, operation)
    else if approval.approval.Applied? then AfterApproval(operation, approval.continuation)
    else if approval.approval.Pending? then Only(TerminalAction, ApprovalPending, operation)
    else if !approval.approval.NotRequired? then
      if operation.None? || operation.value.status.Precommitted?
      then Only(ModelReplan, RefusedBefore(approval.approval), operation)
      else Only(TerminalAction, RefusedAfter(approval.approval), operation)
    else if retry.TerminalRetry? then Only(TerminalAction, ReceiptTerminal, operation)
    else if retry.RequiresApproval? then Only(TerminalAction, ReceiptRequiresApproval, operation)
    else if operation.None? then
      if execution.ExecFailed? then Only(ModelReplan, PreSideEffectFailure, None)
      else Only(TerminalAction, OperationMissing, None)
    else if operation.value.status.Precommitted? then Only(ModelReplan, OperationNotStarted, operation)
    else if operation.value.status.OpFailed? then
      if execution.ExecFailed? || execution.ExecPartial? then Replacing(NewOperation, KnownFailure, operation.value)
      else Only(TerminalAction, FailureInconsistent, operation)
    else if !execution.ExecSucceeded? then Only(TerminalAction, SuccessInconsistent, operation)
    else if retry.RequiresReplan? then Replacing(CorrectiveReplan, ReplanAfterSuccess, operation.value)
    else Only(TerminalAction, AlreadySucceeded, operation)
  }

  /** Nothing crossed the side-effect boundary: there is no operation, or it has only been announced. */
  predicate BeforeSideEffect(operation: Option<Operation>) {
    operation.None? || operation.value.boundary.NotStarted?
  }

  /**
   * When the coordinator lets the model try again: before any side effect, or by a replacement of one operation whose
   * outcome is known, with no approval in play and a receipt that asks for neither approval nor an end.
   */
  lemma CoordinatorRecoversIff(operation: Option<Operation>, execution: Execution, retry: Retry,
                               approval: ApprovalState)
    requires operation.Some? ==> operation.value.Valid()
    requires approval.Valid()
    ensures var c := Coordinate(operation, execution, retry, approval);
      var open := !retry.TerminalRetry? && !retry.RequiresApproval?;
      && (c.action.ModelReplan? <==>
            && BeforeSideEffect(operation) && !execution.ExecUnknown?
            && (approval.approval.Rejected? || approval.approval.Expired? || approval.approval.Drifted?
                || (approval.approval.NotRequired? && open && (operation.Some? || execution.ExecFailed?))))
      && (c.action.NewOperation? <==>
            && operation.Some? && operation.value.status.OpFailed? && approval.approval.NotRequired? && open
            && (execution.ExecFailed? || execution.ExecPartial?))
      && (c.action.CorrectiveReplan? <==>
            && operation.Some? && operation.value.status.OpSucceeded? && approval.approval.NotRequired?
            && execution.ExecSucceeded? && retry.RequiresReplan?)
      && (c.supersedes.Some? <==> c.action.Replacement())
      && (c.action.Replacement() ==> c.supersedes == c.operationId == IdOf(operation))
  {
  }

  // ---------- The budget ----------

  datatype Budget = Budget(attempts: nat, modelCalls: nat, toolCalls: nat, wallSeconds: real) {
    predicate Valid() {
      wallSeconds >= 0.0
    }
  }

  datatype BudgetError = InvalidCost | ExhaustedAttempts | ExhaustedModelCalls | ExhaustedToolCalls | ExhaustedSeconds

  function Consume(b: Budget, attempts: int, modelCalls: int, toolCalls: int, wallSeconds: real)
    : (r: Result<Budget, BudgetError>)
    requires b.Valid()
    ensures r.Ok? <==>
      0 <= attempts <= b.attempts && 0 <= modelCalls <= b.modelCalls && 0 <= toolCalls <= b.toolCalls
      && 0.0 <= wallSeconds <= b.wallSeconds
    ensures r.Ok? ==>
      && r.value.attempts + attempts == b.attempts && r.value.modelCalls + modelCalls == b.modelCalls
      && r.value.toolCalls + toolCalls == b.toolCalls && r.value.wallSeconds + wallSeconds == b.wallSeconds
      && r.value.Valid()
    ensures r == Err(InvalidCost) <==> attempts < 0 || modelCalls < 0 || toolCalls < 0 || wallSeconds < 0.0
  {
    if attempts < 0 || modelCalls < 0 || toolCalls < 0 || wallSeconds < 0.0 then Err(InvalidCost)
    else if attempts > b.attempts then Err(ExhaustedAttempts)
    else if modelCalls > b.modelCalls then Err(ExhaustedModelCalls)
    else if toolCalls > b.toolCalls then Err(ExhaustedToolCalls)
    else if wallSeconds > b.wallSeconds then Err(ExhaustedSeconds)
    else Ok(Budget(b.attempts - attempts, b.modelCalls - modelCalls, b.toolCalls - toolCalls,
                   b.wallSeconds - wallSeconds))
  }

  /** Paying twice is paying once for both. */
  lemma ConsumeAdds(b: Budget, a1: nat, m1: nat, t1: nat, w1: real, a2: nat, m2: nat, t2: nat, w2: real)
    requires b.Valid() && w1 >= 0.0 && w2 >= 0.0
    ensures var first := Consume(b, a1, m1, t1, w1);
      var both := Consume(b, a1 + a2, m1 + m2, t1 + t2, w1 + w2);
      && (both.Ok? <==> first.Ok? && Consume(first.value, a2, m2, t2, w2).Ok?)
      && (both.Ok? ==> Consume(first.value, a2, m2, t2, w2) == both)
  {
    var first := Consume(b, a1, m1, t1, w1);
    if first.Ok? && Consume(first.value, a2, m2, t2, w2).Ok? {
      assert Consume(first.value, a2, m2, t2, w2).value.wallSeconds == b.wallSeconds - (w1 + w2);
    }
  }

  // ---------- The policy ----------

  datatype Action =
    | Replan | StartNewOperation | Correct | ContinueApproval | AwaitApproval | Blocked | PartialResult | Stop
  {
    /** The actions that spend one attempt and one model call. */
    predicate Recovers() {
      Replan? || StartNewOperation? || Correct?
    }

    predicate Replaces() {
      StartNewOperation? || Correct?
    }
  }

  datatype Decision = Decision(action: Action, reason: Reason, failedIds: seq<string>, operationId: Option<string>,
                               supersedes: Option<string>, remaining: Budget)

  datatype PolicyError =
    | TooManyFailures | BadFailureId | RepeatedFailure | BadOperationId | LineageMissing | OperationReused
    | StrayPredecessor | ApprovalWithoutOperation | BadFreshId

  predicate FailedOrOpen(j: Judged) {
    j.verdict.Failed? || j.verdict.Unverified?
  }

  function FailedIds(judged: seq<Judged>): (ids: seq<string>)
    ensures forall id | id in ids :: exists j | j in judged :: FailedOrOpen(j) && j.criterionId == id
  {
    if judged == [] then []
    else
      var front, last := FailedIds(judged[..|judged| - 1]), judged[|judged| - 1];
      assert judged == judged[..|judged| - 1] + [last];
      if FailedOrOpen(last) then front + [last.criterionId] else front
  }

  const MAX_FAILED := 16
  const MAX_ID := 128

  /** An id that survives stripping and is not too long. */
  predicate Representable(id: string) {
    0 < |Strip(id)| <= MAX_ID
  }

  predicate ValidId(id: string) {
    Strip(id) == id && Representable(id)
  }

  function CleanId(id: Option<string>): Option<string> {
    if id.Some? then Some(Strip(id.value)) else None
  }

  /** Strip every id; none of them may be blank or too long. */
  function StripAll(ids: seq<string>): (r: seq<string>)
    ensures |r| == |ids| && forall k :: 0 <= k < |ids| ==> r[k] == Strip(ids[k])
  {
    seq(|ids|, k requires 0 <= k < |ids| => Strip(ids[k]))
  }

  lemma ValidIdsStay(ids: seq<string>)
    requires forall id | id in ids :: ValidId(id)
    ensures StripAll(ids) == ids
  {
    hide Strip;
    forall k | 0 <= k < |ids| ensures StripAll(ids)[k] == ids[k] {
      assert ids[k] in ids;
    }
  }

  /** At most sixteen failures, each representable, no two the same once stripped. */
  predicate FailuresListable(failed: seq<string>) {
    |failed| <= MAX_FAILED && (forall id | id in failed :: Representable(id)) && NoDup(StripAll(failed))
  }

  /** The decision's constructor. */
  function MakeDecision(action: Action, reason: Reason, failed: seq<string>, operationId: Option<string>,
                        supersedes: Option<string>, remaining: Budget): (r: Result<Decision, PolicyError>)
    ensures r.Ok? <==>
      && FailuresListable(failed)
      && (operationId.Some? ==> Representable(operationId.value))
      && (supersedes.Some? ==> Representable(supersedes.value))
      && (supersedes.Some? <==> action.Replaces())
      && (action.Replaces() || action.ContinueApproval? ==> operationId.Some?)
      && (action.Replaces() ==> CleanId(operationId) != CleanId(supersedes))
    ensures r.Ok? ==>
      r.value == Decision(action, reason, StripAll(failed), CleanId(operationId), CleanId(supersedes), remaining)
  {
    if |failed| > MAX_FAILED then Err(TooManyFailures)
    else if exists id | id in failed :: !Representable(id) then Err(BadFailureId)
    else if !NoDup(StripAll(failed)) then Err(RepeatedFailure)
    else if operationId.Some? && !Representable(operationId.value) then Err(BadOperationId)
    else if supersedes.Some? && !Representable(supersedes.value) then Err(BadOperationId)
    else if action.Replaces() && (operationId.None? || supersedes.None?) then Err(LineageMissing)
    else if action.Replaces() && CleanId(operationId) == CleanId(supersedes) then Err(OperationReused)
    else if !action.Replaces() && supersedes.Some? then Err(StrayPredecessor)
    else if action.ContinueApproval? && operationId.None? then Err(ApprovalWithoutOperation)
    else Ok(Decision(action, reason, StripAll(failed), CleanId(operationId), CleanId(supersedes), remaining))
  }

  function ExecutionOf(operation: Option<Operation>, receipt: Receipt): Execution {
    match operation
    case None => if receipt.verdict.Failed? || receipt.verdict.Unverified? then ExecFailed else ExecSucceeded
    case Some(op) =>
      if op.status.Started? || op.status.OpUnknown? then ExecUnknown
      else if op.status.OpSucceeded? then ExecSucceeded
      else ExecFailed
  }

  /** What the policy is asked about in one round. */
  datatype Question = Question(receipt: Receipt, operation: Option<Operation>, approval: ApprovalState,
                               freshId: Option<string>)
  {
    /** What the constructors of the three inputs guarantee. */
    predicate Valid() {
      && (operation.Some? ==> operation.value.Valid()) && approval.Valid()
      && forall j | j in receipt.criteria :: ValidId(j.criterionId)
    }

    function Controlled(): Controlled {
      Coordinate(operation, ExecutionOf(operation, receipt), receipt.retry, approval)
    }
  }

  function FromControlled(action: ControlledAction): Action {
    match action
    case ModelReplan => Replan
    case CorrectiveReplan => Correct
    case NewOperation => StartNewOperation
    case ApprovalContinuation => ContinueApproval
    case BlockedUnknown => Blocked
    case TerminalAction => Stop
  }

  /** The policy after a hard failure: what it makes of the coordinator's directive. */
  function Follow(c: Controlled, failed: seq<string>, freshId: Option<string>, budget: Budget)
    : (r: Result<Decision, PolicyError>)
    requires budget.Valid()
    ensures r.Ok? ==> r.value.remaining.Valid()
  {
    if c.action.BlockedUnknown? || c.action.ApprovalContinuation? then
      MakeDecision(FromControlled(c.action), c.reason, failed, c.operationId, None, budget)
    else if c.reason.ApprovalPending? || c.reason.ReceiptRequiresApproval? then
      MakeDecision(AwaitApproval, c.reason, failed, c.operationId, None, budget)
    else if c.action.TerminalAction? then MakeDecision(Stop, c.reason, failed, c.operationId, None, budget)
    else
      var reserved := Consume(budget, 1, 1, 0, 0.0);
      if reserved.Err? then MakeDecision(PartialResult, BudgetExhausted, failed, c.operationId, None, budget)
      else if c.action.Replacement() then
        if freshId.Some? && !Representable(freshId.value) then Err(BadFreshId)
        else if freshId.None? then MakeDecision(Blocked, FreshIdRequired, failed, c.operationId, None, budget)
        else if c.supersedes.None? || CleanId(freshId) == c.supersedes then
          MakeDecision(Blocked, FreshIdReused, failed, c.operationId, None, budget)
        else MakeDecision(FromControlled(c.action), c.reason, failed, CleanId(freshId), c.supersedes, reserved.value)
      else MakeDecision(FromControlled(c.action), c.reason, failed, c.operationId, None, reserved.value)
  }

  function Decide(q: Question, budget: Budget): (r: Result<Decision, PolicyError>)
    requires q.Valid() && budget.Valid()
    ensures r.Ok? ==> r.value.remaining.Valid()
  {
    var failed := FailedIds(q.receipt.criteria);
    var done := q.receipt.verdict.Verified? || q.receipt.verdict.NotApplicable?;
    if !q.receipt.hardFailure then
      MakeDecision(Stop, if done then Satisfied else NonBlocking, failed, IdOf(q.operation), None, budget)
    else Follow(q.Controlled(), failed, q.freshId, budget)
  }

  /** What any followed directive keeps. */
  lemma FollowFacts(c: Controlled, failed: seq<string>, freshId: Option<string>, budget: Budget)
    requires budget.Valid() && Follow(c, failed, freshId, budget).Ok?
    ensures var d := Follow(c, failed, freshId, budget).value;
      && d.failedIds == StripAll(failed)
      && (d.supersedes.Some? <==> d.action.Replaces())
      && (d.action.Recovers() ==> c.action.ModelReplan? || c.action.Replacement())
      && PaidFor(budget, if d.action.Recovers() then 1 else 0, d.remaining)
      && (d.action.Replaces() ==>
            && c.action.Replacement() && d.supersedes == CleanId(c.supersedes)
            && d.operationId == CleanId(CleanId(freshId)) && d.operationId.Some? && d.operationId != d.supersedes)
  {
    hide StripAll, FailuresListable, Representable, Strip, MakeDecision;
  }

  lemma DecisionFacts(q: Question, budget: Budget)
    requires q.Valid() && budget.Valid() && Decide(q, budget).Ok?
    ensures var d := Decide(q, budget).value;
      && d.failedIds == FailedIds(q.receipt.criteria)
      && (d.supersedes.Some? <==> d.action.Replaces())
      && (d.action.Recovers() ==>
            q.receipt.hardFailure && (q.Controlled().action.ModelReplan? || q.Controlled().action.Replacement()))
      && PaidFor(budget, if d.action.Recovers() then 1 else 0, d.remaining)
      && (d.action.Replaces() ==>
            && q.Controlled().action.Replacement() && d.supersedes == IdOf(q.operation)
            && d.operationId == CleanId(q.freshId) && d.operationId.Some? && d.operationId != d.supersedes)
  {
    AnswerFacts(q);
    ControlledFacts(q);
    hide Coordinate, FailedIds, StripAll, FailuresListable, Representable, CleanId, MakeDecision, Follow;
    if q.receipt.hardFailure {
      FollowFacts(q.Controlled(), FailedIds(q.receipt.criteria), q.freshId, budget);
    }
  }

  lemma RecoveryNeeds(q: Question, budget: Budget)
    requires q.Valid() && budget.Valid() && Decide(q, budget).Ok? && Decide(q, budget).value.action.Recovers()
    ensures q.receipt.hardFailure && Decide(q, budget).value.failedIds == FailedIds(q.receipt.criteria)
    ensures BeforeSideEffect(q.operation) || (q.operation.value.OutcomeKnown() && q.approval.approval.NotRequired?)
  {
    CoordinatorRecoversIff(q.operation, ExecutionOf(q.operation, q.receipt), q.receipt.retry, q.approval);
    DecisionFacts(q, budget);
    hide Coordinate, FailedIds, Decide;
  }

  /** What every recovery rests on, for a receipt the verifier built. */
  lemma RecoveryIsJustified(q: Question, budget: Budget)
    requires q.Valid() && budget.Valid() && q.receipt == Aggregated(q.receipt.criteria)
    requires Decide(q, budget).Ok? && Decide(q, budget).value.action.Recovers()
    ensures exists j | j in q.receipt.criteria ::
      && j.required && j.verdict.Failed? && !j.semantic
      && j.criterionId in Decide(q, budget).value.failedIds
    ensures BeforeSideEffect(q.operation) || (q.operation.value.OutcomeKnown() && q.approval.approval.NotRequired?)
    ensures PaidFor(budget, 1, Decide(q, budget).value.remaining)
  {
    hide Decide, Coordinate, FailedIds, AggregateVerdict, RetryMax, BeforeSideEffect;
    RecoveryNeeds(q, budget);
    OneDecision(q, budget);
    var j :| j in q.receipt.criteria && j.required && j.verdict.Failed? && !j.semantic;
    FailedIdsComplete(q.receipt.criteria, j);
  }

  lemma {:induction false} FailedIdsComplete(judged: seq<Judged>, j: Judged)
    requires j in judged && FailedOrOpen(j)
    ensures j.criterionId in FailedIds(judged)
  {
    var last := judged[|judged| - 1];
    if j != last {
      assert judged == judged[..|judged| - 1] + [last];
      FailedIdsComplete(judged[..|judged| - 1], j);
    }
  }

  /** A replacement supersedes exactly the operation asked about, under a different id, and never replays it. */
  lemma ReplacementHasFreshLineage(q: Question, budget: Budget)
    requires q.Valid() && budget.Valid() && Decide(q, budget).Ok?
    ensures var d := Decide(q, budget).value;
      && (d.supersedes.Some? <==> d.action.Replaces())
      && (d.action.Replaces() ==>
            && q.operation.Some? && q.operation.value.OutcomeKnown() && q.approval.approval.NotRequired?
            && d.supersedes == Some(q.operation.value.id)
            && d.operationId.Some? && d.operationId == CleanId(q.freshId) && d.operationId != d.supersedes)
  {
    CoordinatorRecoversIff(q.operation, ExecutionOf(q.operation, q.receipt), q.receipt.retry, q.approval);
    DecisionFacts(q, budget);
    hide Coordinate, FailedIds, Decide, CleanId;
  }

  /** While an operation's outcome is unknown nothing is retried and nothing is spent. */
  lemma UnknownOutcomeBlocks(q: Question, budget: Budget)
    requires q.Valid() && budget.Valid() && Decide(q, budget).Ok?
    requires q.operation.Some? && (q.operation.value.status.Started? || q.operation.value.status.OpUnknown?)
    ensures Decide(q, budget).value.remaining == budget
    ensures Decide(q, budget).value.action == if q.receipt.hardFailure then Blocked else Stop
  {
  }

  // ---------- The eight actions, by the inputs alone ----------

  predicate Unsettled(q: Question) {
    q.operation.Some? && (q.operation.value.status == Started || q.operation.value.status == OpUnknown)
  }

  predicate Settled(q: Question) {
    q.operation.Some? && (q.operation.value.status == OpSucceeded || q.operation.value.status == OpFailed)
  }

  /** No operation, or one that was never started. */
  predicate Untouched(q: Question) {
    q.operation.Some? ==> q.operation.value.status == Precommitted
  }

  /** No approval is in play and the receipt asks for neither approval nor an end. */
  predicate Unhindered(q: Question) {
    q.approval.approval == NotRequired && q.receipt.retry != TerminalRetry && q.receipt.retry != RequiresApproval
  }

  predicate RefusedApproval(q: Question) {
    q.approval.approval == Rejected || q.approval.approval == Expired || q.approval.approval == Drifted
  }

  predicate AsksForReplan(q: Question) {
    && Untouched(q)
    && (RefusedApproval(q)
        || (Unhindered(q) && (q.operation.Some? || q.receipt.verdict == Failed || q.receipt.verdict == Unverified)))
  }

  predicate AsksForNewOperation(q: Question) {
    Unhindered(q) && q.operation.Some? && q.operation.value.status == OpFailed
  }

  predicate AsksForCorrection(q: Question) {
    && q.approval.approval == NotRequired && q.receipt.retry == RequiresReplan
    && q.operation.Some? && q.operation.value.status == OpSucceeded
  }

  predicate CanPay(budget: Budget) {
    budget.attempts >= 1 && budget.modelCalls >= 1
  }

  /** A fresh id is at hand and differs from the operation's. */
  predicate HasFreshId(q: Question) {
    q.freshId.Some? && q.operation.Some? && Strip(q.freshId.value) != q.operation.value.id
  }

  /** The condition of every action; no two of them can hold together. */
  predicate Calls(q: Question, budget: Budget, action: Action) {
    var approval, continuation := q.approval.approval, q.approval.continuation;
    var swaps := AsksForNewOperation(q) || AsksForCorrection(q);
    match action
    case ContinueApproval =>
      && q.receipt.hardFailure && Settled(q) && approval == Applied
      && (continuation == NotContinued || continuation == Continuing)
    case AwaitApproval =>
      && q.receipt.hardFailure && !Unsettled(q)
      && (approval == Pending || (approval == NotRequired && q.receipt.retry == RequiresApproval))
    case Replan => q.receipt.hardFailure && AsksForReplan(q) && CanPay(budget)
    case StartNewOperation => q.receipt.hardFailure && AsksForNewOperation(q) && CanPay(budget) && HasFreshId(q)
    case Correct => q.receipt.hardFailure && AsksForCorrection(q) && CanPay(budget) && HasFreshId(q)
    case PartialResult => q.receipt.hardFailure && (AsksForReplan(q) || swaps) && !CanPay(budget)
    case Blocked =>
      && q.receipt.hardFailure
      && (|| Unsettled(q) || approval == ApprovalUnknown
          || (approval == Applied && Settled(q) && continuation == ContinuationUnknown)
          || (swaps && CanPay(budget) && !HasFreshId(q)))
    case Stop =>
      || !q.receipt.hardFailure
      || (!Unsettled(q)
          && (|| (approval == Applied
                  && (Untouched(q) || continuation == Continued || continuation == ContinuationFailed))
              || (RefusedApproval(q) && Settled(q))
              || (approval == NotRequired && q.receipt.retry == TerminalRetry)
              || (Unhindered(q) && !AsksForReplan(q) && !swaps)))
  }

  /** The coordinator's directive, by the inputs alone. */
  lemma DirectiveIff(q: Question)
    requires q.Valid()
    ensures var c := q.Controlled();
      && (c.action == BlockedUnknown <==>
            || Unsettled(q) || q.approval.approval == ApprovalUnknown
            || (q.approval.approval == Applied && Settled(q) && q.approval.continuation == ContinuationUnknown))
      && (c.action == ApprovalContinuation <==>
            && Settled(q) && q.approval.approval == Applied
            && (q.approval.continuation == NotContinued || q.approval.continuation == Continuing))
      && (c.action == ModelReplan <==> AsksForReplan(q))
      && (c.action == NewOperation <==> AsksForNewOperation(q))
      && (c.action == CorrectiveReplan <==> AsksForCorrection(q))
      && ((c.reason == ApprovalPending || c.reason == ReceiptRequiresApproval) <==>
            && !Unsettled(q)
            && (q.approval.approval == Pending
                || (q.approval.approval == NotRequired && q.receipt.retry == RequiresApproval)))
  {
  }

  /** What the policy makes of a directive that concerns the operation asked about. */
  lemma FollowedAction(c: Controlled, failed: seq<string>, freshId: Option<string>, budget: Budget)
    requires budget.Valid() && Follow(c, failed, freshId, budget).Ok?
    ensures var d := Follow(c, failed, freshId, budget).value;
      && d.action ==
          (if c.action == BlockedUnknown then Blocked
           else if c.action == ApprovalContinuation then ContinueApproval
           else if c.reason == ApprovalPending || c.reason == ReceiptRequiresApproval then AwaitApproval
           else if c.action == TerminalAction then Stop
           else if !CanPay(budget) then PartialResult
           else if c.action == ModelReplan then Replan
           else if freshId == None || c.supersedes == None || CleanId(freshId) == c.supersedes then Blocked
           else if c.action == NewOperation then StartNewOperation else Correct)
      && d.operationId == (if d.action.Replaces() then CleanId(CleanId(freshId)) else CleanId(c.operationId))
  {
    hide StripAll, FailuresListable, Representable, Strip;
  }

  lemma StoppedAction(q: Question, budget: Budget)
    requires q.Valid() && budget.Valid() && Decide(q, budget).Ok? && !q.receipt.hardFailure
    ensures Decide(q, budget).value.action == Stop
    ensures Decide(q, budget).value.operationId == CleanId(IdOf(q.operation))
  {
    hide FailedIds, StripAll, FailuresListable, Representable, Strip;
  }

  /** Each of the eight actions is taken exactly on its condition, under this id and for this price. */
  lemma ActionsIff(q: Question, budget: Budget, action: Action)
    requires q.Valid() && budget.Valid() && Decide(q, budget).Ok?
    ensures var d := Decide(q, budget).value;
      && (d.action == action <==> Calls(q, budget, action))
      && d.operationId == (if d.action.Replaces() then CleanId(q.freshId) else IdOf(q.operation))
      && (d.remaining == budget <==> !d.action.Recovers())
      && d.failedIds == FailedIds(q.receipt.criteria)
  {
    hide FailedIds, StripAll, FailuresListable, Representable, Strip, Coordinate, Follow, MakeDecision, Decide;
    AnswerFacts(q);
    ControlledFacts(q);
    DecisionFacts(q, budget);
    if q.receipt.hardFailure {
      DirectiveIff(q);
      DecideFollows(q, budget);
      FollowedAction(q.Controlled(), FailedIds(q.receipt.criteria), q.freshId, budget);
    } else {
      StoppedAction(q, budget);
    }
  }

  lemma DecideFollows(q: Question, budget: Budget)
    requires q.Valid() && budget.Valid() && q.receipt.hardFailure
    ensures Decide(q, budget) == Follow(q.Controlled(), FailedIds(q.receipt.criteria), q.freshId, budget)
  {
  }

  /** The listed ids are those of the criteria that failed or stayed open, in their order and with repeats. */
  lemma {:induction false} FailedIdsOf(a: seq<Judged>, b: seq<Judged>)
    ensures FailedIds(a + b) == FailedIds(a) + FailedIds(b)
    ensures |b| == 1 ==>
      FailedIds(b) == if b[0].verdict == Failed || b[0].verdict == Unverified then [b[0].criterionId] else []
  {
    if b == [] {
      assert a + b == a;
    } else {
      assert (a + b)[..|a + b| - 1] == a + b[..|b| - 1];
      FailedIdsOf(a, b[..|b| - 1]);
    }
  }

  /** What each reason says. The three that say `false` are in the code and are never given. */
  predicate Explains(q: Question, budget: Budget, reason: Reason) {
    var hard, approval, continuation := q.receipt.hardFailure, q.approval.approval, q.approval.continuation;
    var ended := q.receipt.verdict == Verified || q.receipt.verdict == NotApplicable;
    match reason
    case Satisfied => !hard && ended
    case NonBlocking => !hard && !ended
    case OutcomeUnknown => hard && Unsettled(q)
    case ApprovalOutcomeUnknown => hard && approval == ApprovalUnknown
    case ApprovalPending => hard && approval == Pending
    case RefusedBefore(a) => hard && RefusedApproval(q) && a == approval && Untouched(q)
    case RefusedAfter(a) => hard && RefusedApproval(q) && a == approval && Settled(q)
    case ReceiptTerminal => hard && approval == NotRequired && q.receipt.retry == TerminalRetry
    case ReceiptRequiresApproval => hard && approval == NotRequired && q.receipt.retry == RequiresApproval
    case PreSideEffectFailure => hard && Unhindered(q) && q.operation == None && !ended
    case OperationMissing => hard && Unhindered(q) && q.operation == None && ended
    case OperationNotStarted => hard && Unhindered(q) && q.operation != None && Untouched(q)
    case KnownFailure => hard && AsksForNewOperation(q)
    case ReplanAfterSuccess => hard && AsksForCorrection(q)
    case AlreadySucceeded =>
      hard && Unhindered(q) && Settled(q) && !AsksForNewOperation(q) && !AsksForCorrection(q)
    case AppliedMissing => hard && approval == Applied && q.operation == None
    case AppliedNotCompleted => hard && approval == Applied && q.operation != None && Untouched(q)
    case ContinueExactResult =>
      hard && approval == Applied && Settled(q) && (continuation == NotContinued || continuation == Continuing)
    case ContinuationOutcomeUnknown =>
      hard && approval == Applied && Settled(q) && continuation == ContinuationUnknown
    case AlreadyContinued => hard && approval == Applied && Settled(q) && continuation == Continued
    case ContinuationHasFailed => hard && approval == Applied && Settled(q) && continuation == ContinuationFailed
    case BudgetExhausted =>
      hard && (AsksForReplan(q) || AsksForNewOperation(q) || AsksForCorrection(q)) && !CanPay(budget)
    case FreshIdRequired => hard && (AsksForNewOperation(q) || AsksForCorrection(q)) && q.freshId == None
    case FreshIdReused =>
      && hard && (AsksForNewOperation(q) || AsksForCorrection(q))
      && q.freshId != None && Strip(q.freshId.value) == q.operation.value.id
    case ExecutionUnknown => false
    case FailureInconsistent => false
    case SuccessInconsistent => false
  }

  lemma DirectiveExplained(q: Question, budget: Budget)
    requires q.Valid() && q.receipt.hardFailure
    ensures Explains(q, budget, q.Controlled().reason)
  {
    hide Strip;
  }

  /** The reason given is true of the question. */
  lemma ReasonsAreTrue(q: Question, budget: Budget)
    requires q.Valid() && budget.Valid() && Decide(q, budget).Ok?
    ensures Explains(q, budget, Decide(q, budget).value.reason)
  {
    hide FailedIds, StripAll, FailuresListable, Representable, Strip, Coordinate;
    AnswerFacts(q);
    ControlledFacts(q);
    if q.receipt.hardFailure {
      DirectiveIff(q);
      DirectiveExplained(q, budget);
      hide Unhindered, Untouched, RefusedApproval, Settled, Unsettled;
    }
  }

  /** A replacement that the budget can pay for looks at the fresh id it is given. */
  predicate FreshIdRead(c: Controlled, freshId: Option<string>, budget: Budget) {
    c.action.Replacement() && budget.attempts >= 1 && budget.modelCalls >= 1 && freshId.Some?
  }

  lemma FollowAnswersIff(c: Controlled, failed: seq<string>, freshId: Option<string>, budget: Budget)
    requires budget.Valid() && (c.supersedes.Some? <==> c.action.Replacement())
    requires c.supersedes.Some? ==> c.supersedes == c.operationId == CleanId(c.operationId)
    requires c.action.ApprovalContinuation? ==> c.operationId.Some?
    requires c.action.Replacement() ==> !c.reason.ApprovalPending? && !c.reason.ReceiptRequiresApproval?
    requires freshId.Some? ==> CleanId(CleanId(freshId)) == CleanId(freshId)
    ensures Follow(c, failed, freshId, budget).Ok? <==>
      && FailuresListable(failed) && (c.operationId.Some? ==> Representable(c.operationId.value))
      && (FreshIdRead(c, freshId, budget) ==> Representable(freshId.value))
  {
    hide StripAll, FailuresListable, Strip, MakeDecision;
  }

  /** Exactly when the policy answers instead of raising. */
  lemma AnswersIff(q: Question, budget: Budget)
    requires q.Valid() && budget.Valid()
    ensures Decide(q, budget).Ok? <==>
      && |FailedIds(q.receipt.criteria)| <= MAX_FAILED && NoDup(FailedIds(q.receipt.criteria))
      && (q.operation.Some? ==> |q.operation.value.id| <= MAX_ID)
      && (q.receipt.hardFailure && FreshIdRead(q.Controlled(), q.freshId, budget) ==> Representable(q.freshId.value))
  {
    AnswerFacts(q);
    ControlledFacts(q);
    hide Coordinate, FailedIds, Strip, StripAll, FailuresListable, MakeDecision, Follow, NoDup;
    FollowAnswersIff(q.Controlled(), FailedIds(q.receipt.criteria), q.freshId, budget);
  }

  lemma ControlledFacts(q: Question)
    ensures q.Controlled().operationId == IdOf(q.operation)
    ensures q.Controlled().supersedes.Some? <==> q.Controlled().action.Replacement()
    ensures q.Controlled().supersedes.Some? ==> q.Controlled().supersedes == IdOf(q.operation)
    ensures q.Controlled().action.ApprovalContinuation? ==> q.operation.Some?
    ensures q.Controlled().action.Replacement() ==>
      !q.Controlled().reason.ApprovalPending? && !q.Controlled().reason.ReceiptRequiresApproval?
  {
  }

  lemma AnswerFacts(q: Question)
    requires q.Valid()
    ensures StripAll(FailedIds(q.receipt.criteria)) == FailedIds(q.receipt.criteria)
    ensures FailuresListable(FailedIds(q.receipt.criteria)) <==>
      |FailedIds(q.receipt.criteria)| <= MAX_FAILED && NoDup(FailedIds(q.receipt.criteria))
    ensures q.operation.Some? ==> CleanId(IdOf(q.operation)) == IdOf(q.operation)
    ensures q.operation.Some? ==> (Representable(q.operation.value.id) <==> |q.operation.value.id| <= MAX_ID)
    ensures q.freshId.Some? ==> CleanId(CleanId(q.freshId)) == CleanId(q.freshId)
  {
    if q.freshId.Some? {
      StripIdempotent(q.freshId.value);
    }
    hide Strip, FailedIds, StripAll;
    ValidIdsStay(FailedIds(q.receipt.criteria));
  }

  lemma TwiceFailed(j: Judged)
    requires FailedOrOpen(j)
    ensures FailedIds([j, j]) == [j.criterionId, j.criterionId]
  {
    assert [j, j][..1] == [j] && [j][..0] == [];
    assert FailedIds([j]) == [j.criterionId];
  }

  /** Two failed criteria under one id make it raise. */
  lemma RepeatedIdsRaise()
    ensures var j := Judged("c", true, false, Failed, NoRetry);
      var q := Question(Aggregated([j, j]), None, ApprovalState(NotRequired, NoContinuation), None);
      q.Valid() && Decide(q, Budget(1, 1, 0, 0.0)) == Err(RepeatedFailure)
  {
    var j := Judged("c", true, false, Failed, NoRetry);
    var q := Question(Aggregated([j, j]), None, ApprovalState(NotRequired, NoContinuation), None);
    StripSolid("c");
    TwiceFailed(j);
    hide Coordinate, Strip, FailedIds, AggregateVerdict, RetryMax, HardFailure;
    AnswerFacts(q);
    var ids := FailedIds(q.receipt.criteria);
    assert ids[0] == ids[1];
  }

  /** So does an operation id of 129 characters, without any failed criterion. */
  lemma LongOperationIdRaises()
    ensures var id := seq(MAX_ID + 1, _ => 'x');
      var q := Question(Aggregated([]), Some(Operation(id, OpFailed, CrossedBoundary)),
                        ApprovalState(NotRequired, NoContinuation), None);
      q.Valid() && Decide(q, Budget(1, 1, 0, 0.0)) == Err(BadOperationId)
  {
    var id := seq(MAX_ID + 1, _ => 'x');
    StripSolid(id);
    assert FailedIds([]) == [] && StripAll([]) == [];
  }

  // ---------- Chains of decisions ----------

  /** Ask one question after the other, each with the budget the last answer left; a refusal changes nothing. */
  function Chain(questions: seq<Question>, budget: Budget): (r: (seq<Decision>, Budget))
    requires budget.Valid() && forall q | q in questions :: q.Valid()
    ensures r.1.Valid()
  {
    if questions == [] then ([], budget)
    else
      var before := Chain(questions[..|questions| - 1], budget);
      var d := Decide(questions[|questions| - 1], before.1);
      if d.Ok? then (before.0 + [d.value], d.value.remaining) else before
  }

  function Recoveries(decisions: seq<Decision>): (n: nat)
    ensures n <= |decisions|
  {
    if decisions == [] then 0
    else Recoveries(decisions[..|decisions| - 1]) + (if decisions[|decisions| - 1].action.Recovers() then 1 else 0)
  }

  /** What `n` recoveries leave of a budget that can pay for them. */
  predicate PaidFor(budget: Budget, n: nat, left: Budget) {
    && n <= budget.attempts && n <= budget.modelCalls
    && left.attempts == budget.attempts - n && left.modelCalls == budget.modelCalls - n
    && left.toolCalls == budget.toolCalls && left.wallSeconds == budget.wallSeconds
  }

  lemma OneDecision(q: Question, budget: Budget)
    requires q.Valid() && budget.Valid() && Decide(q, budget).Ok?
    ensures var d := Decide(q, budget).value;
      PaidFor(budget, if d.action.Recovers() then 1 else 0, d.remaining)
  {
    hide Decide;
    DecisionFacts(q, budget);
  }

  lemma RecoveriesAppend(decisions: seq<Decision>, d: Decision)
    ensures Recoveries(decisions + [d]) == Recoveries(decisions) + (if d.action.Recovers() then 1 else 0)
  {
    assert (decisions + [d])[..|decisions|] == decisions;
  }

  /** Whatever is asked, recoveries are paid for one by one and number at most the initial attempts and model calls. */
  lemma {:induction false} ChainIsBounded(questions: seq<Question>, budget: Budget)
    requires budget.Valid() && forall q | q in questions :: q.Valid()
    ensures PaidFor(budget, Recoveries(Chain(questions, budget).0), Chain(questions, budget).1)
  {
    if questions != [] {
      hide Decide, Recoveries;
      var front, q := questions[..|questions| - 1], questions[|questions| - 1];
      ChainIsBounded(front, budget);
      var before := Chain(front, budget);
      var d := Decide(q, before.1);
      if d.Ok? {
        OneDecision(q, before.1);
        RecoveriesAppend(before.0, d.value);
      }
    } else {
      assert Recoveries([]) == 0;
    }
  }
}
