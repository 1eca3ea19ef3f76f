/** The binding-neutral lifecycle planner (dagr_mcp_lifecycle/core.py): which
    governance records one call must produce, and what each carries. */
module Lifecycle {
  import opened Prelude

  datatype Disposition = Admitted | Refused | Deferred

  datatype ToolClass = Read | Write | Destructive

  datatype Ground =
    | PolicyRefused
    | UnknownToolFailClosed
    | RequiredSinkUnavailable
    | ReviewObjectCreationFailed

  datatype Outcome =
    | ResultOutcome | ErrorOutcome | ExceptionOutcome | TaskSubmitted
    | Timeout | Cancellation | InputRequired

  datatype LimitFamily = Base | ResultLimit | Task | Boundary

  datatype AdmissionRequest = AdmissionRequest(
    disposition: Disposition,
    toolClass: ToolClass,
    refusalGround: Option<Ground>,
    reviewObjectCreated: Option<bool>,
    emitReadAdmission: bool,
    hasParent: bool)

  datatype Observation = Observation(outcome: Outcome, exceptionClass: Option<string>)

  datatype AdmissionRecord = AdmissionRecord(
    disposition: Disposition,
    reasonCode: Option<Ground>,
    carriesReviewRef: bool,
    retryContract: Option<string>,
    referencesParent: bool,
    limits: seq<LimitFamily>)

  datatype OutcomeRecord = OutcomeRecord(
    outcome: Outcome,
    subsumedFrom: Option<Outcome>,
    exceptionClass: Option<string>,
    carriesResultDigest: bool,
    cancellationFacts: bool,
    limits: seq<LimitFamily>)

  datatype AdmissionPlan = AdmissionPlan(
    requested: Disposition,
    resolved: Disposition,
    record: Option<AdmissionRecord>,
    recorded: bool,
    proceeds: bool)

  datatype OutcomePlan = OutcomePlan(observation: Outcome, record: Option<OutcomeRecord>)

  datatype LifecyclePlan = LifecyclePlan(admission: AdmissionPlan, outcome: Option<OutcomePlan>, recordCount: nat)

  // The planner's ValueErrors, and its explicit refusal of input_required.
  datatype PlanError = MissingGround | MissingReviewFlag | MissingExceptionClass | Unsupported

  const RETRY_CONTRACT := "retry_after_approval"
  const TIMEOUT_CLASS := "TimeoutError"
  const ADMISSION_LIMITS: seq<LimitFamily> := [Base, Boundary]

  // RECEIPT_CARDINALITY
  function Cardinality(d: Disposition): nat
  {
    if d == Admitted then 2 else 1
  }

  function OutcomeLimits(o: Outcome): seq<LimitFamily>
  {
    match o
    case ResultOutcome | ErrorOutcome => [Base, ResultLimit, Boundary]
    case TaskSubmitted => [Base, Task, Boundary]
    case _ => ADMISSION_LIMITS
  }

  predicate AdmissionBeforeExecution(request: AdmissionRequest)
  {
    request.toolClass != Read || request.emitReadAdmission
  }

  function RefusedRecord(ground: Ground, hasParent: bool): AdmissionRecord
  {
    AdmissionRecord(Refused, Some(ground), false, None, hasParent, ADMISSION_LIMITS)
  }

  function PlanAdmission(request: AdmissionRequest): Result<AdmissionPlan, PlanError>
  {
    match request.disposition
    case Refused =>
      if request.refusalGround.None? then Err(MissingGround)
      else
        Ok(AdmissionPlan(Refused, Refused, Some(RefusedRecord(request.refusalGround.value, request.hasParent)), true,
                         false))
    case Deferred =>
      if request.reviewObjectCreated.None? then Err(MissingReviewFlag)
      else if !request.reviewObjectCreated.value then
        Ok(AdmissionPlan(Deferred, Refused, Some(RefusedRecord(ReviewObjectCreationFailed, request.hasParent)), true,
                         false))
      else
        Ok(AdmissionPlan(Deferred, Deferred,
          Some(AdmissionRecord(Deferred, None, true, Some(RETRY_CONTRACT), request.hasParent, ADMISSION_LIMITS)), true,
              false))
    case Admitted =>
      var recorded := AdmissionBeforeExecution(request);
      var record := AdmissionRecord(Admitted, None, false, None, request.hasParent, ADMISSION_LIMITS);
      Ok(AdmissionPlan(Admitted, Admitted, if recorded then Some(record) else None, recorded, true))
  }

  function RecordOutcome(observation: Observation): Result<OutcomeRecord, PlanError>
  {
    var subsumed := observation.outcome == Timeout;
    var outcome := if subsumed then ExceptionOutcome else observation.outcome;
    var exceptionClass := if subsumed then Some(TIMEOUT_CLASS) else observation.exceptionClass;
    if outcome == ExceptionOutcome && exceptionClass.None? then Err(MissingExceptionClass)
    else
      Ok(OutcomeRecord(
        outcome,
        if subsumed then Some(Timeout) else None,
        if outcome == ExceptionOutcome then exceptionClass else None,
        outcome == ResultOutcome || outcome == ErrorOutcome,
        outcome == Cancellation,
        OutcomeLimits(outcome)))
  }

  // plan_outcome_strict: input_required is an error, never a coerced outcome.
  function PlanOutcome(admission: AdmissionPlan, observation: Observation): Result<OutcomePlan, PlanError>
  {
    if observation.outcome == InputRequired then Err(Unsupported)
    else if !admission.proceeds || !admission.recorded then Ok(OutcomePlan(observation.outcome, None))
    else
      match RecordOutcome(observation)
      case Err(e) => Err(e)
      case Ok(record) => Ok(OutcomePlan(observation.outcome, Some(record)))
  }

  function Count<T>(o: Option<T>): nat { if o.Some? then 1 else 0 }

  // plan_lifecycle; its unsupported result is the error Unsupported, which
  // plan_lifecycle_strict raises.
  function PlanLifecycle(request: AdmissionRequest, observation: Option<Observation>): Result<LifecyclePlan, PlanError>
  {
    match PlanAdmission(request)
    case Err(e) => Err(e)
    case Ok(admission) =>
      if !admission.proceeds || observation.None? then
        Ok(LifecyclePlan(admission, None, Count(admission.record)))
      else
        match PlanOutcome(admission, observation.value)
        case Err(e) => Err(e)
        case Ok(outcome) =>
          Ok(LifecyclePlan(admission, Some(outcome), Count(admission.record) + Count(outcome.record)))
  }

  /** The cardinality contract: a completed plan produces RECEIPT_CARDINALITY of
      its resolved disposition, except that an admitted read configured not to
      record admission produces nothing at all. */
  lemma PlanCardinality(request: AdmissionRequest, observation: Observation)
    requires PlanLifecycle(request, Some(observation)).Ok?
    ensures var plan := PlanLifecycle(request, Some(observation)).value;
            plan.recordCount ==
              if request.disposition == Admitted && request.toolClass == Read && !request.emitReadAdmission then 0
              else Cardinality(plan.admission.resolved)
    ensures var plan := PlanLifecycle(request, Some(observation)).value;
            plan.admission.resolved != Admitted ==> plan.outcome.None?
  {}

  /** When the planner makes no plan, and that the reason is an unsupported
      observation, which the plain planner returns and the strict one raises,
      exactly when an admitted call asked for input; the other reasons are raised
      by both. */
  lemma PlanFailsExactlyWhen(request: AdmissionRequest, observation: Observation)
    ensures PlanLifecycle(request, Some(observation)).Err? <==>
            match request.disposition
            case Refused => request.refusalGround.None?
            case Deferred => request.reviewObjectCreated.None?
            case Admitted =>
              || observation.outcome == InputRequired
              || (AdmissionBeforeExecution(request)
                  && observation.outcome == ExceptionOutcome && observation.exceptionClass.None?)
    ensures PlanLifecycle(request, Some(observation)) == Err(Unsupported) <==>
            request.disposition == Admitted && observation.outcome == InputRequired
  {}
}
