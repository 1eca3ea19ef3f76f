/** What both bindings share around the planner: the resolved values of a call,
    the projection of a policy into the planner's request, the token tables and
    the telemetry of failed emissions (dagr_mcp_sdk_binding/neutral.py,
    dagr_mcp_lifecycle/binding_mask.py). */
module Binding {
  import opened Prelude
  import opened JsonTrees
  import opened Lifecycle
  import opened Receipts

  datatype RequestSnapshot = RequestSnapshot(
    toolName: string, argumentsDigest: string, logicalCallId: string,
    subjectRef: string, subjectRefOrigin: Option<Origin>)

  datatype Actor = Actor(actorRef: string, tenantId: Option<string>, workspaceId: Option<string>)

  datatype BindingPolicy = BindingPolicy(
    disposition: DispositionToken, toolClass: ToolClass, reasonCode: Option<string>,
    parentReceiptRef: Option<string>, limits: seq<string>)

  datatype FailureMode = FailClosed | FailOpen

  datatype BindingConfig = BindingConfig(
    runtimeInstanceId: string, boundaryId: string,
    policyPackId: string, policyPackVersion: string,
    toolClasses: map<string, ToolClass>,
    hasPolicyResolver: bool,
    preExecutionFailure: map<ToolClass, FailureMode>,
    postExecutionAlerts: bool,
    emitReadAdmission: bool,
    parentReceiptRef: Option<string>,
    limits: seq<string>)

  datatype PolicyAnswer = Answered(policy: BindingPolicy) | ResolverRaised

  // What calling the configured review-object creator comes to.
  datatype ReviewAnswer = NoCreator | NotCallable | CreatorRaised(className: string) | CreatorReturned(ref: string)

  /** What a tool may hand back: a task, an object with result attributes (a
      missing `content` attribute is None), a mapping, or a sequence. */
  datatype ToolResult =
    | TaskResult
    | ObjectResult(content: Option<Json>, structured: Json, meta: Json, isError: bool)
    | MappingResult(members: map<Key, Json>)
    | SequenceResult(items: seq<Json>)

  /** How the tool ended. `projectionFault` is what projecting, observing or
      digesting the result raised, if anything. */
  datatype ToolEnding =
    | Returned(result: ToolResult, projectionFault: Option<Fault>)
    | Raised(className: string, isTimeout: bool, isConnection: bool)
    | Cancelled

  // What the operator-admission resolver comes to: a failure or time-out, a
  // value of another type, or a decision.
  datatype OperatorAnswer =
    | OperatorFailed
    | OperatorMalformed
    | OperatorDecided(disposition: string, ground: Option<string>)

  /** One call: what was captured from the request and what the resolvers, the
      review creator and the tool will answer. */
  datatype Call = Call(
    snapshot: RequestSnapshot, actor: Actor,
    policyAnswer: PolicyAnswer, operatorAnswer: OperatorAnswer, review: ReviewAnswer, ending: ToolEnding)

  datatype TelemetryEvent =
    | ReceiptGap(
        runtimeInstanceId: string, boundaryId: string, logicalCallId: string, toolName: string,
        kind: ReceiptKindName, attemptedOutcome: Option<OutcomeToken>,
        admissionRef: Option<string>, failureClass: string)
    | ReviewCreationFailed(
        runtimeInstanceId: string, boundaryId: string, logicalCallId: string, toolName: string,
        failureClass: string)
    | UnsupportedPostExecutionMode

  /** The receipt world together with the binding's telemetry. */
  datatype State = State(world: World, telemetry: seq<TelemetryEvent>)

  /** How a call answers its caller. */
  datatype Reply =
    | PolicyError
    | RefusedByPolicy
    | DeferredForReview(reviewRef: string)
    | AdmissionUnavailable
    | ReviewReceiptUnavailable
    | ToolReturned(result: ToolResult)
    | ToolRaised(className: string, isConnection: bool)
    | CallCancelled
    | TaskUnsupported
    | ProjectionDiverged

  // Between its two atomic segments a call waits for its tool.
  datatype Run = Run(policy: BindingPolicy, plan: AdmissionPlan, admissionRef: Option<string>)

  datatype Progress = Running(run: Run) | Stopped(reply: Reply)

  /** One whole call: the state its admission left, the state it ended in, and
      what its caller and an observer of its writes see. */
  datatype CallTrace = CallTrace(
    admitted: State, after: State, captured: seq<Captured>, writeFailed: bool, reply: Reply, ran: bool)
  {
    function Runs(): nat { if ran then 1 else 0 }
  }

  // An outcome the planner accepted, in the binding's words.
  datatype ProjectedOutcome = ProjectedOutcome(token: OutcomeToken, owned: map<Key, bool>)

  const CANCELLATION_FACTS: map<Key, bool> := map[
    Known(RequestCancelled) := true, Known(ExecutionStateUnknown) := true, Known(DeliveryIncomplete) := true]

  function ToNeutral(d: DispositionToken): Disposition
  {
    match d
    case AdmittedToken => Admitted
    case RefusedToken => Refused
    case DeferredForReviewToken => Deferred
  }

  function ProjectDisposition(d: Disposition): DispositionToken
  {
    match d
    case Admitted => AdmittedToken
    case Refused => RefusedToken
    case Deferred => DeferredForReviewToken
  }

  function GroundCode(g: Ground): string
  {
    match g
    case PolicyRefused => "policy_refused"
    case UnknownToolFailClosed => "unknown_tool_fail_closed"
    case RequiredSinkUnavailable => "required_sink_unavailable"
    case ReviewObjectCreationFailed => "review_object_creation_failed"
  }

  function GroundOf(code: string): Option<Ground>
  {
    if code == "policy_refused" then Some(PolicyRefused)
    else if code == "unknown_tool_fail_closed" then Some(UnknownToolFailClosed)
    else if code == "required_sink_unavailable" then Some(RequiredSinkUnavailable)
    else if code == "review_object_creation_failed" then Some(ReviewObjectCreationFailed)
    else None
  }

  // The reason code stamped on a refused receipt, kept verbatim.
  function BindingReasonCode(policy: BindingPolicy): string
  {
    match Present(policy.reasonCode)
    case Some(code) => code
    case None => "policy_refused"
  }

  // The reason code of a refusal: the planner's own ground when a deferral was
  // refused, otherwise the policy's code.
  function TerminalReason(policy: BindingPolicy, plan: AdmissionPlan): string
    requires plan.record.Some?
  {
    if plan.requested == Deferred && plan.record.value.reasonCode.Some? then
        GroundCode(plan.record.value.reasonCode.value)
    else BindingReasonCode(policy)
  }

  // The ground the planner is told: an unknown code counts as policy_refused.
  function NeutralGround(policy: BindingPolicy): Ground
  {
    match GroundOf(BindingReasonCode(policy))
    case Some(ground) => ground
    case None => PolicyRefused
  }

  function NeutralRequest(policy: BindingPolicy, reviewCreated: Option<bool>, config: BindingConfig): AdmissionRequest
  {
    var disposition := ToNeutral(policy.disposition);
    AdmissionRequest(
      disposition,
      policy.toolClass,
      if disposition == Refused then Some(NeutralGround(policy)) else None,
      reviewCreated,
      config.emitReadAdmission,
      policy.parentReceiptRef.Some? || config.parentReceiptRef.Some?)
  }

  function ToolClassOf(config: BindingConfig, toolName: string): ToolClass
  {
    if toolName in config.toolClasses then config.toolClasses[toolName] else Read
  }

  function PreExecutionMode(config: BindingConfig, toolClass: ToolClass): FailureMode
  {
    if toolClass in config.preExecutionFailure then config.preExecutionFailure[toolClass] else FailClosed
  }

  const DEFAULT_FAILURE_MODES: map<ToolClass, FailureMode> := map[
    Read := FailOpen, Write := FailClosed, Destructive := FailClosed]

  // _create_review_object: the reference, or the class of what was raised.
  function CreateReview(answer: ReviewAnswer): Result<string, string>
  {
    match answer
    case NoCreator => Err("RuntimeError")
    case NotCallable => Err("TypeError")
    case CreatorRaised(className) => Err(className)
    case CreatorReturned(ref) => if ref == "" then Err("RuntimeError") else Ok(ref)
  }

  // A deferral makes its review object before the planner is asked.
  function Review(
    config: BindingConfig, call: Call, policy: BindingPolicy, s: State): (State, Option<string>, Option<bool>)
  {
    if ToNeutral(policy.disposition) != Deferred then (s, None, None)
    else
      match CreateReview(call.review)
      case Ok(ref) => (s, Some(ref), Some(true))
      case Err(className) =>
        (s.(telemetry := s.telemetry + [ReviewFailedEvent(config, call, className)]), None, Some(false))
  }

  // The planner never refuses the request a binding makes.
  function Plan(config: BindingConfig, policy: BindingPolicy, reviewCreated: Option<bool>): AdmissionPlan
    requires ToNeutral(policy.disposition) == Deferred ==> reviewCreated.Some?
  {
    PlanAdmission(NeutralRequest(policy, reviewCreated, config)).value
  }

  function ContextOf(config: BindingConfig, call: Call, policy: BindingPolicy, version: BindingVersion): ReceiptContext
  {
    ReceiptContext(
      config.runtimeInstanceId, config.boundaryId, config.policyPackId, config.policyPackVersion,
      call.snapshot.subjectRef, call.snapshot.subjectRefOrigin, call.snapshot.logicalCallId,
      Some(call.actor.actorRef), call.actor.tenantId, call.actor.workspaceId,
      version,
      if policy.parentReceiptRef.Some? then policy.parentReceiptRef else config.parentReceiptRef)
  }

  // tuple(dict.fromkeys(limits)): first occurrences, in order.
  function Distinct(limits: seq<string>): seq<string>
  {
    Joined([], limits)
  }

  function AdmissionLimits(config: BindingConfig, policy: BindingPolicy): seq<string>
  {
    Distinct(config.limits + policy.limits)
  }

  function AdmissionOf(
    config: BindingConfig, call: Call, token: DispositionToken,
    reviewRef: Option<string>, retry: Option<string>, reason: Option<string>): Body
  {
    AdmissionBody(
      call.snapshot.toolName, call.snapshot.argumentsDigest, config.policyPackId, config.policyPackVersion,
      token, reviewRef, retry, reason)
  }

  // classified_failure
  function ClassifiedFailure(fault: Fault): string
  {
    match fault
    case WriteFault => "receipt_sink_failure"
    case ContentFault => "receipt_signing_or_content_failure"
    case IoFault => "receipt_spool_io_failure"
    case OtherFault(className) => className
  }

  function GapEvent(
    config: BindingConfig, call: Call, kind: ReceiptKindName,
    attempted: Option<OutcomeToken>, admissionRef: Option<string>, fault: Fault): TelemetryEvent
  {
    ReceiptGap(
      config.runtimeInstanceId, config.boundaryId, call.snapshot.logicalCallId, call.snapshot.toolName,
      kind, attempted, admissionRef, ClassifiedFailure(fault))
  }

  function ReviewFailedEvent(config: BindingConfig, call: Call, className: string): TelemetryEvent
  {
    ReviewCreationFailed(
      config.runtimeInstanceId, config.boundaryId, call.snapshot.logicalCallId, call.snapshot.toolName, className)
  }

  // The four-member projection whose digest the outcome receipt carries.
  datatype Projection = Projection(content: Json, structured: Json, meta: Json, isError: bool)

  function ProjectionJson(p: Projection): Json
  {
    Obj(map[
      Known(Content) := p.content, Known(StructuredContent) := p.structured,
      Known(Meta) := p.meta, Known(IsError) := Bool(p.isError)])
  }

  // `bool(value)` of a JSON value.
  predicate Truthy(v: Json)
  {
    match v
    case Null => false
    case Bool(flag) => flag
    case Num(n) => n != 0
    case Str(text) => text != ""
    case Arr(items) => items != []
    case Obj(members) => members != map[]
  }

  function Observe(ending: ToolEnding): Observation
    requires ending.Raised? || ending.Cancelled?
  {
    match ending
    case Cancelled => Observation(Cancellation, None)
    case Raised(className, isTimeout, _) =>
      if isTimeout then Observation(Timeout, None) else Observation(ExceptionOutcome, Some(className))
  }

  function GovernanceFacts(record: OutcomeRecord): map<Key, bool>
  {
    if record.cancellationFacts then CANCELLATION_FACTS else map[]
  }

  // Emitting an admission receipt; a failure becomes a gap.
  function TryAdmission(
    env: Env, config: BindingConfig, call: Call, policy: BindingPolicy, version: BindingVersion, body: Body, s: State)
    : (State, Option<string>)
    requires body.AdmissionBody?
  {
    var (w, r) := EmittedAdmission(env, s.world, ContextOf(config, call, policy, version), body,
                                   AdmissionLimits(config, policy));
    match r
    case Ok(ref) => (State(w, s.telemetry), Some(ref))
    case Err(fault) =>
      (State(w, s.telemetry + [GapEvent(config, call, AdmissionKind, None, None, fault)]), None)
  }

  // Emitting an outcome receipt; a failure becomes a gap.
  function TryOutcome(
    env: Env, config: BindingConfig, call: Call, policy: BindingPolicy, version: BindingVersion,
    body: Body, exceptionClass: Option<string>, s: State)
    : (State, bool)
    requires body.OutcomeBody?
  {
    var (w, r) := EmittedOutcome(
                    env, s.world, ContextOf(config, call, policy, version), body, exceptionClass,
                        Distinct(config.limits));
    match r
    case Ok(_) => (State(w, s.telemetry), true)
    case Err(fault) =>
      (State(w, s.telemetry + [GapEvent(config, call, OutcomeKind, Some(body.outcome), Some(body.admissionRef),
                                        fault)]), false)
  }

  /** The emission half of a binding object: the emitter, and the telemetry that
      failed emissions leave behind. Both bindings carry it alike. */
  class ReceiptTrail {
    const emitter: SignedReceiptEmitter
    const config: BindingConfig
    const version: BindingVersion
    var localTelemetry: seq<TelemetryEvent>

    ghost predicate Valid()
    {
      emitter.Valid()
    }

    ghost function Footprint(): set<object>
    {
      {this} + emitter.Footprint()
    }

    ghost function View(): State
      reads this, emitter.source, emitter.observer.inner
    {
      State(emitter.View(), localTelemetry)
    }

    constructor (emitter: SignedReceiptEmitter, config: BindingConfig, version: BindingVersion)
      requires emitter.Valid()
      ensures Valid() && this.emitter == emitter && this.config == config && this.version == version
      ensures localTelemetry == []
    {
      this.emitter, this.config, this.version, localTelemetry := emitter, config, version, [];
    }

    method RecordReviewFailure(call: Call, className: string)
      modifies this
      ensures localTelemetry == old(localTelemetry) + [ReviewFailedEvent(config, call, className)]
    {
      localTelemetry := localTelemetry + [ReviewFailedEvent(config, call, className)];
    }

    method RecordReceiptFailure(
      call: Call, kind: ReceiptKindName, attempted: Option<OutcomeToken>, admissionRef: Option<string>, fault: Fault)
      modifies this
      ensures localTelemetry == old(localTelemetry) + [GapEvent(config, call, kind, attempted, admissionRef, fault)]
    {
      localTelemetry := localTelemetry + [GapEvent(config, call, kind, attempted, admissionRef, fault)];
    }

    method EmitAdmission(call: Call, policy: BindingPolicy, body: Body) returns (ref: Option<string>)
      requires Valid() && body.AdmissionBody?
      modifies Footprint()
      ensures (View(), ref) == TryAdmission(emitter.env, config, call, policy, version, body, old(View()))
      ensures emitter.Observed(old(emitter.View()), emitter.View())
    {
      var r := emitter.EmitAdmission(ContextOf(config, call, policy, version), body, AdmissionLimits(config, policy));
      match r {
        case Ok(id) =>
          ref := Some(id);
        case Err(fault) =>
          RecordReceiptFailure(call, AdmissionKind, None, None, fault);
          ref := None;
      }
    }

    method EmitOutcome(call: Call, policy: BindingPolicy, body: Body, exceptionClass: Option<string>)
      returns (accepted: bool)
      requires Valid() && body.OutcomeBody?
      modifies Footprint()
      ensures (View(), accepted) ==
              TryOutcome(emitter.env, config, call, policy, version, body, exceptionClass, old(View()))
      ensures emitter.Observed(old(emitter.View()), emitter.View())
    {
      var r := emitter.EmitOutcome(ContextOf(config, call, policy, version), body, exceptionClass,
                                   Distinct(config.limits));
      match r {
        case Ok(_) =>
          accepted := true;
        case Err(fault) =>
          RecordReceiptFailure(call, OutcomeKind, Some(body.outcome), Some(body.admissionRef), fault);
          accepted := false;
      }
    }
  }

  // What other calls may do to the shared state while a tool runs.
  predicate Grown(s: State, s': State)
  {
    && s.world.log <= s'.world.log
    && s.world.attempts <= s'.world.attempts
    && s.world.minted <= s'.world.minted
    && s.telemetry <= s'.telemetry
  }

  /** The governed tool, which counts the times it is run. While it runs, other
      calls may write receipts: nothing is promised of the trail but growth. */
  class Tool {
    var runs: nat

    constructor ()
      ensures runs == 0
    {
      runs := 0;
    }

    method Run(call: Call, trail: ReceiptTrail) returns (ending: ToolEnding)
      modifies this, trail, trail.emitter.observer.inner, trail.emitter.source
      ensures runs == old(runs) + 1 && ending == call.ending
      ensures Grown(old(trail.View()), trail.View())
    {
      runs := runs + 1;
      ending := call.ending;
    }
  }
}
