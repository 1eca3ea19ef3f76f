/** The FastMCP middleware (dagr_mcp/fastmcp_binding.py). A call is two atomic
    segments with the tool between them: `Admit` up to the await of the tool,
    `Finish` after it. The functions give the effect of each segment; the class
    runs them step by step. */
module FastMcpBinding {
  import opened Prelude
  import opened JsonTrees
  import opened Lifecycle
  import opened Receipts
  import opened Binding

  datatype FastMcpConfig = FastMcpConfig(
    common: BindingConfig,
    hasOperatorResolver: bool,
    requiredTools: set<string>,
    requiredClasses: set<ToolClass>)

  predicate OperatorSeamUnset(config: FastMcpConfig)
  {
    !config.hasOperatorResolver && config.requiredTools == {} && config.requiredClasses == {}
  }

  function PlainPolicy(disposition: DispositionToken, toolClass: ToolClass, reason: Option<string>): BindingPolicy
  {
    BindingPolicy(disposition, toolClass, reason, None, [])
  }

  // _resolve_policy: None when the configured resolver raised.
  function ResolvePolicy(config: FastMcpConfig, call: Call): Option<BindingPolicy>
  {
    var tool := call.snapshot.toolName;
    var toolClass := ToolClassOf(config.common, tool);
    var refused := PlainPolicy(RefusedToken, toolClass, Some("policy_refused"));
    var admitted := PlainPolicy(AdmittedToken, toolClass, None);
    if config.common.hasPolicyResolver then
      match call.policyAnswer
      case Answered(policy) => Some(policy)
      case ResolverRaised => None
    else if config.hasOperatorResolver then
      match call.operatorAnswer
      case OperatorDecided(disposition, ground) =>
        Some(if disposition == "admitted" && ground.None? then admitted else refused)
      case _ => Some(refused)
    else if tool in config.requiredTools || toolClass in config.requiredClasses then Some(refused)
    else Some(admitted)
  }

  // binding_mask.project_outcome
  function ProjectOutcome(o: Outcome): Option<OutcomeToken>
  {
    match o
    case ResultOutcome => Some(ResultReturned)
    case ErrorOutcome => Some(ErrorReturned)
    case ExceptionOutcome => Some(ExceptionToken)
    case TaskSubmitted => Some(TaskSubmittedToken)
    case Timeout => Some(ExceptionToken)
    case Cancellation => Some(Indeterminate)
    case InputRequired => None
  }

  // project_fastmcp_tool_result
  function ProjectResult(result: ToolResult): Projection
  {
    match result
    case ObjectResult(content, structured, meta, isError) =>
      Projection(if content.Some? then content.value else Arr([]), structured, meta, isError)
    case _ => Projection(Arr([]), Null, Null, false)
  }

  /** _project_terminal_admission: the one record of a refusal or deferral. */
  function Terminal(
    env: Env, config: FastMcpConfig, call: Call, policy: BindingPolicy, plan: AdmissionPlan,
    reviewRef: Option<string>, s: State): (State, Reply)
    requires plan.record.Some?
  {
    var record := plan.record.value;
    var token := ProjectDisposition(record.disposition);
    if record.disposition == Refused then
      var reason := TerminalReason(policy, plan);
      var (s', _) := TryAdmission(env, config.common, call, policy, FastMcpVersion,
                                  AdmissionOf(config.common, call, token, None, None, Some(reason)), s);
      (s', RefusedByPolicy)
    else
      var (s', ref) := TryAdmission(env, config.common, call, policy, FastMcpVersion,
                                    AdmissionOf(config.common, call, token, reviewRef, record.retryContract, None), s);
      (s', if ref.Some? then DeferredForReview(if reviewRef.Some? then reviewRef.value else "")
       else ReviewReceiptUnavailable)
  }

  function Admit(env: Env, config: FastMcpConfig, call: Call, s: State): (State, Progress)
  {
    match ResolvePolicy(config, call)
    case None => (s, Stopped(PolicyError))
    case Some(policy) =>
      var (reviewed, reviewRef, reviewCreated) := Review(config.common, call, policy, s);
      var plan := Plan(config.common, policy, reviewCreated);
      if !plan.proceeds then
        var (s', reply) := Terminal(env, config, call, policy, plan, reviewRef, reviewed);
        (s', Stopped(reply))
      else if plan.recorded then
        var (s', ref) := TryAdmission(env, config.common, call, policy, FastMcpVersion,
                                      AdmissionOf(config.common, call, AdmittedToken, None, None, None), reviewed);
        if ref.None? && PreExecutionMode(config.common, policy.toolClass) == FailClosed then
          (s', Stopped(AdmissionUnavailable))
        else (s', Running(Run(policy, plan, ref)))
      else (reviewed, Running(Run(policy, plan, None)))
  }

  /** _project_core_outcome: the planner's outcome in the binding's words, or
      None when it is not what the caller of the helper froze. */
  function ProjectCoreOutcome(
    plan: AdmissionPlan, observation: Observation, frozenToken: OutcomeToken, frozenOwned: map<Key, bool>)
    : Option<ProjectedOutcome>
  {
    match PlanOutcome(plan, observation)
    case Err(_) => None
    case Ok(outcome) =>
      if outcome.record.None? then None
      else
        var record := outcome.record.value;
        if ProjectOutcome(record.outcome) != Some(frozenToken) || record.carriesResultDigest
           || GovernanceFacts(record) != frozenOwned then None
        else Some(ProjectedOutcome(frozenToken, GovernanceFacts(record)))
  }

  // A planned post-execution outcome; the second value is false when no receipt
  // was accepted.
  function EmitPlanned(
    env: Env, config: FastMcpConfig, call: Call, run: Run, admissionRef: string,
    observation: Observation, digest: Option<string>, s: State): (State, bool)
  {
    match PlanOutcome(run.plan, observation)
    case Err(_) => (s, true)
    case Ok(outcome) =>
      if outcome.record.None? || ProjectOutcome(outcome.record.value.outcome).None? then (s, true)
      else
        var record := outcome.record.value;
        var body := OutcomeBody(admissionRef, ProjectOutcome(record.outcome).value,
                                if record.carriesResultDigest then digest else None, map[]);
        TryOutcome(env, config.common, call, run.policy, FastMcpVersion, body, None, s)
  }

  function AlertIfUnsupported(config: FastMcpConfig, accepted: bool, s: State): State
  {
    if accepted || config.common.postExecutionAlerts then s
    else s.(telemetry := s.telemetry + [UnsupportedPostExecutionMode])
  }

  function Finish(env: Env, config: FastMcpConfig, call: Call, run: Run, s: State): (State, Reply)
  {
    match call.ending
    case Cancelled =>
      if run.admissionRef.None? then (s, CallCancelled)
      else
        Interrupted(env, config, call, run, run.admissionRef.value, Indeterminate, None, CANCELLATION_FACTS,
                    CallCancelled, s)
    case Raised(className, _, isConnection) =>
      if run.admissionRef.None? then (s, ToolRaised(className, isConnection))
      else
        Interrupted(env, config, call, run, run.admissionRef.value, ExceptionToken, Some(className), map[],
                    ToolRaised(className, isConnection), s)
    case Returned(result, projectionFault) =>
      if run.admissionRef.None? then (s, ToolReturned(result))
      else
        var ref := run.admissionRef.value;
        if result.TaskResult? then
          var (s', accepted) := EmitPlanned(env, config, call, run, ref, Observation(TaskSubmitted, None), None, s);
          (AlertIfUnsupported(config, accepted, s'), ToolReturned(result))
        else if projectionFault.Some? then
          (s.(telemetry := s.telemetry +
              [GapEvent(config.common, call, OutcomeKind, Some(ResultReturned), Some(ref), projectionFault.value)]),
           ToolReturned(result))
        else
          var p := ProjectResult(result);
          var observation := Observation(if p.isError then ErrorOutcome else ResultOutcome, None);
          var (s', accepted) := EmitPlanned(env, config, call, run, ref, observation,
                                            Some(env.digest(ProjectionJson(p))), s);
          (AlertIfUnsupported(config, accepted, s'), ToolReturned(result))
  }

  // The cancellation and exception arms.
  function Interrupted(
    env: Env, config: FastMcpConfig, call: Call, run: Run, admissionRef: string,
    token: OutcomeToken, exceptionClass: Option<string>, owned: map<Key, bool>, reply: Reply, s: State): (State, Reply)
    requires call.ending.Raised? || call.ending.Cancelled?
  {
    match ProjectCoreOutcome(run.plan, Observe(call.ending), token, owned)
    case None => (s, ProjectionDiverged)
    case Some(projected) =>
      var (s', _) := TryOutcome(env, config.common, call, run.policy, FastMcpVersion,
                                OutcomeBody(admissionRef, projected.token, None, projected.owned), exceptionClass, s);
      (s', reply)
  }

  /** The whole call: admitted from s, its outcome recorded from `resumed`. */
  function TraceOf(env: Env, config: FastMcpConfig, call: Call, s: State, resumed: State): CallTrace
  {
    var (admitted, progress) := Admit(env, config, call, s);
    var captured, failed := Seen(s.world, admitted.world), WriteFailed(s.world, admitted.world);
    match progress
    case Stopped(reply) => CallTrace(admitted, admitted, captured, failed, reply, false)
    case Running(run) =>
      var (finished, reply) := Finish(env, config, call, run, resumed);
      CallTrace(admitted, finished, captured + Seen(resumed.world, finished.world),
                failed || WriteFailed(resumed.world, finished.world), reply, true)
  }

  class DAGRMiddleware {
    const trail: ReceiptTrail
    const config: FastMcpConfig

    ghost predicate Valid()
    {
      trail.Valid() && trail.config == config.common && trail.version == FastMcpVersion
    }

    ghost function Footprint(): set<object>
    {
      {this} + trail.Footprint()
    }

    ghost function View(): State
      reads trail, trail.emitter.source, trail.emitter.observer.inner
    {
      trail.View()
    }

    constructor (emitter: SignedReceiptEmitter, config: FastMcpConfig)
      requires emitter.Valid()
      ensures Valid() && this.config == config && trail.emitter == emitter && fresh(trail)
      ensures trail.localTelemetry == []
    {
      this.config := config;
      trail := new ReceiptTrail(emitter, config.common, FastMcpVersion);
    }

    method ProjectTerminalAdmission(call: Call, policy: BindingPolicy, plan: AdmissionPlan, reviewRef: Option<string>)
      returns (reply: Reply)
      requires Valid() && plan.record.Some?
      modifies trail.Footprint()
      ensures (View(), reply) == Terminal(trail.emitter.env, config, call, policy, plan, reviewRef, old(View()))
      ensures trail.emitter.Observed(old(trail.emitter.View()), trail.emitter.View())
    {
      var record := plan.record.value;
      var token := ProjectDisposition(record.disposition);
      if record.disposition == Refused {
        var reason := BindingReasonCode(policy);
        if plan.requested == Deferred && record.reasonCode.Some? {
          reason := GroundCode(record.reasonCode.value);
        }
        var _ := trail.EmitAdmission(call, policy, AdmissionOf(config.common, call, token, None, None, Some(reason)));
        return RefusedByPolicy;
      }
      var ref := trail.EmitAdmission(call, policy,
                                     AdmissionOf(config.common, call, token, reviewRef, record.retryContract, None));
      if ref.None? {
        return ReviewReceiptUnavailable;
      }
      reply := DeferredForReview(if reviewRef.Some? then reviewRef.value else "");
    }

    /** on_call_tool up to the await of the tool. */
    method AdmitCall(call: Call) returns (progress: Progress)
      requires Valid()
      modifies trail.Footprint()
      ensures (View(), progress) == Admit(trail.emitter.env, config, call, old(View()))
      ensures trail.emitter.Observed(old(trail.emitter.View()), trail.emitter.View())
    {
      var resolved := ResolvePolicy(config, call);
      if resolved.None? {
        return Stopped(PolicyError);
      }
      var policy := resolved.value;
      var reviewRef: Option<string> := None;
      var reviewCreated: Option<bool> := None;
      if ToNeutral(policy.disposition) == Deferred {
        var created := CreateReview(call.review);
        match created {
          case Ok(ref) =>
            reviewRef, reviewCreated := Some(ref), Some(true);
          case Err(className) =>
            trail.RecordReviewFailure(call, className);
            reviewCreated := Some(false);
        }
      }
      var plan := Plan(config.common, policy, reviewCreated);
      if !plan.proceeds {
        var reply := ProjectTerminalAdmission(call, policy, plan, reviewRef);
        return Stopped(reply);
      }
      var admissionRef: Option<string> := None;
      if plan.recorded {
        admissionRef := trail.EmitAdmission(call, policy,
                                            AdmissionOf(config.common, call, AdmittedToken, None, None, None));
        if admissionRef.None? && PreExecutionMode(config.common, policy.toolClass) == FailClosed {
          return Stopped(AdmissionUnavailable);
        }
      }
      progress := Running(Run(policy, plan, admissionRef));
    }

    method EmitPlannedOutcome(
      call: Call, run: Run, admissionRef: string, observation: Observation, digest: Option<string>)
      requires Valid()
      modifies trail.Footprint()
      ensures View() ==
              var (s, accepted) := EmitPlanned(trail.emitter.env, config, call, run, admissionRef, observation, digest,
                                               old(View()));
              AlertIfUnsupported(config, accepted, s)
      ensures trail.emitter.Observed(old(trail.emitter.View()), trail.emitter.View())
    {
      var planned := PlanOutcome(run.plan, observation);
      if planned.Err? || planned.value.record.None? {
        return;
      }
      var record := planned.value.record.value;
      var token := ProjectOutcome(record.outcome);
      if token.None? {
        return;
      }
      var body := OutcomeBody(admissionRef, token.value, if record.carriesResultDigest then digest else None, map[]);
      var accepted := trail.EmitOutcome(call, run.policy, body, None);
      if !accepted && !config.common.postExecutionAlerts {
        trail.localTelemetry := trail.localTelemetry + [UnsupportedPostExecutionMode];
      }
    }

    method EmitInterrupted(
      call: Call, run: Run, admissionRef: string, token: OutcomeToken, exceptionClass: Option<string>,
      owned: map<Key, bool>, original: Reply) returns (reply: Reply)
      requires Valid() && (call.ending.Raised? || call.ending.Cancelled?)
      modifies trail.Footprint()
      ensures (View(), reply) ==
              Interrupted(trail.emitter.env, config, call, run, admissionRef, token, exceptionClass, owned, original,
                          old(View()))
      ensures trail.emitter.Observed(old(trail.emitter.View()), trail.emitter.View())
    {
      var projected := ProjectCoreOutcome(run.plan, Observe(call.ending), token, owned);
      if projected.None? {
        return ProjectionDiverged;
      }
      var body := OutcomeBody(admissionRef, projected.value.token, None, projected.value.owned);
      var _ := trail.EmitOutcome(call, run.policy, body, exceptionClass);
      reply := original;
    }

    /** on_call_tool from the tool's ending on. */
    method FinishCall(call: Call, run: Run) returns (reply: Reply)
      requires Valid()
      modifies trail.Footprint()
      ensures (View(), reply) == Finish(trail.emitter.env, config, call, run, old(View()))
      ensures trail.emitter.Observed(old(trail.emitter.View()), trail.emitter.View())
    {
      match call.ending {
        case Cancelled =>
          reply := CallCancelled;
          if run.admissionRef.Some? {
            reply := EmitInterrupted(call, run, run.admissionRef.value, Indeterminate, None, CANCELLATION_FACTS, reply);
          }
        case Raised(className, _, isConnection) =>
          reply := ToolRaised(className, isConnection);
          if run.admissionRef.Some? {
            reply := EmitInterrupted(call, run, run.admissionRef.value, ExceptionToken, Some(className), map[], reply);
          }
        case Returned(result, projectionFault) =>
          reply := ToolReturned(result);
          if run.admissionRef.None? {
            return;
          }
          var ref := run.admissionRef.value;
          if result.TaskResult? {
            EmitPlannedOutcome(call, run, ref, Observation(TaskSubmitted, None), None);
          } else if projectionFault.Some? {
            trail.RecordReceiptFailure(call, OutcomeKind, Some(ResultReturned), Some(ref), projectionFault.value);
          } else {
            var p := ProjectResult(result);
            var observation := Observation(if p.isError then ErrorOutcome else ResultOutcome, None);
            EmitPlannedOutcome(call, run, ref, observation, Some(trail.emitter.env.digest(ProjectionJson(p))));
          }
      }
    }

    // The tool and what follows it. `resumed` is the shared state the tool's
    // ending finds, which other calls may have moved on in the meantime.
    method RunTool(call: Call, run: Run, tool: Tool) returns (reply: Reply, ghost resumed: State)
      requires Valid()
      modifies trail.Footprint(), tool
      ensures (View(), reply) == Finish(trail.emitter.env, config, call, run, resumed)
      ensures Grown(old(View()), resumed) && tool.runs == old(tool.runs) + 1
      ensures trail.emitter.Observed(resumed.world, View().world)
    {
      var _ := tool.Run(call, trail);
      resumed := View();
      label Resumed:
      reply := FinishCall(call, run);
      assert trail.emitter.Observed@Resumed(resumed.world, View().world);
    }

    /** The whole of on_call_tool. */
    method OnCallTool(call: Call, tool: Tool) returns (reply: Reply, ghost trace: CallTrace, ghost resumed: State)
      requires Valid()
      modifies trail.Footprint(), tool
      ensures trace == TraceOf(trail.emitter.env, config, call, old(View()), resumed)
      ensures trace.ran ==> Grown(trace.admitted, resumed)
      ensures View() == trace.after && reply == trace.reply && tool.runs == old(tool.runs) + trace.Runs()
      ensures trail.emitter.observer.captured == old(trail.emitter.observer.captured) + trace.captured
      ensures trail.emitter.observer.writeFailed == (old(trail.emitter.observer.writeFailed) || trace.writeFailed)
    {
      ghost var s := View();
      var progress := AdmitCall(call);
      ghost var admitted := View();
      resumed := admitted;
      if progress.Stopped? {
        reply := progress.reply;
        trace := CallTrace(admitted, admitted, Seen(s.world, admitted.world), WriteFailed(s.world, admitted.world),
                           reply, false);
      } else {
        reply, resumed := RunTool(call, progress.run, tool);
        AppendAssociates(old(trail.emitter.observer.captured), Seen(s.world, admitted.world),
                         Seen(resumed.world, View().world));
        trace := CallTrace(admitted, View(), Seen(s.world, admitted.world) + Seen(resumed.world, View().world),
                           WriteFailed(s.world, admitted.world)
                               || WriteFailed(resumed.world, View().world), reply, true);
      }
    }
  }
}
