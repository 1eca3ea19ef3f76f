/** The gateway (dagr_mcp_service/adapter.py, contract.py): it drives one call
    through a binding whose writes it watches, and rebuilds the decision from
    what it saw written. */
module GatewayAdapter {
  import opened Prelude
  import opened Lifecycle
  import opened Receipts
  import opened Binding
  import opened Protocol
  import Fast = FastMcpBinding
  import Sdk = SdkBinding

  /** The closed diagnostic vocabulary of a response. */
  datatype DiagnosticCode =
    | UnknownBinding | BindingUnavailable | MalformedRequest | RemoteUnavailable | ToolErrorCode
    | RemoteException | DeferredForReviewCode | CancelledCode | UnsupportedLifecycleState
    | RefusalGround(ground: Ground)

  datatype GovernedCallRequest = GovernedCallRequest(
    requestRef: string, argumentDigest: string, selectorKey: string, parentReceiptRef: Option<string>)

  datatype ReceiptHandle = ReceiptHandle(receiptId: string, kind: ReceiptKindName)

  datatype BusinessResult = BusinessResult(isError: bool, payload: ToolResult)

  datatype GovernedCallResponse = GovernedCallResponse(
    requestRef: string, logicalCallId: string,
    disposition: Disposition, outcome: Option<Outcome>,
    businessResult: Option<BusinessResult>, receipts: seq<ReceiptHandle>,
    reviewObjectRef: Option<string>, retryInstruction: Option<string>,
    diagnostic: Option<DiagnosticCode>, cancellationFacts: bool)

  /** How the gateway's caller sees a call end: a response, the response
      constructor's own error, or the binding's exception passed on. */
  datatype Execution = Responded(response: GovernedCallResponse) | ConstructorRejected | Propagated(reply: Reply)

  // GovernedDecision, ReceiptHandle, BusinessResult and GovernedCallResponse
  // accept their fields.
  predicate Constructible(r: GovernedCallResponse)
  {
    && !Blank(r.requestRef) && !Blank(r.logicalCallId)
    && (r.reviewObjectRef.Some? ==> !Blank(r.reviewObjectRef.value))
    && (r.retryInstruction.Some? ==> !Blank(r.retryInstruction.value))
    && (forall i | 0 <= i < |r.receipts| :: !Blank(r.receipts[i].receiptId))
    && |r.receipts| <= Cardinality(r.disposition)
    && (r.outcome.Some? ==> r.disposition == Admitted)
    && (r.businessResult.Some? ==>
          r.disposition == Admitted && (r.outcome == Some(ResultOutcome) || r.outcome == Some(ErrorOutcome)))
    && (r.cancellationFacts ==> r.outcome == Some(Cancellation))
    && (r.retryInstruction == Some(RETRY_CONTRACT) ==> r.disposition == Deferred)
  }

  function Construct(r: GovernedCallResponse): Execution
  {
    if Constructible(r) then Responded(r) else ConstructorRejected
  }

  function HandleOf(c: Captured): ReceiptHandle
  {
    ReceiptHandle(c.receiptId, c.kind)
  }

  function HandlesOf(captured: seq<Captured>): seq<ReceiptHandle>
  {
    seq(|captured|, i requires 0 <= i < |captured| => HandleOf(captured[i]))
  }

  // A response with nothing but a decision.
  function Plain(
    request: GovernedCallRequest, disposition: Disposition, outcome: Option<Outcome>,
    receipts: seq<ReceiptHandle>, diagnostic: Option<DiagnosticCode>): GovernedCallResponse
  {
    GovernedCallResponse(request.requestRef, request.requestRef, disposition, outcome, None, receipts, None, None,
                         diagnostic, false)
  }

  // _refusal_diagnostic
  function RefusalDiagnostic(reasonCode: Option<string>): DiagnosticCode
  {
    RefusalGround(
      if reasonCode.None? then PolicyRefused
      else match GroundOf(reasonCode.value) case Some(g) => g case None => PolicyRefused)
  }

  // getattr(raw_result, "is_error", getattr(raw_result, "isError", False))
  predicate RawIsError(result: ToolResult)
  {
    result.ObjectResult? && result.isError
  }

  // _classify when the binding returned.
  function ClassifyReturned(
    request: GovernedCallRequest, captured: seq<Captured>, result: ToolResult): GovernedCallResponse
  {
    var receipts := HandlesOf(captured);
    var recorded := if |captured| >= 2 && captured[1].kind == OutcomeKind then captured[1].outcome else None;
    if recorded == Some(TaskSubmittedToken) then Plain(request, Admitted, Some(TaskSubmitted), receipts, None)
    else
      var isError := if recorded.Some? then recorded.value == ErrorReturned else RawIsError(result);
      Plain(request, Admitted, Some(if isError then ErrorOutcome else ResultOutcome), receipts, None)
        .(businessResult := Some(BusinessResult(isError, result)))
  }

  // _classify when the binding raised; None is its own RuntimeError.
  function ClassifyRaised(
    request: GovernedCallRequest, captured: seq<Captured>, raised: Reply): Option<GovernedCallResponse>
  {
    var receipts := HandlesOf(captured);
    if raised.CallCancelled? then
      Some(Plain(request, Admitted, Some(Cancellation), receipts, Some(CancelledCode)).(cancellationFacts := true))
    else if |captured| == 0 then
      Some(Plain(request, Refused, None, [], Some(RefusalGround(RequiredSinkUnavailable))))
    else
      match captured[0].disposition
      case Some(RefusedToken) => Some(Plain(request, Refused, None, receipts,
                                            Some(RefusalDiagnostic(captured[0].reasonCode))))
      case Some(DeferredForReviewToken) =>
        Some(Plain(request, Deferred, None, receipts, Some(DeferredForReviewCode))
               .(reviewObjectRef := captured[0].reviewObjectRef, retryInstruction := Some(RETRY_CONTRACT)))
      case Some(AdmittedToken) =>
        Some(Plain(request, Admitted, Some(ExceptionOutcome), receipts,
                   Some(if raised.ToolRaised? && raised.isConnection then RemoteUnavailable else RemoteException)))
      case None => None
  }

  /** What the gateway answers to a call it watched. */
  function Respond(request: GovernedCallRequest, trace: CallTrace): Execution
  {
    match trace.reply
    case ToolReturned(result) => Construct(ClassifyReturned(request, trace.captured, result))
    case TaskUnsupported =>
      Construct(Plain(request, Admitted, None, HandlesOf(trace.captured), Some(UnsupportedLifecycleState)))
    case raised =>
      if !raised.CallCancelled? && |trace.captured| == 0 && !trace.writeFailed then Propagated(raised)
      else
        match ClassifyRaised(request, trace.captured, raised)
        case Some(response) => Construct(response)
        case None => Propagated(raised)
  }

  // The binding configuration a request is served under.
  function ConfigFor(request: GovernedCallRequest, config: BindingConfig): BindingConfig
  {
    config.(parentReceiptRef := if request.parentReceiptRef.Some? then request.parentReceiptRef
            else config.parentReceiptRef)
  }

  // The gateway never sets the operator-admission seam.
  function FastConfigFor(request: GovernedCallRequest, config: BindingConfig): Fast.FastMcpConfig
  {
    Fast.FastMcpConfig(ConfigFor(request, config), false, {}, {})
  }

  function JobFor(request: GovernedCallRequest, config: BindingConfig, version: BindingVersion, call: Call): Job
  {
    Job(if version == FastMcpVersion then FastMcp(FastConfigFor(request, config))
        else OfficialSdk(ConfigFor(request, config)), call)
  }

  function TraceOf(env: Env, job: Job, s: State, resumed: State): CallTrace
  {
    match job.setup
    case FastMcp(config) => Fast.TraceOf(env, config, job.call, s, resumed)
    case OfficialSdk(config) => Sdk.TraceOf(env, config, job.call, s, resumed)
  }

  method ExecuteViaFastMcp(
    request: GovernedCallRequest, call: Call, config: BindingConfig, sink: ReceiptSink, source: IdentifierSource,
    tool: Tool)
    returns (e: Execution, ghost trace: CallTrace, ghost resumed: State)
    modifies sink, source, tool
    ensures trace == TraceOf(sink.env, JobFor(request, config, FastMcpVersion, call),
                             State(World(old(sink.log), old(sink.attempts), old(source.minted)), []), resumed)
    ensures e == Respond(request, trace)
    ensures World(sink.log, sink.attempts, source.minted) == trace.after.world
    ensures tool.runs == old(tool.runs) + trace.Runs()
  {
    var capturing := new CapturingSink(sink);
    var emitter := new SignedReceiptEmitter(sink.env, capturing, source);
    var middleware := new Fast.DAGRMiddleware(emitter, FastConfigFor(request, config));
    var reply;
    reply, trace, resumed := middleware.OnCallTool(call, tool);
    e := Answer(request, capturing, reply);
    assert capturing.captured == trace.captured;
  }

  method ExecuteViaSdk(
    request: GovernedCallRequest, call: Call, config: BindingConfig, sink: ReceiptSink, source: IdentifierSource,
    tool: Tool)
    returns (e: Execution, ghost trace: CallTrace, ghost resumed: State)
    modifies sink, source, tool
    ensures trace == TraceOf(sink.env, JobFor(request, config, OfficialSdkV01, call),
                             State(World(old(sink.log), old(sink.attempts), old(source.minted)), []), resumed)
    ensures e == Respond(request, trace)
    ensures World(sink.log, sink.attempts, source.minted) == trace.after.world
    ensures tool.runs == old(tool.runs) + trace.Runs()
  {
    var capturing := new CapturingSink(sink);
    var emitter := new SignedReceiptEmitter(sink.env, capturing, source);
    var adapter := new Sdk.SdkLifecycleAdapter(emitter, ConfigFor(request, config));
    var reply;
    reply, trace, resumed := adapter.GovernedCall(call, tool);
    e := Answer(request, capturing, reply);
    assert capturing.captured == trace.captured;
  }

  // The try/except around the binding: what its reply and the capturing sink
  // come to, whatever else the trace holds.
  method Answer(request: GovernedCallRequest, capturing: CapturingSink, reply: Reply) returns (e: Execution)
    ensures forall trace: CallTrace ::
              trace.captured == capturing.captured && trace.writeFailed == capturing.writeFailed
                  && trace.reply == reply ==>
                e == Respond(request, trace)
  {
    if reply.ToolReturned? {
      e := Construct(ClassifyReturned(request, capturing.captured, reply.result));
    } else if reply.TaskUnsupported? {
      e := Construct(Plain(request, Admitted, None, HandlesOf(capturing.captured), Some(UnsupportedLifecycleState)));
    } else if !reply.CallCancelled? && |capturing.captured| == 0 && !capturing.writeFailed {
      e := Propagated(reply);
    } else {
      var response := ClassifyRaised(request, capturing.captured, reply);
      e := if response.Some? then Construct(response.value) else Propagated(reply);
    }
  }

  // select_binding: one lookup and one availability probe, no substitution.
  function SelectBinding(
    registry: map<string, BindingVersion>, key: string, available: BindingVersion -> bool)
    : Result<BindingVersion, DiagnosticCode>
  {
    if key !in registry || (registry[key] != FastMcpVersion && registry[key] != OfficialSdkV01) then Err(UnknownBinding)
    else if !available(registry[key]) then Err(BindingUnavailable)
    else Ok(registry[key])
  }

  // The gateway answers a refusal with this diagnostic and nothing else; a
  // request without a reference cannot be answered at all.
  predicate RefusedWith(request: GovernedCallRequest, e: Execution, code: DiagnosticCode)
  {
    if Blank(request.requestRef) then e == ConstructorRejected
    else
      e == Responded(GovernedCallResponse(request.requestRef, request.requestRef, Refused, None, None, [], None, None,
                                          Some(code), false))
  }

  // The binding the registry names for a key is one the gateway has.
  predicate Registered(registry: map<string, BindingVersion>, key: string)
  {
    key in registry && registry[key] in {FastMcpVersion, OfficialSdkV01}
  }

  /** execute_governed_call. `target` is the connector's refusal, if any. A
      request whose arguments have another digest than it names, whose selector
      is unknown or unavailable, or whose target is refused is answered with the
      first such reason, and runs no tool and touches neither the sink nor the
      identifiers; any other is served by the binding its selector names, under
      its own parent reference if it has one. */
  method ExecuteGovernedCall(
    request: GovernedCallRequest, argumentsDigest: string, call: Call, config: BindingConfig,
    registry: map<string, BindingVersion>, available: BindingVersion -> bool, target: Option<DiagnosticCode>,
    sink: ReceiptSink, source: IdentifierSource, tool: Tool)
    returns (e: Execution, ghost trace: CallTrace, ghost resumed: State)
    modifies sink, source, tool
    ensures argumentsDigest != request.argumentDigest ==> RefusedWith(request, e, MalformedRequest)
    ensures argumentsDigest == request.argumentDigest ==>
              && (!Registered(registry, request.selectorKey) ==> RefusedWith(request, e, UnknownBinding))
              && (Registered(registry, request.selectorKey) ==>
                    && (!available(registry[request.selectorKey]) ==> RefusedWith(request, e, BindingUnavailable))
                    && (available(registry[request.selectorKey]) && target.Some? ==>
                          RefusedWith(request, e, target.value)))
    ensures if argumentsDigest == request.argumentDigest && Registered(registry, request.selectorKey)
               && available(registry[request.selectorKey]) && target.None? then
              && trace == TraceOf(sink.env, JobFor(request, config, registry[request.selectorKey], call),
                                  State(World(old(sink.log), old(sink.attempts), old(source.minted)), []), resumed)
              && e == Respond(request, trace)
              && World(sink.log, sink.attempts, source.minted) == trace.after.world
              && tool.runs == old(tool.runs) + trace.Runs()
            else
              && sink.log == old(sink.log) && sink.attempts == old(sink.attempts) && source.minted == old(source.minted)
              && tool.runs == old(tool.runs)
  {
    if argumentsDigest != request.argumentDigest {
      e, trace, resumed := RefuseEarly(request, MalformedRequest, sink, source);
      return;
    }
    var binding := SelectBinding(registry, request.selectorKey, available);
    if binding.Err? {
      e, trace, resumed := RefuseEarly(request, binding.error, sink, source);
    } else if target.Some? {
      e, trace, resumed := RefuseEarly(request, target.value, sink, source);
    } else if binding.value == FastMcpVersion {
      e, trace, resumed := ExecuteViaFastMcp(request, call, config, sink, source, tool);
    } else {
      e, trace, resumed := ExecuteViaSdk(request, call, config, sink, source, tool);
    }
  }

  method RefuseEarly(request: GovernedCallRequest, code: DiagnosticCode, sink: ReceiptSink, source: IdentifierSource)
    returns (e: Execution, ghost trace: CallTrace, ghost resumed: State)
    ensures RefusedWith(request, e, code)
  {
    e := Construct(Plain(request, Refused, None, [], Some(code)));
    resumed := State(World(sink.log, sink.attempts, source.minted), []);
    trace := CallTrace(resumed, resumed, [], false, PolicyError, false);
  }

  /** What the gateway configures a binding with: the request's own parent
      reference before the configured one, no operator seam, and the selected
      binding. */
  lemma JobIsServed(request: GovernedCallRequest, config: BindingConfig, version: BindingVersion, call: Call)
    requires version in {FastMcpVersion, OfficialSdkV01}
    ensures var job := JobFor(request, config, version, call);
            && job.call == call && VersionOf(job) == version
            && ConfigOf(job).(parentReceiptRef := None) == config.(parentReceiptRef := None)
            && (request.parentReceiptRef.Some? ==> ConfigOf(job).parentReceiptRef == request.parentReceiptRef)
            && (request.parentReceiptRef.None? ==> ConfigOf(job).parentReceiptRef == config.parentReceiptRef)
            && (version == FastMcpVersion ==> job.setup.FastMcp? && Fast.OperatorSeamUnset(job.setup.fast))
  {}

  /** Which responses can be built at all, disposition by disposition: only an
      admitted one has an outcome, two receipts or a business result, that only
      for a result or an error, and cancellation facts come with a cancellation;
      a retry after approval is asked of a deferral only; and nothing that names
      something is blank. */
  lemma ConstructorIsTold(r: GovernedCallResponse)
    ensures Construct(r).Responded? <==>
            && !Blank(r.requestRef) && !Blank(r.logicalCallId)
            && r.reviewObjectRef != Some("") && r.retryInstruction != Some("")
            && (forall text | r.reviewObjectRef == Some(text) || r.retryInstruction == Some(text) :: !Blank(text))
            && (forall h | h in r.receipts :: !Blank(h.receiptId))
            && match r.disposition
               case Admitted =>
                 && |r.receipts| <= 2 && r.retryInstruction != Some("retry_after_approval")
                 && (match r.outcome
                     case Some(ResultOutcome) | Some(ErrorOutcome) => !r.cancellationFacts
                     case Some(Cancellation) => r.businessResult.None?
                     case _ => r.businessResult.None? && !r.cancellationFacts)
               case Refused =>
                 && |r.receipts| <= 1 && r.outcome.None? && r.businessResult.None? && !r.cancellationFacts
                 && r.retryInstruction != Some("retry_after_approval")
               case Deferred =>
                 |r.receipts| <= 1 && r.outcome.None? && r.businessResult.None? && !r.cancellationFacts
    ensures Construct(r).Responded? ==> Construct(r).response == r
  {
    assert Blank("");
  }
}
