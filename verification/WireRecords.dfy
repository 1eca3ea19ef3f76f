/** What the records of a run say on the wire, member by member and text by text,
    told from the configuration, the request, the resolvers' answers and the
    tool's ending of the call that wrote them. */
module WireRecords {
  import opened Prelude
  import opened JsonTrees
  import opened Lifecycle
  import opened Receipts
  import opened Binding
  import opened Protocol
  import opened ReceiptStore
  import Conservation
  import RoundTrip

  // ---- What a call has to say ----------------------------------------------

  // An optional text that is left out when it is empty.
  function TextOrNull(text: Option<string>): Json
  {
    match text case Some(t) => if t == "" then Null else Str(t) case None => Null
  }

  // The policy's own parent comes before the configured one.
  function ParentTold(job: Job): Option<string>
  {
    if ConfigOf(job).hasPolicyResolver && job.call.policyAnswer.Answered?
       && job.call.policyAnswer.policy.parentReceiptRef.Some? then job.call.policyAnswer.policy.parentReceiptRef
    else ConfigOf(job).parentReceiptRef
  }

  // Who and where: the same on every record of the call.
  predicate TellsCall(job: Job, m: map<Key, Json>)
  {
    var config, snapshot, actor := ConfigOf(job), job.call.snapshot, job.call.actor;
    && Get(m, Known(RuntimeInstanceId)) == Str(config.runtimeInstanceId)
    && Get(m, Known(BoundaryId)) == Str(config.boundaryId)
    && Get(m, Known(LogicalCallId)) == Str(snapshot.logicalCallId)
    && Get(m, Known(SubjectRef)) == Str(snapshot.subjectRef)
    && Get(m, Known(ActorRef)) == TextOrNull(Some(actor.actorRef))
    && Get(m, Known(TenantId)) == TextOrNull(actor.tenantId)
    && Get(m, Known(WorkspaceId)) == TextOrNull(actor.workspaceId)
    && Get(m, Known(ParentReceiptRef)) == TextOrNull(ParentTold(job))
  }

  function OriginTold(origin: Option<Origin>): Json
  {
    match origin
    case None => Null
    case Some(SuppliedSubject) => Str("supplied_subject")
    case Some(DerivedFromSession) => Str("derived_from_session")
    case Some(DerivedFromRequest) => Str("derived_from_request")
    case Some(DerivedFromSuppliedCorrelation) => Str("derived_from_supplied_correlation")
    case Some(BindingMinted) => Str("binding_minted")
  }

  // Where the subject comes from, and what the record covers and leaves out.
  predicate TellsCoverage(job: Job, m: map<Key, Json>, covered: string)
  {
    && Get(m, Known(SubjectRefOrigin)) == OriginTold(job.call.snapshot.subjectRefOrigin)
    && Get(m, Known(ArtifactClassesCovered)) == Arr([Str(covered)])
    && Get(m, Known(ArtifactClassesExcluded)) ==
       Arr([Str("raw_prompt"), Str("raw_output"), Str("raw_tool_arguments"), Str("raw_tool_result")])
    && Get(m, Known(RetentionClassApplied)) == Str("hash_only")
  }

  // The extension names the binding, and the class an interrupted tool raised.
  predicate TellsExtension(job: Job, m: map<Key, Json>, exceptionClass: Option<string>)
  {
    && Get(m, Known(Extensions)).Obj?
    && Get(Get(m, Known(Extensions)).members, Known(Mcp)).Obj?
    && var mcp := Get(Get(m, Known(Extensions)).members, Known(Mcp)).members;
       && Get(mcp, Known(BindingVersion)) ==
          Str(if job.setup.FastMcp? then "fastmcp.middleware.v0.1" else "official-mcp-sdk.python.v0.1")
       && Get(mcp, Known(ExceptionClass)) == TextOrNull(exceptionClass)
  }

  // Why a call that is neither admitted nor deferred is refused.
  function ReasonTold(job: Job): string
  {
    if ConfigOf(job).hasPolicyResolver && job.call.policyAnswer.Answered? then
      var policy := job.call.policyAnswer.policy;
      if policy.disposition == DeferredForReviewToken then "review_object_creation_failed"
      else match policy.reasonCode case Some(code) => if code == "" then "policy_refused" else code
                                   case None => "policy_refused"
    else "policy_refused"
  }

  // The admission record: what was asked for, under which policy, and what became
  // of it.
  predicate TellsAdmission(job: Job, m: map<Key, Json>)
  {
    var config, snapshot := ConfigOf(job), job.call.snapshot;
    && Get(m, Known(ReceiptKind)) == Str("admission")
    && Get(m, Known(RequestedToolName)) == Str(snapshot.toolName)
    && Get(m, Known(ArgumentDigest)) == Str(snapshot.argumentsDigest)
    && Get(m, Known(PolicyPackId)) == Str(config.policyPackId)
    && Get(m, Known(PolicyPackVersion)) == Str(config.policyPackVersion)
    && Get(m, Known(ToolResolutionStatus)) == Str("not_observed")
    && TellsDisposition(job, m)
  }

  predicate TellsDisposition(job: Job, m: map<Key, Json>)
  {
    && Get(m, Known(DispositionField)) ==
       Str(if Admits(job) then "admitted" else if Defers(job) then "deferred_for_review" else "refused")
    && Get(m, Known(ReviewObjectRef)) == (if Defers(job) then Str(job.call.review.ref) else Null)
    && Get(m, Known(RetryContract)) == (if Defers(job) then Str("retry_after_approval") else Null)
    && Get(m, Known(ReasonCode)) == (if Admits(job) || Defers(job) then Null else Str(ReasonTold(job)))
  }

  // What the language takes for false.
  predicate Falsy(v: Json)
  {
    v == Null || v == Bool(false) || v == Num(0) || v == Str("") || v == Arr([]) || v == Obj(map[])
  }

  // The projection of a result whose digest is recorded.
  function ProjectedTold(job: Job, result: ToolResult): Json
  {
    match result
    case ObjectResult(content, structured, meta, isError) =>
      var given := if content.Some? then content.value else Null;
      Obj(map[Known(Content) := if given == Null && content.None? then Arr([])
                                else if job.setup.OfficialSdk? && Falsy(given) then Arr([]) else given,
              Known(StructuredContent) := structured, Known(Meta) := meta, Known(IsError) := Bool(isError)])
    case MappingResult(members) =>
      Obj(map[Known(Content) := Arr([]),
              Known(StructuredContent) := if job.setup.OfficialSdk? then Obj(members) else Null,
              Known(Meta) := Null, Known(IsError) := Bool(false)])
    case SequenceResult(items) =>
      Obj(map[Known(Content) := Arr(if job.setup.OfficialSdk? then items else []),
              Known(StructuredContent) := Null, Known(Meta) := Null, Known(IsError) := Bool(false)])
    case TaskResult => Null
  }

  // The outcome record: how the tool ended.
  predicate TellsOutcome(env: Env, job: Job, m: map<Key, Json>)
  {
    var ending := job.call.ending;
    var cancelled := if ending.Cancelled? then Bool(true) else Null;
    && Get(m, Known(ReceiptKind)) == Str("outcome")
    && Get(m, Known(OutcomeField)) ==
       Str(match ending
           case Cancelled => "indeterminate"
           case Raised(_, _, _) => "exception"
           case Returned(result, _) =>
             if result.TaskResult? then "task_submitted"
             else if result.ObjectResult? && result.isError then "error_returned" else "result_returned")
    && Get(m, Known(ResultDigest)) ==
       (if ending.Returned? && !ending.result.TaskResult? then
          TextOrNull(Some(env.digest(ProjectedTold(job, ending.result)))) else Null)
    && Get(m, Known(RequestCancelled)) == cancelled && Get(m, Known(ExecutionStateUnknown)) == cancelled
    && Get(m, Known(DeliveryIncomplete)) == cancelled
  }

  /** The record tells the call: who asked for what where, and what became of it. */
  predicate Tells(env: Env, job: Job, m: map<Key, Json>)
  {
    && TellsCall(job, m)
    && ((TellsAdmission(job, m) && TellsCoverage(job, m, "tool_call_admission") && TellsExtension(job, m, None))
        || (Admits(job) && TellsOutcome(env, job, m) && TellsCoverage(job, m, "tool_call_outcome")
            && TellsExtension(job, m, if job.call.ending.Raised? then Some(job.call.ending.className) else None)))
  }

  // ---- The envelopes of a run ----------------------------------------------

  function AdmissionBodyOf(job: Job): (body: Body)
    requires PolicyOf(job).Some?
    ensures body.AdmissionBody?
  {
    var config, call, policy := ConfigOf(job), job.call, PolicyOf(job).value;
    if PlanOf(job).record.None? || PlanOf(job).proceeds then AdmissionOf(config, call, AdmittedToken, None, None, None)
    else TerminalBody(config, call, policy, PlanOf(job), ReviewOf(call, policy).0)
  }

  // The envelope is one this call makes, whole.
  predicate MadeBy(env: Env, job: Job, e: Envelope)
  {
    && PolicyOf(job).Some? && IdentityIn(e) == JobIdentity(job)
    && if e.body.AdmissionBody? then e.exceptionClass.None? && e.body == Normalized(AdmissionBodyOf(job))
       else
         && PolicyOf(job).value.disposition == AdmittedToken
         && e.exceptionClass == Present(EndingClass(job.call.ending))
         && e.body == Normalized(EndingBody(env, job, e.body.admissionRef))
  }

  ghost predicate AllMade(env: Env, jobs: seq<Job>, log: seq<Envelope>)
  {
    forall k | 0 <= k < |log| :: exists i | 0 <= i < |jobs| :: MadeBy(env, jobs[i], log[k])
  }

  lemma AdmitMakes(env: Env, job: Job, s: State)
    ensures var s' := Admit(env, job, s).0;
            s'.world.log == s.world.log
            || (|s'.world.log| > 0 && s'.world.log == s.world.log + [Newest(s')] && MadeBy(env, job, Newest(s')))
  {
    AdmitEffect(env, job, s);
    AdmitStops(env, job, s);
  }

  lemma AdmitStops(env: Env, job: Job, s: State)
    ensures PolicyOf(job).Some? ==> (Admit(env, job, s).1.Running? <== PlanOf(job).record.None?)
    ensures PolicyOf(job).Some? && PlanOf(job).proceeds ==> PolicyOf(job).value.disposition == AdmittedToken
    ensures PolicyOf(job).Some? && PolicyOf(job).value.disposition == AdmittedToken ==> PlanOf(job).proceeds
  {
    if PolicyOf(job).Some? {
      AdmitUnfolds(env, job, s);
    }
  }

  lemma FinishMakes(env: Env, job: Job, run: Run, s: State)
    requires RunOf(job, run)
    ensures var s' := Finish(env, job, run, s).0;
            s'.world.log == s.world.log
            || (|s'.world.log| > 0 && s'.world.log == s.world.log + [Newest(s')] && MadeBy(env, job, Newest(s')))
  {
    FinishEffect(env, job, run, s);
  }

  lemma StillMade(env: Env, jobs: seq<Job>, log: seq<Envelope>, e: Envelope, i: nat)
    requires AllMade(env, jobs, log) && i < |jobs| && MadeBy(env, jobs[i], e)
    ensures AllMade(env, jobs, log + [e])
  {
    var log' := log + [e];
    forall k | 0 <= k < |log'| ensures exists j | 0 <= j < |jobs| :: MadeBy(env, jobs[j], log'[k]) {
      if k < |log| {
        var j :| 0 <= j < |jobs| && MadeBy(env, jobs[j], log[k]);
      }
    }
  }

  lemma {:induction false} EveryEnvelopeIsMade(env: Env, jobs: seq<Job>, schedule: seq<nat>)
    ensures AllMade(env, jobs, Exec(env, jobs, schedule).state.world.log)
  {
    if |schedule| > 0 {
      var before, i := schedule[..|schedule| - 1], schedule[|schedule| - 1];
      EveryEnvelopeIsMade(env, jobs, before);
      Conservation.EveryRecordAccounted(env, jobs, before);
      var sys := Exec(env, jobs, before);
      if i < |jobs| {
        assert Conservation.PhaseSettled(jobs[i], sys.state, sys.phases[i]);
        match sys.phases[i] {
          case Waiting => AdmitMakes(env, jobs[i], sys.state);
          case InTool(run, _) => FinishMakes(env, jobs[i], run, sys.state);
          case Done(_, _, _, _, _) =>
        }
        var after := Protocol.Step(env, jobs, sys, i).state;
        if after.world.log != sys.state.world.log {
          StillMade(env, jobs, sys.state.world.log, Newest(after), i);
        }
      }
    }
  }

  // ---- Their records -------------------------------------------------------

  // The member under a name, as the reader gets it.
  function Shown(e: Envelope, f: Field): Json
  {
    Get(Render(e), Known(f))
  }

  function OrNull(text: Option<string>): Json
  {
    if text.Some? then Str(text.value) else Null
  }

  lemma PlaceShown(e: Envelope)
    ensures Shown(e, RuntimeInstanceId) == Str(e.runtimeInstanceId) && Shown(e, BoundaryId) == Str(e.boundaryId)
  {
    RoundTrip.GetRendered(e, RuntimeInstanceId);
    RoundTrip.GetRendered(e, BoundaryId);
  }

  lemma CallShown(e: Envelope)
    ensures Shown(e, LogicalCallId) == Str(e.logicalCallId) && Shown(e, SubjectRef) == Str(e.subjectRef)
  {
    RoundTrip.GetRendered(e, LogicalCallId);
    RoundTrip.GetRendered(e, SubjectRef);
  }

  lemma ActorShown(e: Envelope)
    ensures Shown(e, ActorRef) == OrNull(e.actorRef) && Shown(e, TenantId) == OrNull(e.tenantId)
  {
    RoundTrip.GetRendered(e, ActorRef);
    RoundTrip.GetRendered(e, TenantId);
  }

  lemma ParentShown(e: Envelope)
    ensures Shown(e, WorkspaceId) == OrNull(e.workspaceId) && Shown(e, ParentReceiptRef) == OrNull(e.parentReceiptRef)
  {
    RoundTrip.GetRendered(e, WorkspaceId);
    RoundTrip.GetRendered(e, ParentReceiptRef);
  }

  // What identifies the call in one of its envelopes.
  lemma CallInEnvelope(env: Env, job: Job, e: Envelope)
    requires MadeBy(env, job, e)
    ensures var config, snapshot, actor := ConfigOf(job), job.call.snapshot, job.call.actor;
            && e.runtimeInstanceId == config.runtimeInstanceId && e.boundaryId == config.boundaryId
            && e.logicalCallId == snapshot.logicalCallId && e.subjectRef == snapshot.subjectRef
            && OrNull(e.actorRef) == TextOrNull(Some(actor.actorRef))
            && OrNull(e.tenantId) == TextOrNull(actor.tenantId)
            && OrNull(e.workspaceId) == TextOrNull(actor.workspaceId)
            && OrNull(e.parentReceiptRef) == TextOrNull(ParentTold(job))
            && e.bindingVersion == VersionOf(job)
  {
    PolicyIsTold(job);
    assert IdentityIn(e) == JobIdentity(job);
  }

  lemma CallOnTheWire(env: Env, job: Job, e: Envelope)
    requires MadeBy(env, job, e)
    ensures TellsCall(job, Render(e))
  {
    CallInEnvelope(env, job, e);
    PlaceShown(e);
    CallShown(e);
    ActorShown(e);
    ParentShown(e);
  }

  lemma OriginShown(e: Envelope)
    ensures Shown(e, SubjectRefOrigin) == OriginTold(e.subjectRefOrigin)
  {
    RoundTrip.GetRendered(e, SubjectRefOrigin);
  }

  lemma CoveredShown(e: Envelope)
    ensures Shown(e, ArtifactClassesCovered) ==
            Arr([Str(if e.body.AdmissionBody? then "tool_call_admission" else "tool_call_outcome")])
  {
    RoundTrip.GetRendered(e, ArtifactClassesCovered);
  }

  lemma ExcludedShown(e: Envelope)
    ensures Shown(e, ArtifactClassesExcluded) ==
            Arr([Str("raw_prompt"), Str("raw_output"), Str("raw_tool_arguments"), Str("raw_tool_result")])
    ensures Shown(e, RetentionClassApplied) == Str("hash_only")
  {
    RoundTrip.GetRendered(e, ArtifactClassesExcluded);
    RoundTrip.GetRendered(e, RetentionClassApplied);
  }

  lemma CoverageOnTheWire(env: Env, job: Job, e: Envelope)
    requires MadeBy(env, job, e)
    ensures TellsCoverage(job, Render(e), if e.body.AdmissionBody? then "tool_call_admission" else "tool_call_outcome")
  {
    assert IdentityIn(e) == JobIdentity(job);
    OriginShown(e);
    CoveredShown(e);
    ExcludedShown(e);
  }

  lemma McpShown(e: Envelope)
    ensures Get(McpExtension(e), Known(BindingVersion)) == Str(VersionText(e.bindingVersion))
    ensures Get(McpExtension(e), Known(ExceptionClass)) == OrNull(e.exceptionClass)
  {
    assert McpMember(e, BindingVersion) == Some(Str(VersionText(e.bindingVersion)));
    assert McpMember(e, ExceptionClass) == TextIf(e.exceptionClass);
  }

  lemma ExtensionShown(e: Envelope)
    ensures Shown(e, Extensions) == Obj(map[Known(Mcp) := Obj(McpExtension(e))])
  {
    RoundTrip.GetRendered(e, Extensions);
  }

  lemma ExtensionOnTheWire(job: Job, e: Envelope, exceptionClass: Option<string>)
    requires e.bindingVersion == VersionOf(job) && OrNull(e.exceptionClass) == TextOrNull(exceptionClass)
    ensures TellsExtension(job, Render(e), exceptionClass)
  {
    ExtensionShown(e);
    McpShown(e);
  }

  // The members that a body brings.
  predicate OfBody(f: Field)
  {
    match f
    case RequestedToolName | ArgumentDigest | PolicyPackId | PolicyPackVersion | DispositionField => true
    case ReviewObjectRef | RetryContract | ReasonCode | ToolResolutionStatus | OutcomeField | ResultDigest => true
    case RequestCancelled | ExecutionStateUnknown | DeliveryIncomplete => true
    case _ => false
  }

  lemma BodyBrings(e: Envelope, f: Field)
    requires OfBody(f)
    ensures MemberOf(e, f) == BodyMember(e.body, f)
  {}

  lemma BodyShown(e: Envelope, f: Field)
    requires OfBody(f)
    ensures Shown(e, f) == match BodyMember(e.body, f) case Some(v) => v case None => Null
  {
    BodyBrings(e, f);
    MemberShown(e, f, BodyMember(e.body, f));
  }

  lemma MemberShown(e: Envelope, f: Field, member: Option<Json>)
    requires MemberOf(e, f) == member
    ensures Shown(e, f) == match member case Some(v) => v case None => Null
  {
    RoundTrip.GetRendered(e, f);
  }

  lemma KindShown(e: Envelope)
    ensures Shown(e, ReceiptKind) == Str(if e.body.AdmissionBody? then "admission" else "outcome")
  {
    RoundTrip.GetRendered(e, ReceiptKind);
  }

  // What an admission body says.
  lemma RequestShown(e: Envelope)
    requires e.body.AdmissionBody?
    ensures Shown(e, RequestedToolName) == Str(e.body.toolName)
            && Shown(e, ArgumentDigest) == Str(e.body.argumentDigest)
  {
    BodyShown(e, RequestedToolName);
    BodyShown(e, ArgumentDigest);
  }

  lemma PolicyShown(e: Envelope)
    requires e.body.AdmissionBody?
    ensures Shown(e, PolicyPackId) == Str(e.body.policyPackId)
            && Shown(e, PolicyPackVersion) == Str(e.body.policyPackVersion)
  {
    BodyShown(e, PolicyPackId);
    BodyShown(e, PolicyPackVersion);
  }

  lemma DispositionShown(e: Envelope)
    requires e.body.AdmissionBody?
    ensures Shown(e, DispositionField) ==
            Str(match e.body.disposition
                case AdmittedToken => "admitted"
                case RefusedToken => "refused"
                case DeferredForReviewToken => "deferred_for_review")
  {
    BodyShown(e, DispositionField);
  }

  lemma ReviewShown(e: Envelope)
    requires e.body.AdmissionBody?
    ensures Shown(e, ReviewObjectRef) == OrNull(e.body.reviewObjectRef)
    ensures Shown(e, RetryContract) == OrNull(e.body.retryContract)
  {
    BodyShown(e, ReviewObjectRef);
    BodyShown(e, RetryContract);
  }

  lemma ReasonShown(e: Envelope)
    requires e.body.AdmissionBody?
    ensures Shown(e, ReasonCode) == OrNull(e.body.reasonCode)
    ensures Shown(e, ToolResolutionStatus) == Str("not_observed")
  {
    BodyShown(e, ReasonCode);
    BodyShown(e, ToolResolutionStatus);
  }

  lemma AdmissionInEnvelope(env: Env, job: Job, e: Envelope)
    requires MadeBy(env, job, e) && e.body.AdmissionBody?
    ensures e.body.toolName == job.call.snapshot.toolName && e.body.argumentDigest == job.call.snapshot.argumentsDigest
    ensures e.body.policyPackId == ConfigOf(job).policyPackId
            && e.body.policyPackVersion == ConfigOf(job).policyPackVersion
    ensures e.body.disposition ==
            if Admits(job) then AdmittedToken else if Defers(job) then DeferredForReviewToken else RefusedToken
    ensures e.body.reviewObjectRef == if Defers(job) then Some(job.call.review.ref) else None
    ensures e.body.retryContract == if Defers(job) then Some("retry_after_approval") else None
    ensures e.body.reasonCode == if Admits(job) || Defers(job) then None else Some(ReasonTold(job))
  {
    PolicyIsTold(job);
    assert RETRY_CONTRACT != "" && "policy_refused" != "" && "review_object_creation_failed" != "";
  }

  lemma AdmissionOnTheWire(env: Env, job: Job, e: Envelope)
    requires MadeBy(env, job, e) && e.body.AdmissionBody?
    ensures TellsAdmission(job, Render(e))
  {
    AdmissionInEnvelope(env, job, e);
    KindShown(e);
    RequestShown(e);
    PolicyShown(e);
    DispositionShown(e);
    ReviewShown(e);
    ReasonShown(e);
  }

  lemma OutcomeShown(e: Envelope)
    requires e.body.OutcomeBody?
    ensures Shown(e, OutcomeField) ==
            Str(match e.body.outcome
                case ResultReturned => "result_returned"
                case ErrorReturned => "error_returned"
                case ExceptionToken => "exception"
                case TaskSubmittedToken => "task_submitted"
                case Indeterminate => "indeterminate")
    ensures Shown(e, ResultDigest) == OrNull(e.body.resultDigest)
  {
    BodyShown(e, OutcomeField);
    BodyShown(e, ResultDigest);
  }

  function FactIf(owned: map<Key, bool>, f: Field): Json
  {
    if Known(f) in owned then Bool(owned[Known(f)]) else Null
  }

  lemma FactShown(e: Envelope, f: Field)
    requires e.body.OutcomeBody? && f in {RequestCancelled, ExecutionStateUnknown, DeliveryIncomplete}
    ensures Shown(e, f) == FactIf(e.body.owned, f)
  {
    BodyShown(e, f);
  }

  lemma ProjectionIsTold(job: Job, result: ToolResult)
    requires !result.TaskResult?
    ensures ProjectionJson(ProjectionOf(job, result)) == ProjectedTold(job, result)
  {}

  lemma OutcomeInEnvelope(env: Env, job: Job, e: Envelope)
    requires MadeBy(env, job, e) && e.body.OutcomeBody?
    ensures e.body.outcome == EndingToken(job.call.ending)
    ensures e.body.owned == if job.call.ending.Cancelled? then CANCELLATION_FACTS else map[]
    ensures OrNull(e.body.resultDigest) ==
            if job.call.ending.Returned? && !job.call.ending.result.TaskResult? then
              TextOrNull(Some(env.digest(ProjectedTold(job, job.call.ending.result)))) else Null
  {
    if job.call.ending.Returned? && !job.call.ending.result.TaskResult? {
      ProjectionIsTold(job, job.call.ending.result);
    }
  }

  lemma OutcomeOnTheWire(env: Env, job: Job, e: Envelope)
    requires MadeBy(env, job, e) && e.body.OutcomeBody?
    ensures TellsOutcome(env, job, Render(e))
  {
    OutcomeInEnvelope(env, job, e);
    KindShown(e);
    OutcomeShown(e);
    FactShown(e, RequestCancelled);
    FactShown(e, ExecutionStateUnknown);
    FactShown(e, DeliveryIncomplete);
  }

  ghost predicate SomeTells(env: Env, jobs: seq<Job>, m: map<Key, Json>)
  {
    exists i | 0 <= i < |jobs| :: Tells(env, jobs[i], m)
  }

  /** In every run, each record in the log tells one of the calls, on the wire:
      runtime, boundary, call, subject, actor and parent in their own members; the
      tool, the arguments' digest, the policy pack, and "admitted", "refused" with
      its reason or "deferred_for_review" with its review reference, as the
      policies decide; or how the tool ended, with the digest of the projected
      result, the class that was raised, or the facts of a cancellation. */
  lemma EveryRecordTells(env: Env, jobs: seq<Job>, schedule: seq<nat>, k: nat)
    requires k < |Exec(env, jobs, schedule).state.world.log|
    ensures SomeTells(env, jobs, Render(Exec(env, jobs, schedule).state.world.log[k]))
  {
    EveryEnvelopeIsMade(env, jobs, schedule);
    var e := Exec(env, jobs, schedule).state.world.log[k];
    var i :| 0 <= i < |jobs| && MadeBy(env, jobs[i], e);
    MadeTells(env, jobs[i], e);
  }

  lemma MadeExtension(env: Env, job: Job, e: Envelope)
    requires MadeBy(env, job, e)
    ensures TellsExtension(job, Render(e), if e.body.AdmissionBody? then None else EndingClass(job.call.ending))
  {
    CallInEnvelope(env, job, e);
    ExtensionOnTheWire(job, e, if e.body.AdmissionBody? then None else EndingClass(job.call.ending));
  }

  lemma MadeTells(env: Env, job: Job, e: Envelope)
    requires MadeBy(env, job, e)
    ensures Tells(env, job, Render(e))
  {
    CallOnTheWire(env, job, e);
    if e.body.AdmissionBody? {
      AdmissionOnTheWire(env, job, e);
    } else {
      PolicyIsTold(job);
      OutcomeOnTheWire(env, job, e);
    }
    MadeExtension(env, job, e);
    CoverageOnTheWire(env, job, e);
  }

  predicate SameShown(m: map<Key, Json>, m': map<Key, Json>)
  {
    forall f: Field | f != ReceiptSignature :: Get(m', Known(f)) == Get(m, Known(f))
  }

  lemma SameCall(job: Job, m: map<Key, Json>, m': map<Key, Json>, exceptionClass: Option<string>)
    requires SameShown(m, m')
    ensures TellsCall(job, m) ==> TellsCall(job, m')
    ensures TellsExtension(job, m, exceptionClass) ==> TellsExtension(job, m', exceptionClass)
  {}

  lemma SameCoverage(job: Job, m: map<Key, Json>, m': map<Key, Json>, covered: string)
    requires SameShown(m, m')
    ensures TellsCoverage(job, m, covered) ==> TellsCoverage(job, m', covered)
  {}

  lemma SameAdmission(job: Job, m: map<Key, Json>, m': map<Key, Json>)
    requires SameShown(m, m')
    ensures TellsAdmission(job, m) ==> TellsAdmission(job, m')
  {}

  lemma SameOutcome(env: Env, job: Job, m: map<Key, Json>, m': map<Key, Json>)
    requires SameShown(m, m')
    ensures TellsOutcome(env, job, m) ==> TellsOutcome(env, job, m')
  {}

  /** Signing, storing and reading change nothing of what a record tells. */
  lemma TellsStill(env: Env, job: Job, m: map<Key, Json>, m': map<Key, Json>)
    requires Tells(env, job, m) && SameShown(m, m')
    ensures Tells(env, job, m')
  {
    SameCall(job, m, m', None);
    SameCall(job, m, m', if job.call.ending.Raised? then Some(job.call.ending.className) else None);
    SameCoverage(job, m, m', "tool_call_admission");
    SameCoverage(job, m, m', "tool_call_outcome");
    SameAdmission(job, m, m');
    SameOutcome(env, job, m, m');
  }
}
