/** Any number of governed calls sharing one emitter. Each call is two atomic
    segments around its tool; a schedule says which call moves next, so the
    states of `Exec` over all schedules are all states of all interleavings.
    (A call also awaits its resolvers and its review creator, but before it has
    touched anything shared, so the first segment is atomic from there on.)
    Calls may come from either binding, each with its own configuration. */
module Protocol {
  import opened Prelude
  import opened Lifecycle
  import opened Receipts
  import opened Binding
  import Fast = FastMcpBinding
  import Sdk = SdkBinding

  datatype Setup = FastMcp(fast: Fast.FastMcpConfig) | OfficialSdk(sdk: BindingConfig)

  datatype Job = Job(setup: Setup, call: Call)

  /** What became of one record of a call: an entry of the log, an entry of the
      list of receipt gaps, or neither. */
  datatype Fate = Unrecorded | Receipted(entry: nat) | Gapped(entry: nat)

  /** A call remembers, as history, what became of its admission and of its
      outcome; a finished one also whether its tool ran and the reference of its
      accepted admission, if any. */
  datatype Phase =
    | Waiting
    | InTool(run: Run, admission: Fate)
    | Done(reply: Reply, ran: bool, admissionRef: Option<string>, admission: Fate, outcome: Fate)

  datatype System = System(state: State, phases: seq<Phase>)

  function ConfigOf(job: Job): BindingConfig
  {
    match job.setup
    case FastMcp(config) => config.common
    case OfficialSdk(config) => config
  }

  function VersionOf(job: Job): BindingVersion
  {
    if job.setup.FastMcp? then FastMcpVersion else OfficialSdkV01
  }

  function PolicyOf(job: Job): Option<BindingPolicy>
  {
    match job.setup
    case FastMcp(config) => Fast.ResolvePolicy(config, job.call)
    case OfficialSdk(config) => Sdk.ResolvePolicy(config, job.call)
  }

  function Admit(env: Env, job: Job, s: State): (State, Progress)
  {
    match job.setup
    case FastMcp(config) => Fast.Admit(env, config, job.call, s)
    case OfficialSdk(config) => Sdk.Admit(env, config, job.call, s)
  }

  function Terminal(
    env: Env, job: Job, policy: BindingPolicy, plan: AdmissionPlan, reviewRef: Option<string>, s: State): (State, Reply)
    requires plan.record.Some?
  {
    match job.setup
    case FastMcp(config) => Fast.Terminal(env, config, job.call, policy, plan, reviewRef, s)
    case OfficialSdk(config) => Sdk.Terminal(env, config, job.call, policy, plan, reviewRef, s)
  }

  function Finish(env: Env, job: Job, run: Run, s: State): (State, Reply)
  {
    match job.setup
    case FastMcp(config) => Fast.Finish(env, config, job.call, run, s)
    case OfficialSdk(config) => Sdk.Finish(env, config, job.call, run, s)
  }

  // The receipt gaps among telemetry events, in order.
  function Gaps(telemetry: seq<TelemetryEvent>): seq<TelemetryEvent>
  {
    if |telemetry| == 0 then []
    else
      var last := telemetry[|telemetry| - 1];
      Gaps(telemetry[..|telemetry| - 1]) + if last.ReceiptGap? then [last] else []
  }

  // What a segment that led from one state to another left of its record.
  function FateOf(s: State, s': State): Fate
  {
    if |s'.world.log| > |s.world.log| then Receipted(|s.world.log|)
    else if |Gaps(s'.telemetry)| > |Gaps(s.telemetry)| then Gapped(|Gaps(s.telemetry)|)
    else Unrecorded
  }

  function Move(env: Env, job: Job, phase: Phase, s: State): (State, Phase)
  {
    match phase
    case Waiting =>
      var (s', progress) := Admit(env, job, s);
      var fate := FateOf(s, s');
      (s', if progress.Running? then InTool(progress.run, fate)
       else Done(progress.reply, false, None, fate, Unrecorded))
    case InTool(run, admission) =>
      var (s', reply) := Finish(env, job, run, s);
      (s', Done(reply, true, run.admissionRef, admission, FateOf(s, s')))
    case Done(_, _, _, _, _) => (s, phase)
  }

  function Step(env: Env, jobs: seq<Job>, sys: System, i: nat): (sys': System)
    requires |sys.phases| == |jobs|
    ensures |sys'.phases| == |jobs|
  {
    if i >= |jobs| then sys
    else
      var (s', phase) := Move(env, jobs[i], sys.phases[i], sys.state);
      System(s', sys.phases[i := phase])
  }

  function Start(jobs: seq<Job>): System
  {
    System(State(World([], 0, 0), []), seq(|jobs|, _ => Waiting))
  }

  function Exec(env: Env, jobs: seq<Job>, schedule: seq<nat>): (sys: System)
    ensures |sys.phases| == |jobs|
  {
    if |schedule| == 0 then Start(jobs)
    else Step(env, jobs, Exec(env, jobs, schedule[..|schedule| - 1]), schedule[|schedule| - 1])
  }

  // ---- What one emission and one segment do -------------------------------

  /** What a receipt says about the call it belongs to. */
  datatype Identity = Identity(
    runtimeInstanceId: string, boundaryId: string, logicalCallId: string, subjectRef: string,
    subjectRefOrigin: Option<Origin>, actorRef: Option<string>, tenantId: Option<string>, workspaceId: Option<string>,
    parentReceiptRef: Option<string>, bindingVersion: BindingVersion)

  function IdentityIn(e: Envelope): Identity
  {
    Identity(e.runtimeInstanceId, e.boundaryId, e.logicalCallId, e.subjectRef, e.subjectRefOrigin, e.actorRef,
             e.tenantId, e.workspaceId, e.parentReceiptRef, e.bindingVersion)
  }

  function IdentityOf(config: BindingConfig, call: Call, policy: BindingPolicy, version: BindingVersion): Identity
  {
    ContextIdentity(ContextOf(config, call, policy, version))
  }

  predicate Admitting(e: Envelope)
  {
    e.body.AdmissionBody? && e.body.disposition == AdmittedToken
  }

  // The gap is about this call and this record of it: its kind, the outcome
  // token that was attempted, and the admission it belongs to.
  predicate GapAbout(
    config: BindingConfig, call: Call, kind: ReceiptKindName, attempted: Option<OutcomeToken>,
    admissionRef: Option<string>, gap: TelemetryEvent)
  {
    && gap.ReceiptGap?
    && gap == ReceiptGap(config.runtimeInstanceId, config.boundaryId, call.snapshot.logicalCallId,
                         call.snapshot.toolName,
                         kind, attempted, admissionRef, gap.failureClass)
  }

  // The envelope as it was offered to the sink.
  function AsOffered(e: Envelope): Envelope
  {
    e.(reference := e.receiptId)
  }

  // What the emitter made sure of before it wrote a receipt, and the reference
  // the sink answered the write with.
  predicate Emitted(env: Env, serial: nat, attempt: nat, e: Envelope)
  {
    && e.receiptId == env.ids(serial) && e.issuedAt == env.clock(serial) && e.issuerId == env.issuerId
    && !env.rejects(AsOffered(e)) && e.reference == env.answers(attempt, AsOffered(e))
    && (e.body.OutcomeBody? ==> e.body.owned.Keys <= CANCELLATION_FIELDS)
  }

  // The write was accepted: one new receipt under a freshly minted identifier.
  ghost predicate Accepted(env: Env, s: State, s': State, e: Envelope)
  {
    && s'.world.log == s.world.log + [e]
    && s'.world.minted == s.world.minted + 1
    && s'.world.attempts == s.world.attempts + 1
    && Emitted(env, s.world.minted, s.world.attempts, e)
    && Gaps(s'.telemetry) == Gaps(s.telemetry)
  }

  // The gap a failed emission appended.
  function NewestGap(s: State): TelemetryEvent
    requires Gaps(s.telemetry) != []
  {
    Gaps(s.telemetry)[|Gaps(s.telemetry)| - 1]
  }

  // The write was lost: no receipt, and one gap, about this very record.
  ghost predicate Lost(
    config: BindingConfig, call: Call, kind: ReceiptKindName, attempted: Option<OutcomeToken>,
    admissionRef: Option<string>, s: State, s': State)
  {
    && s'.world.log == s.world.log
    && s'.world.minted >= s.world.minted && s'.world.attempts >= s.world.attempts
    && Gaps(s'.telemetry) != []
    && Gaps(s'.telemetry) == Gaps(s.telemetry) + [NewestGap(s')]
    && GapAbout(config, call, kind, attempted, admissionRef, NewestGap(s'))
  }

  ghost predicate LostAdmission(job: Job, s: State, s': State)
  {
    Lost(ConfigOf(job), job.call, AdmissionKind, None, None, s, s')
  }

  // The outcome token a binding attempts: a result it could not project is
  // taken for a plain one.
  function AttemptedToken(ending: ToolEnding): OutcomeToken
  {
    if ProjectionFailed(ending) then ResultReturned else EndingToken(ending)
  }

  ghost predicate LostOutcome(job: Job, ref: string, s: State, s': State)
  {
    Lost(ConfigOf(job), job.call, OutcomeKind, Some(AttemptedToken(job.call.ending)), Some(ref), s, s')
  }

  // Nothing was written and nothing was lost.
  ghost predicate Quiet(s: State, s': State)
  {
    s'.world == s.world && Gaps(s'.telemetry) == Gaps(s.telemetry)
  }

  lemma GapsAppend(telemetry: seq<TelemetryEvent>, event: TelemetryEvent)
    ensures Gaps(telemetry + [event]) == Gaps(telemetry) + if event.ReceiptGap? then [event] else []
  {
    assert (telemetry + [event])[..|telemetry|] == telemetry;
  }

  // The envelope a successful emission appended.
  function Newest(s: State): Envelope
    requires |s.world.log| > 0
  {
    s.world.log[|s.world.log| - 1]
  }

  function ContextIdentity(c: ReceiptContext): Identity
  {
    Identity(c.runtimeInstanceId, c.boundaryId, c.logicalCallId, c.subjectRef, c.subjectRefOrigin,
             Present(c.actorRef), Present(c.tenantId), Present(c.workspaceId), Present(c.parentReceiptRef),
             c.bindingVersion)
  }

  // One emission: a new entry that went through the emitter, or none.
  ghost predicate EmissionSpec(
    env: Env, w: World, w': World, r: Result<string, Fault>, context: ReceiptContext, body: Body,
    exceptionClass: Option<string>)
  {
    if r.Err? then w'.log == w.log && w'.minted >= w.minted && w'.attempts >= w.attempts
    else
      && |w'.log| > 0 && w'.minted == w.minted + 1 && w'.attempts == w.attempts + 1
      && var e := w'.log[|w'.log| - 1];
         && w'.log == w.log + [e] && Emitted(env, w.minted, w.attempts, e) && e.reference == r.value
         && e.body == Normalized(body) && IdentityIn(e) == ContextIdentity(context)
         && e.exceptionClass == Present(exceptionClass)
  }

  lemma EmittedAdmissionEffect(env: Env, w: World, context: ReceiptContext, body: Body, additions: seq<string>)
    requires body.AdmissionBody?
    ensures var (w', r) := EmittedAdmission(env, w, context, body, additions);
            EmissionSpec(env, w, w', r, context, body, None)
  {}

  lemma EmittedOutcomeEffect(
    env: Env, w: World, context: ReceiptContext, body: Body, exceptionClass: Option<string>, additions: seq<string>)
    requires body.OutcomeBody?
    ensures var (w', r) := EmittedOutcome(env, w, context, body, exceptionClass, additions);
            EmissionSpec(env, w, w', r, context, body, exceptionClass)
  {}

  lemma TryAdmissionEffect(
    env: Env, config: BindingConfig, call: Call, policy: BindingPolicy, version: BindingVersion, body: Body, s: State)
    requires body.AdmissionBody?
    ensures var (s', ref) := TryAdmission(env, config, call, policy, version, body, s);
            if ref.None? then Lost(config, call, AdmissionKind, None, None, s, s')
            else
              && |s'.world.log| > 0 && Accepted(env, s, s', Newest(s')) && Newest(s').reference == ref.value
              && Newest(s').body == Normalized(body) && Newest(s').exceptionClass.None?
              && IdentityIn(Newest(s')) == IdentityOf(config, call, policy, version)
  {
    EmittedAdmissionEffect(env, s.world, ContextOf(config, call, policy, version), body,
                           AdmissionLimits(config, policy));
    var (w, r) := EmittedAdmission(env, s.world, ContextOf(config, call, policy, version), body,
                                   AdmissionLimits(config, policy));
    if r.Err? {
      GapsAppend(s.telemetry, GapEvent(config, call, AdmissionKind, None, None, r.error));
    }
  }

  ghost predicate OutcomeSpec(
    env: Env, config: BindingConfig, call: Call, policy: BindingPolicy, version: BindingVersion, body: Body,
    exceptionClass: Option<string>, s: State, s': State, accepted: bool)
    requires body.OutcomeBody?
  {
    if !accepted then Lost(config, call, OutcomeKind, Some(body.outcome), Some(body.admissionRef), s, s')
    else
      && |s'.world.log| > 0 && Accepted(env, s, s', Newest(s'))
      && Newest(s').body == Normalized(body) && Newest(s').exceptionClass == Present(exceptionClass)
      && IdentityIn(Newest(s')) == IdentityOf(config, call, policy, version)
  }

  lemma TryOutcomeEffect(
    env: Env, config: BindingConfig, call: Call, policy: BindingPolicy, version: BindingVersion,
    body: Body, exceptionClass: Option<string>, s: State)
    requires body.OutcomeBody?
    ensures var (s', accepted) := TryOutcome(env, config, call, policy, version, body, exceptionClass, s);
            OutcomeSpec(env, config, call, policy, version, body, exceptionClass, s, s', accepted)
  {
    EmittedOutcomeEffect(env, s.world, ContextOf(config, call, policy, version), body, exceptionClass,
                         Distinct(config.limits));
    var (w, r) := EmittedOutcome(
      env, s.world, ContextOf(config, call, policy, version), body, exceptionClass, Distinct(config.limits));
    if r.Err? {
      GapsAppend(s.telemetry, GapEvent(config, call, OutcomeKind, Some(body.outcome), Some(body.admissionRef),
                                       r.error));
    }
  }

  // What the policy of a job plans to record before its tool runs.
  predicate PlansAdmission(job: Job)
  {
    PolicyOf(job).Some? &&
    (PolicyOf(job).value.disposition == AdmittedToken ==>
      PolicyOf(job).value.toolClass != Read || ConfigOf(job).emitReadAdmission)
  }

  function JobIdentity(job: Job): Identity
    requires PolicyOf(job).Some?
  {
    IdentityOf(ConfigOf(job), job.call, PolicyOf(job).value, VersionOf(job))
  }

  // A run that `Admit` can hand over.
  ghost predicate RunOf(job: Job, run: Run)
  {
    && PolicyOf(job) == Some(run.policy)
    && run.policy.disposition == AdmittedToken
    && run.plan == Plan(ConfigOf(job), run.policy, None)
    && (run.admissionRef.Some? ==> PlansAdmission(job))
  }

  // What reviewing comes to does not depend on the shared state.
  function ReviewOf(call: Call, policy: BindingPolicy): (Option<string>, Option<bool>)
  {
    if policy.disposition != DeferredForReviewToken then (None, None)
    else match CreateReview(call.review) case Ok(ref) => (Some(ref), Some(true)) case Err(_) => (None, Some(false))
  }

  function PlanOf(job: Job): AdmissionPlan
    requires PolicyOf(job).Some?
  {
    Plan(ConfigOf(job), PolicyOf(job).value, ReviewOf(job.call, PolicyOf(job).value).1)
  }

  // The body of the one record of a refusal or deferral.
  function TerminalBody(
    config: BindingConfig, call: Call, policy: BindingPolicy, plan: AdmissionPlan, reviewRef: Option<string>): Body
    requires plan.record.Some?
  {
    if plan.record.value.disposition == Refused then
      AdmissionOf(config, call, RefusedToken, None, None, Some(TerminalReason(policy, plan)))
    else
      AdmissionOf(config, call, ProjectDisposition(plan.record.value.disposition), reviewRef,
                  plan.record.value.retryContract, None)
  }

  // A refusal or deferral writes its one record, or leaves a gap.
  ghost predicate TerminalSpec(env: Env, job: Job, identity: Identity, body: Body, s: State, s': State)
  {
    || LostAdmission(job, s, s')
    || (|s'.world.log| > 0 && Accepted(env, s, s', Newest(s')) && Newest(s').body == Normalized(body)
        && Newest(s').exceptionClass.None? && IdentityIn(Newest(s')) == identity)
  }

  ghost predicate AdmitSpec(env: Env, job: Job, s: State, s': State, progress: Progress)
  {
    match progress
    case Running(run) =>
      && RunOf(job, run)
      && (match run.admissionRef
          case Some(ref) =>
            && |s'.world.log| > 0 && Accepted(env, s, s', Newest(s')) && Newest(s').reference == ref
            && Admitting(Newest(s')) && IdentityIn(Newest(s')) == JobIdentity(job)
            && Newest(s').body == AdmissionOf(ConfigOf(job), job.call, AdmittedToken, None, None, None)
            && Newest(s').exceptionClass.None?
          case None =>
            if PlansAdmission(job) then
              LostAdmission(job, s, s') && PreExecutionMode(ConfigOf(job), run.policy.toolClass) == FailOpen
            else Quiet(s, s'))
    case Stopped(reply) =>
      if !PlansAdmission(job) then Quiet(s, s')
      else if PolicyOf(job).value.disposition == AdmittedToken then LostAdmission(job, s, s')
      else
        var policy := PolicyOf(job).value;
        && PlanOf(job).record.Some? && PlanOf(job).record.value.disposition != Admitted
        && TerminalSpec(env, job, JobIdentity(job),
                        TerminalBody(ConfigOf(job), job.call, policy, PlanOf(job), ReviewOf(job.call, policy).0), s, s')
  }

  lemma ReviewQuiet(config: BindingConfig, call: Call, policy: BindingPolicy, s: State)
    ensures Quiet(s, Review(config, call, policy, s).0)
  {
    if call.review.CreatorRaised? {
      GapsAppend(s.telemetry, ReviewFailedEvent(config, call, call.review.className));
    } else {
      GapsAppend(s.telemetry, ReviewFailedEvent(config, call, "RuntimeError"));
      GapsAppend(s.telemetry, ReviewFailedEvent(config, call, "TypeError"));
    }
  }

  lemma TerminalEffect(
    env: Env, job: Job, policy: BindingPolicy, plan: AdmissionPlan, reviewRef: Option<string>, s: State)
    requires plan.record.Some? && plan.record.value.disposition != Admitted
    ensures TerminalSpec(env, job, IdentityOf(ConfigOf(job), job.call, policy, VersionOf(job)),
                         TerminalBody(ConfigOf(job), job.call, policy, plan, reviewRef), s,
                         Terminal(env, job, policy, plan, reviewRef, s).0)
  {
    TryAdmissionEffect(env, ConfigOf(job), job.call, policy, VersionOf(job),
                       TerminalBody(ConfigOf(job), job.call, policy, plan, reviewRef), s);
  }

  /** Both first segments are one shape: resolve, review, plan, then either the
      one terminal record or the admission. */
  lemma AdmitUnfolds(env: Env, job: Job, s: State)
    requires PolicyOf(job).Some?
    ensures var config, call, policy, version := ConfigOf(job), job.call, PolicyOf(job).value, VersionOf(job);
            var (reviewed, reviewRef, created) := Review(config, call, policy, s);
            var plan := Plan(config, policy, created);
            Admit(env, job, s) ==
            if !plan.proceeds then
              var (s', reply) := Terminal(env, job, policy, plan, reviewRef, reviewed);
              (s', Stopped(reply))
            else if plan.recorded then
              var (s', ref) := TryAdmission(env, config, call, policy, version,
                                            AdmissionOf(config, call, AdmittedToken, None, None, None), reviewed);
              (s', if ref.None? && PreExecutionMode(config, policy.toolClass) == FailClosed then
               Stopped(AdmissionUnavailable)
                   else Running(Run(policy, plan, ref)))
            else (reviewed, Running(Run(policy, plan, None)))
  {}

  lemma AdmitEffect(env: Env, job: Job, s: State)
    ensures AdmitSpec(env, job, s, Admit(env, job, s).0, Admit(env, job, s).1)
  {
    if PolicyOf(job).Some? {
      var config, call, policy, version := ConfigOf(job), job.call, PolicyOf(job).value, VersionOf(job);
      AdmitUnfolds(env, job, s);
      ReviewQuiet(config, call, policy, s);
      var (reviewed, reviewRef, created) := Review(config, call, policy, s);
      var plan := Plan(config, policy, created);
      if !plan.proceeds {
        TerminalEffect(env, job, policy, plan, reviewRef, reviewed);
      } else if plan.recorded {
        TryAdmissionEffect(env, config, call, policy, version,
                           AdmissionOf(config, call, AdmittedToken, None, None, None), s);
      }
    }
  }

  // The one ending that leaves an accepted admission without an outcome record:
  // a task handed to the binding that cannot carry one.
  predicate TaskLost(job: Job)
  {
    job.setup.OfficialSdk? && job.call.ending.Returned? && job.call.ending.result.TaskResult?
  }

  // The outcome token of the way a tool ended.
  function EndingToken(ending: ToolEnding): OutcomeToken
  {
    match ending
    case Cancelled => Indeterminate
    case Raised(_, _, _) => ExceptionToken
    case Returned(result, _) =>
      if result.TaskResult? then TaskSubmittedToken
      else if result.ObjectResult? && result.isError then ErrorReturned else ResultReturned
  }

  ghost predicate FinishSpec(env: Env, job: Job, run: Run, s: State, s': State)
  {
    if run.admissionRef.None? || TaskLost(job) then Quiet(s, s')
    else
      || LostOutcome(job, run.admissionRef.value, s, s')
      || (|s'.world.log| > 0 && Accepted(env, s, s', Newest(s'))
          && Newest(s').body.OutcomeBody? && Newest(s').body.admissionRef == run.admissionRef.value
          && Newest(s').body.outcome == EndingToken(job.call.ending)
          && Newest(s').body == Normalized(EndingBody(env, job, run.admissionRef.value))
          && Newest(s').exceptionClass == Present(EndingClass(job.call.ending))
          && PolicyOf(job).Some? && IdentityIn(Newest(s')) == JobIdentity(job))
  }

  function ProjectionOf(job: Job, result: ToolResult): Projection
  {
    if job.setup.FastMcp? then Fast.ProjectResult(result) else Sdk.ProjectResult(result)
  }

  // The outcome record of a call that holds an admission, and the class it names.
  function EndingBody(env: Env, job: Job, ref: string): (body: Body)
    ensures body.OutcomeBody?
  {
    match job.call.ending
    case Cancelled => OutcomeBody(ref, Indeterminate, None, CANCELLATION_FACTS)
    case Raised(_, _, _) => OutcomeBody(ref, ExceptionToken, None, map[])
    case Returned(result, _) =>
      OutcomeBody(ref, EndingToken(job.call.ending),
                  if result.TaskResult? then None
                      else Some(env.digest(ProjectionJson(ProjectionOf(job, result)))), map[])
  }

  function EndingClass(ending: ToolEnding): Option<string>
  {
    if ending.Raised? then Some(ending.className) else None
  }

  // The outcome emission of a call that holds an admission.
  function EndingEmission(env: Env, job: Job, run: Run, ref: string, s: State): (State, bool)
  {
    TryOutcome(env, ConfigOf(job), job.call, run.policy, VersionOf(job), EndingBody(env, job, ref),
               EndingClass(job.call.ending), s)
  }

  function Alerted(job: Job, accepted: bool, s: State): State
  {
    if job.setup.FastMcp? && job.call.ending.Returned? then Fast.AlertIfUnsupported(job.setup.fast, accepted, s) else s
  }

  // How a call answers once its tool has ended.
  function EndingReply(job: Job): Reply
  {
    match job.call.ending
    case Cancelled => CallCancelled
    case Raised(className, _, isConnection) => ToolRaised(className, isConnection)
    case Returned(result, _) => if TaskLost(job) then TaskUnsupported else ToolReturned(result)
  }

  predicate ProjectionFailed(ending: ToolEnding)
  {
    ending.Returned? && !ending.result.TaskResult? && ending.projectionFault.Some?
  }

  lemma FastFinishUnfolds(env: Env, job: Job, run: Run, s: State)
    requires job.setup.FastMcp? && run.plan.proceeds && run.plan.recorded && run.admissionRef.Some?
    requires !ProjectionFailed(job.call.ending)
    ensures var (s', accepted) := TryOutcome(env, ConfigOf(job), job.call, run.policy, VersionOf(job),
                                             EndingBody(env, job, run.admissionRef.value), EndingClass(job.call.ending),
                                                 s);
            Finish(env, job, run, s) == (Alerted(job, accepted, s'), EndingReply(job))
  {}

  lemma SdkFinishUnfolds(env: Env, job: Job, run: Run, s: State)
    requires job.setup.OfficialSdk? && run.plan.proceeds && run.plan.recorded && run.admissionRef.Some?
    requires !ProjectionFailed(job.call.ending) && !TaskLost(job)
    ensures var (s', accepted) := TryOutcome(env, ConfigOf(job), job.call, run.policy, VersionOf(job),
                                             EndingBody(env, job, run.admissionRef.value), EndingClass(job.call.ending),
                                                 s);
            Finish(env, job, run, s) == (Alerted(job, accepted, s'), EndingReply(job))
  {}

  /** What the second segment of any call does: exactly one outcome receipt or
      one gap when an admission was accepted, nothing otherwise. The frozen
      literals never diverge from the planner. */
  lemma FinishEffect(env: Env, job: Job, run: Run, s: State)
    requires RunOf(job, run)
    ensures FinishSpec(env, job, run, s, Finish(env, job, run, s).0)
    ensures Finish(env, job, run, s).1 == EndingReply(job)
  {
    if run.admissionRef.Some? && !TaskLost(job) {
      var config, call, ref := ConfigOf(job), job.call, run.admissionRef.value;
      if ProjectionFailed(call.ending) {
        GapsAppend(s.telemetry, GapEvent(config, call, OutcomeKind, Some(ResultReturned), Some(ref),
                                         call.ending.projectionFault.value));
      } else {
        RecordedFinishEffect(env, job, run, s);
      }
    }
  }

  lemma FinishUnfolds(env: Env, job: Job, run: Run, s: State)
    requires run.plan.proceeds && run.plan.recorded && run.admissionRef.Some?
    requires !ProjectionFailed(job.call.ending) && !TaskLost(job)
    ensures var (s', accepted) := EndingEmission(env, job, run, run.admissionRef.value, s);
            Finish(env, job, run, s) == (Alerted(job, accepted, s'), EndingReply(job))
  {
    if job.setup.FastMcp? {
      FastFinishUnfolds(env, job, run, s);
    } else {
      SdkFinishUnfolds(env, job, run, s);
    }
  }

  lemma AlertedKeeps(job: Job, accepted: bool, s: State)
    ensures Alerted(job, accepted, s).world == s.world && Gaps(Alerted(job, accepted, s).telemetry) == Gaps(s.telemetry)
  {
    GapsAppend(s.telemetry, UnsupportedPostExecutionMode);
  }

  lemma RunIsPlanned(job: Job, run: Run)
    requires RunOf(job, run) && run.admissionRef.Some?
    ensures run.plan.proceeds && run.plan.recorded
  {}

  // An accepted or lost outcome emission, and at most an alert after it, is what
  // the second segment has to leave.
  lemma EmissionIsFinish(env: Env, job: Job, run: Run, s: State, s': State, accepted: bool, s'': State)
    requires RunOf(job, run) && run.admissionRef.Some? && !TaskLost(job) && !ProjectionFailed(job.call.ending)
    requires OutcomeSpec(env, ConfigOf(job), job.call, run.policy, VersionOf(job),
                         EndingBody(env, job, run.admissionRef.value), EndingClass(job.call.ending), s, s', accepted)
    requires s''.world == s'.world && Gaps(s''.telemetry) == Gaps(s'.telemetry)
    ensures FinishSpec(env, job, run, s, s'')
  {
    var body := EndingBody(env, job, run.admissionRef.value);
    assert body.outcome == EndingToken(job.call.ending) && body.admissionRef == run.admissionRef.value;
  }

  lemma RecordedFinishEffect(env: Env, job: Job, run: Run, s: State)
    requires RunOf(job, run) && run.admissionRef.Some? && !TaskLost(job) && !ProjectionFailed(job.call.ending)
    ensures FinishSpec(env, job, run, s, Finish(env, job, run, s).0)
    ensures Finish(env, job, run, s).1 == EndingReply(job)
  {
    var ref := run.admissionRef.value;
    var (s', accepted) := EndingEmission(env, job, run, ref, s);
    RunIsPlanned(job, run);
    FinishUnfolds(env, job, run, s);
    AlertedKeeps(job, accepted, s');
    TryOutcomeEffect(env, ConfigOf(job), job.call, run.policy, VersionOf(job), EndingBody(env, job, ref),
                     EndingClass(job.call.ending), s);
    EmissionIsFinish(env, job, run, s, s', accepted, Alerted(job, accepted, s'));
  }

  // ---- What a call is decided on -------------------------------------------

  // The configured policy resolver raised.
  predicate PolicyFails(job: Job)
  {
    ConfigOf(job).hasPolicyResolver && job.call.policyAnswer.ResolverRaised?
  }

  // The tool of a call is of this class: the class its policy answers, or else the
  // one configured for its name; a tool that is not listed is a read.
  predicate Classed(job: Job, toolClass: ToolClass)
  {
    var config, tool := ConfigOf(job), job.call.snapshot.toolName;
    if config.hasPolicyResolver then
      job.call.policyAnswer.Answered? && job.call.policyAnswer.policy.toolClass == toolClass
    else if tool in config.toolClasses then config.toolClasses[tool] == toolClass
    else toolClass == Read
  }

  // The call is admitted: by its policy, or by an operator who said exactly that,
  // or because nothing asks for an operator.
  predicate Admits(job: Job)
  {
    if ConfigOf(job).hasPolicyResolver then
      job.call.policyAnswer.Answered? && job.call.policyAnswer.policy.disposition == AdmittedToken
    else
      match job.setup
      case OfficialSdk(_) => true
      case FastMcp(fast) =>
        if fast.hasOperatorResolver then job.call.operatorAnswer == OperatorDecided("admitted", None)
        else
          && job.call.snapshot.toolName !in fast.requiredTools
          && forall toolClass | toolClass in fast.requiredClasses :: !Classed(job, toolClass)
  }

  // The policy defers the call, and its review object was made under a reference.
  predicate Defers(job: Job)
  {
    && ConfigOf(job).hasPolicyResolver && job.call.policyAnswer.Answered?
    && job.call.policyAnswer.policy.disposition == DeferredForReviewToken
    && job.call.review.CreatorReturned? && job.call.review.ref != ""
  }

  // A tool of the call's class runs even when its admission could not be written.
  predicate FailsOpen(job: Job)
  {
    exists toolClass :: Classed(job, toolClass) && toolClass in ConfigOf(job).preExecutionFailure
                        && ConfigOf(job).preExecutionFailure[toolClass] == FailOpen
  }

  lemma PolicyIsTold(job: Job)
    ensures PolicyOf(job).None? <==> PolicyFails(job)
    ensures PolicyOf(job).Some? ==>
              && (forall toolClass :: Classed(job, toolClass) <==> toolClass == PolicyOf(job).value.toolClass)
              && (PolicyOf(job).value.disposition == AdmittedToken <==> Admits(job))
              && (FailsOpen(job) <==>
                  PreExecutionMode(ConfigOf(job), PolicyOf(job).value.toolClass) == FailOpen)
              && (!ConfigOf(job).hasPolicyResolver ==>
                    && PolicyOf(job).value.disposition != DeferredForReviewToken
                    && PolicyOf(job).value.parentReceiptRef.None? && PolicyOf(job).value.limits == []
                    && PolicyOf(job).value.reasonCode == (if Admits(job) then None else Some("policy_refused")))
  {}

  // How a call answers that stops before its tool.
  predicate StoppedAs(job: Job, reply: Reply, fate: Fate)
  {
    if PolicyFails(job) then reply == PolicyError && fate.Unrecorded?
    else if Admits(job) then reply == AdmissionUnavailable && fate.Gapped? && !FailsOpen(job)
    else
      && !fate.Unrecorded?
      && reply == if !Defers(job) then RefusedByPolicy
                  else if fate.Receipted? then DeferredForReview(job.call.review.ref) else ReviewReceiptUnavailable
  }

  predicate StartedAs(job: Job, fate: Fate)
  {
    && Admits(job) && (fate.Gapped? ==> FailsOpen(job))
    && (fate.Unrecorded? <==> Classed(job, Read) && !ConfigOf(job).emitReadAdmission)
  }

  lemma AcceptedFate(env: Env, s: State, s': State, e: Envelope)
    requires Accepted(env, s, s', e)
    ensures FateOf(s, s') == Receipted(|s.world.log|)
  {}

  lemma LostFate(job: Job, s: State, s': State)
    requires LostAdmission(job, s, s')
    ensures FateOf(s, s') == Gapped(|Gaps(s.telemetry)|)
  {}

  // The one record of a refusal or deferral, and the answer that goes with it.
  lemma TerminalAnswers(env: Env, job: Job, s: State)
    requires PolicyOf(job).Some? && !PlanOf(job).proceeds
    ensures var (s', progress) := Admit(env, job, s);
            progress.Stopped? && !PolicyFails(job) && !Admits(job) && StoppedAs(job, progress.reply, FateOf(s, s'))
  {
    var config, call, policy := ConfigOf(job), job.call, PolicyOf(job).value;
    PolicyIsTold(job);
    AdmitUnfolds(env, job, s);
    ReviewQuiet(config, call, policy, s);
    var reviewed := Review(config, call, policy, s).0;
    var body := TerminalBody(config, call, policy, PlanOf(job), ReviewOf(call, policy).0);
    TryAdmissionEffect(env, config, call, policy, VersionOf(job), body, reviewed);
    TerminalReply(env, job, reviewed);
    var (s', ref) := TryAdmission(env, config, call, policy, VersionOf(job), body, reviewed);
    if ref.Some? {
      AcceptedFate(env, reviewed, s', Newest(s'));
    } else {
      LostFate(job, reviewed, s');
    }
  }

  lemma TerminalReply(env: Env, job: Job, s: State)
    requires PolicyOf(job).Some? && !PlanOf(job).proceeds
    ensures PlanOf(job).record.Some?
    ensures var config, call, policy, plan := ConfigOf(job), job.call, PolicyOf(job).value, PlanOf(job);
            var (s', ref) := TryAdmission(env, config, call, policy, VersionOf(job),
                                          TerminalBody(config, call, policy, plan, ReviewOf(call, policy).0), s);
            Terminal(env, job, policy, plan, ReviewOf(call, policy).0, s) ==
            (s', if plan.resolved == Refused then RefusedByPolicy
                 else if ref.Some? then DeferredForReview(call.review.ref) else ReviewReceiptUnavailable)
    ensures PlanOf(job).resolved != Refused ==>
              job.call.review.CreatorReturned? && job.call.review.ref != ""
                  && PolicyOf(job).value.disposition == DeferredForReviewToken
    ensures PlanOf(job).resolved == Refused ==>
              PolicyOf(job).value.disposition == DeferredForReviewToken ==>
                !(job.call.review.CreatorReturned? && job.call.review.ref != "")
  {}

  lemma AdmissionAnswers(env: Env, job: Job, s: State)
    requires PolicyOf(job).Some? && PlanOf(job).proceeds
    ensures var (s', progress) := Admit(env, job, s);
            if progress.Running? then StartedAs(job, FateOf(s, s')) else StoppedAs(job, progress.reply, FateOf(s, s'))
  {
    var config, call, policy := ConfigOf(job), job.call, PolicyOf(job).value;
    PolicyIsTold(job);
    AdmitUnfolds(env, job, s);
    if PlanOf(job).recorded {
      var body := AdmissionOf(config, call, AdmittedToken, None, None, None);
      TryAdmissionEffect(env, config, call, policy, VersionOf(job), body, s);
      var (s', ref) := TryAdmission(env, config, call, policy, VersionOf(job), body, s);
      if ref.Some? {
        AcceptedFate(env, s, s', Newest(s'));
      } else {
        LostFate(job, s, s');
      }
    }
  }

  /** What the first segment of any call comes to, told from its configuration, its
      resolvers and what became of its record: it starts the tool exactly when the
      call is admitted and its admission was not lost, or its class fails open;
      and every other call answers with its own reason. */
  lemma AdmitAnswers(env: Env, job: Job, s: State)
    ensures var (s', progress) := Admit(env, job, s);
            if progress.Running? then StartedAs(job, FateOf(s, s')) else StoppedAs(job, progress.reply, FateOf(s, s'))
  {
    PolicyIsTold(job);
    if PolicyOf(job).Some? {
      if PlanOf(job).proceeds {
        AdmissionAnswers(env, job, s);
      } else {
        TerminalAnswers(env, job, s);
      }
    }
  }
}
