/** What the telemetry of a call says: each segment adds exactly the failure of
    its review object, the gap of the record it lost, with the class of what went
    wrong, and the alert of an unsupported mode. */
module Telemetry {
  import opened Prelude
  import opened Receipts
  import opened Binding
  import opened Protocol

  // The class a deferral's failed review object is reported under, if it failed.
  function ReviewFailure(job: Job): Option<string>
  {
    if ConfigOf(job).hasPolicyResolver && job.call.policyAnswer.Answered?
       && job.call.policyAnswer.policy.disposition == DeferredForReviewToken then
      match job.call.review
      case NoCreator => Some("RuntimeError")
      case NotCallable => Some("TypeError")
      case CreatorRaised(className) => Some(className)
      case CreatorReturned(ref) => if ref == "" then Some("RuntimeError") else None
    else None
  }

  function ReviewReport(job: Job): seq<TelemetryEvent>
  {
    match ReviewFailure(job)
    case None => []
    case Some(className) =>
      [ReviewCreationFailed(ConfigOf(job).runtimeInstanceId, ConfigOf(job).boundaryId,
                            job.call.snapshot.logicalCallId, job.call.snapshot.toolName, className)]
  }

  function ClassText(fault: Fault): string
  {
    match fault
    case WriteFault => "receipt_sink_failure"
    case ContentFault => "receipt_signing_or_content_failure"
    case IoFault => "receipt_spool_io_failure"
    case OtherFault(className) => className
  }

  // Why an emission was lost: its write failed, or no write was ever offered.
  function LossClass(env: Env, s: State, s': State): string
  {
    if s'.world.attempts == s.world.attempts then "receipt_signing_or_content_failure"
    else match env.faults(s.world.attempts) case Some(fault) => ClassText(fault) case None => ""
  }

  function GapReport(
    job: Job, kind: ReceiptKindName, attempted: Option<OutcomeToken>, admissionRef: Option<string>, className: string)
    : TelemetryEvent
  {
    ReceiptGap(ConfigOf(job).runtimeInstanceId, ConfigOf(job).boundaryId, job.call.snapshot.logicalCallId,
               job.call.snapshot.toolName, kind, attempted, admissionRef, className)
  }

  lemma EmissionReports(
    env: Env, job: Job, policy: BindingPolicy, body: Body, s: State)
    requires body.AdmissionBody?
    ensures var (s', ref) := TryAdmission(env, ConfigOf(job), job.call, policy, VersionOf(job), body, s);
            && s'.telemetry ==
               s.telemetry
               + (if ref.None? then [GapReport(job, AdmissionKind, None, None, LossClass(env, s, s'))] else [])
            && (FateOf(s, s').Gapped? <==> ref.None?)
  {
    TryAdmissionEffect(env, ConfigOf(job), job.call, policy, VersionOf(job), body, s);
    assert s.telemetry + [] == s.telemetry;
  }

  lemma FateThrough(job: Job, s: State, reviewed: State, s': State)
    requires Quiet(s, reviewed)
    ensures FateOf(s, s') == FateOf(reviewed, s')
  {}

  lemma ReviewReports(job: Job, s: State)
    requires PolicyOf(job).Some?
    ensures Review(ConfigOf(job), job.call, PolicyOf(job).value, s).0.telemetry == s.telemetry + ReviewReport(job)
  {
    PolicyIsTold(job);
    assert s.telemetry + [] == s.telemetry;
  }

  /** The first segment of a call reports a failed review object, then the gap of
      a lost record, and nothing else. */
  lemma AdmissionReports(env: Env, job: Job, s: State)
    ensures var s' := Admit(env, job, s).0;
            s'.telemetry ==
            s.telemetry + ReviewReport(job)
            + if FateOf(s, s').Gapped? then [GapReport(job, AdmissionKind, None, None, LossClass(env, s, s'))] else []
  {
    PolicyIsTold(job);
    if PolicyOf(job).Some? {
      var config, call, policy := ConfigOf(job), job.call, PolicyOf(job).value;
      var reviewed := Review(config, call, policy, s).0;
      ReviewQuiet(config, call, policy, s);
      ReviewReports(job, s);
      FateThrough(job, s, reviewed, Admit(env, job, s).0);
      PlannedReports(env, job, s, reviewed);
      assert LossClass(env, s, Admit(env, job, s).0) == LossClass(env, reviewed, Admit(env, job, s).0);
    } else {
      assert s.telemetry + [] + [] == s.telemetry;
    }
  }

  lemma PlannedReports(env: Env, job: Job, s: State, reviewed: State)
    requires PolicyOf(job).Some? && reviewed == Review(ConfigOf(job), job.call, PolicyOf(job).value, s).0
    ensures var s' := Admit(env, job, s).0;
            s'.telemetry ==
            reviewed.telemetry
            + if FateOf(reviewed, s').Gapped? then
                [GapReport(job, AdmissionKind, None, None, LossClass(env, reviewed, s'))] else []
  {
    var config, call, policy := ConfigOf(job), job.call, PolicyOf(job).value;
    AdmitUnfolds(env, job, s);
    assert reviewed.telemetry + [] == reviewed.telemetry;
    if PlanOf(job).proceeds {
      EmissionReports(env, job, policy, AdmissionOf(config, call, AdmittedToken, None, None, None), reviewed);
    } else {
      TerminalReply(env, job, reviewed);
      EmissionReports(env, job, policy,
                      TerminalBody(config, call, policy, PlanOf(job), ReviewOf(call, policy).0), reviewed);
    }
  }

  // The class of a lost outcome: what projecting raised, or what the emission did.
  function OutcomeClass(env: Env, job: Job, s: State, s': State): string
  {
    if ProjectionFailed(job.call.ending) then ClassText(job.call.ending.projectionFault.value)
    else LossClass(env, s, s')
  }

  // The FastMCP binding alerts where its mode asks for more than an alert and the
  // outcome of a returned result was lost.
  predicate Alerts(job: Job)
  {
    && job.setup.FastMcp? && job.call.ending.Returned? && !ProjectionFailed(job.call.ending)
    && !ConfigOf(job).postExecutionAlerts
  }

  lemma OutcomeEmissionReports(env: Env, job: Job, run: Run, ref: string, s: State)
    ensures var (s', accepted) := EndingEmission(env, job, run, ref, s);
            && s'.telemetry ==
               s.telemetry + (if accepted then []
                              else [GapReport(job, OutcomeKind, Some(EndingToken(job.call.ending)), Some(ref),
                                              LossClass(env, s, s'))])
            && (FateOf(s, s').Gapped? <==> !accepted)
  {
    TryOutcomeEffect(env, ConfigOf(job), job.call, run.policy, VersionOf(job), EndingBody(env, job, ref),
                     EndingClass(job.call.ending), s);
    assert s.telemetry + [] == s.telemetry;
    assert EndingBody(env, job, ref).outcome == EndingToken(job.call.ending);
  }

  /** The second segment reports the gap of a lost outcome, then the alert of an
      unsupported mode, and nothing else. */
  lemma OutcomeReports(env: Env, job: Job, run: Run, s: State)
    requires RunOf(job, run)
    ensures var s' := Finish(env, job, run, s).0;
            s'.telemetry ==
            s.telemetry
            + (if FateOf(s, s').Gapped? then
                 [GapReport(job, OutcomeKind, Some(AttemptedToken(job.call.ending)), run.admissionRef,
                            OutcomeClass(env, job, s, s'))]
               else [])
            + if FateOf(s, s').Gapped? && Alerts(job) then [UnsupportedPostExecutionMode] else []
  {
    var s' := Finish(env, job, run, s).0;
    FinishEffect(env, job, run, s);
    if run.admissionRef.None? || TaskLost(job) {
      NothingReported(env, job, run, s);
    } else if ProjectionFailed(job.call.ending) {
      GapsAppend(s.telemetry, GapEvent(ConfigOf(job), job.call, OutcomeKind, Some(ResultReturned), run.admissionRef,
                                       job.call.ending.projectionFault.value));
      assert s'.telemetry + [] == s'.telemetry;
    } else {
      RunIsPlanned(job, run);
      EmittedReports(env, job, run, s);
    }
  }

  lemma AlertReports(job: Job, accepted: bool, s: State)
    requires !ProjectionFailed(job.call.ending)
    ensures Alerted(job, accepted, s).telemetry ==
            s.telemetry + if !accepted && Alerts(job) then [UnsupportedPostExecutionMode] else []
  {
    assert s.telemetry + [] == s.telemetry;
  }

  lemma EmittedReports(env: Env, job: Job, run: Run, s: State)
    requires run.plan.proceeds && run.plan.recorded && run.admissionRef.Some?
    requires !TaskLost(job) && !ProjectionFailed(job.call.ending)
    ensures var s' := Finish(env, job, run, s).0;
            s'.telemetry ==
            s.telemetry
            + (if FateOf(s, s').Gapped? then
                 [GapReport(job, OutcomeKind, Some(EndingToken(job.call.ending)), run.admissionRef,
                            LossClass(env, s, s'))]
               else [])
            + if FateOf(s, s').Gapped? && Alerts(job) then [UnsupportedPostExecutionMode] else []
  {
    var (after, accepted) := EndingEmission(env, job, run, run.admissionRef.value, s);
    FinishUnfolds(env, job, run, s);
    OutcomeEmissionReports(env, job, run, run.admissionRef.value, s);
    AlertedKeeps(job, accepted, after);
    AlertReports(job, accepted, after);
    SameReport(env, s, after, Alerted(job, accepted, after));
  }

  lemma SameReport(env: Env, s: State, a: State, b: State)
    requires a.world == b.world && Gaps(a.telemetry) == Gaps(b.telemetry)
    ensures FateOf(s, a) == FateOf(s, b) && LossClass(env, s, a) == LossClass(env, s, b)
  {}

  lemma NothingReported(env: Env, job: Job, run: Run, s: State)
    requires run.admissionRef.None? || TaskLost(job)
    ensures Finish(env, job, run, s).0 == s
    ensures s.telemetry + [] + [] == s.telemetry && FateOf(s, s).Unrecorded?
  {}
}
