/** What the gateway rebuilds from the writes it saw is faithful: the receipts
    it reports are the accepted ones, its decision is the planned one, and it
    reports a refusal of a tool that ran in one family of cases only. */
module Reconstruction {
  import opened Prelude
  import opened Lifecycle
  import opened Receipts
  import opened Binding
  import opened Protocol
  import opened GatewayAdapter
  import opened Refinement
  import WireRecords

  // ---- What the capturing sink sees of each segment ------------------------

  lemma SeenNothing(s: State, s': State)
    requires s'.world.log == s.world.log
    ensures Seen(s.world, s'.world) == []
  {}

  lemma SeenOne(env: Env, s: State, s': State, e: Envelope)
    requires Accepted(env, s, s', e)
    ensures Seen(s.world, s'.world) == [Capture(e)]
  {
    assert s'.world.log[|s.world.log|..] == [e];
  }

  predicate AdmittedCapture(c: Captured)
  {
    c.kind == AdmissionKind && c.disposition == Some(AdmittedToken)
  }

  predicate OutcomeCapture(c: Captured, token: OutcomeToken)
  {
    c.kind == OutcomeKind && c.outcome == Some(token)
  }

  // The capture of the one record of a refusal or deferral.
  predicate TerminalCapture(c: Captured, job: Job)
    requires PolicyOf(job).Some? && PlanOf(job).record.Some?
  {
    var body := Normalized(TerminalBody(ConfigOf(job), job.call, PolicyOf(job).value, PlanOf(job),
                                        ReviewOf(job.call, PolicyOf(job).value).0));
    && c.kind == AdmissionKind && c.disposition == Some(body.disposition)
    && c.reasonCode == body.reasonCode && c.reviewObjectRef == body.reviewObjectRef
  }

  // The policy stops the call before its tool.
  predicate Terminates(job: Job)
  {
    PolicyOf(job).Some? && PolicyOf(job).value.disposition != AdmittedToken
  }

  // An admission segment that ends the call.
  ghost predicate StoppedShape(job: Job, s: State, s': State, seen: seq<Captured>, reply: Reply)
  {
    && !reply.ToolReturned? && !reply.CallCancelled? && !reply.TaskUnsupported?
    && |seen| <= 1
    && (seen == [] && PolicyOf(job).Some? ==> LostAdmission(job, s, s'))
    && (seen != [] ==> Terminates(job) && PlanOf(job).record.Some? && TerminalCapture(seen[0], job))
  }

  // An admission segment that lets the tool run.
  ghost predicate StartedShape(job: Job, s: State, s': State, seen: seq<Captured>)
  {
    && PolicyOf(job).Some? && !Terminates(job) && |seen| <= 1
    && (seen != [] ==> PlansAdmission(job) && AdmittedCapture(seen[0]))
    && (!PlansAdmission(job) ==> s'.world == s.world)
    && (seen == [] && PlansAdmission(job) ==>
          LostAdmission(job, s, s') && PreExecutionMode(ConfigOf(job), PolicyOf(job).value.toolClass) == FailOpen)
  }

  ghost predicate ProperIds(env: Env)
  {
    && (forall n :: !Blank(env.ids(n)))
    && (forall n, e: Envelope :: !Blank(e.receiptId) ==> !Blank(env.answers(n, e)))
  }

  predicate ProperHandles(seen: seq<Captured>)
  {
    forall i | 0 <= i < |seen| :: !Blank(seen[i].receiptId)
  }

  lemma StopsForAReason(env: Env, job: Job, s: State)
    requires Admit(env, job, s).1.Stopped?
    ensures PolicyOf(job).Some? ==> PlansAdmission(job)
    ensures var reply := Admit(env, job, s).1.reply;
            !reply.ToolReturned? && !reply.CallCancelled? && !reply.TaskUnsupported?
  {
    if PolicyOf(job).Some? {
      AdmitUnfolds(env, job, s);
    }
  }

  lemma AdmissionSeen(env: Env, job: Job, s: State)
    ensures var (s', progress) := Admit(env, job, s);
            var seen := Seen(s.world, s'.world);
            && (ProperIds(env) ==> ProperHandles(seen))
            && match progress
               case Running(run) => StartedShape(job, s, s', seen) && RunOf(job, run)
                                    && run.admissionRef == (if seen == [] then None else Some(seen[0].receiptId))
               case Stopped(reply) => StoppedShape(job, s, s', seen, reply)
  {
    var (s', progress) := Admit(env, job, s);
    AdmitEffect(env, job, s);
    if progress.Stopped? {
      StopsForAReason(env, job, s);
    }
    if s'.world.log == s.world.log {
      SeenNothing(s, s');
    } else {
      SeenOne(env, s, s', Newest(s'));
    }
  }

  lemma OutcomeSeen(env: Env, job: Job, run: Run, s: State)
    requires RunOf(job, run)
    ensures var s' := Finish(env, job, run, s).0;
            var seen := Seen(s.world, s'.world);
            && (ProperIds(env) ==> ProperHandles(seen))
            && Finish(env, job, run, s).1 == EndingReply(job)
            && if run.admissionRef.None? || TaskLost(job) then seen == [] && s'.world == s.world
               else
                 || (seen == [] && LostOutcome(job, run.admissionRef.value, s, s'))
                 || (|seen| == 1 && OutcomeCapture(seen[0], EndingToken(job.call.ending)))
  {
    var s' := Finish(env, job, run, s).0;
    FinishEffect(env, job, run, s);
    if s'.world.log == s.world.log {
      SeenNothing(s, s');
    } else {
      SeenOne(env, s, s', Newest(s'));
    }
  }

  /** What the gateway can see of any call. */
  ghost predicate Shape(job: Job, s: State, resumed: State, t: CallTrace)
  {
    if !t.ran then StoppedShape(job, s, t.admitted, t.captured, t.reply)
    else
      && t.reply == EndingReply(job) && |t.captured| <= 2
      && StartedShape(job, s, t.admitted, t.captured[..if t.captured == [] then 0 else 1])
      && (|t.captured| == 2 ==> !TaskLost(job) && OutcomeCapture(t.captured[1], EndingToken(job.call.ending)))
      && (|t.captured| == 1 && !TaskLost(job) ==> LostOutcome(job, t.captured[0].receiptId, resumed, t.after))
      && (!PlansAdmission(job) ==> !t.writeFailed)
  }

  lemma TraceHasShape(env: Env, job: Job, s: State, resumed: State)
    ensures Shape(job, s, resumed, TraceOf(env, job, s, resumed))
    ensures ProperIds(env) ==> ProperHandles(TraceOf(env, job, s, resumed).captured)
  {
    var (admitted, progress) := Admit(env, job, s);
    AdmissionSeen(env, job, s);
    if progress.Running? {
      var first, second := Seen(s.world, admitted.world),
          Seen(resumed.world, Finish(env, job, progress.run, resumed).0.world);
      OutcomeSeen(env, job, progress.run, resumed);
      var t := TraceOf(env, job, s, resumed);
      assert t.captured == first + second;
      assert t.captured[..if t.captured == [] then 0 else 1] == first;
    }
  }

  // ---- The response --------------------------------------------------------

  // The receipts one call got accepted, in the order they were written.
  function AcceptedWrites(s: State, resumed: State, t: CallTrace): seq<Envelope>
    requires s.world.log <= t.admitted.world.log && (t.ran ==> resumed.world.log <= t.after.world.log)
  {
    t.admitted.world.log[|s.world.log|..] + if t.ran then t.after.world.log[|resumed.world.log|..] else []
  }

  function HandleOfEnvelope(e: Envelope): ReceiptHandle
  {
    ReceiptHandle(e.reference, if e.body.AdmissionBody? then AdmissionKind else OutcomeKind)
  }

  /** The handles of a response are the accepted writes of its own call, in
      order, whatever other calls wrote in between and whatever failed. */
  lemma ReceiptsAreTheAcceptedWrites(request: GovernedCallRequest, env: Env, job: Job, s: State, resumed: State)
    requires Respond(request, TraceOf(env, job, s, resumed)).Responded?
    ensures var t := TraceOf(env, job, s, resumed);
            && s.world.log <= t.admitted.world.log && (t.ran ==> resumed.world.log <= t.after.world.log)
            && var writes := AcceptedWrites(s, resumed, t);
               var receipts := Respond(request, t).response.receipts;
               && |receipts| == |writes|
               && forall i | 0 <= i < |writes| :: receipts[i] == HandleOfEnvelope(writes[i])
  {
    LogsGrow(env, job, s, resumed);
    TraceCaptures(env, job, s, resumed);
    RespondReportsCaptured(request, TraceOf(env, job, s, resumed));
  }

  lemma RespondReportsCaptured(request: GovernedCallRequest, t: CallTrace)
    requires Respond(request, t).Responded?
    ensures Respond(request, t).response.receipts == HandlesOf(t.captured)
  {
    assert t.captured == [] ==> HandlesOf(t.captured) == [];
  }

  lemma TraceCaptures(env: Env, job: Job, s: State, resumed: State)
    requires var t := TraceOf(env, job, s, resumed);
             s.world.log <= t.admitted.world.log && (t.ran ==> resumed.world.log <= t.after.world.log)
    ensures var t := TraceOf(env, job, s, resumed);
            t.captured == CaptureAll(AcceptedWrites(s, resumed, t))
  {
    var t := TraceOf(env, job, s, resumed);
    var first := t.admitted.world.log[|s.world.log|..];
    var second := if t.ran then t.after.world.log[|resumed.world.log|..] else [];
    CaptureSplits(first, second);
    assert AcceptedWrites(s, resumed, t) == first + second;
    assert CaptureAll(second) == if t.ran then Seen(resumed.world, t.after.world) else [];
  }

  lemma CaptureSplits(first: seq<Envelope>, second: seq<Envelope>)
    ensures CaptureAll(first + second) == CaptureAll(first) + CaptureAll(second)
  {}

  lemma LogsGrow(env: Env, job: Job, s: State, resumed: State)
    ensures var t := TraceOf(env, job, s, resumed);
            && s.world.log <= t.admitted.world.log && (t.ran ==> resumed.world.log <= t.after.world.log)
  {
    var (admitted, progress) := Admit(env, job, s);
    AdmitEffect(env, job, s);
    if progress.Running? {
      FinishEffect(env, job, progress.run, resumed);
    }
  }

  // A review creator that answered white space.
  predicate BlankReview(job: Job)
  {
    && PolicyOf(job).Some? && PolicyOf(job).value.disposition == DeferredForReviewToken
    && job.call.review.CreatorReturned? && job.call.review.ref != "" && Blank(job.call.review.ref)
  }

  lemma RetryIsNotBlank()
    ensures !Blank(RETRY_CONTRACT)
  {
    assert RETRY_CONTRACT[0] == 'r';
  }

  // A deferral is captured with the reference the creator returned.
  lemma DeferralCaptured(job: Job, c: Captured)
    requires PolicyOf(job).Some? && Terminates(job) && PlanOf(job).record.Some? && TerminalCapture(c, job)
    ensures c.disposition == Some(DeferredForReviewToken) <==> PlanOf(job).resolved == Deferred
    ensures c.disposition == Some(RefusedToken) <==> PlanOf(job).resolved == Refused
    ensures PlanOf(job).resolved == Deferred ==>
              job.call.review.CreatorReturned? && job.call.review.ref != ""
                  && c.reviewObjectRef == Some(job.call.review.ref)
  {}

  /** The response constructor rejects what the gateway built exactly when a
      deferral with a white-space review reference got its receipt accepted. */
  lemma ConstructorRejectsExactly(request: GovernedCallRequest, env: Env, job: Job, s: State, resumed: State)
    requires !Blank(request.requestRef) && ProperIds(env)
    ensures var t := TraceOf(env, job, s, resumed);
            Respond(request, t) == ConstructorRejected <==> BlankReview(job) && t.captured != []
  {
    var t := TraceOf(env, job, s, resumed);
    TraceHasShape(env, job, s, resumed);
    if t.ran {
      RanResponse(request, job, s, resumed, t);
    } else {
      if t.captured != [] {
        DeferralCaptured(job, t.captured[0]);
      }
      StoppedResponse(request, job, t);
    }
  }

  lemma StoppedResponse(request: GovernedCallRequest, job: Job, t: CallTrace)
    requires !t.ran && ProperHandles(t.captured) && !Blank(request.requestRef) && |t.captured| <= 1
    requires !t.reply.ToolReturned? && !t.reply.CallCancelled? && !t.reply.TaskUnsupported?
    requires t.captured != [] ==>
               && Terminates(job) && t.captured[0].disposition.Some?
               && (t.captured[0].disposition == Some(DeferredForReviewToken) <==> PlanOf(job).resolved == Deferred)
               && (t.captured[0].disposition == Some(RefusedToken) <==> PlanOf(job).resolved == Refused)
               && (PlanOf(job).resolved == Deferred ==>
                     && job.call.review.CreatorReturned? && job.call.review.ref != ""
                     && t.captured[0].reviewObjectRef == Some(job.call.review.ref))
    ensures Respond(request, t) == ConstructorRejected <==> BlankReview(job) && t.captured != []
  {
    RetryIsNotBlank();
    assert HandlesOf(t.captured) == if t.captured == [] then [] else [HandleOf(t.captured[0])];
  }

  lemma RanResponse(request: GovernedCallRequest, job: Job, s: State, resumed: State, t: CallTrace)
    requires t.ran && Shape(job, s, resumed, t) && ProperHandles(t.captured) && !Blank(request.requestRef)
    ensures Respond(request, t) != ConstructorRejected
  {
    if t.captured != [] {
      assert t.captured[..1][0] == t.captured[0];
    }
  }

  /** A refused or deferred response means the tool did not run, and an admitted
      one that it did, except in one case: the admission write of a class that
      fails open failed, the tool ran all the same and raised. That call is
      reported refused, required_sink_unavailable. */
  lemma DispositionTellsWhetherTheToolRan(request: GovernedCallRequest, env: Env, job: Job, s: State, resumed: State)
    requires Respond(request, TraceOf(env, job, s, resumed)).Responded?
    ensures var t := TraceOf(env, job, s, resumed);
            var r := Respond(request, t).response;
            && (!t.ran ==> r.disposition != Admitted)
            && (t.ran ==> (r.disposition != Admitted <==> job.call.ending.Raised? && t.captured == []))
            && (t.ran && r.disposition != Admitted ==>
                  && t.writeFailed && r.diagnostic == Some(RefusalGround(RequiredSinkUnavailable))
                  && PlansAdmission(job) && LostAdmission(job, s, t.admitted)
                  && PreExecutionMode(ConfigOf(job), PolicyOf(job).value.toolClass) == FailOpen)
  {
    var t := TraceOf(env, job, s, resumed);
    TraceHasShape(env, job, s, resumed);
    if t.ran {
      RanDisposition(request, job, s, resumed, t);
    } else if t.captured != [] {
      DeferralCaptured(job, t.captured[0]);
      StoppedDisposition(request, t);
    }
  }

  lemma RanDisposition(request: GovernedCallRequest, job: Job, s: State, resumed: State, t: CallTrace)
    requires t.ran && Shape(job, s, resumed, t) && Respond(request, t).Responded?
    ensures var r := Respond(request, t).response;
            && (r.disposition != Admitted <==> job.call.ending.Raised? && t.captured == [])
            && (r.disposition != Admitted ==>
                t.writeFailed && r.diagnostic == Some(RefusalGround(RequiredSinkUnavailable)))
  {
    if t.captured != [] {
      assert t.captured[..1][0] == t.captured[0];
    }
  }

  lemma StoppedDisposition(request: GovernedCallRequest, t: CallTrace)
    requires !t.reply.ToolReturned? && !t.reply.CallCancelled? && !t.reply.TaskUnsupported?
    requires |t.captured| == 1 && t.captured[0].disposition.Some? && t.captured[0].disposition.value != AdmittedToken
    ensures Respond(request, t).Responded? ==> Respond(request, t).response.disposition != Admitted
  {}

  // No receipt gap was recorded by either segment of the call.
  predicate NoGaps(s: State, resumed: State, t: CallTrace)
  {
    Gaps(t.admitted.telemetry) == Gaps(s.telemetry) && (t.ran ==> Gaps(t.after.telemetry) == Gaps(resumed.telemetry))
  }

  // The planner's outcome of the way the tool ended.
  function PlannedOutcome(job: Job): Option<Outcome>
    requires PolicyOf(job).Some?
  {
    match PlanOutcome(PlanOf(job), ObservationOf(job.call.ending))
    case Ok(outcome) => if outcome.record.Some? then Some(outcome.record.value.outcome) else None
    case Err(_) => None
  }

  /** Without receipt gaps a refused or deferred call is answered as planned:
      the planner's disposition, its refusal ground as the diagnostic, and the
      review reference to come back with. */
  lemma TerminalDecisionIsPlanned(request: GovernedCallRequest, env: Env, job: Job, s: State, resumed: State)
    requires PolicyOf(job).Some? && Terminates(job) && !BlankReview(job)
    requires NoGaps(s, resumed, TraceOf(env, job, s, resumed))
    requires !Blank(request.requestRef) && ProperIds(env)
    ensures var t := TraceOf(env, job, s, resumed);
            var plan := PlanOf(job);
            && !t.ran && plan.record.Some? && |t.captured| == 1 && plan.resolved != Admitted
            && Respond(request, t) == Responded(
                 if plan.resolved == Refused then
                   Plain(request, Refused, None, HandlesOf(t.captured),
                         if plan.record.value.reasonCode.Some? then
                             Some(RefusalGround(plan.record.value.reasonCode.value)) else None)
                 else
                   Plain(request, Deferred, None, HandlesOf(t.captured), Some(DeferredForReviewCode))
                     .(reviewObjectRef := Some(CreateReview(job.call.review).value),
                       retryInstruction := Some(RETRY_CONTRACT)))
  {
    var t := TraceOf(env, job, s, resumed);
    TraceHasShape(env, job, s, resumed);
    ConstructorRejectsExactly(request, env, job, s, resumed);
    TerminalAnswer(request, job, s, t);
  }

  lemma TerminalAnswer(request: GovernedCallRequest, job: Job, s: State, t: CallTrace)
    requires PolicyOf(job).Some? && Terminates(job) && !t.ran && StoppedShape(job, s, t.admitted, t.captured, t.reply)
    requires Gaps(t.admitted.telemetry) == Gaps(s.telemetry) && Respond(request, t) != ConstructorRejected
    ensures var plan := PlanOf(job);
            && plan.record.Some? && |t.captured| == 1 && plan.resolved != Admitted
            && Respond(request, t) == Responded(
                 if plan.resolved == Refused then
                   Plain(request, Refused, None, HandlesOf(t.captured),
                         if plan.record.value.reasonCode.Some? then
                             Some(RefusalGround(plan.record.value.reasonCode.value)) else None)
                 else
                   Plain(request, Deferred, None, HandlesOf(t.captured), Some(DeferredForReviewCode))
                     .(reviewObjectRef := Some(CreateReview(job.call.review).value),
                       retryInstruction := Some(RETRY_CONTRACT)))
  {
    DeferralCaptured(job, t.captured[0]);
    if PlanOf(job).resolved == Refused {
      ReasonNarrows(job);
      RefusalAnswer(request, t);
    } else {
      DeferralAnswer(request, t);
    }
  }

  lemma RefusalAnswer(request: GovernedCallRequest, t: CallTrace)
    requires !t.reply.ToolReturned? && !t.reply.CallCancelled? && !t.reply.TaskUnsupported?
    requires |t.captured| == 1 && t.captured[0].disposition == Some(RefusedToken)
    requires Respond(request, t) != ConstructorRejected
    ensures Respond(request, t) ==
            Responded(Plain(request, Refused, None, HandlesOf(t.captured),
                            Some(RefusalDiagnostic(t.captured[0].reasonCode))))
  {}

  lemma DeferralAnswer(request: GovernedCallRequest, t: CallTrace)
    requires !t.reply.ToolReturned? && !t.reply.CallCancelled? && !t.reply.TaskUnsupported?
    requires |t.captured| == 1 && t.captured[0].disposition == Some(DeferredForReviewToken)
    requires Respond(request, t) != ConstructorRejected
    ensures Respond(request, t) ==
            Responded(Plain(request, Deferred, None, HandlesOf(t.captured), Some(DeferredForReviewCode))
                        .(reviewObjectRef := t.captured[0].reviewObjectRef, retryInstruction := Some(RETRY_CONTRACT)))
  {}

  /** Without receipt gaps an admitted call is answered with the planner's
      outcome. A call whose plan records nothing is answered from the raw
      result: its exception is passed on, and a task looks like a result. */
  lemma AdmittedDecisionIsPlanned(request: GovernedCallRequest, env: Env, job: Job, s: State, resumed: State)
    requires PolicyOf(job).Some? && !Terminates(job) && !TaskLost(job)
    requires NoGaps(s, resumed, TraceOf(env, job, s, resumed))
    requires !Blank(request.requestRef) && ProperIds(env)
    ensures var t := TraceOf(env, job, s, resumed);
            var e := Respond(request, t);
            && t.ran && |t.captured| == (if PlanOf(job).recorded then 2 else 0)
            && (if !PlanOf(job).recorded && job.call.ending.Raised? then e == Propagated(EndingReply(job))
                else
                  && e.Responded? && e.response.disposition == Admitted
                  && e.response.outcome ==
                     if PlanOf(job).recorded then PlannedOutcome(job)
                     else if job.call.ending.Cancelled? then Some(Cancellation)
                     else Some(if RawIsError(job.call.ending.result) then ErrorOutcome else ResultOutcome))
  {
    var t := TraceOf(env, job, s, resumed);
    TraceHasShape(env, job, s, resumed);
    RanResponse(request, job, s, resumed, t);
    if t.captured != [] {
      assert t.captured[..1][0] == t.captured[0];
      RecordedAnswer(request, job, t);
    } else {
      UnrecordedAnswer(request, job, t);
    }
  }

  lemma RecordedAnswer(request: GovernedCallRequest, job: Job, t: CallTrace)
    requires PolicyOf(job).Some? && !Terminates(job) && PlansAdmission(job) && !TaskLost(job)
    requires t.reply == EndingReply(job) && |t.captured| == 2
    requires AdmittedCapture(t.captured[0]) && OutcomeCapture(t.captured[1], EndingToken(job.call.ending))
    requires Respond(request, t) != ConstructorRejected
    ensures Respond(request, t).Responded? && Respond(request, t).response.disposition == Admitted
    ensures Respond(request, t).response.outcome == PlannedOutcome(job)
  {}

  lemma UnrecordedAnswer(request: GovernedCallRequest, job: Job, t: CallTrace)
    requires !TaskLost(job) && t.reply == EndingReply(job) && t.captured == [] && !t.writeFailed
    requires Respond(request, t) != ConstructorRejected
    ensures if job.call.ending.Raised? then Respond(request, t) == Propagated(EndingReply(job))
            else
              && Respond(request, t).Responded? && Respond(request, t).response.disposition == Admitted
              && Respond(request, t).response.outcome ==
                 Some(if job.call.ending.Cancelled? then Cancellation
                      else if RawIsError(job.call.ending.result) then ErrorOutcome else ResultOutcome)
  {}

  // ---- Answers, told from the call -----------------------------------------

  // What the gateway answers to a call whose tool ran, from the way the tool
  // ended and how many of the call's writes were accepted.
  function RanAnswer(request: GovernedCallRequest, job: Job, captured: seq<Captured>): Execution
  {
    var ref, receipts := request.requestRef, HandlesOf(captured);
    match job.call.ending
    case Cancelled =>
      Responded(GovernedCallResponse(ref, ref, Admitted, Some(Cancellation), None, receipts, None, None,
                                     Some(CancelledCode), true))
    case Raised(_, _, isConnection) =>
      Responded(GovernedCallResponse(ref, ref, Admitted, Some(ExceptionOutcome), None, receipts, None, None,
                                     Some(if isConnection then RemoteUnavailable else RemoteException), false))
    case Returned(result, _) =>
      if result.TaskResult? && job.setup.OfficialSdk? then
        Responded(GovernedCallResponse(ref, ref, Admitted, None, None, receipts, None, None,
                                       Some(UnsupportedLifecycleState), false))
      else if result.TaskResult? && |captured| == 2 then
        Responded(GovernedCallResponse(ref, ref, Admitted, Some(TaskSubmitted), None, receipts, None, None, None,
                                       false))
      else
        var isError := result.ObjectResult? && result.isError;
        Responded(GovernedCallResponse(ref, ref, Admitted, Some(if isError then ErrorOutcome else ResultOutcome),
                                       Some(BusinessResult(isError, result)), receipts, None, None, None, false))
  }

  // The gateway saw nothing written: a failed write is a sink failure, and with
  // none the exception is passed on.
  function NothingSeen(request: GovernedCallRequest, t: CallTrace): Execution
  {
    if t.writeFailed then
      Responded(GovernedCallResponse(request.requestRef, request.requestRef, Refused, None, None, [], None, None,
                                     Some(RefusalGround(RequiredSinkUnavailable)), false))
    else Propagated(t.reply)
  }

  /** The answer to a call whose tool ran, whatever became of its records: its
      outcome, its business result and its diagnostic follow from the tool's
      ending, except that a raised exception of which no record was accepted is a
      sink failure or is passed on. */
  lemma RanCallAnswers(request: GovernedCallRequest, env: Env, job: Job, s: State, resumed: State)
    requires !Blank(request.requestRef) && ProperIds(env) && TraceOf(env, job, s, resumed).ran
    ensures var t := TraceOf(env, job, s, resumed);
            Respond(request, t) ==
            if job.call.ending.Raised? && t.captured == [] then NothingSeen(request, t)
            else RanAnswer(request, job, t.captured)
  {
    var t := TraceOf(env, job, s, resumed);
    TraceHasShape(env, job, s, resumed);
    RanShapeAnswers(request, job, s, resumed, t);
  }

  lemma RanShapeAnswers(request: GovernedCallRequest, job: Job, s: State, resumed: State, t: CallTrace)
    requires t.ran && Shape(job, s, resumed, t) && ProperHandles(t.captured) && !Blank(request.requestRef)
    ensures Respond(request, t) ==
            if job.call.ending.Raised? && t.captured == [] then NothingSeen(request, t)
            else RanAnswer(request, job, t.captured)
  {
    RanResponse(request, job, s, resumed, t);
    if t.captured != [] {
      assert t.captured[..1][0] == t.captured[0];
    }
  }

  // The diagnostic of a refusal, from its reason code on the wire.
  function GroundTold(reason: string): Ground
  {
    match reason
    case "unknown_tool_fail_closed" => UnknownToolFailClosed
    case "required_sink_unavailable" => RequiredSinkUnavailable
    case "review_object_creation_failed" => ReviewObjectCreationFailed
    case _ => PolicyRefused
  }

  // What the gateway answers to a call that stopped with its record written.
  function StoppedAnswer(request: GovernedCallRequest, job: Job, captured: seq<Captured>): Execution
  {
    var ref, receipts := request.requestRef, HandlesOf(captured);
    if !Defers(job) then
      Responded(GovernedCallResponse(ref, ref, Refused, None, None, receipts, None, None,
                                     Some(RefusalGround(GroundTold(WireRecords.ReasonTold(job)))), false))
    else if Blank(job.call.review.ref) then ConstructorRejected
    else
      Responded(GovernedCallResponse(ref, ref, Deferred, None, None, receipts, Some(job.call.review.ref),
                                     Some("retry_after_approval"), Some(DeferredForReviewCode), false))
  }

  /** The answer to a call whose tool did not run: a refusal under the reason that
      is on its record, a deferral with the review reference to come back with, a
      sink failure, or the exception passed on. */
  lemma StoppedCallAnswers(request: GovernedCallRequest, env: Env, job: Job, s: State, resumed: State)
    requires !Blank(request.requestRef) && ProperIds(env) && !TraceOf(env, job, s, resumed).ran
    ensures var t := TraceOf(env, job, s, resumed);
            && (t.captured != [] ==> !Admits(job) && !PolicyFails(job))
            && Respond(request, t) ==
               if t.captured == [] then NothingSeen(request, t) else StoppedAnswer(request, job, t.captured)
  {
    TraceHasShape(env, job, s, resumed);
    StoppedByShape(request, job, s, TraceOf(env, job, s, resumed));
  }

  lemma StoppedByShape(request: GovernedCallRequest, job: Job, s: State, t: CallTrace)
    requires !Blank(request.requestRef) && !t.ran && ProperHandles(t.captured)
    requires StoppedShape(job, s, t.admitted, t.captured, t.reply)
    ensures t.captured != [] ==> !Admits(job) && !PolicyFails(job)
    ensures Respond(request, t) ==
            if t.captured == [] then NothingSeen(request, t) else StoppedAnswer(request, job, t.captured)
  {
    PolicyIsTold(job);
    if t.captured != [] {
      CaptureIsTold(job, t.captured[0]);
      StoppedShapeAnswers(request, job, t);
    }
  }

  // The capture of a refusal or deferral, told from the call.
  lemma CaptureIsTold(job: Job, c: Captured)
    requires PolicyOf(job).Some? && Terminates(job) && PlanOf(job).record.Some? && TerminalCapture(c, job)
    ensures c.disposition == Some(if Defers(job) then DeferredForReviewToken else RefusedToken)
    ensures Defers(job) ==> c.reviewObjectRef == Some(job.call.review.ref)
    ensures !Defers(job) ==> c.reasonCode == Some(WireRecords.ReasonTold(job))
  {
    PolicyIsTold(job);
    assert "policy_refused" != "" && "review_object_creation_failed" != "";
  }

  lemma StoppedShapeAnswers(request: GovernedCallRequest, job: Job, t: CallTrace)
    requires !t.ran && ProperHandles(t.captured) && !Blank(request.requestRef) && |t.captured| == 1
    requires !t.reply.ToolReturned? && !t.reply.CallCancelled? && !t.reply.TaskUnsupported?
    requires var c := t.captured[0];
             && c.disposition == Some(if Defers(job) then DeferredForReviewToken else RefusedToken)
             && (Defers(job) ==> c.reviewObjectRef == Some(job.call.review.ref))
             && (!Defers(job) ==> c.reasonCode == Some(WireRecords.ReasonTold(job)))
    ensures Respond(request, t) == StoppedAnswer(request, job, t.captured)
  {
    RetryIsNotBlank();
    assert HandlesOf(t.captured) == [HandleOf(t.captured[0])];
    GroundIsTold(WireRecords.ReasonTold(job));
  }

  lemma GroundIsTold(reason: string)
    ensures RefusalDiagnostic(Some(reason)) == RefusalGround(GroundTold(reason))
  {}
}
