/** The receipts of a call that loses none are the projection of its lifecycle
    plan: same number, same order, same facts, whichever binding it goes through
    and whatever writes of other calls fail. Other calls may write while the tool
    runs, so the two segments start from any two states. */
module Refinement {
  import opened Prelude
  import opened JsonTrees
  import opened Lifecycle
  import opened Receipts
  import opened Binding
  import opened Protocol
  import Fast = FastMcpBinding

  /** The facts of a receipt a plan speaks about. */
  datatype ReceiptView =
    | AdmissionView(
        disposition: DispositionToken, ground: Option<Ground>, reviewRef: bool, retry: Option<string>,
        parent: bool, limits: seq<string>)
    | OutcomeView(
        token: OutcomeToken, digest: bool, exceptionClass: Option<string>, facts: map<Key, bool>, limits: seq<string>)

  // A reason code outside the closed vocabulary counts as policy_refused.
  function NarrowedGround(reason: Option<string>): Option<Ground>
  {
    if reason.None? then None
    else match GroundOf(reason.value) case Some(g) => Some(g) case None => Some(PolicyRefused)
  }

  function ViewOf(e: Envelope): ReceiptView
  {
    match e.body
    case AdmissionBody(_, _, _, _, disposition, reviewRef, retry, reason) =>
      AdmissionView(disposition, NarrowedGround(reason), reviewRef.Some?, retry, e.parentReceiptRef.Some?, e.limits)
    case OutcomeBody(_, token, digest, owned) => OutcomeView(token, digest.Some?, e.exceptionClass, owned, e.limits)
  }

  function ViewsOf(log: seq<Envelope>): seq<ReceiptView>
  {
    seq(|log|, i requires 0 <= i < |log| => ViewOf(log[i]))
  }

  // The text of planned limit families; the boundary family is what the
  // deployment configured, without repetitions.
  function LimitTexts(env: Env, boundary: seq<string>, families: seq<LimitFamily>): seq<string>
  {
    if |families| == 0 then []
    else
      var before := LimitTexts(env, boundary, families[..|families| - 1]);
      var last := families[|families| - 1];
      if last == Boundary then Joined(before, boundary) else before + [env.limitText(last)]
  }

  // The projection of a plan, read off the plan alone.
  function PlannedAdmission(env: Env, boundary: seq<string>, plan: AdmissionPlan): seq<ReceiptView>
  {
    match plan.record
    case None => []
    case Some(r) =>
      [AdmissionView(ProjectDisposition(r.disposition), r.reasonCode, r.carriesReviewRef, r.retryContract,
                     r.referencesParent, LimitTexts(env, boundary, r.limits))]
  }

  function PlannedOutcome(env: Env, boundary: seq<string>, plan: OutcomePlan): seq<ReceiptView>
  {
    match plan.record
    case None => []
    case Some(r) =>
      match Fast.ProjectOutcome(r.outcome)
      case None => []
      case Some(token) =>
        [OutcomeView(token, r.carriesResultDigest, r.exceptionClass, GovernanceFacts(r),
                     LimitTexts(env, boundary, r.limits))]
  }

  // How the adapters classify the tool's ending for the planner.
  function ObservationOf(ending: ToolEnding): Observation
  {
    match ending
    case Returned(result, _) =>
      Observation(if result.TaskResult? then TaskSubmitted
                  else if result.ObjectResult? && result.isError then ErrorOutcome else ResultOutcome, None)
    case _ => Observe(ending)
  }

  // The request a binding makes of the planner for a call.
  function RequestOf(job: Job): AdmissionRequest
    requires PolicyOf(job).Some?
  {
    NeutralRequest(PolicyOf(job).value, ReviewOf(job.call, PolicyOf(job).value).1, ConfigOf(job))
  }

  // A segment that led from one state to another lost no record.
  predicate NothingLost(s: State, s': State)
  {
    Gaps(s'.telemetry) == Gaps(s.telemetry)
  }

  // A digest is a text of fixed length.
  ghost predicate DigestsAreTexts(env: Env)
  {
    forall v :: env.digest(v) != ""
  }

  // The parent reference chosen for a call; an empty one counts for the plan and
  // is left out of the receipt.
  function ParentOf(job: Job): Option<string>
    requires PolicyOf(job).Some?
  {
    ContextOf(ConfigOf(job), job.call, PolicyOf(job).value, VersionOf(job)).parentReceiptRef
  }

  // The planner calls every time-out a TimeoutError; the receipt keeps the name
  // of the class that was raised, unless that is empty.
  predicate ClassAgrees(ending: ToolEnding)
  {
    ending.Raised? ==> if ending.isTimeout then ending.className == TIMEOUT_CLASS else ending.className != ""
  }

  lemma LimitTextsOf(env: Env, boundary: seq<string>, f: LimitFamily)
    requires f != Boundary
    ensures LimitTexts(env, boundary, [Base, Boundary]) == Joined([env.limitText(Base)], boundary)
    ensures LimitTexts(env, boundary, [Base, f, Boundary]) == Joined([env.limitText(Base), env.limitText(f)], boundary)
  {
    assert [Base][..0] == [];
    assert LimitTexts(env, boundary, [Base]) == [env.limitText(Base)];
    assert [Base, Boundary][..1] == [Base];
    assert [Base, f][..1] == [Base];
    assert [Base, f, Boundary][..2] == [Base, f];
    assert LimitTexts(env, boundary, [Base, f]) == [env.limitText(Base), env.limitText(f)];
  }

  lemma OneNewView(s: State, s': State, view: ReceiptView)
    requires |s'.world.log| > 0 && s'.world.log == s.world.log + [Newest(s')] && ViewOf(Newest(s')) == view
    ensures s.world.log <= s'.world.log && ViewsOf(s'.world.log[|s.world.log|..]) == [view]
  {
    assert s'.world.log[|s.world.log|..] == [Newest(s')];
  }

  lemma NoNewView(log: seq<Envelope>)
    ensures ViewsOf(log[|log|..]) == []
  {}

  // ---- The admission -------------------------------------------------------

  // What a written admission says, limits and parent included.
  function BodyView(env: Env, job: Job, body: Body): ReceiptView
    requires PolicyOf(job).Some? && body.AdmissionBody?
  {
    var b := Normalized(body);
    AdmissionView(b.disposition, NarrowedGround(b.reasonCode), b.reviewObjectRef.Some?, b.retryContract,
                  Present(ParentOf(job)).Some?,
                  LimitTexts(env, AdmissionLimits(ConfigOf(job), PolicyOf(job).value), ADMISSION_LIMITS))
  }

  lemma CleanAdmission(env: Env, job: Job, body: Body, s: State)
    requires PolicyOf(job).Some? && body.AdmissionBody?
    requires NothingLost(s, TryAdmission(env, ConfigOf(job), job.call, PolicyOf(job).value, VersionOf(job), body, s).0)
    ensures var (s', ref) := TryAdmission(env, ConfigOf(job), job.call, PolicyOf(job).value, VersionOf(job), body, s);
            && ref.Some? && s.world.log <= s'.world.log
            && ViewsOf(s'.world.log[|s.world.log|..]) == [BodyView(env, job, body)]
  {
    var config, policy := ConfigOf(job), PolicyOf(job).value;
    var s' := TryAdmission(env, config, job.call, policy, VersionOf(job), body, s).0;
    TryAdmissionEffect(env, config, job.call, policy, VersionOf(job), body, s);
    AppendLimitsJoins([env.limitText(Base)], AdmissionLimits(config, policy));
    LimitTextsOf(env, AdmissionLimits(config, policy), Base);
    OneNewView(s, s', BodyView(env, job, body));
  }

  lemma ReasonNarrows(job: Job)
    requires PolicyOf(job).Some? && PlanOf(job).resolved == Refused
    ensures var reason := TerminalReason(PolicyOf(job).value, PlanOf(job));
            PlanOf(job).record.Some? && NarrowedGround(Some(reason)) == PlanOf(job).record.value.reasonCode
                && reason != ""
  {
    if PlanOf(job).requested == Deferred {
      assert GroundOf(GroundCode(ReviewObjectCreationFailed)) == Some(ReviewObjectCreationFailed);
    }
  }

  function WithParent(views: seq<ReceiptView>, parent: bool): seq<ReceiptView>
  {
    if |views| == 1 && views[0].AdmissionView? then [views[0].(parent := parent)] else views
  }

  // The planned admission, with a parent reference if there is one to write.
  function WrittenAdmission(env: Env, job: Job): seq<ReceiptView>
    requires PolicyOf(job).Some?
  {
    WithParent(PlannedAdmission(env, AdmissionLimits(ConfigOf(job), PolicyOf(job).value), PlanOf(job)),
               Present(ParentOf(job)).Some?)
  }

  // The body of a refusal or deferral says what is planned.
  lemma TerminalIsPlanned(env: Env, job: Job)
    requires PolicyOf(job).Some? && !PlanOf(job).proceeds
    ensures PlanOf(job).record.Some? && PlanOf(job).record.value.disposition != Admitted
    ensures var body := TerminalBody(ConfigOf(job), job.call, PolicyOf(job).value, PlanOf(job),
                                     ReviewOf(job.call, PolicyOf(job).value).0);
            body.AdmissionBody? && [BodyView(env, job, body)] == WrittenAdmission(env, job)
  {
    if PlanOf(job).resolved == Refused {
      ReasonNarrows(job);
    } else {
      assert RETRY_CONTRACT != "";
    }
  }

  lemma AdmissionIsPlanned(env: Env, job: Job)
    requires PolicyOf(job).Some? && PlanOf(job).proceeds && PlanOf(job).record.Some?
    ensures [BodyView(env, job, AdmissionOf(ConfigOf(job), job.call, AdmittedToken, None, None, None))] ==
            WrittenAdmission(env, job)
  {}

  // The one emission of a segment that plans a record: its body and the state
  // it starts from.
  function AdmissionEmission(env: Env, job: Job, s: State): (State, Option<string>)
    requires PolicyOf(job).Some? && PlanOf(job).record.Some?
  {
    var config, call, policy := ConfigOf(job), job.call, PolicyOf(job).value;
    var body := if PlanOf(job).proceeds then AdmissionOf(config, call, AdmittedToken, None, None, None)
                else TerminalBody(config, call, policy, PlanOf(job), ReviewOf(call, policy).0);
    TryAdmission(env, config, call, policy, VersionOf(job), body, Review(config, call, policy, s).0)
  }

  lemma AdmitEmits(env: Env, job: Job, s: State)
    requires PolicyOf(job).Some?
    ensures PlanOf(job).proceeds ==> PlanOf(job).recorded == PlanOf(job).record.Some?
    ensures PlanOf(job).record.Some? ==> Admit(env, job, s).0 == AdmissionEmission(env, job, s).0
    ensures PlanOf(job).record.None? ==> Admit(env, job, s).0.world == s.world && PlanOf(job).proceeds
    ensures Admit(env, job, s).1.Running? ==> PlanOf(job).proceeds
    ensures PlanOf(job).proceeds && (PlanOf(job).record.Some? ==> AdmissionEmission(env, job, s).1.Some?) ==>
              Admit(env, job, s).1 ==
              Running(Run(PolicyOf(job).value, PlanOf(job), if PlanOf(job).recorded then
                          AdmissionEmission(env, job, s).1 else None))
  {
    AdmitUnfolds(env, job, s);
    if !PlanOf(job).proceeds {
      TerminalIsPlanned(env, job);
    }
  }

  lemma EmissionIsPlanned(env: Env, job: Job, s: State)
    requires PolicyOf(job).Some? && PlanOf(job).record.Some?
    requires NothingLost(Review(ConfigOf(job), job.call, PolicyOf(job).value, s).0, AdmissionEmission(env, job, s).0)
    ensures var (s', ref) := AdmissionEmission(env, job, s);
            && ref.Some? && s.world.log <= s'.world.log
            && ViewsOf(s'.world.log[|s.world.log|..]) == WrittenAdmission(env, job)
  {
    var config, call, policy := ConfigOf(job), job.call, PolicyOf(job).value;
    var reviewed := Review(config, call, policy, s).0;
    if PlanOf(job).proceeds {
      AdmissionIsPlanned(env, job);
      CleanAdmission(env, job, AdmissionOf(config, call, AdmittedToken, None, None, None), reviewed);
    } else {
      TerminalIsPlanned(env, job);
      CleanAdmission(env, job, TerminalBody(config, call, policy, PlanOf(job), ReviewOf(call, policy).0), reviewed);
    }
  }

  /** The admission half: what `Admit` writes is the planned admission, but for
      an empty parent reference. */
  lemma AdmissionRefinesPlan(env: Env, job: Job, s: State)
    requires PolicyOf(job).Some? && NothingLost(s, Admit(env, job, s).0)
    ensures var (s', progress) := Admit(env, job, s);
            && s.world.log <= s'.world.log
            && ViewsOf(s'.world.log[|s.world.log|..]) == WrittenAdmission(env, job)
            && (progress.Running? <==> PlanOf(job).proceeds)
            && (progress.Running? ==>
                  && progress.run.policy == PolicyOf(job).value && progress.run.plan == PlanOf(job)
                  && (progress.run.admissionRef.Some? <==> PlanOf(job).recorded))
  {
    AdmitEmits(env, job, s);
    if PlanOf(job).record.Some? {
      ReviewQuiet(ConfigOf(job), job.call, PolicyOf(job).value, s);
      EmissionIsPlanned(env, job, s);
    } else {
      NoNewView(s.world.log);
    }
  }

  // ---- The outcome ---------------------------------------------------------

  // The class name on the receipt of an interrupted call.
  function RaisedClass(ending: ToolEnding): Option<string>
  {
    Present(EndingClass(ending))
  }

  function WithClass(views: seq<ReceiptView>, exceptionClass: Option<string>): seq<ReceiptView>
  {
    if |views| == 1 && views[0].OutcomeView? then [views[0].(exceptionClass := exceptionClass)] else views
  }

  // The limit families the emitter gives an outcome.
  function EndingFamilies(token: OutcomeToken): seq<LimitFamily>
  {
    match token
    case ResultReturned | ErrorReturned => [Base, ResultLimit, Boundary]
    case TaskSubmittedToken => [Base, Task, Boundary]
    case _ => ADMISSION_LIMITS
  }

  // What the outcome receipt of an ending says.
  function EndingView(env: Env, boundary: seq<string>, ending: ToolEnding): ReceiptView
  {
    var token := EndingToken(ending);
    OutcomeView(token, token == ResultReturned || token == ErrorReturned, RaisedClass(ending),
                if ending.Cancelled? then CANCELLATION_FACTS
                    else map[], LimitTexts(env, boundary, EndingFamilies(token)))
  }

  lemma EndingLimits(env: Env, boundary: seq<string>, token: OutcomeToken)
    requires AppendLimits([env.limitText(Base)] + FamilyLimits(env, token), boundary).Some?
    ensures AppendLimits([env.limitText(Base)] + FamilyLimits(env, token), boundary).value ==
            LimitTexts(env, boundary, EndingFamilies(token))
  {
    AppendLimitsJoins([env.limitText(Base)] + FamilyLimits(env, token), boundary);
    LimitTextsOf(env, boundary, ResultLimit);
    LimitTextsOf(env, boundary, Task);
    assert [env.limitText(Base)] + [] == [env.limitText(Base)];
    assert [env.limitText(Base)] + [env.limitText(Task)] == [env.limitText(Base), env.limitText(Task)];
    assert [env.limitText(Base)] + [env.limitText(ResultLimit)] == [env.limitText(Base), env.limitText(ResultLimit)];
  }

  // An outcome emission that loses nothing is accepted, and writes this.
  lemma CleanOutcome(env: Env, job: Job, run: Run, ref: string, s: State)
    requires DigestsAreTexts(env)
    requires NothingLost(s, EndingEmission(env, job, run, ref, s).0)
    ensures var (s', accepted) := EndingEmission(env, job, run, ref, s);
            && accepted && s.world.log <= s'.world.log
            && ViewsOf(s'.world.log[|s.world.log|..]) ==
                 [EndingView(env, Distinct(ConfigOf(job).limits), job.call.ending)]
  {
    var (s', accepted) := EndingEmission(env, job, run, ref, s);
    var body := EndingBody(env, job, ref);
    TryOutcomeEffect(env, ConfigOf(job), job.call, run.policy, VersionOf(job), body, EndingClass(job.call.ending), s);
    EndingLimitsWritten(env, job, run, ref, s);
    assert Normalized(body).resultDigest.Some? <==> body.outcome == ResultReturned || body.outcome == ErrorReturned;
    OneNewView(s, s', EndingView(env, Distinct(ConfigOf(job).limits), job.call.ending));
  }

  lemma EndingLimitsWritten(env: Env, job: Job, run: Run, ref: string, s: State)
    requires EndingEmission(env, job, run, ref, s).1
    ensures var e := Newest(EndingEmission(env, job, run, ref, s).0);
            && e.limits == LimitTexts(env, Distinct(ConfigOf(job).limits), EndingFamilies(EndingToken(job.call.ending)))
            && e.exceptionClass == RaisedClass(job.call.ending)
  {
    var boundary := Distinct(ConfigOf(job).limits);
    assert EndingBody(env, job, ref).outcome == EndingToken(job.call.ending);
    EndingLimits(env, boundary, EndingToken(job.call.ending));
  }

  // What the planner plans for an ending, but for the class.
  lemma EndingIsPlanned(env: Env, boundary: seq<string>, plan: AdmissionPlan, ending: ToolEnding)
    requires plan.proceeds && plan.recorded
    ensures PlanOutcome(plan, ObservationOf(ending)).Ok?
    ensures WithClass(PlannedOutcome(env, boundary, PlanOutcome(plan, ObservationOf(ending)).value),
                      RaisedClass(ending)) ==
            [EndingView(env, boundary, ending)]
  {}

  // A result that could not be projected leaves a gap, unless it is a task.
  lemma ProjectedWithoutFault(env: Env, job: Job, run: Run, s: State)
    requires run.admissionRef.Some? && NothingLost(s, Finish(env, job, run, s).0)
    ensures !ProjectionFailed(job.call.ending)
  {
    if ProjectionFailed(job.call.ending) {
      GapsAppend(s.telemetry, GapEvent(ConfigOf(job), job.call, OutcomeKind, Some(ResultReturned), run.admissionRef,
                                       job.call.ending.projectionFault.value));
    }
  }

  // The second segment is the emission of its ending.
  lemma FinishEmits(env: Env, job: Job, run: Run, s: State)
    requires run.plan.proceeds && run.plan.recorded && run.admissionRef.Some? && !TaskLost(job)
    requires NothingLost(s, Finish(env, job, run, s).0)
    ensures var (s', accepted) := EndingEmission(env, job, run, run.admissionRef.value, s);
            Finish(env, job, run, s).0.world == s'.world && NothingLost(s, s')
  {
    ProjectedWithoutFault(env, job, run, s);
    var (s', accepted) := EndingEmission(env, job, run, run.admissionRef.value, s);
    FinishUnfolds(env, job, run, s);
    AlertedKeeps(job, accepted, s');
  }

  /** The outcome half, from whatever state the shared world has reached: the
      planned outcome, with the class that was really raised; and nothing for a
      task handed to the binding that cannot carry one. */
  lemma OutcomeRefinesPlan(env: Env, job: Job, run: Run, s: State)
    requires DigestsAreTexts(env)
    requires run.plan.proceeds && (run.admissionRef.Some? <==> run.plan.recorded)
    requires NothingLost(s, Finish(env, job, run, s).0)
    ensures var s' := Finish(env, job, run, s).0;
            && s.world.log <= s'.world.log
            && ViewsOf(s'.world.log[|s.world.log|..]) ==
               if TaskLost(job) then []
               else
                 WithClass(PlannedOutcome(env, Distinct(ConfigOf(job).limits),
                                          PlanOutcome(run.plan, ObservationOf(job.call.ending)).value),
                           RaisedClass(job.call.ending))
  {
    if run.admissionRef.None? || TaskLost(job) {
      NoNewView(s.world.log);
    } else {
      FinishEmits(env, job, run, s);
      CleanOutcome(env, job, run, run.admissionRef.value, s);
      EndingIsPlanned(env, Distinct(ConfigOf(job).limits), run.plan, job.call.ending);
    }
  }

  // ---- The whole call ------------------------------------------------------

  function PlannedReceipts(env: Env, job: Job, plan: LifecyclePlan): seq<ReceiptView>
    requires PolicyOf(job).Some?
  {
    PlannedAdmission(env, Joined([], ConfigOf(job).limits + PolicyOf(job).value.limits), plan.admission) +
    match plan.outcome case None => [] case Some(outcome) => PlannedOutcome(env, Distinct(ConfigOf(job).limits),
          outcome)
  }

  lemma PlannedParent(env: Env, job: Job)
    requires PolicyOf(job).Some?
    ensures var planned := PlannedAdmission(env, AdmissionLimits(ConfigOf(job), PolicyOf(job).value), PlanOf(job));
            && |planned| == |WrittenAdmission(env, job)| == Count(PlanOf(job).record)
            && (WrittenAdmission(env, job) == planned <==> (|planned| > 0 ==> ParentOf(job) != Some("")))
  {}

  lemma PlannedClass(env: Env, boundary: seq<string>, plan: AdmissionPlan, ending: ToolEnding)
    requires plan.proceeds
    ensures PlanOutcome(plan, ObservationOf(ending)).Ok?
    ensures var views := PlannedOutcome(env, boundary, PlanOutcome(plan, ObservationOf(ending)).value);
            && |views| == Count(PlanOutcome(plan, ObservationOf(ending)).value.record) ==
                 (if plan.recorded then 1 else 0)
            && |WithClass(views, RaisedClass(ending))| == |views|
            && (WithClass(views, RaisedClass(ending)) == views <==> (plan.recorded ==> ClassAgrees(ending)))
  {}

  lemma PlanOfCall(job: Job)
    requires PolicyOf(job).Some?
    ensures var admission := PlanOf(job);
            var outcome := PlanOutcome(admission, ObservationOf(job.call.ending));
            && (admission.proceeds ==> outcome.Ok? && admission.recorded == admission.record.Some?)
            && PlanLifecycle(RequestOf(job), Some(ObservationOf(job.call.ending))) ==
               Ok(if admission.proceeds then
                    LifecyclePlan(admission, Some(outcome.value), Count(admission.record) + Count(outcome.value.record))
                  else LifecyclePlan(admission, None, Count(admission.record)))
  {}

  lemma SameParts(a: seq<ReceiptView>, b: seq<ReceiptView>, v: seq<ReceiptView>, w: seq<ReceiptView>)
    requires |a| == |b|
    ensures a + v == b + w <==> a == b && v == w
  {
    assert (a + v)[..|a|] == a && (b + w)[..|b|] == b && (a + v)[|a|..] == v && (b + w)[|b|..] == w;
  }

  // The receipts a call adds: in its admission from s, in its outcome from t.
  function CallViews(env: Env, job: Job, s: State, t: State): seq<ReceiptView>
  {
    var (s', progress) := Admit(env, job, s);
    var t' := if progress.Running? then Finish(env, job, progress.run, t).0 else t;
    if |s.world.log| <= |s'.world.log| && |t.world.log| <= |t'.world.log| then
      ViewsOf(s'.world.log[|s.world.log|..]) + ViewsOf(t'.world.log[|t.world.log|..])
    else []
  }

  // Neither segment of the call loses a record.
  predicate CallLosesNothing(env: Env, job: Job, s: State, t: State)
  {
    var (s', progress) := Admit(env, job, s);
    NothingLost(s, s') && (progress.Running? ==> NothingLost(t, Finish(env, job, progress.run, t).0))
  }

  /** Refinement: the receipts that a call which loses none adds to the log, in
      its admission from any state s and in its outcome from any later state t,
      are those of the lifecycle plan, in number and order, but for the outcome of
      a task handed to the binding that cannot carry one. And they say exactly
      what is planned, unless the raised class of a time-out is not the
      TimeoutError the planner calls it, the raised class has no name, or the
      parent reference is the empty text. */
  lemma CallRefinesPlan(env: Env, job: Job, s: State, t: State)
    requires DigestsAreTexts(env) && PolicyOf(job).Some? && CallLosesNothing(env, job, s, t)
    ensures var planned := PlanLifecycle(RequestOf(job), Some(ObservationOf(job.call.ending)));
            && planned.Ok?
            && var views, expected := CallViews(env, job, s, t), PlannedReceipts(env, job, planned.value);
            && |expected| == planned.value.recordCount
            && |views| == |expected| - (if |expected| == 2 && TaskLost(job) then 1 else 0)
            && (views == expected <==>
                  && (|expected| == 2 ==> ClassAgrees(job.call.ending) && !TaskLost(job))
                  && (|expected| > 0 ==> ParentOf(job) != Some("")))
  {
    AdmissionRefinesPlan(env, job, s);
    var (s', progress) := Admit(env, job, s);
    PlanOfCall(job);
    PlannedParent(env, job);
    var added := PlannedAdmission(env, AdmissionLimits(ConfigOf(job), PolicyOf(job).value), PlanOf(job));
    var written := WrittenAdmission(env, job);
    if progress.Running? {
      OutcomeRefinesPlan(env, job, progress.run, t);
      PlannedClass(env, Distinct(ConfigOf(job).limits), PlanOf(job), job.call.ending);
      var outcome := PlannedOutcome(env, Distinct(ConfigOf(job).limits),
                                    PlanOutcome(PlanOf(job), ObservationOf(job.call.ending)).value);
      SameParts(written, added, if TaskLost(job) then []
                else WithClass(outcome, RaisedClass(job.call.ending)), outcome);
    } else {
      NoNewView(t.world.log);
      assert added + [] == added && written + [] == written;
    }
  }
}
