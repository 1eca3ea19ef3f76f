/** Calls at which the code departs from its prose, one for each way that the
    theorems describe exactly. */
module Departures {
  import opened Prelude
  import opened JsonTrees
  import opened Lifecycle
  import opened Receipts
  import opened Binding
  import opened Protocol
  import opened Refinement
  import opened Parity
  import opened GatewayAdapter
  import opened Reconstruction
  import Fast = FastMcpBinding
  import EnforcementHarness

  // ---- Where nothing goes wrong outside ------------------------------------

  // No write fails and no content is refused.
  ghost predicate Faultless(env: Env)
  {
    (forall n :: env.faults(n).None?) && (forall e :: !env.rejects(e))
  }

  predicate NoLimits(job: Job)
    requires PolicyOf(job).Some?
  {
    ConfigOf(job).limits == [] && PolicyOf(job).value.limits == []
  }

  lemma AdmissionGoesThrough(env: Env, job: Job, body: Body, s: State)
    requires Faultless(env) && PolicyOf(job).Some? && NoLimits(job) && body.AdmissionBody?
    ensures TryAdmission(env, ConfigOf(job), job.call, PolicyOf(job).value, VersionOf(job), body, s).1.Some?
  {}

  lemma OutcomeGoesThrough(env: Env, job: Job, run: Run, ref: string, s: State)
    requires Faultless(env) && PolicyOf(job).Some? && NoLimits(job)
    ensures EndingEmission(env, job, run, ref, s).1
  {}

  /** A call at which nothing goes wrong outside, and whose result can be
      projected, loses no record. */
  lemma FaultlessLosesNothing(env: Env, job: Job, s: State, t: State)
    requires Faultless(env) && PolicyOf(job).Some? && NoLimits(job) && !ProjectionFailed(job.call.ending)
    ensures CallLosesNothing(env, job, s, t)
  {
    var config, call, policy := ConfigOf(job), job.call, PolicyOf(job).value;
    var (s', progress) := Admit(env, job, s);
    AdmitEmits(env, job, s);
    ReviewQuiet(config, call, policy, s);
    if PlanOf(job).record.Some? {
      if PlanOf(job).proceeds {
        AdmissionGoesThrough(env, job, AdmissionOf(config, call, AdmittedToken, None, None, None),
                             Review(config, call, policy, s).0);
      } else {
        TerminalIsPlanned(env, job);
        AdmissionGoesThrough(env, job, TerminalBody(config, call, policy, PlanOf(job), ReviewOf(call, policy).0),
                             Review(config, call, policy, s).0);
      }
    }
    if progress.Running? {
      FinishLosesNothing(env, job, progress.run, t);
    }
  }

  lemma FinishLosesNothing(env: Env, job: Job, run: Run, t: State)
    requires Faultless(env) && PolicyOf(job).Some? && NoLimits(job) && !ProjectionFailed(job.call.ending)
    requires run.plan.proceeds && (run.admissionRef.Some? ==> run.plan.recorded)
    ensures NothingLost(t, Finish(env, job, run, t).0)
  {
    if run.admissionRef.Some? && !TaskLost(job) {
      OutcomeGoesThrough(env, job, run, run.admissionRef.value, t);
      var (t', accepted) := EndingEmission(env, job, run, run.admissionRef.value, t);
      FinishUnfolds(env, job, run, t);
      AlertedKeeps(job, accepted, t');
    }
  }

  // ---- The calls -----------------------------------------------------------

  // An outside whose n-th write fails as told; everything else succeeds.
  function Outside(faults: nat -> Option<Fault>): Env
  {
    Env(n => "r", n => "t", faults, (n: nat, e: Envelope) => e.receiptId, e => false, v => "d", f => "l", "i")
  }

  function Sound(): Env
  {
    Outside(n => None)
  }

  function ConfigWith(emitReadAdmission: bool, parent: Option<string>): BindingConfig
  {
    BindingConfig("r", "b", "p", "1", map[], true, DEFAULT_FAILURE_MODES, true, emitReadAdmission, parent, [])
  }

  function CallWith(disposition: DispositionToken, toolClass: ToolClass, review: ReviewAnswer, ending: ToolEnding): Call
  {
    Call(RequestSnapshot("t", "d", "q", "s", None), Actor("a", None, None),
         Answered(BindingPolicy(disposition, toolClass, None, None, [])), OperatorFailed, review, ending)
  }

  function FastJob(config: BindingConfig, call: Call): Job
  {
    Job(FastMcp(Fast.FastMcpConfig(config, false, {}, {})), call)
  }

  function Request(): GovernedCallRequest
  {
    GovernedCallRequest("q", "d", "k", None)
  }

  const IDLE: State := State(World([], 0, 0), [])

  function AdmittedJob(ending: ToolEnding): Job
  {
    FastJob(ConfigWith(true, None), CallWith(AdmittedToken, Write, NoCreator, ending))
  }

  function DeferredJob(): Job
  {
    FastJob(ConfigWith(true, None), CallWith(DeferredForReviewToken, Write, CreatorReturned(" "), Cancelled))
  }

  lemma SoundIdsAreProper()
    ensures ProperIds(Sound()) && !Blank(Request().requestRef)
  {
    assert "r"[0] == 'r' && "q"[0] == 'q';
  }

  /** A deferral whose review creator answers a single space: its receipt is
      written, and the gateway's own response is rejected. */
  lemma BlankReviewIsRejected()
    ensures Respond(Request(), GatewayAdapter.TraceOf(Sound(), DeferredJob(), IDLE, IDLE)) == ConstructorRejected
  {
    var trace := GatewayAdapter.TraceOf(Sound(), DeferredJob(), IDLE, IDLE);
    FaultlessLosesNothing(Sound(), DeferredJob(), IDLE, IDLE);
    TraceHasShape(Sound(), DeferredJob(), IDLE, IDLE);
    SoundIdsAreProper();
    ConstructorRejectsExactly(Request(), Sound(), DeferredJob(), IDLE, IDLE);
  }

  function LostReadJob(): Job
  {
    FastJob(ConfigWith(true, None), CallWith(AdmittedToken, Read, NoCreator, Raised("ValueError", false, false)))
  }

  /** A read, which fails open, whose admission write fails and whose tool raises:
      the tool ran, and the call is answered as refused. */
  lemma RefusedThoughItRan()
    ensures var env := Outside(n => if n == 0 then Some(WriteFault) else None);
            var trace := GatewayAdapter.TraceOf(env, LostReadJob(), IDLE, IDLE);
            && trace.ran && Respond(Request(), trace).Responded?
            && Respond(Request(), trace).response.disposition == Refused
  {
    var env := Outside(n => if n == 0 then Some(WriteFault) else None);
    var job := LostReadJob();
    AdmitUnfolds(env, job, IDLE);
    var body := AdmissionOf(ConfigOf(job), job.call, AdmittedToken, None, None, None);
    assert TryAdmission(env, ConfigOf(job), job.call, PolicyOf(job).value, VersionOf(job), body, IDLE).1.None?;
    var trace := GatewayAdapter.TraceOf(env, job, IDLE, IDLE);
    assert trace.ran && trace.reply == ToolRaised("ValueError", false);
    assert trace.captured == [] && trace.writeFailed;
    SoundIdsAreProper();
  }

  /** A time-out of another class than TimeoutError: the receipts are not those
      of the plan. */
  lemma TimeoutKeepsItsClass(s: State, t: State)
    ensures var job := AdmittedJob(Raised("ConnectTimeout", true, false));
            var plan := PlanLifecycle(RequestOf(job), Some(ObservationOf(job.call.ending)));
            plan.Ok? && CallViews(Sound(), job, s, t) != PlannedReceipts(Sound(), job, plan.value)
  {
    var job := AdmittedJob(Raised("ConnectTimeout", true, false));
    FaultlessLosesNothing(Sound(), job, s, t);
    CallRefinesPlan(Sound(), job, s, t);
    assert "ConnectTimeout"[0] != TIMEOUT_CLASS[0];
  }

  /** A raised class without a name is left out of the receipt. */
  lemma NamelessClassIsLeftOut(s: State, t: State)
    ensures var job := AdmittedJob(Raised("", false, false));
            var plan := PlanLifecycle(RequestOf(job), Some(ObservationOf(job.call.ending)));
            plan.Ok? && CallViews(Sound(), job, s, t) != PlannedReceipts(Sound(), job, plan.value)
  {
    var job := AdmittedJob(Raised("", false, false));
    FaultlessLosesNothing(Sound(), job, s, t);
    CallRefinesPlan(Sound(), job, s, t);
  }

  /** So is an empty parent reference, which the plan counts as one. */
  lemma EmptyParentIsLeftOut(s: State, t: State)
    ensures var job := FastJob(ConfigWith(true, Some("")), CallWith(AdmittedToken, Write, NoCreator, Cancelled));
            var plan := PlanLifecycle(RequestOf(job), Some(ObservationOf(job.call.ending)));
            && plan.Ok? && plan.value.admission.record.Some? && plan.value.admission.record.value.referencesParent
            && CallViews(Sound(), job, s, t) != PlannedReceipts(Sound(), job, plan.value)
  {
    var job := FastJob(ConfigWith(true, Some("")), CallWith(AdmittedToken, Write, NoCreator, Cancelled));
    FaultlessLosesNothing(Sound(), job, s, t);
    CallRefinesPlan(Sound(), job, s, t);
  }

  /** A task handed to the SDK binding: two receipts are planned, one is written
      and none is lost. */
  lemma TaskLeavesNoOutcome(s: State, t: State)
    ensures var job := Job(OfficialSdk(ConfigWith(true, None)),
                           CallWith(AdmittedToken, Write, NoCreator, Returned(TaskResult, None)));
            var plan := PlanLifecycle(RequestOf(job), Some(ObservationOf(job.call.ending)));
            && plan.Ok? && plan.value.recordCount == 2
            && |CallViews(Sound(), job, s, t)| == 1 && CallLosesNothing(Sound(), job, s, t)
  {
    var job := Job(OfficialSdk(ConfigWith(true, None)),
                   CallWith(AdmittedToken, Write, NoCreator, Returned(TaskResult, None)));
    FaultlessLosesNothing(Sound(), job, s, t);
    CallRefinesPlan(Sound(), job, s, t);
  }

  function UnrecordedJob(ending: ToolEnding): Job
  {
    FastJob(ConfigWith(false, None), CallWith(AdmittedToken, Read, NoCreator, ending))
  }

  /** A read whose plan records nothing: its exception passes through the gateway,
      and a task it returned is answered as a result. */
  lemma UnrecordedReadPassesThrough()
    ensures var raised := UnrecordedJob(Raised("ValueError", false, false));
            Respond(Request(), GatewayAdapter.TraceOf(Sound(), raised, IDLE, IDLE)) ==
                Propagated(ToolRaised("ValueError", false))
    ensures var task := UnrecordedJob(Returned(TaskResult, None));
            var answer := Respond(Request(), GatewayAdapter.TraceOf(Sound(), task, IDLE, IDLE));
            answer.Responded? && answer.response.outcome == Some(ResultOutcome)
  {
    SoundIdsAreProper();
    UnrecordedLosesNothing(Raised("ValueError", false, false));
    AdmittedDecisionIsPlanned(Request(), Sound(), UnrecordedJob(Raised("ValueError", false, false)), IDLE, IDLE);
    UnrecordedLosesNothing(Returned(TaskResult, None));
    AdmittedDecisionIsPlanned(Request(), Sound(), UnrecordedJob(Returned(TaskResult, None)), IDLE, IDLE);
  }

  lemma UnrecordedLosesNothing(ending: ToolEnding)
    requires !ProjectionFailed(ending)
    ensures NoGaps(IDLE, IDLE, GatewayAdapter.TraceOf(Sound(), UnrecordedJob(ending), IDLE, IDLE))
  {
    FaultlessLosesNothing(Sound(), UnrecordedJob(ending), IDLE, IDLE);
  }

  /** A mapping result: through the two bindings it leaves different outcome
      receipts, whatever digest without collisions they carry. */
  lemma MappingReceiptsDiffer(digest: Json -> string, s: State)
    requires (forall u, v :: digest(u) == digest(v) ==> u == v) && (forall u :: digest(u) != "")
    ensures var env := Sound().(digest := digest);
            var job := AdmittedJob(Returned(MappingResult(map[]), None));
            var run := Run(PolicyOf(job).value, PlanOf(job), Some("r"));
            var fast, sdk := Finish(env, job, run, s).0, Finish(env, Twin(job), run, s).0;
            && |fast.world.log| == |sdk.world.log| == |s.world.log| + 1
            && Unstamped(AsOffered(Newest(fast))) != Unstamped(AsOffered(Newest(sdk)))
  {
    var env := Sound().(digest := digest);
    var job := AdmittedJob(Returned(MappingResult(map[]), None));
    var run := Run(PolicyOf(job).value, PlanOf(job), Some("r"));
    MappingIsWritten(env, job, run, s);
    MappingIsWritten(env, Twin(job), run, s);
    ParityNeedsAgreement(env, job, run, s, s);
  }

  lemma MappingIsWritten(env: Env, job: Job, run: Run, s: State)
    requires Faultless(env) && PolicyOf(job).Some? && NoLimits(job) && RunOf(job, run) && PlanOf(job).recorded
    requires run.admissionRef.Some? && job.call.ending == Returned(MappingResult(map[]), None)
    ensures |Finish(env, job, run, s).0.world.log| == |s.world.log| + 1
  {
    OutcomeGoesThrough(env, job, run, run.admissionRef.value, s);
    TryOutcomeEffect(env, ConfigOf(job), job.call, run.policy, VersionOf(job),
                     EndingBody(env, job, run.admissionRef.value),
                     EndingClass(job.call.ending), s);
    var (s', accepted) := EndingEmission(env, job, run, run.admissionRef.value, s);
    FinishUnfolds(env, job, run, s);
    AlertedKeeps(job, accepted, s');
  }

  /** A sink name with the doubled suffix is another name the second time. */
  lemma DoubledSuffix()
    ensures var once := EnforcementHarness.NormalizeSinkName("x_sink_sink");
            EnforcementHarness.NormalizeSinkName(once) != once
  {
    var suffix := EnforcementHarness.SinkSuffix();
    assert "x_sink_sink"[1..] == suffix + suffix;
    EnforcementHarness.NormalizeTwice("x_sink_sink");
  }
}
