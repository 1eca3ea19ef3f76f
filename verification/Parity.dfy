/** The two bindings, written separately, do the same: over any calls, write
    failures and interleaving, they reply alike, leave the same telemetry, and
    write logs that differ in nothing but the binding stamp. */
module Parity {
  import opened Prelude
  import opened JsonTrees
  import opened Lifecycle
  import opened Receipts
  import opened Binding
  import opened Protocol
  import Fast = FastMcpBinding
  import Sdk = SdkBinding

  // When the two projections of a tool result are the same.
  predicate ProjectionsAgree(result: ToolResult)
  {
    match result
    case ObjectResult(content, _, _, _) => content.Some? ==> Truthy(content.value) || content.value == Arr([])
    case MappingResult(_) => false
    case SequenceResult(items) => items == []
    case TaskResult => true
  }

  /** The bindings project a result alike exactly when it is an object whose
      content is missing, empty as a list, or not falsy, or an empty sequence. */
  lemma ProjectionsAgreeExactly(result: ToolResult)
    ensures Fast.ProjectResult(result) == Sdk.ProjectResult(result) <==> ProjectionsAgree(result)
  {
    match result {
      case MappingResult(members) => assert Null != Obj(members);
      case _ =>
    }
  }

  // A call the two bindings are meant to treat alike: no operator seam, no task,
  // a result both project alike, and the alert mode that both support.
  predicate Comparable(job: Job)
  {
    && job.setup.FastMcp?
    && Fast.OperatorSeamUnset(job.setup.fast)
    && job.setup.fast.common.postExecutionAlerts
    && (job.call.ending.Returned? ==> !job.call.ending.result.TaskResult? && ProjectionsAgree(job.call.ending.result))
  }

  // The same configuration and call, handed to the other binding.
  function Twin(job: Job): Job
    requires job.setup.FastMcp?
  {
    Job(OfficialSdk(job.setup.fast.common), job.call)
  }

  function Twins(jobs: seq<Job>): (twins: seq<Job>)
    requires forall i | 0 <= i < |jobs| :: jobs[i].setup.FastMcp?
    ensures |twins| == |jobs|
    ensures forall i | 0 <= i < |jobs| :: twins[i] == Twin(jobs[i])
  {
    seq(|jobs|, i requires 0 <= i < |jobs| => Twin(jobs[i]))
  }

  // strip_binding_stamp on an envelope record.
  function Unstamped(e: Envelope): Envelope
  {
    e.(bindingVersion := DirectHarness)
  }

  // The content guard looks at neither binding's stamp.
  ghost predicate GuardBlind(env: Env)
  {
    forall e: Envelope :: env.rejects(e.(bindingVersion := FastMcpVersion)) ==
        env.rejects(e.(bindingVersion := OfficialSdkV01))
  }

  // Nor do the references the sink answers with.
  ghost predicate AnswersBlind(env: Env)
  {
    forall n: nat, e: Envelope ::
      env.answers(n, e.(bindingVersion := FastMcpVersion)) == env.answers(n, e.(bindingVersion := OfficialSdkV01))
  }

  ghost predicate StampBlind(env: Env)
  {
    GuardBlind(env) && AnswersBlind(env)
  }

  ghost predicate SameLogs(log: seq<Envelope>, log': seq<Envelope>)
  {
    |log| == |log'| && forall k | 0 <= k < |log| :: Unstamped(log[k]) == Unstamped(log'[k])
  }

  ghost predicate SameStates(s: State, t: State)
  {
    && s.telemetry == t.telemetry
    && s.world.attempts == t.world.attempts
    && s.world.minted == t.world.minted
    && SameLogs(s.world.log, t.world.log)
  }

  lemma SameAcceptance(env: Env, w: World, v: World, e: Envelope)
    requires StampBlind(env)
    requires w.attempts == v.attempts && w.minted == v.minted && SameLogs(w.log, v.log)
    ensures var (w', r) := Accept(env, w, e.(bindingVersion := FastMcpVersion));
            var (v', q) := Accept(env, v, e.(bindingVersion := OfficialSdkV01));
            r == q && w'.attempts == v'.attempts && w'.minted == v'.minted && SameLogs(w'.log, v'.log)
  {
    assert Unstamped(e.(bindingVersion := FastMcpVersion)) == Unstamped(e.(bindingVersion := OfficialSdkV01));
  }

  lemma SameAdmission(
    env: Env, config: BindingConfig, call: Call, policy: BindingPolicy, body: Body, s: State, t: State)
    requires StampBlind(env) && SameStates(s, t) && body.AdmissionBody?
    ensures var (s', r) := TryAdmission(env, config, call, policy, FastMcpVersion, body, s);
            var (t', q) := TryAdmission(env, config, call, policy, OfficialSdkV01, body, t);
            r == q && SameStates(s', t')
  {
    var additions := AdmissionLimits(config, policy);
    var e := Common(env, ContextOf(config, call, policy, FastMcpVersion), s.world.minted, body);
    var limits := AppendLimits(e.limits, additions);
    if limits.Some? {
      SameAcceptance(env, s.world.(minted := s.world.minted + 1), t.world.(minted := t.world.minted + 1),
                     e.(limits := limits.value));
      assert Common(env, ContextOf(config, call, policy, OfficialSdkV01), t.world.minted, body).(limits := limits.value)
             == e.(limits := limits.value).(bindingVersion := OfficialSdkV01);
    }
  }

  // Emission up to the content guard depends on the stamp only in the stamp.
  lemma SameEmittedOutcome(
    env: Env, context: ReceiptContext, body: Body, exceptionClass: Option<string>, additions: seq<string>, w: World,
    v: World)
    requires StampBlind(env) && body.OutcomeBody?
    requires w.attempts == v.attempts && w.minted == v.minted && SameLogs(w.log, v.log)
    ensures var (w', r) := EmittedOutcome(env, w, context.(bindingVersion := FastMcpVersion), body, exceptionClass,
                                          additions);
            var (v', q) := EmittedOutcome(env, v, context.(bindingVersion := OfficialSdkV01), body, exceptionClass,
                                          additions);
            r == q && w'.attempts == v'.attempts && w'.minted == v'.minted && SameLogs(w'.log, v'.log)
  {
    var e := Common(env, context.(bindingVersion := FastMcpVersion), w.minted,
                    body).(exceptionClass := Present(exceptionClass));
    var limits := AppendLimits(e.limits + FamilyLimits(env, body.outcome), additions);
    if limits.Some? && OwnedFieldsAllowed(body.outcome, body.owned) {
      SameAcceptance(env, w.(minted := w.minted + 1), v.(minted := v.minted + 1), e.(limits := limits.value));
    }
  }

  lemma SameOutcome(
    env: Env, config: BindingConfig, call: Call, policy: BindingPolicy, body: Body, exceptionClass: Option<string>,
    s: State, t: State)
    requires StampBlind(env) && SameStates(s, t) && body.OutcomeBody?
    ensures var (s', r) := TryOutcome(env, config, call, policy, FastMcpVersion, body, exceptionClass, s);
            var (t', q) := TryOutcome(env, config, call, policy, OfficialSdkV01, body, exceptionClass, t);
            r == q && SameStates(s', t')
  {
    var context := ContextOf(config, call, policy, FastMcpVersion);
    SameEmittedOutcome(env, context, body, exceptionClass, Distinct(config.limits), s.world, t.world);
    assert context.(bindingVersion := OfficialSdkV01) == ContextOf(config, call, policy, OfficialSdkV01);
  }

  lemma SameTerminal(
    env: Env, config: Fast.FastMcpConfig, call: Call, policy: BindingPolicy, plan: AdmissionPlan,
    reviewRef: Option<string>, s: State, t: State)
    requires StampBlind(env) && SameStates(s, t) && plan.record.Some?
    ensures var (s', r) := Fast.Terminal(env, config, call, policy, plan, reviewRef, s);
            var (t', q) := Sdk.Terminal(env, config.common, call, policy, plan, reviewRef, t);
            r == q && SameStates(s', t')
  {
    var record := plan.record.value;
    var token := ProjectDisposition(record.disposition);
    if record.disposition == Refused {
      var reason := TerminalReason(policy, plan);
      SameAdmission(env, config.common, call, policy, AdmissionOf(config.common, call, token, None, None, Some(reason)),
                    s, t);
    } else {
      SameAdmission(env, config.common, call, policy,
                    AdmissionOf(config.common, call, token, reviewRef, record.retryContract, None), s, t);
    }
  }

  lemma SameAdmit(env: Env, job: Job, s: State, t: State)
    requires StampBlind(env) && SameStates(s, t) && Comparable(job)
    ensures var (s', p) := Admit(env, job, s);
            var (t', q) := Admit(env, Twin(job), t);
            p == q && SameStates(s', t')
  {
    var config, call := job.setup.fast, job.call;
    assert Fast.ResolvePolicy(config, call) == Sdk.ResolvePolicy(config.common, call);
    if PolicyOf(job).Some? {
      var policy := PolicyOf(job).value;
      var (reviewed, reviewRef, created) := Review(config.common, call, policy, s);
      var reviewedTwin := Review(config.common, call, policy, t).0;
      var plan := Plan(config.common, policy, created);
      if !plan.proceeds {
        SameTerminal(env, config, call, policy, plan, reviewRef, reviewed, reviewedTwin);
      } else if plan.recorded {
        SameAdmission(env, config.common, call, policy,
                      AdmissionOf(config.common, call, AdmittedToken, None, None, None), reviewed, reviewedTwin);
      }
    }
  }

  // The two vocabularies differ on submitted tasks only, so both bindings find
  // the same interrupted outcome in a plan.
  lemma SameCoreOutcome(plan: AdmissionPlan, observation: Observation, token: OutcomeToken, owned: map<Key, bool>)
    requires observation.outcome != TaskSubmitted
    ensures Fast.ProjectCoreOutcome(plan, observation, token, owned) ==
            Sdk.ProjectCoreOutcome(plan, observation, token, owned)
    ensures var core := Fast.ProjectCoreOutcome(plan, observation, token, owned);
            core.Some? ==> core.value == ProjectedOutcome(token, owned)
  {}

  lemma SameInterrupted(
    env: Env, config: Fast.FastMcpConfig, call: Call, run: Run, admissionRef: string, token: OutcomeToken,
    exceptionClass: Option<string>, owned: map<Key, bool>, reply: Reply, s: State, t: State)
    requires StampBlind(env) && SameStates(s, t) && (call.ending.Raised? || call.ending.Cancelled?)
    ensures var (s', r) := Fast.Interrupted(env, config, call, run, admissionRef, token, exceptionClass, owned, reply,
                                            s);
            var (t', q) := Sdk.Interrupted(env, config.common, call, run, admissionRef, token, exceptionClass, owned,
                                           reply, t);
            r == q && SameStates(s', t')
  {
    SameCoreOutcome(run.plan, Observe(call.ending), token, owned);
    SameOutcome(env, config.common, call, run.policy, OutcomeBody(admissionRef, token, None, owned), exceptionClass, s,
                t);
  }

  // The outcome body both bindings make of a planned record.
  function PlannedBody(admissionRef: string, record: OutcomeRecord, token: OutcomeToken, digest: Option<string>): Body
  {
    OutcomeBody(admissionRef, token, if record.carriesResultDigest then digest else None, map[])
  }

  lemma FastPlanned(
    env: Env, config: Fast.FastMcpConfig, call: Call, run: Run, admissionRef: string, observation: Observation,
    digest: Option<string>, s: State)
    ensures var planned := PlanOutcome(run.plan, observation);
            Fast.EmitPlanned(env, config, call, run, admissionRef, observation, digest, s) ==
            if planned.Err? || planned.value.record.None?
               || Fast.ProjectOutcome(planned.value.record.value.outcome).None? then (s, true)
            else
              TryOutcome(env, config.common, call, run.policy, FastMcpVersion,
                         PlannedBody(admissionRef, planned.value.record.value,
                                     Fast.ProjectOutcome(planned.value.record.value.outcome).value, digest), None, s)
  {}

  lemma SdkPlanned(
    env: Env, config: BindingConfig, call: Call, run: Run, admissionRef: string, observation: Observation,
    digest: Option<string>, s: State)
    ensures var planned := PlanOutcome(run.plan, observation);
            Sdk.EmitPlanned(env, config, call, run, admissionRef, observation, digest, s) ==
            if planned.Err? || planned.value.record.None?
               || Sdk.ProjectOutcome(planned.value.record.value.outcome).None? then s
            else
              TryOutcome(env, config, call, run.policy, OfficialSdkV01,
                         PlannedBody(admissionRef, planned.value.record.value,
                                     Sdk.ProjectOutcome(planned.value.record.value.outcome).value, digest), None, s).0
  {}

  lemma SamePlanned(
    env: Env, config: Fast.FastMcpConfig, call: Call, run: Run, admissionRef: string,
    observation: Observation, digest: Option<string>, s: State, t: State)
    requires StampBlind(env) && SameStates(s, t) && observation.outcome != TaskSubmitted
    ensures SameStates(Fast.EmitPlanned(env, config, call, run, admissionRef, observation, digest, s).0,
                       Sdk.EmitPlanned(env, config.common, call, run, admissionRef, observation, digest, t))
  {
    FastPlanned(env, config, call, run, admissionRef, observation, digest, s);
    SdkPlanned(env, config.common, call, run, admissionRef, observation, digest, t);
    var planned := PlanOutcome(run.plan, observation);
    if planned.Ok? && planned.value.record.Some? && Fast.ProjectOutcome(planned.value.record.value.outcome).Some? {
      var record := planned.value.record.value;
      SameOutcome(env, config.common, call, run.policy,
                  PlannedBody(admissionRef, record, Fast.ProjectOutcome(record.outcome).value, digest), None, s, t);
    }
  }

  lemma SameFinish(env: Env, job: Job, run: Run, s: State, t: State)
    requires StampBlind(env) && SameStates(s, t) && Comparable(job)
    ensures var (s', r) := Finish(env, job, run, s);
            var (t', q) := Finish(env, Twin(job), run, t);
            r == q && SameStates(s', t')
  {
    var config, call := job.setup.fast, job.call;
    if run.admissionRef.Some? {
      var ref := run.admissionRef.value;
      match call.ending {
        case Cancelled =>
          SameInterrupted(env, config, call, run, ref, Indeterminate, None, CANCELLATION_FACTS, CallCancelled, s, t);
        case Raised(className, _, isConnection) =>
          SameInterrupted(env, config, call, run, ref, ExceptionToken, Some(className), map[],
                          ToolRaised(className, isConnection), s, t);
        case Returned(result, fault) =>
          if fault.None? {
            ProjectionsAgreeExactly(result);
            var p := Fast.ProjectResult(result);
            SamePlanned(env, config, call, run, ref,
                        Observation(if p.isError then ErrorOutcome else ResultOutcome, None),
                        Some(env.digest(ProjectionJson(p))), s, t);
          }
      }
    }
  }

  /** Binding parity over every interleaving: the phases agree call by call, so
      the tools are run equally often and the replies are equal; telemetry is
      equal; the logs are equal once the binding stamp is removed. */
  lemma {:induction false} BindingParity(env: Env, jobs: seq<Job>, schedule: seq<nat>)
    requires StampBlind(env)
    requires forall i | 0 <= i < |jobs| :: jobs[i].setup.FastMcp? && Comparable(jobs[i])
    ensures var fast := Exec(env, jobs, schedule);
            var sdk := Exec(env, Twins(jobs), schedule);
            fast.phases == sdk.phases && SameStates(fast.state, sdk.state)
  {
    if |schedule| > 0 {
      var before, i := schedule[..|schedule| - 1], schedule[|schedule| - 1];
      BindingParity(env, jobs, before);
      var fast, sdk := Exec(env, jobs, before), Exec(env, Twins(jobs), before);
      if i < |jobs| {
        match fast.phases[i] {
          case Waiting => SameAdmit(env, jobs[i], fast.state, sdk.state);
          case InTool(run, _) => SameFinish(env, jobs[i], run, fast.state, sdk.state);
          case Done(_, _, _, _, _) =>
        }
      }
    }
  }

  // The outcome receipt of a result projected as p, when it is accepted.
  function ReturnedReceipt(
    env: Env, config: BindingConfig, call: Call, run: Run, version: BindingVersion, p: Projection,
    serial: nat): Envelope
    requires run.admissionRef.Some?
  {
    var token := if p.isError then ErrorReturned else ResultReturned;
    var e := Common(env, ContextOf(config, call, run.policy, version), serial,
                    OutcomeBody(run.admissionRef.value, token, Some(env.digest(ProjectionJson(p))), map[]));
    var limits := AppendLimits([env.limitText(Base), env.limitText(ResultLimit)], Distinct(config.limits));
    if limits.Some? then e.(limits := limits.value) else e
  }

  // A call whose tool returned a plain result to a binding that holds its admission.
  predicate ReturnsPlainly(job: Job, run: Run)
  {
    && run.plan.proceeds && run.plan.recorded && run.admissionRef.Some?
    && job.call.ending.Returned? && !job.call.ending.result.TaskResult? && job.call.ending.projectionFault.None?
  }

  lemma FastReturnedReceipt(env: Env, job: Job, run: Run, s: State)
    requires job.setup.FastMcp? && ReturnsPlainly(job, run)
    requires |Finish(env, job, run, s).0.world.log| > |s.world.log|
    ensures AsOffered(Newest(Finish(env, job, run, s).0)) ==
            ReturnedReceipt(env, ConfigOf(job), job.call, run, FastMcpVersion,
                            Fast.ProjectResult(job.call.ending.result), s.world.minted)
  {
    assert [env.limitText(Base)] + [env.limitText(ResultLimit)] == [env.limitText(Base), env.limitText(ResultLimit)];
  }

  lemma SdkReturnedReceipt(env: Env, job: Job, run: Run, s: State)
    requires job.setup.OfficialSdk? && ReturnsPlainly(job, run)
    requires |Finish(env, job, run, s).0.world.log| > |s.world.log|
    ensures AsOffered(Newest(Finish(env, job, run, s).0)) ==
            ReturnedReceipt(env, ConfigOf(job), job.call, run, OfficialSdkV01,
                            Sdk.ProjectResult(job.call.ending.result), s.world.minted)
  {
    assert [env.limitText(Base)] + [env.limitText(ResultLimit)] == [env.limitText(Base), env.limitText(ResultLimit)];
  }

  /** The agreement of projections is needed, not only enough: when both
      bindings get the outcome receipt of a returned result accepted, the two
      receipts they offered agree up to the stamp exactly when the projections
      do. */
  lemma ParityNeedsAgreement(env: Env, job: Job, run: Run, s: State, t: State)
    requires job.setup.FastMcp? && ReturnsPlainly(job, run) && SameStates(s, t)
    requires forall u, v :: env.digest(u) == env.digest(v) ==> u == v
    requires forall u :: env.digest(u) != ""
    requires |Finish(env, job, run, s).0.world.log| > |s.world.log|
    requires |Finish(env, Twin(job), run, t).0.world.log| > |t.world.log|
    ensures Unstamped(AsOffered(Newest(Finish(env, job, run, s).0))) ==
            Unstamped(AsOffered(Newest(Finish(env, Twin(job), run, t).0))) <==>
            ProjectionsAgree(job.call.ending.result)
  {
    FastReturnedReceipt(env, job, run, s);
    SdkReturnedReceipt(env, Twin(job), run, t);
    ProjectionsAgreeExactly(job.call.ending.result);
    ReceiptFixesProjection(env, ConfigOf(job), job.call, run, Fast.ProjectResult(job.call.ending.result),
                           Sdk.ProjectResult(job.call.ending.result), s.world.minted);
  }

  lemma ReceiptFixesProjection(
    env: Env, config: BindingConfig, call: Call, run: Run, p: Projection, q: Projection, serial: nat)
    requires run.admissionRef.Some?
    requires forall u, v :: env.digest(u) == env.digest(v) ==> u == v
    requires forall u :: env.digest(u) != ""
    ensures var e := ReturnedReceipt(env, config, call, run, FastMcpVersion, p, serial);
            var f := ReturnedReceipt(env, config, call, run, OfficialSdkV01, q, serial);
            Unstamped(e) == Unstamped(f) <==> p == q
  {
    ProjectionJsonInjective(p, q);
    var e := ReturnedReceipt(env, config, call, run, FastMcpVersion, p, serial);
    var f := ReturnedReceipt(env, config, call, run, OfficialSdkV01, q, serial);
    assert Unstamped(e).body.resultDigest == Some(env.digest(ProjectionJson(p)));
    assert Unstamped(f).body.resultDigest == Some(env.digest(ProjectionJson(q)));
  }

  lemma ProjectionJsonInjective(p: Projection, q: Projection)
    ensures ProjectionJson(p) == ProjectionJson(q) <==> p == q
  {
    var m, n := ProjectionJson(p).members, ProjectionJson(q).members;
    assert m == n ==> forall f :: Known(f) in m ==> m[Known(f)] == n[Known(f)];
    assert m[Known(Content)] == p.content && m[Known(StructuredContent)] == p.structured
           && m[Known(Meta)] == p.meta && m[Known(IsError)] == Bool(p.isError);
    assert n[Known(Content)] == q.content && n[Known(StructuredContent)] == q.structured
           && n[Known(Meta)] == q.meta && n[Known(IsError)] == Bool(q.isError);
  }
}
