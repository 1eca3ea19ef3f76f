/** Emit, store, resolve, compose: with the signing identity, its trust bundle
    and one file per receipt, every log the protocol can reach reads back, and a
    governed call's own receipts compose. */
module EndToEnd {
  import opened Prelude
  import opened JsonTrees
  import opened Lifecycle
  import opened Receipts
  import opened Binding
  import opened Protocol
  import opened LogSafety
  import Conservation
  import opened GatewayAdapter
  import opened Reconstruction
  import opened ReceiptStore
  import opened ReceiptAccess
  import opened RoundTrip
  import opened WireRecords

  /** A deployment on the file sink: its content guard is the emitter's, it
      answers a write with the envelope's own identifier, and issues under the
      identity's name, and inside the key window. */
  ghost predicate Deployed(platform: Platform, identity: SigningIdentity, env: Env)
  {
    && IdealJson(platform) && IdealSignature(platform, identity)
    && GuardsContent(identity, env)
    && (forall n, e :: env.answers(n, e) == e.receiptId)
    && env.issuerId == identity.issuerId
    && (forall n :: IssuedInWindow(platform, identity, env.clock(n)))
  }

  // The receipt went through the emitter.
  ghost predicate EmittedOnce(env: Env, e: Envelope)
  {
    exists serial: nat, attempt: nat :: Emitted(env, serial, attempt, e)
  }

  ghost predicate EmittedLog(env: Env, log: seq<Envelope>)
  {
    forall k | 0 <= k < |log| :: EmittedOnce(env, log[k])
  }

  // The writes a log of accepted receipts stands for.
  function History(identity: SigningIdentity, log: seq<Envelope>): seq<WriteAttempt>
  {
    seq(|log|, i requires 0 <= i < |log| => WriteAttempt(SignedForm(identity, log[i]), false))
  }

  /** The emitter on the file sink: the world it leaves when it signs and offers
      these envelopes one after the other, and the writes the sink sees. */
  function Offered(identity: SigningIdentity, env: Env, offers: seq<Envelope>): (World, seq<WriteAttempt>)
  {
    if |offers| == 0 then (World([], 0, 0), [])
    else
      var (w, attempts) := Offered(identity, env, offers[..|offers| - 1]);
      var e := offers[|offers| - 1];
      (Accept(env, w, e).0,
       if env.rejects(e) then attempts
       else attempts + [WriteAttempt(SignedForm(identity, e), env.faults(w.attempts).Some?)])
  }

  lemma OfferedStorable(platform: Platform, identity: SigningIdentity, env: Env, e: Envelope)
    requires Deployed(platform, identity, env) && !env.rejects(e)
    ensures Storable(WriteAttempt(SignedForm(identity, e), false))
  {
    GuardIsExact(identity, e);
    SignedPlain(identity, e, ReceiptId);
  }

  lemma HistoryAppend(identity: SigningIdentity, log: seq<Envelope>, e: Envelope, reference: string)
    ensures History(identity, log + [e.(reference := reference)]) ==
            History(identity, log) + [WriteAttempt(SignedForm(identity, e), false)]
  {
    RenderIgnoresReference(e, reference);
  }

  lemma OfferLogged(
    platform: Platform, identity: SigningIdentity, env: Env, w: World, attempts: seq<WriteAttempt>, e: Envelope)
    requires Deployed(platform, identity, env) && !env.rejects(e) && Kept(attempts) == History(identity, w.log)
    ensures Kept(attempts + [WriteAttempt(SignedForm(identity, e), env.faults(w.attempts).Some?)]) ==
            History(identity, Accept(env, w, e).0.log)
  {
    OfferedStorable(platform, identity, env, e);
    DiskAppend(platform, attempts, WriteAttempt(SignedForm(identity, e), env.faults(w.attempts).Some?));
    HistoryAppend(identity, w.log, e, env.answers(w.attempts, e));
  }

  lemma {:induction false} OfferedIsKept(platform: Platform, identity: SigningIdentity, env: Env, offers: seq<Envelope>)
    requires Deployed(platform, identity, env)
    ensures Kept(Offered(identity, env, offers).1) == History(identity, Offered(identity, env, offers).0.log)
  {
    if |offers| > 0 {
      var (w, attempts) := Offered(identity, env, offers[..|offers| - 1]);
      OfferedIsKept(platform, identity, env, offers[..|offers| - 1]);
      if !env.rejects(offers[|offers| - 1]) {
        OfferLogged(platform, identity, env, w, attempts, offers[|offers| - 1]);
      }
    }
  }

  // These writes leave the directory of this log.
  ghost predicate Leaves(platform: Platform, identity: SigningIdentity, attempts: seq<WriteAttempt>, log: seq<Envelope>)
  {
    Kept(attempts) == History(identity, log) && Disk(platform, attempts) == Disk(platform, History(identity, log))
  }

  /** Whatever envelopes are offered and whichever writes fail, the directory of
      the file sink is that of the log of the accepted ones. */
  lemma OfferedIsLogged(platform: Platform, identity: SigningIdentity, env: Env, offers: seq<Envelope>)
    requires Deployed(platform, identity, env)
    ensures var (w, attempts) := Offered(identity, env, offers);
            Leaves(platform, identity, attempts, w.log)
  {
    OfferedIsKept(platform, identity, env, offers);
    FailuresLeaveNothing(platform, Offered(identity, env, offers).1);
  }

  predicate NoCollisions(log: seq<Envelope>)
  {
    forall j, k | 0 <= j < k < |log| :: FileName(log[j].receiptId) != FileName(log[k].receiptId)
  }

  // The reader trusts the identity, and reads a directory that any writes have
  // left, failed ones included, of which the logged receipts were accepted.
  ghost predicate Reads(platform: Platform, identity: SigningIdentity, log: seq<Envelope>, config: AccessConfig)
  {
    && config.trust == TrustBundle(identity)
    && exists attempts :: Kept(attempts) == History(identity, log)
         && config.provider == DiskProvider(Disk(platform, attempts))
  }

  lemma EmittedIsStorable(platform: Platform, identity: SigningIdentity, env: Env, e: Envelope)
    requires Deployed(platform, identity, env) && EmittedOnce(env, e)
    ensures e.reference == e.receiptId
    ensures Storable(WriteAttempt(SignedForm(identity, e), false))
    ensures IdText(platform, SignedForm(identity, e)) == e.receiptId
    ensures Vouched(platform, SignedForm(identity, e), HandleOfEnvelope(e), TrustBundle(identity))
  {
    var serial: nat, attempt: nat :| Emitted(env, serial, attempt, e);
    assert AsOffered(e) == e;
    assert !env.rejects(e);
    assert IssuedInWindow(platform, identity, env.clock(serial));
    EmittedIsVouched(platform, identity, e);
    OfferedStorable(platform, identity, env, e);
    SignedId(platform, identity, e);
  }

  lemma SignedId(platform: Platform, identity: SigningIdentity, e: Envelope)
    requires IdealJson(platform)
    ensures IdText(platform, SignedForm(identity, e)) == e.receiptId
  {
    SignedPlain(identity, e, ReceiptId);
  }

  // With one file per receipt, the file of a logged identifier holds it.
  lemma LoggedIsLast(platform: Platform, identity: SigningIdentity, env: Env, log: seq<Envelope>, k: nat)
    requires Deployed(platform, identity, env) && EmittedLog(env, log) && NoCollisions(log) && k < |log|
    ensures LastInFile(platform, History(identity, log), log[k].receiptId) == Some(SignedForm(identity, log[k]))
  {
    var history := History(identity, log);
    forall i | 0 <= i < |history|
      ensures Storable(history[i]) && IdText(platform, history[i].envelope) == log[i].receiptId
    {
      EmittedIsStorable(platform, identity, env, log[i]);
    }
    OneFileEach(platform, history, k);
  }

  // The trusted context asks for nothing that a call's identity contradicts.
  predicate ContextMatches(id: Identity, config: AccessConfig, context: AccessContext)
  {
    && (config.requireActor ==> context.actorRef.Some?) && (config.requireTenant ==> context.tenantRef.Some?)
    && (context.actorRef.Some? && id.actorRef.Some? ==> context.actorRef == id.actorRef)
    && (context.tenantRef.Some? && id.tenantId.Some? ==> context.tenantRef == id.tenantId)
    && (context.requestRef.Some? ==> context.requestRef.value == id.logicalCallId)
  }

  lemma ContextTexts(identity: SigningIdentity, e: Envelope)
    ensures var m := SignedForm(identity, e);
            && Get(m, Known(ActorRef)) == (if e.actorRef.Some? then Str(e.actorRef.value) else Null)
            && Get(m, Known(TenantId)) == (if e.tenantId.Some? then Str(e.tenantId.value) else Null)
            && Get(m, Known(LogicalCallId)) == Str(e.logicalCallId)
  {
    SignedPlain(identity, e, ActorRef);
    SignedPlain(identity, e, TenantId);
    SignedPlain(identity, e, LogicalCallId);
  }

  lemma MatchesFits(identity: SigningIdentity, e: Envelope, config: AccessConfig, context: AccessContext)
    ensures ContextMatches(IdentityIn(e), config, context) <==> ContextFits(SignedForm(identity, e), config, context)
  {
    ContextTexts(identity, e);
  }

  /** Any logged receipt resolves to exactly the envelope that was written. */
  lemma LoggedResolves(
    platform: Platform, identity: SigningIdentity, env: Env, log: seq<Envelope>, k: nat, config: AccessConfig,
    context: AccessContext)
    requires Deployed(platform, identity, env) && EmittedLog(env, log) && NoCollisions(log) && k < |log|
    requires Reads(platform, identity, log, config) && ContextMatches(IdentityIn(log[k]), config, context)
    ensures ResolveReceipt(platform, HandleOfEnvelope(log[k]), config, context) ==
            Verified(SignedForm(identity, log[k]))
  {
    var attempts :| Kept(attempts) == History(identity, log)
        && config.provider == DiskProvider(Disk(platform, attempts));
    FailuresLeaveNothing(platform, attempts);
    EmittedIsStorable(platform, identity, env, log[k]);
    LoggedIsLast(platform, identity, env, log, k);
    MatchesFits(identity, log[k], config, context);
    ResolvesExactly(platform, History(identity, log), HandleOfEnvelope(log[k]), config, context,
                    SignedForm(identity, log[k]));
  }

  // ---- Linking -------------------------------------------------------------

  predicate IdentityField(f: Field)
  {
    match f
    case LogicalCallId | RuntimeInstanceId | BoundaryId | ActorRef | TenantId => true
    case _ => false
  }

  lemma SameIdentityMember(a: Envelope, o: Envelope, f: Field)
    requires IdentityIn(a) == IdentityIn(o) && IdentityField(f)
    ensures MemberOf(a, f) == MemberOf(o, f)
  {}

  lemma SameIdentitySigned(identity: SigningIdentity, a: Envelope, o: Envelope, f: Field)
    requires IdentityIn(a) == IdentityIn(o) && IdentityField(f)
    ensures SameMember(SignedForm(identity, a), SignedForm(identity, o), f)
  {
    SameIdentityMember(a, o, f);
    RenderedMember(a, f);
    RenderedMember(o, f);
  }

  lemma LinkTexts(identity: SigningIdentity, a: Envelope, o: Envelope)
    requires o.body.OutcomeBody?
    ensures Get(SignedForm(identity, a), Known(ReceiptId)) == Str(a.receiptId)
    ensures Get(SignedForm(identity, o), Known(AdmissionReceiptRef)) == Str(o.body.admissionRef)
  {
    SignedPlain(identity, a, ReceiptId);
    SignedPlain(identity, o, AdmissionReceiptRef);
  }

  lemma CallText(identity: SigningIdentity, a: Envelope)
    ensures Get(SignedForm(identity, a), Known(LogicalCallId)) == Str(a.logicalCallId)
  {
    SignedPlain(identity, a, LogicalCallId);
  }

  lemma PairIsLinked(identity: SigningIdentity, a: Envelope, o: Envelope)
    requires IdentityIn(a) == IdentityIn(o) && o.body.OutcomeBody? && o.body.admissionRef == a.receiptId
    ensures Linked(SignedForm(identity, a), SignedForm(identity, o))
  {
    LinkTexts(identity, a, o);
    SameIdentitySigned(identity, a, o, LogicalCallId);
    SameIdentitySigned(identity, a, o, RuntimeInstanceId);
    SameIdentitySigned(identity, a, o, BoundaryId);
    SameIdentitySigned(identity, a, o, ActorRef);
    SameIdentitySigned(identity, a, o, TenantId);
  }

  // ---- Compositions --------------------------------------------------------

  lemma OfKindHead(handles: seq<ReceiptHandle>, kind: ReceiptKindName)
    requires |handles| > 0
    ensures OfKind(handles, kind) == (if handles[0].kind == kind then [handles[0]] else []) + OfKind(handles[1..], kind)
  {}

  lemma OnePair(a: ReceiptHandle, o: ReceiptHandle)
    requires a.kind == AdmissionKind && o.kind == OutcomeKind
    ensures OfKind([a, o], AdmissionKind) == [a] && OfKind([a, o], OutcomeKind) == [o]
    ensures OfKind([a], AdmissionKind) == [a] && OfKind([a], OutcomeKind) == []
  {
    assert [a, o][1..] == [o] && [o][1..] == [] && [a][1..] == [];
    OfKindHead([a, o], AdmissionKind);
    OfKindHead([a, o], OutcomeKind);
    OfKindHead([o], AdmissionKind);
    OfKindHead([o], OutcomeKind);
    OfKindHead([a], AdmissionKind);
    OfKindHead([a], OutcomeKind);
  }

  lemma LinkedComposes(
    platform: Platform, a: ReceiptHandle, o: ReceiptHandle, config: AccessConfig, context: AccessContext,
    admission: map<Key, Json>, outcome: map<Key, Json>, callId: string)
    requires a.kind == AdmissionKind && o.kind == OutcomeKind && !Blank(callId)
    requires ResolveReceipt(platform, a, config, context) == Verified(admission)
    requires ResolveReceipt(platform, o, config, context) == Verified(outcome)
    requires Get(admission, Known(LogicalCallId)) == Str(callId) && Linked(admission, outcome)
    ensures ComposeReceipts(platform, [a, o], config, context, callId, None) == Composed(Some(admission), Some(outcome))
  {
    OnePair(a, o);
  }

  lemma LoneComposes(
    platform: Platform, a: ReceiptHandle, config: AccessConfig, context: AccessContext,
    admission: map<Key, Json>, callId: string)
    requires a.kind == AdmissionKind && !Blank(callId)
    requires ResolveReceipt(platform, a, config, context) == Verified(admission)
    requires Get(admission, Known(LogicalCallId)) == Str(callId)
    ensures ComposeReceipts(platform, [a], config, context, callId, None) == Composed(Some(admission), None)
  {
    OnePair(a, ReceiptHandle("", OutcomeKind));
  }

  // An admission and the outcome that names it, both in the log, compose to
  // exactly the envelopes written, in either order.
  lemma PairComposes(
    platform: Platform, identity: SigningIdentity, env: Env, log: seq<Envelope>, j: nat, k: nat,
    config: AccessConfig, context: AccessContext)
    requires Deployed(platform, identity, env) && EmittedLog(env, log) && NoCollisions(log)
    requires Names(log, j, k) && log[j].body.AdmissionBody? && IdentityIn(log[j]) == IdentityIn(log[k])
    requires !Blank(log[j].logicalCallId)
    requires Reads(platform, identity, log, config) && ContextMatches(IdentityIn(log[j]), config, context)
    ensures ComposeReceipts(platform, [HandleOfEnvelope(log[j]), HandleOfEnvelope(log[k])], config, context,
                            log[j].logicalCallId, None) ==
            Composed(Some(SignedForm(identity, log[j])), Some(SignedForm(identity, log[k])))
  {
    PairResolves(platform, identity, env, log, j, k, config, context);
    PairIsLinked(identity, log[j], log[k]);
    CallText(identity, log[j]);
    LinkedComposes(platform, HandleOfEnvelope(log[j]), HandleOfEnvelope(log[k]), config, context,
                   SignedForm(identity, log[j]), SignedForm(identity, log[k]), log[j].logicalCallId);
  }

  lemma PairResolves(
    platform: Platform, identity: SigningIdentity, env: Env, log: seq<Envelope>, j: nat, k: nat,
    config: AccessConfig, context: AccessContext)
    requires Deployed(platform, identity, env) && EmittedLog(env, log) && NoCollisions(log)
    requires Names(log, j, k) && log[j].body.AdmissionBody? && IdentityIn(log[j]) == IdentityIn(log[k])
    requires Reads(platform, identity, log, config) && ContextMatches(IdentityIn(log[j]), config, context)
    ensures log[j].receiptId == log[k].body.admissionRef
    ensures ResolveReceipt(platform, HandleOfEnvelope(log[j]), config, context) ==
            Verified(SignedForm(identity, log[j]))
    ensures ResolveReceipt(platform, HandleOfEnvelope(log[k]), config, context) ==
            Verified(SignedForm(identity, log[k]))
  {
    EmittedIsStorable(platform, identity, env, log[j]);
    LoggedResolves(platform, identity, env, log, j, config, context);
    LoggedResolves(platform, identity, env, log, k, config, context);
  }

  lemma LoneAdmissionComposes(
    platform: Platform, identity: SigningIdentity, env: Env, log: seq<Envelope>, j: nat,
    config: AccessConfig, context: AccessContext)
    requires Deployed(platform, identity, env) && EmittedLog(env, log) && NoCollisions(log)
    requires j < |log| && log[j].body.AdmissionBody? && !Blank(log[j].logicalCallId)
    requires Reads(platform, identity, log, config) && ContextMatches(IdentityIn(log[j]), config, context)
    ensures ComposeReceipts(platform, [HandleOfEnvelope(log[j])], config, context, log[j].logicalCallId, None) ==
            Composed(Some(SignedForm(identity, log[j])), None)
  {
    LoggedResolves(platform, identity, env, log, j, config, context);
    CallText(identity, log[j]);
    LoneComposes(platform, HandleOfEnvelope(log[j]), config, context, SignedForm(identity, log[j]),
                 log[j].logicalCallId);
  }

  // ---- Every run -----------------------------------------------------------

  lemma StillEmitted(env: Env, log: seq<Envelope>, e: Envelope, serial: nat, attempt: nat)
    requires EmittedLog(env, log) && Emitted(env, serial, attempt, e)
    ensures EmittedLog(env, log + [e])
  {
    assert EmittedOnce(env, e);
  }

  lemma MoveEmits(env: Env, job: Job, phase: Phase, s: State)
    requires EmittedLog(env, s.world.log) && (phase.InTool? ==> RunOf(job, phase.run))
    ensures EmittedLog(env, Move(env, job, phase, s).0.world.log)
  {
    var s' := Move(env, job, phase, s).0;
    match phase {
      case Waiting => AdmitEffect(env, job, s);
      case InTool(run, _) => FinishEffect(env, job, run, s);
      case Done(_, _, _, _, _) =>
    }
    if s'.world.log != s.world.log {
      StillEmitted(env, s.world.log, Newest(s'), s.world.minted, s.world.attempts);
    }
  }

  lemma {:induction false} RunsEmit(env: Env, jobs: seq<Job>, schedule: seq<nat>)
    ensures EmittedLog(env, Exec(env, jobs, schedule).state.world.log)
  {
    if |schedule| > 0 {
      var before, i := schedule[..|schedule| - 1], schedule[|schedule| - 1];
      RunsEmit(env, jobs, before);
      Conservation.EveryRecordAccounted(env, jobs, before);
      if i < |jobs| {
        var sys := Exec(env, jobs, before);
        assert Conservation.PhaseSettled(jobs[i], sys.state, sys.phases[i]);
        MoveEmits(env, jobs[i], sys.phases[i], sys.state);
      }
    }
  }

  // ---- Every run offers ----------------------------------------------------

  // Sink and log are as after one offer, or as before.
  predicate SameSink(w: World, w': World)
  {
    w'.log == w.log && w'.attempts == w.attempts
  }

  ghost predicate OffersOne(env: Env, w: World, w': World)
  {
    SameSink(w, w') || exists e :: SameSink(Accept(env, w, e).0, w')
  }

  lemma AdmissionOffers(
    env: Env, config: BindingConfig, call: Call, policy: BindingPolicy, version: BindingVersion, body: Body, s: State)
    requires body.AdmissionBody?
    ensures OffersOne(env, s.world, TryAdmission(env, config, call, policy, version, body, s).0.world)
  {
    var context := ContextOf(config, call, policy, version);
    var e := Common(env, context, s.world.minted, body);
    var limits := AppendLimits(e.limits, AdmissionLimits(config, policy));
    if limits.Some? {
      var w' := TryAdmission(env, config, call, policy, version, body, s).0.world;
      assert SameSink(s.world, w') || SameSink(Accept(env, s.world, e.(limits := limits.value)).0, w');
    }
  }

  lemma OutcomeOffers(
    env: Env, config: BindingConfig, call: Call, policy: BindingPolicy, version: BindingVersion,
    body: Body, exceptionClass: Option<string>, s: State)
    requires body.OutcomeBody?
    ensures OffersOne(env, s.world, TryOutcome(env, config, call, policy, version, body, exceptionClass, s).0.world)
  {
    var context := ContextOf(config, call, policy, version);
    var e := Common(env, context, s.world.minted, body).(exceptionClass := Present(exceptionClass));
    var limits := AppendLimits(e.limits + FamilyLimits(env, body.outcome), Distinct(config.limits));
    if limits.Some? {
      var w' := TryOutcome(env, config, call, policy, version, body, exceptionClass, s).0.world;
      assert SameSink(s.world, w') || SameSink(Accept(env, s.world, e.(limits := limits.value)).0, w');
    }
  }

  lemma TerminalOffers(
    env: Env, job: Job, policy: BindingPolicy, plan: AdmissionPlan, reviewRef: Option<string>, s: State)
    requires plan.record.Some? && plan.record.value.disposition != Admitted
    ensures OffersOne(env, s.world, Terminal(env, job, policy, plan, reviewRef, s).0.world)
  {
    AdmissionOffers(env, ConfigOf(job), job.call, policy, VersionOf(job),
                    TerminalBody(ConfigOf(job), job.call, policy, plan, reviewRef), s);
  }

  lemma AdmitOffers(env: Env, job: Job, s: State)
    ensures OffersOne(env, s.world, Admit(env, job, s).0.world)
  {
    if PolicyOf(job).Some? {
      var config, call, policy, version := ConfigOf(job), job.call, PolicyOf(job).value, VersionOf(job);
      AdmitUnfolds(env, job, s);
      var (reviewed, reviewRef, created) := Review(config, call, policy, s);
      var plan := Plan(config, policy, created);
      if !plan.proceeds {
        TerminalOffers(env, job, policy, plan, reviewRef, reviewed);
      } else if plan.recorded {
        AdmissionOffers(env, config, call, policy, version, AdmissionOf(config, call, AdmittedToken, None, None, None),
                        reviewed);
      }
    }
  }

  lemma FinishOffers(env: Env, job: Job, run: Run, s: State)
    requires RunOf(job, run)
    ensures OffersOne(env, s.world, Finish(env, job, run, s).0.world)
  {
    if run.admissionRef.Some? && !TaskLost(job) && !ProjectionFailed(job.call.ending) {
      RunIsPlanned(job, run);
      FinishUnfolds(env, job, run, s);
      OutcomeOffers(env, ConfigOf(job), job.call, run.policy, VersionOf(job),
                    EndingBody(env, job, run.admissionRef.value), EndingClass(job.call.ending), s);
    }
  }

  lemma MoveOffers(env: Env, job: Job, phase: Phase, s: State)
    requires Conservation.PhaseSettled(job, s, phase)
    ensures OffersOne(env, s.world, Move(env, job, phase, s).0.world)
  {
    match phase {
      case Waiting => AdmitOffers(env, job, s);
      case InTool(run, _) => FinishOffers(env, job, run, s);
      case Done(_, _, _, _, _) =>
    }
  }

  lemma OneMoreOffer(
    identity: SigningIdentity, env: Env, offers: seq<Envelope>, w: World, w': World) returns (more: seq<Envelope>)
    requires SameSink(Offered(identity, env, offers).0, w) && OffersOne(env, w, w')
    ensures SameSink(Offered(identity, env, more).0, w')
  {
    if SameSink(w, w') {
      more := offers;
    } else {
      var e :| SameSink(Accept(env, w, e).0, w');
      more := offers + [e];
      assert more[..|more| - 1] == offers;
    }
  }

  lemma {:induction false} OffersOfRun(identity: SigningIdentity, env: Env, jobs: seq<Job>, schedule: seq<nat>)
    returns (offers: seq<Envelope>)
    ensures SameSink(Offered(identity, env, offers).0, Exec(env, jobs, schedule).state.world)
  {
    if |schedule| == 0 {
      offers := [];
    } else {
      var before, i := schedule[..|schedule| - 1], schedule[|schedule| - 1];
      offers := OffersOfRun(identity, env, jobs, before);
      if i < |jobs| {
        var sys := Exec(env, jobs, before);
        Conservation.EveryRecordAccounted(env, jobs, before);
        assert Conservation.PhaseSettled(jobs[i], sys.state, sys.phases[i]);
        MoveOffers(env, jobs[i], sys.phases[i], sys.state);
        offers := OneMoreOffer(identity, env, offers, sys.state.world, Exec(env, jobs, schedule).state.world);
      }
    }
  }

  /** Every run is an emission: some envelopes, offered to the sink one after the
      other, leave the log of the run, and on the file sink its directory. */
  lemma RunIsOffered(platform: Platform, identity: SigningIdentity, env: Env, jobs: seq<Job>, schedule: seq<nat>)
    requires Deployed(platform, identity, env)
    ensures var world := Exec(env, jobs, schedule).state.world;
            exists offers :: SameSink(Offered(identity, env, offers).0, world)
                             && Leaves(platform, identity, Offered(identity, env, offers).1, world.log)
  {
    var offers := OffersOfRun(identity, env, jobs, schedule);
    OfferedIsLogged(platform, identity, env, offers);
  }

  /** In every state of every interleaving of calls through either binding, under
      any write failures, each outcome in the log composes with the admission it
      names, without a diagnostic, to exactly the two envelopes written. */
  lemma EveryOutcomeComposes(
    platform: Platform, identity: SigningIdentity, env: Env, jobs: seq<Job>, schedule: seq<nat>, j: nat, k: nat,
    config: AccessConfig, context: AccessContext)
    requires FreshIds(env) && Deployed(platform, identity, env)
    requires var log := Exec(env, jobs, schedule).state.world.log;
             && NoCollisions(log) && Names(log, j, k) && !Blank(log[j].logicalCallId)
             && Reads(platform, identity, log, config) && ContextMatches(IdentityIn(log[j]), config, context)
    ensures var log := Exec(env, jobs, schedule).state.world.log;
            ComposeReceipts(platform, [HandleOfEnvelope(log[j]), HandleOfEnvelope(log[k])], config, context,
                            log[j].logicalCallId, None) ==
            Composed(Some(SignedForm(identity, log[j])), Some(SignedForm(identity, log[k])))
  {
    RunsEmit(env, jobs, schedule);
    OnlyAdmittedNamed(env, jobs, schedule, j, k);
    PairComposes(platform, identity, env, Exec(env, jobs, schedule).state.world.log, j, k, config, context);
  }

  /** Whatever is read back tells the call that wrote it: every logged receipt of
      every run resolves to a record that says, member by member, what one of the
      calls asked for and what became of it. */
  lemma EveryReceiptReadsBack(
    platform: Platform, identity: SigningIdentity, env: Env, jobs: seq<Job>, schedule: seq<nat>, k: nat,
    config: AccessConfig, context: AccessContext)
    requires Deployed(platform, identity, env)
    requires var log := Exec(env, jobs, schedule).state.world.log;
             && k < |log| && NoCollisions(log) && Reads(platform, identity, log, config)
             && ContextMatches(IdentityIn(log[k]), config, context)
    ensures var e := Exec(env, jobs, schedule).state.world.log[k];
            var r := ResolveReceipt(platform, HandleOfEnvelope(e), config, context);
            r.Verified? && SomeTells(env, jobs, r.envelope)
  {
    var log := Exec(env, jobs, schedule).state.world.log;
    RunsEmit(env, jobs, schedule);
    EveryRecordTells(env, jobs, schedule, k);
    LoggedTells(platform, identity, env, jobs, log, k, config, context);
  }

  lemma LoggedTells(
    platform: Platform, identity: SigningIdentity, env: Env, jobs: seq<Job>, log: seq<Envelope>, k: nat,
    config: AccessConfig, context: AccessContext)
    requires Deployed(platform, identity, env) && EmittedLog(env, log) && NoCollisions(log) && k < |log|
    requires Reads(platform, identity, log, config) && ContextMatches(IdentityIn(log[k]), config, context)
    requires SomeTells(env, jobs, Render(log[k]))
    ensures var r := ResolveReceipt(platform, HandleOfEnvelope(log[k]), config, context);
            r.Verified? && SomeTells(env, jobs, r.envelope)
  {
    LoggedResolves(platform, identity, env, log, k, config, context);
    var i :| 0 <= i < |jobs| && Tells(env, jobs[i], Render(log[k]));
    SignedTells(identity, env, jobs[i], log[k]);
  }

  lemma SignedTells(identity: SigningIdentity, env: Env, job: Job, e: Envelope)
    requires Tells(env, job, Render(e))
    ensures Tells(env, job, SignedForm(identity, e))
  {
    SignatureSurvives(Render(e), identity.keyId, SignatureText(identity, Render(e)));
    TellsStill(env, job, Render(e), SignedForm(identity, e));
  }

  // ---- One governed call ---------------------------------------------------

  // The identity every receipt of a call carries; a call without a policy
  // writes none.
  function CallIdentity(job: Job): Identity
  {
    if PolicyOf(job).Some? then JobIdentity(job)
    else Identity("", "", job.call.snapshot.logicalCallId, "", None, None, None, None, None, VersionOf(job))
  }

  // What a call's own accepted writes look like.
  predicate CallWrites(id: Identity, writes: seq<Envelope>)
  {
    && |writes| <= 2
    && (writes != [] ==> writes[0].body.AdmissionBody? && IdentityIn(writes[0]) == id)
    && (|writes| == 2 ==>
          && writes[1].body.OutcomeBody? && writes[1].body.admissionRef == writes[0].reference
          && IdentityIn(writes[1]) == id)
  }

  lemma AdmissionWrites(env: Env, job: Job, s: State)
    ensures var (s', progress) := Admit(env, job, s);
            && s.world.log <= s'.world.log
            && var added := s'.world.log[|s.world.log|..];
               && |added| <= 1 && CallWrites(CallIdentity(job), added)
               && (progress.Running? ==>
                     RunOf(job, progress.run)
                     && (progress.run.admissionRef == if added == [] then None else Some(added[0].reference)))
  {
    AdmitEffect(env, job, s);
    var s' := Admit(env, job, s).0;
    if s'.world.log != s.world.log {
      assert s'.world.log[|s.world.log|..] == [Newest(s')];
    }
  }

  lemma OutcomeWrites(env: Env, job: Job, run: Run, s: State)
    requires RunOf(job, run)
    ensures var s' := Finish(env, job, run, s).0;
            && s.world.log <= s'.world.log
            && var added := s'.world.log[|s.world.log|..];
               && |added| <= 1
               && (added != [] ==>
                     && run.admissionRef.Some? && added[0].body.OutcomeBody?
                          && added[0].body.admissionRef == run.admissionRef.value
                     && IdentityIn(added[0]) == CallIdentity(job))
  {
    FinishEffect(env, job, run, s);
    var s' := Finish(env, job, run, s).0;
    if s'.world.log != s.world.log {
      assert s'.world.log[|s.world.log|..] == [Newest(s')];
    }
  }

  lemma WritesOfCall(env: Env, job: Job, s: State, resumed: State)
    ensures var t := TraceOf(env, job, s, resumed);
            && s.world.log <= t.admitted.world.log && (t.ran ==> resumed.world.log <= t.after.world.log)
            && CallWrites(CallIdentity(job), AcceptedWrites(s, resumed, t))
  {
    AdmissionWrites(env, job, s);
    var (admitted, progress) := Admit(env, job, s);
    if progress.Running? {
      OutcomeWrites(env, job, progress.run, resumed);
    }
  }

  // The composition of a call's own writes.
  function WritesComposed(identity: SigningIdentity, writes: seq<Envelope>): Composition
  {
    Composed(if |writes| > 0 then Some(SignedForm(identity, writes[0])) else None,
             if |writes| > 1 then Some(SignedForm(identity, writes[1])) else None)
  }

  /** The receipts of a governed call's response read back: without a diagnostic
      and as exactly the envelopes that call wrote, however many other receipts
      the shared directory holds by then. (The gateway hands its request
      reference to the binding as the logical call.) */
  lemma GovernedCallRoundTrip(
    platform: Platform, identity: SigningIdentity, env: Env, request: GovernedCallRequest, job: Job,
    s: State, resumed: State, log: seq<Envelope>, config: AccessConfig, context: AccessContext)
    requires Deployed(platform, identity, env) && EmittedLog(env, log) && NoCollisions(log)
    requires Reads(platform, identity, log, config)
    requires job.call.snapshot.logicalCallId == request.requestRef
    requires Respond(request, TraceOf(env, job, s, resumed)).Responded?
    requires var t := TraceOf(env, job, s, resumed);
             t.admitted.world.log <= log && (t.ran ==>
                                             t.admitted.world.log <= resumed.world.log && t.after.world.log <= log)
    requires ContextMatches(CallIdentity(job), config, context)
    ensures var t := TraceOf(env, job, s, resumed);
            && s.world.log <= t.admitted.world.log && (t.ran ==> resumed.world.log <= t.after.world.log)
            && AccessGovernedCallReceipts(platform, Respond(request, t).response, config, context) ==
               WritesComposed(identity, AcceptedWrites(s, resumed, t))
  {
    var t := TraceOf(env, job, s, resumed);
    WritesOfCall(env, job, s, resumed);
    ReceiptsAreTheAcceptedWrites(request, env, job, s, resumed);
    RespondKeepsRequest(request, t);
    WritesAreLogged(env, job, s, resumed, log);
    OwnWritesCompose(platform, identity, env, CallIdentity(job), log, AcceptedWrites(s, resumed, t), config, context);
    SameHandles(Respond(request, t).response.receipts, AcceptedWrites(s, resumed, t));
  }

  lemma SameHandles(receipts: seq<ReceiptHandle>, writes: seq<Envelope>)
    requires |receipts| == |writes| <= 2 && forall i | 0 <= i < |writes| :: receipts[i] == HandleOfEnvelope(writes[i])
    ensures receipts == HandlesOfWrites(writes)
  {}

  lemma NothingComposes(platform: Platform, config: AccessConfig, context: AccessContext, callId: string)
    requires !Blank(callId)
    ensures ComposeReceipts(platform, [], config, context, callId, None) == Composed(None, None)
  {}

  // What every composition of a call's own writes starts from.
  ghost predicate Readable(
    platform: Platform, identity: SigningIdentity, env: Env, id: Identity, log: seq<Envelope>,
    config: AccessConfig, context: AccessContext)
  {
    && Deployed(platform, identity, env) && EmittedLog(env, log) && NoCollisions(log)
    && Reads(platform, identity, log, config)
    && !Blank(id.logicalCallId) && ContextMatches(id, config, context)
  }

  lemma OwnAdmissionComposes(
    platform: Platform, identity: SigningIdentity, env: Env, id: Identity, log: seq<Envelope>, a: Envelope,
    config: AccessConfig, context: AccessContext)
    requires Readable(platform, identity, env, id, log, config, context)
    requires a in log && a.body.AdmissionBody? && IdentityIn(a) == id
    ensures ComposeReceipts(platform, [HandleOfEnvelope(a)], config, context, id.logicalCallId, None) ==
            Composed(Some(SignedForm(identity, a)), None)
  {
    var j: nat :| j < |log| && log[j] == a;
    LoneAdmissionComposes(platform, identity, env, log, j, config, context);
  }

  lemma OwnPairComposes(
    platform: Platform, identity: SigningIdentity, env: Env, id: Identity, log: seq<Envelope>, a: Envelope, o: Envelope,
    config: AccessConfig, context: AccessContext)
    requires Readable(platform, identity, env, id, log, config, context)
    requires a in log && a.body.AdmissionBody? && IdentityIn(a) == id
    requires o in log && o.body.OutcomeBody? && o.body.admissionRef == a.reference && IdentityIn(o) == id
    ensures ComposeReceipts(platform, [HandleOfEnvelope(a), HandleOfEnvelope(o)], config, context, id.logicalCallId,
                            None) ==
            Composed(Some(SignedForm(identity, a)), Some(SignedForm(identity, o)))
  {
    var j: nat :| j < |log| && log[j] == a;
    var k: nat :| k < |log| && log[k] == o;
    PairComposes(platform, identity, env, log, j, k, config, context);
  }

  lemma OwnWritesCompose(
    platform: Platform, identity: SigningIdentity, env: Env, id: Identity, log: seq<Envelope>, writes: seq<Envelope>,
    config: AccessConfig, context: AccessContext)
    requires Readable(platform, identity, env, id, log, config, context)
    requires CallWrites(id, writes) && (forall e | e in writes :: e in log)
    ensures ComposeReceipts(platform, HandlesOfWrites(writes), config, context, id.logicalCallId, None) ==
            WritesComposed(identity, writes)
  {
    if |writes| == 0 {
      NothingComposes(platform, config, context, id.logicalCallId);
    } else if |writes| == 1 {
      OwnAdmissionComposes(platform, identity, env, id, log, writes[0], config, context);
    } else {
      OwnPairComposes(platform, identity, env, id, log, writes[0], writes[1], config, context);
    }
  }

  function HandlesOfWrites(writes: seq<Envelope>): seq<ReceiptHandle>
  {
    if |writes| == 0 then []
    else if |writes| == 1 then [HandleOfEnvelope(writes[0])]
    else [HandleOfEnvelope(writes[0]), HandleOfEnvelope(writes[1])]
  }

  lemma RespondKeepsRequest(request: GovernedCallRequest, t: CallTrace)
    requires Respond(request, t).Responded?
    ensures Respond(request, t).response.logicalCallId == request.requestRef && !Blank(request.requestRef)
  {}

  lemma WritesAreLogged(env: Env, job: Job, s: State, resumed: State, log: seq<Envelope>)
    requires var t := TraceOf(env, job, s, resumed);
             && s.world.log <= t.admitted.world.log && (t.ran ==> resumed.world.log <= t.after.world.log)
             && t.admitted.world.log <= log && (t.ran ==> t.after.world.log <= log)
    ensures forall e | e in AcceptedWrites(s, resumed, TraceOf(env, job, s, resumed)) :: e in log
  {
    var t := TraceOf(env, job, s, resumed);
    PrefixMembers(t.admitted.world.log, log, |s.world.log|);
    if t.ran {
      PrefixMembers(t.after.world.log, log, |resumed.world.log|);
    }
  }

  lemma PrefixMembers(part: seq<Envelope>, log: seq<Envelope>, n: nat)
    requires part <= log && n <= |part|
    ensures forall e | e in part[n..] :: e in log
  {
    forall e | e in part[n..] ensures e in log {
      var i :| 0 <= i < |part[n..]| && part[n..][i] == e;
      assert log[n + i] == e;
    }
  }
}
