/** Receipt construction and acceptance (dagr_mcp/srs_receipts.py): the emitter
    builds an envelope, guards its content and offers it to a sink that may
    refuse. Every choice the outside world makes is a function in `Env`, so the
    emitter's effect is a function of the world it starts from. */
module Receipts {
  import opened Prelude
  import opened JsonTrees
  import opened Lifecycle

  datatype Origin =
    | SuppliedSubject | DerivedFromSession | DerivedFromRequest
    | DerivedFromSuppliedCorrelation | BindingMinted

  datatype DispositionToken = AdmittedToken | RefusedToken | DeferredForReviewToken

  datatype OutcomeToken = ResultReturned | ErrorReturned | ExceptionToken | TaskSubmittedToken | Indeterminate

  /** Binding versions; the named ones are registered with the emitter. */
  datatype BindingVersion =
    | DirectHarness | FastMcpVersion | OfficialSdkV01 | OfficialSdkV02 | Unregistered(name: string)

  function VersionText(v: BindingVersion): string
  {
    match v
    case DirectHarness => "direct-harness.v0.1"
    case FastMcpVersion => "fastmcp.middleware.v0.1"
    case OfficialSdkV01 => "official-mcp-sdk.python.v0.1"
    case OfficialSdkV02 => "official-mcp-sdk.python.v0.2"
    case Unregistered(name) => name
  }

  datatype ReceiptContext = ReceiptContext(
    runtimeInstanceId: string, boundaryId: string,
    policyPackId: string, policyPackVersion: string,
    subjectRef: string, subjectRefOrigin: Option<Origin>, logicalCallId: string,
    actorRef: Option<string>, tenantId: Option<string>, workspaceId: Option<string>,
    bindingVersion: BindingVersion, parentReceiptRef: Option<string>)

  datatype Body =
    | AdmissionBody(
        toolName: string, argumentDigest: string, policyPackId: string, policyPackVersion: string,
        disposition: DispositionToken, reviewObjectRef: Option<string>,
        retryContract: Option<string>, reasonCode: Option<string>)
    | OutcomeBody(
        admissionRef: string, outcome: OutcomeToken, resultDigest: Option<string>,
        owned: map<Key, bool>)

  /** The unsigned envelope, with the reference a sink answered with when it
      accepted it: a sink is free to store it under another identifier than its
      own. Members that are constants of the profile are left to its rendering
      (ReceiptStore.Render). */
  datatype Envelope = Envelope(
    receiptId: string, reference: string, issuedAt: string, issuerId: string,
    runtimeInstanceId: string, boundaryId: string, logicalCallId: string,
    subjectRef: string, subjectRefOrigin: Option<Origin>,
    actorRef: Option<string>, tenantId: Option<string>, workspaceId: Option<string>,
    parentReceiptRef: Option<string>,
    bindingVersion: BindingVersion, exceptionClass: Option<string>,
    limits: seq<string>,
    body: Body)

  // What a failed emission raised, as far as telemetry can tell.
  datatype Fault = ContentFault | WriteFault | IoFault | OtherFault(className: string)

  /** The outside world: the n-th minted identifier and issue time, whether the
      n-th write offered to the sink fails and the reference it is answered with
      otherwise, which envelopes the content guard refuses before signing,
      digests, and the text of each family of limits. */
  datatype Env = Env(
    ids: nat -> string,
    clock: nat -> string,
    faults: nat -> Option<Fault>,
    answers: (nat, Envelope) -> string,
    rejects: Envelope -> bool,
    digest: Json -> string,
    limitText: LimitFamily -> string,
    issuerId: string)

  datatype ReceiptKindName = AdmissionKind | OutcomeKind

  /** What calls share: the envelopes the sink accepted, the number of writes
      offered to it, and the number of identifiers minted. */
  datatype World = World(log: seq<Envelope>, attempts: nat, minted: nat)

  const CANCELLATION_FIELDS: set<Key> := {
    Known(RequestCancelled), Known(ExecutionStateUnknown), Known(DeliveryIncomplete)}

  // `if value:` on an optional string.
  function Present(o: Option<string>): Option<string>
  {
    if o.Some? && o.value != "" then o else None
  }

  // Optional members are left out when they are empty.
  function Normalized(body: Body): Body
  {
    match body
    case AdmissionBody(tool, digest, pack, version, disposition, reviewRef, retry, reason) =>
      AdmissionBody(tool, digest, pack, version, disposition, Present(reviewRef), Present(retry), Present(reason))
    case OutcomeBody(admissionRef, outcome, digest, owned) =>
      OutcomeBody(admissionRef, outcome, Present(digest), owned)
  }

  // The envelope members every receipt of a context carries.
  function Common(env: Env, context: ReceiptContext, serial: nat, body: Body): Envelope
  {
    Envelope(
      env.ids(serial), env.ids(serial), env.clock(serial), env.issuerId,
      context.runtimeInstanceId, context.boundaryId, context.logicalCallId,
      context.subjectRef, context.subjectRefOrigin,
      Present(context.actorRef), Present(context.tenantId), Present(context.workspaceId),
      Present(context.parentReceiptRef),
      context.bindingVersion, None, [env.limitText(Base)], Normalized(body))
  }

  // _append_attestation_limits: None when some addition is blank.
  function AppendLimits(limits: seq<string>, additions: seq<string>): Option<seq<string>>
    decreases |additions|
  {
    if |additions| == 0 then Some(limits)
    else if Blank(additions[0]) then None
    else AppendLimits(AppendUnique(limits, additions[0]), additions[1..])
  }

  lemma {:induction false} AppendLimitsJoins(limits: seq<string>, additions: seq<string>)
    ensures AppendLimits(limits, additions) ==
            if exists i | 0 <= i < |additions| :: Blank(additions[i]) then None else Some(Joined(limits, additions))
    decreases |additions|
  {
    if |additions| > 0 && !Blank(additions[0]) {
      AppendLimitsJoins(AppendUnique(limits, additions[0]), additions[1..]);
    }
  }

  // _apply_binding_owned_fields accepts a mapping exactly when it is empty, or
  // sits on an indeterminate outcome and names cancellation fields only.
  predicate OwnedFieldsAllowed(outcome: OutcomeToken, owned: map<Key, bool>)
  {
    owned == map[] || (outcome == Indeterminate && owned.Keys <= CANCELLATION_FIELDS)
  }

  function FamilyLimits(env: Env, outcome: OutcomeToken): seq<string>
  {
    match outcome
    case ResultReturned | ErrorReturned => [env.limitText(ResultLimit)]
    case TaskSubmittedToken => [env.limitText(Task)]
    case _ => []
  }

  // Signing and writing: the content guard first, then the sink.
  function Accept(env: Env, w: World, e: Envelope): (World, Result<string, Fault>)
  {
    if env.rejects(e) then (w, Err(ContentFault))
    else
      match env.faults(w.attempts)
      case Some(fault) => (w.(attempts := w.attempts + 1), Err(fault))
      case None =>
        var stored := e.(reference := env.answers(w.attempts, e));
        (w.(attempts := w.attempts + 1, log := w.log + [stored]), Ok(stored.reference))
  }

  function EmittedAdmission(env: Env, w: World, context: ReceiptContext, body: Body, additions: seq<string>)
    : (World, Result<string, Fault>)
    requires body.AdmissionBody?
  {
    if context.bindingVersion.Unregistered? then (w, Err(ContentFault))
    else
      var e := Common(env, context, w.minted, body);
      var minted := w.(minted := w.minted + 1);
      match AppendLimits(e.limits, additions)
      case None => (minted, Err(ContentFault))
      case Some(limits) => Accept(env, minted, e.(limits := limits))
  }

  function EmittedOutcome(
    env: Env, w: World, context: ReceiptContext, body: Body, exceptionClass: Option<string>, additions: seq<string>)
    : (World, Result<string, Fault>)
    requires body.OutcomeBody?
  {
    if context.bindingVersion.Unregistered? then (w, Err(ContentFault))
    else
      var e := Common(env, context, w.minted, body).(exceptionClass := Present(exceptionClass));
      var minted := w.(minted := w.minted + 1);
      match AppendLimits(e.limits + FamilyLimits(env, body.outcome), additions)
      case None => (minted, Err(ContentFault))
      case Some(limits) =>
        if !OwnedFieldsAllowed(body.outcome, body.owned) then (minted, Err(ContentFault))
        else Accept(env, minted, e.(limits := limits))
  }

  /** The sink shared by every emitter: what it accepted, in order. */
  class ReceiptSink {
    const env: Env
    var log: seq<Envelope>
    var attempts: nat

    constructor (env: Env)
      ensures this.env == env && log == [] && attempts == 0
    {
      this.env, log, attempts := env, [], 0;
    }

    method Write(e: Envelope) returns (r: Result<string, Fault>)
      modifies this
      ensures attempts == old(attempts) + 1
      ensures r == match env.faults(old(attempts))
                   case Some(fault) => Err(fault)
                   case None => Ok(env.answers(old(attempts), e))
      ensures log == if r.Ok? then old(log) + [e.(reference := r.value)] else old(log)
    {
      var reference := env.answers(attempts, e);
      var fault := env.faults(attempts);
      attempts := attempts + 1;
      if fault.Some? {
        return Err(fault.value);
      }
      log := log + [e.(reference := reference)];
      r := Ok(reference);
    }
  }

  // What the gateway keeps of one accepted write (_CapturedReceipt): the
  // identifier the sink returned, and what it classifies by.
  datatype Captured = Captured(
    receiptId: string, kind: ReceiptKindName, disposition: Option<DispositionToken>,
    outcome: Option<OutcomeToken>, reasonCode: Option<string>, reviewObjectRef: Option<string>)

  function Capture(e: Envelope): Captured
  {
    match e.body
    case AdmissionBody(_, _, _, _, disposition, reviewRef, _, reason) =>
      Captured(e.reference, AdmissionKind, Some(disposition), None, reason, reviewRef)
    case OutcomeBody(_, outcome, _, _) =>
      Captured(e.reference, OutcomeKind, None, Some(outcome), None, None)
  }

  function CaptureAll(log: seq<Envelope>): seq<Captured>
  {
    seq(|log|, i requires 0 <= i < |log| => Capture(log[i]))
  }

  // What an observer sees of the writes that lead from one world to another,
  // and whether one of them failed.
  function Seen(w: World, w': World): seq<Captured>
  {
    if |w.log| <= |w'.log| then CaptureAll(w'.log[|w.log|..]) else []
  }

  predicate WriteFailed(w: World, w': World)
  {
    w'.attempts - w.attempts > |w'.log| - |w.log|
  }

  lemma AppendAssociates(a: seq<Captured>, b: seq<Captured>, c: seq<Captured>)
    ensures a + b + c == a + (b + c)
  {}

  /** The gateway's observation seam (_CapturingSink): forwards every write
      unchanged and records what the sink accepted, and whether any write failed. */
  class CapturingSink {
    const inner: ReceiptSink
    var captured: seq<Captured>
    var writeFailed: bool

    constructor (inner: ReceiptSink)
      ensures this.inner == inner && captured == [] && !writeFailed
    {
      this.inner, captured, writeFailed := inner, [], false;
    }

    method Write(e: Envelope) returns (r: Result<string, Fault>)
      modifies this, inner
      ensures inner.attempts == old(inner.attempts) + 1
      ensures r == match inner.env.faults(old(inner.attempts))
                   case Some(fault) => Err(fault)
                   case None => Ok(inner.env.answers(old(inner.attempts), e))
      ensures inner.log == if r.Ok? then old(inner.log) + [e.(reference := r.value)] else old(inner.log)
      ensures captured == if r.Ok? then old(captured) + [Capture(e.(reference := r.value))] else old(captured)
      ensures writeFailed == (old(writeFailed) || r.Err?)
    {
      r := inner.Write(e);
      if r.Err? {
        writeFailed := true;
      } else {
        captured := captured + [Capture(e).(receiptId := r.value)];
      }
    }
  }

  /** The identifier and clock factories, which every emitter draws from. */
  class IdentifierSource {
    var minted: nat

    constructor ()
      ensures minted == 0
    {
      minted := 0;
    }

    method Mint() returns (serial: nat)
      modifies this
      ensures serial == old(minted) && minted == old(minted) + 1
    {
      serial := minted;
      minted := minted + 1;
    }
  }

  /** An emitter and the sink it writes to, watched by an observer; outside the
      gateway nobody reads what the observer saw. */
  class SignedReceiptEmitter {
    const env: Env
    const observer: CapturingSink
    const source: IdentifierSource

    ghost predicate Valid()
    {
      observer.inner.env == env
    }

    ghost function Footprint(): set<object>
    {
      {observer, observer.inner, source}
    }

    ghost function View(): World
      reads source, observer.inner
    {
      World(observer.inner.log, observer.inner.attempts, source.minted)
    }

    // What the observer saw of the writes since a given world.
    twostate predicate Observed(w: World, w': World)
      reads observer
    {
      && observer.captured == old(observer.captured) + Seen(w, w')
      && observer.writeFailed == (old(observer.writeFailed) || WriteFailed(w, w'))
    }

    constructor (env: Env, observer: CapturingSink, source: IdentifierSource)
      requires observer.inner.env == env
      ensures Valid() && this.env == env && this.observer == observer && this.source == source
    {
      this.env, this.observer, this.source := env, observer, source;
    }

    method AppendAttestationLimits(limits: seq<string>, additions: seq<string>) returns (r: Option<seq<string>>)
      ensures r == AppendLimits(limits, additions)
      ensures r.None? <==> exists i | 0 <= i < |additions| :: Blank(additions[i])
      ensures r.Some? ==> Unites(limits, additions, r.value)
    {
      AppendLimitsJoins(limits, additions);
      JoinedUnites(limits, additions);
      var current := limits;
      var i := 0;
      while i < |additions|
        invariant 0 <= i <= |additions|
        invariant AppendLimits(limits, additions) == AppendLimits(current, additions[i..])
      {
        if Blank(additions[i]) {
          return None;
        }
        assert additions[i..][1..] == additions[i + 1..];
        current := AppendUnique(current, additions[i]);
        i := i + 1;
      }
      r := Some(current);
    }

    // Content guard, signature, sink.
    method SignAndWrite(e: Envelope) returns (r: Result<string, Fault>)
      requires Valid()
      modifies Footprint()
      ensures (View(), r) == Accept(env, old(View()), e)
      ensures Observed(old(View()), View())
    {
      if env.rejects(e) {
        return Err(ContentFault);
      }
      r := observer.Write(e);
      assert r.Ok? ==> observer.inner.log[|old(observer.inner.log)|..] == [e.(reference := r.value)];
    }

    method EmitAdmission(context: ReceiptContext, body: Body, additions: seq<string>)
      returns (r: Result<string, Fault>)
      requires Valid() && body.AdmissionBody?
      modifies Footprint()
      ensures (View(), r) == EmittedAdmission(env, old(View()), context, body, additions)
      ensures Observed(old(View()), View())
    {
      if context.bindingVersion.Unregistered? {
        return Err(ContentFault);
      }
      var serial := source.Mint();
      var e := Common(env, context, serial, body);
      var limits := AppendAttestationLimits(e.limits, additions);
      if limits.None? {
        return Err(ContentFault);
      }
      r := SignAndWrite(e.(limits := limits.value));
    }

    method EmitOutcome(
      context: ReceiptContext, body: Body, exceptionClass: Option<string>, additions: seq<string>)
      returns (r: Result<string, Fault>)
      requires Valid() && body.OutcomeBody?
      modifies Footprint()
      ensures (View(), r) ==
              EmittedOutcome(env, old(View()), context, body, exceptionClass, additions)
      ensures Observed(old(View()), View())
    {
      if context.bindingVersion.Unregistered? {
        return Err(ContentFault);
      }
      var serial := source.Mint();
      var e := Common(env, context, serial, body).(exceptionClass := Present(exceptionClass));
      var limits := AppendAttestationLimits(e.limits + FamilyLimits(env, body.outcome), additions);
      if limits.None? || !OwnedFieldsAllowed(body.outcome, body.owned) {
        return Err(ContentFault);
      }
      r := SignAndWrite(e.(limits := limits.value));
    }
  }
}
