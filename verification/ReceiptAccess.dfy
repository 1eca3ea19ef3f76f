/** Reading receipts back (dagr_mcp_service/access.py): one byte snapshot is
    parsed, checked against the profile, guarded, verified and bound to the
    handle it was asked for; an admission and an outcome are then linked. */
module ReceiptAccess {
  import opened Prelude
  import opened JsonTrees
  import opened Base64Url
  import opened Receipts
  import opened GatewayAdapter
  import opened ReceiptStore

  datatype DiagnosticCode =
    | UnknownHandle | ReceiptUnavailable | MalformedEnvelope | SchemaFailure | SignatureFailure
    | IdentifierMismatch | FamilyMismatch | AssociationMismatch | AccessUnauthorized | ProviderFailure

  datatype ProviderAnswer = Snapshot(bytes: seq<Byte>) | NotFound | SourceUnavailable | ProviderRaised

  // One issuer of the trust bundle.
  datatype TrustEntry = TrustEntry(
    issuerId: string, keyId: string, publicKey: string, notBefore: string, notAfter: string, trusted: bool)

  datatype AccessContext = AccessContext(actorRef: Option<string>, tenantRef: Option<string>,
                                         requestRef: Option<string>)

  datatype AccessConfig = AccessConfig(
    provider: (ReceiptHandle, AccessContext) -> ProviderAnswer, trust: seq<TrustEntry>,
    requireActor: bool, requireTenant: bool)

  /** Resolving a handle: the verified envelope, a diagnostic, or Python's own
      TypeError. */
  datatype Resolution = Verified(envelope: map<Key, Json>) | Diagnosed(code: DiagnosticCode) | Raised

  datatype SchemaAnswer = Conforms | Fails | SchemaRaises

  predicate RequiredBase(f: Field)
  {
    match f
    case ReceiptVersion | ProfileId | ProfileVersion | ReceiptId | ReceiptType | ReceiptKind => true
    case BoundaryType | ProtocolBinding | SubjectRef | IssuerId | RuntimeInstanceId | BoundaryId => true
    case LogicalCallId | IssuedAt | ArtifactClassesCovered | ArtifactClassesExcluded => true
    case AttestationLimits | RetentionClassApplied | Extensions | ReceiptSignature => true
    case _ => false
  }

  predicate RequiredOf(kind: ReceiptKindName, f: Field)
  {
    match kind
    case AdmissionKind =>
      (match f
       case RequestedToolName | ToolResolutionStatus | ArgumentDigest => true
       case PolicyPackId | PolicyPackVersion | DispositionField => true
       case _ => false)
    case OutcomeKind =>
      match f case AdmissionReceiptRef | OutcomeField => true case _ => false
  }

  predicate ProfileConstant(f: Field)
  {
    match f
    case ReceiptVersion | ProfileId | ProfileVersion | ReceiptType | BoundaryType | ProtocolBinding => true
    case _ => false
  }

  predicate KnownDisposition(text: string)
  {
    exists d :: text == DispositionText(d)
  }

  predicate KnownOutcome(text: string)
  {
    exists o :: text == OutcomeText(o)
  }

  predicate HasBase(m: map<Key, Json>)
  {
    forall f: Field :: RequiredBase(f) ==> Known(f) in m
  }

  predicate HasKindFields(m: map<Key, Json>, kind: ReceiptKindName)
  {
    forall f: Field :: RequiredOf(kind, f) ==> Known(f) in m
  }

  predicate HasConstants(m: map<Key, Json>)
  {
    forall f: Field :: ProfileConstant(f) ==> Get(m, Known(f)) == Str(ProfileText(f))
  }

  // `value not in frozenset(...)` on a JSON value: arrays and objects cannot be
  // hashed.
  function Membership(value: Json, known: bool): SchemaAnswer
  {
    if value.Arr? || value.Obj? then SchemaRaises else if known then Conforms else Fails
  }

  function KindSchema(m: map<Key, Json>): SchemaAnswer
  {
    var kind := Get(m, Known(ReceiptKind));
    if kind == Str(KindText(AdmissionKind)) then
      if !HasKindFields(m, AdmissionKind) then Fails
      else
        var disposition := Get(m, Known(DispositionField));
        Membership(disposition, disposition.Str? && KnownDisposition(disposition.text))
    else if kind == Str(KindText(OutcomeKind)) then
      if !HasKindFields(m, OutcomeKind) then Fails
      else
        var outcome := Get(m, Known(OutcomeField));
        Membership(outcome, outcome.Str? && KnownOutcome(outcome.text))
    else Fails
  }

  const SIGNATURE_MEMBERS: set<Key> := {
    Known(Algorithm), Known(Canonicalization), Known(KeyId), Known(SignatureValue)}

  predicate SignatureSchema(signature: Json)
  {
    && signature.Obj?
    && signature.members.Keys == SIGNATURE_MEMBERS
    && signature.members[Known(Algorithm)] == Str(ProfileText(Algorithm))
    && signature.members[Known(Canonicalization)] == Str(ProfileText(Canonicalization))
  }

  // _envelope_schema_error
  function Schema(m: map<Key, Json>): SchemaAnswer
  {
    if !HasBase(m) then Fails
    else if !HasConstants(m) then Fails
    else
      match KindSchema(m)
      case Conforms => if SignatureSchema(m[Known(ReceiptSignature)]) then Conforms else Fails
      case other => other
  }

  function Entries(trust: seq<TrustEntry>, keyId: Json): seq<TrustEntry>
  {
    if |trust| == 0 then []
    else (if Str(trust[0].keyId) == keyId then [trust[0]] else []) + Entries(trust[1..], keyId)
  }

  function DecodedText(value: Json): Option<seq<Byte>>
  {
    if value.Str? then B64UrlDecode(value.text) else None
  }

  function Preimage(m: map<Key, Json>, signature: map<Key, Json>): Json
  {
    Obj(m[Known(ReceiptSignature) := Obj(signature - {Known(SignatureValue)})])
  }

  predicate InWindow(platform: Platform, issuedAt: Json, entry: TrustEntry)
  {
    var issued := platform.parseTime(platform.textOf(issuedAt));
    var notBefore, notAfter := platform.parseTime(entry.notBefore), platform.parseTime(entry.notAfter);
    issued.Some? && notBefore.Some? && notAfter.Some? && notBefore.value <= issued.value <= notAfter.value
  }

  // A conforming envelope has what the signature check looks up.
  predicate HasSignature(m: map<Key, Json>)
  {
    && Known(IssuedAt) in m && Known(ReceiptSignature) in m && m[Known(ReceiptSignature)].Obj?
    && Known(KeyId) in m[Known(ReceiptSignature)].members && Known(SignatureValue) in m[Known(ReceiptSignature)].members
  }

  // The one entry with the envelope's key identifier stands for it.
  predicate EntryVouches(platform: Platform, m: map<Key, Json>, entry: TrustEntry)
    requires HasSignature(m)
  {
    var signature := m[Known(ReceiptSignature)].members;
    var publicKey, bytes := B64UrlDecode(entry.publicKey), DecodedText(signature[Known(SignatureValue)]);
    && publicKey.Some? && |publicKey.value| == 32
    && bytes.Some? && |bytes.value| == 64
    && platform.verify(publicKey.value, bytes.value, Preimage(m, signature))
    && entry.trusted && Str(entry.issuerId) == Get(m, Known(IssuerId))
    && InWindow(platform, m[Known(IssuedAt)], entry)
  }

  // _signature_valid
  predicate SignatureValid(platform: Platform, m: map<Key, Json>, trust: seq<TrustEntry>)
    requires HasSignature(m)
  {
    var entries := Entries(trust, m[Known(ReceiptSignature)].members[Known(KeyId)]);
    |entries| == 1 && EntryVouches(platform, m, entries[0])
  }

  lemma ConformingHasSignature(m: map<Key, Json>)
    requires Schema(m) == Conforms
    ensures HasSignature(m)
  {
    assert RequiredBase(ReceiptSignature) && RequiredBase(IssuedAt);
    var block := m[Known(ReceiptSignature)].members;
    assert Known(KeyId) in block.Keys && Known(SignatureValue) in block.Keys;
  }

  // _verify_and_parse_envelope
  function VerifyAndParse(
    platform: Platform, bytes: seq<Byte>, handle: ReceiptHandle, trust: seq<TrustEntry>): Resolution
  {
    match platform.loads(bytes)
    case Some(Obj(m)) =>
      (match Schema(m)
       case SchemaRaises => Raised
       case Fails => Diagnosed(SchemaFailure)
       case Conforms =>
         ConformingHasSignature(m);
         if !RawContentFree(Obj(m)) then Diagnosed(SchemaFailure)
         else if !SignatureValid(platform, m, trust) then Diagnosed(SignatureFailure)
         else if Get(m, Known(ReceiptId)) != Str(handle.receiptId) then Diagnosed(IdentifierMismatch)
         else if Get(m, Known(ReceiptKind)) != Str(KindText(handle.kind)) then Diagnosed(FamilyMismatch)
         else Verified(m))
    case _ => Diagnosed(MalformedEnvelope)
  }

  // A reference of the trusted context that the envelope contradicts.
  predicate Contradicts(m: map<Key, Json>, f: Field, expected: Option<string>)
  {
    expected.Some? && Get(m, Known(f)) != Null && Get(m, Known(f)) != Str(expected.value)
  }

  /** resolve_receipt */
  function ResolveReceipt(
    platform: Platform, handle: ReceiptHandle, config: AccessConfig, context: AccessContext): Resolution
  {
    if config.requireActor && context.actorRef.None? then Diagnosed(AccessUnauthorized)
    else if config.requireTenant && context.tenantRef.None? then Diagnosed(AccessUnauthorized)
    else
      match config.provider(handle, context)
      case NotFound => Diagnosed(UnknownHandle)
      case SourceUnavailable => Diagnosed(ReceiptUnavailable)
      case ProviderRaised => Diagnosed(ProviderFailure)
      case Snapshot(bytes) =>
        match VerifyAndParse(platform, bytes, handle, config.trust)
        case Verified(m) =>
          if Contradicts(m, ActorRef, context.actorRef) || Contradicts(m, TenantId, context.tenantRef)
             || Contradicts(m, LogicalCallId, context.requestRef) then Diagnosed(AssociationMismatch)
          else Verified(m)
        case other => other
  }

  /** A composition: linked envelopes, a diagnostic, or an exception (the
      ValueError of a blank expectation, or one of resolving). */
  datatype Composition =
    | Composed(admission: Option<map<Key, Json>>, outcome: Option<map<Key, Json>>)
    | Unlinked(code: DiagnosticCode)
    | CompositionRaised

  function OfKind(handles: seq<ReceiptHandle>, kind: ReceiptKindName): seq<ReceiptHandle>
  {
    if |handles| == 0 then []
    else (if handles[0].kind == kind then [handles[0]] else []) + OfKind(handles[1..], kind)
  }

  predicate SameMember(a: map<Key, Json>, b: map<Key, Json>, f: Field)
  {
    Get(a, Known(f)) == Get(b, Known(f))
  }

  // The cross-checks between the envelopes that were resolved.
  function Link(
    admission: Option<map<Key, Json>>, outcome: Option<map<Key, Json>>, callId: string,
    parent: Option<string>): Composition
  {
    if outcome.Some? && admission.None? then Unlinked(AssociationMismatch)
    else if admission.Some? && Get(admission.value, Known(LogicalCallId)) != Str(callId) then
        Unlinked(AssociationMismatch)
    else if outcome.Some? && Get(outcome.value, Known(LogicalCallId)) != Str(callId) then Unlinked(AssociationMismatch)
    else if parent.Some? && admission.Some? && Get(admission.value, Known(ParentReceiptRef)) != Str(parent.value) then
      Unlinked(AssociationMismatch)
    else if admission.Some? && outcome.Some? then
      if Get(outcome.value, Known(AdmissionReceiptRef)) != Get(admission.value, Known(ReceiptId)) then
          Unlinked(AssociationMismatch)
      else if SameMember(admission.value, outcome.value, RuntimeInstanceId)
              && SameMember(admission.value, outcome.value, BoundaryId)
              && SameMember(admission.value, outcome.value, ActorRef)
              && SameMember(admission.value, outcome.value, TenantId) then Composed(admission, outcome)
      else Unlinked(AssociationMismatch)
    else Composed(admission, outcome)
  }

  // The handle of a kind, resolved, if there is one.
  function ResolvedOne(
    platform: Platform, handles: seq<ReceiptHandle>, config: AccessConfig, context: AccessContext): Option<Resolution>
  {
    if |handles| == 0 then None else Some(ResolveReceipt(platform, handles[0], config, context))
  }

  function EnvelopeOf(r: Option<Resolution>): Option<map<Key, Json>>
  {
    if r.Some? && r.value.Verified? then Some(r.value.envelope) else None
  }

  // The admission's failure comes first, then the outcome's.
  function LinkResolved(
    admission: Option<Resolution>, outcome: Option<Resolution>, callId: string, parent: Option<string>): Composition
  {
    if admission.Some? && admission.value.Raised? then CompositionRaised
    else if admission.Some? && admission.value.Diagnosed? then Unlinked(admission.value.code)
    else if outcome.Some? && outcome.value.Raised? then CompositionRaised
    else if outcome.Some? && outcome.value.Diagnosed? then Unlinked(outcome.value.code)
    else Link(EnvelopeOf(admission), EnvelopeOf(outcome), callId, parent)
  }

  // Composing the handles of each kind.
  function ComposeKinds(
    platform: Platform, admissions: seq<ReceiptHandle>, outcomes: seq<ReceiptHandle>, config: AccessConfig,
    context: AccessContext, callId: string, parent: Option<string>): Composition
  {
    if |admissions| > 1 || |outcomes| > 1 then Unlinked(FamilyMismatch)
    else
      LinkResolved(ResolvedOne(platform, admissions, config, context), ResolvedOne(platform, outcomes, config, context),
                   callId, parent)
  }

  /** compose_receipts */
  function ComposeReceipts(
    platform: Platform, handles: seq<ReceiptHandle>, config: AccessConfig, context: AccessContext,
    callId: string, parent: Option<string>): Composition
  {
    if Blank(callId) then CompositionRaised
    else ComposeKinds(platform, OfKind(handles, AdmissionKind), OfKind(handles, OutcomeKind), config, context, callId,
                      parent)
  }

  /** access_governed_call_receipts: the gateway leaves the parent of a response
      unset, so none is expected. */
  function AccessGovernedCallReceipts(
    platform: Platform, response: GovernedCallResponse, config: AccessConfig, context: AccessContext): Composition
  {
    ComposeReceipts(platform, response.receipts, config, context, response.logicalCallId, None)
  }

  // ---- What composing keeps ------------------------------------------------

  lemma {:induction false} OfKindCounts(handles: seq<ReceiptHandle>, kind: ReceiptKindName, h: ReceiptHandle)
    ensures multiset(OfKind(handles, kind))[h] == if h.kind == kind then multiset(handles)[h] else 0
  {
    if |handles| > 0 {
      OfKindCounts(handles[1..], kind, h);
      assert handles == [handles[0]] + handles[1..];
    }
  }

  lemma OfKindPermuted(handles: seq<ReceiptHandle>, permuted: seq<ReceiptHandle>, kind: ReceiptKindName)
    requires multiset(handles) == multiset(permuted)
    ensures |OfKind(handles, kind)| == |OfKind(permuted, kind)|
    ensures |OfKind(handles, kind)| == 1 ==> OfKind(handles, kind) == OfKind(permuted, kind)
  {
    var a, b := OfKind(handles, kind), OfKind(permuted, kind);
    forall h ensures multiset(a)[h] == multiset(b)[h] {
      OfKindCounts(handles, kind, h);
      OfKindCounts(permuted, kind, h);
    }
    assert multiset(a) == multiset(b);
    assert |a| == |multiset(a)| && |b| == |multiset(b)|;
    if |a| == 1 {
      assert a[0] in multiset(b);
      assert b == [b[0]];
    }
  }

  /** Composition does not depend on the order of the handles. */
  lemma ComposeIsOrderFree(
    platform: Platform, handles: seq<ReceiptHandle>, permuted: seq<ReceiptHandle>, config: AccessConfig,
    context: AccessContext, callId: string, parent: Option<string>)
    requires multiset(handles) == multiset(permuted)
    ensures ComposeReceipts(platform, handles, config, context, callId, parent) ==
            ComposeReceipts(platform, permuted, config, context, callId, parent)
  {
    OfKindPermuted(handles, permuted, AdmissionKind);
    OfKindPermuted(handles, permuted, OutcomeKind);
    TooManyOrSame(platform, OfKind(handles, AdmissionKind), OfKind(permuted, AdmissionKind),
                  OfKind(handles, OutcomeKind), OfKind(permuted, OutcomeKind), config, context, callId, parent);
  }

  lemma TooManyOrSame(
    platform: Platform, a: seq<ReceiptHandle>, b: seq<ReceiptHandle>, o: seq<ReceiptHandle>, p: seq<ReceiptHandle>,
    config: AccessConfig, context: AccessContext, callId: string, parent: Option<string>)
    requires |a| == |b| && |o| == |p| && (|a| == 1 ==> a == b) && (|o| == 1 ==> o == p)
    ensures ComposeKinds(platform, a, o, config, context, callId, parent) ==
            ComposeKinds(platform, b, p, config, context, callId, parent)
  {
    assert |a| == 0 ==> a == b;
    assert |o| == 0 ==> o == p;
  }

  // ---- What is checked, spelled out ----------------------------------------

  predicate HasCommonMembers(m: map<Key, Json>)
  {
    && Known(ReceiptVersion) in m && Known(ProfileId) in m && Known(ProfileVersion) in m && Known(ReceiptId) in m
    && Known(ReceiptType) in m && Known(ReceiptKind) in m && Known(BoundaryType) in m && Known(ProtocolBinding) in m
    && Known(SubjectRef) in m && Known(IssuerId) in m && Known(RuntimeInstanceId) in m && Known(BoundaryId) in m
    && Known(LogicalCallId) in m && Known(IssuedAt) in m && Known(ArtifactClassesCovered) in m
    && Known(ArtifactClassesExcluded) in m && Known(AttestationLimits) in m && Known(RetentionClassApplied) in m
    && Known(Extensions) in m && Known(ReceiptSignature) in m
  }

  predicate HasOwnMembers(m: map<Key, Json>, kind: ReceiptKindName)
  {
    match kind
    case AdmissionKind =>
      && Known(RequestedToolName) in m && Known(ToolResolutionStatus) in m && Known(ArgumentDigest) in m
      && Known(PolicyPackId) in m && Known(PolicyPackVersion) in m && Known(DispositionField) in m
    case OutcomeKind => Known(AdmissionReceiptRef) in m && Known(OutcomeField) in m
  }

  // The member is one of these texts.
  predicate OneOf(m: map<Key, Json>, f: Field, texts: set<string>)
  {
    Get(m, Known(f)).Str? && Get(m, Known(f)).text in texts
  }

  // Everything the profile asks of an envelope but its token.
  predicate Headed(m: map<Key, Json>, kind: ReceiptKindName)
  {
    && HasCommonMembers(m) && HasOwnMembers(m, kind)
    && OneOf(m, ReceiptVersion, {"srs.core.v5.1"}) && OneOf(m, ProfileId, {"srs.mcp.sdk_enforcement"})
    && OneOf(m, ProfileVersion, {"v0.1"}) && OneOf(m, ReceiptType, {"sdk_enforcement"})
    && OneOf(m, BoundaryType, {"mcp_tool_call"}) && OneOf(m, ProtocolBinding, {"mcp"})
    && OneOf(m, ReceiptKind, {if kind == AdmissionKind then "admission" else "outcome"})
  }

  predicate HasKnownToken(m: map<Key, Json>, kind: ReceiptKindName)
  {
    match kind
    case AdmissionKind => OneOf(m, DispositionField, {"admitted", "refused", "deferred_for_review"})
    case OutcomeKind =>
      OneOf(m, OutcomeField, {"result_returned", "error_returned", "exception", "task_submitted", "indeterminate"})
  }

  predicate Block(v: Json)
  {
    && v.Obj?
    && Known(KeyId) in v.members && Known(SignatureValue) in v.members && |v.members| == 4
    && OneOf(v.members, Algorithm, {"Ed25519"}) && OneOf(v.members, Canonicalization, {"RFC8785-JCS"})
  }

  /** The profile on the wire: an envelope of a kind has its members and constants,
      one of the tokens of its kind, and a signature block of four members. */
  predicate OnTheWire(m: map<Key, Json>, kind: ReceiptKindName)
  {
    Headed(m, kind) && HasKnownToken(m, kind) && Block(Get(m, Known(ReceiptSignature)))
  }

  // The same in the reader's terms.
  predicate Profiled(m: map<Key, Json>, kind: ReceiptKindName)
  {
    && HasBase(m) && HasConstants(m) && HasKindFields(m, kind)
    && Get(m, Known(ReceiptKind)) == Str(KindText(kind)) && TokenAnswer(m, kind) == Conforms
    && SignatureSchema(Get(m, Known(ReceiptSignature)))
  }

  lemma BaseIsSpelled(m: map<Key, Json>)
    ensures HasBase(m) <==> HasCommonMembers(m)
  {}

  lemma KindFieldsAreSpelled(m: map<Key, Json>, kind: ReceiptKindName)
    ensures HasKindFields(m, kind) <==> HasOwnMembers(m, kind)
  {}

  lemma ConstantsAreSpelled(m: map<Key, Json>)
    ensures HasConstants(m) <==>
            && OneOf(m, ReceiptVersion, {"srs.core.v5.1"}) && OneOf(m, ProfileId, {"srs.mcp.sdk_enforcement"})
            && OneOf(m, ProfileVersion, {"v0.1"}) && OneOf(m, ReceiptType, {"sdk_enforcement"})
            && OneOf(m, BoundaryType, {"mcp_tool_call"}) && OneOf(m, ProtocolBinding, {"mcp"})
  {
    assert HasConstants(m) ==> forall f: Field | ProfileConstant(f) :: Get(m, Known(f)) == Str(ProfileText(f));
  }

  lemma TokensAreSpelled(text: string)
    ensures KnownDisposition(text) <==> text in {"admitted", "refused", "deferred_for_review"}
    ensures KnownOutcome(text) <==>
            text in {"result_returned", "error_returned", "exception", "task_submitted", "indeterminate"}
  {
    assert DispositionText(AdmittedToken) == "admitted" && DispositionText(RefusedToken) == "refused";
    assert DispositionText(DeferredForReviewToken) == "deferred_for_review";
    assert OutcomeText(ResultReturned) == "result_returned" && OutcomeText(ErrorReturned) == "error_returned";
    assert OutcomeText(ExceptionToken) == "exception" && OutcomeText(TaskSubmittedToken) == "task_submitted";
    assert OutcomeText(Indeterminate) == "indeterminate";
  }

  lemma HeadIsSpelled(m: map<Key, Json>, kind: ReceiptKindName)
    ensures HasBase(m) && HasConstants(m) && HasKindFields(m, kind) && Get(m, Known(ReceiptKind)) == Str(KindText(kind))
            <==> Headed(m, kind)
  {
    BaseIsSpelled(m);
    KindFieldsAreSpelled(m, kind);
    ConstantsAreSpelled(m);
  }

  lemma BlockIsSpelled(v: Json)
    ensures SignatureSchema(v) <==> Block(v)
  {
    if v.Obj? {
      FourMembers(v.members);
    }
  }

  lemma FourMembers(members: map<Key, Json>)
    ensures members.Keys == SIGNATURE_MEMBERS <==>
            && Known(Algorithm) in members && Known(Canonicalization) in members && Known(KeyId) in members
            && Known(SignatureValue) in members && |members| == 4
  {
    assert |SIGNATURE_MEMBERS| == 4 && |members.Keys| == |members|;
    if SIGNATURE_MEMBERS <= members.Keys && |members| == 4 {
      SubsetOfSameSize(SIGNATURE_MEMBERS, members.Keys);
    }
  }

  lemma SubsetOfSameSize(a: set<Key>, b: set<Key>)
    requires a <= b && |a| == |b|
    ensures a == b
  {
    assert |b - a| == |b| - |a|;
  }

  // The token of a kind, looked up.
  function TokenAnswer(m: map<Key, Json>, kind: ReceiptKindName): SchemaAnswer
  {
    var token := Get(m, Known(TokenField(kind)));
    Membership(token, token.Str? && if kind == AdmissionKind then KnownDisposition(token.text)
                                    else KnownOutcome(token.text))
  }

  lemma TokenIsSpelled(m: map<Key, Json>, kind: ReceiptKindName)
    ensures TokenAnswer(m, kind) == Conforms <==> HasKnownToken(m, kind)
    ensures TokenAnswer(m, kind) == SchemaRaises <==> Unhashable(Get(m, Known(TokenField(kind))))
  {
    if Get(m, Known(TokenField(kind))).Str? {
      TokensAreSpelled(Get(m, Known(TokenField(kind))).text);
    }
  }

  lemma SchemaUnfolds(m: map<Key, Json>, kind: ReceiptKindName)
    requires Get(m, Known(ReceiptKind)) == Str(KindText(kind))
    ensures Schema(m) ==
            if !(HasBase(m) && HasConstants(m) && HasKindFields(m, kind)) then Fails
            else if TokenAnswer(m, kind) != Conforms then TokenAnswer(m, kind)
            else if SignatureSchema(m[Known(ReceiptSignature)]) then Conforms else Fails
  {
    KindsDiffer();
    assert HasBase(m) ==> RequiredBase(ReceiptSignature) && Known(ReceiptSignature) in m;
  }

  /** The profile is what the wire format says, member by member and text by text. */
  lemma ProfileIsSpelled(m: map<Key, Json>, kind: ReceiptKindName)
    ensures Profiled(m, kind) <==> OnTheWire(m, kind)
  {
    HeadIsSpelled(m, kind);
    TokenIsSpelled(m, kind);
    BlockIsSpelled(Get(m, Known(ReceiptSignature)));
  }

  lemma SchemaOfKind(m: map<Key, Json>, kind: ReceiptKindName)
    requires Get(m, Known(ReceiptKind)) == Str(KindText(kind))
    ensures Schema(m) == Conforms <==> Profiled(m, kind)
    ensures Schema(m) == SchemaRaises <==> TokenUnhashable(m, kind)
  {
    SchemaUnfolds(m, kind);
    assert HasBase(m) ==> RequiredBase(ReceiptSignature) && Known(ReceiptSignature) in m;
  }

  /** The reader's profile check accepts exactly the profile of either kind, and
      raises exactly on a token it cannot look up. */
  lemma SchemaIsProfile(m: map<Key, Json>)
    ensures Schema(m) == Conforms <==> Profiled(m, AdmissionKind) || Profiled(m, OutcomeKind)
    ensures Schema(m) == SchemaRaises <==> TokenUnhashable(m, AdmissionKind) || TokenUnhashable(m, OutcomeKind)
  {
    KindsDiffer();
    if Get(m, Known(ReceiptKind)) == Str(KindText(AdmissionKind)) {
      SchemaOfKind(m, AdmissionKind);
    } else if Get(m, Known(ReceiptKind)) == Str(KindText(OutcomeKind)) {
      SchemaOfKind(m, OutcomeKind);
    }
  }

  // Entry i is the only one of the bundle with this key identifier.
  predicate OnlyEntry(trust: seq<TrustEntry>, i: int, keyId: Json)
  {
    && 0 <= i < |trust| && Str(trust[i].keyId) == keyId
    && forall j | 0 <= j < |trust| && j != i :: Str(trust[j].keyId) != keyId
  }

  // The key of the entry verifies the signature over the rest of the envelope.
  ghost predicate SignedWith(platform: Platform, m: map<Key, Json>, block: map<Key, Json>, entry: TrustEntry)
  {
    exists publicKey, text, bytes ::
      && B64UrlDecode(entry.publicKey) == Some(publicKey) && |publicKey| == 32
      && Get(block, Known(SignatureValue)) == Str(text) && B64UrlDecode(text) == Some(bytes) && |bytes| == 64
      && platform.verify(publicKey, bytes, Obj(m[Known(ReceiptSignature) := Obj(block - {Known(SignatureValue)})]))
  }

  // The entry is trusted, names the envelope's issuer, holds a key that verifies
  // it, and was valid when it was issued.
  ghost predicate EntrySigns(platform: Platform, m: map<Key, Json>, entry: TrustEntry)
  {
    && Get(m, Known(ReceiptSignature)).Obj?
    && entry.trusted && Get(m, Known(IssuerId)) == Str(entry.issuerId)
    && SignedWith(platform, m, m[Known(ReceiptSignature)].members, entry)
    && Dated(platform, Get(m, Known(IssuedAt)), entry.notBefore, entry.notAfter)
  }

  /** The envelope is signed under the bundle: exactly one entry has its key
      identifier, and that one stands for it. */
  ghost predicate SignedUnder(platform: Platform, m: map<Key, Json>, trust: seq<TrustEntry>)
  {
    && Get(m, Known(ReceiptSignature)).Obj?
    && exists i :: OnlyEntry(trust, i, Get(m[Known(ReceiptSignature)].members, Known(KeyId)))
                   && EntrySigns(platform, m, trust[i])
  }

  // The three time stamps can be read, and stand in this order.
  ghost predicate Dated(platform: Platform, issuedAt: Json, notBefore: string, notAfter: string)
  {
    exists first, issued, last ::
      && platform.parseTime(notBefore) == Some(first) && platform.parseTime(notAfter) == Some(last)
      && platform.parseTime(platform.textOf(issuedAt)) == Some(issued) && first <= issued <= last
  }

  lemma {:induction false} NoEntries(trust: seq<TrustEntry>, keyId: Json)
    ensures Entries(trust, keyId) == [] <==> forall j | 0 <= j < |trust| :: Str(trust[j].keyId) != keyId
  {
    if |trust| > 0 {
      NoEntries(trust[1..], keyId);
      assert forall j | 0 < j < |trust| :: trust[j] == trust[1..][j - 1];
    }
  }

  lemma {:induction false} EntriesFind(trust: seq<TrustEntry>, keyId: Json, i: nat)
    requires OnlyEntry(trust, i, keyId)
    ensures Entries(trust, keyId) == [trust[i]]
  {
    if i == 0 {
      NoEntries(trust[1..], keyId);
      assert forall j | 0 < j < |trust| :: trust[j] == trust[1..][j - 1];
    } else {
      assert Str(trust[0].keyId) != keyId;
      assert forall j | 0 < j < |trust| :: trust[j] == trust[1..][j - 1];
      EntriesFind(trust[1..], keyId, i - 1);
    }
  }

  lemma {:induction false} OneEntryIsOnly(trust: seq<TrustEntry>, keyId: Json) returns (i: nat)
    requires |Entries(trust, keyId)| == 1
    ensures OnlyEntry(trust, i, keyId) && Entries(trust, keyId) == [trust[i]]
  {
    if Str(trust[0].keyId) == keyId {
      i := 0;
      NoEntries(trust[1..], keyId);
      assert forall j | 0 < j < |trust| :: trust[j] == trust[1..][j - 1];
    } else {
      i := OneEntryIsOnly(trust[1..], keyId);
      assert forall j | 0 < j < |trust| :: trust[j] == trust[1..][j - 1];
      i := i + 1;
    }
  }

  lemma WindowIsDated(platform: Platform, issuedAt: Json, entry: TrustEntry)
    ensures InWindow(platform, issuedAt, entry) <==> Dated(platform, issuedAt, entry.notBefore, entry.notAfter)
  {}

  lemma EntryIsSpelled(platform: Platform, m: map<Key, Json>, entry: TrustEntry)
    requires HasSignature(m)
    ensures EntryVouches(platform, m, entry) <==> EntrySigns(platform, m, entry)
  {
    WindowIsDated(platform, m[Known(IssuedAt)], entry);
    var signature := m[Known(ReceiptSignature)].members;
    if EntryVouches(platform, m, entry) {
      var publicKey, bytes := B64UrlDecode(entry.publicKey), DecodedText(signature[Known(SignatureValue)]);
      assert B64UrlDecode(entry.publicKey) == Some(publicKey.value)
             && B64UrlDecode(signature[Known(SignatureValue)].text) == Some(bytes.value);
    }
  }

  lemma SignatureIsSpelled(platform: Platform, m: map<Key, Json>, trust: seq<TrustEntry>)
    requires HasSignature(m)
    ensures SignatureValid(platform, m, trust) <==> SignedUnder(platform, m, trust)
  {
    var keyId := m[Known(ReceiptSignature)].members[Known(KeyId)];
    if SignatureValid(platform, m, trust) {
      var i := OneEntryIsOnly(trust, keyId);
      EntryIsSpelled(platform, m, trust[i]);
    }
    if SignedUnder(platform, m, trust) {
      var i :| OnlyEntry(trust, i, keyId) && EntrySigns(platform, m, trust[i]);
      EntriesFind(trust, keyId, i);
      EntryIsSpelled(platform, m, trust[i]);
    }
  }

  /** What a verified envelope vouches for: it has the profile of the handle's
      kind, no raw content, a signature under the bundle, and the identifier. */
  ghost predicate Vouched(platform: Platform, m: map<Key, Json>, handle: ReceiptHandle, trust: seq<TrustEntry>)
  {
    && Profiled(m, handle.kind) && RawContentFree(Obj(m)) && SignedUnder(platform, m, trust)
    && Get(m, Known(ReceiptId)) == Str(handle.receiptId)
  }

  // The reader's own checks come to that.
  lemma ChecksVouch(platform: Platform, m: map<Key, Json>, handle: ReceiptHandle, trust: seq<TrustEntry>)
    ensures Vouched(platform, m, handle, trust) <==>
            && Schema(m) == Conforms && HasSignature(m) && SignatureValid(platform, m, trust)
            && RawContentFree(Obj(m))
            && Get(m, Known(ReceiptId)) == Str(handle.receiptId)
            && Get(m, Known(ReceiptKind)) == Str(KindText(handle.kind))
  {
    if Get(m, Known(ReceiptKind)) == Str(KindText(handle.kind)) {
      SchemaOfKind(m, handle.kind);
      if Schema(m) == Conforms {
        ConformingHasSignature(m);
        SignatureIsSpelled(platform, m, trust);
      }
    }
  }

  // What reading an object comes to, before its context is looked at.
  lemma ParsedObject(platform: Platform, m: map<Key, Json>, bytes: seq<Byte>, handle: ReceiptHandle,
                     trust: seq<TrustEntry>)
    requires platform.loads(bytes) == Some(Obj(m))
    ensures VerifyAndParse(platform, bytes, handle, trust) ==
            if TokenUnhashable(m, AdmissionKind) || TokenUnhashable(m, OutcomeKind) then Raised
            else if !(Profiled(m, AdmissionKind) || Profiled(m, OutcomeKind)) || !RawContentFree(Obj(m)) then
              Diagnosed(SchemaFailure)
            else if !SignedUnder(platform, m, trust) then Diagnosed(SignatureFailure)
            else if Get(m, Known(ReceiptId)) != Str(handle.receiptId) then Diagnosed(IdentifierMismatch)
            else if !Profiled(m, handle.kind) then Diagnosed(FamilyMismatch)
            else Verified(m)
  {
    SchemaIsProfile(m);
    if Schema(m) == Conforms {
      ConformingParsed(platform, m, bytes, handle, trust);
    }
  }

  lemma ConformingParsed(platform: Platform, m: map<Key, Json>, bytes: seq<Byte>, handle: ReceiptHandle,
                         trust: seq<TrustEntry>)
    requires platform.loads(bytes) == Some(Obj(m)) && Schema(m) == Conforms
    ensures VerifyAndParse(platform, bytes, handle, trust) ==
            if !RawContentFree(Obj(m)) then Diagnosed(SchemaFailure)
            else if !SignedUnder(platform, m, trust) then Diagnosed(SignatureFailure)
            else if Get(m, Known(ReceiptId)) != Str(handle.receiptId) then Diagnosed(IdentifierMismatch)
            else if !Profiled(m, handle.kind) then Diagnosed(FamilyMismatch)
            else Verified(m)
  {
    ConformingHasSignature(m);
    SignatureIsSpelled(platform, m, trust);
    KindFits(m, handle.kind);
    ParseUnfolds(platform, m, bytes, handle, trust);
  }

  lemma KindFits(m: map<Key, Json>, kind: ReceiptKindName)
    requires Schema(m) == Conforms
    ensures Profiled(m, kind) <==> Get(m, Known(ReceiptKind)) == Str(KindText(kind))
  {
    if Get(m, Known(ReceiptKind)) == Str(KindText(kind)) {
      SchemaOfKind(m, kind);
    }
  }

  lemma ParseUnfolds(platform: Platform, m: map<Key, Json>, bytes: seq<Byte>, handle: ReceiptHandle,
                     trust: seq<TrustEntry>)
    requires platform.loads(bytes) == Some(Obj(m)) && Schema(m) == Conforms && HasSignature(m)
    ensures VerifyAndParse(platform, bytes, handle, trust) ==
            if !RawContentFree(Obj(m)) then Diagnosed(SchemaFailure)
            else if !SignatureValid(platform, m, trust) then Diagnosed(SignatureFailure)
            else if Get(m, Known(ReceiptId)) != Str(handle.receiptId) then Diagnosed(IdentifierMismatch)
            else if Get(m, Known(ReceiptKind)) != Str(KindText(handle.kind)) then Diagnosed(FamilyMismatch)
            else Verified(m)
  {}

  // What the context makes of an envelope that was read.
  lemma ContextDenies(m: map<Key, Json>, context: AccessContext)
    ensures Denies(m, context) <==>
            || Contradicts(m, ActorRef, context.actorRef) || Contradicts(m, TenantId, context.tenantRef)
            || Contradicts(m, LogicalCallId, context.requestRef)
  {}

  lemma ResolveUnfolds(platform: Platform, handle: ReceiptHandle, config: AccessConfig, context: AccessContext)
    ensures ResolveReceipt(platform, handle, config, context) ==
            if !MayRead(config, context) then Diagnosed(AccessUnauthorized)
            else
              match config.provider(handle, context)
              case NotFound => Diagnosed(UnknownHandle)
              case SourceUnavailable => Diagnosed(ReceiptUnavailable)
              case ProviderRaised => Diagnosed(ProviderFailure)
              case Snapshot(bytes) =>
                var r := VerifyAndParse(platform, bytes, handle, config.trust);
                if r.Verified? && Denies(r.envelope, context) then Diagnosed(AssociationMismatch) else r
  {
    match config.provider(handle, context) {
      case Snapshot(bytes) =>
        var r := VerifyAndParse(platform, bytes, handle, config.trust);
        if r.Verified? {
          ContextDenies(r.envelope, context);
        }
      case _ =>
    }
  }

  /** Every diagnostic of resolving is exact. What the caller may not read and
      what the provider does not have comes first; then bytes that are no JSON
      object, an object without the profile or with raw content, one that is not
      signed under the bundle, another identifier, another kind, and last a
      reference that contradicts the context. */
  lemma DiagnosisIsExact(platform: Platform, handle: ReceiptHandle, config: AccessConfig, context: AccessContext)
    ensures ResolveReceipt(platform, handle, config, context) ==
            if !MayRead(config, context) then Diagnosed(AccessUnauthorized)
            else
              match config.provider(handle, context)
              case NotFound => Diagnosed(UnknownHandle)
              case SourceUnavailable => Diagnosed(ReceiptUnavailable)
              case ProviderRaised => Diagnosed(ProviderFailure)
              case Snapshot(bytes) =>
                match platform.loads(bytes)
                case Some(Obj(m)) =>
                  if TokenUnhashable(m, AdmissionKind) || TokenUnhashable(m, OutcomeKind) then Raised
                  else if !(Profiled(m, AdmissionKind) || Profiled(m, OutcomeKind)) || !RawContentFree(Obj(m)) then
                    Diagnosed(SchemaFailure)
                  else if !SignedUnder(platform, m, config.trust) then Diagnosed(SignatureFailure)
                  else if Get(m, Known(ReceiptId)) != Str(handle.receiptId) then Diagnosed(IdentifierMismatch)
                  else if !Profiled(m, handle.kind) then Diagnosed(FamilyMismatch)
                  else if Denies(m, context) then Diagnosed(AssociationMismatch)
                  else Verified(m)
                case _ => Diagnosed(MalformedEnvelope)
  {
    ResolveUnfolds(platform, handle, config, context);
    match config.provider(handle, context) {
      case Snapshot(bytes) =>
        match platform.loads(bytes) {
          case Some(Obj(m)) => ParsedObject(platform, m, bytes, handle, config.trust);
          case _ =>
        }
      case _ =>
    }
  }

  lemma ParsesToVouched(
    platform: Platform, m: map<Key, Json>, bytes: seq<Byte>, handle: ReceiptHandle, trust: seq<TrustEntry>)
    requires platform.loads(bytes) == Some(Obj(m))
    ensures VerifyAndParse(platform, bytes, handle, trust) == Verified(m) <==> Vouched(platform, m, handle, trust)
    ensures VerifyAndParse(platform, bytes, handle, trust).Verified? ==>
              VerifyAndParse(platform, bytes, handle, trust).envelope == m
  {
    ChecksVouch(platform, m, handle, trust);
    if Schema(m) == Conforms {
      ConformingHasSignature(m);
    }
  }

  /** An envelope is handed out exactly when the caller may read it, it is what the
      provider's bytes hold, it vouches for the handle, and the context agrees. */
  lemma VerifiedExactly(
    platform: Platform, handle: ReceiptHandle, config: AccessConfig, context: AccessContext, m: map<Key, Json>)
    ensures ResolveReceipt(platform, handle, config, context) == Verified(m) <==>
            && MayRead(config, context) && StoredObject(platform, handle, config, context) == Some(m)
            && Vouched(platform, m, handle, config.trust) && !Denies(m, context)
  {
    ResolveUnfolds(platform, handle, config, context);
    var stored := StoredObject(platform, handle, config, context);
    if stored.Some? {
      ParsesToVouched(platform, stored.value, config.provider(handle, context).bytes, handle, config.trust);
    }
  }

  // The envelope gives another actor, tenant or call than the context does.
  ghost predicate Denies(m: map<Key, Json>, context: AccessContext)
  {
    || (exists actor :: context.actorRef == Some(actor) && Get(m, Known(ActorRef)) !in {Null, Str(actor)})
    || (exists tenant :: context.tenantRef == Some(tenant) && Get(m, Known(TenantId)) !in {Null, Str(tenant)})
    || (exists call :: context.requestRef == Some(call) && Get(m, Known(LogicalCallId)) !in {Null, Str(call)})
  }

  // An outcome that is linked to the admission it names.
  predicate Linked(admission: map<Key, Json>, outcome: map<Key, Json>)
  {
    && Get(outcome, Known(AdmissionReceiptRef)) == Get(admission, Known(ReceiptId))
    && SameMember(admission, outcome, LogicalCallId)
    && SameMember(admission, outcome, RuntimeInstanceId)
    && SameMember(admission, outcome, BoundaryId)
    && SameMember(admission, outcome, ActorRef)
    && SameMember(admission, outcome, TenantId)
  }

  // What the two envelopes of one call look like, each optional.
  predicate OfOneCall(
    admission: Option<map<Key, Json>>, outcome: Option<map<Key, Json>>, callId: string, parent: Option<string>)
  {
    && (admission.Some? ==> Get(admission.value, Known(LogicalCallId)) == Str(callId))
    && (admission.Some? && parent.Some? ==> Get(admission.value, Known(ParentReceiptRef)) == Str(parent.value))
    && (outcome.Some? ==>
          && Get(outcome.value, Known(LogicalCallId)) == Str(callId)
          && admission.Some? && Linked(admission.value, outcome.value))
  }

  lemma LinkIsExact(
    admission: Option<map<Key, Json>>, outcome: Option<map<Key, Json>>, callId: string, parent: Option<string>)
    ensures Link(admission, outcome, callId, parent) ==
            if OfOneCall(admission, outcome, callId, parent) then Composed(admission, outcome)
            else Unlinked(AssociationMismatch)
  {}

  // Nothing was asked for, or what was asked for was verified.
  predicate AllVerified(handles: seq<ReceiptHandle>, r: Option<Resolution>)
  {
    |handles| <= 1 && (|handles| == 1 ==> r.Some? && r.value.Verified?)
  }

  lemma LinkResolvedIsExact(
    admissions: seq<ReceiptHandle>, outcomes: seq<ReceiptHandle>, a: Option<Resolution>, o: Option<Resolution>,
    callId: string, parent: Option<string>)
    requires |admissions| <= 1 && |outcomes| <= 1
    requires (a.Some? <==> |admissions| == 1) && (o.Some? <==> |outcomes| == 1)
    ensures var c := LinkResolved(a, o, callId, parent);
            && (c.Composed? <==> AllVerified(admissions, a) && AllVerified(outcomes, o)
                                 && OfOneCall(EnvelopeOf(a), EnvelopeOf(o), callId, parent))
            && (c.Composed? ==> c == Composed(EnvelopeOf(a), EnvelopeOf(o)))
  {
    LinkIsExact(EnvelopeOf(a), EnvelopeOf(o), callId, parent);
  }

  /** Composing succeeds exactly when the call is named, there is at most one
      handle of each kind, each is verified, and the envelopes are of that call:
      the admission of the expected parent, the outcome of the admission it names,
      same runtime, boundary, actor and tenant. It gives those very envelopes. */
  lemma ComposesExactly(
    platform: Platform, handles: seq<ReceiptHandle>, config: AccessConfig, context: AccessContext,
    callId: string, parent: Option<string>)
    ensures var admissions, outcomes := OfKind(handles, AdmissionKind), OfKind(handles, OutcomeKind);
            var a := ResolvedOne(platform, admissions, config, context);
            var o := ResolvedOne(platform, outcomes, config, context);
            var c := ComposeReceipts(platform, handles, config, context, callId, parent);
            && (c.Composed? <==> !Blank(callId) && AllVerified(admissions, a) && AllVerified(outcomes, o)
                                 && OfOneCall(EnvelopeOf(a), EnvelopeOf(o), callId, parent))
            && (c.Composed? ==> c == Composed(EnvelopeOf(a), EnvelopeOf(o)))
  {
    var admissions, outcomes := OfKind(handles, AdmissionKind), OfKind(handles, OutcomeKind);
    if |admissions| <= 1 && |outcomes| <= 1 {
      LinkResolvedIsExact(admissions, outcomes, ResolvedOne(platform, admissions, config, context),
                          ResolvedOne(platform, outcomes, config, context), callId, parent);
    }
  }

  ghost predicate VouchedByOne(
    platform: Platform, m: map<Key, Json>, handles: seq<ReceiptHandle>, kind: ReceiptKindName, trust: seq<TrustEntry>)
  {
    exists i | 0 <= i < |handles| :: handles[i].kind == kind && Vouched(platform, m, handles[i], trust)
  }

  // The envelope that handles of one kind resolve to.
  lemma ResolvedOfKind(
    platform: Platform, handles: seq<ReceiptHandle>, kind: ReceiptKindName, config: AccessConfig,
    context: AccessContext)
    ensures var r := EnvelopeOf(ResolvedOne(platform, OfKind(handles, kind), config, context));
            r.Some? ==> VouchedByOne(platform, r.value, handles, kind, config.trust)
  {
    OfKindBelongs(handles, kind);
    if |OfKind(handles, kind)| > 0 {
      var h := OfKind(handles, kind)[0];
      var i :| 0 <= i < |handles| && handles[i] == h;
      if ResolveReceipt(platform, h, config, context).Verified? {
        VerifiedIsVouched(platform, handles[i], config, context);
      }
    }
  }

  /** A composition without a diagnostic never holds an outcome whose custody is
      unproven: both envelopes are of the call and the parent that were asked for,
      an outcome comes with the admission it names, of the same runtime, boundary,
      actor and tenant, and each is signed under the bundle, as its own handle
      asks. */
  lemma ComposeIsSound(
    platform: Platform, handles: seq<ReceiptHandle>, config: AccessConfig, context: AccessContext,
    callId: string, parent: Option<string>)
    requires ComposeReceipts(platform, handles, config, context, callId, parent).Composed?
    ensures var c := ComposeReceipts(platform, handles, config, context, callId, parent);
            && (c.admission.Some? ==> VouchedByOne(platform, c.admission.value, handles, AdmissionKind, config.trust))
            && (c.outcome.Some? ==> VouchedByOne(platform, c.outcome.value, handles, OutcomeKind, config.trust))
            && OfOneCall(c.admission, c.outcome, callId, parent)
  {
    ComposesExactly(platform, handles, config, context, callId, parent);
    ResolvedOfKind(platform, handles, AdmissionKind, config, context);
    ResolvedOfKind(platform, handles, OutcomeKind, config, context);
  }

  lemma {:induction false} OfKindBelongs(handles: seq<ReceiptHandle>, kind: ReceiptKindName)
    ensures forall i | 0 <= i < |OfKind(handles, kind)| ::
              OfKind(handles, kind)[i] in handles && OfKind(handles, kind)[i].kind == kind
  {
    if |handles| > 0 {
      OfKindBelongs(handles[1..], kind);
    }
  }

  lemma VerifiedIsVouched(platform: Platform, handle: ReceiptHandle, config: AccessConfig, context: AccessContext)
    requires ResolveReceipt(platform, handle, config, context).Verified?
    ensures Vouched(platform, ResolveReceipt(platform, handle, config, context).envelope, handle, config.trust)
  {
    VerifiedExactly(platform, handle, config, context, ResolveReceipt(platform, handle, config, context).envelope);
  }

  lemma ReplacedKeeps(m: map<Key, Json>, v: Json)
    requires HasBase(m) && HasConstants(m) && HasKindFields(m, AdmissionKind)
    ensures var changed := m[Known(DispositionField) := v];
            HasBase(changed) && HasConstants(changed) && HasKindFields(changed, AdmissionKind)
  {
    var changed := m[Known(DispositionField) := v];
    forall f: Field | ProfileConstant(f) ensures Get(changed, Known(f)) == Str(ProfileText(f)) {
      assert Get(m, Known(f)) == Str(ProfileText(f));
    }
  }

  lemma AdmissionSchema(m: map<Key, Json>)
    requires HasBase(m) && HasConstants(m) && HasKindFields(m, AdmissionKind)
    requires Get(m, Known(ReceiptKind)) == Str(KindText(AdmissionKind))
             && SignatureSchema(Get(m, Known(ReceiptSignature)))
    ensures var disposition := Get(m, Known(DispositionField));
            Schema(m) == Membership(disposition, disposition.Str? && KnownDisposition(disposition.text))
  {
    assert RequiredBase(ReceiptSignature);
  }

  /** Replacing the disposition of a conforming admission: the profile check
      fails on any unknown text, and raises exactly on an array or an object,
      which no frozenset can look up. */
  lemma DispositionDecides(m: map<Key, Json>, v: Json)
    requires Schema(m) == Conforms && Get(m, Known(ReceiptKind)) == Str(KindText(AdmissionKind))
    ensures Schema(m[Known(DispositionField) := v]) ==
            if v.Arr? || v.Obj? then SchemaRaises
            else if v.Str? && KnownDisposition(v.text) then Conforms else Fails
  {
    ReplacedKeeps(m, v);
    AdmissionSchema(m[Known(DispositionField) := v]);
  }

  // ---- When reading raises -------------------------------------------------

  lemma KindsDiffer()
    ensures KindText(AdmissionKind) != KindText(OutcomeKind)
  {
    assert KindText(AdmissionKind)[0] == 'a' && KindText(OutcomeKind)[0] == 'o';
  }

  // The caller's context is enough for the configuration.
  predicate MayRead(config: AccessConfig, context: AccessContext)
  {
    (config.requireActor ==> context.actorRef.Some?) && (config.requireTenant ==> context.tenantRef.Some?)
  }

  // The members of the object that the provider's bytes hold, if they do.
  function StoredObject(
    platform: Platform, handle: ReceiptHandle, config: AccessConfig, context: AccessContext): Option<map<Key, Json>>
  {
    match config.provider(handle, context)
    case Snapshot(bytes) => (match platform.loads(bytes) case Some(Obj(m)) => Some(m) case _ => None)
    case _ => None
  }

  predicate Unhashable(v: Json)
  {
    v.Arr? || v.Obj?
  }

  // The member whose value is looked up among the tokens of a kind.
  function TokenField(kind: ReceiptKindName): Field
  {
    if kind.AdmissionKind? then DispositionField else OutcomeField
  }

  // An envelope of this kind, complete but for its token, which is an array or
  // an object.
  predicate TokenUnhashable(m: map<Key, Json>, kind: ReceiptKindName)
  {
    && HasBase(m) && HasConstants(m) && HasKindFields(m, kind)
    && Get(m, Known(ReceiptKind)) == Str(KindText(kind)) && Unhashable(Get(m, Known(TokenField(kind))))
  }

  /** The reader promises a verified envelope or a diagnostic. It raises a
      TypeError instead exactly when it is allowed to read, and reads an object
      that passes the first checks of the profile, of an admission whose
      disposition, or of an outcome whose outcome, is an array or an object;
      whatever its signature, identifiers and other members are. */
  lemma ReadingRaisesExactly(platform: Platform, handle: ReceiptHandle, config: AccessConfig, context: AccessContext)
    ensures ResolveReceipt(platform, handle, config, context) == Raised <==>
            && MayRead(config, context)
            && var m := StoredObject(platform, handle, config, context);
               m.Some? && (TokenUnhashable(m.value, AdmissionKind) || TokenUnhashable(m.value, OutcomeKind))
  {
    KindsDiffer();
  }

  // A file of either kind whose token is an empty list; beside the constants of
  // the profile and the kind it says nothing, its signature included.
  function ListMember(kind: ReceiptKindName, f: Field): Json
  {
    if ProfileConstant(f) then Str(ProfileText(f))
    else if f == ReceiptKind then Str(KindText(kind))
    else if f == TokenField(kind) then Arr([])
    else Null
  }

  function ListToken(kind: ReceiptKindName): map<Key, Json>
  {
    map f: Field | true :: Known(f) := ListMember(kind, f)
  }

  lemma ListTokenUnhashable(kind: ReceiptKindName)
    ensures TokenUnhashable(ListToken(kind), kind)
  {
    var m := ListToken(kind);
    assert forall f: Field :: Known(f) in m && m[Known(f)] == ListMember(kind, f);
  }
}
