/** Across emitting, storing, resolving and composing: a lossy store never
    hands out another receipt's envelope, and what a governed call wrote comes
    back exactly. */
module RoundTrip {
  import opened Prelude
  import opened JsonTrees
  import opened Base64Url
  import opened Receipts
  import opened GatewayAdapter
  import opened ReceiptStore
  import opened ReceiptAccess

  // The filesystem source over a directory, as a provider.
  function DiskProvider(files: map<string, FileEntry>): (ReceiptHandle, AccessContext) -> ProviderAnswer
  {
    (handle: ReceiptHandle, context: AccessContext) =>
      match Fetched(files, handle.receiptId) case Some(bytes) => Snapshot(bytes) case None => NotFound
  }

  predicate ContextFits(m: map<Key, Json>, config: AccessConfig, context: AccessContext)
  {
    && (config.requireActor ==> context.actorRef.Some?) && (config.requireTenant ==> context.tenantRef.Some?)
    && !Contradicts(m, ActorRef, context.actorRef) && !Contradicts(m, TenantId, context.tenantRef)
    && !Contradicts(m, LogicalCallId, context.requestRef)
  }

  /** Over any history of writes, a handle resolves to an envelope exactly when
      that envelope is the last write into the file of its identifier, vouches
      for the handle, and fits the context. */
  lemma ResolvesExactly(
    platform: Platform, history: seq<WriteAttempt>, handle: ReceiptHandle, config: AccessConfig, context: AccessContext,
    m: map<Key, Json>)
    requires IdealJson(platform) && config.provider == DiskProvider(Disk(platform, history))
    ensures ResolveReceipt(platform, handle, config, context) == Verified(m) <==>
              && LastInFile(platform, history, handle.receiptId) == Some(m)
              && Vouched(platform, m, handle, config.trust) && ContextFits(m, config, context)
  {
    VerifiedExactly(platform, handle, config, context, m);
    ContextDenies(m, context);
    DiskHoldsLast(platform, history, handle.receiptId);
    LastInFileIsLastWithId(platform, history, handle.receiptId);
  }

  /** The lossy store is safe: even when identifiers share a file, resolving a
      handle gives the last-written envelope of that very identifier, or no
      envelope at all. */
  lemma LossyStoreIsSafe(
    platform: Platform, history: seq<WriteAttempt>, handle: ReceiptHandle, config: AccessConfig, context: AccessContext)
    requires IdealJson(platform) && config.provider == DiskProvider(Disk(platform, history))
    requires ResolveReceipt(platform, handle, config, context).Verified?
    ensures LastWithId(platform, history, handle.receiptId) ==
            Some(ResolveReceipt(platform, handle, config, context).envelope)
  {
    var m := ResolveReceipt(platform, handle, config, context).envelope;
    ResolvesExactly(platform, history, handle, config, context, m);
    LastInFileIsLastWithId(platform, history, handle.receiptId);
  }

  // ---- One emitted envelope ------------------------------------------------

  // Ed25519 as an ideal scheme: what is signed verifies (section 5.1 of RFC 8032).
  ghost predicate IdealSignature(platform: Platform, identity: SigningIdentity)
  {
    && |identity.publicKey| == 32
    && forall v :: |identity.sign(v)| == 64 && platform.verify(identity.publicKey, identity.sign(v), v)
  }

  // And nothing else does.
  ghost predicate Unforgeable(platform: Platform, identity: SigningIdentity)
  {
    && |identity.publicKey| == 32
    && forall bytes, v :: platform.verify(identity.publicKey, bytes, v) ==> bytes == identity.sign(v)
  }

  // SigningIdentity.trust_bundle
  function TrustBundle(identity: SigningIdentity): seq<TrustEntry>
  {
    [TrustEntry(identity.issuerId, identity.keyId, B64UrlEncode(identity.publicKey), identity.notBefore,
                identity.notAfter, true)]
  }

  predicate IssuedInWindow(platform: Platform, identity: SigningIdentity, issuedAt: string)
  {
    InWindow(platform, Str(issuedAt), TrustBundle(identity)[0])
  }

  lemma BlockWithoutSignature(keyId: string, signature: string)
    ensures SignatureBlock(keyId, Some(signature)) - {Known(SignatureValue)} == SignatureBlock(keyId, None)
    ensures SignatureSchema(Obj(SignatureBlock(keyId, Some(signature))))
    ensures var block := SignatureBlock(keyId, Some(signature));
            block[Known(KeyId)] == Str(keyId) && block[Known(SignatureValue)] == Str(signature)
  {
    var block := SignatureBlock(keyId, Some(signature));
    assert block.Keys == SIGNATURE_MEMBERS;
  }

  // The object read back is the one that was signed, whatever its members.
  lemma PreimageRestored(members: map<Key, Json>, keyId: string, signature: string)
    ensures var m := WithBlock(members, keyId, Some(signature));
            && Known(ReceiptSignature) in m && m[Known(ReceiptSignature)] == Obj(SignatureBlock(keyId, Some(signature)))
            && Preimage(m, SignatureBlock(keyId, Some(signature))) == Obj(WithBlock(members, keyId, None))
  {
    BlockWithoutSignature(keyId, signature);
    var m := WithBlock(members, keyId, Some(signature));
    var bare := Obj(SignatureBlock(keyId, None));
    assert m[Known(ReceiptSignature) := bare] == members[Known(ReceiptSignature) := bare];
  }

  // ---- The profile check ---------------------------------------------------

  predicate HasBaseUnsigned(members: map<Key, Json>)
  {
    forall f: Field :: RequiredBase(f) && f != ReceiptSignature ==> Known(f) in members
  }

  predicate HasKind(members: map<Key, Json>, kind: ReceiptKindName)
  {
    Get(members, Known(ReceiptKind)) == Str(KindText(kind))
  }

  predicate HasToken(members: map<Key, Json>, kind: ReceiptKindName)
  {
    match kind
    case AdmissionKind => exists d :: Get(members, Known(DispositionField)) == Str(DispositionText(d))
    case OutcomeKind => exists o :: Get(members, Known(OutcomeField)) == Str(OutcomeText(o))
  }

  // The members the reader's profile check looks at, before signing.
  predicate FitsProfile(members: map<Key, Json>, kind: ReceiptKindName)
  {
    && HasBaseUnsigned(members) && HasKindFields(members, kind) && HasConstants(members)
    && HasKind(members, kind) && HasToken(members, kind)
  }

  lemma GetRendered(e: Envelope, f: Field)
    ensures Get(Render(e), Known(f)) == if MemberOf(e, f).Some? then MemberOf(e, f).value else Null
  {
    RenderedMember(e, f);
  }

  lemma BaseIsRendered(e: Envelope)
    ensures HasBaseUnsigned(Render(e))
  {
    forall f: Field | RequiredBase(f) && f != ReceiptSignature ensures Known(f) in Render(e) {
      RenderedMember(e, f);
    }
  }

  lemma KindFieldsAreRendered(e: Envelope)
    ensures HasKindFields(Render(e), KindOf(e))
  {
    forall f: Field | RequiredOf(KindOf(e), f) ensures Known(f) in Render(e) {
      RenderedMember(e, f);
    }
  }

  lemma ConstantsAreRendered(e: Envelope)
    ensures HasConstants(Render(e))
  {
    forall f: Field | ProfileConstant(f) ensures Get(Render(e), Known(f)) == Str(ProfileText(f)) {
      GetRendered(e, f);
    }
  }

  lemma TokenIsRendered(e: Envelope)
    ensures HasToken(Render(e), KindOf(e))
  {
    GetRendered(e, DispositionField);
    GetRendered(e, OutcomeField);
  }

  lemma RenderedFitsProfile(e: Envelope)
    ensures FitsProfile(Render(e), KindOf(e))
  {
    BaseIsRendered(e);
    KindFieldsAreRendered(e);
    ConstantsAreRendered(e);
    TokenIsRendered(e);
    GetRendered(e, ReceiptKind);
  }

  // Signing adds one member and keeps every other.
  predicate SameButSignature(members: map<Key, Json>, m: map<Key, Json>)
  {
    && (forall f: Field :: f != ReceiptSignature ==> Get(m, Known(f)) == Get(members, Known(f)))
    && (forall f: Field :: Known(f) in members ==> Known(f) in m)
    && Known(ReceiptSignature) in m
  }

  lemma BaseSurvives(members: map<Key, Json>, m: map<Key, Json>)
    requires SameButSignature(members, m) && HasBaseUnsigned(members)
    ensures HasBase(m)
  {}

  lemma KindFieldsSurvive(members: map<Key, Json>, m: map<Key, Json>, kind: ReceiptKindName)
    requires SameButSignature(members, m) && HasKindFields(members, kind)
    ensures HasKindFields(m, kind)
  {}

  lemma ConstantsSurvive(members: map<Key, Json>, m: map<Key, Json>)
    requires SameButSignature(members, m) && HasConstants(members)
    ensures HasConstants(m)
  {
    forall f: Field | ProfileConstant(f) ensures Get(m, Known(f)) == Str(ProfileText(f)) {
      assert Get(members, Known(f)) == Str(ProfileText(f));
    }
  }

  lemma KindSurvives(members: map<Key, Json>, m: map<Key, Json>, kind: ReceiptKindName)
    requires SameButSignature(members, m) && HasKindFields(m, kind) && HasKind(members, kind) && HasToken(members, kind)
    ensures KindSchema(m) == Conforms
  {
    KindsDiffer();
    assert Get(m, Known(ReceiptKind)) == Get(members, Known(ReceiptKind));
    if kind == AdmissionKind {
      var d :| Get(members, Known(DispositionField)) == Str(DispositionText(d));
      assert Get(m, Known(DispositionField)) == Str(DispositionText(d));
      assert KnownDisposition(DispositionText(d));
    } else {
      var o :| Get(members, Known(OutcomeField)) == Str(OutcomeText(o));
      assert Get(m, Known(OutcomeField)) == Str(OutcomeText(o));
      assert KnownOutcome(OutcomeText(o));
    }
  }

  lemma SignatureSurvives(members: map<Key, Json>, keyId: string, signature: string)
    ensures var m := WithBlock(members, keyId, Some(signature));
            SameButSignature(members, m) && SignatureSchema(m[Known(ReceiptSignature)])
  {
    BlockWithoutSignature(keyId, signature);
  }

  /** What the emitter signs conforms to the reader's profile check. */
  lemma SignedConforms(members: map<Key, Json>, m: map<Key, Json>, kind: ReceiptKindName)
    requires FitsProfile(members, kind)
    requires SameButSignature(members, m) && SignatureSchema(m[Known(ReceiptSignature)])
    ensures Schema(m) == Conforms
  {
    BaseSurvives(members, m);
    KindFieldsSurvive(members, m, kind);
    ConstantsSurvive(members, m);
    KindSurvives(members, m, kind);
  }

  lemma OneEntry(identity: SigningIdentity)
    ensures Entries(TrustBundle(identity), Str(identity.keyId)) == [TrustBundle(identity)[0]]
  {
    assert TrustBundle(identity)[1..] == [];
  }

  lemma KeyAndSignatureDecode(identity: SigningIdentity, signature: seq<Byte>)
    requires |identity.publicKey| == 32 && |signature| == 64
    ensures B64UrlDecode(TrustBundle(identity)[0].publicKey) == Some(identity.publicKey)
    ensures DecodedText(Str(B64UrlEncode(signature))) == Some(signature)
  {
    B64UrlRoundTrip(identity.publicKey);
    B64UrlRoundTrip(signature);
  }

  // The text an identity signs an object with.
  function SignatureText(identity: SigningIdentity, members: map<Key, Json>): string
  {
    B64UrlEncode(identity.sign(Obj(WithBlock(members, identity.keyId, None))))
  }

  lemma ValidWhen(
    platform: Platform, m: map<Key, Json>, trust: seq<TrustEntry>, entry: TrustEntry, publicKey: seq<Byte>,
    bytes: seq<Byte>)
    requires HasSignature(m)
    requires var block := m[Known(ReceiptSignature)].members;
             && Entries(trust, block[Known(KeyId)]) == [entry]
             && DecodedText(block[Known(SignatureValue)]) == Some(bytes)
             && platform.verify(publicKey, bytes, Preimage(m, block))
    requires B64UrlDecode(entry.publicKey) == Some(publicKey) && |publicKey| == 32 && |bytes| == 64
    requires entry.trusted && Get(m, Known(IssuerId)) == Str(entry.issuerId)
             && InWindow(platform, Get(m, Known(IssuedAt)), entry)
    ensures SignatureValid(platform, m, trust)
  {}

  /** The signature text and the public key survive the unpadded base64url
      codec, and the signature verifies over the restored preimage. */
  lemma SignedIsValid(platform: Platform, identity: SigningIdentity, members: map<Key, Json>, m: map<Key, Json>)
    requires IdealSignature(platform, identity) && HasSignature(m)
    requires m == WithBlock(members, identity.keyId, Some(SignatureText(identity, members)))
    requires Get(m, Known(IssuerId)) == Str(identity.issuerId)
    requires InWindow(platform, Get(m, Known(IssuedAt)), TrustBundle(identity)[0])
    ensures SignatureValid(platform, m, TrustBundle(identity))
  {
    var preimage := Obj(WithBlock(members, identity.keyId, None));
    var signature := identity.sign(preimage);
    assert |signature| == 64 && platform.verify(identity.publicKey, signature, preimage);
    KeyAndSignatureDecode(identity, signature);
    PreimageRestored(members, identity.keyId, SignatureText(identity, members));
    BlockWithoutSignature(identity.keyId, SignatureText(identity, members));
    OneEntry(identity);
    ValidWhen(platform, m, TrustBundle(identity), TrustBundle(identity)[0], identity.publicKey, signature);
  }

  // The members that are plain texts, where there is one to write.
  predicate PlainField(f: Field)
  {
    match f
    case IssuerId | IssuedAt | ReceiptId | ReceiptKind | LogicalCallId => true
    case ActorRef | TenantId | AdmissionReceiptRef => true
    case _ => false
  }

  function PlainText(e: Envelope, f: Field): Option<string>
  {
    match f
    case IssuerId => Some(e.issuerId)
    case IssuedAt => Some(e.issuedAt)
    case ReceiptId => Some(e.receiptId)
    case ReceiptKind => Some(KindText(KindOf(e)))
    case LogicalCallId => Some(e.logicalCallId)
    case ActorRef => e.actorRef
    case TenantId => e.tenantId
    case AdmissionReceiptRef => if e.body.OutcomeBody? then Some(e.body.admissionRef) else None
    case _ => None
  }

  lemma PlainMember(e: Envelope, f: Field)
    requires PlainField(f)
    ensures MemberOf(e, f) == TextIf(PlainText(e, f))
  {}

  lemma SignedPlain(identity: SigningIdentity, e: Envelope, f: Field)
    requires PlainField(f)
    ensures Get(SignedForm(identity, e), Known(f)) == if PlainText(e, f).Some? then Str(PlainText(e, f).value) else Null
  {
    PlainMember(e, f);
    RenderedMember(e, f);
  }

  lemma SignedHeader(identity: SigningIdentity, e: Envelope)
    ensures var m := SignedForm(identity, e);
            && Get(m, Known(IssuerId)) == Str(e.issuerId)
            && Get(m, Known(IssuedAt)) == Str(e.issuedAt)
            && Get(m, Known(ReceiptId)) == Str(e.receiptId)
            && Get(m, Known(ReceiptKind)) == Str(KindText(KindOf(e)))
  {
    SignedPlain(identity, e, IssuerId);
    SignedPlain(identity, e, IssuedAt);
    SignedPlain(identity, e, ReceiptId);
    SignedPlain(identity, e, ReceiptKind);
  }

  lemma EmittedConforms(identity: SigningIdentity, e: Envelope)
    ensures Schema(SignedForm(identity, e)) == Conforms
  {
    RenderedFitsProfile(e);
    SignatureSurvives(Render(e), identity.keyId, SignatureText(identity, Render(e)));
    SignedConforms(Render(e), SignedForm(identity, e), KindOf(e));
  }

  // A directory that holds one file.
  function OneFile(platform: Platform, receiptId: string, members: map<Key, Json>): map<string, FileEntry>
  {
    map[FileName(receiptId) := Regular(platform.dumps(Obj(members)))]
  }

  /** Two files at which the reader raises, one of each kind: written out as JSON
      under any identifier, and read through the directory. */
  lemma ReadingRaises(
    platform: Platform, handle: ReceiptHandle, trust: seq<TrustEntry>, context: AccessContext, kind: ReceiptKindName)
    requires IdealJson(platform)
    ensures var config := AccessConfig(DiskProvider(OneFile(platform, handle.receiptId, ListToken(kind))), trust, false,
                                       false);
            ResolveReceipt(platform, handle, config, context) == Resolution.Raised
  {
    var config := AccessConfig(DiskProvider(OneFile(platform, handle.receiptId, ListToken(kind))), trust, false, false);
    ReadingRaisesExactly(platform, handle, config, context);
    ListTokenUnhashable(kind);
  }

  /** An emitted envelope vouches for its own handle under the trust bundle of
      the identity that signed it. */
  lemma EmittedIsVouched(platform: Platform, identity: SigningIdentity, e: Envelope)
    requires IdealSignature(platform, identity) && IdealJson(platform)
    requires !GuardRejects(identity, e) && e.issuerId == identity.issuerId
             && IssuedInWindow(platform, identity, e.issuedAt)
    ensures Vouched(platform, SignedForm(identity, e), ReceiptHandle(e.receiptId, KindOf(e)), TrustBundle(identity))
  {
    EmittedConforms(identity, e);
    GuardIsExact(identity, e);
    SignedHeader(identity, e);
    ConformingHasSignature(SignedForm(identity, e));
    SignedIsValid(platform, identity, Render(e), SignedForm(identity, e));
    ChecksVouch(platform, SignedForm(identity, e), ReceiptHandle(e.receiptId, KindOf(e)), TrustBundle(identity));
  }

  // The text in the envelope's signature block decodes to these bytes.
  predicate CarriesSignature(m: map<Key, Json>, bytes: seq<Byte>)
  {
    && Get(m, Known(ReceiptSignature)).Obj?
    && DecodedText(Get(m[Known(ReceiptSignature)].members, Known(SignatureValue))) == Some(bytes)
  }

  // The envelope without its signature value.
  function Unsigned(m: map<Key, Json>): Json
    requires Get(m, Known(ReceiptSignature)).Obj?
  {
    Obj(m[Known(ReceiptSignature) := Obj(m[Known(ReceiptSignature)].members - {Known(SignatureValue)})])
  }

  /** Nobody but the identity can make an envelope that resolves under its trust
      bundle: a verified one carries the identity's own signature of everything
      else in it, names the identity and its key, and was issued in the window. */
  lemma OnlyTheIdentitySigns(
    platform: Platform, identity: SigningIdentity, handle: ReceiptHandle, config: AccessConfig, context: AccessContext)
    requires Unforgeable(platform, identity) && config.trust == TrustBundle(identity)
    requires ResolveReceipt(platform, handle, config, context).Verified?
    ensures var m := ResolveReceipt(platform, handle, config, context).envelope;
            && Get(m, Known(ReceiptSignature)).Obj? && CarriesSignature(m, identity.sign(Unsigned(m)))
            && Get(m[Known(ReceiptSignature)].members, Known(KeyId)) == Str(identity.keyId)
            && Get(m, Known(IssuerId)) == Str(identity.issuerId)
            && Dated(platform, Get(m, Known(IssuedAt)), identity.notBefore, identity.notAfter)
  {
    var m := ResolveReceipt(platform, handle, config, context).envelope;
    VerifiedIsVouched(platform, handle, config, context);
    UnderBundle(platform, identity, m);
  }

  lemma UnderBundle(platform: Platform, identity: SigningIdentity, m: map<Key, Json>)
    requires Unforgeable(platform, identity) && SignedUnder(platform, m, TrustBundle(identity))
    ensures CarriesSignature(m, identity.sign(Unsigned(m)))
    ensures Get(m[Known(ReceiptSignature)].members, Known(KeyId)) == Str(identity.keyId)
    ensures Get(m, Known(IssuerId)) == Str(identity.issuerId)
    ensures Dated(platform, Get(m, Known(IssuedAt)), identity.notBefore, identity.notAfter)
  {
    var block := m[Known(ReceiptSignature)].members;
    var entry := TrustBundle(identity)[0];
    var i :| OnlyEntry(TrustBundle(identity), i, Get(block, Known(KeyId)))
             && EntrySigns(platform, m, TrustBundle(identity)[i]);
    assert i == 0 && SignedWith(platform, m, block, entry);
    var publicKey, text, bytes :|
      && B64UrlDecode(entry.publicKey) == Some(publicKey) && |publicKey| == 32
      && Get(block, Known(SignatureValue)) == Str(text) && B64UrlDecode(text) == Some(bytes) && |bytes| == 64
      && platform.verify(publicKey, bytes, Obj(m[Known(ReceiptSignature) := Obj(block - {Known(SignatureValue)})]));
    B64UrlRoundTrip(identity.publicKey);
    assert publicKey == identity.publicKey && bytes == identity.sign(Unsigned(m));
  }

  function Forged(identity: SigningIdentity, e: Envelope, bytes: seq<Byte>): map<Key, Json>
  {
    WithBlock(Render(e), identity.keyId, Some(B64UrlEncode(bytes)))
  }

  // The identity's bundle, and a directory with this one file.
  function ReaderOf(
    platform: Platform, identity: SigningIdentity, receiptId: string, m: map<Key, Json>): AccessConfig
  {
    AccessConfig(DiskProvider(OneFile(platform, receiptId, m)), TrustBundle(identity), false, false)
  }

  /** A forged envelope is refused: one the emitter made, with any other bytes in
      place of its signature, is a signature failure under every handle. */
  lemma ForgedIsRefused(
    platform: Platform, identity: SigningIdentity, e: Envelope, bytes: seq<Byte>, handle: ReceiptHandle,
    context: AccessContext)
    requires Unforgeable(platform, identity) && IdealJson(platform) && !GuardRejects(identity, e)
    requires |bytes| == 64 && bytes != identity.sign(Obj(WithBlock(Render(e), identity.keyId, None)))
    ensures ResolveReceipt(platform, handle,
                           ReaderOf(platform, identity, handle.receiptId, Forged(identity, e, bytes)), context) ==
            Diagnosed(SignatureFailure)
  {
    ForgedConforms(identity, e, B64UrlEncode(bytes));
    ForgedIsFree(identity, e, bytes);
    ForgedIsUnsigned(platform, identity, e, bytes);
    OneFileStored(platform, identity, handle, context, Forged(identity, e, bytes));
    UnsignedIsRefused(platform, handle, ReaderOf(platform, identity, handle.receiptId, Forged(identity, e, bytes)),
                      context, Forged(identity, e, bytes));
  }

  lemma OneFileStored(
    platform: Platform, identity: SigningIdentity, handle: ReceiptHandle, context: AccessContext, m: map<Key, Json>)
    requires IdealJson(platform)
    ensures StoredObject(platform, handle, ReaderOf(platform, identity, handle.receiptId, m), context) == Some(m)
  {}

  lemma ForgedIsUnsigned(platform: Platform, identity: SigningIdentity, e: Envelope, bytes: seq<Byte>)
    requires Unforgeable(platform, identity) && |bytes| == 64
    requires bytes != identity.sign(Obj(WithBlock(Render(e), identity.keyId, None)))
    ensures !SignedUnder(platform, Forged(identity, e, bytes), TrustBundle(identity))
  {
    ForgedCarries(Render(e), identity.keyId, bytes);
    if SignedUnder(platform, Forged(identity, e, bytes), TrustBundle(identity)) {
      UnderBundle(platform, identity, Forged(identity, e, bytes));
    }
  }

  lemma UnsignedIsRefused(
    platform: Platform, handle: ReceiptHandle, config: AccessConfig, context: AccessContext, m: map<Key, Json>)
    requires StoredObject(platform, handle, config, context) == Some(m) && MayRead(config, context)
    requires Profiled(m, AdmissionKind) || Profiled(m, OutcomeKind)
    requires !TokenUnhashable(m, AdmissionKind) && !TokenUnhashable(m, OutcomeKind) && RawContentFree(Obj(m))
    requires !SignedUnder(platform, m, config.trust)
    ensures ResolveReceipt(platform, handle, config, context) == Diagnosed(SignatureFailure)
  {
    DiagnosisIsExact(platform, handle, config, context);
  }

  lemma ForgedConforms(identity: SigningIdentity, e: Envelope, signature: string)
    ensures var forged := WithBlock(Render(e), identity.keyId, Some(signature));
            && (Profiled(forged, AdmissionKind) || Profiled(forged, OutcomeKind))
            && !TokenUnhashable(forged, AdmissionKind) && !TokenUnhashable(forged, OutcomeKind)
  {
    var forged := WithBlock(Render(e), identity.keyId, Some(signature));
    RenderedFitsProfile(e);
    SignatureSurvives(Render(e), identity.keyId, signature);
    SignedConforms(Render(e), forged, KindOf(e));
    SchemaIsProfile(forged);
  }

  lemma ForgedIsFree(identity: SigningIdentity, e: Envelope, bytes: seq<Byte>)
    requires !GuardRejects(identity, e)
    ensures RawContentFree(Obj(WithBlock(Render(e), identity.keyId, Some(B64UrlEncode(bytes)))))
  {
    GuardIsExact(identity, e);
    assert Known(ReceiptSignature) !in Render(e) by { RenderedMember(e, ReceiptSignature); }
    SignatureUnmarked(bytes);
    BlockIsFree(Render(e), identity.keyId, B64UrlEncode(bytes));
  }

  lemma BlockIsFree(members: map<Key, Json>, keyId: string, signature: string)
    requires RawContentFree(Obj(members)) && !Marked(keyId) && !Marked(signature)
    requires Known(ReceiptSignature) !in members
    ensures RawContentFree(Obj(WithBlock(members, keyId, Some(signature))))
  {
    GuardOfBlock(keyId, Some(signature));
    GuardOfUpdate(members, Known(ReceiptSignature), Obj(SignatureBlock(keyId, Some(signature))));
  }

  // The bytes a block was made with are what it carries.
  lemma ForgedCarries(members: map<Key, Json>, keyId: string, bytes: seq<Byte>)
    requires |bytes| == 64
    ensures var m := WithBlock(members, keyId, Some(B64UrlEncode(bytes)));
            CarriesSignature(m, bytes) && Unsigned(m) == Obj(WithBlock(members, keyId, None))
  {
    PreimageRestored(members, keyId, B64UrlEncode(bytes));
    BlockWithoutSignature(keyId, B64UrlEncode(bytes));
    B64UrlRoundTrip(bytes);
  }
}
