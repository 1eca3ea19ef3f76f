/** Rendering, signing and storing receipts (dagr_mcp/srs_receipts.py) and
    reading the stored bytes back (dagr_mcp_service/access.py): a keyed store
    whose file names are a lossy map of the receipt identifiers. */
module ReceiptStore {
  import opened Prelude
  import opened JsonTrees
  import opened Base64Url
  import opened Receipts

  // ---- The envelope as JSON ------------------------------------------------

  // The constant members of the profile.
  function ProfileText(f: Field): string
  {
    match f
    case ReceiptVersion => "srs.core.v5.1"
    case ProfileId => "srs.mcp.sdk_enforcement"
    case ProfileVersion => "v0.1"
    case ReceiptType => "sdk_enforcement"
    case BoundaryType => "mcp_tool_call"
    case ProtocolBinding => "mcp"
    case RetentionClassApplied => "hash_only"
    case ToolResolutionStatus => "not_observed"
    case Algorithm => "Ed25519"
    case Canonicalization => "RFC8785-JCS"
    case _ => ""
  }

  function KindText(kind: ReceiptKindName): string
  {
    match kind case AdmissionKind => "admission" case OutcomeKind => "outcome"
  }

  function CoveredText(kind: ReceiptKindName): string
  {
    match kind case AdmissionKind => "tool_call_admission" case OutcomeKind => "tool_call_outcome"
  }

  function DispositionText(d: DispositionToken): string
  {
    match d
    case AdmittedToken => "admitted"
    case RefusedToken => "refused"
    case DeferredForReviewToken => "deferred_for_review"
  }

  function OutcomeText(o: OutcomeToken): string
  {
    match o
    case ResultReturned => "result_returned"
    case ErrorReturned => "error_returned"
    case ExceptionToken => "exception"
    case TaskSubmittedToken => "task_submitted"
    case Indeterminate => "indeterminate"
  }

  function OriginText(o: Origin): string
  {
    match o
    case SuppliedSubject => "supplied_subject"
    case DerivedFromSession => "derived_from_session"
    case DerivedFromRequest => "derived_from_request"
    case DerivedFromSuppliedCorrelation => "derived_from_supplied_correlation"
    case BindingMinted => "binding_minted"
  }

  function ExcludedClasses(): seq<Json>
  {
    [Str("raw_prompt"), Str("raw_output"), Str("raw_tool_arguments"), Str("raw_tool_result")]
  }

  function Texts(limits: seq<string>): seq<Json>
  {
    seq(|limits|, i requires 0 <= i < |limits| => Str(limits[i]))
  }

  function KindOf(e: Envelope): ReceiptKindName
  {
    if e.body.AdmissionBody? then AdmissionKind else OutcomeKind
  }

  function TextIf(value: Option<string>): Option<Json>
  {
    if value.Some? then Some(Str(value.value)) else None
  }

  function BooleanIf(owned: map<Key, bool>, f: Field): Option<Json>
  {
    if Known(f) in owned then Some(Bool(owned[Known(f)])) else None
  }

  function McpMember(e: Envelope, f: Field): Option<Json>
  {
    match f
    case BindingVersion => Some(Str(VersionText(e.bindingVersion)))
    case ExceptionClass => TextIf(e.exceptionClass)
    case _ => None
  }

  function McpExtension(e: Envelope): map<Key, Json>
  {
    map f: Field | McpMember(e, f).Some? :: Known(f) := McpMember(e, f).value
  }

  // The members a body adds to the common ones.
  function BodyMember(body: Body, f: Field): Option<Json>
  {
    match body
    case AdmissionBody(tool, digest, pack, version, disposition, reviewRef, retry, reason) =>
      (match f
       case RequestedToolName => Some(Str(tool))
       case ToolResolutionStatus => Some(Str(ProfileText(f)))
       case ArgumentDigest => Some(Str(digest))
       case PolicyPackId => Some(Str(pack))
       case PolicyPackVersion => Some(Str(version))
       case DispositionField => Some(Str(DispositionText(disposition)))
       case ReviewObjectRef => TextIf(reviewRef)
       case RetryContract => TextIf(retry)
       case ReasonCode => TextIf(reason)
       case _ => None)
    case OutcomeBody(admissionRef, outcome, digest, owned) =>
      match f
      case AdmissionReceiptRef => Some(Str(admissionRef))
      case OutcomeField => Some(Str(OutcomeText(outcome)))
      case ResultDigest => TextIf(digest)
      case RequestCancelled => BooleanIf(owned, f)
      case ExecutionStateUnknown => BooleanIf(owned, f)
      case DeliveryIncomplete => BooleanIf(owned, f)
      case _ => None
  }

  /** The member of the unsigned envelope under a name, if there is one. */
  function MemberOf(e: Envelope, f: Field): Option<Json>
  {
    match f
    case ReceiptVersion => Some(Str(ProfileText(f)))
    case ProfileId => Some(Str(ProfileText(f)))
    case ProfileVersion => Some(Str(ProfileText(f)))
    case ReceiptId => Some(Str(e.receiptId))
    case ReceiptType => Some(Str(ProfileText(f)))
    case ReceiptKind => Some(Str(KindText(KindOf(e))))
    case BoundaryType => Some(Str(ProfileText(f)))
    case ProtocolBinding => Some(Str(ProfileText(f)))
    case SubjectRef => Some(Str(e.subjectRef))
    case SubjectRefOrigin => if e.subjectRefOrigin.Some? then Some(Str(OriginText(e.subjectRefOrigin.value))) else None
    case IssuerId => Some(Str(e.issuerId))
    case RuntimeInstanceId => Some(Str(e.runtimeInstanceId))
    case BoundaryId => Some(Str(e.boundaryId))
    case LogicalCallId => Some(Str(e.logicalCallId))
    case IssuedAt => Some(Str(e.issuedAt))
    case ArtifactClassesCovered => Some(Arr([Str(CoveredText(KindOf(e)))]))
    case ArtifactClassesExcluded => Some(Arr(ExcludedClasses()))
    case AttestationLimits => Some(Arr(Texts(e.limits)))
    case RetentionClassApplied => Some(Str(ProfileText(f)))
    case Extensions => Some(Obj(map[Known(Mcp) := Obj(McpExtension(e))]))
    case ActorRef => TextIf(e.actorRef)
    case TenantId => TextIf(e.tenantId)
    case WorkspaceId => TextIf(e.workspaceId)
    case ParentReceiptRef => TextIf(e.parentReceiptRef)
    case _ => BodyMember(e.body, f)
  }

  /** The unsigned envelope as the JSON object the emitter assembles. */
  function Render(e: Envelope): map<Key, Json>
  {
    map f: Field | MemberOf(e, f).Some? :: Known(f) := MemberOf(e, f).value
  }

  // dict.get
  function Get(members: map<Key, Json>, k: Key): Json
  {
    if k in members then members[k] else Null
  }

  lemma RenderedMember(e: Envelope, f: Field)
    ensures Known(f) in Render(e) <==> MemberOf(e, f).Some?
    ensures MemberOf(e, f).Some? ==> Render(e)[Known(f)] == MemberOf(e, f).value
  {}

  lemma RenderedFieldsOnly(e: Envelope, k: Key)
    ensures k in Render(e) <==> k.Known? && MemberOf(e, k.field).Some?
  {}

  // The reference a sink answered with is no member of the record.
  lemma MemberIgnoresReference(e: Envelope, reference: string, f: Field)
    ensures MemberOf(e.(reference := reference), f) == MemberOf(e, f)
  {
    var stored := e.(reference := reference);
    assert forall g: Field :: McpMember(stored, g) == McpMember(e, g);
    assert McpExtension(stored) == McpExtension(e);
  }

  lemma RenderIgnoresReference(e: Envelope, reference: string)
    ensures Render(e.(reference := reference)) == Render(e)
  {
    forall f: Field ensures MemberOf(e.(reference := reference), f) == MemberOf(e, f) {
      MemberIgnoresReference(e, reference, f);
    }
  }

  // ---- Signing -------------------------------------------------------------

  /** A signing identity. Signing is a function of the canonical form, that is,
      of the tree (section 3.2 of RFC 8785). */
  datatype SigningIdentity = SigningIdentity(
    issuerId: string, keyId: string, publicKey: seq<Byte>, sign: Json -> seq<Byte>,
    notBefore: string, notAfter: string)

  function SignatureMember(keyId: string, signature: Option<string>, f: Field): Option<Json>
  {
    match f
    case Algorithm => Some(Str(ProfileText(f)))
    case Canonicalization => Some(Str(ProfileText(f)))
    case KeyId => Some(Str(keyId))
    case SignatureValue => TextIf(signature)
    case _ => None
  }

  function SignatureBlock(keyId: string, signature: Option<string>): map<Key, Json>
  {
    map f: Field | SignatureMember(keyId, signature, f).Some? :: Known(f) := SignatureMember(keyId, signature, f).value
  }

  function WithBlock(members: map<Key, Json>, keyId: string, signature: Option<string>): map<Key, Json>
  {
    members[Known(ReceiptSignature) := Obj(SignatureBlock(keyId, signature))]
  }

  // sign_envelope: guard with an empty signature, sign the form without one,
  // guard again with the signature in place.
  function SignEnvelope(identity: SigningIdentity, members: map<Key, Json>): Option<map<Key, Json>>
  {
    if !RawContentFree(Obj(WithBlock(members, identity.keyId, Some("")))) then None
    else
      var preimage := Obj(WithBlock(members, identity.keyId, None));
      var signed := WithBlock(members, identity.keyId, Some(B64UrlEncode(identity.sign(preimage))));
      if RawContentFree(Obj(signed)) then Some(signed) else None
  }

  // What the emitter hands to the sink.
  function SignedForm(identity: SigningIdentity, e: Envelope): map<Key, Json>
  {
    WithBlock(Render(e), identity.keyId,
              Some(B64UrlEncode(identity.sign(Obj(WithBlock(Render(e), identity.keyId, None))))))
  }

  // The emitter's guards, before and while signing, as `Env.rejects` holds them.
  predicate GuardRejects(identity: SigningIdentity, e: Envelope)
  {
    !RawContentFree(Obj(Render(e))) || SignEnvelope(identity, Render(e)).None?
  }

  // Every private marker holds a '/' or a ':'.
  lemma Unmarked(text: string)
    requires '/' !in text && ':' !in text
    ensures !Marked(text)
  {
    MissingCharNoOccurrence("/Users/", text, 0);
    MissingCharNoOccurrence("/home/", text, 0);
    MissingCharNoOccurrence("/private/var", text, 0);
    MissingCharNoOccurrence("C:\\\\", text, 1);
    MissingCharNoOccurrence("~/garp-", text, 1);
    MissingCharNoOccurrence("~/arcs-anchor", text, 1);
  }

  lemma SignatureUnmarked(b: seq<Byte>)
    ensures !Marked(B64UrlEncode(b))
  {
    StrippedEncoding(b);
    Unmarked(B64UrlEncode(b));
  }

  // Setting one member to a new value changes only what that member breaks.
  lemma GuardOfUpdate(members: map<Key, Json>, k: Key, v: Json)
    requires k !in members
    ensures RawContentFree(Obj(members[k := v])) <==>
            RawContentFree(Obj(members)) && !RawKey(k) && !MarkedText(v) && RawContentFree(v)
  {
    var updated := members[k := v];
    if RawContentFree(Obj(updated)) {
      assert updated[k] == v;
      forall j | j in members ensures !RawKey(j) && !MarkedText(members[j]) && RawContentFree(members[j]) {
        assert updated[j] == members[j];
      }
    }
  }

  lemma ConstantsUnmarked()
    ensures !Marked(ProfileText(Algorithm)) && !Marked(ProfileText(Canonicalization)) && !Marked("")
  {
    Unmarked(ProfileText(Algorithm));
    Unmarked(ProfileText(Canonicalization));
    Unmarked("");
  }

  lemma SignatureMemberText(keyId: string, signature: Option<string>, f: Field)
    requires SignatureMember(keyId, signature, f).Some?
    requires signature.Some? ==> !Marked(signature.value)
    ensures var v := SignatureMember(keyId, signature, f).value;
            v.Str? && (Marked(v.text) <==> f == KeyId && Marked(keyId))
  {
    ConstantsUnmarked();
  }

  lemma GuardOfBlock(keyId: string, signature: Option<string>)
    requires signature.Some? ==> !Marked(signature.value)
    ensures RawContentFree(Obj(SignatureBlock(keyId, signature))) <==> !Marked(keyId)
  {
    var block := SignatureBlock(keyId, signature);
    forall k | k in block
      ensures !RawKey(k) && RawContentFree(block[k]) && (MarkedText(block[k]) <==> k == Known(KeyId) && Marked(keyId))
    {
      SignatureMemberText(keyId, signature, k.field);
    }
    assert Known(KeyId) in block;
  }

  // The content guard of the environment is the emitter's.
  ghost predicate GuardsContent(identity: SigningIdentity, env: Env)
  {
    forall e :: env.rejects(e) <==> GuardRejects(identity, e)
  }

  /** The guards of one emission come to a single condition: the rendered
      envelope is raw-content-free and the key identifier holds no marker. In
      particular the guard after signing never fires, because no signature text
      can hold a marker. */
  lemma GuardIsExact(identity: SigningIdentity, e: Envelope)
    ensures !GuardRejects(identity, e) <==> RawContentFree(Obj(Render(e))) && !Marked(identity.keyId)
    ensures !GuardRejects(identity, e) ==> SignEnvelope(identity, Render(e)) == Some(SignedForm(identity, e))
    ensures !GuardRejects(identity, e) ==> RawContentFree(Obj(SignedForm(identity, e)))
  {
    var signature := B64UrlEncode(identity.sign(Obj(WithBlock(Render(e), identity.keyId, None))));
    assert Known(ReceiptSignature) !in Render(e) by { RenderedMember(e, ReceiptSignature); }
    SignatureUnmarked(identity.sign(Obj(WithBlock(Render(e), identity.keyId, None))));
    Unmarked("");
    GuardOfBlock(identity.keyId, Some(""));
    GuardOfBlock(identity.keyId, Some(signature));
    GuardOfUpdate(Render(e), Known(ReceiptSignature), Obj(SignatureBlock(identity.keyId, Some(""))));
    GuardOfUpdate(Render(e), Known(ReceiptSignature), Obj(SignatureBlock(identity.keyId, Some(signature))));
  }

  // ---- File names ----------------------------------------------------------

  predicate SafeChar(c: char)
  {
    'A' <= c <= 'Z' || 'a' <= c <= 'z' || '0' <= c <= '9' || c == '.' || c == '_' || c == '-'
  }

  // Every run of unsafe characters becomes one '_'.
  function Sanitize(s: string): string
  {
    if |s| == 0 then ""
    else if SafeChar(s[0]) then [s[0]] + Sanitize(s[1..])
    else if |s| > 1 && !SafeChar(s[1]) then Sanitize(s[1..])
    else "_" + Sanitize(s[1..])
  }

  function FileName(receiptId: string): string
  {
    Sanitize(receiptId) + ".json"
  }

  lemma {:induction false} SanitizedIsSafe(s: string)
    ensures forall i | 0 <= i < |Sanitize(s)| :: SafeChar(Sanitize(s)[i])
  {
    if |s| > 0 {
      SanitizedIsSafe(s[1..]);
    }
  }

  lemma {:induction false} SafeIsKept(s: string)
    requires forall i | 0 <= i < |s| :: SafeChar(s[i])
    ensures Sanitize(s) == s
  {
    if |s| > 0 {
      SafeIsKept(s[1..]);
    }
  }

  /** A file name is one path component whatever the identifier: it holds no
      separator and is neither "." nor "..". */
  lemma FileNameIsOneComponent(receiptId: string)
    ensures var name := FileName(receiptId);
            && (forall i | 0 <= i < |name| :: SafeChar(name[i]))
            && '/' !in name && name != "." && name != ".."
    ensures Sanitize(FileName(receiptId)) == FileName(receiptId)
  {
    SanitizedIsSafe(receiptId);
    SafeIsKept(FileName(receiptId));
  }

  const UPPER_CASE: string := "ABCDEFGHIJKLMNOPQRSTUVWXYZ"
  const LOWER_CASE: string := "abcdefghijklmnopqrstuvwxyz"
  const DIGITS: string := "0123456789"

  predicate Plain(c: char)
  {
    c in UPPER_CASE || c in LOWER_CASE || c in DIGITS || c in "._-"
  }

  lemma UpperIsListed(c: char)
    ensures c in UPPER_CASE <==> 'A' <= c <= 'Z'
  {
    if 'A' <= c <= 'Z' {
      assert UPPER_CASE[(c - 'A') as int] == c;
    }
  }

  lemma LowerIsListed(c: char)
    ensures c in LOWER_CASE <==> 'a' <= c <= 'z'
  {
    if 'a' <= c <= 'z' {
      assert LOWER_CASE[(c - 'a') as int] == c;
    }
  }

  lemma DigitIsListed(c: char)
    ensures c in DIGITS <==> '0' <= c <= '9'
  {
    if '0' <= c <= '9' {
      assert DIGITS[(c - '0') as int] == c;
    }
  }

  lemma SafeIsPlain(c: char)
    ensures SafeChar(c) <==> Plain(c)
  {
    UpperIsListed(c);
    LowerIsListed(c);
    DigitIsListed(c);
  }

  /** An identifier gives its file name unchanged exactly when it is written in
      letters, digits, dots, underscores and hyphens. */
  lemma PlainIdentifiersKept(receiptId: string)
    ensures FileName(receiptId) == receiptId + ".json" <==> forall c | c in receiptId :: Plain(c)
  {
    SanitizedIsSafe(receiptId);
    forall c | c in receiptId ensures SafeChar(c) <==> Plain(c) {
      SafeIsPlain(c);
    }
    if forall c | c in receiptId :: Plain(c) {
      SafeIsKept(receiptId);
    }
    if FileName(receiptId) == receiptId + ".json" {
      assert Sanitize(receiptId) == FileName(receiptId)[..|Sanitize(receiptId)|];
      assert receiptId == (receiptId + ".json")[..|receiptId|];
    }
  }

  // What follows the unsafe characters a text starts with.
  function AfterRun(s: string): (rest: string)
    ensures |rest| <= |s| && (|s| > 0 && !SafeChar(s[0]) ==> |rest| < |s|)
  {
    if |s| > 0 && !SafeChar(s[0]) then AfterRun(s[1..]) else s
  }

  // Two identifiers read alike, each run of unsafe characters as one '_'.
  predicate ReadAlike(a: string, b: string)
    decreases |a| + |b|
  {
    if |a| == 0 || |b| == 0 then a == b
    else if SafeChar(a[0]) && SafeChar(b[0]) then a[0] == b[0] && ReadAlike(a[1..], b[1..])
    else if SafeChar(a[0]) then a[0] == '_' && ReadAlike(a[1..], AfterRun(b))
    else if SafeChar(b[0]) then b[0] == '_' && ReadAlike(AfterRun(a), b[1..])
    else ReadAlike(AfterRun(a), AfterRun(b))
  }

  lemma {:induction false} RunSanitized(s: string)
    requires |s| > 0 && !SafeChar(s[0])
    ensures Sanitize(s) == "_" + Sanitize(AfterRun(s))
  {
    if |s| > 1 && !SafeChar(s[1]) {
      RunSanitized(s[1..]);
    }
  }

  lemma {:induction false} SanitizedAlike(a: string, b: string)
    ensures Sanitize(a) == Sanitize(b) <==> ReadAlike(a, b)
    decreases |a| + |b|
  {
    if |a| > 0 && |b| > 0 {
      var restA := if SafeChar(a[0]) then a[1..] else AfterRun(a);
      var restB := if SafeChar(b[0]) then b[1..] else AfterRun(b);
      var c, d := if SafeChar(a[0]) then a[0] else '_', if SafeChar(b[0]) then b[0] else '_';
      if !SafeChar(a[0]) {
        RunSanitized(a);
      }
      if !SafeChar(b[0]) {
        RunSanitized(b);
      }
      SanitizedAlike(restA, restB);
      SameHeads(c, Sanitize(restA), d, Sanitize(restB));
    } else if |a| > 0 {
      NotEmptied(a);
    } else if |b| > 0 {
      NotEmptied(b);
    }
  }

  lemma SameHeads(c: char, s: string, d: char, t: string)
    ensures [c] + s == [d] + t <==> c == d && s == t
  {
    assert ([c] + s)[0] == c && ([d] + t)[0] == d && ([c] + s)[1..] == s && ([d] + t)[1..] == t;
  }

  lemma {:induction false} NotEmptied(s: string)
    requires |s| > 0
    ensures Sanitize(s) != ""
  {
    if !SafeChar(s[0]) {
      RunSanitized(s);
    }
  }

  /** The map is lossy: two identifiers share a file exactly when they read alike
      with every run of unsafe characters taken for one '_'. */
  lemma FileNamesCollide(a: string, b: string)
    ensures FileName(a) == FileName(b) <==> ReadAlike(a, b)
  {
    SanitizedAlike(a, b);
    assert FileName(a)[..|FileName(a)| - 5] == Sanitize(a) && FileName(b)[..|FileName(b)| - 5] == Sanitize(b);
  }

  // ---- The store -----------------------------------------------------------

  // What a name in the directory holds.
  datatype FileEntry = Regular(bytes: seq<Byte>) | Irregular

  /** The libraries underneath: JSON text, text of a value, signature
      verification, and time stamps. */
  datatype Platform = Platform(
    dumps: Json -> seq<Byte>,
    loads: seq<Byte> -> Option<Json>,
    textOf: Json -> string,
    verify: (seq<Byte>, seq<Byte>, Json) -> bool,
    parseTime: string -> Option<int>)

  // Parsing gives back what was dumped, and a string is its own text.
  ghost predicate IdealJson(platform: Platform)
  {
    && (forall v :: platform.loads(platform.dumps(v)) == Some(v))
    && (forall text :: platform.textOf(Str(text)) == text)
  }

  // One write offered to the sink, and whether the file system fails it.
  datatype WriteAttempt = WriteAttempt(envelope: map<Key, Json>, ioFails: bool)

  predicate Storable(attempt: WriteAttempt)
  {
    RawContentFree(Obj(attempt.envelope)) && Known(ReceiptId) in attempt.envelope && !attempt.ioFails
  }

  function IdText(platform: Platform, envelope: map<Key, Json>): string
  {
    platform.textOf(Get(envelope, Known(ReceiptId)))
  }

  function Stored(platform: Platform, files: map<string, FileEntry>, attempt: WriteAttempt): map<string, FileEntry>
  {
    if Storable(attempt) then
      files[FileName(IdText(platform, attempt.envelope)) := Regular(platform.dumps(Obj(attempt.envelope)))]
    else files
  }

  class RawEnvelopeFileSink {
    const platform: Platform
    var files: map<string, FileEntry>

    constructor (platform: Platform, files: map<string, FileEntry>)
      ensures this.platform == platform && this.files == files
    {
      this.platform, this.files := platform, files;
    }

    /** RawEnvelopeFileSink.write: guard, name, write, replace. A failed write
        leaves every file as it was. */
    method Write(envelope: map<Key, Json>, ioFails: bool) returns (r: Result<string, Fault>)
      modifies this
      ensures files == Stored(platform, old(files), WriteAttempt(envelope, ioFails))
      ensures r.Ok? <==> Storable(WriteAttempt(envelope, ioFails))
      ensures r.Ok? ==> r.value == IdText(platform, envelope)
      ensures r == Err(ContentFault) <==> !RawContentFree(Obj(envelope))
    {
      var violation := EnforceRawContentExclusion(Obj(envelope));
      if violation.Some? {
        return Err(ContentFault);
      }
      if Known(ReceiptId) !in envelope {
        return Err(OtherFault("KeyError"));
      }
      var receiptId := platform.textOf(envelope[Known(ReceiptId)]);
      var target := FileName(receiptId);
      if ioFails {
        return Err(WriteFault);
      }
      files := files[target := Regular(platform.dumps(Obj(envelope)))];
      r := Ok(receiptId);
    }
  }

  // What opening the file of an identifier finds.
  function Fetched(files: map<string, FileEntry>, receiptId: string): Option<seq<Byte>>
  {
    var name := FileName(receiptId);
    if name in files && files[name].Regular? then Some(files[name].bytes) else None
  }

  function Concatenated(chunks: seq<seq<Byte>>): seq<Byte>
  {
    if |chunks| == 0 then [] else Concatenated(chunks[..|chunks| - 1]) + chunks[|chunks| - 1]
  }

  /** FilesystemReceiptSource.fetch. `bound(k)` is the most the k-th read
      returns; a read of nothing ends the loop early. Whole files come back
      however the reads are cut, and never more than the file. */
  method Fetch(files: map<string, FileEntry>, receiptId: string, bound: nat -> nat) returns (r: Option<seq<Byte>>)
    ensures r.Some? <==> Fetched(files, receiptId).Some?
    ensures r.Some? ==> r.value <= Fetched(files, receiptId).value
    ensures (forall k :: bound(k) > 0) ==> r == Fetched(files, receiptId)
  {
    var candidate := FileName(receiptId);
    if candidate !in files || files[candidate].Irregular? {
      return None;
    }
    var content := files[candidate].bytes;
    var remaining := |content|;
    var chunks := [];
    var k := 0;
    while remaining > 0
      invariant 0 <= remaining <= |content|
      invariant Concatenated(chunks) == content[..|content| - remaining]
    {
      var start := |content| - remaining;
      var chunk := content[start..if bound(k) < remaining then start + bound(k) else |content|];
      if |chunk| == 0 {
        break;
      }
      assert (chunks + [chunk])[..|chunks|] == chunks;
      chunks := chunks + [chunk];
      remaining := remaining - |chunk|;
      k := k + 1;
    }
    assert remaining > 0 ==> bound(k) == 0;
    assert content[..|content|] == content;
    r := Some(Concatenated(chunks));
  }

  // ---- Histories -----------------------------------------------------------

  // The directory after a history of writes into an empty one.
  function Disk(platform: Platform, history: seq<WriteAttempt>): map<string, FileEntry>
  {
    if |history| == 0 then map[]
    else Stored(platform, Disk(platform, history[..|history| - 1]), history[|history| - 1])
  }

  // The writes of a history that were accepted.
  function Kept(history: seq<WriteAttempt>): seq<WriteAttempt>
  {
    if |history| == 0 then []
    else Kept(history[..|history| - 1]) + if Storable(history[|history| - 1]) then [history[|history| - 1]] else []
  }

  lemma DiskAppend(platform: Platform, history: seq<WriteAttempt>, attempt: WriteAttempt)
    ensures Disk(platform, history + [attempt]) == Stored(platform, Disk(platform, history), attempt)
    ensures Kept(history + [attempt]) == Kept(history) + if Storable(attempt) then [attempt] else []
  {
    assert (history + [attempt])[..|history|] == history;
  }

  /** Writes that fail, for whatever reason, leave nothing behind. */
  lemma {:induction false} FailuresLeaveNothing(platform: Platform, history: seq<WriteAttempt>)
    ensures Disk(platform, history) == Disk(platform, Kept(history))
  {
    if |history| > 0 {
      var before, last := history[..|history| - 1], history[|history| - 1];
      FailuresLeaveNothing(platform, before);
      if Storable(last) {
        DiskAppend(platform, Kept(before), last);
      } else {
        assert Kept(before) + [] == Kept(before);
      }
    }
  }

  // The last accepted write whose identifier satisfies a test.
  function LastWritten(platform: Platform, history: seq<WriteAttempt>, test: string -> bool): Option<map<Key, Json>>
  {
    if |history| == 0 then None
    else
      var last := history[|history| - 1];
      if Storable(last) && test(IdText(platform, last.envelope)) then Some(last.envelope)
      else LastWritten(platform, history[..|history| - 1], test)
  }

  function LastWithId(platform: Platform, history: seq<WriteAttempt>, receiptId: string): Option<map<Key, Json>>
  {
    LastWritten(platform, history, id => id == receiptId)
  }

  function LastInFile(platform: Platform, history: seq<WriteAttempt>, receiptId: string): Option<map<Key, Json>>
  {
    LastWritten(platform, history, id => FileName(id) == FileName(receiptId))
  }

  /** A file holds the last accepted write that maps to its name. */
  lemma {:induction false} DiskHoldsLast(platform: Platform, history: seq<WriteAttempt>, receiptId: string)
    ensures Fetched(Disk(platform, history), receiptId) ==
            match LastInFile(platform, history, receiptId)
            case Some(envelope) => Some(platform.dumps(Obj(envelope)))
            case None => None
    ensures forall name | name in Disk(platform, history) :: Disk(platform, history)[name].Regular?
  {
    if |history| > 0 {
      DiskHoldsLast(platform, history[..|history| - 1], receiptId);
    }
  }

  // What a file holds under its own identifier is the last write of that
  // identifier.
  lemma {:induction false} LastInFileIsLastWithId(platform: Platform, history: seq<WriteAttempt>, receiptId: string)
    ensures var last := LastInFile(platform, history, receiptId);
            last.Some? && IdText(platform, last.value) == receiptId ==> LastWithId(platform, history, receiptId) == last
    ensures LastInFile(platform, history, receiptId).Some? ==>
              Storable(WriteAttempt(LastInFile(platform, history, receiptId).value, false))
  {
    if |history| > 0 {
      LastInFileIsLastWithId(platform, history[..|history| - 1], receiptId);
    }
  }

  /** When every write is accepted and no two share a file, each file holds the
      write of its own identifier. */
  lemma {:induction false} OneFileEach(platform: Platform, history: seq<WriteAttempt>, k: nat)
    requires k < |history| && forall i | 0 <= i < |history| :: Storable(history[i])
    requires forall i, j | 0 <= i < j < |history| ::
               FileName(IdText(platform, history[i].envelope)) != FileName(IdText(platform, history[j].envelope))
    ensures LastInFile(platform, history, IdText(platform, history[k].envelope)) == Some(history[k].envelope)
    decreases |history|
  {
    if k < |history| - 1 {
      OneFileEach(platform, history[..|history| - 1], k);
    }
  }
}
