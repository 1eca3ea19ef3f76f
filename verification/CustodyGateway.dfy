/** The record-custody gateway object (dagr_mcp/mcp_record_custody_gateway.py):
    normalized once at construction, projected to a dictionary that carries its
    own hash, and built again from that dictionary. */
module CustodyGateway {
  import opened Prelude
  import opened JsonTrees
  import opened Disposition

  /** The constructor's arguments. */
  datatype Argument =
    | SchemaVersion | GatewayEventId | RecordCandidateRef | GeneratedBy | ObservedAt
    | GatewayBoundaryType | GatewayReceiptFamily | GatewayProtocolBinding | GatewayCustodyStatus
    | ActorRefArg | TargetRef | SessionRef | BoundaryRef | TraceContextRef | BridgeRef | UserContextRef
    | DelegatedCredentialRef | PolicyOutcomeRef | RequestHash | ResponseHash | OutputRef
    | SpanRefs | EventRefs | ReceiptRefs | LinkageRefs | BlockerCodes | RefusalCodes
    | ExtensionsArg
    | RawPayloadExcluded | PrivatePathRedacted | ToolArgumentsExcluded | CredentialSecretExcluded
    | RecordAdmissionClaimed | McpProtocolModified | McpAuthorityGranted | ModelOutputVerified

  datatype Kind =
    | SchemaText | RequiredText | EnumText | OptionalText | RefList | ExtensionMap | MustBeTrue | MustBeFalse

  // A member of the dictionary projection.
  datatype Member =
    | Arg(argument: Argument) | GatewayKind | GatewayVocabulary | GatewayHash | UnknownMember(name: string)

  /** An accepted object: a value for every argument. */
  datatype Gateway = Gateway(values: map<Argument, Json>)

  /** Names of nested members, the digest of a projection's canonical form, and
      the constant members. */
  datatype World = World(
    nameOf: Key -> string, digest: map<Member, Json> -> string, vocabulary: Json, kind: Json)

  function KindOf(a: Argument): Kind
  {
    match a
    case SchemaVersion => SchemaText
    case GatewayEventId | RecordCandidateRef | GeneratedBy | ObservedAt => RequiredText
    case GatewayBoundaryType | GatewayReceiptFamily | GatewayProtocolBinding | GatewayCustodyStatus => EnumText
    case SpanRefs | EventRefs | ReceiptRefs | LinkageRefs | BlockerCodes | RefusalCodes => RefList
    case ExtensionsArg => ExtensionMap
    case RawPayloadExcluded | PrivatePathRedacted | ToolArgumentsExcluded | CredentialSecretExcluded => MustBeTrue
    case RecordAdmissionClaimed | McpProtocolModified | McpAuthorityGranted | ModelOutputVerified => MustBeFalse
    case _ => OptionalText
  }

  function SchemaName(): string { "garp.mcp_record_custody_gateway.v0.1" }

  predicate BoundaryTypeName(text: string)
  {
    || text == "mcp_tool_call" || text == "mcp_resource_read" || text == "mcp_prompt_retrieval"
    || text == "agent_delegation"
  }

  predicate ReceiptFamilyName(text: string)
  {
    text == "connection" || text == "provenance" || text == "sdk_enforcement"
  }

  predicate ProtocolBindingName(text: string)
  {
    text == "mcp" || text == "auth_md" || text == "unspecified"
  }

  predicate CustodyStatusName(text: string)
  {
    || text == "custody_record_ready" || text == "custody_record_partial" || text == "trace_only"
    || text == "unsupported_boundary_type" || text == "missing_actor_context" || text == "missing_target_context"
    || text == "privacy_blocked" || text == "policy_refused" || text == "needs_review"
  }

  // The values of the enumerations.
  predicate InVocabulary(a: Argument, text: string)
  {
    match a
    case GatewayBoundaryType => BoundaryTypeName(text)
    case GatewayReceiptFamily => ReceiptFamilyName(text)
    case GatewayProtocolBinding => ProtocolBindingName(text)
    case GatewayCustodyStatus => CustodyStatusName(text)
    case _ => false
  }

  // What an argument that is not given stands for.
  function Default(a: Argument, now: string): Option<Json>
  {
    match KindOf(a)
    case SchemaText => Some(Str(SchemaName()))
    case RequiredText => if a == ObservedAt then Some(Str(now)) else None
    case EnumText =>
      if a == GatewayProtocolBinding then Some(Str("mcp"))
      else if a == GatewayCustodyStatus then Some(Str("custody_record_ready")) else None
    case OptionalText => Some(Null)
    case RefList => Some(Arr([]))
    case ExtensionMap => Some(Obj(map[]))
    case MustBeTrue => Some(Bool(true))
    case MustBeFalse => Some(Bool(false))
  }

  // _require_non_empty
  function NonEmpty(v: Json): Option<Json>
  {
    if v.Str? && Strip(v.text) != "" then Some(Str(Strip(v.text))) else None
  }

  function NonEmptyAll(items: seq<Json>): Option<seq<Json>>
  {
    if |items| == 0 then Some([])
    else
      match (NonEmpty(items[0]), NonEmptyAll(items[1..]))
      case (Some(head), Some(tail)) => Some([head] + tail)
      case _ => None
  }

  predicate RawField(name: string)
  {
    name in {"prompt", "prompt_text", "system_prompt", "completion", "completion_text", "model_output", "output_text",
             "response_text", "transcript", "transcript_text", "messages", "message_text", "raw_text", "raw_payload",
             "raw_input", "raw_output", "input_text", "private_text", "private_prompt", "private_completion",
             "tool_arguments", "tool_args", "arguments", "request_body", "response_body", "http_body", "raw_headers",
             "request_headers", "response_headers", "headers"}
    || name in {"credential_secret", "client_secret", "access_token", "refresh_token", "id_token", "bearer_token",
                "api_key", "private_key", "password", "passphrase", "signing_key", "shared_secret"}
  }

  // _assert_no_raw_payload_fields
  predicate NoRawFields(w: World, v: Json)
  {
    match v
    case Obj(members) => forall k | k in members :: !RawField(Lower(Strip(w.nameOf(k)))) && NoRawFields(w, members[k])
    case Arr(items) => forall i | 0 <= i < |items| :: NoRawFields(w, items[i])
    case _ => true
  }

  predicate PrivateText(text: string)
  {
    || Occurs("/Users/", text) || Occurs("/home/", text) || Occurs("/private/", text) || Occurs("/var/folders/", text)
    || Occurs("/mnt/user-data", text) || Occurs("C:\\\\", text) || Occurs("C:/", text) || Occurs("file://", text)
    || Occurs("query_logs/", text) || Occurs("garp-local-main/", text)
  }

  // _assert_public_safe over _iter_strings: names and texts alike.
  predicate PublicSafe(w: World, v: Json)
  {
    match v
    case Str(text) => !PrivateText(text)
    case Obj(members) => forall k | k in members :: !PrivateText(w.nameOf(k)) && PublicSafe(w, members[k])
    case Arr(items) => forall i | 0 <= i < |items| :: PublicSafe(w, items[i])
    case _ => true
  }

  /** What the constructor makes of one argument; None is its error. */
  function Normalized(w: World, a: Argument, v: Json): Option<Json>
  {
    match KindOf(a)
    case SchemaText => if v == Str(SchemaName()) then Some(v) else None
    case RequiredText => NonEmpty(v)
    case EnumText => if v.Str? && InVocabulary(a, v.text) then Some(v) else None
    case OptionalText => if v == Null then Some(Null) else NonEmpty(v)
    case RefList =>
      if v == Null then Some(Arr([]))
      else if !v.Arr? then None
      else (match NonEmptyAll(v.items) case Some(items) => Some(Arr(items)) case None => None)
    case ExtensionMap => if v == Null then Some(Obj(map[])) else if v.Obj? && NoRawFields(w, v) then Some(v) else None
    case MustBeTrue => if v == Bool(true) then Some(v) else None
    case MustBeFalse => if v == Bool(false) then Some(v) else None
  }

  // The value an argument is built from.
  function Given(args: map<Argument, Json>, a: Argument, now: string): Option<Json>
  {
    if a in args then Some(args[a]) else Default(a, now)
  }

  function Value(w: World, args: map<Argument, Json>, a: Argument, now: string): Option<Json>
  {
    match Given(args, a, now) case Some(v) => Normalized(w, a, v) case None => None
  }

  // Both walks over the projection; the names of its own members break neither.
  predicate ProjectionAllowed(w: World, g: Gateway)
  {
    forall a | a in g.values :: NoRawFields(w, g.values[a]) && PublicSafe(w, g.values[a])
  }

  /** The constructor, __post_init__ included. */
  function Construct(w: World, args: map<Argument, Json>, now: string): Option<Gateway>
  {
    if exists a: Argument :: Value(w, args, a, now).None? then None
    else
      var g := Gateway(map a: Argument | Value(w, args, a, now).Some? :: Value(w, args, a, now).value);
      if ProjectionAllowed(w, g) then Some(g) else None
  }

  function Body(w: World, g: Gateway): map<Member, Json>
  {
    (map a | a in g.values :: Arg(a) := g.values[a])
    + map[GatewayKind := w.kind, GatewayVocabulary := w.vocabulary, GatewayHash := Str("")]
  }

  // mcp_record_custody_gateway_hash: the hash member is ignored.
  function HashOf(w: World, payload: map<Member, Json>): string
  {
    w.digest(payload[GatewayHash := Str("")])
  }

  function ToDict(w: World, g: Gateway): map<Member, Json>
  {
    var body := Body(w, g);
    body[GatewayHash := Str(HashOf(w, body))]
  }

  /** from_dict: the three derived members are dropped, and a member that is no
      argument is a TypeError. */
  function FromDict(w: World, payload: map<Member, Json>, now: string): Option<Gateway>
  {
    if exists m | m in payload :: m.UnknownMember? then None
    else Construct(w, map a: Argument | Arg(a) in payload :: payload[Arg(a)], now)
  }

  // ---- Normalization -------------------------------------------------------

  lemma {:induction false} StripLeftEnds(s: string)
    ensures StripLeft(s) == "" || !IsSpace(StripLeft(s)[0])
    ensures StripLeft(s) != "" ==> s != "" && StripLeft(s)[|StripLeft(s)| - 1] == s[|s| - 1]
  {
    if |s| > 0 && IsSpace(s[0]) {
      StripLeftEnds(s[1..]);
    }
  }

  lemma {:induction false} StripRightEnds(s: string)
    ensures StripRight(s) == "" || !IsSpace(StripRight(s)[|StripRight(s)| - 1])
    ensures StripRight(s) != "" ==> s != "" && StripRight(s)[0] == s[0]
  {
    if |s| > 0 && IsSpace(s[|s| - 1]) {
      StripRightEnds(s[..|s| - 1]);
    }
  }

  lemma StripTwice(s: string)
    ensures Strip(Strip(s)) == Strip(s)
  {
    StripLeftEnds(s);
    StripRightEnds(StripLeft(s));
    NothingToStrip(Strip(s));
  }

  lemma {:induction false} NonEmptyAllTwice(items: seq<Json>)
    ensures NonEmptyAll(items).Some? ==> NonEmptyAll(NonEmptyAll(items).value) == NonEmptyAll(items)
  {
    if |items| > 0 && NonEmptyAll(items).Some? {
      NonEmptyAllTwice(items[1..]);
      StripTwice(items[0].text);
      var tail := NonEmptyAll(items[1..]).value;
      assert NonEmptyAll(items).value[1..] == tail;
    }
  }

  /** Constructor normalization is idempotent, argument by argument. */
  lemma NormalizedTwice(w: World, a: Argument, v: Json)
    ensures Normalized(w, a, v).Some? ==> Normalized(w, a, Normalized(w, a, v).value) == Normalized(w, a, v)
  {
    match KindOf(a) {
      case RequiredText => TextTwice(w, a, v);
      case OptionalText => TextTwice(w, a, v);
      case RefList =>
        if v.Arr? {
          NonEmptyAllTwice(v.items);
        }
      case _ => ConstantTwice(w, a, v);
    }
  }

  lemma TextTwice(w: World, a: Argument, v: Json)
    requires KindOf(a) == RequiredText || KindOf(a) == OptionalText
    ensures Normalized(w, a, v).Some? ==> Normalized(w, a, Normalized(w, a, v).value) == Normalized(w, a, v)
  {
    if v.Str? {
      StripTwice(v.text);
    }
  }

  lemma ConstantTwice(w: World, a: Argument, v: Json)
    requires KindOf(a) in {SchemaText, EnumText, ExtensionMap, MustBeTrue, MustBeFalse}
    ensures Normalized(w, a, v).Some? ==> Normalized(w, a, Normalized(w, a, v).value) == Normalized(w, a, v)
  {}

  // ---- The round trip ------------------------------------------------------

  lemma ConstructedValue(w: World, args: map<Argument, Json>, now: string, a: Argument)
    requires Construct(w, args, now).Some?
    ensures var g := Construct(w, args, now).value;
            a in g.values && Value(w, args, a, now) == Some(g.values[a])
                && Normalized(w, a, g.values[a]) == Some(g.values[a])
  {
    assert Value(w, args, a, now).Some?;
    NormalizedTwice(w, a, Given(args, a, now).value);
  }

  // A member of the dictionary is an argument's value, or derived.
  lemma MemberIs(w: World, g: Gateway, m: Member)
    ensures m in ToDict(w, g) ==> !m.UnknownMember?
    ensures m.Arg? ==> (m in ToDict(w, g) <==> m.argument in g.values)
    ensures m.Arg? && m in ToDict(w, g) ==> ToDict(w, g)[m] == g.values[m.argument]
  {
    assert m != GatewayHash ==> (m in ToDict(w, g) <==> m in Body(w, g));
  }

  lemma Restored(dict: map<Member, Json>, values: map<Argument, Json>)
    requires forall a: Argument :: Arg(a) in dict <==> a in values
    requires forall a: Argument | a in values :: dict[Arg(a)] == values[a]
    ensures (map a: Argument | Arg(a) in dict :: dict[Arg(a)]) == values
  {}

  lemma ArgumentsOf(w: World, g: Gateway)
    ensures (map a: Argument | Arg(a) in ToDict(w, g) :: ToDict(w, g)[Arg(a)]) == g.values
    ensures !exists m | m in ToDict(w, g) :: m.UnknownMember?
  {
    forall a: Argument
      ensures Arg(a) in ToDict(w, g) <==> a in g.values
      ensures a in g.values ==> ToDict(w, g)[Arg(a)] == g.values[a]
    {
      MemberIs(w, g, Arg(a));
    }
    Restored(ToDict(w, g), g.values);
    forall m: Member ensures m in ToDict(w, g) ==> !m.UnknownMember? {
      MemberIs(w, g, m);
    }
  }

  /** Building from its own values gives an accepted object back. */
  lemma RebuildsItself(w: World, args: map<Argument, Json>, now: string, later: string)
    requires Construct(w, args, now).Some?
    ensures Construct(w, Construct(w, args, now).value.values, later) == Construct(w, args, now)
  {
    var g := Construct(w, args, now).value;
    forall a: Argument ensures a in g.values && Value(w, g.values, a, later) == Some(g.values[a]) {
      ConstructedValue(w, args, now, a);
    }
    assert (map a: Argument | Value(w, g.values, a, later).Some? :: Value(w, g.values, a, later).value) == g.values;
  }

  /** Custody round trip: every accepted object is rebuilt exactly from its own
      dictionary, at any later time. */
  lemma CustodyRoundTrip(w: World, args: map<Argument, Json>, now: string, later: string)
    requires Construct(w, args, now).Some?
    ensures FromDict(w, ToDict(w, Construct(w, args, now).value), later) == Construct(w, args, now)
  {
    ArgumentsOf(w, Construct(w, args, now).value);
    RebuildsItself(w, args, now, later);
  }

  // Two projections that agree once their hash member is blanked agree on every
  // other member.
  lemma BlankedAgree(p: map<Member, Json>, q: map<Member, Json>, m: Member)
    requires p[GatewayHash := Str("")] == q[GatewayHash := Str("")] && m != GatewayHash
    ensures (m in p <==> m in q) && (m in p ==> p[m] == q[m])
  {
    var bp, bq := p[GatewayHash := Str("")], q[GatewayHash := Str("")];
    assert (m in bp <==> m in p) && (m in bq <==> m in q);
    assert (m in p ==> bp[m] == p[m]) && (m in q ==> bq[m] == q[m]);
  }

  lemma HashMemberIgnored(payload: map<Member, Json>, held: Json)
    ensures payload[GatewayHash := held][GatewayHash := Str("")] == payload[GatewayHash := Str("")]
  {}

  /** The stored hash re-verifies in place, whatever the hash member holds. */
  lemma HashVerifiesInPlace(w: World, g: Gateway, held: Json)
    ensures HashOf(w, ToDict(w, g)[GatewayHash := held]) == HashOf(w, ToDict(w, g))
    ensures ToDict(w, g)[GatewayHash] == Str(HashOf(w, ToDict(w, g)))
  {
    HashMemberIgnored(ToDict(w, g), held);
    HashMemberIgnored(Body(w, g), Str(HashOf(w, Body(w, g))));
  }

  /** Nothing but the hash member can differ between two projections with the
      same hash. */
  lemma HashFixesTheRest(w: World, p: map<Member, Json>, q: map<Member, Json>, m: Member)
    requires forall x, y :: w.digest(x) == w.digest(y) ==> x == y
    requires HashOf(w, p) == HashOf(w, q) && m != GatewayHash
    ensures (m in p <==> m in q) && (m in p ==> p[m] == q[m])
  {
    BlankedAgree(p, q, m);
  }

  // ---- What is accepted ----------------------------------------------------

  // A path in the value ends at a private text, or at a member whose name is
  // private or stands for raw content or a secret.
  predicate Dirty(w: World, v: Json, path: seq<Step>)
  {
    && At(v, path).Some?
    && (|| (At(v, path).value.Str? && PrivateText(At(v, path).value.text))
        || (|path| > 0 && path[|path| - 1].Member?
            && (PrivateText(w.nameOf(path[|path| - 1].key))
                || RawField(Lower(Strip(w.nameOf(path[|path| - 1].key)))))))
  }

  lemma {:induction false} CleanOnEveryPath(w: World, v: Json, path: seq<Step>)
    requires NoRawFields(w, v) && PublicSafe(w, v)
    ensures !Dirty(w, v, path)
    decreases |path|
  {
    if |path| > 0 && At(v, path).Some? {
      var item := if path[0].Member? then v.members[path[0].key] else v.items[path[0].index];
      CleanOnEveryPath(w, item, path[1..]);
      if |path| > 1 {
        assert path[1..][|path[1..]| - 1] == path[|path| - 1];
      }
    }
  }

  lemma DirtyBelow(w: World, v: Json, step: Step, item: Json, path: seq<Step>)
    requires At(v, [step]) == Some(item) && Dirty(w, item, path)
    ensures Dirty(w, v, [step] + path)
  {
    assert ([step] + path)[1..] == path && [step][1..] == [];
    if |path| > 0 {
      assert ([step] + path)[|path|] == path[|path| - 1];
    }
  }

  lemma {:induction false} DirtyPath(w: World, v: Json) returns (path: seq<Step>)
    requires !(NoRawFields(w, v) && PublicSafe(w, v))
    ensures Dirty(w, v, path)
    decreases v
  {
    match v {
      case Str(text) =>
        path := [];
      case Obj(members) =>
        var k :| k in members
                 && (RawField(Lower(Strip(w.nameOf(k)))) || PrivateText(w.nameOf(k))
                     || !NoRawFields(w, members[k]) || !PublicSafe(w, members[k]));
        assert [Member(k)][1..] == [];
        if RawField(Lower(Strip(w.nameOf(k)))) || PrivateText(w.nameOf(k)) {
          path := [Member(k)];
        } else {
          var rest := DirtyPath(w, members[k]);
          path := [Member(k)] + rest;
          DirtyBelow(w, v, Member(k), members[k], rest);
        }
      case Arr(items) =>
        var i :| 0 <= i < |items| && !(NoRawFields(w, items[i]) && PublicSafe(w, items[i]));
        assert [Element(i)][1..] == [];
        var rest := DirtyPath(w, items[i]);
        path := [Element(i)] + rest;
        DirtyBelow(w, v, Element(i), items[i], rest);
      case _ =>
        path := [];
    }
  }

  /** The two walks over a value accept it exactly when no path in it, of any
      length, is dirty. */
  lemma WalksAreExact(w: World, v: Json)
    ensures NoRawFields(w, v) && PublicSafe(w, v) <==> forall path :: !Dirty(w, v, path)
  {
    if NoRawFields(w, v) && PublicSafe(w, v) {
      forall path ensures !Dirty(w, v, path) { CleanOnEveryPath(w, v, path); }
    } else {
      var path := DirtyPath(w, v);
    }
  }

  predicate Named(v: Json)
  {
    v.Str? && !Blank(v.text)
  }

  // The argument may be given this value.
  predicate Fits(w: World, a: Argument, v: Json)
  {
    match a
    case SchemaVersion => v == Str("garp.mcp_record_custody_gateway.v0.1")
    case GatewayEventId | RecordCandidateRef | GeneratedBy | ObservedAt => Named(v)
    case GatewayBoundaryType | GatewayReceiptFamily | GatewayProtocolBinding | GatewayCustodyStatus =>
      v.Str? && InVocabulary(a, v.text)
    case SpanRefs | EventRefs | ReceiptRefs | LinkageRefs | BlockerCodes | RefusalCodes =>
      v == Null || (v.Arr? && forall i | 0 <= i < |v.items| :: Named(v.items[i]))
    case ExtensionsArg => v == Null || (v.Obj? && NoRawFields(w, v))
    case RawPayloadExcluded | PrivatePathRedacted | ToolArgumentsExcluded | CredentialSecretExcluded => v == Bool(true)
    case RecordAdmissionClaimed | McpProtocolModified | McpAuthorityGranted | ModelOutputVerified => v == Bool(false)
    case _ => v == Null || Named(v)
  }

  // The argument has to be given.
  predicate NoDefault(a: Argument)
  {
    a.GatewayEventId? || a.RecordCandidateRef? || a.GeneratedBy? || a.GatewayBoundaryType? || a.GatewayReceiptFamily?
  }

  lemma {:induction false} NonEmptyAllMeans(items: seq<Json>)
    ensures NonEmptyAll(items).Some? <==> forall i | 0 <= i < |items| :: Named(items[i])
  {
    if |items| > 0 {
      NonEmptyMeans(items[0]);
      NonEmptyAllMeans(items[1..]);
      assert forall i | 0 < i < |items| :: items[i] == items[1..][i - 1];
    }
  }

  lemma NonEmptyMeans(v: Json)
    ensures NonEmpty(v).Some? <==> Named(v)
  {
    if v.Str? {
      StripIsEmpty(v.text);
    }
  }

  lemma TextFits(w: World, a: Argument, v: Json)
    requires KindOf(a) == RequiredText || KindOf(a) == OptionalText
    ensures Normalized(w, a, v).Some? <==> Fits(w, a, v)
  {
    NonEmptyMeans(v);
  }

  lemma ListFits(w: World, a: Argument, v: Json)
    requires KindOf(a) == RefList
    ensures Normalized(w, a, v).Some? <==> Fits(w, a, v)
  {
    if v.Arr? {
      NonEmptyAllMeans(v.items);
    }
  }

  lemma ConstantFits(w: World, a: Argument, v: Json)
    requires KindOf(a) in {SchemaText, EnumText, ExtensionMap, MustBeTrue, MustBeFalse}
    ensures Normalized(w, a, v).Some? <==> Fits(w, a, v)
  {}

  lemma NormalizedFits(w: World, a: Argument, v: Json)
    ensures Normalized(w, a, v).Some? <==> Fits(w, a, v)
  {
    match KindOf(a) {
      case RequiredText => TextFits(w, a, v);
      case OptionalText => TextFits(w, a, v);
      case RefList => ListFits(w, a, v);
      case _ => ConstantFits(w, a, v);
    }
  }

  lemma DefaultFits(w: World, a: Argument, now: string)
    requires !Blank(now)
    ensures Default(a, now).Some? <==> !NoDefault(a)
    ensures Default(a, now).Some? ==> Fits(w, a, Default(a, now).value)
  {}

  lemma GivenFits(w: World, args: map<Argument, Json>, a: Argument, now: string)
    requires !Blank(now)
    ensures Value(w, args, a, now).Some? <==> if a in args then Fits(w, a, args[a]) else !NoDefault(a)
  {
    DefaultFits(w, a, now);
    if Given(args, a, now).Some? {
      NormalizedFits(w, a, Given(args, a, now).value);
    }
  }

  /** The constructor accepts its arguments exactly when each one that is given
      fits, no other has to be given, and no normalized value holds raw content, a
      secret or a private path at any depth. */
  lemma AcceptsExactly(w: World, args: map<Argument, Json>, now: string)
    requires !Blank(now)
    ensures Construct(w, args, now).Some? <==>
            && (forall a: Argument :: if a in args then Fits(w, a, args[a]) else !NoDefault(a))
            && (forall a: Argument, path | Value(w, args, a, now).Some? ::
                  !Dirty(w, Value(w, args, a, now).value, path))
  {
    forall a: Argument
      ensures Value(w, args, a, now).Some? <==> if a in args then Fits(w, a, args[a]) else !NoDefault(a)
      ensures Value(w, args, a, now).Some? ==>
                var v := Value(w, args, a, now).value;
                (NoRawFields(w, v) && PublicSafe(w, v) <==> forall path :: !Dirty(w, v, path))
    {
      GivenFits(w, args, a, now);
      if Value(w, args, a, now).Some? {
        WalksAreExact(w, Value(w, args, a, now).value);
      }
    }
    if forall a: Argument :: Value(w, args, a, now).Some? {
      var g := Gateway(map a: Argument | Value(w, args, a, now).Some? :: Value(w, args, a, now).value);
      assert forall a: Argument :: a in g.values && g.values[a] == Value(w, args, a, now).value;
      assert Construct(w, args, now).Some? <==> ProjectionAllowed(w, g);
    }
  }

  /** What building from a dictionary looks at: a member that is no argument and
      none of the three derived ones is an error; the derived ones are not read. */
  lemma OnlyArgumentsRead(w: World, p: map<Member, Json>, q: map<Member, Json>, now: string)
    requires forall m: Member | m.Arg? || m.UnknownMember? ::
               (m in p <==> m in q) && (m in p && m in q ==> p[m] == q[m])
    ensures FromDict(w, p, now) == FromDict(w, q, now)
    ensures (exists name :: UnknownMember(name) in p) ==> FromDict(w, p, now).None?
  {
    assert (map a: Argument | Arg(a) in p :: p[Arg(a)]) == (map a: Argument | Arg(a) in q :: q[Arg(a)]);
    if exists name :: UnknownMember(name) in p {
      var name :| UnknownMember(name) in p;
      assert UnknownMember(name).UnknownMember?;
    }
  }

  // What an argument that may be left out stands for.
  function StandsFor(a: Argument, now: string): Json
  {
    match a
    case SchemaVersion => Str("garp.mcp_record_custody_gateway.v0.1")
    case ObservedAt => Str(Strip(now))
    case GatewayProtocolBinding => Str("mcp")
    case GatewayCustodyStatus => Str("custody_record_ready")
    case SpanRefs | EventRefs | ReceiptRefs | LinkageRefs | BlockerCodes | RefusalCodes => Arr([])
    case ExtensionsArg => Obj(map[])
    case RawPayloadExcluded | PrivatePathRedacted | ToolArgumentsExcluded | CredentialSecretExcluded => Bool(true)
    case RecordAdmissionClaimed | McpProtocolModified | McpAuthorityGranted | ModelOutputVerified => Bool(false)
    case _ => Null
  }

  // What becomes of a value that is given: references and names are stripped, a
  // missing collection is an empty one, and the rest is kept.
  predicate KeptAs(a: Argument, given: Json, v: Json)
  {
    match a
    case SpanRefs | EventRefs | ReceiptRefs | LinkageRefs | BlockerCodes | RefusalCodes =>
      if given == Null then v == Arr([])
      else
        && given.Arr? && v.Arr? && |v.items| == |given.items|
        && forall i | 0 <= i < |v.items| :: given.items[i].Str? && v.items[i] == Str(Strip(given.items[i].text))
    case ExtensionsArg => v == if given == Null then Obj(map[]) else given
    case SchemaVersion | GatewayBoundaryType | GatewayReceiptFamily | GatewayProtocolBinding => v == given
    case GatewayCustodyStatus => v == given
    case _ => v == if given.Str? then Str(Strip(given.text)) else given
  }

  lemma {:induction false} NonEmptyAllKeeps(items: seq<Json>)
    requires NonEmptyAll(items).Some?
    ensures |NonEmptyAll(items).value| == |items|
    ensures forall i | 0 <= i < |items| ::
              items[i].Str? && NonEmptyAll(items).value[i] == Str(Strip(items[i].text))
  {
    if |items| > 0 {
      NonEmptyAllKeeps(items[1..]);
      assert forall i | 0 < i < |items| :: items[i] == items[1..][i - 1];
    }
  }

  /** An accepted object holds, for every argument, what was given, stripped, or
      what the argument stands for when it is left out. */
  lemma AcceptedHolds(w: World, args: map<Argument, Json>, now: string, a: Argument)
    requires Construct(w, args, now).Some? && !Blank(now)
    ensures var g := Construct(w, args, now).value;
            && a in g.values
            && if a in args then KeptAs(a, args[a], g.values[a])
               else !NoDefault(a) && g.values[a] == StandsFor(a, now)
  {
    ConstructedValue(w, args, now, a);
    GivenFits(w, args, a, now);
    if a in args {
      NormalizedKeeps(w, a, args[a]);
    } else {
      DefaultStands(w, a, now);
    }
  }

  lemma NormalizedKeeps(w: World, a: Argument, v: Json)
    requires Normalized(w, a, v).Some?
    ensures KeptAs(a, v, Normalized(w, a, v).value)
  {
    match KindOf(a) {
      case RefList => ListKeeps(w, a, v);
      case RequiredText => TextKeeps(w, a, v);
      case OptionalText => TextKeeps(w, a, v);
      case _ => ConstantKeeps(w, a, v);
    }
  }

  lemma ListKeeps(w: World, a: Argument, v: Json)
    requires KindOf(a) == RefList && Normalized(w, a, v).Some?
    ensures KeptAs(a, v, Normalized(w, a, v).value)
  {
    if v.Arr? {
      NonEmptyAllKeeps(v.items);
    }
  }

  lemma TextKeeps(w: World, a: Argument, v: Json)
    requires (KindOf(a) == RequiredText || KindOf(a) == OptionalText) && Normalized(w, a, v).Some?
    ensures KeptAs(a, v, Normalized(w, a, v).value)
  {}

  lemma ConstantKeeps(w: World, a: Argument, v: Json)
    requires KindOf(a) in {SchemaText, EnumText, ExtensionMap, MustBeTrue, MustBeFalse}
    requires Normalized(w, a, v).Some?
    ensures KeptAs(a, v, Normalized(w, a, v).value)
  {}

  lemma DefaultStands(w: World, a: Argument, now: string)
    requires Default(a, now).Some? && !Blank(now)
    ensures Normalized(w, a, Default(a, now).value) == Some(StandsFor(a, now))
  {
    match KindOf(a) {
      case RequiredText => StripIsEmpty(now);
      case EnumText => EnumStands(w, a, now);
      case _ => PlainStands(w, a, now);
    }
  }

  lemma EnumStands(w: World, a: Argument, now: string)
    requires KindOf(a) == EnumText && Default(a, now).Some?
    ensures Normalized(w, a, Default(a, now).value) == Some(StandsFor(a, now))
  {
    assert ProtocolBindingName("mcp") && CustodyStatusName("custody_record_ready");
  }

  lemma PlainStands(w: World, a: Argument, now: string)
    requires KindOf(a) != EnumText && KindOf(a) != RequiredText
    ensures Default(a, now).Some? && Normalized(w, a, Default(a, now).value) == Some(StandsFor(a, now))
  {}
}
