/** JSON trees as the receipt code holds them, and the walk that keeps raw
    content out of every receipt (dagr_mcp/srs_receipts.py). */
module JsonTrees {
  import opened Prelude

  /** The member names receipts are built from. */
  datatype Field =
    | ReceiptVersion | ProfileId | ProfileVersion | ReceiptId | ReceiptType | ReceiptKind
    | BoundaryType | ProtocolBinding | SubjectRef | SubjectRefOrigin | IssuerId
    | RuntimeInstanceId | BoundaryId | LogicalCallId | IssuedAt | ArtifactClassesCovered
    | ArtifactClassesExcluded | AttestationLimits | RetentionClassApplied | Extensions
    | ReceiptSignature | ActorRef | TenantId | WorkspaceId | ParentReceiptRef
    | RequestedToolName | ToolResolutionStatus | ArgumentDigest | PolicyPackId
    | PolicyPackVersion | DispositionField | ReviewObjectRef | RetryContract | ReasonCode
    | AdmissionReceiptRef | OutcomeField | ResultDigest
    | RequestCancelled | ExecutionStateUnknown | DeliveryIncomplete
    | Mcp | BindingVersion | ExceptionClass
    | Algorithm | Canonicalization | KeyId | SignatureValue
    | Content | StructuredContent | Meta | IsError

  /** A member name; `Other(n)` stands for a name n that is not a field's. */
  datatype Key = Known(field: Field) | Other(name: string)

  /** Objects are maps, so two trees without an `Other` key that spells a field's
      name are equal exactly when their canonical forms (section 3.2 of RFC 8785)
      are. Nothing here builds such a key. */
  datatype Json =
    | Null
    | Bool(flag: bool)
    | Num(n: int)
    | Str(text: string)
    | Arr(items: seq<Json>)
    | Obj(members: map<Key, Json>)

  datatype ContentError = ForbiddenKey(key: Key) | PrivateMarker(text: string)

  // RAW_KEYS
  predicate RawKey(k: Key)
  {
    k.Other? && k.name in {
      "prompt_text", "transcript", "raw_payload", "tool_arguments", "arguments",
      "result_body", "headers", "prompt", "raw_prompt", "raw_output", "result",
      "tool_result", "request_body", "response_body", "access_token", "private_key",
      "credential_secret", "client_secret", "refresh_token", "api_key", "password" }
  }

  // PRIVATE_MARKERS
  predicate Marked(text: string)
  {
    || Occurs("/Users/", text)
    || Occurs("/home/", text)
    || Occurs("/private/var", text)
    || Occurs("C:\\\\", text)
    || Occurs("~/garp-", text)
    || Occurs("~/arcs-anchor", text)
  }

  predicate MarkedText(v: Json)
  {
    v.Str? && Marked(v.text)
  }

  // The visitor's own recursion, as a predicate.
  predicate RawContentFree(v: Json)
  {
    match v
    case Obj(members) => forall k | k in members :: !RawKey(k) && !MarkedText(members[k]) && RawContentFree(members[k])
    case Arr(items) => forall i | 0 <= i < |items| :: !MarkedText(items[i]) && RawContentFree(items[i])
    case _ => true
  }

  datatype Step = Member(key: Key) | Element(index: nat)

  // What a path from the root leads to, if anything.
  function At(v: Json, path: seq<Step>): Option<Json>
  {
    if |path| == 0 then Some(v)
    else
      match path[0]
      case Member(k) => if v.Obj? && k in v.members then At(v.members[k], path[1..]) else None
      case Element(i) => if v.Arr? && i < |v.items| then At(v.items[i], path[1..]) else None
  }

  // The member or element a non-empty path leads to breaks a rule.
  predicate Violates(v: Json, path: seq<Step>, error: ContentError)
  {
    && |path| > 0
    && At(v, path).Some?
    && match error
       case ForbiddenKey(k) => RawKey(k) && path[|path| - 1] == Member(k)
       case PrivateMarker(text) => Marked(text) && At(v, path).value == Str(text)
  }

  ghost predicate Violation(v: Json, error: ContentError)
  {
    exists path :: Violates(v, path, error)
  }

  lemma ViolationBelow(v: Json, step: Step, item: Json, error: ContentError)
    requires At(v, [step]) == Some(item)
    requires Violation(item, error)
    ensures Violation(v, error)
  {
    var path :| Violates(item, path, error);
    assert ([step] + path)[1..] == path;
    assert At(v, [step]) == Some(item) ==> At(v, [step] + path) == At(item, path) by {
      assert [step][1..] == [];
    }
    assert Violates(v, [step] + path, error);
  }

  /** enforce_raw_content_exclusion over _walk: members and elements are
      visited in some order, each before what it holds, and the first violation
      met is raised. The walk accepts exactly the raw-content-free trees, and an
      error always names a violation the tree really holds. */
  method EnforceRawContentExclusion(v: Json) returns (error: Option<ContentError>)
    ensures error.None? <==> RawContentFree(v)
    ensures error.Some? ==> Violation(v, error.value)
    decreases v
  {
    match v {
      case Obj(members) =>
        var unvisited := members.Keys;
        while unvisited != {}
          invariant unvisited <= members.Keys
          invariant forall k | k in members.Keys - unvisited ::
              !RawKey(k) && !MarkedText(members[k]) && RawContentFree(members[k])
        {
          var k :| k in unvisited;
          assert At(v, [Member(k)]) == Some(members[k]);
          if RawKey(k) {
            assert Violates(v, [Member(k)], ForbiddenKey(k));
            return Some(ForbiddenKey(k));
          }
          if MarkedText(members[k]) {
            assert Violates(v, [Member(k)], PrivateMarker(members[k].text));
            return Some(PrivateMarker(members[k].text));
          }
          error := EnforceRawContentExclusion(members[k]);
          if error.Some? {
            ViolationBelow(v, Member(k), members[k], error.value);
            return;
          }
          unvisited := unvisited - {k};
        }
      case Arr(items) =>
        var i := 0;
        while i < |items|
          invariant 0 <= i <= |items|
          invariant forall j | 0 <= j < i :: !MarkedText(items[j]) && RawContentFree(items[j])
        {
          assert At(v, [Element(i)]) == Some(items[i]);
          if MarkedText(items[i]) {
            assert Violates(v, [Element(i)], PrivateMarker(items[i].text));
            return Some(PrivateMarker(items[i].text));
          }
          error := EnforceRawContentExclusion(items[i]);
          if error.Some? {
            ViolationBelow(v, Element(i), items[i], error.value);
            return;
          }
          i := i + 1;
        }
      case _ =>
    }
    error := None;
  }

  // A raw-content-free tree breaks no rule at any depth, on any path.
  lemma {:induction false} FreeOnEveryPath(v: Json, path: seq<Step>, error: ContentError)
    requires RawContentFree(v)
    ensures !Violates(v, path, error)
    decreases |path|
  {
    if |path| > 0 && At(v, path).Some? {
      var item := if path[0].Member? then v.members[path[0].key] else v.items[path[0].index];
      FreeOnEveryPath(item, path[1..], error);
      assert At(v, path) == At(item, path[1..]);
    }
  }

  /** The walk is exact at every depth: it accepts a tree exactly when no path
      from the root, however long, ends at a forbidden key or at a marked text. */
  lemma WalkIsExact(v: Json)
    ensures RawContentFree(v) <==> forall path, error :: !Violates(v, path, error)
  {
    if RawContentFree(v) {
      forall path, error ensures !Violates(v, path, error) { FreeOnEveryPath(v, path, error); }
    } else {
      ViolationExists(v);
    }
  }

  lemma {:induction false} ViolationExists(v: Json)
    requires !RawContentFree(v)
    ensures exists error :: Violation(v, error)
    decreases v
  {
    var step, item;
    if v.Obj? {
      var k :| k in v.members && !(!RawKey(k) && !MarkedText(v.members[k]) && RawContentFree(v.members[k]));
      step, item := Member(k), v.members[k];
    } else {
      var i :| 0 <= i < |v.items| && !(!MarkedText(v.items[i]) && RawContentFree(v.items[i]));
      step, item := Element(i), v.items[i];
    }
    assert At(v, [step]) == Some(item);
    if step.Member? && RawKey(step.key) {
      assert Violates(v, [step], ForbiddenKey(step.key));
      assert Violation(v, ForbiddenKey(step.key));
    } else if MarkedText(item) {
      assert Violates(v, [step], PrivateMarker(item.text));
      assert Violation(v, PrivateMarker(item.text));
    } else {
      ViolationExists(item);
      var error :| Violation(item, error);
      ViolationBelow(v, step, item, error);
    }
  }

  /** Acceptance is inherited by everything the tree holds. */
  lemma {:induction false} AcceptanceInherited(v: Json, path: seq<Step>)
    requires RawContentFree(v) && At(v, path).Some?
    ensures RawContentFree(At(v, path).value)
    decreases |path|
  {
    if |path| > 0 {
      var item := if path[0].Member? then v.members[path[0].key] else v.items[path[0].index];
      AcceptanceInherited(item, path[1..]);
    }
  }
}
