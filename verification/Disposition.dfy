/** Review objects and review decisions of a gated tool call, and the pure
    readiness summary over them (dagr_mcp/tool_call_disposition.py,
    dagr_mcp/sdk_spine.py). */
module Disposition {
  import opened Prelude
  import opened JsonTrees

  datatype DecisionOutcome = ApprovedOutcome | RejectedOutcome | DeferredOutcome | ExpiredOutcome

  /** The libraries underneath: the stable payload hash, integers in base 16,
      ISO time stamps, and the actor-reference grammar. */
  datatype Host = Host(
    hash: Json -> string,
    hexParses: string -> bool,
    parseTime: string -> Option<int>,
    normalizeActor: string -> Option<string>)

  datatype ReviewDecision = ReviewDecision(
    decision: string, decidedAt: string, actorRef: Option<string>, detail: map<string, Json>)

  /** The payload members of a tool_call_disposition review object that its
      validation reads; the legacy hash is the older spelling of the first. */
  datatype ReviewObject = ReviewObject(
    toolName: string, toolClass: string, policyDecision: string,
    argumentHash: Option<string>, legacyHash: Option<string>, gateTimeoutSeconds: Option<int>)

  datatype ReadinessStatus =
    | PendingStatus | DeferredStatus | RejectedStatus | ExpiredStatus | MismatchStatus | ApprovedStatus

  datatype Readiness = Readiness(
    status: ReadinessStatus, allowsExecution: bool, argumentHash: string, reviewedArgumentHash: string)

  function OutcomeName(o: DecisionOutcome): string
  {
    match o
    case ApprovedOutcome => "approved"
    case RejectedOutcome => "rejected"
    case DeferredOutcome => "deferred"
    case ExpiredOutcome => "expired"
  }

  function StripLeft(s: string): string
  {
    if |s| > 0 && IsSpace(s[0]) then StripLeft(s[1..]) else s
  }

  function StripRight(s: string): string
  {
    if |s| > 0 && IsSpace(s[|s| - 1]) then StripRight(s[..|s| - 1]) else s
  }

  // str.strip
  function Strip(s: string): string
  {
    StripRight(StripLeft(s))
  }

  // The Kelvin sign is the one character beyond ASCII whose lower case is a
  // single ASCII letter.
  function LowerChar(c: char): char
  {
    if 'A' <= c <= 'Z' then c - 'A' + 'a' else if c == '\U{212A}' then 'k' else c
  }

  // str.lower, as far as equality with an ASCII word goes.
  function Lower(s: string): string
  {
    seq(|s|, i requires 0 <= i < |s| => LowerChar(s[i]))
  }

  function OutcomeNamed(key: string): Option<DecisionOutcome>
  {
    if key == OutcomeName(ApprovedOutcome) then Some(ApprovedOutcome)
    else if key == OutcomeName(RejectedOutcome) then Some(RejectedOutcome)
    else if key == OutcomeName(DeferredOutcome) then Some(DeferredOutcome)
    else if key == OutcomeName(ExpiredOutcome) then Some(ExpiredOutcome)
    else None
  }

  // normalize_review_decision_outcome; None is its ValueError.
  function NormalizeOutcome(value: string): Option<DecisionOutcome>
  {
    OutcomeNamed(Lower(Strip(value)))
  }

  predicate ForbiddenDetailKey(k: string)
  {
    k in {"arguments", "raw_arguments", "tool_arguments", "result", "raw_result", "prompt", "raw_prompt",
          "output", "raw_output", "private_corpus_text", "payload", "metadata"}
  }

  // The actor reference of the detail, which must agree with the decision's own.
  predicate DetailActorValid(host: Host, decision: ReviewDecision)
  {
    "actor_ref" in decision.detail ==>
      && decision.detail["actor_ref"].Str?
      && var normalized := host.normalizeActor(decision.detail["actor_ref"].text);
         normalized.Some? && (decision.actorRef.Some? ==> host.normalizeActor(decision.actorRef.value) == normalized)
  }

  // validate_tool_call_disposition_decision
  predicate ValidDecision(host: Host, decision: ReviewDecision)
  {
    && NormalizeOutcome(decision.decision).Some?
    && (forall k | k in decision.detail :: !ForbiddenDetailKey(k))
    && ("review_object_type" in decision.detail ==>
          decision.detail["review_object_type"] == Null
          || decision.detail["review_object_type"] == Str("tool_call_disposition"))
    && (decision.actorRef.Some? ==> host.normalizeActor(decision.actorRef.value).Some?)
    && DetailActorValid(host, decision)
  }

  // hash_tool_call_arguments; None for arguments that are not a mapping.
  function HashArguments(host: Host, arguments: Json): Option<string>
  {
    if arguments.Obj? then Some(host.hash(arguments)) else None
  }

  // _validate_sha256_attestation
  predicate Attested(host: Host, value: string)
  {
    |value| == 71 && value[..7] == "sha256:" && host.hexParses(value[7..])
  }

  // resolved_argument_hash_from_disposition_payload
  function ResolvedHash(review: ReviewObject): Option<string>
  {
    if review.argumentHash.Some? && review.legacyHash.Some? then
      if review.argumentHash == review.legacyHash then review.argumentHash else None
    else if review.argumentHash.Some? then review.argumentHash
    else review.legacyHash
  }

  // validate_tool_call_disposition_review_object
  predicate ValidReviewObject(host: Host, review: ReviewObject)
  {
    && ResolvedHash(review).Some? && Attested(host, ResolvedHash(review).value)
    && (review.gateTimeoutSeconds.Some? ==> review.gateTimeoutSeconds.value > 0)
  }

  // build_tool_call_disposition_review_object; None for its errors. The hash is
  // None for arguments that are not a mapping.
  function ReviewObjectWith(
    host: Host, toolName: string, toolClass: string, policyDecision: string, hash: Option<string>,
    gateTimeout: Option<int>)
    : Option<ReviewObject>
  {
    if Strip(toolName) == "" || Strip(toolClass) == "" || Strip(policyDecision) == "" || hash.None? then None
    else
      var review := ReviewObject(Strip(toolName), Strip(toolClass), Strip(policyDecision), hash, None, gateTimeout);
      if ValidReviewObject(host, review) then Some(review) else None
  }

  function BuildReviewObject(
    host: Host, toolName: string, toolClass: string, policyDecision: string, arguments: Json, gateTimeout: Option<int>)
    : Option<ReviewObject>
  {
    ReviewObjectWith(host, toolName, toolClass, policyDecision, HashArguments(host, arguments), gateTimeout)
  }

  /** tool_call_disposition_execution_readiness; None for its errors. */
  function ExecutionReadiness(
    host: Host, review: ReviewObject, decision: Option<ReviewDecision>, arguments: Json): Option<Readiness>
  {
    if !ValidReviewObject(host, review) || HashArguments(host, arguments).None? then None
    else
      var reviewed, submitted := ResolvedHash(review).value, HashArguments(host, arguments).value;
      match decision
      case None => Some(Readiness(PendingStatus, false, submitted, reviewed))
      case Some(d) =>
        if !ValidDecision(host, d) then None
        else
          match NormalizeOutcome(d.decision).value
          case DeferredOutcome => Some(Readiness(DeferredStatus, false, submitted, reviewed))
          case RejectedOutcome => Some(Readiness(RejectedStatus, false, submitted, reviewed))
          case ExpiredOutcome => Some(Readiness(ExpiredStatus, false, submitted, reviewed))
          case ApprovedOutcome =>
            if submitted != reviewed then Some(Readiness(MismatchStatus, false, submitted, reviewed))
            else Some(Readiness(ApprovedStatus, true, submitted, reviewed))
  }

  // ---- Outcome names -------------------------------------------------------

  lemma NothingToStrip(s: string)
    requires |s| > 0 ==> !IsSpace(s[0]) && !IsSpace(s[|s| - 1])
    ensures Strip(s) == s
  {}

  lemma {:induction false} LeadingSpaces(pad: string, s: string)
    requires Blank(pad) && (|s| > 0 ==> !IsSpace(s[0]))
    ensures StripLeft(pad + s) == s
  {
    if |pad| == 0 {
      assert pad + s == s;
    } else {
      LeadingSpaces(pad[1..], s);
      assert (pad + s)[1..] == pad[1..] + s;
    }
  }

  lemma {:induction false} TrailingSpaces(s: string, pad: string)
    requires Blank(pad) && (|s| > 0 ==> !IsSpace(s[|s| - 1]))
    ensures StripRight(s + pad) == s
  {
    if |pad| == 0 {
      assert s + pad == s;
    } else {
      TrailingSpaces(s, pad[..|pad| - 1]);
      assert (s + pad)[..|s + pad| - 1] == s + pad[..|pad| - 1];
    }
  }

  /** The text is this word, in any letter case and with any white space around. */
  ghost predicate Spells(text: string, word: string)
  {
    exists before, spelled, after ::
      text == before + spelled + after && Blank(before) && Blank(after) && Lower(spelled) == word
  }

  lemma {:induction false} StripLeftSplits(s: string) returns (pad: string)
    ensures Blank(pad) && s == pad + StripLeft(s)
  {
    pad := "";
    if |s| > 0 && IsSpace(s[0]) {
      var rest := StripLeftSplits(s[1..]);
      pad := [s[0]] + rest;
      assert s == [s[0]] + s[1..];
    }
  }

  lemma {:induction false} StripRightSplits(s: string) returns (pad: string)
    ensures Blank(pad) && s == StripRight(s) + pad
  {
    pad := "";
    if |s| > 0 && IsSpace(s[|s| - 1]) {
      var rest := StripRightSplits(s[..|s| - 1]);
      pad := rest + [s[|s| - 1]];
      assert s == s[..|s| - 1] + [s[|s| - 1]];
    }
  }

  lemma StripSplits(s: string) returns (before: string, after: string)
    ensures Blank(before) && Blank(after) && s == before + Strip(s) + after
  {
    before := StripLeftSplits(s);
    after := StripRightSplits(StripLeft(s));
  }

  lemma {:induction false} StripLeftEmpty(s: string)
    ensures StripLeft(s) == "" <==> Blank(s)
  {
    if |s| > 0 && IsSpace(s[0]) {
      StripLeftEmpty(s[1..]);
      assert forall i | 0 < i < |s| :: s[i] == s[1..][i - 1];
    }
  }

  lemma {:induction false} StripRightEmpty(s: string)
    ensures StripRight(s) == "" <==> Blank(s)
  {
    if |s| > 0 && IsSpace(s[|s| - 1]) {
      StripRightEmpty(s[..|s| - 1]);
    }
  }

  lemma StripIsEmpty(s: string)
    ensures Strip(s) == "" <==> Blank(s)
  {
    var before, after := StripSplits(s);
    StripRightEmpty(StripLeft(s));
    StripLeftEmpty(s);
    var pad := StripLeftSplits(s);
  }

  // The hash is "sha256:" and 64 digits of base 16.
  predicate AttestedDigest(host: Host, hash: string)
  {
    |hash| == 71 && hash[..7] == "sha256:" && host.hexParses(hash[7..])
  }

  /** A review object is built exactly when tool, class and policy decision are
      named, the digest is attested, and any time-out is positive. */
  lemma ReviewIsBuilt(
    host: Host, toolName: string, toolClass: string, policyDecision: string, hash: Option<string>,
    gateTimeout: Option<int>)
    ensures ReviewObjectWith(host, toolName, toolClass, policyDecision, hash, gateTimeout).Some? <==>
            && !Blank(toolName) && !Blank(toolClass) && !Blank(policyDecision)
            && (match hash case Some(digest) => AttestedDigest(host, digest) case None => false)
            && (match gateTimeout case Some(seconds) => seconds > 0 case None => true)
  {
    StripIsEmpty(toolName);
    StripIsEmpty(toolClass);
    StripIsEmpty(policyDecision);
  }

  lemma GateIsNamed()
    ensures !Blank("gate")
  {
    assert "gate"[0] == 'g';
  }

  // Surrounding white space and letter case do not matter.
  lemma OutcomeRecognised(before: string, spelled: string, after: string, o: DecisionOutcome)
    requires Blank(before) && Blank(after) && Lower(spelled) == OutcomeName(o)
    ensures NormalizeOutcome(before + spelled + after) == Some(o)
  {
    var name := OutcomeName(o);
    assert |spelled| == |Lower(spelled)| == |name| > 0;
    assert LowerChar(spelled[0]) == name[0] && LowerChar(spelled[|name| - 1]) == name[|name| - 1];
    assert before + spelled + after == before + (spelled + after);
    LeadingSpaces(before, spelled + after);
    TrailingSpaces(spelled, after);
    NamesDiffer();
  }

  /** A decision is recognised as an outcome exactly when it spells its name; any
      other text is the ValueError. */
  lemma OutcomeIsSpelled(value: string, o: DecisionOutcome)
    ensures NormalizeOutcome(value) == Some(o) <==> Spells(value, OutcomeName(o))
  {
    if NormalizeOutcome(value) == Some(o) {
      var before, after := StripSplits(value);
      assert Lower(Strip(value)) == OutcomeName(o);
    }
    if Spells(value, OutcomeName(o)) {
      var before, spelled, after :|
        value == before + spelled + after && Blank(before) && Blank(after) && Lower(spelled) == OutcomeName(o);
      OutcomeRecognised(before, spelled, after, o);
    }
  }

  lemma NamesDiffer()
    ensures forall o :: OutcomeNamed(OutcomeName(o)) == Some(o)
  {
    assert OutcomeName(ApprovedOutcome)[0] == 'a' && OutcomeName(RejectedOutcome)[0] == 'r';
    assert OutcomeName(DeferredOutcome)[0] == 'd' && OutcomeName(ExpiredOutcome)[0] == 'e';
  }
}
