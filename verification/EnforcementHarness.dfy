/** The enforcement harness (dagr_mcp/enforcement_harness.py): one wrapped call
    has about ten exits, and every effect it has on the outside passes through
    the sinks, the receipt bridge and the inner handler. `Outside` stands for
    them: it answers as it likes and remembers, in order, what it was asked. */
module EnforcementHarness {
  import opened Prelude
  import opened PayloadHash
  import Disposition

  datatype PolicyValue = Allow | Deny | Defer | Gate | FailClosed

  datatype EventType = Requested | Rejected | Gated | Failed | Executed

  datatype SinkKind = EventSink | ReceiptSink | ReviewSink | ArtifactSink | LintSink

  datatype SinkStatus = Available | Degraded | Unavailable | Unknown

  datatype HealthAnswer = HealthRaised | Health(status: SinkStatus, writable: bool)

  // What writing an event or a receipt comes to: a reference,
  // SinkUnavailableError, or another exception.
  datatype SinkAnswer = Accepts | SinkUnavailable | SinkBroken

  datatype AdmissionDisposition = AdmittedReceipt | RefusedReceipt | DeferredReceipt

  /** What the outside was asked, with its answer. */
  datatype Action =
    | SinkChecked(name: string, failure: Option<FailureReason>)
    | EventWritten(ref: nat, event: EventType, lineage: seq<nat>)
    | EventLost(event: EventType)
    | EventBroken(event: EventType)
    | AdmissionEmitted(disposition: AdmissionDisposition, accepted: bool)
    | OutcomeEmitted(accepted: bool)
    | ReviewCreated(accepted: bool)
    | InnerCalled(returned: bool)
    | ReceiptWritten(answer: SinkAnswer)

  datatype FailureReason =
    | UnavailableSink(name: string) | DegradedSink(name: string)
    | UnknownTool | Denied | Deferred | FailedClosed
    | PreExecutionReceiptFailure | ArgumentsNotMapping | DispositionInvalid
    | InnerException | ReceiptWriteFailed | GatedPending

  datatype ToolPolicy = ToolPolicy(
    toolClass: string, decision: PolicyValue, receiptRequired: bool, reviewRequired: bool,
    requiredSinks: seq<string>, reason: Option<string>, gateTimeoutSeconds: Option<int>)

  datatype SinkRequirements = SinkRequirements(
    event: bool, receipt: bool, artifact: bool, review: bool, lint: bool, toleratesDegraded: bool)

  datatype HarnessConfig = HarnessConfig(
    failClosedOnUnknownTool: bool, defaultReceiptRequired: bool,
    policies: map<string, ToolPolicy>, profile: Option<SinkRequirements>,
    sinks: set<SinkKind>, hasBridge: bool)

  datatype PolicyDecision = PolicyDecision(
    decision: PolicyValue, reason: string, requiredSinks: seq<string>, receiptRequired: bool)

  datatype GovernedResult = GovernedResult(ok: bool, result: Option<Value>, failure: Option<FailureReason>,
                                           eventRefs: seq<nat>)

  /** A result, or an exception that is not caught. */
  datatype Outcome<T> = Returned(value: T) | Escaped
  {
    predicate IsFailure() { Escaped? }
    function PropagateFailure<U>(): Outcome<U> requires Escaped? { Escaped }
    function Extract(): T requires Returned? { value }
  }

  // ---- Sink names and policies ---------------------------------------------

  predicate EndsWith(s: string, suffix: string)
  {
    |suffix| <= |s| && s[|s| - |suffix|..] == suffix
  }

  function SinkSuffix(): string { "_sink" }

  // _normalize_sink_name
  function NormalizeSinkName(name: string): string
  {
    if name == "review_object" || name == "review_object" + SinkSuffix() then "review"
    else if EndsWith(name, SinkSuffix()) then name[..|name| - |SinkSuffix()|]
    else name
  }

  function NormalizedNames(names: seq<string>): (normalized: seq<string>)
    ensures |normalized| == |names|
    ensures forall i | 0 <= i < |names| :: normalized[i] == NormalizeSinkName(names[i])
  {
    seq(|names|, i requires 0 <= i < |names| => NormalizeSinkName(names[i]))
  }

  predicate NoRepetition(names: seq<string>)
  {
    forall i, j | 0 <= i < j < |names| :: names[i] != names[j]
  }

  // The loop of _normalized_required_sinks and of _effective_required_sinks:
  // each name normalized and appended once, in order.
  method MergeNames(names: seq<string>) returns (merged: seq<string>)
    ensures merged == Joined([], NormalizedNames(names))
    ensures Unites([], NormalizedNames(names), merged)
    ensures NoRepetition(merged)
  {
    merged := [];
    ghost var normalized := NormalizedNames(names);
    JoinedUnites([], normalized);
    var i := 0;
    while i < |names|
      invariant 0 <= i <= |names|
      invariant Joined([], normalized) == Joined(merged, normalized[i..])
    {
      assert normalized[i..][1..] == normalized[i + 1..];
      merged := AppendUnique(merged, NormalizeSinkName(names[i]));
      i := i + 1;
    }
  }

  function AppendIf(values: seq<string>, needed: bool, value: string): seq<string>
  {
    if needed then AppendUnique(values, value) else values
  }

  // _normalized_required_sinks
  function RequiredSinks(policy: ToolPolicy, receiptRequired: bool): seq<string>
  {
    var named := Joined([], NormalizedNames(["event"] + policy.requiredSinks));
    AppendIf(AppendIf(named, receiptRequired, "receipt"), policy.reviewRequired || policy.decision == Gate, "review")
  }

  function PolicyName(value: PolicyValue): string
  {
    match value
    case Allow => "allow" case Deny => "deny" case Defer => "defer" case Gate => "gate" case FailClosed => "fail_closed"
  }

  // _evaluate_policy
  function EvaluatePolicy(config: HarnessConfig, toolName: string): PolicyDecision
  {
    if toolName !in config.policies then
      if config.failClosedOnUnknownTool then PolicyDecision(FailClosed, "unknown_tool", ["event"], false)
      else
        PolicyDecision(Allow, "unknown_tool_allowed:" + toolName,
                       ["event"] + (if config.defaultReceiptRequired then ["receipt"] else []),
                           config.defaultReceiptRequired)
    else
      var policy := config.policies[toolName];
      var receiptRequired := policy.receiptRequired || config.defaultReceiptRequired;
      PolicyDecision(
        policy.decision,
        if policy.reason.Some? && policy.reason.value != "" then policy.reason.value
        else "policy_" + PolicyName(policy.decision),
        RequiredSinks(policy, receiptRequired), receiptRequired)
  }

  // _effective_required_sinks
  function EffectiveSinks(decision: PolicyDecision, profile: Option<SinkRequirements>): seq<string>
  {
    var merged := Joined([], NormalizedNames(decision.requiredSinks));
    match profile
    case None => merged
    case Some(r) =>
      AppendIf(AppendIf(AppendIf(AppendIf(AppendIf(merged, r.event, "event"), r.receipt, "receipt"),
                                 r.artifact, "artifact"), r.review, "review"), r.lint, "lint")
  }

  method EffectiveRequiredSinks(
    decision: PolicyDecision, profile: Option<SinkRequirements>) returns (merged: seq<string>)
    ensures merged == EffectiveSinks(decision, profile)
  {
    merged := MergeNames(decision.requiredSinks);
    if profile.Some? {
      var required := profile.value;
      merged := AppendIf(merged, required.event, "event");
      merged := AppendIf(merged, required.receipt, "receipt");
      merged := AppendIf(merged, required.artifact, "artifact");
      merged := AppendIf(merged, required.review, "review");
      merged := AppendIf(merged, required.lint, "lint");
    }
  }

  // The sinks a profile asks for by name.
  predicate ProfileRequires(profile: Option<SinkRequirements>, name: string)
  {
    match profile
    case None => false
    case Some(r) =>
      || (r.event && name == "event") || (r.receipt && name == "receipt") || (r.artifact && name == "artifact")
      || (r.review && name == "review") || (r.lint && name == "lint")
  }

  lemma AppendIfMeans(values: seq<string>, needed: bool, value: string)
    ensures forall x :: x in AppendIf(values, needed, value) <==> x in values || (needed && x == value)
    ensures NoRepetition(values) ==> NoRepetition(AppendIf(values, needed, value))
  {}

  /** The sinks a call has to have are those its decision names, normalized, and
      those the profile asks for, each once. */
  lemma EffectiveSinksAre(decision: PolicyDecision, profile: Option<SinkRequirements>, name: string)
    ensures name in EffectiveSinks(decision, profile) <==>
            name in NormalizedNames(decision.requiredSinks) || ProfileRequires(profile, name)
    ensures NoRepetition(EffectiveSinks(decision, profile))
  {
    var named := Joined([], NormalizedNames(decision.requiredSinks));
    JoinedUnites([], NormalizedNames(decision.requiredSinks));
    assert name in named <==> name in NormalizedNames(decision.requiredSinks);
    if profile.Some? {
      var r := profile.value;
      AppendIfMeans(named, r.event, "event");
      var withEvent := AppendIf(named, r.event, "event");
      AppendIfMeans(withEvent, r.receipt, "receipt");
      var withReceipt := AppendIf(withEvent, r.receipt, "receipt");
      AppendIfMeans(withReceipt, r.artifact, "artifact");
      var withArtifact := AppendIf(withReceipt, r.artifact, "artifact");
      AppendIfMeans(withArtifact, r.review, "review");
      AppendIfMeans(AppendIf(withArtifact, r.review, "review"), r.lint, "lint");
    }
  }

  // _sink_by_name
  function SinkByName(name: string): Option<SinkKind>
  {
    if name == "event" then Some(EventSink)
    else if name == "receipt" then Some(ReceiptSink)
    else if name == "review" then Some(ReviewSink)
    else if name == "artifact" then Some(ArtifactSink)
    else if name == "lint" || name == "lint_finding" then Some(LintSink)
    else None
  }

  // What a health answer makes of a required sink.
  function HealthFailure(name: string, answer: HealthAnswer, tolerant: bool): Option<FailureReason>
  {
    match answer
    case HealthRaised => Some(UnavailableSink(name))
    case Health(status, writable) =>
      if status == Available && writable then None
      else if status == Degraded then if tolerant && writable then None else Some(DegradedSink(name))
      else Some(UnavailableSink(name))
  }

  function DecisionFailure(decision: PolicyDecision): FailureReason
  {
    if decision.reason == "unknown_tool" then UnknownTool
    else match decision.decision case Deny => Denied case Defer => Deferred case _ => FailedClosed
  }

  lemma NotEndsWith(s: string, suffix: string, i: nat)
    requires i < |suffix| <= |s| && s[|s| - |suffix| + i] != suffix[i]
    ensures !EndsWith(s, suffix)
  {}

  lemma SuffixTwice(once: string, suffix: string)
    ensures EndsWith(once + suffix, suffix + suffix) <==> EndsWith(once, suffix)
  {
    var name := once + suffix;
    if EndsWith(once, suffix) {
      assert name[|name| - 2 * |suffix|..] == suffix + suffix;
    } else if |suffix| <= |once| {
      assert name[|name| - 2 * |suffix|..][..|suffix|] == once[|once| - |suffix|..];
    }
  }

  lemma SuffixOnce(name: string, suffix: string)
    requires !EndsWith(name, suffix)
    ensures !EndsWith(name, suffix + suffix)
  {
    if |name| >= 2 * |suffix| {
      assert name[|name| - 2 * |suffix|..][|suffix|..] == name[|name| - |suffix|..];
    }
  }

  lemma PlainName()
    ensures NormalizeSinkName("event") == "event"
  {
    NotEndsWith("event", SinkSuffix(), 4);
  }

  /** Normalizing a sink name twice changes nothing exactly when the name does
      not end in the suffix twice over. */
  lemma NormalizeTwice(name: string)
    ensures NormalizeSinkName(NormalizeSinkName(name)) == NormalizeSinkName(name) <==>
            !EndsWith(name, SinkSuffix() + SinkSuffix())
  {
    var suffix := SinkSuffix();
    assert |suffix| == 5 && (suffix + suffix)[9] == 'k' && (suffix + suffix)[4] == 'k';
    if name == "review_object" {
      NotEndsWith(name, suffix + suffix, 9);
    } else if name == "review_object" + suffix {
      NotEndsWith(name, suffix + suffix, 4);
    } else if EndsWith(name, suffix) {
      assert name == name[..|name| - 5] + suffix;
      SuffixTwice(name[..|name| - 5], suffix);
    } else {
      SuffixOnce(name, suffix);
    }
  }

  predicate Plainly(name: string, plain: string)
  {
    name == plain || name == plain + "_sink"
  }

  // The ways to write the name of a sink.
  predicate Spells(name: string, kind: SinkKind)
  {
    match kind
    case EventSink => Plainly(name, "event")
    case ReceiptSink => Plainly(name, "receipt")
    case ReviewSink => Plainly(name, "review") || Plainly(name, "review_object")
    case ArtifactSink => Plainly(name, "artifact")
    case LintSink => Plainly(name, "lint") || Plainly(name, "lint_finding")
  }

  lemma SuffixDropped(name: string, plain: string)
    ensures EndsWith(name, SinkSuffix()) ==>
              (name[..|name| - |SinkSuffix()|] == plain <==> name == plain + SinkSuffix())
  {
    if EndsWith(name, SinkSuffix()) {
      assert name == name[..|name| - |SinkSuffix()|] + SinkSuffix();
    }
  }

  lemma SamePrefix(a: string, b: string, suffix: string)
    ensures a + suffix == b + suffix <==> a == b
  {
    if a + suffix == b + suffix {
      assert |a| == |b| && a == (a + suffix)[..|a|] && b == (b + suffix)[..|b|];
    }
  }

  // What normalizes to a plain name other than review.
  lemma PlainSpelling(name: string, plain: string)
    requires plain != "review" && plain != "review_object" && !EndsWith(plain, SinkSuffix())
    ensures NormalizeSinkName(name) == plain <==> name == plain || name == plain + SinkSuffix()
  {
    SuffixDropped(name, plain);
    assert EndsWith(plain + SinkSuffix(), SinkSuffix());
    SamePrefix(plain, "review_object", SinkSuffix());
  }

  lemma ReviewSpelling(name: string)
    ensures NormalizeSinkName(name) == "review" <==>
            || name == "review" || name == "review" + SinkSuffix()
            || name == "review_object" || name == "review_object" + SinkSuffix()
  {
    PlainNames();
    SuffixDropped(name, "review");
    assert EndsWith("review" + SinkSuffix(), SinkSuffix());
  }

  lemma KindByName(plain: string)
    ensures SinkByName(plain) == Some(EventSink) <==> plain == "event"
    ensures SinkByName(plain) == Some(ReceiptSink) <==> plain == "receipt"
    ensures SinkByName(plain) == Some(ReviewSink) <==> plain == "review"
    ensures SinkByName(plain) == Some(ArtifactSink) <==> plain == "artifact"
    ensures SinkByName(plain) == Some(LintSink) <==> plain == "lint" || plain == "lint_finding"
  {}

  /** A sink is found exactly under its own spellings. */
  lemma SinkIsFound(name: string, kind: SinkKind)
    ensures SinkByName(NormalizeSinkName(name)) == Some(kind) <==> Spells(name, kind)
  {
    KindByName(NormalizeSinkName(name));
    match kind {
      case EventSink =>
        NotEndsWith("event", SinkSuffix(), 4);
        PlainSpelling(name, "event");
      case ReceiptSink =>
        NotEndsWith("receipt", SinkSuffix(), 4);
        PlainSpelling(name, "receipt");
      case ReviewSink =>
        ReviewSpelling(name);
      case ArtifactSink =>
        NotEndsWith("artifact", SinkSuffix(), 4);
        PlainSpelling(name, "artifact");
      case LintSink =>
        NotEndsWith("lint_finding", SinkSuffix(), 4);
        PlainSpelling(name, "lint");
        PlainSpelling(name, "lint_finding");
    }
  }

  // ---- What a call leaves behind -------------------------------------------

  /** What a call does beside checking sinks and writing events. */
  datatype Effect = Admitting(disposition: AdmissionDisposition) | Reviewing | Handling | Concluding | Receipting

  function EffectOf(a: Action): seq<Effect>
  {
    match a
    case AdmissionEmitted(disposition, _) => [Admitting(disposition)]
    case OutcomeEmitted(_) => [Concluding]
    case ReviewCreated(_) => [Reviewing]
    case InnerCalled(_) => [Handling]
    case ReceiptWritten(_) => [Receipting]
    case _ => []
  }

  // A sink raised something other than SinkUnavailableError.
  predicate Broken(a: Action)
  {
    a.EventBroken? || (a.ReceiptWritten? && a.answer.SinkBroken?)
  }

  /** What a log comes to: the references and the types of the events written,
      everything else that was done, whatever the answers were, all in order; how
      often the handler was called, and whether a sink broke. */
  datatype Trace = Trace(chain: seq<nat>, types: seq<EventType>, done: seq<Effect>, runs: nat, broken: bool)

  function Extend(trace: Trace, a: Action): Trace
  {
    match a
    case EventWritten(ref, event, _) => trace.(chain := trace.chain + [ref], types := trace.types + [event])
    case InnerCalled(_) => trace.(done := trace.done + [Handling], runs := trace.runs + 1)
    case AdmissionEmitted(_, _) | OutcomeEmitted(_) | ReviewCreated(_) => trace.(done := trace.done + EffectOf(a))
    case ReceiptWritten(_) => trace.(done := trace.done + [Receipting], broken := trace.broken || Broken(a))
    case SinkChecked(_, _) | EventLost(_) | EventBroken(_) => trace.(broken := trace.broken || Broken(a))
  }

  function TraceOf(log: seq<Action>): Trace
  {
    if |log| == 0 then Trace([], [], [], 0, false) else Extend(TraceOf(log[..|log| - 1]), log[|log| - 1])
  }

  function Chain(log: seq<Action>): seq<nat>
  {
    TraceOf(log).chain
  }

  function Types(log: seq<Action>): seq<EventType>
  {
    TraceOf(log).types
  }

  predicate Increasing(refs: seq<nat>)
  {
    forall i, j | 0 <= i < j < |refs| :: refs[i] < refs[j]
  }

  // Each event names exactly the events written before it, in order.
  predicate LineageExact(log: seq<Action>)
  {
    forall k | 0 <= k < |log| && log[k].EventWritten? :: log[k].lineage == Chain(log[..k])
  }

  // The checks of the first n names passed.
  predicate Passed(names: seq<string>, n: nat, log: seq<Action>)
    requires n <= |names|
  {
    forall i | 0 <= i < n :: SinkChecked(NormalizeSinkName(names[i]), None) in log
  }

  predicate EffectivePassed(config: HarnessConfig, toolName: string, log: seq<Action>)
  {
    var effective := EffectiveSinks(EvaluatePolicy(config, toolName), config.profile);
    Passed(effective, |effective|, log)
  }

  // What must have happened before the inner handler may be called.
  predicate Cleared(config: HarnessConfig, toolName: string, log: seq<Action>)
  {
    && EvaluatePolicy(config, toolName).decision == Allow
    && |Types(log)| > 0 && Types(log)[0] == Requested
    && EffectivePassed(config, toolName, log)
    && (config.hasBridge ==> AdmissionEmitted(AdmittedReceipt, true) in log)
  }

  // The handler is called at most once, and only when cleared.
  predicate Governed(config: HarnessConfig, toolName: string, log: seq<Action>)
  {
    && TraceOf(log).runs <= 1
    && forall k | 0 <= k < |log| && log[k].InnerCalled? :: Cleared(config, toolName, log[..k])
  }

  predicate SinkMissing(config: HarnessConfig, name: string)
  {
    SinkByName(name).None? || SinkByName(name).value !in config.sinks
  }

  // The policy asks for a receipt of the call.
  predicate ReceiptNeeded(config: HarnessConfig, toolName: string)
  {
    if toolName in config.policies then config.policies[toolName].receiptRequired || config.defaultReceiptRequired
    else !config.failClosedOnUnknownTool && config.defaultReceiptRequired
  }

  // The policy lets the handler run.
  predicate MayRun(config: HarnessConfig, toolName: string)
  {
    if toolName in config.policies then config.policies[toolName].decision == Allow
    else !config.failClosedOnUnknownTool
  }

  // A sink that the policy lists, under the name it comes to in the checks: names
  // are normalized when they are listed, when they are joined and when they are
  // looked up.
  predicate Lists(config: HarnessConfig, toolName: string, name: string)
  {
    && toolName in config.policies
    && exists listed | listed in config.policies[toolName].requiredSinks ::
         name == NormalizeSinkName(NormalizeSinkName(NormalizeSinkName(listed)))
  }

  // The sinks a call has to have, told from its policy and profile.
  predicate MustHave(config: HarnessConfig, toolName: string, name: string)
  {
    || name == "event" || Lists(config, toolName, name)
    || (name == "receipt" && ReceiptNeeded(config, toolName))
    || (name == "review" && toolName in config.policies
        && (config.policies[toolName].reviewRequired || config.policies[toolName].decision == Gate))
    || ProfileRequires(config.profile, name)
  }

  // The profile accepts a degraded sink.
  predicate Tolerant(config: HarnessConfig)
  {
    config.profile.Some? && config.profile.value.toleratesDegraded
  }

  predicate Healthy(answer: HealthAnswer, tolerant: bool)
  {
    answer == Health(Available, true) || (tolerant && answer == Health(Degraded, true))
  }

  // A recorded check tells how the configured sink of that name answered.
  predicate CheckTold(config: HarnessConfig, health: (SinkKind, nat) -> HealthAnswer, a: Action, k: nat)
    requires a.SinkChecked?
  {
    && !SinkMissing(config, a.name)
    && var answer := health(SinkByName(a.name).value, k);
       a.failure == if Healthy(answer, Tolerant(config)) then None
                    else if answer.Health? && answer.status == Degraded then Some(DegradedSink(a.name))
                    else Some(UnavailableSink(a.name))
  }

  predicate ChecksTold(config: HarnessConfig, health: (SinkKind, nat) -> HealthAnswer, log: seq<Action>)
  {
    forall k | 0 <= k < |log| && log[k].SinkChecked? :: CheckTold(config, health, log[k], k)
  }

  lemma HealthTold(
    config: HarnessConfig, health: (SinkKind, nat) -> HealthAnswer, kind: SinkKind, name: string, k: nat)
    requires SinkByName(name) == Some(kind) && kind in config.sinks
    ensures CheckTold(config, health, SinkChecked(name, HealthFailure(name, health(kind, k), Tolerant(config))), k)
  {}

  // Sink j was found healthy before the k-th action.
  ghost predicate FoundHealthy(
    config: HarnessConfig, health: (SinkKind, nat) -> HealthAnswer, log: seq<Action>, k: nat, name: string)
  {
    exists kind, j | 0 <= j < k <= |log| ::
      && log[j] == SinkChecked(name, None) && SinkByName(name) == Some(kind) && kind in config.sinks
      && Healthy(health(kind, j), Tolerant(config))
  }

  /** The handler ran only where the policy lets it, and after every sink the call
      has to have was found healthy. */
  ghost predicate RanRightly(
    config: HarnessConfig, toolName: string, health: (SinkKind, nat) -> HealthAnswer, log: seq<Action>)
  {
    forall k | 0 <= k < |log| && log[k].InnerCalled? ::
      && MayRun(config, toolName)
      && forall name | MustHave(config, toolName, name) :: FoundHealthy(config, health, log, k, name)
  }

  /** A refusal names what the policy says of the tool, and a result comes with the
      receipt that the policy asks for. */
  predicate AnswerTold(
    libraries: Libraries, config: HarnessConfig, toolName: string, arguments: Value, r: GovernedResult,
    log: seq<Action>)
  {
    var known := toolName in config.policies;
    && (r.ok ==> MayRun(config, toolName) && (ReceiptNeeded(config, toolName) ==> ReceiptWritten(Accepts) in log))
    && (r.failure == Some(UnknownTool) ==>
          if known then config.policies[toolName].reason == Some("unknown_tool") else config.failClosedOnUnknownTool)
    && (r.failure == Some(Denied) ==> known && config.policies[toolName].decision == Deny)
    && (r.failure == Some(Deferred) ==> known && config.policies[toolName].decision == Defer)
    && (r.failure == Some(FailedClosed) ==> known && config.policies[toolName].decision == FailClosed)
    && (r.failure == Some(GatedPending) ==>
          && known && config.policies[toolName].decision == Gate
          && Reviewable(libraries, toolName, config.policies[toolName], arguments)
          && (ReceiptNeeded(config, toolName) ==> ReceiptWritten(Accepts) in log))
    && (r.failure == Some(DispositionInvalid) ==>
          && known && config.policies[toolName].decision == Gate
          && !Reviewable(libraries, toolName, config.policies[toolName], arguments))
  }

  // A review object can be made of the call: its tool and class are named, its
  // arguments have an attested digest, and any time-out is positive.
  predicate Reviewable(libraries: Libraries, toolName: string, policy: ToolPolicy, arguments: Value)
  {
    && !Blank(toolName) && !Blank(policy.toolClass) && arguments.Dict?
    && Disposition.AttestedDigest(libraries.host, libraries.digest(arguments))
    && (policy.gateTimeoutSeconds.Some? ==> policy.gateTimeoutSeconds.value > 0)
  }

  lemma ReviewIsTold(libraries: Libraries, config: HarnessConfig, toolName: string, arguments: Value)
    requires toolName in config.policies && config.policies[toolName].decision == Gate
    ensures ReviewFor(libraries, config, toolName, arguments).Some? <==>
            Reviewable(libraries, toolName, config.policies[toolName], arguments)
  {
    var policy := config.policies[toolName];
    Disposition.GateIsNamed();
    Disposition.ReviewIsBuilt(libraries.host, toolName, policy.toolClass, "gate",
                              if arguments.Dict? then Some(libraries.digest(arguments)) else None,
                              policy.gateTimeoutSeconds);
  }

  lemma DecisionIsTold(config: HarnessConfig, toolName: string)
    ensures var decision := EvaluatePolicy(config, toolName);
            && (decision.decision == Allow <==> MayRun(config, toolName))
            && (decision.receiptRequired <==> ReceiptNeeded(config, toolName))
            && (decision.decision == Gate ==> toolName in config.policies
                                              && config.policies[toolName].decision == Gate)
            && (decision.reason == "unknown_tool" <==>
                  if toolName in config.policies then config.policies[toolName].reason == Some("unknown_tool")
                  else config.failClosedOnUnknownTool)
  {
    assert "unknown_tool"[0] == 'u' && ("policy_" + "")[0] == 'p' && "unknown_tool_allowed:"[12] == '_';
    if toolName in config.policies {
      assert ("policy_" + PolicyName(config.policies[toolName].decision))[0] == 'p';
    } else {
      assert |"unknown_tool_allowed:" + toolName| > |"unknown_tool"|;
    }
  }

  // Joining keeps every name, and adds none.
  lemma JoinedMembers(names: seq<string>, name: string)
    ensures name in Joined([], NormalizedNames(names)) <==> exists listed | listed in names ::
              name == NormalizeSinkName(listed)
  {
    JoinedUnites([], NormalizedNames(names));
    var normalized := NormalizedNames(names);
    assert name in Joined([], normalized) <==> name in normalized;
    if name in normalized {
      var i :| 0 <= i < |normalized| && normalized[i] == name;
      assert names[i] in names;
    }
    if exists listed | listed in names :: name == NormalizeSinkName(listed) {
      var listed :| listed in names && name == NormalizeSinkName(listed);
      var i :| 0 <= i < |names| && names[i] == listed;
      assert normalized[i] == name;
    }
  }

  // The five sinks are called what they are called.
  lemma PlainNames()
    ensures NormalizeSinkName("event") == "event" && NormalizeSinkName("receipt") == "receipt"
    ensures NormalizeSinkName("review") == "review" && NormalizeSinkName("artifact") == "artifact"
    ensures NormalizeSinkName("lint") == "lint"
  {
    NotEndsWith("event", SinkSuffix(), 4);
    NotEndsWith("receipt", SinkSuffix(), 4);
    NotEndsWith("review", SinkSuffix(), 4);
    NotEndsWith("artifact", SinkSuffix(), 4);
    assert |"lint"| < |SinkSuffix()|;
  }

  lemma RequiredMembers(config: HarnessConfig, toolName: string, name: string)
    ensures name in EvaluatePolicy(config, toolName).requiredSinks <==>
            || name == "event"
            || (toolName in config.policies
                && exists listed | listed in config.policies[toolName].requiredSinks ::
                     name == NormalizeSinkName(listed))
            || (name == "receipt" && ReceiptNeeded(config, toolName))
            || (name == "review" && toolName in config.policies
                && (config.policies[toolName].reviewRequired || config.policies[toolName].decision == Gate))
  {
    PlainNames();
    if toolName in config.policies {
      var policy := config.policies[toolName];
      var receipt := ReceiptNeeded(config, toolName);
      var named := Joined([], NormalizedNames(["event"] + policy.requiredSinks));
      JoinedMembers(["event"] + policy.requiredSinks, name);
      AppendIfMeans(named, receipt, "receipt");
      AppendIfMeans(AppendIf(named, receipt, "receipt"), policy.reviewRequired || policy.decision == Gate, "review");
    }
  }

  // What is looked up is what a call has to have.
  lemma NeededIsTold(config: HarnessConfig, toolName: string, name: string)
    ensures MustHave(config, toolName, name) <==>
            exists effective | effective in EffectiveSinks(EvaluatePolicy(config, toolName), config.profile) ::
              name == NormalizeSinkName(effective)
  {
    var decision := EvaluatePolicy(config, toolName);
    PlainNames();
    if MustHave(config, toolName, name) {
      var effective := EffectiveName(config, toolName, name);
    }
    if exists x | x in EffectiveSinks(decision, config.profile) :: name == NormalizeSinkName(x) {
      var x :| x in EffectiveSinks(decision, config.profile) && name == NormalizeSinkName(x);
      EffectiveSinksAre(decision, config.profile, x);
      if !ProfileRequires(config.profile, x) {
        var i :| 0 <= i < |decision.requiredSinks| && NormalizedNames(decision.requiredSinks)[i] == x;
        RequiredMembers(config, toolName, decision.requiredSinks[i]);
      }
    }
  }

  // The name that a needed sink has among the effective ones.
  lemma EffectiveName(config: HarnessConfig, toolName: string, name: string) returns (x: string)
    requires MustHave(config, toolName, name)
    ensures x in EffectiveSinks(EvaluatePolicy(config, toolName), config.profile) && name == NormalizeSinkName(x)
  {
    var decision := EvaluatePolicy(config, toolName);
    PlainNames();
    x := name;
    if ProfileRequires(config.profile, name) {
      EffectiveSinksAre(decision, config.profile, name);
    } else {
      var r := name;
      if Lists(config, toolName, name) {
        var listed :| listed in config.policies[toolName].requiredSinks
                      && name == NormalizeSinkName(NormalizeSinkName(NormalizeSinkName(listed)));
        r := NormalizeSinkName(listed);
      }
      x := NormalizeSinkName(r);
      RequiredMembers(config, toolName, r);
      var i :| 0 <= i < |decision.requiredSinks| && decision.requiredSinks[i] == r;
      assert NormalizedNames(decision.requiredSinks)[i] == x;
      EffectiveSinksAre(decision, config.profile, x);
    }
  }

  // Checks that passed found their sinks healthy.
  lemma PassedIsHealthy(
    config: HarnessConfig, toolName: string, health: (SinkKind, nat) -> HealthAnswer, log: seq<Action>, k: nat,
    name: string)
    requires k <= |log| && ChecksTold(config, health, log) && EffectivePassed(config, toolName, log[..k])
    requires MustHave(config, toolName, name)
    ensures FoundHealthy(config, health, log, k, name)
  {
    var effective := EffectiveSinks(EvaluatePolicy(config, toolName), config.profile);
    var x := EffectiveName(config, toolName, name);
    var i :| 0 <= i < |effective| && effective[i] == x;
    assert SinkChecked(NormalizeSinkName(effective[i]), None) in log[..k];
    var j :| 0 <= j < k && log[..k][j] == SinkChecked(name, None);
    assert CheckTold(config, health, log[j], j);
    assert SinkByName(name) == Some(SinkByName(name).value);
  }

  lemma GovernedIsRight(
    config: HarnessConfig, toolName: string, health: (SinkKind, nat) -> HealthAnswer, log: seq<Action>)
    requires Governed(config, toolName, log) && ChecksTold(config, health, log)
    ensures RanRightly(config, toolName, health, log)
  {
    DecisionIsTold(config, toolName);
    forall k | 0 <= k < |log| && log[k].InnerCalled?
      ensures MayRun(config, toolName)
      ensures forall name | MustHave(config, toolName, name) :: FoundHealthy(config, health, log, k, name)
    {
      assert Cleared(config, toolName, log[..k]);
      forall name | MustHave(config, toolName, name) ensures FoundHealthy(config, health, log, k, name) {
        PassedIsHealthy(config, toolName, health, log, k, name);
      }
    }
  }

  // A failed check, as the log or the configuration shows it.
  predicate CheckFailed(config: HarnessConfig, name: string, log: seq<Action>, f: FailureReason)
  {
    && (f == UnavailableSink(name) || f == DegradedSink(name))
    && if SinkMissing(config, name) then f == UnavailableSink(name) else SinkChecked(name, Some(f)) in log
  }

  // A failed check of a needed sink.
  predicate SinkFailed(config: HarnessConfig, toolName: string, log: seq<Action>, f: FailureReason)
  {
    (f.UnavailableSink? || f.DegradedSink?) && MustHave(config, toolName, f.name) && CheckFailed(config, f.name, log, f)
  }

  ghost predicate SomeSinkFailed(config: HarnessConfig, toolName: string, log: seq<Action>)
  {
    exists f :: SinkFailed(config, toolName, log, f)
  }

  predicate AdmissionRefused(log: seq<Action>)
  {
    || AdmissionEmitted(AdmittedReceipt, false) in log
    || AdmissionEmitted(RefusedReceipt, false) in log
    || AdmissionEmitted(DeferredReceipt, false) in log
  }

  predicate TriedBy(a: Action, event: EventType)
  {
    (a.EventWritten? && a.event == event) || a == EventLost(event)
  }

  // The event was written, or its sink was unavailable for it.
  predicate Tried(log: seq<Action>, event: EventType)
  {
    exists k | 0 <= k < |log| :: TriedBy(log[k], event)
  }

  // The bridge, if there is one, accepted this admission; or was asked for it.
  predicate BridgeAccepted(config: HarnessConfig, log: seq<Action>, d: AdmissionDisposition)
  {
    config.hasBridge ==> AdmissionEmitted(d, true) in log
  }

  predicate BridgeAsked(config: HarnessConfig, log: seq<Action>, d: AdmissionDisposition)
  {
    config.hasBridge ==> AdmissionEmitted(d, true) in log || AdmissionEmitted(d, false) in log
  }

  predicate OutcomeAsked(config: HarnessConfig, log: seq<Action>)
  {
    config.hasBridge ==> OutcomeEmitted(true) in log || OutcomeEmitted(false) in log
  }

  predicate ReceiptLost(config: HarnessConfig, log: seq<Action>)
  {
    ReceiptSink !in config.sinks || ReceiptWritten(SinkUnavailable) in log
  }

  // The review object a gated call asks for; None for the errors of building it.
  function ReviewFor(
    libraries: Libraries, config: HarnessConfig, toolName: string, arguments: Value): Option<Disposition.ReviewObject>
  {
    var known := toolName in config.policies;
    Disposition.ReviewObjectWith(
      libraries.host, toolName, if known then config.policies[toolName].toolClass else "unknown",
      PolicyName(EvaluatePolicy(config, toolName).decision),
      if arguments.Dict? then Some(libraries.digest(arguments)) else None,
      if known then config.policies[toolName].gateTimeoutSeconds else None)
  }

  /** Why a call may fail, and what it leaves behind: each reason has its cause in
      what was asked and answered, or in the policy, and each refusal was recorded
      as far as the outside accepted it. */
  predicate Explained(
    libraries: Libraries, config: HarnessConfig, toolName: string, arguments: Value, log: seq<Action>, f: FailureReason)
  {
    var decision := EvaluatePolicy(config, toolName);
    match f
    case UnavailableSink(name) =>
      || SinkRefusal(config, toolName, log, f)
      || (name == "event" && Types(log) == [] && EventLost(Requested) in log)
      || (name == "review" && decision.decision == Gate && BridgeAsked(config, log, RefusedReceipt)
          && (ReviewSink !in config.sinks || ReviewCreated(false) in log))
    case DegradedSink(_) => SinkRefusal(config, toolName, log, f)
    case PreExecutionReceiptFailure => config.hasBridge && AdmissionRefused(log)
    case ArgumentsNotMapping => decision.decision == Gate && !arguments.Dict?
    case DispositionInvalid => decision.decision == Gate && ReviewFor(libraries, config, toolName, arguments).None?
    case InnerException => InnerFailure(config, log)
    case ReceiptWriteFailed =>
      decision.receiptRequired && (UnreceiptedResult(config, log) || UnreceiptedGate(config, decision, log))
    case GatedPending =>
      Pending(config, decision, log) && ReviewFor(libraries, config, toolName, arguments).Some?
    case _ =>
      && f == DecisionFailure(decision) && decision.decision != Allow && decision.decision != Gate
      && Tried(log, Rejected) && BridgeAccepted(config, log, RefusedReceipt)
  }

  // A sink failed before the requested event, or the failure was recorded.
  predicate SinkRefusal(config: HarnessConfig, toolName: string, log: seq<Action>, f: FailureReason)
  {
    && SinkFailed(config, toolName, log, f)
    && (Types(log) == [] || (Tried(log, Rejected) && BridgeAsked(config, log, RefusedReceipt)))
  }

  predicate InnerFailure(config: HarnessConfig, log: seq<Action>)
  {
    InnerCalled(false) in log && Tried(log, Failed) && OutcomeAsked(config, log)
  }

  // The handler returned, and the outside was told.
  predicate Reported(config: HarnessConfig, log: seq<Action>)
  {
    InnerCalled(true) in log && OutcomeAsked(config, log) && Tried(log, Executed)
  }

  predicate UnreceiptedResult(config: HarnessConfig, log: seq<Action>)
  {
    Reported(config, log) && ReceiptLost(config, log) && Tried(log, Failed)
  }

  predicate GatedProperly(config: HarnessConfig, decision: PolicyDecision, log: seq<Action>)
  {
    && decision.decision == Gate && ReviewCreated(true) in log
    && BridgeAccepted(config, log, DeferredReceipt) && Tried(log, Gated)
  }

  predicate UnreceiptedGate(config: HarnessConfig, decision: PolicyDecision, log: seq<Action>)
  {
    GatedProperly(config, decision, log) && ReceiptLost(config, log)
  }

  predicate Pending(config: HarnessConfig, decision: PolicyDecision, log: seq<Action>)
  {
    GatedProperly(config, decision, log) && (decision.receiptRequired ==> ReceiptWritten(Accepts) in log)
  }

  // A call that answers with its result left this behind.
  predicate Delivered(config: HarnessConfig, decision: PolicyDecision, log: seq<Action>)
  {
    Reported(config, log) && (decision.receiptRequired ==> ReceiptWritten(Accepts) in log)
  }

  function IfBridge(config: HarnessConfig, effect: Effect): seq<Effect>
  {
    if config.hasBridge then [effect] else []
  }

  function IfReceipts(config: HarnessConfig): seq<Effect>
  {
    if ReceiptSink in config.sinks then [Receipting] else []
  }

  function UpToHandler(config: HarnessConfig): seq<Effect>
  {
    IfBridge(config, Admitting(AdmittedReceipt)) + [Handling]
  }

  function UpToOutcome(config: HarnessConfig): seq<Effect>
  {
    UpToHandler(config) + IfBridge(config, Concluding)
  }

  // What an allowed call may have done: it asked for its admission, called the
  // handler, asked for the outcome receipt, wrote the required receipt.
  predicate RanEffects(config: HarnessConfig, decision: PolicyDecision, done: seq<Effect>)
  {
    || done == IfBridge(config, Admitting(AdmittedReceipt)) || done == UpToHandler(config)
         || done == UpToOutcome(config)
    || (decision.receiptRequired && done == UpToOutcome(config) + IfReceipts(config))
  }

  // What a gated call may have done: it made a review object, and asked for one
  // admission, refused or deferred.
  predicate GateEffects(config: HarnessConfig, decision: PolicyDecision, done: seq<Effect>)
  {
    var deferred := [Reviewing] + IfBridge(config, Admitting(DeferredReceipt));
    || done == [] || done == IfBridge(config, Admitting(RefusedReceipt))
    || done == [Reviewing] + IfBridge(config, Admitting(RefusedReceipt)) || done == deferred
    || (decision.receiptRequired && done == deferred + IfReceipts(config))
  }

  /** What a call did fits its decision: nothing before the decision; one refused
      admission for a refusal or a failed sink; otherwise the steps of a gated or
      of an allowed call, in their order, so at most one admission of any kind. */
  ghost predicate EffectsFit(config: HarnessConfig, toolName: string, log: seq<Action>)
  {
    var decision := EvaluatePolicy(config, toolName);
    || TraceOf(log).done == []
    || (TraceOf(log).done == IfBridge(config, Admitting(RefusedReceipt))
        && (SomeSinkFailed(config, toolName, log) || (decision.decision != Allow && decision.decision != Gate)))
    || (decision.decision == Gate && GateEffects(config, decision, TraceOf(log).done))
    || (decision.decision == Allow && RanEffects(config, decision, TraceOf(log).done))
  }

  predicate Unbroken(log: seq<Action>)
  {
    forall k | 0 <= k < |log| :: !Broken(log[k])
  }

  // The handler returned a result that cannot be hashed.
  predicate ResultUnhashable(log: seq<Action>, ending: HandlerEnding)
  {
    InnerCalled(true) in log && ending.HandlerReturned? && !HasHash(ending.result)
  }

  predicate AllowedTypes(types: seq<EventType>)
  {
    || types == []
    || types == [Requested]
    || types == [Requested, Rejected]
    || types == [Requested, Gated]
    || types == [Requested, Failed]
    || types == [Requested, Executed]
    || types == [Requested, Executed, Failed]
  }

  // The types once the requested event is written.
  predicate StartedTypes(types: seq<EventType>)
  {
    types != [] && AllowedTypes(types)
  }

  // What may follow the requested event, whether or not it was written.
  lemma EndingAllowed(event: EventType, written: bool)
    requires event != Requested
    ensures StartedTypes([Requested] + if written then [event] else [])
    ensures event == Executed ==> StartedTypes([Requested] + (if written then [event] else []) + [Failed])
  {
    assert [Requested] + [] == [Requested] && [Requested] + [event] == [Requested, event];
    assert [Requested, event] + [Failed] == [Requested, event, Failed] && [Requested] + [Failed] == [Requested, Failed];
  }

  lemma AppendOne(log: seq<Action>, a: Action)
    ensures TraceOf(log + [a]) == Extend(TraceOf(log), a)
  {
    assert (log + [a])[..|log|] == log;
  }

  lemma {:induction false} BrokenMeans(log: seq<Action>)
    ensures TraceOf(log).broken <==> !Unbroken(log)
  {
    if |log| > 0 {
      BrokenMeans(log[..|log| - 1]);
      assert log == log[..|log| - 1] + [log[|log| - 1]];
    }
  }

  lemma LineageAppend(log: seq<Action>, a: Action)
    requires LineageExact(log) && (a.EventWritten? ==> a.lineage == Chain(log))
    ensures LineageExact(log + [a])
  {
    var log' := log + [a];
    forall k | 0 <= k < |log'| && log'[k].EventWritten? ensures log'[k].lineage == Chain(log'[..k]) {
      assert log'[..k] == log[..k];
    }
  }

  lemma GovernedAppend(config: HarnessConfig, toolName: string, log: seq<Action>, a: Action)
    requires Governed(config, toolName, log)
    requires a.InnerCalled? ==> TraceOf(log).runs == 0 && Cleared(config, toolName, log)
    ensures Governed(config, toolName, log + [a])
  {
    AppendOne(log, a);
    var log' := log + [a];
    forall k | 0 <= k < |log'| && log'[k].InnerCalled? ensures Cleared(config, toolName, log'[..k]) {
      assert log'[..k] == if k < |log| then log[..k] else log;
    }
  }

  // What every step of a call keeps: its trace is that of the log, each event
  // names the earlier ones, and the handler was called as allowed.
  ghost predicate KeptOn(
    config: HarnessConfig, toolName: string, health: (SinkKind, nat) -> HealthAnswer, log: seq<Action>, trace: Trace,
    counter: nat)
  {
    && trace == TraceOf(log) && ChecksTold(config, health, log)
    && LineageExact(log)
    && Increasing(trace.chain) && (forall i | 0 <= i < |trace.chain| :: trace.chain[i] < counter)
    && Governed(config, toolName, log)
  }

  lemma KeptAppend(
    config: HarnessConfig, toolName: string, health: (SinkKind, nat) -> HealthAnswer, log: seq<Action>, trace: Trace,
    counter: nat, a: Action)
    requires KeptOn(config, toolName, health, log, trace, counter)
    requires a.SinkChecked? ==> CheckTold(config, health, a, |log|)
    requires a.EventWritten? ==> a.ref == counter && a.lineage == trace.chain
    requires a.InnerCalled? ==> trace.runs == 0 && Cleared(config, toolName, log)
    ensures KeptOn(config, toolName, health, log + [a], Extend(trace, a),
                   if a.EventWritten? then counter + 1 else counter)
    ensures log <= log + [a] && (log + [a])[|log|] == a
  {
    AppendOne(log, a);
    LineageAppend(log, a);
    GovernedAppend(config, toolName, log, a);
  }

  lemma EventKept(
    config: HarnessConfig, toolName: string, health: (SinkKind, nat) -> HealthAnswer, log: seq<Action>,
    log': seq<Action>, trace: Trace, counter: nat, event: EventType, answer: SinkAnswer)
    requires KeptOn(config, toolName, health, log, trace, counter)
    requires log' == log + [EventAction(answer, counter, event, trace.chain)]
    ensures KeptOn(config, toolName, health, log', Extend(trace, EventAction(answer, counter, event, trace.chain)),
                   if answer == Accepts then counter + 1 else counter)
    ensures log <= log' && (answer != SinkBroken ==> Tried(log', event))
            && (answer == SinkUnavailable ==> EventLost(event) in log')
  {
    var action := EventAction(answer, counter, event, trace.chain);
    KeptAppend(config, toolName, health, log, trace, counter, action);
    assert log'[|log|] == action;
    assert answer != SinkBroken ==> TriedBy(log'[|log|], event);
  }

  lemma {:induction false} NeverCalled(log: seq<Action>, returned: bool)
    requires TraceOf(log).runs == 0
    ensures InnerCalled(returned) !in log
  {
    if |log| > 0 {
      NeverCalled(log[..|log| - 1], returned);
      assert log == log[..|log| - 1] + [log[|log| - 1]];
    }
  }

  // ---- The outside ---------------------------------------------------------

  datatype HandlerEnding = HandlerReturned(result: Value) | HandlerRaised(className: string)

  /** The libraries underneath: those of review objects, and the text that a
      payload with a hash has for it. */
  datatype Libraries = Libraries(host: Disposition.Host, digest: Value -> string)

  /** The sinks, the bridge and the handler. Answers may depend on anything that
      was asked before. */
  class Outside {
    const health: (SinkKind, nat) -> HealthAnswer
    const sinkAnswer: nat -> SinkAnswer
    const accepts: nat -> bool
    const ending: HandlerEnding
    var log: seq<Action>
    var counter: nat

    constructor (
      health: (SinkKind, nat) -> HealthAnswer, sinkAnswer: nat -> SinkAnswer, accepts: nat -> bool,
      ending: HandlerEnding, counter: nat)
      ensures log == [] && this.counter == counter && this.ending == ending
    {
      this.health, this.sinkAnswer, this.accepts, this.ending := health, sinkAnswer, accepts, ending;
      this.log, this.counter := [], counter;
    }

    method CheckHealth(kind: SinkKind, name: string, tolerant: bool) returns (failure: Option<FailureReason>)
      modifies this
      ensures log == old(log) + [SinkChecked(name, failure)] && counter == old(counter)
      ensures failure == HealthFailure(name, health(kind, |old(log)|), tolerant)
    {
      failure := HealthFailure(name, health(kind, |log|), tolerant);
      log := log + [SinkChecked(name, failure)];
    }

    // InMemoryEventSink.write_event: the next reference, or an exception.
    method WriteEvent(event: EventType, lineage: seq<nat>) returns (answer: SinkAnswer, ref: nat)
      modifies this
      ensures ref == old(counter) && counter == if answer == Accepts then old(counter) + 1 else old(counter)
      ensures log == old(log) + [EventAction(answer, ref, event, lineage)]
    {
      answer, ref := sinkAnswer(|log|), counter;
      if answer == Accepts {
        counter := counter + 1;
      }
      log := log + [EventAction(answer, ref, event, lineage)];
    }

    method EmitAdmission(disposition: AdmissionDisposition) returns (accepted: bool)
      modifies this
      ensures log == old(log) + [AdmissionEmitted(disposition, accepted)] && counter == old(counter)
    {
      accepted := accepts(|log|);
      log := log + [AdmissionEmitted(disposition, accepted)];
    }

    method EmitOutcome() returns (accepted: bool)
      modifies this
      ensures log == old(log) + [OutcomeEmitted(accepted)] && counter == old(counter)
    {
      accepted := accepts(|log|);
      log := log + [OutcomeEmitted(accepted)];
    }

    method CreateReview() returns (accepted: bool)
      modifies this
      ensures log == old(log) + [ReviewCreated(accepted)] && counter == old(counter)
    {
      accepted := accepts(|log|);
      log := log + [ReviewCreated(accepted)];
    }

    method WriteReceipt() returns (answer: SinkAnswer)
      modifies this
      ensures log == old(log) + [ReceiptWritten(answer)] && counter == old(counter)
    {
      answer := sinkAnswer(|log|);
      log := log + [ReceiptWritten(answer)];
    }

    method CallInner() returns (ending: HandlerEnding)
      modifies this
      ensures log == old(log) + [InnerCalled(ending.HandlerReturned?)] && counter == old(counter)
      ensures ending == this.ending
    {
      ending := this.ending;
      log := log + [InnerCalled(ending.HandlerReturned?)];
    }
  }

  function EventAction(answer: SinkAnswer, ref: nat, event: EventType, lineage: seq<nat>): Action
  {
    match answer
    case Accepts => EventWritten(ref, event, lineage)
    case SinkUnavailable => EventLost(event)
    case SinkBroken => EventBroken(event)
  }

  /** The context of one wrapped call. */
  class HarnessContext {
    const config: HarnessConfig
    const libraries: Libraries
    const toolName: string
    const arguments: Value
    const outside: Outside
    var eventChainRefs: seq<nat>
    ghost var trace: Trace

    // What every step of the call keeps.
    ghost predicate Kept()
      reads this, outside
    {
      && eventChainRefs == trace.chain
      && KeptOn(config, toolName, outside.health, outside.log, trace, outside.counter)
    }

    // No sink broke so far.
    ghost predicate Intact()
      reads this, outside
    {
      Kept() && !trace.broken
    }

    constructor (config: HarnessConfig, libraries: Libraries, toolName: string, arguments: Value, outside: Outside)
      requires outside.log == []
      ensures Kept() && this.config == config && this.libraries == libraries
      ensures this.toolName == toolName && this.arguments == arguments && this.outside == outside
    {
      this.config, this.libraries, this.toolName, this.arguments := config, libraries, toolName, arguments;
      this.outside, eventChainRefs, trace := outside, [], Trace([], [], [], 0, false);
    }

    // The outside was asked for something other than an event.
    ghost method Note(before: seq<Action>, a: Action)
      requires outside.log == before + [a] && !a.EventWritten? && !a.EventLost? && !a.EventBroken?
      requires eventChainRefs == trace.chain
      requires KeptOn(config, toolName, outside.health, before, trace, outside.counter)
      requires a.SinkChecked? ==> CheckTold(config, outside.health, a, |before|)
      requires a.InnerCalled? ==> trace.runs == 0 && Cleared(config, toolName, before)
      modifies this`trace
      ensures Kept() && trace == Extend(old(trace), a) && before <= outside.log && a in outside.log
    {
      KeptAppend(config, toolName, outside.health, before, trace, outside.counter, a);
      trace := Extend(trace, a);
      assert outside.log[|before|] == a;
    }

    // _append_event_if_available: true when the event was written. The exception
    // of a broken sink escapes.
    method AppendEvent(event: EventType) returns (o: Outcome<bool>)
      requires Intact()
      modifies this, outside
      ensures Kept() && old(outside.log) <= outside.log
      ensures trace.runs == old(trace.runs) && trace.done == old(trace.done)
      ensures trace.types ==
              old(trace.types) + if o.Returned? && o.value then [event] else []
      ensures eventChainRefs == old(eventChainRefs) + if o.Returned? && o.value then [old(outside.counter)] else []
      ensures o.Escaped? <==> trace.broken
      ensures o.Returned? ==> Tried(outside.log, event)
      ensures o.Returned? && !o.value ==> EventLost(event) in outside.log
    {
      ghost var log, counter := outside.log, outside.counter;
      var answer, ref := outside.WriteEvent(event, eventChainRefs);
      ghost var action := EventAction(answer, ref, event, eventChainRefs);
      EventKept(config, toolName, outside.health, log, outside.log, trace, counter, event, answer);
      trace := Extend(trace, action);
      if answer == Accepts {
        eventChainRefs := eventChainRefs + [ref];
      }
      o := if answer == SinkBroken then Escaped else Returned(answer == Accepts);
    }

    // The bridge is asked for an admission, if there is one.
    method EmitAdmission(disposition: AdmissionDisposition) returns (accepted: bool)
      requires Intact()
      modifies this`trace, outside
      ensures Intact() && old(outside.log) <= outside.log
      ensures trace.runs == old(trace.runs) && trace.types == old(trace.types)
      ensures trace.done == old(trace.done) + IfBridge(config, Admitting(disposition))
      ensures old(trace.done) == [] ==> trace.done == IfBridge(config, Admitting(disposition))
      ensures accepted ==> BridgeAccepted(config, outside.log, disposition)
      ensures BridgeAsked(config, outside.log, disposition)
      ensures !accepted ==> config.hasBridge && AdmissionEmitted(disposition, false) in outside.log
    {
      accepted := true;
      if config.hasBridge {
        ghost var before := outside.log;
        accepted := outside.EmitAdmission(disposition);
        Note(before, AdmissionEmitted(disposition, accepted));
      }
    }

    method CheckNamedSink(name: string, tolerant: bool) returns (failure: Option<FailureReason>)
      requires Intact() && tolerant == Tolerant(config)
      modifies this`trace, outside
      ensures Intact() && old(outside.log) <= outside.log
      ensures trace.runs == old(trace.runs) && trace.types == old(trace.types)
      ensures trace.done == old(trace.done)
      ensures failure.None? ==> SinkChecked(name, None) in outside.log
      ensures failure.Some? ==> CheckFailed(config, name, outside.log, failure.value)
    {
      var sink := SinkByName(name);
      if sink.None? || sink.value !in config.sinks {
        return Some(UnavailableSink(name));
      }
      ghost var before := outside.log;
      failure := outside.CheckHealth(sink.value, name, tolerant);
      HealthTold(config, outside.health, sink.value, name, |before|);
      Note(before, SinkChecked(name, failure));
    }

    // _check_required_sink
    method CheckRequiredSink(sinkName: string, tolerant: bool) returns (failure: Option<FailureReason>)
      requires Intact() && tolerant == Tolerant(config)
      modifies this`trace, outside
      ensures Intact() && old(outside.log) <= outside.log
      ensures trace.runs == old(trace.runs) && trace.types == old(trace.types)
      ensures trace.done == old(trace.done)
      ensures failure.None? ==> SinkChecked(NormalizeSinkName(sinkName), None) in outside.log
      ensures failure.Some? ==> CheckFailed(config, NormalizeSinkName(sinkName), outside.log, failure.value)
    {
      failure := CheckNamedSink(NormalizeSinkName(sinkName), tolerant);
    }

    // _check_effective_required_sinks: the first failure, if any.
    method CheckEffectiveSinks(
      names: seq<string>, tolerant: bool) returns (failure: Option<FailureReason>, ghost at: nat)
      requires Intact() && tolerant == Tolerant(config)
      modifies this`trace, outside
      ensures Intact() && old(outside.log) <= outside.log
      ensures trace.runs == old(trace.runs) && trace.types == old(trace.types)
      ensures trace.done == old(trace.done)
      ensures failure.None? ==> Passed(names, |names|, outside.log)
      ensures failure.Some? ==>
                at < |names| && CheckFailed(config, NormalizeSinkName(names[at]), outside.log, failure.value)
    {
      var i := 0;
      while i < |names|
        invariant 0 <= i <= |names|
        invariant Intact() && old(outside.log) <= outside.log
        invariant trace.runs == old(trace.runs) && trace.types == old(trace.types)
        invariant trace.done == old(trace.done)
        invariant Passed(names, i, outside.log)
      {
        ghost var before := outside.log;
        failure := CheckRequiredSink(names[i], tolerant);
        if failure.Some? {
          at := i;
          return;
        }
        PassedOneMore(names, i, before, outside.log);
        i := i + 1;
      }
      failure, at := None, 0;
    }

    function Failure(reason: FailureReason): Outcome<GovernedResult>
      reads this
    {
      Returned(GovernedResult(false, None, Some(reason), eventChainRefs))
    }

    ghost predicate FailedProperly(o: Outcome<GovernedResult>)
      reads this
    {
      o.Returned? ==>
        !o.value.ok && o.value.failure.Some? && o.value.result.None? && o.value.eventRefs == eventChainRefs
    }

    ghost predicate FailedFor(o: Outcome<GovernedResult>)
      reads this, outside
    {
      && FailedProperly(o)
      && (o.Returned? ==> Explained(libraries, config, toolName, arguments, outside.log, o.value.failure.value))
    }

    // A refusal: the bridge's refused receipt, then the rejected event. The
    // bridge's failure is only reported where the receipt has to be written first.
    method Refuse(reason: FailureReason, receiptFirst: bool) returns (o: Outcome<GovernedResult>)
      requires Intact() && trace.types == [Requested] && trace.done == []
      modifies this, outside
      ensures Kept() && StartedTypes(trace.types) && old(outside.log) <= outside.log
      ensures trace.runs == old(trace.runs)
      ensures trace.done == IfBridge(config, Admitting(RefusedReceipt))
      ensures o.Escaped? <==> trace.broken
      ensures FailedProperly(o)
      ensures o.Returned? ==>
                || (o.value.failure == Some(reason) && Tried(outside.log, Rejected)
                    && BridgeAsked(config, outside.log, RefusedReceipt)
                    && (receiptFirst ==> BridgeAccepted(config, outside.log, RefusedReceipt)))
                || (o.value.failure == Some(PreExecutionReceiptFailure) && receiptFirst
                    && config.hasBridge && AdmissionRefused(outside.log))
    {
      var accepted := EmitAdmission(RefusedReceipt);
      if receiptFirst && !accepted {
        return Failure(PreExecutionReceiptFailure);
      }
      ghost var asked := outside.log;
      EndingAllowed(Rejected, true);
      EndingAllowed(Rejected, false);
      var _ :- AppendEvent(Rejected);
      BridgeStill(config, asked, outside.log, RefusedReceipt);
      o := Failure(reason);
    }

    // _write_receipt; a broken receipt sink's exception escapes.
    method WriteReceipt() returns (o: Outcome<bool>)
      requires Intact()
      modifies this`trace, outside
      ensures Kept() && old(outside.log) <= outside.log
      ensures trace.runs == old(trace.runs) && trace.types == old(trace.types)
      ensures trace.done == old(trace.done) + IfReceipts(config)
      ensures o.Escaped? <==> trace.broken
      ensures o.Returned? && o.value ==> ReceiptWritten(Accepts) in outside.log
      ensures o.Returned? && !o.value ==> ReceiptLost(config, outside.log)
    {
      if ReceiptSink !in config.sinks {
        return Returned(false);
      }
      ghost var before := outside.log;
      var answer := outside.WriteReceipt();
      Note(before, ReceiptWritten(answer));
      o := if answer == SinkBroken then Escaped else Returned(answer == Accepts);
    }

    method RouteReview() returns (created: bool)
      requires Intact() && trace.done == []
      modifies this`trace, outside
      ensures Intact() && trace == old(trace).(done := [Reviewing]) && ReviewCreated(created) in outside.log
    {
      ghost var before := outside.log;
      created := outside.CreateReview();
      Note(before, ReviewCreated(created));
    }

    // The review object of a gated call; None when it was created.
    method MintReview(decision: PolicyDecision) returns (failure: Option<FailureReason>)
      requires Intact() && decision == EvaluatePolicy(config, toolName) && decision.decision == Gate && trace.done == []
      modifies this`trace, outside
      ensures Intact() && trace.types == old(trace.types) && trace.runs == old(trace.runs)
      ensures if failure.Some? then GateEffects(config, decision, trace.done) else trace.done == [Reviewing]
      ensures if failure.Some? then Explained(libraries, config, toolName, arguments, outside.log, failure.value)
              else ReviewCreated(true) in outside.log && ReviewFor(libraries, config, toolName, arguments).Some?
    {
      if ReviewSink !in config.sinks {
        var _ := EmitAdmission(RefusedReceipt);
        return Some(UnavailableSink("review"));
      }
      var review := ReviewFor(libraries, config, toolName, arguments);
      if review.None? {
        return Some(DispositionInvalid);
      }
      var created := RouteReview();
      if !created {
        ghost var asked := outside.log;
        var _ := EmitAdmission(RefusedReceipt);
        StillIn(asked, outside.log, ReviewCreated(false));
        return Some(UnavailableSink("review"));
      }
      failure := None;
    }

    // _gate_call: a review object, a deferred receipt, the gated event.
    method GateCall(decision: PolicyDecision) returns (o: Outcome<GovernedResult>)
      requires Intact() && trace.types == [Requested] && trace.runs == 0 && trace.done == []
      requires decision == EvaluatePolicy(config, toolName) && decision.decision == Gate
      modifies this, outside
      ensures Kept() && StartedTypes(trace.types) && trace.runs == 0
      ensures GateEffects(config, decision, trace.done)
      ensures FailedFor(o)
      ensures o.Escaped? <==> trace.broken
    {
      var failure := MintReview(decision);
      if failure.Some? {
        return Failure(failure.value);
      }
      ghost var minted := outside.log;
      var deferred := EmitAdmission(DeferredReceipt);
      if !deferred {
        return Failure(PreExecutionReceiptFailure);
      }
      o := AnnounceGate(decision);
    }

    method AnnounceGate(decision: PolicyDecision) returns (o: Outcome<GovernedResult>)
      requires Intact() && trace.types == [Requested] && trace.runs == 0
      requires decision == EvaluatePolicy(config, toolName) && decision.decision == Gate
      requires ReviewCreated(true) in outside.log && BridgeAccepted(config, outside.log, DeferredReceipt)
      requires ReviewFor(libraries, config, toolName, arguments).Some?
      requires trace.done == [Reviewing] + IfBridge(config, Admitting(DeferredReceipt))
      modifies this, outside
      ensures Kept() && StartedTypes(trace.types) && trace.runs == 0
      ensures GateEffects(config, decision, trace.done)
      ensures FailedFor(o)
      ensures o.Escaped? <==> trace.broken
    {
      ghost var before := outside.log;
      EndingAllowed(Gated, true);
      EndingAllowed(Gated, false);
      var _ :- AppendEvent(Gated);
      StillIn(before, outside.log, ReviewCreated(true));
      BridgeStill(config, before, outside.log, DeferredReceipt);
      assert GatedProperly(config, decision, outside.log);
      if decision.receiptRequired {
        o := ReceiptOfGate(decision);
      } else {
        o := Failure(GatedPending);
      }
    }

    method ReceiptOfGate(decision: PolicyDecision) returns (o: Outcome<GovernedResult>)
      requires Intact() && StartedTypes(trace.types) && trace.runs == 0
      requires decision == EvaluatePolicy(config, toolName) && decision.receiptRequired
      requires GatedProperly(config, decision, outside.log)
      requires ReviewFor(libraries, config, toolName, arguments).Some?
      requires trace.done == [Reviewing] + IfBridge(config, Admitting(DeferredReceipt))
      modifies this, outside
      ensures Kept() && StartedTypes(trace.types) && trace.runs == 0
      ensures GateEffects(config, decision, trace.done)
      ensures FailedFor(o)
      ensures o.Escaped? <==> trace.broken
    {
      ghost var announced := outside.log;
      var written :- WriteReceipt();
      GatedStill(config, decision, announced, outside.log);
      o := Failure(if written then GatedPending else ReceiptWriteFailed);
    }

    // The one call of the inner handler.
    method CallHandler() returns (ending: HandlerEnding)
      requires Intact() && trace.runs == 0 && Cleared(config, toolName, outside.log)
      modifies this`trace, outside
      ensures Intact() && old(outside.log) <= outside.log && trace.types == old(trace.types)
      ensures ending == outside.ending && InnerCalled(ending.HandlerReturned?) in outside.log
      ensures trace.done == old(trace.done) + [Handling]
    {
      ghost var before := outside.log;
      ending := outside.CallInner();
      Note(before, InnerCalled(ending.HandlerReturned?));
    }

    method EmitOutcome()
      requires Intact()
      modifies this`trace, outside
      ensures Intact() && old(outside.log) <= outside.log
      ensures trace.runs == old(trace.runs) && trace.types == old(trace.types)
      ensures trace.done == old(trace.done) + IfBridge(config, Concluding)
      ensures OutcomeAsked(config, outside.log)
    {
      if config.hasBridge {
        ghost var before := outside.log;
        var accepted := outside.EmitOutcome();
        Note(before, OutcomeEmitted(accepted));
      }
    }

    // The outcome receipt of a handler that ended, and its event.
    method RecordEnding(event: EventType) returns (o: Outcome<bool>)
      requires Intact()
      modifies this, outside
      ensures Kept() && old(outside.log) <= outside.log
      ensures trace.types == old(trace.types) + if o.Returned? && o.value then [event] else []
      ensures trace.done == old(trace.done) + IfBridge(config, Concluding)
      ensures o.Returned? ==> OutcomeAsked(config, outside.log) && Tried(outside.log, event)
      ensures o.Escaped? <==> trace.broken
    {
      EmitOutcome();
      ghost var asked := outside.log;
      o := AppendEvent(event);
      OutcomeStill(config, asked, outside.log);
    }

    // The answer of a call whose handler returned this result.
    ghost predicate Answers(o: Outcome<GovernedResult>, decision: PolicyDecision, result: Value)
      reads this, outside
    {
      if o.Returned? && o.value.ok then
        Delivered(config, decision, outside.log) && o.value == GovernedResult(true, Some(result), None, eventChainRefs)
      else
        && FailedProperly(o)
        && (o.Returned? ==> o.value.failure == Some(ReceiptWriteFailed) && decision.receiptRequired
                            && UnreceiptedResult(config, outside.log))
    }

    // The receipt of a delivered result, if required, or the failed event.
    method Receipt(result: Value, decision: PolicyDecision) returns (o: Outcome<GovernedResult>)
      requires Intact() && StartedTypes(trace.types + [Failed]) && StartedTypes(trace.types)
      requires Reported(config, outside.log)
      requires trace.done == UpToOutcome(config)
      modifies this, outside
      ensures RanEffects(config, decision, trace.done)
      ensures Kept() && StartedTypes(trace.types) && InnerCalled(true) in outside.log
      ensures Answers(o, decision, result)
      ensures o.Escaped? <==> trace.broken
    {
      ghost var before := outside.log;
      if !decision.receiptRequired {
        return Returned(GovernedResult(true, Some(result), None, eventChainRefs));
      }
      var written :- WriteReceipt();
      ReportedStill(config, before, outside.log);
      if written {
        return Returned(GovernedResult(true, Some(result), None, eventChainRefs));
      }
      ghost var refused := outside.log;
      var _ :- AppendEvent(Failed);
      ReportedStill(config, refused, outside.log);
      o := Failure(ReceiptWriteFailed);
    }

    // What follows a returned result: the outcome receipt, the executed event and
    // any required receipt.
    method Deliver(result: Value, decision: PolicyDecision) returns (o: Outcome<GovernedResult>)
      requires Intact() && trace.types == [Requested] && InnerCalled(true) in outside.log
      requires trace.done == UpToHandler(config)
      modifies this, outside
      ensures RanEffects(config, decision, trace.done)
      ensures Kept() && StartedTypes(trace.types) && InnerCalled(true) in outside.log
      ensures Answers(o, decision, result)
      ensures o.Escaped? <==> trace.broken
    {
      ghost var before := outside.log;
      EndingAllowed(Executed, true);
      EndingAllowed(Executed, false);
      var _ :- RecordEnding(Executed);
      StillIn(before, outside.log, InnerCalled(true));
      o := Receipt(result, decision);
    }

    method RecordInnerFailure() returns (o: Outcome<GovernedResult>)
      requires Intact() && trace.types == [Requested] && InnerCalled(false) in outside.log
      modifies this, outside
      ensures trace.done == old(trace.done) + IfBridge(config, Concluding)
      ensures Kept() && StartedTypes(trace.types) && InnerCalled(false) in outside.log
      ensures FailedProperly(o)
      ensures o.Returned? ==> o.value.failure == Some(InnerException) && InnerFailure(config, outside.log)
      ensures o.Escaped? <==> trace.broken
    {
      ghost var before := outside.log;
      EndingAllowed(Failed, true);
      EndingAllowed(Failed, false);
      var _ :- RecordEnding(Failed);
      StillIn(before, outside.log, InnerCalled(false));
      o := Failure(InnerException);
    }

    // What a call that reached its handler comes to.
    ghost predicate RanTo(o: Outcome<GovernedResult>, decision: PolicyDecision)
      reads this, outside
    {
      if outside.ending.HandlerReturned? then Answers(o, decision, outside.ending.result)
      else
        && FailedProperly(o)
        && (o.Returned? ==> o.value.failure == Some(InnerException) && InnerFailure(config, outside.log))
    }

    // The handler, then what its ending leaves behind. An exception escapes
    // exactly when a sink broke or the result has no hash.
    method RunInner(decision: PolicyDecision) returns (o: Outcome<GovernedResult>)
      requires Intact() && trace.types == [Requested] && trace.runs == 0
      requires Cleared(config, toolName, outside.log)
      requires trace.done == IfBridge(config, Admitting(AdmittedReceipt))
      modifies this, outside
      ensures RanEffects(config, decision, trace.done)
      ensures Kept() && StartedTypes(trace.types)
      ensures RanTo(o, decision) && InnerCalled(outside.ending.HandlerReturned?) in outside.log
      ensures o.Escaped? <==> trace.broken || ResultUnhashable(outside.log, outside.ending)
    {
      var ending := CallHandler();
      if ending.HandlerRaised? {
        o := RecordInnerFailure();
        return;
      }
      if !HasHash(ending.result) {
        return Escaped;
      }
      o := Deliver(ending.result, decision);
    }

    // The event sink's check and the requested event; None when it was written.
    method Request(tolerant: bool) returns (o: Outcome<Option<FailureReason>>)
      requires Kept() && outside.log == [] && tolerant == Tolerant(config)
      modifies this, outside
      ensures Kept() && trace.runs == 0 && trace.done == []
      ensures trace.types == if o.Returned? && o.value.None? then [Requested] else []
      ensures o.Returned? && o.value.Some? ==>
                && (o.value.value.UnavailableSink? || o.value.value.DegradedSink?)
                && Explained(libraries, config, toolName, arguments, outside.log, o.value.value)
      ensures o.Escaped? <==> trace.broken
    {
      PlainName();
      var eventFailure := CheckRequiredSink("event", tolerant);
      if eventFailure.Some? {
        return Returned(eventFailure);
      }
      var requested :- AppendEvent(Requested);
      o := Returned(if requested then None else Some(UnavailableSink("event")));
    }

    // An allowed call whose sinks passed: the admission, then the handler.
    method AdmitAndRun(decision: PolicyDecision) returns (o: Outcome<GovernedResult>)
      requires Intact() && trace.types == [Requested] && trace.runs == 0 && trace.done == []
      requires decision == EvaluatePolicy(config, toolName) && decision.decision == Allow
      requires EffectivePassed(config, toolName, outside.log)
      modifies this, outside
      ensures RanEffects(config, decision, trace.done)
      ensures Kept() && StartedTypes(trace.types)
      ensures Concludes(o)
      ensures o.Escaped? <==> trace.broken || ResultUnhashable(outside.log, outside.ending)
    {
      ghost var checked := outside.log;
      var admitted := EmitAdmission(AdmittedReceipt);
      if !admitted {
        NeverCalled(outside.log, true);
        return Failure(PreExecutionReceiptFailure);
      }
      var effective := EffectiveSinks(decision, config.profile);
      PassedStill(effective, |effective|, checked, outside.log);
      o := RunInner(decision);
    }

    // A failed sink check refuses the call, whatever the bridge makes of it.
    method RefuseForSink(reason: FailureReason) returns (o: Outcome<GovernedResult>)
      requires Intact() && trace.types == [Requested] && trace.runs == 0 && trace.done == []
      requires SinkFailed(config, toolName, outside.log, reason)
      modifies this, outside
      ensures EffectsFit(config, toolName, outside.log)
      ensures Kept() && StartedTypes(trace.types) && trace.runs == 0
      ensures FailedFor(o)
      ensures o.Escaped? <==> trace.broken
    {
      ghost var failed := outside.log;
      o := Refuse(reason, false);
      assert SinkChecked(reason.name, Some(reason)) in failed ==> SinkChecked(reason.name, Some(reason)) in outside.log;
      assert SinkFailed(config, toolName, outside.log, reason);
    }

    // A refusal of the policy is recorded before it is answered.
    method RefuseByPolicy(decision: PolicyDecision) returns (o: Outcome<GovernedResult>)
      requires Intact() && trace.types == [Requested] && trace.runs == 0 && trace.done == []
      requires decision == EvaluatePolicy(config, toolName) && decision.decision != Allow && decision.decision != Gate
      modifies this, outside
      ensures EffectsFit(config, toolName, outside.log)
      ensures Kept() && StartedTypes(trace.types) && trace.runs == 0
      ensures FailedFor(o)
      ensures o.Escaped? <==> trace.broken
    {
      o := Refuse(DecisionFailure(decision), true);
    }

    // The answer, when there is one: the handler's result with what has to come
    // with it, or a failure with its cause.
    ghost predicate Concludes(o: Outcome<GovernedResult>)
      reads this, outside
    {
      if o.Returned? && o.value.ok then
        && Delivered(config, EvaluatePolicy(config, toolName), outside.log) && outside.ending.HandlerReturned?
        && o.value == GovernedResult(true, Some(outside.ending.result), None, eventChainRefs)
      else FailedFor(o)
    }

    // What follows the requested event.
    method Decide(tolerant: bool) returns (o: Outcome<GovernedResult>)
      requires Intact() && trace.types == [Requested] && trace.runs == 0 && trace.done == []
      requires tolerant == Tolerant(config)
      modifies this, outside
      ensures EffectsFit(config, toolName, outside.log)
      ensures Kept() && StartedTypes(trace.types)
      ensures Concludes(o)
      ensures o.Escaped? <==> trace.broken || ResultUnhashable(outside.log, outside.ending)
    {
      var decision := EvaluatePolicy(config, toolName);
      var effective := EffectiveRequiredSinks(decision, config.profile);
      var sinkFailure, at := CheckEffectiveSinks(effective, tolerant);
      if sinkFailure.None? && decision.decision == Allow {
        o := AdmitAndRun(decision);
        return;
      }
      if sinkFailure.Some? {
        EffectiveNeeded(config, toolName, at);
        o := RefuseForSink(sinkFailure.value);
      } else if decision.decision == Gate {
        if arguments.Dict? {
          o := GateCall(decision);
        } else {
          o := Failure(ArgumentsNotMapping);
        }
      } else {
        o := RefuseByPolicy(decision);
      }
      NeverCalled(outside.log, true);
    }

    // The call from its first event on.
    method Govern() returns (o: Outcome<GovernedResult>)
      requires Kept() && outside.log == []
      modifies this, outside
      ensures Kept() && EffectsFit(config, toolName, outside.log) && AllowedTypes(trace.types)
      ensures Concludes(o)
      ensures o.Returned? && trace.types == [] ==>
                o.value.failure.Some? && (o.value.failure.value.UnavailableSink? || o.value.failure.value.DegradedSink?)
      ensures o.Escaped? <==> trace.broken || ResultUnhashable(outside.log, outside.ending)
    {
      var tolerant := config.profile.Some? && config.profile.value.toleratesDegraded;
      var failure :- Request(tolerant);
      if failure.Some? {
        NeverCalled(outside.log, true);
        return Failure(failure.value);
      }
      o := Decide(tolerant);
    }

    /** One wrapped call. Whatever the outside answers: the handler runs at most
        once, and only after the requested event was written, the decision was
        allow, every effective required sink passed and the bridge, if any,
        accepted the admission; what it did fits the decision step by step, with
        at most one admission asked for; each event names exactly the earlier
        ones, under distinct references, and the types follow the allowed
        patterns; only an event sink that fails keeps the requested event from
        being written. An answer is the handler's result with what has to come
        with it, or a failure with a cause the log or the policy shows. And an
        exception escapes exactly when the arguments have no hash, an event or
        receipt sink broke, or the handler returned a result that has no hash. Told
        from the configuration and the sinks' health alone: the handler runs only
        where the policy lets it, and after every sink the call has to have answered
        that it is available, or degraded where that is tolerated; and every check
        that failed is such an answer. */
    method Wrapped() returns (o: Outcome<GovernedResult>)
      requires Kept() && outside.log == []
      modifies this, outside
      ensures Governed(config, toolName, outside.log) && EffectsFit(config, toolName, outside.log)
      ensures LineageExact(outside.log) && Increasing(Chain(outside.log)) && AllowedTypes(Types(outside.log))
      ensures o.Returned? ==> o.value.eventRefs == Chain(outside.log)
      ensures Concludes(o)
      ensures o.Returned? && Types(outside.log) == [] ==>
                o.value.failure.Some? && (o.value.failure.value.UnavailableSink? || o.value.failure.value.DegradedSink?)
      ensures o.Escaped? <==>
              !HasHash(arguments) || !Unbroken(outside.log) || ResultUnhashable(outside.log, outside.ending)
      ensures ChecksTold(config, outside.health, outside.log)
              && RanRightly(config, toolName, outside.health, outside.log)
      ensures o.Returned? ==> AnswerTold(libraries, config, toolName, arguments, o.value, outside.log)
    {
      if !HasHash(arguments) {
        return Escaped;
      }
      o := Govern();
      BrokenMeans(outside.log);
      GovernedIsRight(config, toolName, outside.health, outside.log);
      if o.Returned? {
        ConcludesTells(o.value);
      }
    }

    lemma ConcludesTells(r: GovernedResult)
      requires Concludes(Returned(r)) && Governed(config, toolName, outside.log)
      ensures AnswerTold(libraries, config, toolName, arguments, r, outside.log)
    {
      DecisionIsTold(config, toolName);
      if toolName in config.policies && config.policies[toolName].decision == Gate {
        ReviewIsTold(libraries, config, toolName, arguments);
      }
    }
  }

  lemma StillIn(before: seq<Action>, after: seq<Action>, a: Action)
    requires before <= after && a in before
    ensures a in after
  {}

  // What was asked, tried and answered stays so.
  lemma BridgeStill(config: HarnessConfig, before: seq<Action>, after: seq<Action>, d: AdmissionDisposition)
    requires before <= after
    ensures BridgeAccepted(config, before, d) ==> BridgeAccepted(config, after, d)
    ensures BridgeAsked(config, before, d) ==> BridgeAsked(config, after, d)
  {}

  lemma TriedStill(before: seq<Action>, after: seq<Action>, event: EventType)
    requires before <= after && Tried(before, event)
    ensures Tried(after, event)
  {
    var k :| 0 <= k < |before| && TriedBy(before[k], event);
    assert after[k] == before[k];
  }

  lemma OutcomeStill(config: HarnessConfig, before: seq<Action>, after: seq<Action>)
    requires before <= after && OutcomeAsked(config, before)
    ensures OutcomeAsked(config, after)
  {}

  lemma GatedStill(config: HarnessConfig, decision: PolicyDecision, before: seq<Action>, after: seq<Action>)
    requires before <= after && GatedProperly(config, decision, before)
    ensures GatedProperly(config, decision, after)
  {
    TriedStill(before, after, Gated);
    BridgeStill(config, before, after, DeferredReceipt);
  }

  lemma ReportedStill(config: HarnessConfig, before: seq<Action>, after: seq<Action>)
    requires before <= after && Reported(config, before)
    ensures Reported(config, after) && (ReceiptLost(config, before) ==> ReceiptLost(config, after))
  {
    TriedStill(before, after, Executed);
    OutcomeStill(config, before, after);
  }

  lemma PassedStill(names: seq<string>, n: nat, before: seq<Action>, after: seq<Action>)
    requires n <= |names| && before <= after && Passed(names, n, before)
    ensures Passed(names, n, after)
  {
    forall i | 0 <= i < n ensures SinkChecked(NormalizeSinkName(names[i]), None) in after {
      StillIn(before, after, SinkChecked(NormalizeSinkName(names[i]), None));
    }
  }

  lemma PassedOneMore(names: seq<string>, i: nat, before: seq<Action>, after: seq<Action>)
    requires i < |names| && before <= after && Passed(names, i, before)
    requires SinkChecked(NormalizeSinkName(names[i]), None) in after
    ensures Passed(names, i + 1, after)
  {
    PassedStill(names, i, before, after);
  }

  lemma EffectiveNeeded(config: HarnessConfig, toolName: string, i: nat)
    requires i < |EffectiveSinks(EvaluatePolicy(config, toolName), config.profile)|
    ensures MustHave(config, toolName,
                     NormalizeSinkName(EffectiveSinks(EvaluatePolicy(config, toolName), config.profile)[i]))
  {
    var effective := EffectiveSinks(EvaluatePolicy(config, toolName), config.profile);
    assert NormalizedNames(effective)[i] == NormalizeSinkName(effective[i]);
    NeededIsTold(config, toolName, NormalizeSinkName(effective[i]));
  }
}
