/** The deferred tool boundary (dagr_mcp/deferred_boundary.py): slots that hold
    a deferred call until a review decision resumes it. A resume is two segments
    under the slot's lock with the handler between them; the functions give each
    segment's effect on the slot, the classes run them in place. */
module DeferredBoundary {
  import opened Prelude
  import opened JsonTrees
  import opened Disposition

  datatype SlotState = Pending | Admitted | Refused | Expired

  datatype FailureReason =
    | GateTimeoutElapsed | DecisionRejected | DecisionExpired | ArgumentDigestMismatch | InnerExecutionFailure
    | StillDeferred

  /** The contents of a slot. */
  datatype Slot = Slot(
    correlationRef: string, toolName: string, toolClass: string, argumentDigest: string, createdAt: int,
    reviewObjectRef: string, gateTimeoutSeconds: Option<int>,
    state: SlotState, admissionReceiptRef: Option<string>, outcomeReceiptRef: Option<string>,
    result: Option<Json>, failureReason: Option<FailureReason>, finalDecision: Option<ReviewDecision>,
    eventRefs: seq<string>)

  // How the inner handler ended.
  datatype HandlerEnding = HandlerReturned(result: Json) | HandlerRaised(className: string)

  // What the receipt bridge answered, where there is one.
  datatype BridgeAnswer =
    | NoBridge | AdmissionFailed
    | OutcomeFailed(admissionRef: string)
    | Receipts(admissionRef: string, outcomeRef: string)

  datatype DeferError = ArgumentsNotMapping | InvalidReviewInput | ReviewSinkFailed

  /** How a resume answers. */
  datatype ResumeReply =
    | Resumed(state: SlotState, result: Option<Json>, failureReason: Option<FailureReason>,
              admissionReceiptRef: Option<string>, outcomeReceiptRef: Option<string>, eventRefs: seq<string>)
    | SlotNotFound | SlotTerminal | TimedOut | InvalidDecision | StaleResponse | InvalidArguments
    | ArgumentMismatch | ActorMismatch | ExecutionFailed(className: string)

  /** A resume request and what the world answers to it: the time of the check,
      the reference the event sink returned, if any, and the bridge. */
  datatype ResumeRequest = ResumeRequest(
    correlationRef: string, decision: ReviewDecision, arguments: Json,
    now: int, event: Option<string>, bridge: BridgeAnswer, ending: HandlerEnding)

  datatype DeferRequest = DeferRequest(
    correlationRef: string, toolName: string, toolClass: string, arguments: Json, gateTimeoutSeconds: Option<int>,
    now: int, reviewSink: Option<string>, event: Option<string>, receipt: Option<string>)

  predicate TerminalState(s: SlotState)
  {
    s != Pending
  }

  function Noted(refs: seq<string>, event: Option<string>): seq<string>
  {
    if event.Some? && event.value != "" then refs + [event.value] else refs
  }

  function ReviewOf(host: Host, request: DeferRequest): Option<ReviewObject>
  {
    BuildReviewObject(host, request.toolName, request.toolClass, "gate", request.arguments, request.gateTimeoutSeconds)
  }

  /** defer_call: the review object and the new slot, or the error. */
  function DeferCall(host: Host, request: DeferRequest): Result<Slot, DeferError>
  {
    if !request.arguments.Obj? then Err(ArgumentsNotMapping)
    else if ReviewOf(host, request).None? then Err(InvalidReviewInput)
    else if request.reviewSink.None? then Err(ReviewSinkFailed)
    else
      Ok(Slot(
           request.correlationRef, request.toolName, request.toolClass, host.hash(request.arguments), request.now,
           request.reviewSink.value, request.gateTimeoutSeconds,
           Pending, request.receipt, None, None, None, None, Noted([], request.event)))
  }

  predicate TimedOutAt(slot: Slot, now: int)
  {
    slot.gateTimeoutSeconds.Some? && now - slot.createdAt > slot.gateTimeoutSeconds.value
  }

  // `decided < created`; an unreadable time stamp raises before the comparison.
  predicate Stale(host: Host, slot: Slot, decision: ReviewDecision)
  {
    var decided := host.parseTime(decision.decidedAt);
    decided.Some? && decided.value < slot.createdAt
  }

  predicate ActorClash(slot: Slot, decision: ReviewDecision)
  {
    && decision.actorRef.Some?
    && slot.finalDecision.Some? && slot.finalDecision.value.actorRef.Some?
    && decision.actorRef != slot.finalDecision.value.actorRef
  }

  /** What the checks before the handler come to: an answer, or the handler. */
  datatype Checked = Answered(slot: Slot, reply: ResumeReply) | Execute

  // _resume_locked up to the call of the handler.
  function Check(host: Host, slot: Slot, request: ResumeRequest): Checked
  {
    if TerminalState(slot.state) then Answered(slot, SlotTerminal)
    else if TimedOutAt(slot, request.now) then
      Answered(slot.(state := Expired, failureReason := Some(GateTimeoutElapsed)), TimedOut)
    else if !ValidDecision(host, request.decision) || host.parseTime(request.decision.decidedAt).None? then
      Answered(slot, InvalidDecision)
    else if Stale(host, slot, request.decision) then Answered(slot, StaleResponse)
    else
      match NormalizeOutcome(request.decision.decision).value
      case RejectedOutcome => Closed(slot, request, Refused, DecisionRejected)
      case ExpiredOutcome => Closed(slot, request, Expired, DecisionExpired)
      case DeferredOutcome =>
        var kept := slot.(eventRefs := Noted(slot.eventRefs, request.event));
        Answered(kept, Resumed(Pending, None, Some(StillDeferred), kept.admissionReceiptRef, None, kept.eventRefs))
      case ApprovedOutcome =>
        match HashArguments(host, request.arguments)
        case None => Answered(slot, InvalidArguments)
        case Some(submitted) =>
          if submitted != slot.argumentDigest then
            Answered(slot.(state := Refused, failureReason := Some(ArgumentDigestMismatch),
                           finalDecision := Some(request.decision)), ArgumentMismatch)
          else if ActorClash(slot, request.decision) then Answered(slot, ActorMismatch)
          else Execute
  }

  // A rejected or expired decision closes the slot.
  function Closed(slot: Slot, request: ResumeRequest, state: SlotState, reason: FailureReason): Checked
  {
    var closed := slot.(state := state, failureReason := Some(reason), finalDecision := Some(request.decision),
                        eventRefs := Noted(slot.eventRefs, request.event));
    Answered(closed, Resumed(state, None, Some(reason), closed.admissionReceiptRef, None, closed.eventRefs))
  }

  // _resume_locked from the handler's ending on.
  function FinishResume(slot: Slot, request: ResumeRequest): (Slot, ResumeReply)
  {
    match request.ending
    case HandlerRaised(className) =>
      (slot.(state := Refused, failureReason := Some(InnerExecutionFailure), finalDecision := Some(request.decision)),
       ExecutionFailed(className))
    case HandlerReturned(result) =>
      var admission :=
        if request.bridge.Receipts? || request.bridge.OutcomeFailed? then Some(request.bridge.admissionRef)
        else slot.admissionReceiptRef;
      var outcome := if request.bridge.Receipts? then Some(request.bridge.outcomeRef) else None;
      var done := slot.(state := Admitted, result := Some(result), finalDecision := Some(request.decision),
                        admissionReceiptRef := admission,
                        outcomeReceiptRef := if outcome.Some? then outcome else slot.outcomeReceiptRef,
                        eventRefs := Noted(slot.eventRefs, request.event));
      (done, Resumed(Admitted, Some(result), None, admission, outcome, done.eventRefs))
  }

  // The whole of _resume_locked, and whether it ran the handler.
  function ResumeLocked(host: Host, slot: Slot, request: ResumeRequest): (Slot, ResumeReply, bool)
  {
    match Check(host, slot, request)
    case Answered(slot', reply) => (slot', reply, false)
    case Execute => var (slot', reply) := FinishResume(slot, request); (slot', reply, true)
  }

  // ---- In place ------------------------------------------------------------

  class DeferredSlot {
    const correlationRef: string
    const toolName: string
    const toolClass: string
    const argumentDigest: string
    const createdAt: int
    const reviewObjectRef: string
    const gateTimeoutSeconds: Option<int>
    var state: SlotState
    var admissionReceiptRef: Option<string>
    var outcomeReceiptRef: Option<string>
    var result: Option<Json>
    var failureReason: Option<FailureReason>
    var finalDecision: Option<ReviewDecision>
    var eventRefs: seq<string>

    function View(): Slot
      reads this
    {
      Slot(correlationRef, toolName, toolClass, argumentDigest, createdAt, reviewObjectRef, gateTimeoutSeconds,
           state, admissionReceiptRef, outcomeReceiptRef, result, failureReason, finalDecision, eventRefs)
    }

    constructor (slot: Slot)
      ensures View() == slot
    {
      correlationRef, toolName, toolClass := slot.correlationRef, slot.toolName, slot.toolClass;
      argumentDigest, createdAt, reviewObjectRef := slot.argumentDigest, slot.createdAt, slot.reviewObjectRef;
      gateTimeoutSeconds, state := slot.gateTimeoutSeconds, slot.state;
      admissionReceiptRef, outcomeReceiptRef := slot.admissionReceiptRef, slot.outcomeReceiptRef;
      result, failureReason := slot.result, slot.failureReason;
      finalDecision, eventRefs := slot.finalDecision, slot.eventRefs;
    }

    method Note(event: Option<string>)
      modifies this
      ensures View() == old(View()).(eventRefs := Noted(old(eventRefs), event))
    {
      if event.Some? && event.value != "" {
        eventRefs := eventRefs + [event.value];
      }
    }
  }

  /** The governed inner handler, with the calls it has received. */
  class InnerHandler {
    var calls: seq<(string, Json)>

    constructor ()
      ensures calls == []
    {
      calls := [];
    }

    method HandleToolCall(toolName: string, arguments: Json, request: ResumeRequest) returns (ending: HandlerEnding)
      modifies this
      ensures calls == old(calls) + [(toolName, arguments)] && ending == request.ending
    {
      calls := calls + [(toolName, arguments)];
      ending := request.ending;
    }
  }

  class DeferredBoundary {
    const host: Host
    const inner: InnerHandler
    var slots: map<string, DeferredSlot>

    // Every slot sits under its own reference.
    predicate Valid()
      reads this
    {
      forall ref | ref in slots :: slots[ref].correlationRef == ref
    }

    ghost function Contents(): map<string, Slot>
      reads this, slots.Values
    {
      map ref | ref in slots :: slots[ref].View()
    }

    constructor (host: Host, inner: InnerHandler)
      ensures Valid() && this.host == host && this.inner == inner && slots == map[]
    {
      this.host, this.inner, slots := host, inner, map[];
    }

    /** defer_call; the reference is a fresh uuid. The handler is not called. */
    method Defer(request: DeferRequest) returns (r: Result<Slot, DeferError>)
      requires Valid() && request.correlationRef !in slots
      modifies this
      ensures Valid() && r == DeferCall(host, request)
      ensures Contents() == if r.Ok? then old(Contents())[request.correlationRef := r.value] else old(Contents())
      ensures inner.calls == old(inner.calls)
    {
      if !request.arguments.Obj? {
        return Err(ArgumentsNotMapping);
      }
      var digest := host.hash(request.arguments);
      var review := ReviewOf(host, request);
      if review.None? {
        return Err(InvalidReviewInput);
      }
      if request.reviewSink.None? {
        return Err(ReviewSinkFailed);
      }
      var slot := MintSlot(request, digest);
      Insert(slot);
      r := Ok(slot.View());
    }

    method Insert(slot: DeferredSlot)
      requires Valid() && slot.correlationRef !in slots
      modifies this
      ensures Valid() && Contents() == old(Contents())[slot.correlationRef := slot.View()]
    {
      slots := slots[slot.correlationRef := slot];
    }

    // A pending slot, with its event and receipt references if there are any.
    method MintSlot(request: DeferRequest, digest: string) returns (slot: DeferredSlot)
      requires request.reviewSink.Some?
      ensures fresh(slot)
      ensures slot.View() == Slot(
                request.correlationRef, request.toolName, request.toolClass, digest, request.now,
                request.reviewSink.value, request.gateTimeoutSeconds,
                Pending, request.receipt, None, None, None, None, Noted([], request.event))
    {
      slot := new DeferredSlot(
        Slot(request.correlationRef, request.toolName, request.toolClass, digest, request.now,
             request.reviewSink.value, request.gateTimeoutSeconds, Pending, None, None, None, None, None, []));
      slot.Note(request.event);
      slot.admissionReceiptRef := request.receipt;
    }

    /** resume_call with the slot's lock held throughout. */
    method Resume(request: ResumeRequest) returns (reply: ResumeReply)
      requires Valid()
      modifies slots.Values, inner
      ensures Valid() && slots == old(slots)
      ensures if request.correlationRef !in slots then
                reply == SlotNotFound && Contents() == old(Contents()) && inner.calls == old(inner.calls)
              else
                var before := old(slots[request.correlationRef].View());
                var (after, answer, ran) := ResumeLocked(host, before, request);
                && reply == answer
                && Contents() == old(Contents())[request.correlationRef := after]
                && inner.calls == old(inner.calls) + if ran then [(before.toolName, request.arguments)] else []
    {
      if request.correlationRef !in slots {
        return SlotNotFound;
      }
      reply := ResumeSlot(slots[request.correlationRef], request);
      assert forall ref | ref in slots && ref != request.correlationRef :: slots[ref] != slots[request.correlationRef];
    }

    // _resume_locked
    method ResumeSlot(slot: DeferredSlot, request: ResumeRequest) returns (reply: ResumeReply)
      modifies slot, inner
      ensures var (after, answer, ran) := ResumeLocked(host, old(slot.View()), request);
              && slot.View() == after && reply == answer
              && inner.calls == old(inner.calls) + if ran then [(slot.toolName, request.arguments)] else []
    {
      if slot.state != Pending {
        return SlotTerminal;
      }
      if slot.gateTimeoutSeconds.Some? && request.now - slot.createdAt > slot.gateTimeoutSeconds.value {
        slot.state, slot.failureReason := Expired, Some(GateTimeoutElapsed);
        return TimedOut;
      }
      if !ValidDecision(host, request.decision) {
        return InvalidDecision;
      }
      var decided := host.parseTime(request.decision.decidedAt);
      if decided.None? {
        return InvalidDecision;
      }
      if decided.value < slot.createdAt {
        return StaleResponse;
      }
      var outcome := NormalizeOutcome(request.decision.decision).value;
      if outcome == RejectedOutcome || outcome == ExpiredOutcome {
        slot.state := if outcome == RejectedOutcome then Refused else Expired;
        slot.failureReason := Some(if outcome == RejectedOutcome then DecisionRejected else DecisionExpired);
        slot.finalDecision := Some(request.decision);
        slot.Note(request.event);
        return Resumed(slot.state, None, slot.failureReason, slot.admissionReceiptRef, None, slot.eventRefs);
      }
      if outcome == DeferredOutcome {
        slot.Note(request.event);
        return Resumed(Pending, None, Some(StillDeferred), slot.admissionReceiptRef, None, slot.eventRefs);
      }
      var submitted := HashArguments(host, request.arguments);
      if submitted.None? {
        return InvalidArguments;
      }
      if submitted.value != slot.argumentDigest {
        slot.state, slot.failureReason := Refused, Some(ArgumentDigestMismatch);
        slot.finalDecision := Some(request.decision);
        return ArgumentMismatch;
      }
      if ActorClash(slot.View(), request.decision) {
        return ActorMismatch;
      }
      var _ := inner.HandleToolCall(slot.toolName, request.arguments, request);
      reply := FinishSlot(slot, request);
    }

    // What the handler's ending leaves in the slot.
    method FinishSlot(slot: DeferredSlot, request: ResumeRequest) returns (reply: ResumeReply)
      modifies slot
      ensures (slot.View(), reply) == FinishResume(old(slot.View()), request)
    {
      match request.ending {
        case HandlerRaised(className) =>
          slot.state, slot.failureReason := Refused, Some(InnerExecutionFailure);
          slot.finalDecision := Some(request.decision);
          reply := ExecutionFailed(className);
        case HandlerReturned(result) =>
          slot.state, slot.result, slot.finalDecision := Admitted, Some(result), Some(request.decision);
          var outcomeReceiptRef: Option<string> := None;
          if request.bridge.Receipts? || request.bridge.OutcomeFailed? {
            slot.admissionReceiptRef := Some(request.bridge.admissionRef);
          }
          if request.bridge.Receipts? {
            outcomeReceiptRef := Some(request.bridge.outcomeRef);
            slot.outcomeReceiptRef := outcomeReceiptRef;
          }
          slot.Note(request.event);
          reply := Resumed(Admitted, Some(result), None, slot.admissionReceiptRef, outcomeReceiptRef, slot.eventRefs);
      }
    }
  }
}
