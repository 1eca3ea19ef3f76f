/** What the slots of a run tell: each was minted by one deferral, whatever
    happened to it since was decided by one resume, and its handler was started
    on an approval that names the deferred arguments, in time. */
module DeferredHistory {
  import opened Prelude
  import JsonTrees
  import opened Disposition
  import opened DeferredBoundary
  import opened DeferredThreads

  // ---- What a resume asks of a slot ----------------------------------------

  predicate InTime(slot: Slot, now: int)
  {
    slot.gateTimeoutSeconds.Some? ==> now <= slot.createdAt + slot.gateTimeoutSeconds.value
  }

  // Any actor the decision names is well-formed, and its detail names no other.
  ghost predicate ActorsAgree(host: Host, decision: ReviewDecision)
  {
    && (decision.actorRef.Some? ==> host.normalizeActor(decision.actorRef.value).Some?)
    && ("actor_ref" in decision.detail ==>
          exists text ::
            && decision.detail["actor_ref"] == JsonTrees.Str(text) && host.normalizeActor(text).Some?
            && (decision.actorRef.Some? ==> host.normalizeActor(text) == host.normalizeActor(decision.actorRef.value)))
  }

  // A decision about a tool call, without raw content, by one actor.
  ghost predicate Proper(host: Host, decision: ReviewDecision)
  {
    && (forall k | k in decision.detail :: !ForbiddenDetailKey(k))
    && ("review_object_type" in decision.detail ==>
          decision.detail["review_object_type"] in {JsonTrees.Null, JsonTrees.Str("tool_call_disposition")})
    && ActorsAgree(host, decision)
  }

  // The decision can be read: it is proper, dated, and spells one of the outcomes.
  ghost predicate Readable(host: Host, decision: ReviewDecision)
  {
    && Proper(host, decision) && host.parseTime(decision.decidedAt).Some?
    && (Spells(decision.decision, "approved") || Spells(decision.decision, "rejected")
        || Spells(decision.decision, "deferred") || Spells(decision.decision, "expired"))
  }

  // The decision of a resume counts for the slot, and spells this outcome.
  ghost predicate Decides(host: Host, slot: Slot, request: ResumeRequest, word: string)
  {
    && InTime(slot, request.now) && Proper(host, request.decision)
    && (match host.parseTime(request.decision.decidedAt)
        case Some(decided) => slot.createdAt <= decided
        case None => false)
    && Spells(request.decision.decision, word)
  }

  // An approval, with the arguments that were deferred.
  ghost predicate Approves(host: Host, slot: Slot, request: ResumeRequest)
  {
    && Decides(host, slot, request, "approved")
    && request.arguments.Obj? && host.hash(request.arguments) == slot.argumentDigest
  }

  // An earlier decision in the slot names another actor.
  ghost predicate OtherActor(slot: Slot, decision: ReviewDecision)
  {
    exists actor, other | actor != other ::
      && decision.actorRef == Some(actor) && slot.finalDecision.Some?
      && slot.finalDecision.value.actorRef == Some(other)
  }

  function WithEvent(slot: Slot, event: Option<string>): Slot
  {
    match event
    case Some(ref) => if ref == "" then slot else slot.(eventRefs := slot.eventRefs + [ref])
    case None => slot
  }

  lemma ValidIsProper(host: Host, decision: ReviewDecision)
    ensures ValidDecision(host, decision) <==> Proper(host, decision) && NormalizeOutcome(decision.decision).Some?
  {
    if "actor_ref" in decision.detail && decision.detail["actor_ref"].Str? {
      assert decision.detail["actor_ref"] == JsonTrees.Str(decision.detail["actor_ref"].text);
    }
  }

  lemma OutcomesAreSpelled(text: string)
    ensures NormalizeOutcome(text) == Some(ApprovedOutcome) <==> Spells(text, "approved")
    ensures NormalizeOutcome(text) == Some(RejectedOutcome) <==> Spells(text, "rejected")
    ensures NormalizeOutcome(text) == Some(DeferredOutcome) <==> Spells(text, "deferred")
    ensures NormalizeOutcome(text) == Some(ExpiredOutcome) <==> Spells(text, "expired")
  {
    OutcomeIsSpelled(text, ApprovedOutcome);
    OutcomeIsSpelled(text, RejectedOutcome);
    OutcomeIsSpelled(text, DeferredOutcome);
    OutcomeIsSpelled(text, ExpiredOutcome);
  }

  /** What the checks before the handler come to, case by case: the first reason
      not to go on is the answer, with what it leaves in the slot; and only an
      approval of the deferred arguments, by an actor that no earlier decision
      contradicts, runs the handler. */
  lemma ResumeIsDecided(host: Host, slot: Slot, request: ResumeRequest)
    ensures var checked, decision := Check(host, slot, request), request.decision;
            var noted := WithEvent(slot, request.event);
            && (slot.state != Pending ==> checked == Answered(slot, SlotTerminal))
            && (slot.state == Pending ==>
                  && (!InTime(slot, request.now) ==>
                        checked == Answered(slot.(state := Expired, failureReason := Some(GateTimeoutElapsed)),
                                            TimedOut))
                  && (InTime(slot, request.now) && !Readable(host, decision) ==>
                        checked == Answered(slot, InvalidDecision))
                  && (InTime(slot, request.now) && Readable(host, decision)
                      && host.parseTime(decision.decidedAt).value < slot.createdAt ==>
                        checked == Answered(slot, StaleResponse))
                  && (Decides(host, slot, request, "rejected") ==>
                        checked == Answered(
                          noted.(state := Refused, failureReason := Some(DecisionRejected),
                                 finalDecision := Some(decision)),
                          Resumed(Refused, None, Some(DecisionRejected), slot.admissionReceiptRef, None,
                                  noted.eventRefs)))
                  && (Decides(host, slot, request, "expired") ==>
                        checked == Answered(
                          noted.(state := Expired, failureReason := Some(DecisionExpired),
                                 finalDecision := Some(decision)),
                          Resumed(Expired, None, Some(DecisionExpired), slot.admissionReceiptRef, None,
                                  noted.eventRefs)))
                  && (Decides(host, slot, request, "deferred") ==>
                        checked == Answered(
                          noted, Resumed(Pending, None, Some(StillDeferred), slot.admissionReceiptRef, None,
                                         noted.eventRefs)))
                  && (Decides(host, slot, request, "approved") ==>
                        if !request.arguments.Obj? then checked == Answered(slot, InvalidArguments)
                        else if host.hash(request.arguments) != slot.argumentDigest then
                          checked == Answered(slot.(state := Refused, failureReason := Some(ArgumentDigestMismatch),
                                                    finalDecision := Some(decision)), ArgumentMismatch)
                        else if OtherActor(slot, decision) then checked == Answered(slot, ActorMismatch)
                        else checked == Execute))
  {
    ValidIsProper(host, request.decision);
    OutcomesAreSpelled(request.decision.decision);
  }

  // A review object that can be acted on, and the digest it was made for.
  predicate Actionable(host: Host, review: ReviewObject, digest: string)
  {
    && (review.argumentHash == Some(digest) || review.argumentHash.None?)
    && (review.legacyHash == Some(digest) || review.legacyHash.None?)
    && (review.argumentHash.Some? || review.legacyHash.Some?)
    && AttestedDigest(host, digest)
    && (review.gateTimeoutSeconds.Some? ==> review.gateTimeoutSeconds.value > 0)
  }

  lemma ReviewIsActionable(host: Host, review: ReviewObject, digest: string)
    ensures ValidReviewObject(host, review) && ResolvedHash(review) == Some(digest) <==>
            Actionable(host, review, digest)
  {}

  /** The readiness summary allows execution exactly when the review object names
      one attested digest, under whichever member, the submitted arguments have
      it, and a proper decision spells "approved". */
  lemma ReadinessIsTold(host: Host, review: ReviewObject, decision: Option<ReviewDecision>, arguments: JsonTrees.Json)
    ensures var ready := ExecutionReadiness(host, review, decision, arguments);
            ready.Some? && ready.value.allowsExecution <==>
              && arguments.Obj? && Actionable(host, review, host.hash(arguments))
              && decision.Some? && Proper(host, decision.value) && Spells(decision.value.decision, "approved")
  {
    ReviewIsActionable(host, review, host.hash(arguments));
    if decision.Some? {
      ValidIsProper(host, decision.value);
      OutcomesAreSpelled(decision.value.decision);
    }
  }

  lemma ExecutesOnApproval(host: Host, slot: Slot, request: ResumeRequest)
    requires slot.finalDecision.None?
    ensures Check(host, slot, request) == Execute <==> slot.state == Pending && Approves(host, slot, request)
  {
    ValidIsProper(host, request.decision);
    OutcomesAreSpelled(request.decision.decision);
  }

  /** A deferral is accepted exactly when its arguments are an object with an
      attested digest, its tool and class are named, any time-out is positive, and
      the review sink took the object; the new slot is pending on that digest. */
  lemma DeferralIsAccepted(host: Host, request: DeferRequest)
    ensures DeferCall(host, request).Ok? <==>
            && request.arguments.Obj? && !Blank(request.toolName) && !Blank(request.toolClass)
            && AttestedDigest(host, host.hash(request.arguments))
            && (request.gateTimeoutSeconds.Some? ==> request.gateTimeoutSeconds.value > 0)
            && request.reviewSink.Some?
    ensures DeferCall(host, request).Ok? ==>
              DeferCall(host, request).value ==
              WithEvent(Slot(request.correlationRef, request.toolName, request.toolClass, host.hash(request.arguments),
                             request.now, request.reviewSink.value, request.gateTimeoutSeconds, Pending,
                             request.receipt, None, None, None, None, []), request.event)
  {
    GateIsNamed();
    ReviewIsBuilt(host, request.toolName, request.toolClass, "gate", HashArguments(host, request.arguments),
                  request.gateTimeoutSeconds);
  }

  // ---- Where slots come from -----------------------------------------------

  // What a slot keeps of its deferral.
  predicate MintedBy(host: Host, slot: Slot, request: DeferRequest)
  {
    && slot.correlationRef == request.correlationRef
    && slot.toolName == request.toolName && slot.toolClass == request.toolClass
    && request.arguments.Obj? && slot.argumentDigest == host.hash(request.arguments)
    && slot.createdAt == request.now && slot.gateTimeoutSeconds == request.gateTimeoutSeconds
  }

  ghost predicate Minted(host: Host, jobs: seq<Job>, slot: Slot)
  {
    exists j | 0 <= j < |jobs| && jobs[j].DeferJob? :: MintedBy(host, slot, jobs[j].defer)
  }

  // The same deferral.
  predicate SameMint(a: Slot, b: Slot)
  {
    && a.correlationRef == b.correlationRef && a.toolName == b.toolName && a.toolClass == b.toolClass
    && a.argumentDigest == b.argumentDigest && a.createdAt == b.createdAt
    && a.gateTimeoutSeconds == b.gateTimeoutSeconds
  }

  /** Why a terminal slot is as it is: what the resume that closed it brought. */
  ghost predicate ClosedBy(host: Host, slot: Slot, request: ResumeRequest)
  {
    && request.correlationRef == slot.correlationRef
    && (slot.failureReason != Some(GateTimeoutElapsed) ==> slot.finalDecision == Some(request.decision))
    && match slot.failureReason
       case None =>
         && slot.state == Admitted && Approves(host, slot, request)
         && request.ending.HandlerReturned? && slot.result == Some(request.ending.result)
       case Some(GateTimeoutElapsed) => slot.state == Expired && !InTime(slot, request.now)
       case Some(DecisionRejected) => slot.state == Refused && Decides(host, slot, request, "rejected")
       case Some(DecisionExpired) => slot.state == Expired && Decides(host, slot, request, "expired")
       case Some(ArgumentDigestMismatch) =>
         && slot.state == Refused && Decides(host, slot, request, "approved")
         && request.arguments.Obj? && host.hash(request.arguments) != slot.argumentDigest
       case Some(InnerExecutionFailure) =>
         slot.state == Refused && Approves(host, slot, request) && request.ending.HandlerRaised?
       case Some(StillDeferred) => false
  }

  ghost predicate Closed(host: Host, jobs: seq<Job>, slot: Slot)
  {
    exists i | 0 <= i < |jobs| && jobs[i].ResumeJob? :: ClosedBy(host, slot, jobs[i].resume)
  }

  // A slot tells its deferral, and, once it is terminal, the resume that closed it.
  ghost predicate SlotTold(host: Host, jobs: seq<Job>, ref: string, slot: Slot)
  {
    && slot.correlationRef == ref && Minted(host, jobs, slot)
    && if slot.state == Pending then slot.failureReason.None? && slot.result.None? && slot.finalDecision.None?
       else Closed(host, jobs, slot)
  }

  ghost predicate SlotsTold(host: Host, jobs: seq<Job>, slots: map<string, Slot>)
  {
    forall ref | ref in slots :: SlotTold(host, jobs, ref, slots[ref])
  }

  // A running handler was started on an approval.
  ghost predicate RunApproved(host: Host, jobs: seq<Job>, sys: System, i: int)
    requires |sys.phases| == |jobs| && 0 <= i < |jobs|
  {
    jobs[i].ResumeJob? && sys.phases[i].Running? ==>
      && jobs[i].resume.correlationRef in sys.slots
      && Approves(host, sys.slots[jobs[i].resume.correlationRef], jobs[i].resume)
  }

  ghost predicate RunsApproved(host: Host, jobs: seq<Job>, sys: System)
    requires |sys.phases| == |jobs|
  {
    forall i | 0 <= i < |jobs| :: RunApproved(host, jobs, sys, i)
  }

  lemma StillMinted(host: Host, jobs: seq<Job>, a: Slot, b: Slot)
    requires Minted(host, jobs, a) && SameMint(a, b)
    ensures Minted(host, jobs, b)
  {
    var j :| 0 <= j < |jobs| && jobs[j].DeferJob? && MintedBy(host, a, jobs[j].defer);
    assert MintedBy(host, b, jobs[j].defer);
  }

  lemma MintTold(host: Host, jobs: seq<Job>, j: nat)
    requires j < |jobs| && jobs[j].DeferJob? && DeferCall(host, jobs[j].defer).Ok?
    ensures SlotTold(host, jobs, jobs[j].defer.correlationRef, DeferCall(host, jobs[j].defer).value)
  {
    assert MintedBy(host, DeferCall(host, jobs[j].defer).value, jobs[j].defer);
  }

  // The checks leave a slot that still tells, of the same deferral.
  lemma CheckTold(host: Host, jobs: seq<Job>, i: nat, slot: Slot)
    requires i < |jobs| && jobs[i].ResumeJob? && SlotTold(host, jobs, jobs[i].resume.correlationRef, slot)
    requires Check(host, slot, jobs[i].resume).Answered?
    ensures var slot' := Check(host, slot, jobs[i].resume).slot;
            SameMint(slot, slot') && SlotTold(host, jobs, jobs[i].resume.correlationRef, slot')
  {
    var request := jobs[i].resume;
    var slot' := Check(host, slot, request).slot;
    ValidIsProper(host, request.decision);
    OutcomesAreSpelled(request.decision.decision);
    StillMinted(host, jobs, slot, slot');
    if slot.state == Pending && slot'.state != Pending {
      assert ClosedBy(host, slot', request);
    }
  }

  lemma FinishTold(host: Host, jobs: seq<Job>, i: nat, slot: Slot)
    requires i < |jobs| && jobs[i].ResumeJob? && SlotTold(host, jobs, jobs[i].resume.correlationRef, slot)
    requires slot.state == Pending && Approves(host, slot, jobs[i].resume)
    ensures var slot' := FinishResume(slot, jobs[i].resume).0;
            SameMint(slot, slot') && SlotTold(host, jobs, jobs[i].resume.correlationRef, slot')
  {
    var slot' := FinishResume(slot, jobs[i].resume).0;
    StillMinted(host, jobs, slot, slot');
    assert ClosedBy(host, slot', jobs[i].resume);
  }

  // No slot loses its deferral.
  predicate Kept(slots: map<string, Slot>, slots': map<string, Slot>)
  {
    forall ref | ref in slots :: ref in slots' && SameMint(slots[ref], slots'[ref])
  }

  lemma OneSlotTold(host: Host, jobs: seq<Job>, slots: map<string, Slot>, ref: string, slot: Slot)
    requires SlotsTold(host, jobs, slots) && SlotTold(host, jobs, ref, slot)
    requires ref in slots ==> SameMint(slots[ref], slot)
    ensures SlotsTold(host, jobs, slots[ref := slot]) && Kept(slots, slots[ref := slot])
  {}

  // What a resuming thread does to the slots.
  lemma ResumeSlots(host: Host, jobs: seq<Job>, sys: System, i: nat)
    requires |sys.phases| == |jobs| && i < |jobs| && jobs[i].ResumeJob?
    ensures var ref, slots := jobs[i].resume.correlationRef, Step(host, jobs, sys, i).slots;
            if ref in sys.slots && sys.phases[i].Holding? && Check(host, sys.slots[ref], jobs[i].resume).Answered? then
              slots == sys.slots[ref := Check(host, sys.slots[ref], jobs[i].resume).slot]
            else if ref in sys.slots && sys.phases[i].Running? then
              slots == sys.slots[ref := FinishResume(sys.slots[ref], jobs[i].resume).0]
            else slots == sys.slots
  {}

  lemma StepTellsSlots(host: Host, jobs: seq<Job>, sys: System, i: nat)
    requires |sys.phases| == |jobs| && Inv(host, jobs, sys) && i < |jobs|
    requires SlotsTold(host, jobs, sys.slots) && RunsApproved(host, jobs, sys)
    ensures SlotsTold(host, jobs, Step(host, jobs, sys, i).slots) && Kept(sys.slots, Step(host, jobs, sys, i).slots)
  {
    assert ThreadInv(jobs, sys, i);
    if jobs[i].DeferJob? {
      if sys.phases[i].Ready? && DeferCall(host, jobs[i].defer).Ok? {
        MintTold(host, jobs, i);
        OneSlotTold(host, jobs, sys.slots, jobs[i].defer.correlationRef, DeferCall(host, jobs[i].defer).value);
      }
    } else {
      ResumeTellsSlots(host, jobs, sys, i);
    }
  }

  lemma ResumeTellsSlots(host: Host, jobs: seq<Job>, sys: System, i: nat)
    requires |sys.phases| == |jobs| && HistoryInv(sys) && i < |jobs| && jobs[i].ResumeJob?
    requires LocksInv(jobs, sys.phases, sys.holder)
    requires SlotsTold(host, jobs, sys.slots) && RunsApproved(host, jobs, sys)
    ensures SlotsTold(host, jobs, Step(host, jobs, sys, i).slots) && Kept(sys.slots, Step(host, jobs, sys, i).slots)
  {
    var ref := jobs[i].resume.correlationRef;
    ResumeSlots(host, jobs, sys, i);
    if ref in sys.slots {
      if sys.phases[i].Holding? && Check(host, sys.slots[ref], jobs[i].resume).Answered? {
        CheckTold(host, jobs, i, sys.slots[ref]);
        OneSlotTold(host, jobs, sys.slots, ref, Check(host, sys.slots[ref], jobs[i].resume).slot);
      } else if sys.phases[i].Running? {
        assert RunsInv(sys, ref) && RunApproved(host, jobs, sys, i);
        FinishTold(host, jobs, i, sys.slots[ref]);
        OneSlotTold(host, jobs, sys.slots, ref, FinishResume(sys.slots[ref], jobs[i].resume).0);
      }
    }
  }

  lemma StillApproved(host: Host, slot: Slot, slot': Slot, request: ResumeRequest)
    requires Approves(host, slot, request) && SameMint(slot, slot')
    ensures Approves(host, slot', request)
  {}

  // A thread is in its handler after its own move only if its check came to that.
  lemma StartsByCheck(host: Host, jobs: seq<Job>, sys: System, i: nat)
    requires |sys.phases| == |jobs| && i < |jobs| && jobs[i].ResumeJob?
    requires jobs[i].resume.correlationRef in sys.slots && Step(host, jobs, sys, i).phases[i].Running?
    ensures Check(host, sys.slots[jobs[i].resume.correlationRef], jobs[i].resume) == Execute
    ensures Step(host, jobs, sys, i).slots == sys.slots && sys.phases[i].Holding?
  {}

  lemma OthersKeepPhases(host: Host, jobs: seq<Job>, sys: System, i: nat, j: nat)
    requires |sys.phases| == |jobs| && i < |jobs| && j < |jobs| && j != i
    ensures Step(host, jobs, sys, i).phases[j] == sys.phases[j]
  {}

  lemma StepTellsRuns(host: Host, jobs: seq<Job>, sys: System, i: nat, j: nat)
    requires |sys.phases| == |jobs| && ThreadsInv(jobs, sys) && i < |jobs| && j < |jobs|
    requires SlotsTold(host, jobs, sys.slots) && RunApproved(host, jobs, sys, j)
    requires Kept(sys.slots, Step(host, jobs, sys, i).slots)
    ensures RunApproved(host, jobs, Step(host, jobs, sys, i), j)
  {
    var sys' := Step(host, jobs, sys, i);
    if jobs[j].ResumeJob? && sys'.phases[j].Running? {
      var ref, request := jobs[j].resume.correlationRef, jobs[j].resume;
      assert ThreadInv(jobs, sys, j);
      if j == i {
        RunningHasSlot(host, jobs, sys, i);
        StartsByCheck(host, jobs, sys, i);
        assert SlotTold(host, jobs, ref, sys.slots[ref]);
        ResumeIsDecided(host, sys.slots[ref], request);
        ExecutesOnApproval(host, sys.slots[ref], request);
      } else {
        OthersKeepPhases(host, jobs, sys, i, j);
        StillApproved(host, sys.slots[ref], sys'.slots[ref], request);
      }
    }
  }

  lemma RunningHasSlot(host: Host, jobs: seq<Job>, sys: System, i: nat)
    requires |sys.phases| == |jobs| && i < |jobs| && jobs[i].ResumeJob? && ThreadInv(jobs, sys, i)
    requires Step(host, jobs, sys, i).phases[i].Running?
    ensures jobs[i].resume.correlationRef in sys.slots
  {}

  lemma {:induction false} ToldAlways(host: Host, jobs: seq<Job>, schedule: seq<nat>)
    requires FreshRefs(jobs)
    ensures var sys := Exec(host, jobs, schedule);
            SlotsTold(host, jobs, sys.slots) && RunsApproved(host, jobs, sys)
  {
    if |schedule| > 0 {
      var before, i := schedule[..|schedule| - 1], schedule[|schedule| - 1];
      ToldAlways(host, jobs, before);
      InvAlways(host, jobs, before);
      if i < |jobs| {
        StepTellsSlots(host, jobs, Exec(host, jobs, before), i);
        var sys := Exec(host, jobs, before);
        forall j: int | 0 <= j < |jobs| ensures RunApproved(host, jobs, Exec(host, jobs, schedule), j) {
          assert RunApproved(host, jobs, sys, j);
          StepTellsRuns(host, jobs, sys, i, j);
        }
      }
    }
  }

  // ---- Main results --------------------------------------------------------

  /** In every state of every run each slot holds the digest, time-out and time of
      the one call that deferred it, and is pending without a decision, or was
      closed by one resume for the reason it gives: admitted with the result of
      the handler that an approval of the deferred arguments started, or refused
      or expired for a decision, a time-out, other arguments, or a failed handler
      that some resume of this slot really brought. */
  lemma EverySlotTells(host: Host, jobs: seq<Job>, schedule: seq<nat>, ref: string)
    requires FreshRefs(jobs) && ref in Exec(host, jobs, schedule).slots
    ensures SlotTold(host, jobs, ref, Exec(host, jobs, schedule).slots[ref])
  {
    ToldAlways(host, jobs, schedule);
  }

  /** In every run a thread that holds its slot starts the handler exactly when
      the slot is pending and the decision spells "approved", came in time, is not
      older than the deferral, and names the very arguments that were deferred. */
  lemma HandlerStartsOnApproval(host: Host, jobs: seq<Job>, schedule: seq<nat>, i: nat)
    requires FreshRefs(jobs) && i < |jobs| && jobs[i].ResumeJob?
    requires Exec(host, jobs, schedule).phases[i].Holding?
    ensures var sys := Exec(host, jobs, schedule);
            var request := jobs[i].resume;
            && request.correlationRef in sys.slots
            && var slot := sys.slots[request.correlationRef];
               Step(host, jobs, sys, i).phases[i].Running? <==> slot.state == Pending && Approves(host, slot, request)
  {
    InvAlways(host, jobs, schedule);
    ToldAlways(host, jobs, schedule);
    var sys := Exec(host, jobs, schedule);
    var ref := jobs[i].resume.correlationRef;
    assert ThreadInv(jobs, sys, i) && SlotTold(host, jobs, ref, sys.slots[ref]);
    if sys.slots[ref].state == Pending {
      ExecutesOnApproval(host, sys.slots[ref], jobs[i].resume);
    }
  }

  /** A running handler, in any state of any run, was approved: by a decision that
      spells "approved", for arguments with the digest of those deferred. */
  lemma RunningIsApproved(host: Host, jobs: seq<Job>, schedule: seq<nat>, i: nat)
    requires FreshRefs(jobs) && i < |jobs| && jobs[i].ResumeJob?
    requires Exec(host, jobs, schedule).phases[i].Running?
    ensures exists j | 0 <= j < |jobs| && jobs[j].DeferJob? ::
              && jobs[j].defer.correlationRef == jobs[i].resume.correlationRef
              && jobs[j].defer.arguments.Obj? && jobs[i].resume.arguments.Obj?
              && host.hash(jobs[i].resume.arguments) == host.hash(jobs[j].defer.arguments)
              && Spells(jobs[i].resume.decision.decision, "approved")
              && (jobs[j].defer.gateTimeoutSeconds.Some? ==>
                    jobs[i].resume.now <= jobs[j].defer.now + jobs[j].defer.gateTimeoutSeconds.value)
  {
    ToldAlways(host, jobs, schedule);
    var sys := Exec(host, jobs, schedule);
    assert RunApproved(host, jobs, sys, i);
    var slot := sys.slots[jobs[i].resume.correlationRef];
    var j :| 0 <= j < |jobs| && jobs[j].DeferJob? && MintedBy(host, slot, jobs[j].defer);
    assert jobs[j].defer.correlationRef == jobs[i].resume.correlationRef;
  }
}
