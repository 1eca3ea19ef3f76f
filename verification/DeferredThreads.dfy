/** Any number of threads deferring and resuming on one boundary: the store lock
    covers insertion and lookup, each slot has its own lock, and the handler runs
    with that lock held. A schedule says which thread moves next, so the states
    of `Exec` over all schedules are those of all interleavings. */
module DeferredThreads {
  import opened Prelude
  import opened Disposition
  import opened DeferredBoundary

  datatype Job = DeferJob(defer: DeferRequest) | ResumeJob(resume: ResumeRequest)

  /** A resuming thread looks the slot up, waits for its lock, checks with the
      lock held, perhaps runs the handler, and releases. */
  datatype Phase =
    | Ready
    | Found
    | Holding
    | Running
    | Releasing(reply: ResumeReply)
    | Done(answer: Option<ResumeReply>)

  /** The shared store, who holds which lock, the review objects minted so far
      and, as history, how often each slot's handler was started. */
  datatype System = System(
    slots: map<string, Slot>, reviews: map<string, ReviewObject>, holder: map<string, nat>,
    runs: map<string, nat>, phases: seq<Phase>)

  function Runs(sys: System, ref: string): nat
  {
    if ref in sys.runs then sys.runs[ref] else 0
  }

  predicate Locked(phase: Phase)
  {
    phase.Holding? || phase.Running? || phase.Releasing?
  }

  function DeferStep(host: Host, request: DeferRequest, sys: System, i: nat): System
    requires i < |sys.phases|
  {
    match DeferCall(host, request)
    case Err(_) => sys.(phases := sys.phases[i := Done(None)])
    case Ok(slot) =>
      sys.(slots := sys.slots[request.correlationRef := slot],
           reviews := sys.reviews[request.correlationRef := ReviewOf(host, request).value],
           phases := sys.phases[i := Done(None)])
  }

  function ResumeStep(host: Host, request: ResumeRequest, sys: System, i: nat): System
    requires i < |sys.phases|
  {
    var ref := request.correlationRef;
    match sys.phases[i]
    case Ready =>
      sys.(phases := sys.phases[i := if ref in sys.slots then Found else Done(Some(SlotNotFound))])
    case Found =>
      if ref in sys.holder then sys
      else sys.(holder := sys.holder[ref := i], phases := sys.phases[i := Holding])
    case Holding =>
      if ref !in sys.slots then sys
      else
        (match Check(host, sys.slots[ref], request)
         case Answered(slot, reply) =>
           sys.(slots := sys.slots[ref := slot], phases := sys.phases[i := Releasing(reply)])
         case Execute =>
           sys.(runs := sys.runs[ref := Runs(sys, ref) + 1], phases := sys.phases[i := Running]))
    case Running =>
      if ref !in sys.slots then sys
      else
        var (slot, reply) := FinishResume(sys.slots[ref], request);
        sys.(slots := sys.slots[ref := slot], phases := sys.phases[i := Releasing(reply)])
    case Releasing(reply) =>
      sys.(holder := sys.holder - {ref}, phases := sys.phases[i := Done(Some(reply))])
    case Done(_) => sys
  }

  function Step(host: Host, jobs: seq<Job>, sys: System, i: nat): (sys': System)
    requires |sys.phases| == |jobs|
    ensures |sys'.phases| == |jobs|
  {
    if i >= |jobs| then sys
    else
      match jobs[i]
      case DeferJob(request) => if sys.phases[i].Ready? then DeferStep(host, request, sys, i) else sys
      case ResumeJob(request) => ResumeStep(host, request, sys, i)
  }

  function Start(jobs: seq<Job>): System
  {
    System(map[], map[], map[], map[], seq(|jobs|, _ => Ready))
  }

  function Exec(host: Host, jobs: seq<Job>, schedule: seq<nat>): (sys: System)
    ensures |sys.phases| == |jobs|
  {
    if |schedule| == 0 then Start(jobs)
    else Step(host, jobs, Exec(host, jobs, schedule[..|schedule| - 1]), schedule[|schedule| - 1])
  }

  // The uuid factory never repeats a reference.
  predicate FreshRefs(jobs: seq<Job>)
  {
    forall i, j | 0 <= i < j < |jobs| && jobs[i].DeferJob? && jobs[j].DeferJob? ::
      jobs[i].defer.correlationRef != jobs[j].defer.correlationRef
  }

  // ---- Invariants ----------------------------------------------------------

  // A lock has one holder, which is inside its critical section.
  predicate LocksInv(jobs: seq<Job>, phases: seq<Phase>, holder: map<string, nat>)
    requires |phases| == |jobs|
  {
    && (forall ref | ref in holder ::
          && holder[ref] < |jobs| && Locked(phases[holder[ref]])
          && jobs[holder[ref]].ResumeJob? && jobs[holder[ref]].resume.correlationRef == ref)
    && (forall i | 0 <= i < |jobs| && Locked(phases[i]) ::
          && jobs[i].ResumeJob?
          && jobs[i].resume.correlationRef in holder && holder[jobs[i].resume.correlationRef] == i)
  }

  /** A slot agrees with the review object minted with it: same digest, same
      time-out, which is positive. */
  predicate InSync(host: Host, slot: Slot, review: ReviewObject)
  {
    && ValidReviewObject(host, review) && ResolvedHash(review) == Some(slot.argumentDigest)
    && review.gateTimeoutSeconds == slot.gateTimeoutSeconds
    && (slot.gateTimeoutSeconds.Some? ==> slot.gateTimeoutSeconds.value > 0)
  }

  // The handler of this slot has been started and has ended.
  predicate HandlerEnded(slot: Slot)
  {
    slot.state == Admitted || (slot.state == Refused && slot.failureReason == Some(InnerExecutionFailure))
  }

  predicate SlotInv(host: Host, ref: string, slot: Slot, reviews: map<string, ReviewObject>)
  {
    && slot.correlationRef == ref && ref in reviews && InSync(host, slot, reviews[ref])
    && (slot.state == Pending ==> slot.finalDecision.None? && slot.result.None?)
  }

  predicate InHandler(sys: System, ref: string)
  {
    ref in sys.holder && sys.holder[ref] < |sys.phases| && sys.phases[sys.holder[ref]].Running?
  }

  // A handler was started exactly when it is running or has ended.
  predicate RunsInv(sys: System, ref: string)
  {
    && (ref !in sys.slots ==> Runs(sys, ref) == 0 && !InHandler(sys, ref))
    && (ref in sys.slots ==>
          && (InHandler(sys, ref) ==> sys.slots[ref].state == Pending)
          && Runs(sys, ref) == if InHandler(sys, ref) || HandlerEnded(sys.slots[ref]) then 1 else 0)
  }

  // Threads past their lookup know an existing slot; waiting deferrals have a
  // reference of their own; no reply blames the actor.
  predicate ThreadInv(jobs: seq<Job>, sys: System, i: int)
    requires |sys.phases| == |jobs| && 0 <= i < |jobs|
  {
    && (jobs[i].ResumeJob? && (sys.phases[i].Found? || Locked(sys.phases[i])) ==>
        jobs[i].resume.correlationRef in sys.slots)
    && (jobs[i].DeferJob? && sys.phases[i].Ready? ==> jobs[i].defer.correlationRef !in sys.slots)
    && (jobs[i].DeferJob? ==> sys.phases[i] == Ready || sys.phases[i] == Done(None))
    && sys.phases[i] != Releasing(ActorMismatch) && sys.phases[i] != Done(Some(ActorMismatch))
  }

  ghost predicate SlotsInv(host: Host, slots: map<string, Slot>, reviews: map<string, ReviewObject>)
  {
    forall ref | ref in slots :: SlotInv(host, ref, slots[ref], reviews)
  }

  ghost predicate HistoryInv(sys: System)
  {
    forall ref :: RunsInv(sys, ref)
  }

  ghost predicate ThreadsInv(jobs: seq<Job>, sys: System)
    requires |sys.phases| == |jobs|
  {
    forall i | 0 <= i < |jobs| :: ThreadInv(jobs, sys, i)
  }

  ghost predicate Inv(host: Host, jobs: seq<Job>, sys: System)
    requires |sys.phases| == |jobs|
  {
    LocksInv(jobs, sys.phases, sys.holder) && SlotsInv(host, sys.slots, sys.reviews) && HistoryInv(sys)
        && ThreadsInv(jobs, sys)
  }

  // A move that neither takes nor gives up a lock.
  lemma LocksKept(jobs: seq<Job>, phases: seq<Phase>, holder: map<string, nat>, i: nat, phase: Phase)
    requires |phases| == |jobs| && i < |jobs| && LocksInv(jobs, phases, holder) && Locked(phases[i]) == Locked(phase)
    ensures LocksInv(jobs, phases[i := phase], holder)
  {}

  lemma LockTaken(jobs: seq<Job>, phases: seq<Phase>, holder: map<string, nat>, i: nat)
    requires |phases| == |jobs| && i < |jobs| && LocksInv(jobs, phases, holder)
    requires jobs[i].ResumeJob? && jobs[i].resume.correlationRef !in holder && !Locked(phases[i])
    ensures LocksInv(jobs, phases[i := Holding], holder[jobs[i].resume.correlationRef := i])
  {}

  lemma LockGivenUp(jobs: seq<Job>, phases: seq<Phase>, holder: map<string, nat>, i: nat, phase: Phase)
    requires |phases| == |jobs| && i < |jobs| && LocksInv(jobs, phases, holder)
    requires jobs[i].ResumeJob? && Locked(phases[i]) && !Locked(phase)
    ensures LocksInv(jobs, phases[i := phase], holder - {jobs[i].resume.correlationRef})
  {}

  // Threads other than i keep what they know when slots are only added, and no
  // slot is added under the reference of a waiting deferral.
  lemma ThreadsKept(jobs: seq<Job>, sys: System, sys': System, i: nat)
    requires |sys.phases| == |jobs| && i < |jobs| && ThreadsInv(jobs, sys)
    requires |sys'.phases| == |jobs| && sys'.phases == sys.phases[i := sys'.phases[i]]
    requires sys.slots.Keys <= sys'.slots.Keys && ThreadInv(jobs, sys', i)
    requires forall j | 0 <= j < |jobs| && j != i && jobs[j].DeferJob? && jobs[j].defer.correlationRef in sys'.slots ::
               jobs[j].defer.correlationRef in sys.slots
    ensures ThreadsInv(jobs, sys')
  {
    forall j | 0 <= j < |jobs| ensures ThreadInv(jobs, sys', j) {
      assert ThreadInv(jobs, sys, j);
    }
  }

  // The history of every reference but one is untouched.
  lemma HistoryKept(sys: System, sys': System, ref0: string)
    requires HistoryInv(sys) && RunsInv(sys', ref0)
    requires forall ref | ref != ref0 ::
               && (ref in sys'.slots <==> ref in sys.slots)
               && (ref in sys.slots ==> sys'.slots[ref] == sys.slots[ref])
               && Runs(sys', ref) == Runs(sys, ref) && InHandler(sys', ref) == InHandler(sys, ref)
    ensures HistoryInv(sys')
  {
    forall ref ensures RunsInv(sys', ref) {
      assert RunsInv(sys, ref);
    }
  }

  lemma SlotReplaced(host: Host, slots: map<string, Slot>, reviews: map<string, ReviewObject>, ref: string, slot: Slot)
    requires SlotsInv(host, slots, reviews) && SlotInv(host, ref, slot, reviews)
    ensures SlotsInv(host, slots[ref := slot], reviews)
  {}

  lemma SlotAdded(
    host: Host, slots: map<string, Slot>, reviews: map<string, ReviewObject>, ref: string, slot: Slot,
    review: ReviewObject)
    requires SlotsInv(host, slots, reviews) && ref !in slots && SlotInv(host, ref, slot, reviews[ref := review])
    ensures SlotsInv(host, slots[ref := slot], reviews[ref := review])
  {}

  // ---- Each move -----------------------------------------------------------

  /** A deferral mints a slot in step with its review object, and starts no
      handler. */
  lemma MintedInSync(host: Host, request: DeferRequest)
    requires DeferCall(host, request).Ok?
    ensures ReviewOf(host, request).Some?
    ensures InSync(host, DeferCall(host, request).value, ReviewOf(host, request).value)
    ensures var slot := DeferCall(host, request).value;
            slot.correlationRef == request.correlationRef && slot.state == Pending
            && slot.finalDecision.None? && slot.result.None? && !HandlerEnded(slot)
  {}

  lemma DeferPreserves(host: Host, jobs: seq<Job>, sys: System, i: nat)
    requires |sys.phases| == |jobs| && FreshRefs(jobs)
    requires Inv(host, jobs, sys) && i < |jobs| && jobs[i].DeferJob? && sys.phases[i].Ready?
    ensures Inv(host, jobs, Step(host, jobs, sys, i))
  {
    var request := jobs[i].defer;
    var ref := request.correlationRef;
    var sys' := Step(host, jobs, sys, i);
    assert ThreadInv(jobs, sys, i) && RunsInv(sys, ref);
    LocksKept(jobs, sys.phases, sys.holder, i, Done(None));
    if DeferCall(host, request).Ok? {
      MintedInSync(host, request);
      SlotAdded(host, sys.slots, sys.reviews, ref, DeferCall(host, request).value, ReviewOf(host, request).value);
    }
    HandlersElsewhere(jobs, sys, sys', i);
    HistoryKept(sys, sys', ref);
    ThreadsKept(jobs, sys, sys', i);
  }

  // Which handlers run is decided by the phases of lock holders.
  lemma HandlersElsewhere(jobs: seq<Job>, sys: System, sys': System, i: nat)
    requires |sys.phases| == |jobs| && i < |jobs| && LocksInv(jobs, sys.phases, sys.holder)
    requires |sys'.phases| == |jobs| && sys'.phases == sys.phases[i := sys'.phases[i]]
    requires sys'.holder == sys.holder && sys.phases[i].Running? == sys'.phases[i].Running?
    ensures forall ref :: InHandler(sys', ref) == InHandler(sys, ref)
  {}

  lemma HandlersOfOthers(jobs: seq<Job>, sys: System, sys': System, i: nat)
    requires |sys.phases| == |jobs| && i < |jobs| && jobs[i].ResumeJob? && LocksInv(jobs, sys.phases, sys.holder)
    requires |sys'.phases| == |jobs| && sys'.phases == sys.phases[i := sys'.phases[i]]
    requires forall ref | ref != jobs[i].resume.correlationRef ::
               && (ref in sys'.holder <==> ref in sys.holder)
                    && (ref in sys.holder ==> sys'.holder[ref] == sys.holder[ref])
    ensures forall ref | ref != jobs[i].resume.correlationRef :: InHandler(sys', ref) == InHandler(sys, ref)
  {}

  lemma LookupPreserves(host: Host, jobs: seq<Job>, sys: System, i: nat)
    requires |sys.phases| == |jobs| && Inv(host, jobs, sys) && i < |jobs| && jobs[i].ResumeJob? && sys.phases[i].Ready?
    ensures Inv(host, jobs, Step(host, jobs, sys, i))
  {
    var sys' := Step(host, jobs, sys, i);
    var ref := jobs[i].resume.correlationRef;
    LocksKept(jobs, sys.phases, sys.holder, i, sys'.phases[i]);
    HandlersElsewhere(jobs, sys, sys', i);
    assert RunsInv(sys, ref);
    HistoryKept(sys, sys', ref);
    ThreadsKept(jobs, sys, sys', i);
  }

  lemma AcquirePreserves(host: Host, jobs: seq<Job>, sys: System, i: nat)
    requires |sys.phases| == |jobs| && Inv(host, jobs, sys) && i < |jobs| && jobs[i].ResumeJob? && sys.phases[i].Found?
    ensures Inv(host, jobs, Step(host, jobs, sys, i))
  {
    var sys' := Step(host, jobs, sys, i);
    var ref := jobs[i].resume.correlationRef;
    if ref !in sys.holder {
      LockTaken(jobs, sys.phases, sys.holder, i);
      HandlersOfOthers(jobs, sys, sys', i);
      assert RunsInv(sys, ref) && ThreadInv(jobs, sys, i);
      HistoryKept(sys, sys', ref);
      ThreadsKept(jobs, sys, sys', i);
    }
  }

  /** What a check leaves: a terminal slot untouched, a pending slot still
      without a decision, no started handler, and no blamed actor. */
  lemma CheckEffect(host: Host, ref: string, slot: Slot, reviews: map<string, ReviewObject>, request: ResumeRequest)
    requires SlotInv(host, ref, slot, reviews)
    ensures match Check(host, slot, request)
            case Answered(slot', reply) =>
              && SlotInv(host, ref, slot', reviews) && reply != ActorMismatch
              && (TerminalState(slot.state) ==> slot' == slot)
              && HandlerEnded(slot') == HandlerEnded(slot)
            case Execute => slot.state == Pending
  {}

  lemma CheckPreserves(host: Host, jobs: seq<Job>, sys: System, i: nat)
    requires |sys.phases| == |jobs| && Inv(host, jobs, sys) && i < |jobs| && jobs[i].ResumeJob?
             && sys.phases[i].Holding?
    ensures Inv(host, jobs, Step(host, jobs, sys, i))
  {
    var request := jobs[i].resume;
    var ref := request.correlationRef;
    var sys' := Step(host, jobs, sys, i);
    assert RunsInv(sys, ref) && ThreadInv(jobs, sys, i);
    assert !InHandler(sys, ref);
    CheckEffect(host, ref, sys.slots[ref], sys.reviews, request);
    LocksKept(jobs, sys.phases, sys.holder, i, sys'.phases[i]);
    HandlersOfOthers(jobs, sys, sys', i);
    if Check(host, sys.slots[ref], request).Answered? {
      SlotReplaced(host, sys.slots, sys.reviews, ref, sys'.slots[ref]);
    }
    HistoryKept(sys, sys', ref);
    ThreadsKept(jobs, sys, sys', i);
  }

  lemma FinishPreserves(host: Host, jobs: seq<Job>, sys: System, i: nat)
    requires |sys.phases| == |jobs| && Inv(host, jobs, sys) && i < |jobs| && jobs[i].ResumeJob?
             && sys.phases[i].Running?
    ensures Inv(host, jobs, Step(host, jobs, sys, i))
  {
    var request := jobs[i].resume;
    var ref := request.correlationRef;
    var sys' := Step(host, jobs, sys, i);
    assert RunsInv(sys, ref) && ThreadInv(jobs, sys, i);
    assert InHandler(sys, ref);
    LocksKept(jobs, sys.phases, sys.holder, i, sys'.phases[i]);
    HandlersOfOthers(jobs, sys, sys', i);
    SlotReplaced(host, sys.slots, sys.reviews, ref, FinishResume(sys.slots[ref], request).0);
    HistoryKept(sys, sys', ref);
    ThreadsKept(jobs, sys, sys', i);
  }

  lemma ReleasePreserves(host: Host, jobs: seq<Job>, sys: System, i: nat)
    requires |sys.phases| == |jobs| && Inv(host, jobs, sys) && i < |jobs| && jobs[i].ResumeJob?
             && sys.phases[i].Releasing?
    ensures Inv(host, jobs, Step(host, jobs, sys, i))
  {
    var ref := jobs[i].resume.correlationRef;
    var sys' := Step(host, jobs, sys, i);
    assert RunsInv(sys, ref) && ThreadInv(jobs, sys, i);
    LockGivenUp(jobs, sys.phases, sys.holder, i, sys'.phases[i]);
    HandlersOfOthers(jobs, sys, sys', i);
    HistoryKept(sys, sys', ref);
    ThreadsKept(jobs, sys, sys', i);
  }

  lemma StepPreserves(host: Host, jobs: seq<Job>, sys: System, i: nat)
    requires |sys.phases| == |jobs| && FreshRefs(jobs) && Inv(host, jobs, sys)
    ensures Inv(host, jobs, Step(host, jobs, sys, i))
  {
    if i < |jobs| {
      if jobs[i].DeferJob? {
        if sys.phases[i].Ready? {
          DeferPreserves(host, jobs, sys, i);
        }
      } else {
        match sys.phases[i] {
          case Ready => LookupPreserves(host, jobs, sys, i);
          case Found => AcquirePreserves(host, jobs, sys, i);
          case Holding => CheckPreserves(host, jobs, sys, i);
          case Running => FinishPreserves(host, jobs, sys, i);
          case Releasing(_) => ReleasePreserves(host, jobs, sys, i);
          case Done(_) =>
        }
      }
    }
  }

  lemma {:induction false} InvAlways(host: Host, jobs: seq<Job>, schedule: seq<nat>)
    requires FreshRefs(jobs)
    ensures Inv(host, jobs, Exec(host, jobs, schedule))
  {
    if |schedule| > 0 {
      InvAlways(host, jobs, schedule[..|schedule| - 1]);
      StepPreserves(host, jobs, Exec(host, jobs, schedule[..|schedule| - 1]), schedule[|schedule| - 1]);
    }
  }

  // ---- Main results --------------------------------------------------------

  /** At most once: in every reachable state each slot's handler was started at
      most once, and it was started exactly when it is running under the slot's
      lock or the slot is admitted, or refused for its failure. */
  lemma HandlerAtMostOnce(host: Host, jobs: seq<Job>, schedule: seq<nat>, ref: string)
    requires FreshRefs(jobs)
    ensures var sys := Exec(host, jobs, schedule);
            && Runs(sys, ref) <= 1
            && (Runs(sys, ref) == 1 <==> InHandler(sys, ref) || (ref in sys.slots && HandlerEnded(sys.slots[ref])))
  {
    InvAlways(host, jobs, schedule);
    assert RunsInv(Exec(host, jobs, schedule), ref);
  }

  /** No two threads are inside the critical section of one slot. */
  lemma MutualExclusion(host: Host, jobs: seq<Job>, schedule: seq<nat>, i: nat, j: nat)
    requires FreshRefs(jobs) && i < j < |jobs|
    requires var phases := Exec(host, jobs, schedule).phases; Locked(phases[i]) && Locked(phases[j])
    ensures jobs[i].ResumeJob? && jobs[j].ResumeJob? && jobs[i].resume.correlationRef != jobs[j].resume.correlationRef
  {
    InvAlways(host, jobs, schedule);
  }

  /** Every reachable slot that is still pending carries no decision, so the
      check that compares a decision's actor with an earlier one never fires. */
  lemma ActorCheckNeverFires(host: Host, jobs: seq<Job>, schedule: seq<nat>, ref: string, decision: ReviewDecision)
    requires FreshRefs(jobs)
    requires ref in Exec(host, jobs, schedule).slots && Exec(host, jobs, schedule).slots[ref].state == Pending
    ensures Exec(host, jobs, schedule).slots[ref].finalDecision.None?
    ensures !ActorClash(Exec(host, jobs, schedule).slots[ref], decision)
  {
    InvAlways(host, jobs, schedule);
    assert SlotInv(host, ref, Exec(host, jobs, schedule).slots[ref], Exec(host, jobs, schedule).reviews);
  }

  /** No move of a deferring thread starts a handler or touches another slot. */
  lemma DeferralRunsNothing(host: Host, jobs: seq<Job>, sys: System, i: nat, ref: string)
    requires |sys.phases| == |jobs| && i < |jobs| && jobs[i].DeferJob?
    ensures var sys' := Step(host, jobs, sys, i);
            && Runs(sys', ref) == Runs(sys, ref)
            && (ref in sys.slots && ref != jobs[i].defer.correlationRef ==>
                ref in sys'.slots && sys'.slots[ref] == sys.slots[ref])
  {}

  lemma TerminalStep(host: Host, jobs: seq<Job>, sys: System, i: nat, ref: string)
    requires |sys.phases| == |jobs| && Inv(host, jobs, sys) && ref in sys.slots && TerminalState(sys.slots[ref].state)
    ensures var sys' := Step(host, jobs, sys, i); ref in sys'.slots && sys'.slots[ref] == sys.slots[ref]
  {
    if i < |jobs| {
      assert ThreadInv(jobs, sys, i) && RunsInv(sys, ref);
    }
  }

  /** Terminal states are absorbing: once a slot is terminal no continuation of
      the run changes anything in it. */
  lemma {:induction false} TerminalIsAbsorbing(
    host: Host, jobs: seq<Job>, schedule: seq<nat>, more: seq<nat>, ref: string)
    requires FreshRefs(jobs)
    requires ref in Exec(host, jobs, schedule).slots && TerminalState(Exec(host, jobs, schedule).slots[ref].state)
    ensures var later := Exec(host, jobs, schedule + more);
            ref in later.slots && later.slots[ref] == Exec(host, jobs, schedule).slots[ref]
    decreases |more|
  {
    if |more| == 0 {
      assert schedule + more == schedule;
    } else {
      var n := |more| - 1;
      TerminalIsAbsorbing(host, jobs, schedule, more[..n], ref);
      assert (schedule + more)[..|schedule + more| - 1] == schedule + more[..n];
      InvAlways(host, jobs, schedule + more[..n]);
      TerminalStep(host, jobs, Exec(host, jobs, schedule + more[..n]), more[n], ref);
    }
  }

  // ---- The two gates -------------------------------------------------------

  // The check reaches its outcome: the slot is pending and in time, the decision
  // valid and not stale.
  predicate ReachesOutcome(host: Host, slot: Slot, request: ResumeRequest)
  {
    && slot.state == Pending && !TimedOutAt(slot, request.now)
    && ValidDecision(host, request.decision) && host.parseTime(request.decision.decidedAt).Some?
    && !Stale(host, slot, request.decision)
  }

  /** The two gates agree: for a slot in step with its review object and without
      an earlier decision, the check runs the handler exactly when it reaches
      its outcome and the readiness summary of the review object allows
      execution; and it answers every other readiness status in its own way. */
  lemma GatesAgree(host: Host, slot: Slot, review: ReviewObject, request: ResumeRequest)
    requires InSync(host, slot, review) && slot.finalDecision.None?
    ensures var ready := ExecutionReadiness(host, review, Some(request.decision), request.arguments);
            && (Check(host, slot, request) == Execute <==>
                  ReachesOutcome(host, slot, request) && ready.Some? && ready.value.allowsExecution)
            && (ReachesOutcome(host, slot, request) && ready.Some? && !ready.value.allowsExecution ==>
                  && Check(host, slot, request).Answered?
                  && Check(host, slot, request).slot.state ==
                     match ready.value.status
                     case RejectedStatus | MismatchStatus => Refused
                     case ExpiredStatus => Expired
                     case _ => Pending)
  {}

  /** In every run, a thread that holds its slot starts the handler exactly when
      the check reaches its outcome and the readiness summary of the review object
      that the slot's deferral minted allows execution. */
  lemma HandlerStartsExactlyWhenReady(host: Host, jobs: seq<Job>, schedule: seq<nat>, i: nat)
    requires FreshRefs(jobs) && i < |jobs| && jobs[i].ResumeJob?
    requires Exec(host, jobs, schedule).phases[i].Holding?
    ensures var sys := Exec(host, jobs, schedule);
            var request := jobs[i].resume;
            && request.correlationRef in sys.reviews && request.correlationRef in sys.slots
            && var ready := ExecutionReadiness(host, sys.reviews[request.correlationRef], Some(request.decision),
                                               request.arguments);
               Step(host, jobs, sys, i).phases[i].Running? <==>
               ReachesOutcome(host, sys.slots[request.correlationRef], request) && ready.Some?
                   && ready.value.allowsExecution
  {
    InvAlways(host, jobs, schedule);
    var sys := Exec(host, jobs, schedule);
    var ref := jobs[i].resume.correlationRef;
    assert ThreadInv(jobs, sys, i);
    assert SlotInv(host, ref, sys.slots[ref], sys.reviews);
    HoldingStep(host, jobs, sys, i);
    if sys.slots[ref].state == Pending {
      GatesAgree(host, sys.slots[ref], sys.reviews[ref], jobs[i].resume);
    }
  }

  lemma HoldingStep(host: Host, jobs: seq<Job>, sys: System, i: nat)
    requires |sys.phases| == |jobs| && i < |jobs| && jobs[i].ResumeJob? && sys.phases[i].Holding?
    requires jobs[i].resume.correlationRef in sys.slots
    ensures Step(host, jobs, sys, i).phases[i].Running? <==>
            Check(host, sys.slots[jobs[i].resume.correlationRef], jobs[i].resume) == Execute
  {}
}
