/** Accounting over every interleaving: each planned record of each call ends as
    exactly one receipt or one gap of its own, and a tool whose class fails
    closed never starts before its own admission is in the log. */
module Conservation {
  import opened Prelude
  import opened Lifecycle
  import opened Receipts
  import opened Binding
  import opened Protocol
  import opened LogSafety

  // What became of the record of either kind, as the call remembers it.
  function FateIn(phase: Phase, kind: ReceiptKindName): Fate
  {
    match phase
    case Waiting => Unrecorded
    case InTool(_, admission) => if kind.AdmissionKind? then admission else Unrecorded
    case Done(_, _, _, admission, outcome) => if kind.AdmissionKind? then admission else outcome
  }

  // The reference of the accepted admission the call holds.
  function HeldRef(phase: Phase): Option<string>
  {
    match phase
    case Waiting => None
    case InTool(run, _) => run.admissionRef
    case Done(_, _, ref, _, _) => ref
  }

  /** An admission record is accounted for: nothing when none is planned,
      otherwise one receipt, the call's own and of the planned disposition, or
      one gap, the call's own. The call holds its reference exactly when the
      receipt admits it. */
  predicate AdmissionSettled(job: Job, s: State, ref: Option<string>, fate: Fate)
  {
    match fate
    case Unrecorded => !PlansAdmission(job) && ref.None?
    case Receipted(k) =>
      && PlansAdmission(job) && k < |s.world.log|
      && s.world.log[k].body.AdmissionBody? && Attributed(job, s.world.log[k])
      && ref == (if Admitting(s.world.log[k]) then Some(s.world.log[k].reference) else None)
    case Gapped(k) =>
      && PlansAdmission(job) && ref.None? && k < |Gaps(s.telemetry)|
      && GapAbout(ConfigOf(job), job.call, AdmissionKind, None, None, Gaps(s.telemetry)[k])
  }

  /** An outcome record is accounted for: nothing when no admission was accepted
      (or a task was handed to the binding that cannot carry one), otherwise one
      receipt naming that admission, or one gap naming it. */
  predicate OutcomeSettled(job: Job, s: State, ref: Option<string>, fate: Fate)
  {
    match fate
    case Unrecorded => ref.None? || TaskLost(job)
    case Receipted(k) =>
      && ref.Some? && !TaskLost(job) && k < |s.world.log|
      && s.world.log[k].body.OutcomeBody? && Attributed(job, s.world.log[k])
      && s.world.log[k].body.admissionRef == ref.value
    case Gapped(k) =>
      && ref.Some? && !TaskLost(job) && k < |Gaps(s.telemetry)|
      && GapAbout(ConfigOf(job), job.call, OutcomeKind, Some(AttemptedToken(job.call.ending)), ref,
                  Gaps(s.telemetry)[k])
  }

  // A tool starts when the policy admits it, without its planned admission only
  // where its class fails open.
  predicate MayStart(job: Job, admission: Fate)
  {
    && PolicyOf(job).Some? && PolicyOf(job).value.disposition == AdmittedToken
    && (admission.Gapped? ==> PreExecutionMode(ConfigOf(job), PolicyOf(job).value.toolClass) == FailOpen)
  }

  ghost predicate PhaseSettled(job: Job, s: State, phase: Phase)
  {
    match phase
    case Waiting => true
    case InTool(run, admission) =>
      RunOf(job, run) && MayStart(job, admission) && AdmissionSettled(job, s, run.admissionRef, admission)
    case Done(reply, ran, ref, admission, outcome) =>
      && reply != ProjectionDiverged
      && AdmissionSettled(job, s, ref, admission)
      && if ran then MayStart(job, admission) && OutcomeSettled(job, s, ref, outcome)
         else ref.None? && outcome.Unrecorded?
  }

  // Nothing was written or lost, and the call remembers what it did.
  ghost predicate WroteNothing(s: State, s': State, phase: Phase, phase': Phase)
  {
    && s'.world.log == s.world.log && Gaps(s'.telemetry) == Gaps(s.telemetry)
    && FateIn(phase', AdmissionKind) == FateIn(phase, AdmissionKind)
    && FateIn(phase', OutcomeKind) == FateIn(phase, OutcomeKind)
  }

  // One record was written or lost, and the call remembers which entry it is.
  ghost predicate WroteOne(kind: ReceiptKindName, s: State, s': State, phase: Phase, phase': Phase)
  {
    && FateIn(phase, kind) == Unrecorded
    && (forall other | other != kind :: FateIn(phase', other) == FateIn(phase, other))
    && (|| (&& FateIn(phase', kind) == Receipted(|s.world.log|) && Gaps(s'.telemetry) == Gaps(s.telemetry)
            && |s'.world.log| > 0 && s'.world.log == s.world.log + [Newest(s')])
        || (&& FateIn(phase', kind) == Gapped(|Gaps(s.telemetry)|) && s'.world.log == s.world.log
            && Gaps(s'.telemetry) != [] && Gaps(s'.telemetry) == Gaps(s.telemetry) + [NewestGap(s')]))
  }

  ghost predicate Wrote(s: State, s': State, phase: Phase, phase': Phase)
  {
    || WroteNothing(s, s', phase, phase')
    || WroteOne(AdmissionKind, s, s', phase, phase')
    || WroteOne(OutcomeKind, s, s', phase, phase')
  }

  lemma AdmitNeverDiverges(env: Env, job: Job, s: State)
    ensures Admit(env, job, s).1.Stopped? ==> Admit(env, job, s).1.reply != ProjectionDiverged
    ensures Admit(env, job, s).1.Stopped? && PolicyOf(job).Some? ==> PlansAdmission(job)
  {
    if PolicyOf(job).Some? {
      AdmitUnfolds(env, job, s);
    }
  }

  lemma AdmitSettles(env: Env, job: Job, s: State)
    ensures var (s', phase) := Move(env, job, Waiting, s);
            PhaseSettled(job, s', phase) && Wrote(s, s', Waiting, phase)
  {
    var (s', progress) := Admit(env, job, s);
    AdmitEffect(env, job, s);
    AdmitNeverDiverges(env, job, s);
    AdmitSpecSettles(env, job, s, s', progress);
  }

  // The phase a first segment leads to.
  function PhaseAfter(s: State, s': State, progress: Progress): Phase
  {
    if progress.Running? then InTool(progress.run, FateOf(s, s'))
    else Done(progress.reply, false, None, FateOf(s, s'), Unrecorded)
  }

  lemma AdmitSpecSettles(env: Env, job: Job, s: State, s': State, progress: Progress)
    requires AdmitSpec(env, job, s, s', progress)
    requires progress.Stopped? ==> progress.reply != ProjectionDiverged && (PolicyOf(job).Some? ==> PlansAdmission(job))
    ensures var phase := PhaseAfter(s, s', progress);
            PhaseSettled(job, s', phase) && Wrote(s, s', Waiting, phase)
  {
    if s'.world.log != s.world.log {
      assert s'.world.log[|s.world.log|] == Newest(s');
      AdmitSpecAttributed(env, job, s, s', progress);
    }
  }

  lemma FinishSettles(env: Env, job: Job, run: Run, admission: Fate, s: State)
    requires PhaseSettled(job, s, InTool(run, admission))
    ensures var (s', phase) := Move(env, job, InTool(run, admission), s);
            PhaseSettled(job, s', phase) && Wrote(s, s', InTool(run, admission), phase)
  {
    FinishEffect(env, job, run, s);
    FinishSpecSettles(env, job, run, admission, s, Finish(env, job, run, s).0);
  }

  lemma FinishSpecSettles(env: Env, job: Job, run: Run, admission: Fate, s: State, s': State)
    requires PhaseSettled(job, s, InTool(run, admission)) && FinishSpec(env, job, run, s, s')
    ensures var phase := Done(EndingReply(job), true, run.admissionRef, admission, FateOf(s, s'));
            PhaseSettled(job, s', phase) && Wrote(s, s', InTool(run, admission), phase)
  {
    if s'.world.log != s.world.log {
      assert s'.world.log[|s.world.log|] == Newest(s');
      FinishSpecAttributed(env, job, run, s, s');
    }
  }

  /** One move of one call: it writes one record, or loses one, or has none to
      write. The record is the call's own, and the entry it became is what the
      call remembers. */
  lemma MoveSettles(env: Env, job: Job, phase: Phase, s: State)
    requires PhaseSettled(job, s, phase)
    ensures var (s', phase') := Move(env, job, phase, s);
            PhaseSettled(job, s', phase') && Wrote(s, s', phase, phase')
  {
    match phase {
      case Waiting => AdmitSettles(env, job, s);
      case InTool(run, admission) => FinishSettles(env, job, run, admission, s);
      case Done(_, _, _, _, _) =>
    }
  }

  // The states of a run only add to the log and to the gaps.
  ghost predicate Extends(s: State, s': State)
  {
    s.world.log <= s'.world.log && Gaps(s.telemetry) <= Gaps(s'.telemetry)
  }

  lemma OthersStaySettled(job: Job, phase: Phase, s: State, s': State)
    requires PhaseSettled(job, s, phase) && Extends(s, s')
    ensures PhaseSettled(job, s', phase)
  {}

  // Record `kind` of call i became this entry.
  predicate Owns(phases: seq<Phase>, i: int, kind: ReceiptKindName, fate: Fate)
  {
    0 <= i < |phases| && !fate.Unrecorded? && FateIn(phases[i], kind) == fate
  }

  ghost predicate AllSettled(jobs: seq<Job>, phases: seq<Phase>, s: State)
    requires |phases| == |jobs|
  {
    forall i | 0 <= i < |jobs| :: PhaseSettled(jobs[i], s, phases[i])
  }

  // No entry belongs to two records.
  ghost predicate NoneShared(phases: seq<Phase>)
  {
    forall i, j, kind, kind', fate | Owns(phases, i, kind, fate) && Owns(phases, j, kind', fate) ::
        i == j && kind == kind'
  }

  // An entry of the log or of the gaps.
  predicate IsEntry(s: State, fate: Fate)
  {
    match fate
    case Unrecorded => false
    case Receipted(k) => k < |s.world.log|
    case Gapped(k) => k < |Gaps(s.telemetry)|
  }

  // Every receipt and every gap belongs to some record.
  ghost predicate AllOwned(phases: seq<Phase>, s: State)
  {
    forall fate | IsEntry(s, fate) :: exists i, kind :: Owns(phases, i, kind, fate)
  }

  /** The accounts of a run: every record of every call is settled; no entry
      belongs to two records; every receipt and every gap belongs to one. */
  ghost predicate Accounts(jobs: seq<Job>, phases: seq<Phase>, s: State)
    requires |phases| == |jobs|
  {
    AllSettled(jobs, phases, s) && NoneShared(phases) && AllOwned(phases, s)
  }

  // An owned entry exists, so the next entry is nobody's yet.
  lemma OwnedExists(jobs: seq<Job>, phases: seq<Phase>, s: State, i: int, kind: ReceiptKindName, fate: Fate)
    requires |phases| == |jobs| && AllSettled(jobs, phases, s) && Owns(phases, i, kind, fate)
    ensures IsEntry(s, fate)
  {
    assert PhaseSettled(jobs[i], s, phases[i]);
  }

  // A record of the new state is one of the old state, or the newest entry.
  lemma OwnershipOld(
    phases: seq<Phase>, s: State, s': State, i: nat, phase': Phase, j: int, kind: ReceiptKindName, fate: Fate)
    requires i < |phases| && Wrote(s, s', phases[i], phase') && Owns(phases[i := phase'], j, kind, fate)
    ensures Owns(phases, j, kind, fate) || (j == i && WroteOne(kind, s, s', phases[i], phase') && !IsEntry(s, fate))
  {}

  lemma NoneSharedKept(jobs: seq<Job>, phases: seq<Phase>, s: State, s': State, i: nat, phase': Phase)
    requires |phases| == |jobs| && i < |jobs| && AllSettled(jobs, phases, s) && NoneShared(phases)
    requires Wrote(s, s', phases[i], phase')
    ensures NoneShared(phases[i := phase'])
  {
    var phases' := phases[i := phase'];
    forall j, j', kind, kind', fate | Owns(phases', j, kind, fate) && Owns(phases', j', kind', fate)
      ensures j == j' && kind == kind'
    {
      OwnershipOld(phases, s, s', i, phase', j, kind, fate);
      OwnershipOld(phases, s, s', i, phase', j', kind', fate);
      if Owns(phases, j, kind, fate) {
        OwnedExists(jobs, phases, s, j, kind, fate);
      }
      if Owns(phases, j', kind', fate) {
        OwnedExists(jobs, phases, s, j', kind', fate);
      }
    }
  }

  // What a record became it stays.
  lemma OwnershipKept(
    phases: seq<Phase>, s: State, s': State, i: nat, phase': Phase, j: int, kind: ReceiptKindName, fate: Fate)
    requires i < |phases| && Wrote(s, s', phases[i], phase') && Owns(phases, j, kind, fate)
    ensures Owns(phases[i := phase'], j, kind, fate)
  {}

  lemma EntryOwned(phases: seq<Phase>, phases': seq<Phase>, s: State, s': State, i: nat, phase': Phase, fate: Fate)
    requires i < |phases| && AllOwned(phases, s) && phases' == phases[i := phase']
    requires Wrote(s, s', phases[i], phase') && IsEntry(s', fate)
    ensures exists j, kind :: Owns(phases', j, kind, fate)
  {
    if IsEntry(s, fate) {
      var j, kind :| Owns(phases, j, kind, fate);
      OwnershipKept(phases, s, s', i, phase', j, kind, fate);
    } else if WroteOne(AdmissionKind, s, s', phases[i], phase') {
      assert Owns(phases', i, AdmissionKind, fate);
    } else {
      assert Owns(phases', i, OutcomeKind, fate);
    }
  }

  lemma AllOwnedKept(phases: seq<Phase>, s: State, s': State, i: nat, phase': Phase)
    requires i < |phases| && AllOwned(phases, s) && Wrote(s, s', phases[i], phase')
    ensures AllOwned(phases[i := phase'], s')
  {
    var phases' := phases[i := phase'];
    forall fate | IsEntry(s', fate) ensures exists j, kind :: Owns(phases', j, kind, fate) {
      EntryOwned(phases, phases', s, s', i, phase', fate);
    }
  }

  lemma AllSettledKept(jobs: seq<Job>, phases: seq<Phase>, s: State, s': State, i: nat, phase': Phase)
    requires |phases| == |jobs| && i < |jobs| && AllSettled(jobs, phases, s)
    requires Extends(s, s') && PhaseSettled(jobs[i], s', phase')
    ensures AllSettled(jobs, phases[i := phase'], s')
  {
    var phases' := phases[i := phase'];
    forall j | 0 <= j < |jobs| ensures PhaseSettled(jobs[j], s', phases'[j]) {
      if j != i {
        assert PhaseSettled(jobs[j], s, phases[j]);
        OthersStaySettled(jobs[j], phases[j], s, s');
      }
    }
  }

  lemma WroteExtends(s: State, s': State, phase: Phase, phase': Phase)
    requires Wrote(s, s', phase, phase')
    ensures Extends(s, s')
  {}

  /** Receipt conservation, call by call: in every state of every run, whatever
      writes fail, each planned admission of each call is exactly one receipt or
      one gap, of that call and about that record; so is the outcome of each
      finished call that holds an accepted admission (but for a task handed to
      the binding that cannot carry one), and of no other; and nothing else is
      in the log or among the gaps. */
  lemma {:induction false} EveryRecordAccounted(env: Env, jobs: seq<Job>, schedule: seq<nat>)
    ensures var sys := Exec(env, jobs, schedule);
            Accounts(jobs, sys.phases, sys.state)
  {
    if |schedule| == 0 {
      NothingAccounted(jobs);
    } else {
      var before, i := schedule[..|schedule| - 1], schedule[|schedule| - 1];
      EveryRecordAccounted(env, jobs, before);
      var sys := Exec(env, jobs, before);
      if i < |jobs| {
        var (s', phase') := Move(env, jobs[i], sys.phases[i], sys.state);
        assert PhaseSettled(jobs[i], sys.state, sys.phases[i]);
        MoveSettles(env, jobs[i], sys.phases[i], sys.state);
        WroteExtends(sys.state, s', sys.phases[i], phase');
        AllSettledKept(jobs, sys.phases, sys.state, s', i, phase');
        NoneSharedKept(jobs, sys.phases, sys.state, s', i, phase');
        AllOwnedKept(sys.phases, sys.state, s', i, phase');
      }
    }
  }

  lemma NothingAccounted(jobs: seq<Job>)
    ensures Accounts(jobs, Start(jobs).phases, Start(jobs).state)
  {
    assert Gaps([]) == [];
  }

  // ---- The totals ----------------------------------------------------------

  // The records a call in this phase has accounted for so far.
  function Owed(job: Job, phase: Phase): nat
  {
    var admission := if PlansAdmission(job) then 1 else 0;
    match phase
    case Waiting => 0
    case InTool(_, _) => admission
    case Done(_, _, ref, _, _) => admission + if ref.Some? && !TaskLost(job) then 1 else 0
  }

  function TotalOwed(jobs: seq<Job>, phases: seq<Phase>): nat
    requires |jobs| == |phases|
  {
    if |jobs| == 0 then 0
    else TotalOwed(jobs[..|jobs| - 1], phases[..|jobs| - 1]) + Owed(jobs[|jobs| - 1], phases[|jobs| - 1])
  }

  function Settled(s: State): nat
  {
    |s.world.log| + |Gaps(s.telemetry)|
  }

  function Counted(fate: Fate): nat
  {
    if fate.Unrecorded? then 0 else 1
  }

  lemma OwedIsRecorded(job: Job, phase: Phase, s: State)
    requires PhaseSettled(job, s, phase)
    ensures Owed(job, phase) == Counted(FateIn(phase, AdmissionKind)) + Counted(FateIn(phase, OutcomeKind))
  {}

  /** One move of one call: receipts plus gaps grow by exactly the records the
      move accounts for. */
  lemma MoveBalance(env: Env, job: Job, phase: Phase, s: State)
    requires PhaseSettled(job, s, phase)
    ensures var (s', phase') := Move(env, job, phase, s);
            Settled(s') + Owed(job, phase) == Settled(s) + Owed(job, phase')
  {
    var (s', phase') := Move(env, job, phase, s);
    MoveSettles(env, job, phase, s);
    OwedIsRecorded(job, phase, s);
    OwedIsRecorded(job, phase', s');
  }

  lemma {:induction false} TotalOwedUpdate(jobs: seq<Job>, phases: seq<Phase>, i: nat, phase: Phase)
    requires |jobs| == |phases| && i < |jobs|
    ensures TotalOwed(jobs, phases[i := phase]) + Owed(jobs[i], phases[i]) ==
            TotalOwed(jobs, phases) + Owed(jobs[i], phase)
  {
    var n := |jobs| - 1;
    if i < n {
      TotalOwedUpdate(jobs[..n], phases[..n], i, phase);
      assert phases[i := phase][..n] == phases[..n][i := phase];
    } else {
      assert phases[i := phase][..n] == phases[..n];
    }
  }

  lemma {:induction false} NothingOwedAtStart(jobs: seq<Job>, phases: seq<Phase>)
    requires |jobs| == |phases| && forall i | 0 <= i < |phases| :: phases[i].Waiting?
    ensures TotalOwed(jobs, phases) == 0
  {
    if |jobs| > 0 {
      NothingOwedAtStart(jobs[..|jobs| - 1], phases[..|jobs| - 1]);
    }
  }

  /** The totals of every run: receipts plus gaps are the planned admissions of
      the calls that have moved plus one outcome per accepted admission of a
      finished call (except a task handed to the binding that cannot carry one). */
  lemma {:induction false} ReceiptsConserved(env: Env, jobs: seq<Job>, schedule: seq<nat>)
    ensures var sys := Exec(env, jobs, schedule);
            |sys.state.world.log| + |Gaps(sys.state.telemetry)| == TotalOwed(jobs, sys.phases)
  {
    if |schedule| == 0 {
      NothingOwedAtStart(jobs, Start(jobs).phases);
    } else {
      var before, i := schedule[..|schedule| - 1], schedule[|schedule| - 1];
      ReceiptsConserved(env, jobs, before);
      EveryRecordAccounted(env, jobs, before);
      var sys := Exec(env, jobs, before);
      if i < |jobs| {
        MoveBalance(env, jobs[i], sys.phases[i], sys.state);
        TotalOwedUpdate(jobs, sys.phases, i, Step(env, jobs, sys, i).phases[i]);
      }
    }
  }

  // ---- Before the tool starts ----------------------------------------------

  predicate ToolStarted(phase: Phase)
  {
    phase.InTool? || (phase.Done? && phase.ran)
  }

  // Entry k is the call's own accepted admission, under the reference it holds.
  predicate HoldsEntry(log: seq<Envelope>, job: Job, phase: Phase, k: int)
  {
    && 0 <= k < |log| && FateIn(phase, AdmissionKind) == Receipted(k)
    && HeldRef(phase) == Some(log[k].reference)
    && Admitting(log[k]) && Attributed(job, log[k])
  }

  // A call that has moved was decided as its configuration and its resolvers tell.
  predicate Decided(job: Job, phase: Phase)
  {
    match phase
    case Waiting => true
    case InTool(_, admission) => StartedAs(job, admission)
    case Done(reply, ran, _, admission, _) =>
      if ran then StartedAs(job, admission) && reply == EndingReply(job) else StoppedAs(job, reply, admission)
  }

  /** In every state of every run, each call that has moved started its tool exactly
      when it is admitted and its planned admission was written, or its class
      fails open; otherwise it answered the first reason against it, a failed
      policy, a lost admission, a refusal, or a deferral under its review
      reference. Nothing here but the configuration, the resolvers' answers and
      what became of the call's record decides. */
  lemma {:induction false} CallsAreDecided(env: Env, jobs: seq<Job>, schedule: seq<nat>, i: nat)
    requires i < |jobs|
    ensures Decided(jobs[i], Exec(env, jobs, schedule).phases[i])
  {
    if |schedule| > 0 {
      var before, j := schedule[..|schedule| - 1], schedule[|schedule| - 1];
      CallsAreDecided(env, jobs, before, i);
      EveryRecordAccounted(env, jobs, before);
      var sys := Exec(env, jobs, before);
      if j == i {
        assert PhaseSettled(jobs[i], sys.state, sys.phases[i]);
        MoveDecides(env, jobs[i], sys.phases[i], sys.state);
      }
    }
  }

  lemma MoveDecides(env: Env, job: Job, phase: Phase, s: State)
    requires PhaseSettled(job, s, phase) && Decided(job, phase)
    ensures Decided(job, Move(env, job, phase, s).1)
  {
    match phase {
      case Waiting => AdmitAnswers(env, job, s);
      case InTool(run, _) => FinishEffect(env, job, run, s);
      case Done(_, _, _, _, _) =>
    }
  }

  /** A tool that has started holds the reference of its own admitted receipt in
      the log, unless its class fails open, or is a read whose admission is not
      recorded at all. */
  lemma StartedHoldsReceipt(env: Env, jobs: seq<Job>, schedule: seq<nat>, i: nat)
    requires i < |jobs| && ToolStarted(Exec(env, jobs, schedule).phases[i])
    requires !FailsOpen(jobs[i]) && (Classed(jobs[i], Read) ==> ConfigOf(jobs[i]).emitReadAdmission)
    ensures var sys := Exec(env, jobs, schedule);
            && FateIn(sys.phases[i], AdmissionKind).Receipted?
            && HoldsEntry(sys.state.world.log, jobs[i], sys.phases[i], FateIn(sys.phases[i], AdmissionKind).entry)
  {
    EveryRecordAccounted(env, jobs, schedule);
    CallsAreDecided(env, jobs, schedule, i);
    var sys := Exec(env, jobs, schedule);
    assert PhaseSettled(jobs[i], sys.state, sys.phases[i]);
    PolicyIsTold(jobs[i]);
    AdmittedPlan(jobs[i]);
  }

  /** Fail-closed precedence: under the default failure modes, in every reachable
      state a tool that has started holds the reference of its own admitted
      receipt in the log, if its policy calls it a write or destructive tool, or,
      without a policy resolver, the configuration lists it as one. */
  lemma FailClosedPrecedence(env: Env, jobs: seq<Job>, schedule: seq<nat>, i: nat)
    requires i < |jobs| && ToolStarted(Exec(env, jobs, schedule).phases[i])
    requires var config, call := ConfigOf(jobs[i]), jobs[i].call;
             && config.preExecutionFailure == DEFAULT_FAILURE_MODES
             && if config.hasPolicyResolver then
                  call.policyAnswer.Answered? && call.policyAnswer.policy.toolClass != Read
                else
                  call.snapshot.toolName in config.toolClasses && config.toolClasses[call.snapshot.toolName] != Read
    ensures var sys := Exec(env, jobs, schedule);
            && FateIn(sys.phases[i], AdmissionKind).Receipted?
            && HoldsEntry(sys.state.world.log, jobs[i], sys.phases[i], FateIn(sys.phases[i], AdmissionKind).entry)
  {
    assert DEFAULT_FAILURE_MODES[Write] == DEFAULT_FAILURE_MODES[Destructive] == FailClosed;
    assert !Classed(jobs[i], Read) && !FailsOpen(jobs[i]);
    StartedHoldsReceipt(env, jobs, schedule, i);
  }

  lemma AdmittedPlan(job: Job)
    requires PolicyOf(job).Some? && PolicyOf(job).value.disposition == AdmittedToken
    ensures PlanOf(job).resolved == Admitted
  {}

  /** No two calls of a run ever hold the same reference, even calls that are
      equal in every respect. */
  lemma ReferencesAreDistinct(env: Env, jobs: seq<Job>, schedule: seq<nat>, i: nat, j: nat)
    requires FreshIds(env) && i < |jobs| && j < |jobs| && i != j
    requires HeldRef(Exec(env, jobs, schedule).phases[i]).Some?
    ensures HeldRef(Exec(env, jobs, schedule).phases[i]) != HeldRef(Exec(env, jobs, schedule).phases[j])
  {
    var sys := Exec(env, jobs, schedule);
    EveryRecordAccounted(env, jobs, schedule);
    LogIsSafe(env, jobs, schedule);
    if HeldRef(sys.phases[j]).Some? {
      HeldApart(jobs, sys, i, j);
    }
  }

  lemma HeldApart(jobs: seq<Job>, sys: System, i: nat, j: nat)
    requires |sys.phases| == |jobs| && i < |jobs| && j < |jobs| && i != j
    requires Accounts(jobs, sys.phases, sys.state) && SafeLog(sys.state.world.log)
    requires HeldRef(sys.phases[i]).Some? && HeldRef(sys.phases[j]).Some?
    ensures HeldRef(sys.phases[i]) != HeldRef(sys.phases[j])
  {
    HeldIsReceipted(jobs, sys, i);
    HeldIsReceipted(jobs, sys, j);
    assert Owns(sys.phases, i, AdmissionKind, FateIn(sys.phases[i], AdmissionKind));
    assert Owns(sys.phases, j, AdmissionKind, FateIn(sys.phases[j], AdmissionKind));
  }

  lemma HeldIsReceipted(jobs: seq<Job>, sys: System, i: nat)
    requires |sys.phases| == |jobs| && i < |jobs| && PhaseSettled(jobs[i], sys.state, sys.phases[i])
    requires HeldRef(sys.phases[i]).Some?
    ensures var fate := FateIn(sys.phases[i], AdmissionKind);
            && fate.Receipted? && fate.entry < |sys.state.world.log|
            && HeldRef(sys.phases[i]).value == sys.state.world.log[fate.entry].reference
  {}

  /** The frozen outcome literals of either binding never disagree with the
      planner, so no call ever ends with a projection error. */
  lemma NeverDiverges(env: Env, jobs: seq<Job>, schedule: seq<nat>, i: nat)
    requires i < |jobs| && Exec(env, jobs, schedule).phases[i].Done?
    ensures Exec(env, jobs, schedule).phases[i].reply != ProjectionDiverged
  {
    EveryRecordAccounted(env, jobs, schedule);
    assert PhaseSettled(jobs[i], Exec(env, jobs, schedule).state, Exec(env, jobs, schedule).phases[i]);
  }
}
