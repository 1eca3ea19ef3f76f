/** What every interleaving of governed calls keeps: the log only ever links an
    outcome to the accepted admission of the same call, no write is unaccounted
    for, and a call that must record its admission first never starts its tool
    without it. */
module LogSafety {
  import opened Prelude
  import opened Lifecycle
  import opened Receipts
  import opened Binding
  import opened Protocol

  // Neither the identifier factory nor the sink repeats itself: identifiers are
  // distinct, and so are the sink's answers to envelopes of distinct identifiers.
  ghost predicate FreshIds(env: Env)
  {
    && (forall i, j :: i != j ==> env.ids(i) != env.ids(j))
    && (forall m, n, e: Envelope, f: Envelope ::
          m != n && e.receiptId != f.receiptId ==> env.answers(m, e) != env.answers(n, f))
  }

  // Entry j is the admission that the outcome at entry k names.
  predicate Names(log: seq<Envelope>, j: int, k: int)
  {
    && 0 <= j < |log| && 0 <= k < |log|
    && log[k].body.OutcomeBody?
    && log[j].reference == log[k].body.admissionRef
  }

  predicate LinkedOutcome(log: seq<Envelope>, k: int)
    requires 0 <= k < |log|
  {
    log[k].body.OutcomeBody? ==>
      exists j | 0 <= j < k :: Names(log, j, k) && Admitting(log[j]) && IdentityIn(log[j]) == IdentityIn(log[k])
  }

  /** The safety of a log: references are distinct; every outcome names an
      earlier accepted admission of the same call, boundary and actor, and only
      that entry; no entry is named twice. */
  ghost predicate SafeLog(log: seq<Envelope>)
  {
    && (forall j, k | 0 <= j < k < |log| :: log[j].reference != log[k].reference)
    && (forall k | 0 <= k < |log| :: LinkedOutcome(log, k))
    && (forall j, k | 0 <= j < k < |log| && log[j].body.OutcomeBody? && log[k].body.OutcomeBody? ::
          log[j].body.admissionRef != log[k].body.admissionRef)
  }

  // The admission a call holds while its tool runs: in the log, and not yet named.
  ghost predicate Holds(log: seq<Envelope>, job: Job, ref: string)
  {
    && PolicyOf(job).Some?
    && (exists j | 0 <= j < |log| ::
          log[j].reference == ref && Admitting(log[j]) && IdentityIn(log[j]) == JobIdentity(job))
    && (forall k | 0 <= k < |log| && log[k].body.OutcomeBody? :: log[k].body.admissionRef != ref)
  }

  predicate Holding(phases: seq<Phase>, i: int)
    requires 0 <= i < |phases|
  {
    phases[i].InTool? && phases[i].run.admissionRef.Some?
  }

  // The entry was accepted by one of the first writes.
  predicate AnsweredBefore(env: Env, e: Envelope, attempts: nat)
  {
    exists n: nat | n < attempts :: e.reference == env.answers(n, AsOffered(e))
  }

  // Identifiers still to be minted, and answers still to come, are not in the log.
  ghost predicate Unminted(env: Env, world: World)
  {
    && (forall k, n: nat | 0 <= k < |world.log| && n >= world.minted :: world.log[k].receiptId != env.ids(n))
    && (forall k | 0 <= k < |world.log| :: AnsweredBefore(env, world.log[k], world.attempts))
  }

  // Answers to a write that follows are new.
  lemma FreshReference(env: Env, s: State, s': State, e: Envelope)
    requires FreshIds(env) && Unminted(env, s.world) && Accepted(env, s, s', e)
    ensures forall k | 0 <= k < |s.world.log| :: s.world.log[k].reference != e.reference
    ensures Unminted(env, s'.world)
  {
    var log, log' := s.world.log, s'.world.log;
    forall k | 0 <= k < |log|
      ensures log[k].reference != e.reference && AnsweredBefore(env, log[k], s'.world.attempts)
    {
      assert AnsweredBefore(env, log[k], s.world.attempts);
      var n: nat :| n < s.world.attempts && log[k].reference == env.answers(n, AsOffered(log[k]));
      assert AsOffered(log[k]).receiptId != AsOffered(e).receiptId;
    }
    assert AnsweredBefore(env, e, s'.world.attempts);
  }

  // Every running call was admitted, and holds an admission of its own.
  ghost predicate PhasesInv(jobs: seq<Job>, phases: seq<Phase>, log: seq<Envelope>)
    requires |phases| == |jobs|
  {
    && (forall i | 0 <= i < |jobs| && phases[i].InTool? :: RunOf(jobs[i], phases[i].run))
    && (forall i | 0 <= i < |jobs| && Holding(phases, i) :: Holds(log, jobs[i], phases[i].run.admissionRef.value))
    && (forall i, j | 0 <= i < j < |jobs| && Holding(phases, i) && Holding(phases, j) ::
          phases[i].run.admissionRef != phases[j].run.admissionRef)
  }

  ghost predicate Inv(env: Env, jobs: seq<Job>, sys: System)
    requires |sys.phases| == |jobs|
  {
    && SafeLog(sys.state.world.log)
    && Unminted(env, sys.state.world)
    && PhasesInv(jobs, sys.phases, sys.state.world.log)
  }

  lemma LinkStays(log: seq<Envelope>, e: Envelope, k: int)
    requires 0 <= k < |log| && LinkedOutcome(log, k)
    ensures LinkedOutcome(log + [e], k)
  {
    if log[k].body.OutcomeBody? {
      var j :| 0 <= j < k && Names(log, j, k) && Admitting(log[j]) && IdentityIn(log[j]) == IdentityIn(log[k]);
      assert Names(log + [e], j, k);
    }
  }

  // A receipt under a new reference joins the log, linked if it is an outcome.
  lemma SafeAppend(log: seq<Envelope>, e: Envelope)
    requires SafeLog(log) && LinkedOutcome(log + [e], |log|)
    requires forall k | 0 <= k < |log| :: log[k].reference != e.reference
    requires e.body.OutcomeBody? ==>
               forall k | 0 <= k < |log| && log[k].body.OutcomeBody? :: log[k].body.admissionRef != e.body.admissionRef
    ensures SafeLog(log + [e])
  {
    forall k | 0 <= k < |log + [e]| ensures LinkedOutcome(log + [e], k) {
      if k < |log| {
        LinkStays(log, e, k);
      }
    }
  }

  // An outcome receipt of a call that holds its admission is linked.
  lemma HeldIsLinked(log: seq<Envelope>, job: Job, e: Envelope)
    requires e.body.OutcomeBody? && Holds(log, job, e.body.admissionRef) && IdentityIn(e) == JobIdentity(job)
    ensures LinkedOutcome(log + [e], |log|)
  {
    var j :| 0 <= j < |log| && log[j].reference == e.body.admissionRef && Admitting(log[j])
             && IdentityIn(log[j]) == JobIdentity(job);
    assert Names(log + [e], j, |log|);
  }

  // What a call holds survives every receipt that does not name it.
  lemma StillHolds(log: seq<Envelope>, e: Envelope, job: Job, ref: string)
    requires Holds(log, job, ref)
    requires e.body.OutcomeBody? ==> e.body.admissionRef != ref
    ensures Holds(log + [e], job, ref)
  {
    var j :| 0 <= j < |log| && log[j].reference == ref && Admitting(log[j]) && IdentityIn(log[j]) == JobIdentity(job);
    assert (log + [e])[j] == log[j];
  }

  // A receipt under a fresh reference is held by nobody else.
  lemma FreshlyHeld(env: Env, s: State, s': State, e: Envelope, job: Job)
    requires FreshIds(env) && SafeLog(s.world.log) && Unminted(env, s.world)
    requires Accepted(env, s, s', e) && Admitting(e) && PolicyOf(job).Some? && IdentityIn(e) == JobIdentity(job)
    ensures Holds(s'.world.log, job, e.reference)
    ensures forall other, ref | Holds(s.world.log, other, ref) :: ref != e.reference
  {
    FreshReference(env, s, s', e);
    var log, log' := s.world.log, s'.world.log;
    assert log'[|log|] == e;
    forall k | 0 <= k < |log'| && log'[k].body.OutcomeBody?
      ensures log'[k].body.admissionRef != e.reference
    {
      assert LinkedOutcome(log, k);
    }
  }

  // A receipt that names nothing another call holds disturbs no other call.
  lemma OthersStillHold(jobs: seq<Job>, phases: seq<Phase>, log: seq<Envelope>, e: Envelope, i: int)
    requires |jobs| == |phases|
    requires forall j | 0 <= j < |jobs| && Holding(phases, j) :: Holds(log, jobs[j], phases[j].run.admissionRef.value)
    requires forall j | 0 <= j < |jobs| && j != i && Holding(phases, j) ::
               e.body.OutcomeBody? ==> phases[j].run.admissionRef != Some(e.body.admissionRef)
    ensures forall j | 0 <= j < |jobs| && j != i && Holding(phases, j) ::
              Holds(log + [e], jobs[j], phases[j].run.admissionRef.value)
  {
    forall j | 0 <= j < |jobs| && j != i && Holding(phases, j)
      ensures Holds(log + [e], jobs[j], phases[j].run.admissionRef.value)
    {
      StillHolds(log, e, jobs[j], phases[j].run.admissionRef.value);
    }
  }

  // A call stopped or started with a reference nobody else holds keeps the
  // invariant of the phases.
  lemma PhaseChange(jobs: seq<Job>, phases: seq<Phase>, log: seq<Envelope>, log': seq<Envelope>, i: int, phase: Phase)
    requires |jobs| == |phases| && 0 <= i < |jobs|
    requires PhasesInv(jobs, phases, log)
    requires forall j | 0 <= j < |jobs| && j != i && Holding(phases, j) ::
               Holds(log', jobs[j], phases[j].run.admissionRef.value)
    requires phase.InTool? ==> RunOf(jobs[i], phase.run)
    requires phase.InTool? && phase.run.admissionRef.Some? ==>
               && Holds(log', jobs[i], phase.run.admissionRef.value)
               && forall j | 0 <= j < |jobs| && j != i && Holding(phases, j) ::
                    phases[j].run.admissionRef != phase.run.admissionRef
    ensures PhasesInv(jobs, phases[i := phase], log')
  {
    var phases' := phases[i := phase];
    assert forall j | 0 <= j < |jobs| && j != i :: phases'[j] == phases[j] && Holding(phases', j) == Holding(phases, j);
  }

  lemma WaitingStep(env: Env, jobs: seq<Job>, sys: System, i: nat)
    requires FreshIds(env) && |sys.phases| == |jobs| && i < |jobs|
    requires Inv(env, jobs, sys) && sys.phases[i].Waiting?
    ensures Inv(env, jobs, Step(env, jobs, sys, i))
  {
    var s := sys.state;
    var (s', phase) := Move(env, jobs[i], Waiting, s);
    AdmitEffect(env, jobs[i], s);
    if s'.world.log != s.world.log {
      var e := Newest(s');
      FreshReference(env, s, s', e);
      SafeAppend(s.world.log, e);
      OthersStillHold(jobs, sys.phases, s.world.log, e, i);
      if phase.InTool? && phase.run.admissionRef.Some? {
        FreshlyHeld(env, s, s', e, jobs[i]);
      }
    }
    PhaseChange(jobs, sys.phases, s.world.log, s'.world.log, i, phase);
  }

  lemma ToolStep(env: Env, jobs: seq<Job>, sys: System, i: nat)
    requires FreshIds(env) && |sys.phases| == |jobs| && i < |jobs|
    requires Inv(env, jobs, sys) && sys.phases[i].InTool?
    ensures Inv(env, jobs, Step(env, jobs, sys, i))
  {
    var s, run := sys.state, sys.phases[i].run;
    var (s', phase) := Move(env, jobs[i], sys.phases[i], s);
    FinishEffect(env, jobs[i], run, s);
    if s'.world.log != s.world.log {
      var e := Newest(s');
      assert Holding(sys.phases, i);
      FreshReference(env, s, s', e);
      HeldIsLinked(s.world.log, jobs[i], e);
      SafeAppend(s.world.log, e);
      OthersStillHold(jobs, sys.phases, s.world.log, e, i);
    }
    PhaseChange(jobs, sys.phases, s.world.log, s'.world.log, i, phase);
  }

  lemma {:induction false} InvAlways(env: Env, jobs: seq<Job>, schedule: seq<nat>)
    requires FreshIds(env)
    ensures Inv(env, jobs, Exec(env, jobs, schedule))
  {
    if |schedule| > 0 {
      var before := schedule[..|schedule| - 1];
      var i := schedule[|schedule| - 1];
      InvAlways(env, jobs, before);
      var sys := Exec(env, jobs, before);
      if i < |jobs| {
        match sys.phases[i] {
          case Waiting => WaitingStep(env, jobs, sys, i);
          case InTool(_, _) => ToolStep(env, jobs, sys, i);
          case Done(_, _, _, _, _) => assert sys.phases[i := sys.phases[i]] == sys.phases;
        }
      }
    }
  }

  /** Log safety: for any number of calls through either binding, under any
      write failures and any interleaving, the log is safe. */
  lemma LogIsSafe(env: Env, jobs: seq<Job>, schedule: seq<nat>)
    requires FreshIds(env)
    ensures SafeLog(Exec(env, jobs, schedule).state.world.log)
  {
    InvAlways(env, jobs, schedule);
  }

  // The receipt is one this call makes: of its identity, and about its own
  // tool, arguments, policy pack, planned disposition and ending.
  predicate Attributed(job: Job, e: Envelope)
  {
    && PolicyOf(job).Some? && IdentityIn(e) == JobIdentity(job)
    && match e.body
       case AdmissionBody(tool, digest, pack, version, disposition, _, _, _) =>
         && tool == job.call.snapshot.toolName && digest == job.call.snapshot.argumentsDigest
         && pack == ConfigOf(job).policyPackId && version == ConfigOf(job).policyPackVersion
         && disposition == ProjectDisposition(PlanOf(job).resolved)
       case OutcomeBody(_, outcome, _, _) =>
         PlanOf(job).resolved == Admitted && outcome == EndingToken(job.call.ending)
  }

  ghost predicate AllAttributed(jobs: seq<Job>, log: seq<Envelope>)
  {
    forall k | 0 <= k < |log| :: exists i | 0 <= i < |jobs| :: Attributed(jobs[i], log[k])
  }

  // A segment wrote nothing, or a receipt of this call.
  ghost predicate WroteOwn(job: Job, s: State, s': State)
  {
    || s'.world.log == s.world.log
    || (|s'.world.log| > 0 && s'.world.log == s.world.log + [Newest(s')] && Attributed(job, Newest(s')))
  }

  lemma AdmitSpecAttributed(env: Env, job: Job, s: State, s': State, progress: Progress)
    requires AdmitSpec(env, job, s, s', progress)
    ensures WroteOwn(job, s, s')
  {}

  lemma FinishSpecAttributed(env: Env, job: Job, run: Run, s: State, s': State)
    requires RunOf(job, run) && FinishSpec(env, job, run, s, s')
    ensures WroteOwn(job, s, s')
  {}

  lemma StillAttributed(jobs: seq<Job>, log: seq<Envelope>, e: Envelope, i: nat)
    requires AllAttributed(jobs, log) && i < |jobs| && Attributed(jobs[i], e)
    ensures AllAttributed(jobs, log + [e])
  {
    var log' := log + [e];
    forall k | 0 <= k < |log'| ensures exists j | 0 <= j < |jobs| :: Attributed(jobs[j], log'[k]) {
      if k < |log| {
        var j :| 0 <= j < |jobs| && Attributed(jobs[j], log[k]);
      }
    }
  }

  /** Every receipt in the log of any run is attributed: it was made by one of
      the calls and tells that call's tool, arguments, policy and ending. */
  lemma {:induction false} EveryReceiptAttributed(env: Env, jobs: seq<Job>, schedule: seq<nat>)
    requires FreshIds(env)
    ensures AllAttributed(jobs, Exec(env, jobs, schedule).state.world.log)
  {
    if |schedule| > 0 {
      var before, i := schedule[..|schedule| - 1], schedule[|schedule| - 1];
      EveryReceiptAttributed(env, jobs, before);
      InvAlways(env, jobs, before);
      var sys := Exec(env, jobs, before);
      if i < |jobs| {
        match sys.phases[i] {
          case Waiting =>
            AdmitEffect(env, jobs[i], sys.state);
            AdmitSpecAttributed(env, jobs[i], sys.state, Admit(env, jobs[i], sys.state).0,
                                Admit(env, jobs[i], sys.state).1);
          case InTool(run, _) =>
            FinishEffect(env, jobs[i], run, sys.state);
            FinishSpecAttributed(env, jobs[i], run, sys.state, Finish(env, jobs[i], run, sys.state).0);
          case Done(_, _, _, _, _) =>
        }
        var after := Step(env, jobs, sys, i).state;
        if after.world.log != sys.state.world.log {
          StillAttributed(jobs, sys.state.world.log, Newest(after), i);
        }
      }
    }
  }

  /** A refused or deferred admission is never named by any outcome. */
  lemma OnlyAdmittedNamed(env: Env, jobs: seq<Job>, schedule: seq<nat>, j: int, k: int)
    requires FreshIds(env) && Names(Exec(env, jobs, schedule).state.world.log, j, k)
    ensures var log := Exec(env, jobs, schedule).state.world.log;
            j < k && Admitting(log[j]) && IdentityIn(log[j]) == IdentityIn(log[k])
  {
    LogIsSafe(env, jobs, schedule);
    var log := Exec(env, jobs, schedule).state.world.log;
    assert LinkedOutcome(log, k);
    var i :| 0 <= i < k && Names(log, i, k) && Admitting(log[i]) && IdentityIn(log[i]) == IdentityIn(log[k]);
    assert i == j;
  }
}
