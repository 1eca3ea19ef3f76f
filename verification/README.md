# Verification of the DAGR MCP governed-call protocol

A Dafny model of the governed-call protocol of this repository and of the log of
signed receipts it leaves, from the planner to the reader of the stored files,
together with the deferred-call boundary, the enforcement harness, the custody
gateway object and the reference selector. `dafny verify dfyconfig.toml` checks
everything.

## How the model is built

* **The outside world is a parameter.** Identifiers, issue times, which write
  fails and how, digests, signatures, resolver and tool answers, sink health and
  clocks are functions or fields of records (`Receipts.Env`,
  `ReceiptStore.Platform`, `ReceiptStore.SigningIdentity`, `Disposition.Host`,
  `EnforcementHarness.Outside`, `Binding.Call`). Theorems quantify over all of
  them, so they hold under every failure pattern.
* **Classes run step by step, functions say what a step does.** The emitter, both
  bindings, the gateway, the file sink, the deferred boundary and the harness are
  classes whose methods update fields in place. Where whole runs matter, each
  method is proved equal to a function of the state before it, and the theorems
  are about those functions.
* **Interleavings are schedules.** A governed call is two atomic segments with
  the tool between them (`Protocol.Exec`); a resuming thread is lookup, lock,
  check, handler, release (`DeferredThreads.Exec`). A schedule names who moves
  next; theorems hold after every schedule.
* **JSON objects are maps** from member names to values, so equality of trees is
  equality of canonical forms (section 3.2 of RFC 8785) as long as no foreign key
  spells the name of a field. Signatures are ideal
  (Ed25519, section 5.1 of RFC 8032); times are integers.

| file | what it holds |
|---|---|
| `Prelude.dfy`, `JsonTrees.dfy`, `Base64Url.dfy` | shared values; JSON trees and the raw-content walk; the unpadded codec of section 5 of RFC 4648 |
| `Lifecycle.dfy` | the neutral planner, the specification of both bindings |
| `Receipts.dfy` | envelope construction, the emitter, the sinks |
| `Binding.dfy`, `FastMcpBinding.dfy`, `SdkBinding.dfy` | what the bindings share, and each of them |
| `Protocol.dfy` | any number of calls of either binding on one log |
| `LogSafety.dfy`, `Conservation.dfy`, `Refinement.dfy`, `Parity.dfy` | log safety, accounting, refinement of the plan, parity |
| `GatewayAdapter.dfy`, `Reconstruction.dfy` | the gateway and the faithfulness of what it rebuilds |
| `Departures.dfy` | a call for each way in which code and prose differ |
| `ReceiptStore.dfy`, `ReceiptAccess.dfy`, `RoundTrip.dfy`, `EndToEnd.dfy`, `StampParity.dfy` | rendering, signing, storing, resolving, composing, and what survives all of it |
| `WireRecords.dfy`, `Telemetry.dfy` | what the records and the telemetry of a run say, told from its calls |
| `Disposition.dfy`, `DeferredBoundary.dfy`, `DeferredThreads.dfy`, `DeferredHistory.dfy` | review decisions, deferred slots, threads on them, and what the slots tell of their history |
| `PayloadHash.dfy`, `EnforcementHarness.dfy` | which payloads have a stable hash; the harness around one call |
| `CustodyGateway.dfy`, `ReferenceSelector.dfy` | the two smaller cores |

* **Decisions are told from their inputs.** Beside each theorem that speaks through
  the functions both sides share stands one that does not: what starts a tool or a
  handler, what is refused and with which words, what a reader accepts and what a
  record says on the wire are stated over the configuration, the request, the
  answers of resolvers and sinks, and literal texts (`Conservation.CallsAreDecided`,
  `ReceiptAccess.DiagnosisIsExact`, `DeferredHistory.HandlerStartsOnApproval`,
  `EnforcementHarness.HarnessContext.Wrapped`, `GatewayAdapter.ExecuteGovernedCall`,
  `WireRecords.EveryRecordTells`).

## Where the code and its prose differ

The model follows the code; each point is a theorem, or a modelled branch, and
where a promise fails a lemma gives a call at which it does.

* A deferral whose review creator answers white space gets its receipt written,
  and then the response constructor rejects the gateway's own response
  (`Reconstruction.ConstructorRejectsExactly`, `Departures.BlankReviewIsRejected`).
* A fail-open read whose admission write failed and whose tool then raised is
  reported as refused although the tool ran; this is the only such family
  (`Reconstruction.DispositionTellsWhetherTheToolRan`,
  `Departures.RefusedThoughItRan`).
* A call whose plan records nothing has its exception passed through the gateway,
  and a task it returned is reported as a result
  (`Reconstruction.AdmittedDecisionIsPlanned`,
  `Departures.UnrecordedReadPassesThrough`).
* The receipts of a call that loses none differ from its plan in four ways, and in
  no other (`Refinement.CallRefinesPlan`). The planner calls every time-out
  `TimeoutError`, and the receipt keeps the name of the raised class
  (`Departures.TimeoutKeepsItsClass`); a class without a name is left out
  (`Departures.NamelessClassIsLeftOut`); a parent reference counts for the plan as
  soon as it is not `None` (dagr_mcp/fastmcp_binding.py:694-697), and an empty one
  is left out of the receipt (dagr_mcp/srs_receipts.py:445,
  `Departures.EmptyParentIsLeftOut`); and, handed a task, the SDK binding leaves
  its accepted admission without an outcome receipt and without a gap
  (`Departures.TaskLeavesNoOutcome`, `Conservation.EveryRecordAccounted`).
* The two bindings project mappings, non-empty sequences and falsy non-list
  contents differently (`Parity.ProjectionsAgreeExactly`,
  `Departures.MappingReceiptsDiffer`).
* The reader raises a `TypeError` where a diagnostic is promised exactly when it
  may read and finds an object with the members and constants of the profile that
  is an admission whose `disposition`, or an outcome whose `outcome`, is an array
  or an object (`ReceiptAccess.ReadingRaisesExactly`; `RoundTrip.ReadingRaises`
  reads a written file of each kind).
* The deferred boundary's comparison of a decision's actor with an earlier one
  never fires (`DeferredThreads.ActorCheckNeverFires`), a rejection emits no
  refused receipt, and the review object a decision names is never compared with
  the slot's.
* `_normalize_sink_name` is not idempotent on names that end in the suffix twice
  (`EnforcementHarness.NormalizeTwice`, `Departures.DoubledSuffix`).
* An exception escapes the harness, which promises governed failures, exactly when
  the arguments have no stable hash, an event or receipt sink raised something
  other than `SinkUnavailableError`, or the handler ran and its result has no
  stable hash (`EnforcementHarness.HarnessContext.Wrapped`). Payloads without one
  hold a lone surrogate, themselves, an integer too long to spell, or an object
  whose spelling raises (`PayloadHash.WithoutHash`); other unserialisable objects
  have one (`PayloadHash.TameHasHash`).

## Model

| member | source | states |
|---|---|---|
| `JsonTrees.EnforceRawContentExclusion` | dagr_mcp/srs_receipts.py:226-242 | the walk accepts exactly the raw-content-free trees, and an error names a violation the tree really holds |
| `JsonTrees.WalkIsExact` | dagr_mcp/srs_receipts.py:226-242 | a tree is accepted exactly when no path from the root, of any length, ends at a forbidden key or a marked text |
| `JsonTrees.AcceptanceInherited` | dagr_mcp/srs_receipts.py:226-242 | everything inside an accepted tree is accepted |
| `Base64Url.B64UrlRoundTrip` | dagr_mcp_service/access.py:411-419 | reading the stripped text of any byte string gives the bytes back, except that the empty string is refused |
| `Base64Url.StrayIsSkipped` | dagr_mcp_service/access.py:411-419 | a character that is neither a pad nor in the alphabet changes nothing wherever it stands, as in the lenient decoder |
| `Base64Url.StrippedEncoding` | dagr_mcp/srs_receipts.py:176-177 | the written text holds alphabet characters only, and stripping loses exactly the padding |
| `Base64Url.KnownVectors` | dagr_mcp/srs_receipts.py:176-177 | the writer gives the test vectors of section 10 of RFC 4648, and the two characters of the URL-safe alphabet |
| `Lifecycle.PlanCardinality` | dagr_mcp_lifecycle/core.py:333-368 | a completed plan counts the receipts its disposition allows, or none for an unrecorded read; nothing follows a refusal or deferral |
| `Lifecycle.PlanFailsExactlyWhen` | dagr_mcp_lifecycle/core.py:333-412 | when, and only when, no plan is made: an admitted call that asks for input is unsupported, which `plan_lifecycle` returns and the strict variant raises; every other reason is raised by both |
| `Receipts.SignedReceiptEmitter.AppendAttestationLimits` | dagr_mcp/srs_receipts.py:450-466 | the in-place loop fails exactly when a limit to append is blank, and otherwise keeps the old limits and appends each new one once, in the order of first occurrence |
| `Receipts.SignedReceiptEmitter.EmitAdmission` | dagr_mcp/srs_receipts.py:490-520 | the whole effect of one admission emission on log, write count and identifiers, and what an observer sees of it |
| `Receipts.SignedReceiptEmitter.EmitOutcome` | dagr_mcp/srs_receipts.py:522-554 | the same for one outcome emission, owned fields included |
| `Receipts.CapturingSink.Write` | dagr_mcp_service/adapter.py:178-210 | every write is forwarded unchanged; of each accepted one the identifier that the sink returned, its own or another, is recorded in order, and any failure is remembered |
| `Binding.ReceiptTrail.EmitOutcome` | dagr_mcp/fastmcp_binding.py:999-1113 | an outcome emission ends as one receipt or as one gap naming what was attempted |
| `FastMcpBinding.DAGRMiddleware.AdmitCall` | dagr_mcp/fastmcp_binding.py:287-353 | the call up to the tool has exactly the effect of the first segment, step by step |
| `FastMcpBinding.DAGRMiddleware.FinishCall` | dagr_mcp/fastmcp_binding.py:352-455 | so has the call from the tool's ending on |
| `FastMcpBinding.DAGRMiddleware.OnCallTool` | dagr_mcp/fastmcp_binding.py:287-455 | the whole call, with other calls writing while its tool runs: one tool run at most, and the observer sees this call's writes only |
| `SdkBinding.SdkLifecycleAdapter.GovernedCall` | dagr_mcp_sdk_binding/adapter.py:301-472 | the same for the second implementation |
| `Protocol.AdmitEffect` | dagr_mcp/fastmcp_binding.py:287-353 | in either binding the first segment writes one fresh admission of the call's identity, or leaves one gap about this call's admission, or plans nothing; the tool starts without a receipt only where the class fails open |
| `Protocol.FinishEffect` | dagr_mcp/fastmcp_binding.py:352-455 | in either binding the second segment writes one outcome naming the held admission with the token of the tool's ending, or leaves one gap naming this call, the attempted token and the held admission, when an admission was accepted, and nothing otherwise |
| `LogSafety.LogIsSafe` | dagr_mcp/srs_receipts.py:522-554 | over every interleaving and failure: every outcome names an earlier admitted receipt of the same call, boundary and actor, and none is named twice |
| `LogSafety.OnlyAdmittedNamed` | dagr_mcp/fastmcp_binding.py:331-455 | refused and deferred admissions are never named |
| `LogSafety.EveryReceiptAttributed` | dagr_mcp/fastmcp_binding.py:635-658 | every receipt of any run was made by one of its calls and tells that call's tool, argument digest, policy pack, planned disposition and ending |
| `Conservation.MoveSettles` | dagr_mcp/fastmcp_binding.py:999-1064 | each move of each call writes one record of that call, or loses one into a gap about that record, or has none, and the call remembers which entry it became |
| `Conservation.EveryRecordAccounted` | dagr_mcp/fastmcp_binding.py:331-455 | in every reachable state each planned admission of each call is exactly one receipt or one gap of its own, the outcome likewise exactly when an admission was accepted and the call is finished (a task of the SDK binding apart), no entry belongs to two records, and none to no record |
| `Conservation.ReceiptsConserved` | dagr_mcp/fastmcp_binding.py:331-455 | the totals of this: receipts plus gaps are the planned admissions of the calls that moved plus one outcome per accepted admission of a finished call |
| `Conservation.CallsAreDecided` | dagr_mcp/fastmcp_binding.py:287-353 | in every state of every run, through either binding, a call that has moved started its tool exactly when it is admitted, by its policy, by an operator's exact word or by default, and its admission was not lost or its class fails open; any other call answered the first reason against it. The class is the one its policy answers or the one configured for its name, and a read if unlisted |
| `Conservation.StartedHoldsReceipt` | dagr_mcp/fastmcp_binding.py:331-353 | a tool that has started holds the log entry its own move wrote, unless its class fails open or is an unrecorded read |
| `Conservation.FailClosedPrecedence` | dagr_mcp_lifecycle/core.py:96-106 | under the default failure modes this holds of every tool whose policy calls it a write or destructive, and, without a policy resolver, of every tool that the configuration lists as one |
| `Conservation.ReferencesAreDistinct` | dagr_mcp/fastmcp_binding.py:331-353 | no two calls of a run hold the same admission reference, equal calls included |
| `Conservation.NeverDiverges` | dagr_mcp/fastmcp_binding.py:910-980 | the frozen outcome literals never disagree with the planner in any run |
| `Refinement.AdmissionRefinesPlan` | dagr_mcp/fastmcp_binding.py:730-801 | in either binding an admission segment that loses nothing writes the planned admission: disposition, ground, review reference, retry contract, limits, and the parent unless it is the empty text |
| `Refinement.OutcomeRefinesPlan` | dagr_mcp/fastmcp_binding.py:876-979 | in either binding an outcome segment that loses nothing writes, from any later shared state, the planned outcome but for the raised class, and nothing for a task the binding cannot carry |
| `Refinement.CallRefinesPlan` | dagr_mcp_lifecycle/core.py:109-368 | through either binding, whatever other calls lose, the receipts of a call that loses none are as many as `plan_lifecycle` counts, but for a task of the SDK binding, and equal its projection exactly when there is no such task, a time-out is called TimeoutError, a raised class has a name and the parent reference is not empty |
| `Parity.ProjectionsAgreeExactly` | dagr_mcp_sdk_binding/adapter.py:243-280 | the results both bindings project alike |
| `Parity.BindingParity` | dagr_mcp_sdk_binding/adapter.py:301-472 | over every schedule and failure, equal calls through either binding (no operator seam, no task, agreeing projections, alert mode) run their tools alike, reply alike, leave equal telemetry and logs equal up to the stamp |
| `Parity.ParityNeedsAgreement` | dagr_mcp_sdk_binding/adapter.py:243-280 | the outcome receipts that the two bindings offer for a returned result agree up to the stamp exactly when the projections do |
| `StampParity.GuardIsStampBlind` | dagr_mcp/srs_receipts.py:236-242 | the content guard refuses a receipt of one binding exactly when it refuses the same receipt of the other |
| `StampParity.RecordParity` | dagr_mcp_sdk_binding/mask.py:441-462 | parity of the JSON records after `strip_binding_stamp`, for the real content guard and any sink whose answers do not read the stamp |
| `StampParity.StripTouchesOnlyTheStamp` | dagr_mcp_sdk_binding/mask.py:441-462 | `strip_binding_stamp` removes the stamp and touches nothing else |
| `GatewayAdapter.ExecuteViaFastMcp` | dagr_mcp_service/adapter.py:457-504 | the gateway's answer is what `Respond` makes of the call's own captured writes, and the shared log is what the binding left |
| `GatewayAdapter.ExecuteGovernedCall` | dagr_mcp_service/adapter.py:569-676 | arguments of another digest than the request names, a selector that is unknown or unavailable, and a refused target are answered in this order with their diagnostic, run no tool and touch neither sink nor identifiers; any other request is served by the binding the registry names |
| `GatewayAdapter.JobIsServed` | dagr_mcp_service/adapter.py:457-504 | what that binding is configured with: the request's own parent before the configured one, and no operator seam |
| `GatewayAdapter.ConstructorIsTold` | dagr_mcp_service/contract.py:695-817 | which responses can be built at all, disposition by disposition |
| `Reconstruction.TraceHasShape` | dagr_mcp_service/adapter.py:178-210 | all the gateway can ever see of a call: no, one or two captures, of which kinds, and what a missing one means |
| `Reconstruction.ReceiptsAreTheAcceptedWrites` | dagr_mcp_service/adapter.py:272-423 | the handles of a response are the accepted writes of its own call, in order, under the identifiers the sink returned |
| `Reconstruction.ConstructorRejectsExactly` | dagr_mcp_service/contract.py:695-817 | the response constructor rejects exactly the white-space review references |
| `Reconstruction.DispositionTellsWhetherTheToolRan` | dagr_mcp_service/adapter.py:272-423 | refused or deferred means the tool did not run and admitted that it did, but for one exactly described case |
| `Reconstruction.RanCallAnswers` | dagr_mcp_service/adapter.py:272-423 | the whole answer to a call whose tool ran, whatever became of its records, from the tool's ending: outcome, business result, diagnostic and cancellation facts |
| `Reconstruction.StoppedCallAnswers` | dagr_mcp_service/adapter.py:333-393 | the whole answer to a call whose tool did not run, from the reason on its record or its review reference |
| `Reconstruction.TerminalDecisionIsPlanned` | dagr_mcp_service/adapter.py:369-393 | without gaps a refusal or deferral is answered with the planned disposition, diagnostic and review reference |
| `Reconstruction.AdmittedDecisionIsPlanned` | dagr_mcp_service/adapter.py:300-331 | without gaps an admitted call is answered with the planner's outcome |
| `Departures.FaultlessLosesNothing` | dagr_mcp/fastmcp_binding.py:287-455 | a call at which nothing fails outside, and whose result can be projected, loses no record |
| `Departures.BlankReviewIsRejected` | dagr_mcp_service/contract.py:695-817 | a deferral with a blank review reference, and no failure, whose response is rejected |
| `Departures.RefusedThoughItRan` | dagr_mcp_service/adapter.py:272-423 | a read whose tool ran and that is answered as refused |
| `Departures.TimeoutKeepsItsClass` | dagr_mcp/fastmcp_binding.py:876-979 | a time-out of another class whose receipts are not those of its plan |
| `Departures.NamelessClassIsLeftOut` | dagr_mcp/srs_receipts.py:522-541 | the same for a raised class without a name |
| `Departures.EmptyParentIsLeftOut` | dagr_mcp/srs_receipts.py:445-446 | the same for an empty parent reference, which the plan asks the receipt to carry |
| `Departures.TaskLeavesNoOutcome` | dagr_mcp_sdk_binding/adapter.py:301-472 | a task of the SDK binding: two receipts planned, one written, none lost |
| `Departures.UnrecordedReadPassesThrough` | dagr_mcp_service/adapter.py:300-331 | an unrecorded read whose exception passes through, and one whose task is answered as a result |
| `Departures.MappingReceiptsDiffer` | dagr_mcp_sdk_binding/adapter.py:243-280 | a mapping result whose receipts differ between the bindings |
| `ReceiptStore.GuardIsExact` | dagr_mcp/srs_receipts.py:285-302 | the guards around signing come to one condition, the last of them never fires, and what is signed satisfies the guard |
| `ReceiptStore.FileNameIsOneComponent` | dagr_mcp/srs_receipts.py:342-346 | the file name of any identifier is a single safe path component |
| `ReceiptStore.FileNamesCollide` | dagr_mcp_service/access.py:194-224 | two identifiers share a file exactly when they read alike with every run of unsafe characters taken for one `_` |
| `ReceiptStore.PlainIdentifiersKept` | dagr_mcp/srs_receipts.py:342-346 | an identifier names its file unchanged exactly when it is written in letters, digits, dots, underscores and hyphens |
| `ReceiptStore.RawEnvelopeFileSink.Write` | dagr_mcp/srs_receipts.py:342-362 | a write replaces the one file of its identifier, or changes nothing and says why |
| `ReceiptStore.Fetch` | dagr_mcp_service/access.py:242-282 | the read loop returns the whole file however its reads are cut, and never more than the file |
| `ReceiptStore.FailuresLeaveNothing` | dagr_mcp/srs_receipts.py:342-362 | the directory after any history is that of its accepted writes |
| `ReceiptStore.DiskHoldsLast` | dagr_mcp/srs_receipts.py:342-362 | after any history a file holds the last accepted write that maps to its name |
| `ReceiptAccess.SchemaIsProfile` | dagr_mcp_service/access.py:361-408 | the profile check accepts exactly the profile of either kind, and raises exactly on a token it cannot look up |
| `ReceiptAccess.ProfileIsSpelled` | dagr_mcp_service/access.py:361-408 | that profile, member by member and text by text, as on the wire |
| `ReceiptAccess.SignatureIsSpelled` | dagr_mcp_service/access.py:429-486 | a signature is valid exactly when one entry of the bundle, and only one, has its key identifier, is trusted, names the issuer, holds a key that verifies it over the rest of the envelope, and was valid at its issue |
| `ReceiptAccess.DiagnosisIsExact` | dagr_mcp_service/access.py:489-663 | which answer resolving gives, for every handle, provider, bundle and context: each diagnostic exactly in its own case, in their order |
| `ReceiptAccess.VerifiedExactly` | dagr_mcp_service/access.py:596-663 | an envelope is handed out exactly when the caller may read it, the provider's bytes hold it, it has the profile and identifier of the handle, no raw content and a valid signature, and the context agrees |
| `ReceiptAccess.ComposeIsOrderFree` | dagr_mcp_service/access.py:666-717 | composition gives the same result on any permutation of any handle list |
| `ReceiptAccess.ComposesExactly` | dagr_mcp_service/access.py:666-774 | composing succeeds exactly for at most one handle of each kind, each verified, of the named call, the expected parent, and an outcome that names its admission |
| `ReceiptAccess.ComposeIsSound` | dagr_mcp_service/access.py:699-774 | a composition holds envelopes of the call and parent asked for, an outcome comes with the admission it names, of the same runtime, boundary, actor and tenant, and each is signed under the bundle as its own handle asks |
| `ReceiptAccess.DispositionDecides` | dagr_mcp_service/access.py:361-408 | what each replaced disposition does to the profile check of a conforming admission, the TypeError included |
| `ReceiptAccess.ReadingRaisesExactly` | dagr_mcp_service/access.py:596-663 | resolving raises a TypeError, instead of answering, exactly for a readable object with a complete profile up to a token, of either kind, that is an array or an object |
| `RoundTrip.ResolvesExactly` | dagr_mcp_service/access.py:596-663 | over any history a handle resolves to an envelope exactly when it is the last write of its file, vouches for the handle and fits the context |
| `RoundTrip.ReadingRaises` | dagr_mcp_service/access.py:361-408 | for either kind, a file of written JSON in the directory at which resolving raises |
| `RoundTrip.LossyStoreIsSafe` | dagr_mcp_service/access.py:489-526 | resolving gives the last-written envelope of that very identifier or no envelope |
| `RoundTrip.EmittedIsVouched` | dagr_mcp_service/access.py:429-486 | what the emitter signs passes the profile check, the guard and the signature check under its identity's bundle |
| `RoundTrip.OnlyTheIdentitySigns` | dagr_mcp_service/access.py:464-486 | under the identity's bundle a verified envelope carries the identity's own signature of everything else in it |
| `RoundTrip.ForgedIsRefused` | dagr_mcp_service/access.py:471-474 | an emitted envelope with any other bytes for its signature is a signature failure |
| `EndToEnd.OfferedIsLogged` | dagr_mcp/srs_receipts.py:285-362 | the emitter on the file sink, whichever envelopes are refused and whichever writes fail, keeps exactly the accepted log and leaves its directory |
| `EndToEnd.RunIsOffered` | dagr_mcp/srs_receipts.py:490-554 | every run of the protocol is such an emission: over every schedule some envelopes, offered one after the other, leave the run's own log and its directory |
| `EndToEnd.LoggedResolves` | dagr_mcp_service/access.py:596-663 | without file-name collisions every logged receipt resolves to exactly what was written |
| `WireRecords.EveryRecordTells` | dagr_mcp/srs_receipts.py:404-554 | in every run each record tells one of the calls on the wire: runtime, boundary, call, subject, actor and parent each in its own member, the tool, digest and policy pack, the disposition, reason, review reference and retry contract as the policies decide, or how the tool ended, the digest of its projected result, the raised class and the cancellation facts |
| `EndToEnd.EveryReceiptReadsBack` | dagr_mcp_service/access.py:596-663 | and what is read back, signed and stored, tells it still |
| `Telemetry.AdmissionReports` | dagr_mcp/fastmcp_binding.py:999-1113 | the first segment of a call reports its failed review object, then the gap of a lost admission with the class of what failed, and nothing else |
| `Telemetry.OutcomeReports` | dagr_mcp/fastmcp_binding.py:999-1113 | the second segment reports the gap of a lost outcome, then the alert of an unsupported mode, and nothing else |
| `EndToEnd.EveryOutcomeComposes` | dagr_mcp_service/access.py:666-774 | in every state of every run each logged outcome composes with its admission to exactly the envelopes written |
| `EndToEnd.GovernedCallRoundTrip` | dagr_mcp_service/access.py:777-800 | the receipts of a response read back without a diagnostic as exactly what that call wrote |
| `Disposition.OutcomeIsSpelled` | dagr_mcp/sdk_spine.py:365-380 | a decision is recognised as an outcome exactly when it spells its name, in any letter case and with any white space around; any other text is refused |
| `DeferredBoundary.DeferredBoundary.Defer` | dagr_mcp/deferred_boundary.py:247-358 | a deferral adds exactly one pending slot, or nothing, and calls no handler |
| `DeferredBoundary.DeferredBoundary.Resume` | dagr_mcp/deferred_boundary.py:364-417 | a resume changes its own slot only, and calls the handler exactly when the checks say so |
| `DeferredBoundary.DeferredBoundary.ResumeSlot` | dagr_mcp/deferred_boundary.py:419-615 | the checks in their order, each with what it leaves in the slot |
| `DeferredThreads.StepPreserves` | dagr_mcp/deferred_boundary.py:364-615 | every move of every thread keeps the invariant of locks, slots, history and threads |
| `DeferredThreads.HandlerAtMostOnce` | dagr_mcp/deferred_boundary.py:551-601 | over every interleaving a slot's handler starts at most once, and started exactly when it is running or the slot says so |
| `DeferredThreads.MutualExclusion` | dagr_mcp/deferred_boundary.py:405-417 | two threads are never inside one slot's critical section |
| `DeferredThreads.TerminalIsAbsorbing` | dagr_mcp/deferred_boundary.py:427-432 | no continuation of a run changes anything in a terminal slot |
| `DeferredThreads.ActorCheckNeverFires` | dagr_mcp/deferred_boundary.py:538-549 | a reachable pending slot carries no decision |
| `DeferredThreads.DeferralRunsNothing` | dagr_mcp/deferred_boundary.py:247-358 | a deferring thread starts no handler and touches no other slot |
| `DeferredThreads.MintedInSync` | dagr_mcp/deferred_boundary.py:275-315 | a new slot has the digest and the positive time-out of the review object minted with it |
| `DeferredThreads.GatesAgree` | dagr_mcp/tool_call_disposition.py:236-320 | the boundary runs the handler exactly when it reaches its outcome and the readiness summary allows it, and answers the other statuses in its own way |
| `DeferredThreads.HandlerStartsExactlyWhenReady` | dagr_mcp/deferred_boundary.py:427-556 | in every run a thread that holds its slot starts the handler exactly when the check reaches its outcome and the readiness of the review object its deferral minted allows it |
| `DeferredHistory.DeferralIsAccepted` | dagr_mcp/deferred_boundary.py:247-358 | exactly which deferrals are accepted, and the slot each leaves |
| `DeferredHistory.ReadinessIsTold` | dagr_mcp/tool_call_disposition.py:236-320 | the readiness summary allows execution exactly when the review object names one attested digest, the arguments have it and a proper decision spells "approved" |
| `DeferredHistory.ResumeIsDecided` | dagr_mcp/deferred_boundary.py:419-615 | what each resume is answered and leaves in the slot, case by case: too late, unreadable, stale, rejected, expired, still deferred, other arguments, or run |
| `DeferredHistory.EverySlotTells` | dagr_mcp/deferred_boundary.py:364-615 | in every run each slot holds the digest, time and time-out of the one call that deferred it, and if it is closed, some resume brought exactly the reason it gives: an approval whose handler returned its result, or a decision, a delay, other arguments or a failed handler |
| `DeferredHistory.HandlerStartsOnApproval` | dagr_mcp/deferred_boundary.py:427-556 | in every run a thread that holds its slot starts the handler exactly when the slot is pending and the decision spells "approved", is proper, in time and not older than the deferral, and names the deferred arguments |
| `DeferredHistory.RunningIsApproved` | dagr_mcp/deferred_boundary.py:247-556 | a running handler has arguments of the same digest as the call that some thread deferred under its reference, approved within that call's time-out |
| `EnforcementHarness.NormalizeTwice` | dagr_mcp/enforcement_harness.py:541-546 | normalizing a sink name is idempotent exactly on names without the doubled suffix |
| `EnforcementHarness.SinkIsFound` | dagr_mcp/enforcement_harness.py:541-592 | each sink is found under exactly its own spellings |
| `PayloadHash.TameHasHash` | dagr_mcp/sdk_spine.py:710-726 | every tree of encodable texts, numbers, bytes, lists and dictionaries has a stable hash, also with objects in it that JSON does not know but that spell themselves |
| `PayloadHash.HashIsExact` | dagr_mcp/sdk_spine.py:710-726 | exactly which payloads have a hash: the encoder spells every part, or gives up on one before any makes it raise and `str` spells the whole |
| `PayloadHash.WithoutHash` | dagr_mcp/sdk_spine.py:710-726 | payloads that have none, and that the first failure of the encoder decides |
| `EnforcementHarness.MergeNames` | dagr_mcp/enforcement_harness.py:520-538 | the loop gives exactly the normalized names, without repetition, in the order of first occurrence |
| `EnforcementHarness.EffectiveSinksAre` | dagr_mcp/enforcement_harness.py:549-573 | the sinks a call has to have are those its decision names, normalized, and those its profile asks for, each once |
| `EnforcementHarness.HarnessContext.AppendEvent` | dagr_mcp/enforcement_harness.py:666-707 | an event names exactly the earlier ones and extends the chain by its own new reference |
| `EnforcementHarness.HarnessContext.CheckEffectiveSinks` | dagr_mcp/enforcement_harness.py:594-641 | the loop passes only if every sink's own check passed, and a failure is a missing sink, or a check that is recorded with that failure |
| `EnforcementHarness.HarnessContext.GateCall` | dagr_mcp/enforcement_harness.py:737-857 | a gated call never runs the handler, each way it ends has its cause and its record, and an exception escapes exactly when a sink broke |
| `EnforcementHarness.HarnessContext.Wrapped` | dagr_mcp/enforcement_harness.py:184-420 | the handler runs only where the policy lets it and after every sink that policy and profile ask for answered that it is available and writable, or degraded where tolerated, and each failed check is such an answer; event lineage, the meaning of `ok`, receipts and gate that fit the decision with one admission at most, a cause and a record for every failure, and exactly when an exception escapes, whatever the outside answers |
| `CustodyGateway.AcceptsExactly` | dagr_mcp/mcp_record_custody_gateway.py:394-565 | exactly which arguments the constructor accepts, each by its own rule, with no raw content, secret or private path at any depth |
| `CustodyGateway.AcceptedHolds` | dagr_mcp/mcp_record_custody_gateway.py:394-565 | an accepted object holds, for every argument, what was given, stripped, or what it stands for when it is left out |
| `CustodyGateway.NormalizedTwice` | dagr_mcp/mcp_record_custody_gateway.py:394-562 | constructor normalization is idempotent, argument by argument |
| `CustodyGateway.CustodyRoundTrip` | dagr_mcp/mcp_record_custody_gateway.py:567-626 | every accepted object is rebuilt exactly from its own dictionary |
| `CustodyGateway.OnlyArgumentsRead` | dagr_mcp/mcp_record_custody_gateway.py:613-626 | building from a dictionary reads its arguments only; an unknown member is an error, and the derived members do not matter |
| `CustodyGateway.HashVerifiesInPlace` | dagr_mcp/mcp_record_custody_gateway.py:201-210 | the stored hash re-verifies whatever the hash member holds |
| `CustodyGateway.HashFixesTheRest` | dagr_mcp/mcp_record_custody_gateway.py:201-210 | projections with one hash differ in the hash member only |
| `ReferenceSelector.ReferenceSelect` | dagr_mcp/amnesiac_native.py:498-536 | the filtering loop, the order and the budget give the specified selection |
| `ReferenceSelector.SelectionPartitions` | dagr_mcp/amnesiac_native.py:498-536 | selected and excluded identifiers together are those of the claims, counted exactly |
| `ReferenceSelector.PartitionIsDisjoint` | dagr_mcp/amnesiac_native.py:498-536 | with distinct claims each is on exactly one side, once |
| `ReferenceSelector.SelectsTheFirst` | dagr_mcp/amnesiac_native.py:527-536 | the selection is the bytewise first eligible claims, as many as the budget allows |
| `ReferenceSelector.ExclusionIsTold` | dagr_mcp/amnesiac_native.py:498-536 | every exclusion has its reason and every reason excludes: the first of not admitted, out of scope and too late, or after the budget in the order |
| `ReferenceSelector.AtMostIsLexicographic` | dagr_mcp/amnesiac_native.py:527-528 | the order is the lexicographic one |
| `ReferenceSelector.LargerBudgetExtends` | dagr_mcp/amnesiac_native.py:530-536 | a larger budget only extends the selection |

## Left out

* Cryptography, canonicalization, JSON text, temporary files, permissions,
  symbolic links and the emergency spool: library or operating-system behaviour,
  replaced by the ideal laws stated with `Platform` and `SigningIdentity`. That
  signatures cannot be forged is asked for only where a theorem rests on it.
* How a request is snapshotted and how actors, tenants and tokens are extracted:
  the snapshot and the actor are inputs of a call.
* A cancellation while a resolver is awaited, before anything is written: the
  gateway reports it as an admitted cancellation; the model's calls are cancelled
  in their tool.
* The time stamps of telemetry events, and interrupts that are not ordinary
  exceptions.
* The tables of forbidden member names, private markers, detail keys and white space
  are taken over as they are; the theorems say what follows from them.
* The texts of the attestation limits: a text per family is a parameter, and so
  are the constant members of the custody projection.
* Malformed trust bundles: the bundle is a list of well-typed issuers.
* The grammar of actor references and the exact reading of base-16 digits are
  functions of `Disposition.Host`.
* Reading slots without their lock, and handlers that call the boundary again.
* Receipt and result hashes inside the harness's own receipt envelope, and the
  contents of its review objects beyond what their validation reads.
* Payloads and stored objects nested beyond the interpreter's recursion limit, in
  the harness and in the reader, mappings other than
  `dict` as harness arguments, subclasses that change how a value is encoded, and
  the references of the harness caller's context, whose `str` may raise.
* `dagr_mcp_service/iron_transform.py`, governed-read receipts,
  `request_reopening`, `probe_final_guard`, demos, connectors, server wiring,
  `cg_extension`, `policy_profile`, `coverage`, `execution_coverage.py` and
  `evidence_flight_recorder.py`: other protocols, unseen producers, or finite
  tables and counters that would add easy members only.
- ReceiptAccess.ReadingRaisesExactly: speaks of the TypeError; a stored object that parses but is nested too deep to be copied (dagr_mcp_service/access.py:464) raises a RecursionError, which depends on the interpreter's stack and is not modelled.
- EndToEnd.GovernedCallRoundTrip: assumes distinct file names in the log; with collisions `RoundTrip.LossyStoreIsSafe` is what remains.
- Lifecycle.PlanCardinality: speaks of completed plans only; the planner's own error branches are `Lifecycle.PlanFailsExactlyWhen`.
