# Pallium relay wake and native bridge: a verified model

Pallium wakes idle agent sessions over native transports and keeps relay state
that must survive crashes, cancellations and shutdown. This project models the
protocols that carry that burden and proves what their comments, names and
constants promise, for every input, every interleaving of the modelled regions
and every answer of the operating system.

Each component is one module. Where the source changes objects step by step, a
class has methods with the same branches, proved against a step function or an
invariant; lemmas then prove what holds over whole runs. Nondeterminism (the
operating system, the desktop, other threads, the clock) is an argument or an
arbitrary choice. Lemma names below are the statements; helpers have no row.

| module | component |
|---|---|
| `Operations` | operation accounting, wake permits and the drain of `create_app` |
| `TraceWriter` | the bounded trace queue and its single writer |
| `PipeIO` | overlapped pipe I/O with deadlines, cancellation and a retained read |
| `DesktopCodec` | length-prefixed frames under partial transfers |
| `ShadowChannel` | grants, leases and sequence numbers of the shadow channel |
| `InventoryProof`, `InventoryService` | write-once proof phases, their reader, and the service that publishes them |
| `ArchiveSchema`, `ArchiveTraversal` | the conservative schema check and the cached archive traversal |
| `Enrollment` | the diagnostics publisher of the retained service and its health reader |
| `WakeFence`, `WakeDispatch`, `ScheduleTable` | durable wake generations, the workers that spend and release them, the process tables |
| `ClaudeWake` | Claude wake workers, admission stop and drain |
| `Snapshots`, `SnapshotRetention`, `SnapshotStore` | restore, create and prune of paired snapshots |
| `Trimming`, `Pagination`, `Readiness`, `AcceptLoop` | diagnostic trimming, keyset listings, the evidence ring, the accept callback |

## What the code does not promise

Where a property one would expect fails, the model keeps the code as it is and
the exact condition is proved.

* A pipe poll cancelled at its deadline while an oversized message is arriving
  drops the bytes already transferred and still reports the deadline, so the
  channel goes on. Nothing is lost exactly when no poll is torn like that
  (`ReadsLoseNothingExactlyWithoutTearing`, with `TornPollLosesBytes` as the instance).
* A desktop transfer cancelled at its deadline may have moved all its bytes and still
  fails (`FailedTransfersMayHaveMoved`). So a frame whose write failed is in the stream
  in whole exactly when the failing transfer moved all that remained
  (`DesktopStream.Write`), and a refused read may have consumed everything it asked for.
* An inventory attempt skips the check for leftover phase files when its policy is
  the current one already. Without custody that is met exactly when the released
  policy itself is shown again before its expiry
  (`LeftoversAreMetExactlyByAReleasedPolicy`): never while the file moves as
  provisioning moves it and the UTC clock goes forward, but a clock that steps back
  does it (`RollbackReadmitsTheReleasedPolicy`, `RollbackOverAFailureAlone`). Such an attempt stays readable at
  every point exactly when the first one left nothing, or both `before` and
  `failure` (`RepeatedAttemptsAreReadableExactlyWhenInert`).
* The schema check compares with the host language's equality, which finds `1` in
  an enumeration of `true` and `0` in one of `false`. It is sound for a value exactly
  when the value is neither (`SoundExactlyWithoutZeroAndOne`); what the service sends is neither.
* The diagnostics writer admits one reason the health reader refuses,
  `peer-closed`; no call site records it (`VocabulariesDifferByPeerClosed`,
  `RecordedReasonsAreReadable`).
* A teardown notes unresolved handles without the custody lock and invalidates the
  diagnostics afterwards; the state shown in between is untrue exactly when the handles
  were not published as unresolved before (`StateIsTrueExactlyOutsideATeardown`).
* A `native_retry_safe` verdict alone does not mean that a generation was never
  submitted: a sweep may resume a record that a running dispatch has just rearmed
  (`VerdictAloneIsNotEnough`). The verdict is wrong exactly when another worker of
  the process holds the generation and submitted it, and then the comparison of the
  whole stored record withholds the release
  (`SafeVerdictsAreWrongExactlyAfterAnotherSubmission`); it is never wrong while the
  held record is the stored one.
* An exception outside `Exception` ends a Claude wake path without a `completed`
  event, and from the first trace callback it leaves the endpoint blocked
  (`EveryEndedPathCompletesExactlyUnlessAborted`, `StuckEndpointStaysBlocked`).
* Restore goes on to an older generation after an I/O error on a sidecar of an
  already placed pair, and an interruption then can leave the main file of one
  generation with the relay file of another; the next restore leaves that alone.
  This is possible exactly when the directory holds two clashing restorable
  generations (`MixingNeedsExactlyAClash`).
* An interrupt between placing a marker and returning leaves a marker without its
  files (`DanglingMarkerExactly`); it still occupies a place among the kept ones.
* The accept callback keeps one accept outstanding exactly unless the handling of a
  connection, or accepting, raises something other than an `OSError` or a cancellation
  (`OneAcceptExactlyUnlessAnExceptionEscaped`).

## Model

| member | source | states |
|---|---|---|
| Operations.EveryRunIsAccounted | app/main.py:240-309 | over every interleaving of workers, loop callbacks, cancellations and loop closing, the active count is the number of operations entered and not retired, and no operation is retired twice and no permit released twice |
| Operations.WakeBodiesAreBounded | app/main.py:241-308 | at most three wake bodies run at once, each holding a permit |
| Operations.NoBodyStartsAfterItsCountWasDropped | app/main.py:256-261 | whatever step comes next, a running body belongs to an operation still on the count |
| Operations.RetirementIsFinal | app/main.py:256-297 | a retired operation stays retired and never runs |
| Operations.DrainIsFinal | app/main.py:307-309 | a zero count means no body is running, and only operations entered later can run |
| Operations.QuiescenceReturnsEverything | app/main.py:262-297 | on an open loop, when all has ended each operation was retired exactly once, each acquired permit released exactly once, and all permits are free |
| Operations.OperationGate.EnterOperation | app/main.py:253-254 | the first locked region is the Enter step and keeps the books |
| Operations.OperationGate.AcquireAdmission | app/main.py:282-284 | a permit is granted exactly when the loop is open and fewer than three are out |
| Operations.OperationGate.BeginTracked | app/main.py:256-261 | the body runs exactly when its asyncio task has not retired the operation first |
| Operations.OperationGate.EndBodyAndPost | app/main.py:262-273 | the worker posts its permit's release to the loop, if the loop is open |
| Operations.OperationGate.RetireWorker | app/main.py:274-277 | the worker takes exactly one off the count |
| Operations.OperationGate.DeliverRelease | app/main.py:270 | the loop's callback frees the one permit it was posted for |
| Operations.OperationGate.FinishTask | app/main.py:290-297 | the finally block, by completion or cancellation, is the TaskFinishes step |
| Operations.OperationGate.WaitForOperations | app/main.py:307-309 | true exactly when no operation is outstanding, and then no body runs |
| TraceWriter.SlotsAreConserved | app/relay_trace.py:14-50 | free slots plus outstanding slots are always 64 |
| TraceWriter.WrittenIsAPrefixOfAccepted | app/relay_trace.py:32-68 | what reached the writer is a prefix of the accepted events: at most once, in order, never a rejected one |
| TraceWriter.OnlyCloseDropsEvents | app/relay_trace.py:40-75 | without a shutdown, a writer that has run dry has written everything accepted |
| TraceWriter.DroppedExactlyByShutdown | app/relay_trace.py:70-75 | a job is cancelled exactly when the executor was shut down before it began |
| TraceWriter.NothingRunsAfterClose | app/relay_trace.py:74-75 | after any close returned no writer runs, then or later |
| TraceWriter.RelayTraceWriter.Enqueue | app/relay_trace.py:32-58 | true exactly when open, with a slot, and submitted; acceptance order grows by that event and one slot is taken |
| TraceWriter.RelayTraceWriter.WriteNext | app/relay_trace.py:60-68 | the single thread writes the oldest queued event |
| TraceWriter.RelayTraceWriter.Mark | app/relay_trace.py:71-73 | closing is marked under the lock |
| TraceWriter.RelayTraceWriter.CancelPending | app/relay_trace.py:75 | the executor cancels what has not begun |
| TraceWriter.RelayTraceWriter.Close | app/relay_trace.py:70-80 | returns with no writer running and what was accepted and written unchanged |
| PipeIO.ReadOnceBalances | app/codex_bridge_pipe.py:517-646 | one poll delivers or retains what was retained and consumed before, in order, unless it is torn; then exactly that one message is missing |
| PipeIO.ReadsLoseNothingExactlyWithoutTearing | app/codex_bridge_pipe.py:517-646 | over any schedule of polls with only deadline failures, consumed equals returned plus retained, in order, exactly when no poll was torn |
| PipeIO.CountsBalance | app/codex_bridge_pipe.py:517-646 | consumed messages are those returned, at most one retained, and those torn |
| PipeIO.TornPollLosesBytes | app/codex_bridge_pipe.py:553-613 | a concrete poll that loses 32,769 bytes behind a reported deadline |
| PipeIO.UnresolvedExactlyWhenNotProven | app/codex_bridge_pipe.py:570-614 | a resolved pipe becomes unresolved and keeps the event of the call exactly when its submitted operation is not proven complete; an unresolved one stays so and keeps every event of a submitted operation |
| PipeIO.InFlightIsNotProven | app/codex_bridge_pipe.py:570-614 | what is still in the kernel's hands is never taken for proven complete |
| PipeIO.HandleOutlivesUnprovenCalls | app/codex_bridge_pipe.py:517-646 | in any run of calls, accepted peers and closes, one operation not proven complete keeps its event and the pipe handle open for good |
| PipeIO.CloseTakesEffectExactlyWhenAllProven | app/codex_bridge_pipe.py:593-646 | after any run, close closes the handle exactly when no operation of the run was left unproven |
| PipeIO.OnlyReadsAreRetained | app/codex_bridge_pipe.py:517-625 | connecting and writing never fill the retained read |
| PipeIO.NativePipe.Operation | app/codex_bridge_pipe.py:517-614 | the polling, cancelling and closing code yields exactly the specified outcome, pipe state and fate of the event |
| PipeIO.NativePipe.Accept | app/codex_bridge_pipe.py:616-621 | a reused server handle carries no bytes across peers |
| PipeIO.NativePipe.Read | app/codex_bridge_pipe.py:623-630 | a retained read is returned first, and an oversized message is refused |
| PipeIO.NativePipe.Close | app/codex_bridge_pipe.py:640-646 | an unresolved pipe keeps its handle |
| DesktopCodec.HeaderRoundTrip | app/codex_bridge_pipe.py:1179-1213 | the four-byte little-endian header decodes to the length it encodes |
| DesktopCodec.FirstFrameIsExact | app/codex_bridge_pipe.py:1179-1213 | a stream starts with a frame exactly when it is that frame followed by the rest |
| DesktopCodec.FramesRoundTrip | app/codex_bridge_pipe.py:1179-1213 | any sequence of frames of 1 to 8 MiB comes back payload by payload and ends at the next frame |
| DesktopCodec.FramesAreUnambiguous | app/codex_bridge_pipe.py:1179-1213 | equal streams carry equal conversations, of whatever lengths |
| DesktopCodec.FailedTransfersMayHaveMoved | app/codex_bridge_pipe.py:593-604 | a transfer cancelled at its deadline can settle with all its bytes, and the call still fails |
| DesktopCodec.DesktopStream.Write | app/codex_bridge_pipe.py:1200-1213 | success appends exactly one frame under any split into partial writes; failure leaves what the earlier transfers moved and what the failing one moved behind its failure, which is the whole frame exactly when the latter is all that remained |
| DesktopCodec.DesktopStream.ReadExact | app/codex_bridge_pipe.py:1182-1190 | all the bytes under any split into partial reads, or a refusal that consumed what the earlier transfers moved and what the failing one moved behind its failure, at most all of them |
| DesktopCodec.DesktopStream.Read | app/codex_bridge_pipe.py:1192-1198 | a payload is returned exactly when it is the first frame, and the stream stands at the next one; a refusal stands after what its transfers moved |
| ShadowChannel.AuthorityIsBounded | app/codex_bridge_pipe.py:709-768 | in every run lease <= expiry <= enrollment + 300 s, at most 59 renewals of one grant, accepted sequence numbers strictly increase |
| ShadowChannel.GrantsAreNeverExtended | app/codex_bridge_pipe.py:709-768 | no exchange moves an expiry; only a renewal at least five seconds later moves a lease, within it; re-enrolling hands out the same grant |
| ShadowChannel.RepliesNeedALiveGrant | app/codex_bridge_pipe.py:709-768 | every answer under a grant goes to its holder before lease and expiry ran out |
| ShadowChannel.FiftyNineRenewalsHappen | app/codex_bridge_pipe.py:709-768 | the bound of 59 renewals is reached |
| ShadowChannel.ShadowService.ProcessRequest | app/codex_bridge_pipe.py:709-768 | the field updates of one request are the specified transition and answer |
| ShadowChannel.ShadowService.Connected | app/codex_bridge_pipe.py:770-852 | a new peer starts without a grant and at sequence zero |
| InventoryProof.AttemptsAreReadable | app/codex_bridge_pipe.py:1287-1344 | the files of a kept attempt are never invalid to the reader, a pass is reported exactly with the three phases, and failure and after never both exist |
| InventoryProof.ContinueKeepsInv | app/codex_bridge_pipe.py:1691-1733 | every sequence of publications, failures and removals keeps an attempt readable |
| InventoryProof.FreshAttemptsAreReadable | app/codex_bridge_pipe.py:1287-1344 | an attempt over an empty directory is readable at every point |
| InventoryProof.RepeatedAttemptsAreReadableExactlyWhenInert | app/codex_bridge_pipe.py:1691-1703 | a second attempt under the same policy is always readable exactly when the first left nothing or left both before and failure |
| InventoryProof.BreakingMoves | app/codex_bridge_pipe.py:1691-1733 | otherwise some moves make the reader call the directory invalid |
| InventoryService.RollbackReadmitsTheReleasedPolicy | app/codex_bridge_pipe.py:1449-1510 | a clock that steps back behind the expiry readmits the released policy over its files, and the new attempt can make a readable directory invalid |
| InventoryService.RollbackOverAFailureAlone | app/codex_bridge_pipe.py:1449-1510 | the failure of an attempt that witnessed nothing is enough: the readmitted policy publishes three phases beside it and the directory is invalid |
| InventoryService.InventoryService.LeftoversAreMetExactlyByAReleasedPolicy | app/codex_bridge_pipe.py:1479-1510 | in an orderly run without custody, phase files are met exactly by the released policy shown again before its expiry, which a look in step with the earlier ones never is |
| InventoryService.InventoryService.DirectoryIsReadable | app/codex_bridge_pipe.py:1287-1344 | at every moment between regions the operator's reader accepts the directory of an orderly run, and of any attempt started over an empty directory |
| InventoryService.InventoryService.UnattemptedPolicyIsReadable | app/codex_bridge_pipe.py:1287-1344 | before its first attempt a policy's directory reads as incomplete |
| InventoryService.InventoryService.PublishProof | app/codex_bridge_pipe.py:1691-1698 | the phase of the current proof is written once with that proof over no other file, or nothing changes |
| InventoryService.InventoryService.ProofFailure | app/codex_bridge_pipe.py:1700-1703 | an attempt is settled by its first failure or its success, and a settled one is left alone |
| InventoryService.InventoryService.Drop | app/codex_bridge_pipe.py:1427-1441 | custody in doubt is kept and stops the service, other custody ends |
| InventoryService.InventoryService.Maintain | app/codex_bridge_pipe.py:1449-1477 | revocation or expiry releases the policy, any other disturbance fences it; either ends custody and settles the attempt; an undisturbed look changes nothing |
| InventoryService.InventoryService.Authorize | app/codex_bridge_pipe.py:1479-1510 | authorised exactly when the look admits the policy over these files and the identities hold; an orderly authorisation without custody meets no files |
| InventoryService.InventoryService.Observe | app/codex_bridge_pipe.py:1611-1690 | a successful observation holds undoubted custody and leaves attempt and authority as they were |
| InventoryService.InventoryService.Transfer | app/codex_bridge_pipe.py:1525-1609 | a new registration ends with custody and exactly before published; a refusal leaves the attempt alone or ends fenced, settled and without custody but one in doubt |
| InventoryService.InventoryService.AfterSourceExit | app/codex_bridge_pipe.py:1705-1733 | runs at most once in an attempt, and ends with exit and after published over before, or fenced, settled and without custody but one in doubt |
| InventoryService.InventoryService.Terminate | app/codex_bridge_pipe.py:2018-2038 | ending the service settles the attempt and leaves a settled one alone |
| InventoryService.InventoryService.NewSource | app/codex_bridge_pipe.py:1947-1953 | a new source lifts the fence exactly after a release |
| InventoryService.InventoryService.OperatorRemoves | docs/designs/codex-mcp-desktop-bridge.md:423-424 | the clean-up that precedes rearming may remove phase files at any time |
| ArchiveSchema.AcceptsIsSound | app/codex_bridge_pipe.py:2374-2417 | an accepted field schema is satisfied by the value (JSON Schema Validation draft 2020-12 sections 6.1 to 6.3, Core section 10.2.1.2), whatever unknown keywords mean |
| ArchiveSchema.CheckIsSound | app/codex_bridge_pipe.py:2374-2417 | accepted arguments satisfy the whole schema, including section 6.5.3 |
| ArchiveSchema.ServiceArgumentsAreSafe | app/codex_bridge_pipe.py:2817-2822 | what the service sends satisfies every schema the check accepts, for every cursor |
| ArchiveSchema.CheckIsExact | app/codex_bridge_pipe.py:2374-2417 | on schemas of understood keywords the check accepts exactly the satisfying arguments |
| ArchiveSchema.SoundExactlyWithoutZeroAndOne | app/codex_bridge_pipe.py:2374-2417 | the check of a value is sound against every schema exactly when the value is neither 0 nor 1 |
| ArchiveSchema.ZeroAndOneAreConfused | app/codex_bridge_pipe.py:2401-2404 | a schema for each of 0 and 1 that the check accepts and the value does not satisfy |
| ArchiveTraversal.ArchiveReader.TargetArchived | app/codex_bridge_pipe.py:2805-2853 | ends for every server within the byte budget; a negative answer needs a complete fresh snapshot; against an unchanged archive it is the answer of a full traversal |
| Enrollment.VocabulariesDifferByPeerClosed | app/relay_wake_health.py:10-73 | the writer's reasons exceed the reader's by exactly one |
| Enrollment.RecordedReasonsAreReadable | app/codex_bridge_pipe.py:2539-2543 | no call site records that reason |
| Enrollment.VocabularyFits | app/relay_wake_health.py:19-73 | every stage and reason fits the reader's length limits |
| Enrollment.RetainedService.SnapshotsAreReadable | app/relay_wake_health.py:19-73 | with a working clock the reader accepts every published snapshot, in the middle of a locked region too, and shows it unchanged; lost diagnostics read as unavailable |
| Enrollment.RetainedService.StateIsTrueExactlyOutsideATeardown | app/relay_wake_health.py:19-73 | whenever the custody lock is free the reader's state is the true one exactly unless a teardown has noted unresolved handles that are not published and not yet invalidated |
| Enrollment.RetainedService.Invalidate | app/codex_bridge_pipe.py:2500-2503 | invalidated diagnostics are gone; every method keeps a loss |
| Enrollment.RetainedService.Publish | app/codex_bridge_pipe.py:2504-2538 | a publication changes exactly the fields given, never forgets acceptance, or loses the diagnostics |
| Enrollment.RetainedService.RecordFailure | app/codex_bridge_pipe.py:2539-2543 | an admitted reason is recorded and the flags stay |
| Enrollment.RetainedService.ClearRegistration | app/codex_bridge_pipe.py:2544-2552 | the registration goes and the published flags mirror it |
| Enrollment.RetainedService.Drop | app/codex_bridge_pipe.py:2553-2571 | a registration outlives its custody only when asked to and nothing native is in doubt |
| Enrollment.RetainedService.CheckCustody | app/codex_bridge_pipe.py:2759-2771 | complains of being stopped while stopping, in doubt or without custody, and otherwise as the surroundings do |
| Enrollment.RetainedService.Register | app/codex_bridge_pipe.py:2855-2940 | a successful registration implies acceptance and custody; any path keeps the published flags true |
| Enrollment.RetainedService.Renew | app/codex_bridge_pipe.py:2855-2940 | over held custody a registration succeeds exactly when custody passes its check, the fingerprint and any remembered endpoint match, and the answer can be given; an answer that fails denies it after the publication |
| Enrollment.RetainedService.Enroll | app/codex_bridge_pipe.py:2855-2940 | succeeds exactly when opening and answering do and nothing is stopping or in doubt, and remembers the endpoint; a denial leaves no registration, no custody but one in doubt, and records its reason |
| Enrollment.RetainedService.Maintain | app/codex_bridge_pipe.py:2739-2757 | custody that fails its check is dropped with the registration and the reason recorded; otherwise nothing changes |
| Enrollment.RetainedService.Reopen | app/codex_bridge_pipe.py:2720-2737 | each refusal with its category, or custody back for the remembered registration; a failure publishes nothing |
| Enrollment.RetainedService.DispatchFailed | app/codex_bridge_pipe.py:3055-3081 | a failed dispatch records its reason, drops custody, and keeps the registration exactly when asked to with nothing in doubt |
| Enrollment.RetainedService.NoteDoubt | app/codex_bridge_pipe.py:2573-2597 | handles in doubt are noted without the custody lock, and the published flags lag behind |
| Enrollment.RetainedService.InvalidateInDoubt | app/codex_bridge_pipe.py:2573-2597 | the step after it makes the diagnostics unavailable exactly when handles are in doubt, and ends the lag |
| Enrollment.RetainedService.BeginStop | app/codex_bridge_pipe.py:2573-2576 | stopping clears the registration under the custody lock |
| Enrollment.RetainedService.Stop | app/codex_bridge_pipe.py:2573-2580 | with nothing in between, the three steps clear the registration, and a worker that does not end makes the diagnostics unavailable |
| WakeFence.RetrySafeExactlyWithoutProcess | app/codex_wake.py:856-1037 | a launch is called safe to retry exactly when no process was started |
| WakeFence.StepKeepsInv | storage/sqlite_relay.py:756-974 | every registry transition and worker step, with any commit outcome, keeps rows, spent, submitted and released generations apart |
| WakeFence.SpendAndStartKeepsInv | core/codex_wake.py:186-263 | checking, spending and starting in one locked region never submits a released or already submitted generation |
| WakeFence.RetryReleaseKeepsInv | core/codex_wake.py:391-418 | releasing a prepared record, or a spent one without a process, never releases a submitted generation |
| WakeFence.ReleasedMeansNeverSubmitted | app/codex_wake.py:660-763 | in every run over a persisted registry, across restarts, released generations have no submission and none is submitted twice |
| WakeFence.ReleaseIsFinal | core/codex_wake.py:391-418 | after a release its generation is never submitted or stored again |
| WakeFence.RegistryStaysWellKept | storage/sqlite_relay.py:756-974 | generations stay distinct and below the mark, so the guarantees carry over to the next process |
| WakeFence.SafeVerdictsAreWrongExactlyAfterAnotherSubmission | app/codex_wake.py:660-763 | in every run, a safe verdict's generation has a submission exactly when another worker of the process holds it and submitted it; it has none while the held record is the stored one, and otherwise no release takes effect |
| WakeFence.VerdictAloneIsNotEnough | app/codex_bridge_pipe.py:2989-3040 | a run that reaches such a verdict: rearm, resume under the new generation, submit, defer; the release is refused |
| WakeFence.TwoHoldersArise | app/codex_wake.py:437-447 | the schedule table, which compares generations, lets a sweep schedule the rearmed record while the dispatch that rearmed it runs |
| WakeDispatch.WakeWorker.BeginNativeAttempt | core/codex_wake.py:243-263 | answered exactly when the held record was current, prepared, unclaimed and committed |
| WakeDispatch.WakeWorker.RearmForRetry | core/codex_wake.py:358-380 | a retry gets a new generation, or the dispatch ends without permission to release |
| WakeDispatch.WakeWorker.SpendAndInitiate | app/codex_bridge_pipe.py:3020-3039 | the region is the Write step; exactly one transport is initiated exactly when the spend was answered |
| WakeDispatch.WakeWorker.WriteRegion | app/codex_bridge_pipe.py:3020-3045 | under any interference, refused and raised-before-spend paths initiate nothing, and a spent one is never safe to retry |
| WakeDispatch.WakeWorker.Dispatch | app/codex_bridge_pipe.py:2944-3093 | at most one initiation on one transport, and its generation is spent; retry safety only for a prepared reservation with none, and exactly then when deferred, unless the fence refused a rearmed one; accepted only for a queue start |
| WakeDispatch.WakeWorker.FinishQueue | app/codex_bridge_pipe.py:3082-3093 | once spent, even a failed queue start is never safe to retry |
| WakeDispatch.WakeWorker.WakeRetained | app/codex_wake.py:669-704 | under any interference the worker releases at most its own generation, and only on a safe verdict; no released generation has a submission |
| WakeDispatch.WakeWorker.WakeQueued | app/codex_wake.py:706-763 | without the retained service: at most one queue start, a release only on a safe verdict, and a safe verdict means its generation has no submission |
| WakeDispatch.WakeWorker.SettleAndLeave | app/codex_wake.py:692-703 | release exactly when permitted and still current |
| WakeDispatch.AttemptFromLaunch | app/codex_wake.py:1020-1037 | safe exactly for the three failures before a process, deferred and without evidence; every other result carries evidence |
| ScheduleTable.RunsStayAligned | app/codex_wake.py:430-447 | generations and deliveries are kept for the same targets |
| ScheduleTable.OnlyItsOwnerDropsAnEntry | app/codex_wake.py:623-657 | an entry outlives every clear and retarget of other generations |
| ScheduleTable.ClearEndsASchedule | app/codex_wake.py:623-630 | clearing frees the target for any later holder |
| ScheduleTable.RetargetMovesExactlyIntoAFreeTarget | app/codex_wake.py:633-657 | a live reservation's entry moves exactly when the new target is not another's |
| ScheduleTable.Schedules.Enter | app/codex_wake.py:438-447 | refused exactly when this holder is scheduled already |
| ScheduleTable.Schedules.ClearSchedule | app/codex_wake.py:623-630 | the clear step; no other holder's entry goes |
| ScheduleTable.Schedules.RetargetSchedule | app/codex_wake.py:633-657 | the retarget step |
| ClaudeWake.StepKeepsInv | app/claude_wake.py:136-243 | every region of every thread keeps the attempt table, the worker table and the trace counts in step |
| ClaudeWake.OneAttemptPerEndpoint | app/claude_wake.py:136-148 | at most one worker per registry and endpoint is inside the attempt, in every run |
| ClaudeWake.EveryEndedPathCompletesExactlyUnlessAborted | app/claude_wake.py:149-240 | in every run an ended path prepared once and completed once exactly when no event of the run let an exception outside Exception cut it short |
| ClaudeWake.RunCutsShortExactly | app/claude_wake.py:149-240 | a path is cut short exactly when its interrupted first callback or its interrupted attempt is among the enabled events of the run |
| ClaudeWake.NothingStartsAfterStop | app/claude_wake.py:74-77 | once stopped, no worker of the registry comes to life |
| ClaudeWake.StopThenDrainIsFinal | app/claude_wake.py:74-91 | after stop and a returned drain no worker of the registry is alive, now or later |
| ClaudeWake.StuckEndpointStaysBlocked | app/claude_wake.py:136-150 | a path cut short at its first callback blocks its endpoint for good |
| ClaudeWake.ClaudeWakes.Register | app/claude_wake.py:136-146 | the first region: prune, refuse, associate or register |
| ClaudeWake.ClaudeWakes.StartWorker | app/claude_wake.py:208-219 | the second region: a worker runs only in a registry that is not closing |
| ClaudeWake.ClaudeWakes.Finish | app/claude_wake.py:196-203 | the entry is dropped if it is still this call's, then completed is emitted if a result exists |
| ClaudeWake.ClaudeWakes.Schedule | app/claude_wake.py:136-243 | under any interference: not admitted, a running worker, returned with one completed, or cut short with none |
| ClaudeWake.ClaudeWakes.WorkerBody | app/claude_wake.py:168-203 | under any interference the thread ends with one completed, or none when aborted |
| ClaudeWake.ClaudeWakes.Drain | app/claude_wake.py:80-91 | a drain that returns after the stop leaves no live worker of its registry |
| Snapshots.RestoredIsOneGeneration | app/snapshot.py:107-140 | whatever the answers, Restored means copies of one sound generation and no stale sidecars; a half pair is refused untouched, a full one left alone; the directory is never changed |
| Snapshots.WithoutIoErrorsTheNewestIsChosen | app/snapshot.py:116-140 | without I/O errors, wherever it ends: nothing live, the newest generation's main file alone, or that generation; NotRestored means none is restorable |
| Snapshots.ScanStaysTraced | app/snapshot.py:116-140 | after any answers the live files stem from tried generations, the relay file's no later than the main file's |
| Snapshots.MixedNeedsAClash | app/snapshot.py:130-139 | a mixed pair needs two clashing generations |
| Snapshots.AClashCanMix | app/snapshot.py:130-139 | any two clashing generations can be mixed, and the next restore keeps the mixture |
| Snapshots.MixingNeedsExactlyAClash | app/snapshot.py:116-139 | some answers leave a mixed pair exactly when the directory holds a clash |
| SnapshotRetention.CreateIsAllOrNothing | app/snapshot.py:72-95 | however a create ends, other generations stay restorable with their contents, nothing else becomes restorable, and success makes its own restorable |
| SnapshotRetention.DanglingMarkerExactly | app/snapshot.py:87-95 | a marker without files is left exactly when an interrupt strikes after it was placed and the clean-up reaches the main file |
| SnapshotRetention.PruneKeepsExactlyTheNewest | app/snapshot.py:150-158 | the keep newest markers keep what they had however pruning ends, and pruning that succeeds leaves no other |
| SnapshotRetention.CreatedThenPruned | app/snapshot.py:72-158 | a created generation stays restorable exactly when fewer than keep markers have a greater name, so always with a forward clock and keep of one or more |
| SnapshotStore.Store.RestoreSnapshot | app/snapshot.py:107-140 | the step-by-step restore is the specified one and Restored means one generation |
| SnapshotStore.Store.RestoreGeneration | app/snapshot.py:121-138 | staging, placing and cleaning of one generation, in their order |
| SnapshotStore.Store.CreateSnapshot | app/snapshot.py:72-95 | the step-by-step create is the specified one; others stay restorable and success is restorable |
| SnapshotStore.Store.PruneSnapshots | app/snapshot.py:150-158 | the step-by-step prune is the specified one and keeps exactly the newest |
| Trimming.TrimmingConserves | api/routes.py:573-579 | each section keeps a prefix of its candidates, and kept plus omitted is conserved |
| Trimming.TrimmingLevels | api/routes.py:573-579 | any number of pops leaves a water level over the original lists |
| Trimming.TrimmedSectionsStayBalanced | api/routes.py:573-579 | every trimmed section ends within one of the longest |
| Trimming.FirstFitIsUnique | api/routes.py:573-580 | the specified answer is determined |
| Trimming.LongestSection | api/routes.py:574 | the first longest section is chosen |
| Trimming.PopLongest | api/routes.py:574-578 | one candidate of the longest section goes, unless all are empty |
| Trimming.Encode | api/routes.py:551-580 | ends in the first state that fits 65,536 bytes, and raises only with every list empty |
| Pagination.ListingIsSorted | app/dashboard.py:1380-1413 | the listing holds exactly the matching rows, each once, newest first |
| Pagination.ListingAfter | app/dashboard.py:1380-1413 | the rows older than a cursor are what follows it in the listing |
| Pagination.FetchShrinks | app/dashboard.py:1436-1438 | a page that is not the last leaves exactly the tail of the listing |
| Pagination.FollowReturnsTheRest | app/dashboard.py:1488-1489 | from any cursor, following to the end returns the rest |
| Pagination.ScanEnumeratesEverythingOnce | app/dashboard.py:1380-1489 | following cursors enumerates every row up to until exactly once in order, for every page size and whatever later rows are inserted |
| Pagination.CursorsStayInsideUntil | app/dashboard.py:1294-1357 | a cursor handed out is accepted back |
| Readiness.WrittenReadsBack | app/codex_readiness.py:167-216 | a written event reads back as itself |
| Readiness.AcceptedSurvives | app/codex_readiness.py:388-429 | every accepted report survives the filter unchanged |
| Readiness.FilteringIsIdempotent | app/codex_readiness.py:167-216 | whatever was stored, filtering and writing it again changes nothing, and at most 128 good events remain |
| Readiness.EvidenceIsTheEndOfTheHistory | app/codex_readiness.py:258-439 | after any run of records, observations, setups and removals over any file the evidence is the last 128 events of the history in order |
| Readiness.NoReachableMarkerIsTooLarge | app/codex_readiness.py:231-236 | with paths of at most 6,000 encoded bytes every reachable marker has at most 32,564 bytes, and no report is refused for size |
| Readiness.SmallBytes | app/codex_readiness.py:388-429 | an event takes at most 205 bytes |
| Readiness.ReadWakeEvents | app/codex_readiness.py:167-216 | the reversed scan that stops at 128 returns the last 128 readable events in order |
| Readiness.MarkerFile.RecordWakeEvent | app/codex_readiness.py:388-439 | the event joins the history exactly when true is returned; otherwise nothing changes |
| Readiness.MarkerFile.ObserveExecution | app/codex_readiness.py:357-386 | the state becomes verified and the evidence stays |
| Readiness.MarkerFile.ReconcileSetup | app/codex_readiness.py:278-306 | the marker is blanked before the definition is installed, and restored only if nothing changed |
| AcceptLoop.StepKeepsInv | app/asyncio_windows_accept.py:75-192 | every callback run, completion, cancellation and closing keeps at most one accept and accounts for every peer |
| AcceptLoop.OneAcceptExactlyUnlessAnExceptionEscaped | app/asyncio_windows_accept.py:112-192 | one accept is outstanding or the listener or loop is closed, exactly unless handling a connection or accepting raised another exception with both open |
| AcceptLoop.RunEscapesExactly | app/asyncio_windows_accept.py:112-192 | an exception has left a callback exactly when the inputs of some callback of the run let one out |
| AcceptLoop.TransientErrorsKeepListening | app/asyncio_windows_accept.py:158-185 | a transient error closes the listener exactly when accepting again fails too |
| AcceptLoop.FailedAcceptsCloseTheirPeers | app/asyncio_windows_accept.py:75-100 | every failed or cancelled accept has its peer closed |
| AcceptLoop.PeersAreReleasedBeforeTheCallback | app/asyncio_windows_accept.py:95-99 | the peer is closed before the callback runs |
| AcceptLoop.AnEscapeIsForEver | app/asyncio_windows_accept.py:112-192 | after an escape nothing accepts again |
| AcceptLoop.StoppingCancelsTheAccept | app/asyncio_windows_accept.py:182-190 | the registered accept is the outstanding one, so stopping the server leaves none pending |
| AcceptLoop.AcceptServer.AcceptNext | app/asyncio_windows_accept.py:75-100 | the accept primitive with its peer clean-up |
| AcceptLoop.AcceptServer.Loop | app/asyncio_windows_accept.py:112-190 | the callback with its exception clauses is the specified step |
| AcceptLoop.AcceptServer.RunDone | app/asyncio_windows_accept.py:95-190 | the two callbacks of a finished accept, in their order |

## Left out

- JSON serialisers, FastAPI routing, HTML, logging and SQL building: plumbing; sizes are modelled where a limit depends on them.
- Win32 handles, access control, process images, subprocesses and sockets: arbitrary answers.
- The finite trial actions and `_recover_interrupted_swap`: they rest on relay storage outside this model.
- The relay and diagnostic worker limits of 4 and 2: workers begin in any order, which allows more schedules.
- Time-outs of waits: a wait is any number of steps of other threads, or gives up.
- WakeFence.SafeVerdictsAreWrongExactlyAfterAnotherSubmission: schedule entries may be cleared or moved at any time, which allows more runs than the source.
- Registry preconditions on delivery state, cooldown and capacity: any refusal may come at any time.
- WakeFence.ReleasedMeansNeverSubmitted: the file-backed registry without relay storage is not modelled; it takes the same transitions without ambiguous commits.
- ScheduleTable.RunsStayAligned: the set of scheduled delivery ids is written and never read, so it is not modelled.
- `_restart_trace_attempt_id` and `_reservation_state_is_stale`: filters over relay storage.
- ClaudeWake: an exception outside `Exception` raised by `Thread.start` or by taking a lock is not modelled.
- Snapshots: the single-file mode, the clock collision of two snapshot names, and pruning a directory without markers.
- Snapshots: a copy that fails leaves a torn staged file; other partial contents of a staged file are not distinguished.
- Trimming.Encode: a snapshot whose trace is no object raises before the loop; only the loop is modelled.
- Pagination.ScanEnumeratesEverythingOnce: the `delivery_state` filter, which changes between pages.
- ArchiveSchema.AcceptsIsSound: bounds are real numbers, so binary rounding of a non-integral bound is not modelled.
- ShadowChannel.AuthorityIsBounded: the refusals of a snapshot are one case; the clock does not go backwards within a channel.
- PipeIO.ReadsLoseNothingExactlyWithoutTearing: after a failure other than a deadline the channel ends, and nothing is claimed.
- InventoryService.InventoryService.DirectoryIsReadable: claimed while the policy file moves as provisioning moves it and the UTC clock goes forward, or for attempts over an empty directory; the failing case is proved.
- InventoryProof.AttemptsAreReadable: the policy stands for its own fingerprint; hash collisions are not modelled.
- Readiness.EvidenceIsTheEndOfTheHistory: keys of a foreign marker outside the modelled ones, and text that is not valid Unicode.
- AcceptLoop.FailedAcceptsCloseTheirPeers: a connected peer whose protocol factory raises is left to the garbage collector, as in the source.
