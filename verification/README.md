# Verification of the privileged Windows service

A Dafny model of the VPN service under `apps/windows_shell/windows/service` and of the
UI task runner that feeds it, with proofs of what they keep over whole runs.

| part | files | form |
|---|---|---|
| Dispatcher | `Dispatcher`, `DispatcherSafety`, `DispatcherLease`, `DispatcherSteps`, `DispatcherRuns`, `DispatcherExact`, `DispatcherOutcomes` | one atomic step per lock section or native call; a run is any interleaving |
| Runtime host, journal, guard | `RuntimeTrace`, `World`, `Recovery`, `TransitionGuard`, `RuntimeHost`, `RuntimeRuns` | classes over an arbitrary outside world that may kill the process at any call |
| Network observer | `NetworkObserver` | one step per atomic access |
| Guard arbitration | `GuardArbitration` | filters, the priority check and the platform's arbitration |
| Client and task runner | `ClientExchange`, `TaskRunner` | a two-thread step machine; a class with one method per locked section |
| Local DPI executor | `DpiExecutor` | a class over a drifting Core |
| Dispatcher over host | `HostSimulation` | the host's calls are legal calls of the dispatcher's abstract host |
| Texts | `Text`, `Substring`, `Bodies`, `Protocol`, `WireLanguage`, `Journal`, `NetworkSnapshot`, `Base64`, `ProfileBundle` | functions with the loops that compute them |
| Runtime snapshot | `RuntimeSnapshot` (values), `SnapshotNames`, `FieldText`, `SnapshotText`, `SnapshotReading`, `SnapshotEdits`, `SnapshotAgreement`, `FailureCodes`, `SnapshotService` | the printed text, the edits on it and the parser of it, each tied to the values it carries |
| Budgets | `TimeSlices` | functions and a loop |

Foreign code (Core, the network backend, the filter engine, the driver, clocks, pipes, random numbers)
answers arbitrarily. Where a result depends on an answer, the answer is recorded by the outside, never by the code
that reads it, and the runtime host and the DPI executor count the answers by which the outside fails them: a
request that nothing failed may not fail. Four things are taken from it: a replaced file is replaced atomically, drawn
identifiers are fresh and journal generations are not zero, a session token and nonce never repeat,
and Core's admission identifiers are never reused.

The dispatcher sees the host through the outcomes the host's own contracts allow. `HostSimulation` proves it: no call
but a connect starts Core, a return to idle is a confirmed stop, and a connect ends as one of the machine's outcomes,
left running by a failure only when its last act was an attempt to remove the block that did not take effect for it.

Results worth knowing before changing the code:

- A settlement receipt for a bound target is wrong in some run exactly when its owner hands off under the
  transition guard (`AtRisk`): a failed guard call after the commit leaves Core running and the owner retired.
- An unbound target whose client is gone is written to the settlement slot and then connects anyway.
- An explicit Disconnect before initialization removes the block without a rollback, whatever the journal holds (`RuntimeHost.Disconnect`).
- The DPI proof slices can add up to more than the proof budget: unspent time is granted again.
- The service sets one failure code its own client does not list, `core_event_context_failed`: the client refuses
  the whole snapshot that carries it. It also refuses the snapshots of a Core whose version does not have three parts,
  which the service prints as it is.
- A cancelled invocation without a published target is taken as never written; that is right exactly for bound calls.

## Model

| member | source | states |
|---|---|---|
| `DispatcherRuns.SettlementSound` | apps/windows_shell/windows/service/service_dispatcher.cpp:289-317 | In every reachable state, a bound target answered settled=1 whose guard did not fail has no Core session, no owner slot and no thread that can start one, and this stays so in every continuation |
| `DispatcherRuns.SettlementSoundWithoutGuard` | apps/windows_shell/windows/service/service_dispatcher.cpp:284-317 | Without any hypothesis on guard failures, the receipt is right for every bound owner that does not hand off under the guard |
| `DispatcherExact.SettlementExact` | apps/windows_shell/windows/service/service_dispatcher.cpp:701-747 | For each kind of bound owner, all receipts in all runs are right if and only if the kind is not at risk of a guard failure after the commit |
| `DispatcherExact.WrongReceiptWitness` | apps/windows_shell/windows/service/service_runtime.cpp:1837-1841 | For every at-risk kind there is a run that ends with settled=1 while that target's Core session is live |
| `DispatcherExact.UnboundReceiptWrong` | apps/windows_shell/windows/service/service_dispatcher.cpp:578-592 | A run in which an unbound target is reported settled while its Core session is live |
| `DispatcherOutcomes.ForeignNetworkNeverInstalls` | apps/windows_shell/windows/service/service_dispatcher.cpp:421-429 | A bound connect whose network reference was not current gets no owner, no slot and no Core session in any continuation |
| `DispatcherOutcomes.ForeignNetworkIsRefused` | apps/windows_shell/windows/service/service_dispatcher.cpp:421-429 | A bound connect goes on exactly if its network reference is current |
| `DispatcherOutcomes.InstallsExactly` | apps/windows_shell/windows/service/service_dispatcher.cpp:594-614 | A connect gets the owner slot, with the kind it came with, exactly when no bound owner holds it |
| `DispatcherOutcomes.ConnectStarts` | apps/windows_shell/windows/service/service_dispatcher.cpp:632-659 | A bound connect over an idle host starts Core for itself exactly if its owner, client, network and time hold, and otherwise the host and the failure are left as they are |
| `DispatcherOutcomes.StartedConnectEnds` | apps/windows_shell/windows/service/service_dispatcher.cpp:669-674 | A started connect runs exactly its own profile or is rolled back, answers yes only if it runs, and runs without a yes only when the guard failed |
| `DispatcherOutcomes.LateCommitIsUndone` | apps/windows_shell/windows/service/service_dispatcher.cpp:734-740 | A commit that came too late never answers yes and is undone unless the guard fails |
| `DispatcherOutcomes.ControlHandsOff` | apps/windows_shell/windows/service/service_dispatcher.cpp:562-572 | An owner is handed over to ordinary control exactly if Core took the control, no lease is required and it is still the same live owner in its network and time |
| `DispatcherOutcomes.ConnectSettles` | apps/windows_shell/windows/service/service_dispatcher.cpp:701-732 | A finished bound connect is kept on an uninterrupted success, undone on an interrupted one, and retired on a failure unless recovery is required |
| `DispatcherOutcomes.DisconnectRetires` | apps/windows_shell/windows/service/service_dispatcher.cpp:721-722 | A Disconnect that succeeded leaves no owner, and no other host call takes a bound owner without local DPI away |
| `DispatcherRuns.RunStaysOver` | apps/windows_shell/windows/service/service_dispatcher.cpp:594-621 | Once a known request is over, no continuation makes it an owner or starts Core for it |
| `DispatcherRuns.OneThreadInHost` | apps/windows_shell/windows/service/service_dispatcher.cpp:386-410 | At most one thread is inside a RuntimeHost lifecycle method, and it is the execution lock's holder |
| `DispatcherRuns.NoDeadlock` | apps/windows_shell/windows/service/service_dispatcher.cpp:133-267 | From every thread of every reachable state the chain of lock waits, at most two long, ends at a thread that can move |
| `DispatcherRuns.LockOrder` | apps/windows_shell/windows/service/service_dispatcher.cpp:242-267 | A holder of the state lock never waits for the execution lock and releases the state lock with its next step |
| `DispatcherRuns.WatcherStopsBounded` | apps/windows_shell/windows/service/service_dispatcher.cpp:219-239 | Over every run the watcher's own cleanup of one owner runs at most once plus the number of cancels admitted for it |
| `DispatcherOutcomes.ConfirmSettles` | apps/windows_shell/windows/service/service_dispatcher.cpp:302-316 | In every schedule a Confirm that is about to stop the host for its bound target, and whose stop succeeds, ends with that target settled and over for good |
| `DispatcherOutcomes.ConfirmEnds` | apps/windows_shell/windows/service/service_dispatcher.cpp:311-316 | After a stop that succeeded the target is in the receipt and the slot and the owner is gone; after one that failed nothing of this changes |
| `DispatcherOutcomes.ConfirmAsks` | apps/windows_shell/windows/service/service_dispatcher.cpp:292-301 | A Confirm of a target in the slot is answered settled at once, one of the active bound owner cancels it and waits for the lock, and any other is answered unsettled |
| `DispatcherOutcomes.ConfirmClaims` | apps/windows_shell/windows/service/service_dispatcher.cpp:304-310 | With the lock in hand the host is stopped exactly for the bound owner that is still active |
| `DispatcherOutcomes.HistoryExact` | apps/windows_shell/windows/service/service_dispatcher.cpp:289-316 | A step adds to the recorded confirmations, guard failures and receipts exactly what that step saw, for the target of its own request |
| `DispatcherOutcomes.CancelReaches` | apps/windows_shell/windows/service/service_dispatcher.cpp:269-282 | A Cancel interrupts exactly the active owner it names and makes one new cleanup due |
| `DispatcherOutcomes.WatcherSees` | apps/windows_shell/windows/service/service_dispatcher.cpp:208-220 | A bound owner whose client, network or time is gone when the watcher looks is interrupted, and exactly the interrupted ones are queued for cleanup |
| `DispatcherOutcomes.WatcherRetires` | apps/windows_shell/windows/service/service_dispatcher.cpp:230-236 | The watcher retires the owner exactly if its stop succeeded |
| `DispatcherRuns.LeaseProjection` | apps/windows_shell/windows/service/service_dispatcher.cpp:101-131 | A response given while a lease-requiring owner is active shows egress or a lease only if Core confirmed this target and digest, exactly one promotion was made, no terminal revoke was admitted, and the owner is uncancelled inside its network and lease windows |
| `DispatcherRuns.OnePromotion` | apps/windows_shell/windows/service/service_dispatcher.cpp:438-483 | At most one promotion ever succeeds per owner, and only for a confirmed target and digest |
| `DispatcherOutcomes.ConfirmedIsCore` | apps/windows_shell/windows/service/service_dispatcher.cpp:461 | Over every run, a target and digest are recorded as confirmed exactly if Core answered yes for them at some promotion over a running bound profile with that digest |
| `DispatcherOutcomes.LeaseShownMeansCoreYes` | apps/windows_shell/windows/service/service_dispatcher.cpp:127-130 | A response that shows egress or a lease for a lease-requiring owner is given only in a run in which Core said yes for this target and digest |
| `DispatcherOutcomes.PromotionCalls` | apps/windows_shell/windows/service/service_runtime.cpp:1482-1491 | Core's yes over a running bound profile with this digest, and nothing else, validates egress and counts as confirmed; a no leaves host, owners and confirmations as they were |
| `DispatcherOutcomes.PromotionPublishes` | apps/windows_shell/windows/service/service_dispatcher.cpp:462-473 | The owner becomes promoted under the requested reference exactly if Core said yes and the owner is still current, and otherwise the host is stopped next |
| `DispatcherOutcomes.LeaseRetires` | apps/windows_shell/windows/service/service_dispatcher.cpp:475-481 | After a failed lease change the owner is retired exactly if the stop succeeded over the same owner, and otherwise keeps its cleanup as attempted |
| `DispatcherOutcomes.RevocationMarks` | apps/windows_shell/windows/service/service_dispatcher.cpp:503-511 | A terminal revocation marks exactly a still uninterrupted owner before Core is asked |
| `DispatcherOutcomes.RevocationCalls` | apps/windows_shell/windows/service/service_dispatcher.cpp:512 | Asking Core over the running bound profile takes validated egress away whatever Core answers |
| `DispatcherLease.ProjectionHonest` | apps/windows_shell/windows/service/service_dispatcher.cpp:34-49 | The projection of any owner over any running-or-unhealthy snapshot shows health or a lease only for a promoted, live owner inside its windows |
| `DispatcherOutcomes.ProjectionExact` | apps/windows_shell/windows/service/service_dispatcher.cpp:101-131 | A running snapshot shows egress exactly if the host has it, nothing interrupted the owner and a required lease is promoted and not terminated, and a lease exactly then |
| `DispatcherSteps.StepsOk` | apps/windows_shell/windows/service/service_dispatcher.cpp:319-751 | Every step of every thread respects the settlement, lock, Core and lease obligations |
| `DispatcherSafety.EffectKeepsSafe` | apps/windows_shell/windows/service/service_dispatcher.h:32-73 | Any effect that respects the obligations preserves the invariant over locks, owners, Core sessions and settled targets |
| `RuntimeTrace.WriteAhead` | apps/windows_shell/windows/service/service_runtime.cpp:1611-1700 | Core starts only when the last journal write is core_started, and while a start is not confirmed stopped the journal holds a stage that rolls it back |
| `RuntimeTrace.RestoreIsOrdered` | apps/windows_shell/windows/service/service_runtime.cpp:2440-2493 | Restore follows a confirmed Core stop of the same rollback and uses the snapshot captured for the transaction in progress |
| `RuntimeTrace.RecoveredIsRestored` | apps/windows_shell/windows/service/service_recovery.cpp:313-339 | Recovered is written only after a successful Restore with no Core start, new transaction or new rollback in between |
| `RuntimeTrace.RemoveIsFailClosed` | apps/windows_shell/windows/service/service_runtime.cpp:2093-2180 | The block is removed only over a committed journal whose last egress probe succeeded, or during an explicit Disconnect none of whose rollbacks failed |
| `RuntimeTrace.NoStaleRestart` | apps/windows_shell/windows/service/service_runtime.cpp:1851-2037 | Between a revocation for which Core answered that it found its target, a renewal or control handed to Core, or a catalog stopped under the guard, and the next Core start there is a successful StageProfile |
| `RuntimeTrace.ChronicleLawful` | apps/windows_shell/windows/service/service_runtime.cpp:2390-2493 | The trace the world records obeys the call discipline the five results above are read from |
| `RuntimeRuns.ValidIsCrashSafe` | apps/windows_shell/windows/service/service_recovery.cpp:341-412 | In any valid world a Core start not confirmed stopped means the journal file parses to a stage between core_started and rolling_back, and if the filters were armed at any earlier moment of any life and are not now, a licensed removal was committed in between |
| `RuntimeRuns.Serve` | apps/windows_shell/windows/service/service_runtime.cpp:1283-1330 | Any sequence of requests, with any foreign answers and a crash and restart at any call, leaves the world crash safe; filters armed before it are gone after it only if a removal licensed by a proved committed profile or an explicit Disconnect was committed during it |
| `RuntimeRuns.WellServed` | apps/windows_shell/windows/service/service_runtime.cpp:1283-1849 | From whatever any earlier crash left behind, a fresh service that nothing refuses recovers, stages the profile and runs it with proved egress over a committed journal, the block lifted |
| `RuntimeRuns.WellLeft` | apps/windows_shell/windows/service/service_runtime.cpp:2154-2180 | And its explicit Disconnect, refused by nothing, ends with Core stopped, a clean journal and the block off |
| `RuntimeTrace.BlockKept` | apps/windows_shell/windows/service/service_transition_guard.cpp:437-466 | Armed filters stay armed over every later call, failure, crash and restart but a committed removal |
| `RuntimeTrace.BlockFallsLicensed` | apps/windows_shell/windows/service/service_runtime.cpp:2093-2180 | Between a moment with the block and a later one without it lies a committed removal that had its licence |
| `RuntimeHosting.RuntimeHost.ConnectImpl` | apps/windows_shell/windows/service/service_runtime.cpp:1506-1849 | Success runs the expected profile, an ordinary one with proved egress; failure leaves Running only when handing the block back was tried last and failed; any other profile or phase is left as it was; and a staged profile fails to start only if the outside refused something, and ends in recovery only if it also refused the rollback |
| `RuntimeHosting.RuntimeHost.Disconnect` | apps/windows_shell/windows/service/service_runtime.cpp:2154-2180 | Success leaves neither Running nor RecoveryRequired and no live Core; a failed rollback leaves the filters as they were; it fails only where the outside refused something or the journal was unreadable |
| `RuntimeHosting.RuntimeHost.RollbackRuntime` | apps/windows_shell/windows/service/service_runtime.cpp:2440-2493 | Success means a clean journal and a stopped Core, failure is recorded and never restores over a Core that did not stop; Core is stopped, or refused to in this request, even when the rollback could not be announced; over a readable journal of any stage it fails only if the outside refused something |
| `RuntimeHosting.RuntimeHost.ReplaceManagedProfile` | apps/windows_shell/windows/service/service_runtime.cpp:2093-2125 | Success means the new profile runs with proved egress and the block is off; a failure that leaves nothing running leaves the block armed; where a handoff is possible it fails only if the outside refused something |
| `RuntimeHosting.RuntimeHost.CancelProtectedHandoff` | apps/windows_shell/windows/service/service_runtime.cpp:2147-2152 | The block is never removed, no phase changes and no live Core stops but behind it, and with a guard and a readable journal the runtime ends stopped unless the outside refused something |
| `RuntimeHosting.RuntimeHost.StageProfile` | apps/windows_shell/windows/service/service_runtime.cpp:1332-1424 | Success stages exactly this digest over a clean journal, and an idle host over a readable journal fails only if the outside refused something |
| `RuntimeHosting.RuntimeHost.MaintainWindowsLocalDpi` | apps/windows_shell/windows/service/service_runtime.cpp:2248-2335 | Success leaves the same profile in the same phase and never revives a child that was given up; the block is never removed; nothing is started |
| `RuntimeRuns.Handle` | apps/windows_shell/windows/service/service_runtime.cpp:1283-1330 | Every request but a connect starts nothing, brings no idle host to recovery, and returns to idle only with Core confirmed stopped |
| `HostSimulation.QuietIsLegal` | apps/windows_shell/windows/service/service_dispatcher.cpp:673-687 | What those requests do to the host is a legal host call of the dispatcher's machine |
| `HostSimulation.ConnectIsModelled` | apps/windows_shell/windows/service/service_dispatcher.cpp:669-672 | A connect of an idle host ends as one of the outcomes of the dispatcher's machine, for the same digest, core holder, health and phase, a failed hand-back only where the machine allows one; a connect of any other host changes nothing |
| `HostSimulation.HolderMeans` | apps/windows_shell/windows/service/service_runtime.cpp:2440-2493 | When the outcome leaves no request holding Core, no Core is live; a running phase has a live one under a committed journal |
| `RuntimeHosting.RuntimeHost.ControlSmartAccess` | apps/windows_shell/windows/service/service_runtime.cpp:1896-1969 | A renewal or control is handed to Core only for the running profile and after its staged bytes are gone; otherwise nothing changes |
| `RuntimeHosting.RuntimeHost.RevokeSmartAccess` | apps/windows_shell/windows/service/service_runtime.cpp:1851-1868 | Refused exactly for a profile that is not running; otherwise Core's recorded answer, and a found target leaves no staged profile of this digest while any other answer leaves the staging as it was |
| `RuntimeHosting.RuntimeHost.RevokeRoutingCatalog` | apps/windows_shell/windows/service/service_runtime.cpp:1971-1992 | Without a DPI preparation as a lease revocation; with one, revoked means stopped behind armed filters with nothing staged; refused for the running profile only where the outside failed or there is no guard |
| `RuntimeHosting.RuntimeHost.RevokeRoutingCatalogService` | apps/windows_shell/windows/service/service_runtime.cpp:1994-2022 | The same for one service, whether or not the DPI preparation lists it |
| `RuntimeHosting.RuntimeHost.RecheckEgress` | apps/windows_shell/windows/service/service_runtime.cpp:2067-2091 | Egress after a recheck is exactly what the recorded probe and interruptions make of it: a cancellation leaves it, and a failed or late probe clears it |
| `RuntimeRecovery.DurableRuntimeRecovery.constructor` | apps/windows_shell/windows/service/service_recovery.cpp:341-399 | What is loaded is what was last written, or the journal is invalid |
| `RuntimeRecovery.DurableRuntimeRecovery.Record` | apps/windows_shell/windows/service/service_recovery.cpp:261-275 | Memory moves forward only together with the file, and not at all when the write fails |
| `RuntimeRecovery.DurableRuntimeRecovery.CompleteRollback` | apps/windows_shell/windows/service/service_recovery.cpp:313-328 | Succeeds only into a clean journal and only over a restored network, and then unless a write is refused |
| `TransitionGuard.Guard.Start` | apps/windows_shell/windows/service/service_transition_guard.cpp:437-450 | Success means armed filters were read back, and comes unless the engine refused something; no outcome removes filters or reports them off |
| `TransitionGuard.Guard.Off` | apps/windows_shell/windows/service/service_transition_guard.cpp:452-466 | Reports success exactly when a fresh read said off, and says off only while the filters are off |
| `NetworkObserver.FenceSound` | apps/windows_shell/windows/service/service_dispatcher.cpp:421-429 | Two contexts with one reference have one revision, read equal adapter material and saw no callback or detected change in between |
| `NetworkObserver.RevisionsAreFixed` | apps/windows_shell/windows/service/service_network_observer.cpp:317-338 | Over every interleaving with callbacks a sampled revision keeps one reading and one reference for good |
| `NetworkObserver.CurrentMeansUnchanged` | apps/windows_shell/windows/service/service_network_observer.cpp:340-363 | A given revision is current exactly as long as the observer is open and nothing bumped the counter since it was given |
| `NetworkObserver.AloneIsGiven` | apps/windows_shell/windows/service/service_network_observer.cpp:317-363 | A read that meets no callback is given a context for what it read: the old revision and reference for an unchanged network, the next revision for a changed one |
| `NetworkObserver.ChangeIsSeen` | apps/windows_shell/windows/service/service_network_observer.cpp:317-363 | Two undisturbed reads, by any threads, are given the same context if they read the same adapters, and different references if not |
| `NetworkObserver.MoveKeeps` | apps/windows_shell/windows/service/service_network_observer.cpp:165-167 | Every step of a reader and every callback keeps the observer's invariant |
| `GuardArbitration.GuardSound` | apps/windows_shell/windows/service/service_transition_guard.cpp:84-103 | With the eight filters, nothing else in their sublayer and a safe priority check, every connection on the four layers that is not the service's is blocked, whatever callouts answer and however equal weights are ordered |
| `GuardArbitration.VerifyGuardPriority` | apps/windows_shell/windows/service/service_transition_guard.cpp:250-286 | Safe means no filter on the four layers can override the guard, unsafe means one can, and an error means a candidate's sublayer was not found |
| `GuardArbitration.CheckExact` | apps/windows_shell/windows/service/service_transition_guard.cpp:190-248 | Beside the guard one foreign filter can let a connection of others through, in some order of equal weights and for some callout answers, if and only if the check refuses it and it applies to that connection; so a lighter sublayer's filter or callout is harmless |
| `GuardArbitration.ServicePermitIsPermutation` | apps/windows_shell/windows/service/service_transition_guard.cpp:220-242 | A filter taken for the service permit carries exactly the permit's conditions in some order |
| `GuardArbitration.CheckServicePermit` | apps/windows_shell/windows/service/service_transition_guard.cpp:220-242 | The nested loops find every expected condition or answer no |
| `GuardArbitration.ServicePasses` | apps/windows_shell/windows/service/service_transition_guard.cpp:84-103 | The service itself gets a soft permit in the guard's sublayer |
| `ClientExchange.LostResponseCancelled` | apps/windows_shell/windows/service/service_client.cpp:388-462 | A dispatched cancellable request without a matching response has had at least one cancel attempted when the exchange returns, and every cancel of it names exactly this request's session and nonce |
| `ClientExchange.CancelsExactly` | apps/windows_shell/windows/service/service_client.cpp:430-461 | At its return an exchange that nobody asked to cancel has sent a cancel if and only if its request was dispatched, cancellable and without a matching response |
| `ClientExchange.NoCancelWithoutDispatch` | apps/windows_shell/windows/service/service_client.cpp:388-411 | Nothing is cancelled before the request was dispatched, nor ever for a request that is not cancellable |
| `ClientExchange.CancelsOwnTarget` | apps/windows_shell/windows/service/service_client.cpp:1093-1109 | In every reachable state every cancel, the exchange's or its owner's, names this request, and the owner can name none but a bound one |
| `ClientExchange.CompanionExits` | apps/windows_shell/windows/service/service_client.cpp:417-438 | After the wait ends the companion can always step until it is gone, and is gone after at most four steps, whatever the other threads do; then the join can return |
| `ClientExchange.NoCompanionAfterReturn` | apps/windows_shell/windows/service/service_client.cpp:435-447 | The companion is gone when the exchange returns |
| `ClientExchange.ClaimExact` | apps/windows_shell/windows/service/service_client.cpp:1111-1139 | Claiming a stop without asking the service is right in every run of a call exactly when the call is bound |
| `TaskRunner.OnePlace` | apps/windows_shell/windows/runner/runtime_task_runner.cpp:9-72 | Every accepted task is in exactly one of delivered, being delivered, awaiting, running, queued and discarded |
| `TaskRunner.DeliveredInOrder` | apps/windows_shell/windows/runner/runtime_task_runner.cpp:48-56 | Deliveries are a prefix of the submissions, without repetition |
| `TaskRunner.Interleave` | apps/windows_shell/windows/runner/runtime_task_runner.cpp:18-72 | Any order of the locked sections keeps conservation and the bound of sixteen, and after shutdown only what a drain had taken is delivered |
| `TaskRunner.RuntimeTaskRunner.Submit` | apps/windows_shell/windows/runner/runtime_task_runner.cpp:9-16 | Accepts exactly when running, below sixteen queued and controlled, and then appends it to the queue |
| `TaskRunner.RuntimeTaskRunner.FinishShutdown` | apps/windows_shell/windows/runner/runtime_task_runner.cpp:58-72 | After the join everything accepted is delivered, taken by a drain or discarded |
| `DpiExecutor.Drive` | apps/windows_shell/windows/service/service_local_dpi.cpp:421-632 | Any calls in any order, Core stopping at any time, launch at most two children per capture, with different strategies |
| `DpiExecutor.WindowsLocalDpiExecutor.Stop` | apps/windows_shell/windows/service/service_local_dpi.cpp:604-612 | Closes the child only after every captured holder that is still current has been withdrawn, and then empties the executor; it fails only if Core or the system refused something |
| `DpiExecutor.WindowsLocalDpiExecutor.StopAfterCoreStopped` | apps/windows_shell/windows/service/service_local_dpi.cpp:614-632 | Needs no captured holder both current and published, which a stop or a stopped Core gives; success empties the executor and failure leaves it as it was |
| `DpiExecutor.WindowsLocalDpiExecutor.CloseChild` | apps/windows_shell/windows/service/service_local_dpi.cpp:614-632 | Every close of the child is made with no captured holder both current and published |
| `DpiExecutor.WindowsLocalDpiExecutor.RefreshRetryIDs` | apps/windows_shell/windows/service/service_local_dpi.cpp:312-344 | Holders stay as they were, or each gets, in order, a distinct identifier never captured before that Core had current for its tag; with distinct holders after an admission and before a retry it fails only if Core or the system did |
| `DpiExecutor.WindowsLocalDpiExecutor.RetryPrepared` | apps/windows_shell/windows/service/service_local_dpi.cpp:467-497 | Succeeds at most once, with a strategy other than the first, and whenever allowed unless Core or the system refused something |
| `DpiExecutor.WindowsLocalDpiExecutor.AdmitCaptured` | apps/windows_shell/windows/service/service_local_dpi.cpp:591-602 | Admitted means that Core answered yes to one admission of the captured identifier of this service; at most that identifier is published, and a captured one with a child is refused only if Core, the system or the caller was |
| `Protocol.FrameRoundTrip` | apps/windows_shell/windows/service/service_protocol.cpp:587-610 | Every valid frame decodes from its encoding unchanged |
| `Protocol.FrameCanonical` | apps/windows_shell/windows/service/service_protocol.cpp:612-644 | A decoded wire image is exactly the encoding of its frame |
| `Protocol.EncodeFrame` | apps/windows_shell/windows/service/service_protocol.cpp:587-610 | The appending loops build the specified encoding |
| `Protocol.DecodeFrame` | apps/windows_shell/windows/service/service_protocol.cpp:612-644 | The reading loops compute the specified decoding |
| `WireLanguage.WireExact` | apps/windows_shell/windows/service/service_protocol.cpp:199-266 | The bytes accepted as a frame are exactly the images of what may be said: each command's request with the text of a value of that command's own type, a hello, or an answer within that command's limit |
| `WireLanguage.FrameExact` | apps/windows_shell/windows/service/service_protocol.cpp:199-266 | A frame of a known command encodes, and its image decodes to it, if and only if it may be said; otherwise it encodes to nothing and its image is refused |
| `WireLanguage.CodesInOrder` | apps/windows_shell/windows/service/service_protocol.h:144-178 | Each command has exactly one wire code |
| `WireLanguage.PromotionExact` | apps/windows_shell/windows/service/service_protocol.cpp:450-479 | A body decodes as a promotion if and only if it is the six fields of a valid promotion joined in order |
| `WireLanguage.BoundConnectExact` | apps/windows_shell/windows/service/service_protocol.cpp:375-407 | A body decodes as a bound connect if and only if it is the six fields of a valid one joined in order |
| `Bodies.TargetRoundTrip` | apps/windows_shell/windows/service/service_protocol.cpp:409-423 | Encodes exactly the nonzero targets, and decodes them unchanged |
| `Bodies.TargetCanonical` | apps/windows_shell/windows/service/service_protocol.cpp:433-448 | A decoded target re-encodes to the same body |
| `Bodies.PromotionRoundTrip` | apps/windows_shell/windows/service/service_protocol.cpp:450-479 | The decoder's check of the assembled body amounts exactly to the fields being valid, and then the body decodes to the promotion |
| `Bodies.PromotionCanonical` | apps/windows_shell/windows/service/service_protocol.cpp:450-472 | A decoded promotion re-encodes to the same body |
| `Bodies.RevocationRoundTrip` | apps/windows_shell/windows/service/service_protocol.cpp:481-497 | The same for lease revocation |
| `Bodies.RevocationCanonical` | apps/windows_shell/windows/service/service_protocol.cpp:481-491 | A decoded lease revocation re-encodes to the same body |
| `Bodies.AccessRevocationRoundTrip` | apps/windows_shell/windows/service/service_protocol.cpp:499-528 | The same for smart access revocation |
| `Bodies.AccessRevocationCanonical` | apps/windows_shell/windows/service/service_protocol.cpp:499-506 | A decoded smart access revocation re-encodes to the same body |
| `Bodies.RenewalRoundTrip` | apps/windows_shell/windows/service/service_protocol.cpp:537-565 | The same for smart access renewal |
| `Bodies.RenewalCanonical` | apps/windows_shell/windows/service/service_protocol.cpp:537-559 | A decoded renewal re-encodes to the same body |
| `Bodies.BoundConnectRoundTrip` | apps/windows_shell/windows/service/service_protocol.cpp:375-407 | Encodes exactly the valid targets, within the control limit, and decodes them unchanged |
| `Bodies.ObservationRoundTrip` | apps/windows_shell/windows/service/service_protocol.cpp:297-335 | Encodes exactly the valid requests, within the read limit, and decodes them unchanged |
| `Bodies.ProbeRoundTrip` | apps/windows_shell/windows/service/service_protocol.cpp:352-373 | Encodes exactly the valid probes, within the profile limit, and decodes them unchanged although the configuration may hold line breaks |
| `Journal.JournalRoundTrip` | apps/windows_shell/windows/service/service_recovery.cpp:341-412 | Every well-formed entry is written within the read bound and loads unchanged |
| `Journal.JournalCanonical` | apps/windows_shell/windows/service/service_recovery.cpp:341-399 | A file that loads is exactly what the writer produces for it |
| `Journal.Load` | apps/windows_shell/windows/service/service_recovery.cpp:341-399 | The line loop and the checks compute the specified parse |
| `Text.HexEncode` | apps/windows_shell/windows/service/service_recovery.cpp:83-92 | The loop writes the lower-case encoding |
| `Text.HexDecode` | apps/windows_shell/windows/service/service_recovery.cpp:94-119 | The loop inverts the encoding within the limit and refuses everything else |
| `Text.HexRoundTrip` | apps/windows_shell/windows/service/service_network_state.cpp:140-176 | Bytes survive encoding and decoding |
| `Text.UnhexCanonical` | apps/windows_shell/windows/service/service_recovery.cpp:94-119 | Only the lower-case encoding of the bytes decodes to them |
| `Text.SplitFields` | apps/windows_shell/windows/service/service_network_state.cpp:109-121 | The scanning loop splits at every delimiter |
| `Text.SplitJoin` | apps/windows_shell/windows/service/service_network_state.cpp:109-121 | Delimiter-free fields survive joining and splitting |
| `Text.DecimalRoundTrip` | apps/windows_shell/windows/service/service_network_state.cpp:123-138 | A printed number parses to itself |
| `NetworkSnapshot.SnapshotRoundTrip` | apps/windows_shell/windows/service/service_network_state.cpp:434-641 | Every captured network state parses back from its serialization unchanged |
| `NetworkSnapshot.DurableRoundTrip` | apps/windows_shell/windows/service/service_recovery.cpp:341-412 | It survives serialization, the hex journal, loading and parsing unchanged |
| `NetworkSnapshot.RecordRoundTrip` | apps/windows_shell/windows/service/service_network_state.cpp:444-487 | Each interface, address, route and DNS line parses back to its record |
| `NetworkSnapshot.WideExact` | apps/windows_shell/windows/service/service_network_state.cpp:176-200 | Wide text comes back exactly when it holds no zero unit and is not too long; a zero unit cuts it |
| `NetworkSnapshot.ParseSnapshotText` | apps/windows_shell/windows/service/service_network_state.cpp:499-641 | The line loop with its running limits computes the specified parse |
| `Base64.DecodeExact` | apps/windows_shell/windows/service/service_runtime.cpp:137-172 | Accepts exactly the canonical encodings of one to 128 KiB of bytes, and yields those bytes |
| `Base64.DecodeBase64` | apps/windows_shell/windows/service/service_runtime.cpp:137-172 | The group loop computes the specified decoding |
| `ProfileBundle.ParseCanonical` | apps/windows_shell/windows/service/service_runtime.cpp:198-241 | An accepted profile text is the text of the bundle it decoded to |
| `ProfileBundle.ParseWritten` | apps/windows_shell/windows/service/service_runtime.cpp:198-241 | Every valid bundle's text parses to it |
| `ProfileBundle.ParseInjective` | apps/windows_shell/windows/service/service_runtime.cpp:198-241 | Two accepted texts with equal decoded contents are equal |
| `ProfileBundle.CountOccurrences` | apps/windows_shell/windows/service/service_runtime.cpp:174-184 | Counts the non-overlapping occurrences found from left to right |
| `ProfileBundle.ReplaceAll` | apps/windows_shell/windows/service/service_runtime.cpp:186-196 | Terminates with every counted occurrence replaced |
| `ProfileBundle.ReplacedSize` | apps/windows_shell/windows/service/service_runtime.cpp:186-196 | Performs exactly as many replacements as are counted |
| `ProfileBundle.SlotsLeaveNoMarker` | apps/windows_shell/windows/service/service_runtime.cpp:1360-1368 | Neither slot name leaves a slot marker behind |
| `SnapshotService.SnapshotExact` | apps/windows_shell/windows/service/service_client.cpp:734-850 | For every snapshot a consistent service prints and its dispatcher edits, however often another failure is written into it and with every combination of the DPI and probe blocks, parsing the text gives exactly the printed fields with the last failure, unless that is the one unlisted code or the Core version does not have three parts, and then it is refused |
| `SnapshotService.ReachableHostIsRead` | apps/windows_shell/windows/service/service_runtime.cpp:2507-2562 | The same for every host the lifecycle's own invariant allows, so for every reachable one |
| `SnapshotService.FailureRefused` | apps/windows_shell/windows/service/service_runtime.cpp:832-850 | A concrete service whose Core got no event context sends a snapshot its client refuses |
| `SnapshotService.VersionRefused` | apps/windows_shell/windows/service/service_runtime.cpp:685-693 | A concrete service with a two-part Core version sends a snapshot its client refuses |
| `FailureCodes.ServiceCodes` | apps/windows_shell/windows/service/service_client.cpp:507-577 | Every code the service sets is separator-free and among the client's 63 exactly when it is not core_event_context_failed |
| `SnapshotAgreement.SentReadsBack` | apps/windows_shell/windows/service/service_client.cpp:579-732 | Searching, cutting and reading the sent text yields every value the service printed, through both of the dispatcher's edits |
| `SnapshotAgreement.BaseSize` | apps/windows_shell/windows/service/service_client.cpp:579-583 | The printed text without its two blocks stays within the parser's 8192 bytes |
| `SnapshotReading.BodyReads` | apps/windows_shell/windows/service/service_client.cpp:734-850 | The text of any body of separator-free values reads back as that body, with or without each block and each transport field |
| `SnapshotReading.ProbeReads` | apps/windows_shell/windows/service/service_client.cpp:741-769 | The probe block reads back with and without its target fields, whichever the three searches find |
| `SnapshotEdits.FailureCommutes` | apps/windows_shell/windows/service/service_dispatcher.cpp:15-32 | Replacing the text behind the last ;failure= and erasing the probe block gives the text of the same body with that failure and no probe |
| `SnapshotEdits.FailuresCommute` | apps/windows_shell/windows/service/service_dispatcher.cpp:226-240 | Of any number of failures written into a stored text the last one counts, and the probe is gone after the first |
| `SnapshotEdits.TransportCommutes` | apps/windows_shell/windows/service/service_dispatcher.cpp:34-49 | Masking the health flags and appending the two transport fields gives the text of the body with exactly these values changed |
| `SnapshotNames.NameInjective` | apps/windows_shell/windows/service/service_runtime.cpp:2527-2561 | The 38 field names are pairwise different |
| `FieldText.OnlyField` | apps/windows_shell/windows/service/service_client.cpp:595-618 | In a text of separator-free fields a name that occurs once is found from the left, from the right and nowhere else |
| `FieldText.CutMiddle` | apps/windows_shell/windows/service/service_client.cpp:815-841 | A search from one name to another cuts out exactly the fields between them and leaves the rest in order |
| `FieldText.ReplaceNth` | apps/windows_shell/windows/service/service_dispatcher.cpp:18-22 | Replacing up to the next separator changes exactly the value of that field |
| `FieldText.MaskNth` | apps/windows_shell/windows/service/service_dispatcher.cpp:38-42 | Both flags are cleared where they stand when both are set, and nothing changes when they are clear |
| `FieldText.ReadsAll` | apps/windows_shell/windows/service/service_client.cpp:464-482 | Reading field after field at the moving offset, the last one to the end, yields every value, and the absent ones' defaults, and ends at the end |
| `FieldText.ReadEach` | apps/windows_shell/windows/service/service_client.cpp:828-834 | The reading loop stops at the first field that fails and computes the specified reading |
| `Substring.FindText` | apps/windows_shell/windows/service/service_dispatcher.cpp:17-20 | The search from an offset finds the first occurrence or none |
| `RuntimeSnapshot.Aggregate` | apps/windows_shell/windows/service/service_runtime.cpp:2564-2599 | The tallies of the DPI block always satisfy the bounds the client checks |
| `TimeSlices.SlicesFair` | apps/windows_shell/windows/service/service_runtime.cpp:2213-2241 | If each probe stays within its slice, every service gets one and none gets less than a service before it |
| `TimeSlices.TimeTakenBounded` | apps/windows_shell/windows/service/service_runtime.cpp:2217-2225 | If each probe stays within its slice, together they take at most the budget |
| `TimeSlices.SlicesSumExact` | apps/windows_shell/windows/service/service_runtime.cpp:2217-2225 | The slices granted sum to at most the budget exactly when every probe but the last uses its whole slice |
| `TimeSlices.SlicesMayExceedBudget` | apps/windows_shell/windows/service/service_runtime.cpp:2217-2225 | Two probes that take no time are granted 15000 ms of a 10000 ms budget |
| `TimeSlices.Prove` | apps/windows_shell/windows/service/service_runtime.cpp:2213-2241 | The loop grants the specified slices |
| `TimeSlices.PrimaryShare` | apps/windows_shell/windows/service/service_egress_probe.cpp:586-596 | The periodic primary ends inside the owner's deadline exactly when that has not passed, and leaves the reserve the first 900 ms and a quarter of the rest, rounded up |

## Left out

- Core, WinDivert, WFP, Schannel, DNS, WLAN, SCM and registry calls: foreign code, taken as arbitrary answers.
- Candidate probes, network observation requests, the boot clock and diagnostics in the dispatcher: they touch neither the owner slot nor RuntimeHost.
- The server's session handling: only its promise that a session token and nonce never repeat is used.
- Event recording, file permissions and directories: they change no modelled state.
- A host without a recovery object: every modelled host has one; without it Connect is refused and Initialize ends in recovery_required.
- Tick counters, revisions and sizes are unbounded: the wrap-around of the 64-bit revision counter and of tick arithmetic is not modelled.
- ProfileBundle.ParseCanonical: the bundle parser is modelled on values, taking all lines before decoding; order of failures is not captured, and all failures are the same to the caller.
- SnapshotService.SnapshotExact: the observations in the DPI and probe blocks are taken to be within the bounds their producers keep, and the capabilities and the version as Core's wrapper filters them.
- SnapshotText.ParseText: fields are read even when an earlier check would already refuse; any failure gives the same refusal.
- HostSimulation.ConnectIsModelled: which DPI or Telegram plan a connect leaves prepared is not compared, and ReplaceManagedProfile is covered only by the contracts of its steps.
- NetworkSnapshot.SnapshotRoundTrip: an address is identified with the text the platform prints for it, and wide text with its bytes up to a zero unit.
- GuardArbitration.GuardSound: the platform's arbitration is written down from its documentation, with a hard permit taken as final.
- TaskRunner.Interleave: a completion that drains again while a drain is delivering is not modelled.
- DpiExecutor.WindowsLocalDpiExecutor.RefreshRetryIDs: identifiers are numbers; their textual list and its commas are not modelled.
- DpiExecutor.Drive: the strategy hints and their order are not modelled.
- Smart access restriction and lease reads and acknowledgements: they change no host state.
- The iOS, macOS, Android, Linux and Go hosts, the Flutter shell and the packaging scripts.
