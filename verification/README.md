# Crash, redelivery and reconciliation: a Dafny model

This project models two families of programs of the repository and proves what they are for.

The first family carries one approved order from a human decision to a recorded result. A
listener waits for the decision, workers move the order through durable directories, a source
publishes it and waits for its result, and a receiver claims it, executes it, records the result,
publishes it and only then acknowledges the message. Every durable write is a step of its own and
the process may die between any two steps. The receiver and the source are transition systems
(`ReceiverProtocol`, `SourceProtocol`) with theorems over all runs; beside each stands a class
whose methods follow the code and are proved to be stretches of such runs
(`ReceiverCallback.Receiver`, `SourceLoop.Source`). The smaller workers are classes whose passes
are steps of histories.

The second family audits what such runs left behind: a single-pass funnel audit, two profit
reports that deduplicate differently, the merging of epochs, keyset paging, and the guarded
rollout of an index rebuild with its sampling of long transactions.

| area | files |
|---|---|
| vocabulary, runs | `Common`, `Runs`, `ResultRecord` |
| receiver | `ReceiverProtocol`, `ReceiverSafety`, `ReceiverSteps`, `ReceiverPaths`, `ReceiverTheorems`, `ReceiverTracing`, `ReceiverOrigins`, `ReceiverStartup`, `ReceiverDirect`, `ReceiverWitnesses`, `Receiver`, `CallbackGate` |
| source | `SourceProtocol`, `SourceSafety`, `SourceSteps`, `SourcePaths`, `SourceTheorems`, `SourceWitnesses`, `SourceScans`, `SourceLoop`, `ReplayAgreement` |
| hand-off pipeline | `StreamingReceive`, `ClaimWorker`, `AuthorizationWorker`, `ApprovalListener` |
| audits | `CommutingFold`, `Gathering`, `Distribution`, `CoverageAudit`, `CoverageRun`, `Merging`, `PaperPnl`, `V3Reports`, `V4Report`, `KeysetPaging` |
| rollout | `BlockerSampling`, `ReindexRollout` |

What the programs cannot decide themselves is a parameter: answers of the exchange, of the
broker, of `systemctl` and of the database, and which write fails or where the process dies.
Where no such parameter is named the choice is nondeterministic. Hashes are injective, file
writes atomic, exclusive creates fail on an existing file, and amounts of money are reals.

Main results, by area: `ReceiverTheorems.FirstExecutionAtMostOnce`, `ApprovalResultsHashAlike` and
`AttemptAckedAfterPublish` with the code in `ReceiverCallback.Receiver.Callback`;
`ReceiverOrigins.PublishedResultsNameTheirOrder`; `CallbackGate.DrainedForever`;
`SourceTheorems.AtMostOneUnresolved` and `NoPublishWhileUnsettled` with their converses
`SourceWitnesses.GapSkipsTheNextResult` and `PublishesWhileUnsettled` and the code in
`SourceLoop.Source.Turn` and `Start`; `ReceiverDirect.DirectResultsHashAlike`;
`ReplayAgreement.ReplayCheckFiresIff`, which spans both programs;
`StreamingReceive.Receiver.ProcessAll`; `ClaimWorker.Worker.ClaimPendingOnce`;
`AuthorizationWorker.GateStaysShutOnOrphans`; `ApprovalListener.HandoffRunsAtMostOnce`,
`AttemptEndsAmbiguousIff` and `ApprovedMeansPressed`; `CoverageAudit.AuditIgnoresOrder` and
`FunnelAddsUp` with `CoverageRun.AuditLines`; `V3Reports.ReportsAgree`;
`V4Report.ReportConserves` and `CumulativeIgnoresFileOrder`; `KeysetPaging.ScanMarkets`;
`BlockerSampling.CleanIffLastSampleEmpty`; `ReindexRollout.Rollout.RunRollout`.

## Where the code differs from what one might expect

- The fields that the replay hash ignores do not include the creation time of the approval. Two
  approval messages for one identity that differ in it make the replay check fire
  (`ReceiverTheorems.ApprovalResultsHashAlike` states the exact condition,
  `ReceiverWitnesses.LaterMessageChangesTheHash` is a run).
- The hashed fields include the number of retries before the attempt, and a replay counts its own.
  A direct order that is delivered again after an execution with retries makes the check fire
  (`ReceiverDirect.DirectResultsHashAlike` states the exact condition,
  `ReceiverWitnesses.RedeliveryCountsItsOwnRetries` gives the runs).
- A result republished by start-up recovery carries fields the hash does not ignore, so it never
  agrees with the result of a redelivery, while two such results of one order always agree
  (`ReplayAgreement.ReplayCheckFiresIff` says exactly when the check fires).
- A one-shot receiver keeps one attempt marker for all orders; a second approval is answered with
  the first order's result (`ReceiverOrigins.PublishedResultsNameTheirOrder` says exactly when,
  `ReceiverWitnesses.SecondOrderGetsFirstResult` is a run).
- A duplicate result between the clearing of the event and the reset of the result state wakes the
  source for the next order too early. From every state where this can happen a publication can be
  left without its result (`SourceWitnesses.GapSkipsTheNextResult`), and nothing else cuts a wait
  short (`SourceTheorems.OnlyAGapCutsAWaitShort`).
- A crash between publishing an order and writing its receipt makes the source forget it. The
  result of such an order, or of one whose wait was cut short, can be left unsettled while other
  orders are published (`SourceWitnesses.UnawaitedResultIsLeft`), and those are the only ones
  (`SourceTheorems.StrayResultsHaveNoReceipt`, `PublishesOnlyWhenSettled`).
- One of the two start-up scans of the source strips identifiers and the other does not
  (`SourceScans.ScansAgreeIff` states when they agree, `SourceScans.UntrimmedScansDisagree` gives
  receipts on which they do not, `SourceScans.ScanAtStart` what a start does then).
- The authorization worker looks at every directory of the ready root, staging directories
  included. An order served under such a name never passes the consumer's gate
  (`AuthorizationWorker.StrayServedNeverPasses`). The gate would open on an orphaned package only
  if a bundle bore the name of another order, which the claim worker never writes
  (`AuthorizationWorker.OpenGateOnOrphan`).
- An authorization call whose receipt was renamed into place but could not be synced reports a
  failure although the consumer's gate is open (`AuthorizationWorker.Worker.AuthorizeReadyOnce`).
- An attempt of the approval listener that was cut off gets its ambiguous result only if a later
  visit finds the prepared order still valid; otherwise it stays without any result
  (`ApprovalListener.AttemptEndsAmbiguousIff`).
- Ledger rows carry the number of their file, so a settled prediction in two files is always a
  conflict, while the profit report counts it as a duplicate (`V3Reports.LedgerNeedsSeparateFiles`).
- A command that raises in the restoring loop of the rollout leaves the remaining timers stopped
  (`ReindexRollout.Rollout.RunRollout` states exactly when, `ReindexRollout.LeaveTimersDown` is a
  rollout that ends so). A stop that raised after taking effect is not undone, since the timer was
  not recorded as stopped.

## Model

| member | source | states |
|---|---|---|
| ReceiverTheorems.RunSafe | scripts/run_phase15_v3_fast_live_receiver.py:515-817 | every state of every run, with any deliveries, crashes and restarts, satisfies the receiver invariant: claims, markers, decisions, results, locks, publications and answers are consistent |
| ReceiverTheorems.FirstExecutionAtMostOnce | scripts/run_phase15_v3_fast_live_receiver.py:131-151 | over any run the first execution starts at most once per approval identity, and a decision file implies a claim file |
| ReceiverTheorems.EveryOtherEntryIsRecovery | scripts/run_phase15_v3_fast_live_receiver.py:709-748 | every entry into the executor is that first one, or a recovery guarded by an attempt marker that is already durable |
| ReceiverTheorems.RecoveryNeverSubmits | src/bp_engine/execution/fast_live_executor.py:603-636 | a submission comes from a first execution, with its marker durable and nothing submitted under that key before |
| ReceiverTheorems.SubmissionAtMostOnce | src/bp_engine/execution/fast_live_executor.py:225-236 | at most one order reaches the exchange per attempt marker, on the approval and the direct path |
| ReceiverTheorems.OneShotSubmitsOnce | src/bp_engine/execution/fast_live_executor.py:345-372 | a one-shot receiver, which keeps a single marker, submits at most one order in the life of its state root |
| ReceiverTheorems.DecisionIsFinal | scripts/run_phase15_v3_fast_live_receiver.py:154-172 | the recorded result of an approval never changes |
| ReceiverTheorems.RunGrows | scripts/run_phase15_v3_fast_live_receiver.py:113-172 | claims, decisions, attempt markers and publications are never taken back or rewritten |
| ReceiverTheorems.PublishedAfterDurable | scripts/run_phase15_v3_fast_live_receiver.py:772-789 | whatever is published for an approval hashes like a decision that is durable by then |
| ReceiverTheorems.ApprovalResultsHashAlike | scripts/run_phase15_v3_fast_live_receiver.py:714-789 | two results published for one approval identity have the same replay hash if and only if their approval messages carry the same creation time |
| ReceiverTheorems.StartupNeverHashesLikeDelivery | scripts/run_phase15_v3_fast_live_receiver.py:441-452 | a result republished by start-up recovery never hashes like a result published for a delivery |
| ReceiverTheorems.PublishedResultsAreSound | scripts/run_phase15_v3_fast_live_receiver.py:784-789 | a result reported as accepted consumed its attempt; in a continuous session it names the order it answers, and ReceiverOrigins says which order it names in any session |
| ReceiverTheorems.EveryDeliveryAnsweredOnce | scripts/run_phase15_v3_fast_live_receiver.py:806-817 | each delivery is in flight, was lost with a process, or got exactly one ack or nack |
| ReceiverTheorems.AttemptAckedAfterPublish | scripts/run_phase15_v3_fast_live_receiver.py:784-811 | a delivery, of an approval or a direct order, that reached the execute step while a marker exists is acked only after its own publish call returned |
| ReceiverTheorems.AttemptErrorsAreNacked | scripts/run_phase15_v3_fast_live_receiver.py:884-909 | over all runs: a delivery that leaves through an error has from then on one nack and no ack if its order was verified and the marker exists, and one ack and no nack if not |
| ReceiverWitnesses.StartupRecoveryChangesTheHash | scripts/run_phase15_v3_fast_live_receiver.py:433-463 | a run in which a provisional result, recovered at start-up and republished, is followed by a redelivery whose result has another hash |
| ReceiverWitnesses.SecondOrderGetsFirstResult | src/bp_engine/execution/fast_live_executor.py:603-636 | a run of a one-shot receiver in which an approval of any other order is answered with the result of the first |
| ReceiverWitnesses.LaterMessageChangesTheHash | scripts/run_phase15_v3_fast_live_receiver.py:772-789 | a run in which a second approval message of the same identity, created at another time, gets a result with another hash |
| ReceiverOrigins.RunTraced | scripts/run_phase15_v3_fast_live_receiver.py:676-883 | every state of every run satisfies the tracing invariant: each marker, stored result, decision, record under way and publication goes back to one delivery |
| ReceiverOrigins.FilesNameTheirOwner | src/bp_engine/execution/fast_live_executor.py:345-372 | over all runs, a marker and the result under it name the order whose delivery created the marker |
| ReceiverOrigins.PublishedResultsNameTheirOrder | src/bp_engine/execution/fast_live_executor.py:603-636 | over all runs, a result published for a delivery names its order if and only if the execution behind it did not read the record from under a marker, or that marker was left by the same order |
| ReceiverOrigins.ContinuousResultsNameTheirOrder | scripts/run_phase15_v3_fast_live_receiver.py:784-789 | in a continuous session every result published for a delivery names the order of that delivery |
| ReceiverOrigins.StartupResultsNameTheirOwner | scripts/run_phase15_v3_fast_live_receiver.py:441-452 | a result republished at start-up names the order whose delivery created its marker, and the marker is the one of that order |
| ReceiverStartup.StartupRepublishesOneRecord | scripts/run_phase15_v3_fast_live_receiver.py:433-463 | over all restarts, what start-up recovery republishes under one marker is one and the same record |
| ReceiverStartup.StartupRepublishesOnePerOrder | scripts/run_phase15_v3_fast_live_receiver.py:433-463 | so it republishes one record per order, in continuous sessions and one-shot roots alike |
| ReceiverDirect.SettledResultIsFinal | src/bp_engine/execution/fast_live_executor.py:603-636 | over all runs, a stored result that waits for neither cancellation nor republication, with no thread left behind its marker, never changes |
| ReceiverDirect.ExecutionSettles | src/bp_engine/execution/fast_live_executor.py:603-727 | the step that ends an execution settles its result, and the answer of that delivery is one of those compared below |
| ReceiverDirect.DirectResultsHashAlike | scripts/run_phase15_v3_fast_live_receiver.py:840-850 | all direct results published under a marker once its result is settled hash alike if and only if their messages carry the same creation time and their executions took the same number of retries |
| ReceiverWitnesses.RedeliveryCountsItsOwnRetries | src/bp_engine/execution/fast_live_executor.py:263-310 | runs, one for each number of retries, in which a direct order is delivered again after its publish call failed: the two results hash alike if and only if the first execution took no retry |
| ReceiverCallback.Receiver.Callback | scripts/run_phase15_v3_fast_live_receiver.py:515-917 | one delivery from entry to answer is a stretch of a protocol run with one answer; a calm approval ends with its decision on file and is acked exactly if its publication returned; a claimed approval submits nothing |
| ReceiverCallback.Receiver.Serve | scripts/run_phase15_v3_fast_live_receiver.py:515-917 | deliveries handled one after the other each get their one answer and nothing else is answered; the approval lock is free in between; what all runs keep is kept |
| ReceiverCallback.Receiver.HandleApproval | scripts/run_phase15_v3_fast_live_receiver.py:676-817 | the approval path: decide, publish, answer; the calm outcome is fixed by claim, marker, checks and exchange |
| ReceiverCallback.Receiver.Decide | scripts/run_phase15_v3_fast_live_receiver.py:681-783 | the block under the approval lock: a redelivery of a claimed approval never submits, a recorded decision is replayed with the same hash |
| ReceiverCallback.Receiver.DecideAnew | scripts/run_phase15_v3_fast_live_receiver.py:717-770 | without a recorded decision the order is executed, recovered or blocked, and the decision is durable before the result may be published |
| ReceiverCallback.Receiver.TakeApprovalLock | scripts/run_phase15_v3_fast_live_receiver.py:681-707 | the prepared order is taken out of the cache under the lock |
| ReceiverCallback.Receiver.ClaimApprovalOnce | scripts/run_phase15_v3_fast_live_receiver.py:131-151 | true exactly for the first claim of an approval identity, and the claim stays |
| ReceiverCallback.Receiver.ReplayApprovalResult | scripts/run_phase15_v3_fast_live_receiver.py:714-716 | the replayed record hashes like the decision on file |
| ReceiverCallback.Receiver.WriteApprovalResult | scripts/run_phase15_v3_fast_live_receiver.py:154-172 | the decision is on file before the record is ready for publication, and the record hashes like it |
| ReceiverCallback.Receiver.ExecuteOrRecover | scripts/run_phase15_v3_fast_live_receiver.py:717-769 | the winner of the claim runs its course, any other is recovered from the marker or blocked without a submission |
| ReceiverCallback.Receiver.ExecuteWithRetry | src/bp_engine/execution/fast_live_executor.py:263-310 | pre-attempt errors are retried while the message lives; the outcome is that of the first gate that is not retryable, and nothing is submitted before it |
| ReceiverCallback.Receiver.Execute | src/bp_engine/execution/fast_live_executor.py:595-727 | with a marker present only the stored result is replayed; otherwise the checks decide between refusal, rejection and one submission |
| ReceiverCallback.Receiver.RecoverAttempt | src/bp_engine/execution/fast_live_executor.py:603-636 | replay submits nothing; without a stored result it reports an unknown outcome |
| ReceiverCallback.Receiver.Submit | src/bp_engine/execution/fast_live_executor.py:728-874 | the marker is durable before the order is sent, and a calm call ends with the exchange answer on file |
| ReceiverCallback.Receiver.Conclude | src/bp_engine/execution/fast_live_executor.py:743-874 | the answer of the exchange, or the exception it raised, becomes the stored and returned record |
| ReceiverCallback.Receiver.CompleteAccepted | src/bp_engine/execution/fast_live_executor.py:829-874 | an accepted order is cancelled and probed before its final record replaces the provisional one |
| ReceiverCallback.Receiver.StoreOutcome | src/bp_engine/execution/fast_live_executor.py:743-827 | the first durable record of a submission, provisional exactly while a cancellation is pending |
| ReceiverCallback.Receiver.PublishResult | scripts/run_phase15_v3_fast_live_receiver.py:784-789 | a publish call that returns has published; one that fails may have |
| ReceiverCallback.Receiver.PublishAndAnswer | scripts/run_phase15_v3_fast_live_receiver.py:784-811 | the ack follows the publication, a failed publication is nacked |
| ReceiverCallback.Receiver.Fail | scripts/run_phase15_v3_fast_live_receiver.py:884-909 | the exception handler nacks exactly when a verified order has a marker |
| ReceiverCallback.Receiver.AckControl | scripts/run_phase15_v3_fast_live_receiver.py:540-675 | prepares fill the cache, warm-ups and prepares are acked and touch no file |
| ReceiverCallback.Receiver.HandleDirect | scripts/run_phase15_v3_fast_live_receiver.py:818-883 | the direct path: one execution, publication, answer; a refused order is acked without a result |
| CallbackGate.IdleMeansNoneRunning | scripts/run_phase15_v3_fast_live_receiver.py:917-932 | whenever the activity lock is free, the idle event is set if and only if no callback runs, and the count is the number of running callbacks |
| CallbackGate.NoneStartsAfterStop | scripts/run_phase15_v3_fast_live_receiver.py:919-924 | once accepting is off, the set of running callbacks only shrinks |
| CallbackGate.DrainedForever | scripts/run_phase15_v3_fast_live_receiver.py:919-932 | a drain that does not time out leaves no callback running, then or ever after |
| CallbackGate.TimeoutLeavesWork | scripts/run_phase15_v3_fast_live_receiver.py:925-940 | a run in which the drain times out while a callback is at work |
| CallbackGate.Gate.Enter | scripts/run_phase15_v3_fast_live_receiver.py:515-524 | a callback is admitted exactly while accepting is on, and the count and the event follow |
| CallbackGate.Gate.Leave | scripts/run_phase15_v3_fast_live_receiver.py:911-917 | the last callback to leave sets the idle event |
| CallbackGate.Gate.StopAccepting | scripts/run_phase15_v3_fast_live_receiver.py:919-924 | accepting is off from here on, and the answer says whether nothing runs |
| SourceTheorems.RunInv | scripts/run_phase15_v3_fast_live_source.py:876-2246 | every state of every run satisfies the source invariant: receipts, results, callbacks, the note and the awaited order are consistent, and what is unresolved or unsettled is awaited, being settled, skipped or astray |
| SourceTheorems.AtMostOneUnresolved | scripts/run_phase15_v3_fast_live_source.py:1285-1440 | in every reachable state at most one publication lacks a result, apart from those whose wait was given up, and while subscribed it is the one the loop waits for |
| SourceTheorems.SkippedExactly | scripts/run_phase15_v3_fast_live_source.py:1407-1427 | a wait is given up exactly when it is reset before the result is there, or when a start takes up another |
| SourceTheorems.OnlyAGapCutsAWaitShort | scripts/run_phase15_v3_fast_live_source.py:1409-1427 | within a process, unless a duplicate result fell between the clearing of the event and the reset, what is reset has its result and the note is that result |
| SourceTheorems.OneUnresolvedFrom | scripts/run_phase15_v3_fast_live_source.py:876-1440 | from any stopped state with at most one unresolved publication on, over all restarts without such a duplicate, there never is a second one, and none unless the loop waits for it |
| SourceTheorems.RestartResumesTheWait | scripts/run_phase15_v3_fast_live_source.py:952-963 | a restart waits again if and only if a publication is unresolved, and for one of those; the others, if any, are ones whose wait was given up |
| SourceTheorems.NoPublishWhileUnsettled | scripts/run_phase15_v3_fast_live_source.py:927-952 | over all runs, whenever an order is published, every recorded result that needs settlement has gone astray and every publication without a result is one whose wait was given up |
| SourceTheorems.AstrayExactly | scripts/run_phase15_v3_fast_live_source.py:1147-1231 | a result goes astray exactly when it needs settlement and is recorded for an order that is not awaited, or the loop knows nothing of it at the reset, or a start leaves it |
| SourceTheorems.StrayResultsHaveNoReceipt | scripts/run_phase15_v3_fast_live_source.py:2222-2244 | a result recorded for an order that is not awaited is of one without a publication receipt or of one whose wait was given up |
| SourceTheorems.PublishesOnlyWhenSettled | scripts/run_phase15_v3_fast_live_source.py:876-2246 | from any stopped state with at most one unresolved and one unsettled order on, over all restarts without either race, nothing is published while anything is pending |
| SourceTheorems.ResultReceiptsAreFinal | scripts/run_phase15_v3_fast_live_source.py:1125-1208 | a result receipt never changes, whatever is redelivered |
| SourceTheorems.FaultStaysLatched | scripts/run_phase15_v3_fast_live_source.py:876-892 | after an integrity fault is durable no later process publishes |
| SourceTheorems.OneShotNeverRepublishes | scripts/run_phase15_v3_fast_live_source.py:923-941 | a one-shot source that starts after a consumed attempt never publishes again |
| SourceTheorems.OneShotEndsForGood | scripts/run_phase15_v3_fast_live_source.py:1409-1439 | a one-shot source that waits for an order whose result is a consumed attempt without a settlement, with no stale event set, publishes nothing more, in this process or a later one |
| SourceTheorems.SameResultIsSameHash | scripts/run_phase15_v3_fast_live_source.py:1127-1160 | of the five comparisons of the replay check the hash alone decides |
| SourceWitnesses.GapSkipsTheNextResult | scripts/run_phase15_v3_fast_live_source.py:1409-1427 | from every reachable state between clear and reset in which a callback for the awaited order is about to notify, any order without a result that is offered (on the direct path: any without a receipt) can be published next and the loop poll again without its result |
| SourceWitnesses.PublishesWhileUnsettled | scripts/run_phase15_v3_fast_live_source.py:1309-2246 | from every reachable state of an open source, continuing or not yet at its one-shot end, a recorded result that needs settlement and is neither awaited nor being settled can be left so while any order that is offered (on the direct path: any without a receipt) is published |
| SourceWitnesses.UnawaitedResultIsLeft | scripts/run_phase15_v3_fast_live_source.py:1147-1231 | from every such state with an order out that is not awaited and has no result yet, its result can be recorded and left unsettled while any order that is offered is published |
| SourceWitnesses.StaleWakeSkipsAResult | scripts/run_phase15_v3_fast_live_source.py:1409-1427 | a run to such a state, and on: the loop polls with a publication unresolved |
| SourceWitnesses.SkippedResultStaysUnsettled | scripts/run_phase15_v3_fast_live_source.py:1409-1427 | in that run the result, recorded afterwards, is unsettled when the next order that is offered is published |
| SourceWitnesses.ForgottenPublicationStaysUnsettled | scripts/run_phase15_v3_fast_live_source.py:2222-2244 | a run with a crash between publish and receipt: the next process publishes any order that is offered while the result of the forgotten order is recorded and unsettled |
| SourceScans.ScanPublications | scripts/run_phase15_v3_fast_live_source.py:594-618 | the publication state: attempt consumed, waiting, or ready, by the receipts that lack or have a result |
| SourceScans.ScanPendingResult | scripts/run_phase15_v3_fast_live_source.py:621-630 | the first publication without a result, with its identifiers stripped |
| SourceScans.ScansAgreeIff | scripts/run_phase15_v3_fast_live_source.py:594-630 | a publication looks the same to both scans, whatever results are on file, if and only if its identifiers need no trimming or one is empty |
| SourceScans.ScanAtStart | scripts/run_phase15_v3_fast_live_source.py:923-963 | with any identifiers: a start is over, raises because the order to wait for has no receipt under its stripped name, or opens; it waits with nothing to wait for exactly when each publication without a result strips to an order with one or to none |
| SourceScans.ScanPendingSettlement | scripts/run_phase15_v3_fast_live_source.py:669-686 | the first recorded result that needs settlement and has no marker |
| SourceScans.MarkerPath | scripts/run_phase15_v3_fast_live_source.py:650-666 | the first recorded result of the intent that needs settlement names the marker |
| SourceScans.SettleUntilTerminal | scripts/run_phase15_v3_fast_live_source.py:689-739 | 0 exactly if the first report that is not waiting is terminal and a result carries the intent; then, and only then, the marker is written |
| SourceScans.PendingIntentIsSettled | scripts/run_phase15_v3_fast_live_source.py:669-739 | with one request per intent the marker written is that of the receipt the scan reported, and the intent is no longer pending |
| SourceLoop.Source.ResultCallback | scripts/run_phase15_v3_fast_live_source.py:1081-1281 | records or compares a result, acks exactly on success, wakes the loop only for the awaited order, and latches a fault otherwise |
| SourceLoop.Source.RecordResult | scripts/run_phase15_v3_fast_live_source.py:1124-1208 | first results are recorded once, a replay passes exactly if it is the same result |
| SourceLoop.Source.NotifyLoop | scripts/run_phase15_v3_fast_live_source.py:1209-1231 | the state the loop reads is set for the awaited order only |
| SourceLoop.Source.Turn | scripts/run_phase15_v3_fast_live_source.py:1309-2246 | one turn of the loop sends only when it polls, then waits for what it sent; only the settlement branch writes markers |
| SourceLoop.Source.PublishOrder | scripts/run_phase15_v3_fast_live_source.py:2204-2246 | a published order is awaited and has a receipt; a failed publication ends the process |
| SourceLoop.Source.TakeResult | scripts/run_phase15_v3_fast_live_source.py:1407-1440 | the event is cleared, the state taken and reset, and the loop settles, stops or polls accordingly |
| SourceLoop.Source.SettlePosition | scripts/run_phase15_v3_fast_live_source.py:1328-1339 | the loop goes on exactly if the settlement ended with 0, and then the marker is on file |
| SourceLoop.Source.SettleAtStartUp | scripts/run_phase15_v3_fast_live_source.py:927-951 | a start goes on after settling what was pending, unless a one-shot session is over |
| SourceLoop.Source.ScanAtStartUp | scripts/run_phase15_v3_fast_live_source.py:923-927 | both scans of the receipt directories |
| SourceLoop.Source.Start | scripts/run_phase15_v3_fast_live_source.py:876-963 | the subscription opens exactly if no fault is latched, the one-shot session is not over and what was pending could be settled; it waits exactly for an unresolved publication |
| ReplayAgreement.ReplayPassesIffSameCreation | scripts/run_phase15_v3_fast_live_source.py:1142-1160 | two results of one approval identity pass the replay check if and only if the approvals were created at the same time |
| ReplayAgreement.ReplayPassesIffSameDecision | scripts/run_phase15_v3_fast_live_source.py:1142-1160 | two results of any approvals, in any session, pass it if and only if the messages were created at the same time and the decisions on file are alike, which covers the approval of another order that a one-shot root answers with the first result |
| ReplayAgreement.DirectReplayPassesIff | scripts/run_phase15_v3_fast_live_source.py:1142-1160 | two direct results published under one marker after its result was settled pass it if and only if the messages were created at the same time and the retry counts agree |
| ReplayAgreement.StartupReplayFails | scripts/run_phase15_v3_fast_live_source.py:1142-1160 | a result republished at start-up and a result of a delivery never pass it |
| ReplayAgreement.StartupReplayPasses | scripts/run_phase15_v3_fast_live_source.py:1142-1160 | two results republished at start-up for one order always pass it |
| ReplayAgreement.ReplayCheckFiresIff | scripts/run_phase15_v3_fast_live_source.py:1127-1160 | over all runs of both programs, in continuous sessions and one-shot roots, with one approval message per order, the check fires if and only if one of the two results was republished at start-up and the other was not |
| ReplayAgreement.ReplayCheckNeverFires | scripts/run_phase15_v3_fast_live_source.py:1127-1160 | so it never fires on results of deliveries |
| StreamingReceive.Receiver.WriteRejection | scripts/run_phase15_v3_telegram_pubsub_streaming_receive.py:126-156 | a rejection is filed once per message key, never over other data; without faults a receipt is there afterwards |
| StreamingReceive.Receiver.PersistVerifiedEnvelope | scripts/run_phase15_v3_telegram_pubsub_streaming_receive.py:159-187 | the first envelope of an order wins; without faults the call succeeds exactly if that envelope is this one |
| StreamingReceive.Receiver.ProcessMessage | scripts/run_phase15_v3_telegram_pubsub_streaming_receive.py:190-297 | exactly one ack or nack; an ack implies a rejection receipt or the same envelope on disk; without faults a verified message is acked exactly if its envelope is the one on file |
| StreamingReceive.Receiver.ProcessAll | scripts/run_phase15_v3_telegram_pubsub_streaming_receive.py:190-297 | over any sequence of messages and interference, envelopes acked for one order are one and the same, and no file is overwritten |
| ClaimWorker.OrphanedClaimsStayOrphaned | scripts/run_phase15_v3_telegram_transport_claim_worker.py:268-398 | a claim whose bundle was lost to a crash never gets one |
| ClaimWorker.BundlesAreFinal | scripts/run_phase15_v3_telegram_transport_claim_worker.py:162-231 | every bundle implies its claim and is the only one the claim ever yields |
| ClaimWorker.Worker.Pending | scripts/run_phase15_v3_telegram_transport_claim_worker.py:143-159 | exactly the entries with neither receipt, each once |
| ClaimWorker.Worker.ClaimEntry | scripts/run_phase15_v3_telegram_transport_claim_worker.py:285-396 | an entry is claimed, bundled and closed exactly as far as control and the writes get; a failure says whether the claim was consumed |
| ClaimWorker.Worker.Materialize | scripts/run_phase15_v3_telegram_transport_claim_worker.py:162-231 | the bundle appears by one rename or not at all |
| ClaimWorker.Worker.WriteProcessed | scripts/run_phase15_v3_telegram_transport_claim_worker.py:350-390 | the processed receipt, or a failure receipt that says the claim was consumed |
| ClaimWorker.Worker.TerminalFailure | scripts/run_phase15_v3_telegram_transport_claim_worker.py:234-265 | a failure receipt is written once and never replaced |
| ClaimWorker.Worker.ClaimPendingOnce | scripts/run_phase15_v3_telegram_transport_claim_worker.py:268-398 | an uninterrupted pass leaves exactly the entries under another key pending, and bundles every order a genuine entry brings first |
| ClaimWorker.Worker.PassTwice | scripts/run_phase15_v3_telegram_transport_claim_worker.py:268-398 | a second pass under the same key changes nothing |
| AuthorizationWorker.UnservedForever | scripts/run_phase15_v3_telegram_execution_authorization_worker.py:325-502 | an order claimed without a processed receipt never gets one |
| AuthorizationWorker.GateStaysShutOnOrphans | scripts/run_phase15_v3_telegram_privileged_handoff_worker.py:100-105 | with bundles named by their orders the consumer gate never opens on an orphaned package |
| AuthorizationWorker.GateOpensOnWholePackages | scripts/run_phase15_v3_telegram_privileged_handoff_worker.py:100-105 | where the gate opens, the package is whole and from the call that wrote the receipt |
| AuthorizationWorker.StrayServedNeverPasses | scripts/run_phase15_v3_telegram_privileged_handoff_worker.py:100-105 | over all runs, an order served under a stray name, such as a staging directory, keeps its one receipt there and never passes the consumer gate, as long as receipts are named by their orders or stray |
| AuthorizationWorker.OpenGateOnOrphan | scripts/run_phase15_v3_telegram_execution_authorization_worker.py:325-336 | two calls of the worker after which the gate is open on an orphan, given a bundle under the name of another order |
| AuthorizationWorker.Worker.MaterializeHandoff | scripts/run_phase15_v3_telegram_execution_authorization_worker.py:145-296 | a package is made by one rename exactly if nothing fails; an error leaves none unless its removal fails |
| AuthorizationWorker.Worker.RemoveHandoff | scripts/run_phase15_v3_telegram_execution_authorization_worker.py:299-322 | what is left of an unpublished package, by how far the removal gets |
| AuthorizationWorker.Worker.FailClosed | scripts/run_phase15_v3_telegram_execution_authorization_worker.py:478-502 | the failure receipt; a package is removed only while no processed receipt exists |
| AuthorizationWorker.Worker.Publish | scripts/run_phase15_v3_telegram_execution_authorization_worker.py:374-477 | the receipt is renamed into place exactly after the package was verified against it |
| AuthorizationWorker.Worker.AuthorizeReadyOnce | scripts/run_phase15_v3_telegram_execution_authorization_worker.py:325-502 | a processed receipt is written exactly if this call claimed the order, renamed the package and verified it; the one way to report failure with the gate open is a failed directory sync |
| AuthorizationWorker.Worker.AuthorizePendingOnce | scripts/run_phase15_v3_telegram_execution_authorization_worker.py:505-544 | an uninterrupted pass leaves every bundle terminal, and serves every fresh one if nothing goes wrong |
| ApprovalListener.DecisionIsFinal | scripts/run_phase15_v3_canary_telegram_approval.py:332-469 | the first decision written for an intent is final over all restarts |
| ApprovalListener.HandoffRunsAtMostOnce | scripts/run_phase15_v3_canary_telegram_approval.py:200-329 | the command runs at most once per intent, only for an approved record and only after its attempt file, all three for the same request |
| ApprovalListener.AttemptIsNeverRepeated | scripts/run_phase15_v3_canary_telegram_approval.py:219-232 | after an attempt is on file no later visit runs the command |
| ApprovalListener.ResultIsFinal | scripts/run_phase15_v3_canary_telegram_approval.py:215-217 | a hand-off result is final and ends all runs of the command |
| ApprovalListener.AttemptWithoutResultStaysUnknown | scripts/run_phase15_v3_canary_telegram_approval.py:219-232 | over all restarts, an attempt left without a result never becomes a second run, and the only result it can still get is the ambiguous one |
| ApprovalListener.AttemptEndsAmbiguousIff | scripts/run_phase15_v3_canary_telegram_approval.py:200-232 | it gets that result if and only if some later visit of the intent finds the prepared order still valid and lives to the hand-off; without one it stays without a result |
| ApprovalListener.ApprovedMeansPressed | scripts/run_phase15_v3_canary_telegram_approval.py:373-469 | an intent is approved if and only if a valid approval was pressed before any valid skip, cancellation or expiry |
| ApprovalListener.ExamineUpdates | scripts/run_phase15_v3_canary_telegram_approval.py:403-452 | the first valid callback decides, and the offset passes exactly the updates looked at, the deciding one included |
| ApprovalListener.Listener.WaitForDecision | scripts/run_phase15_v3_canary_telegram_approval.py:332-469 | the polling loop writes exactly the decision the rounds amount to, for the prompted request |
| ApprovalListener.Listener.DispatchApprovedHandoff | scripts/run_phase15_v3_canary_telegram_approval.py:200-329 | what one hand-off leaves on disk: an attempt without a result ends as ambiguous; the command runs exactly if nothing was attempted or concluded and it is usable |
| ApprovalListener.Listener.RunCommand | scripts/run_phase15_v3_canary_telegram_approval.py:270-329 | attempt, run and result in this order, the result judged by the exit code |
| ApprovalListener.Listener.VisitIntent | scripts/run_phase15_v3_canary_telegram_approval.py:530-611 | what one visit leaves on disk: the decision is what the polling shows, the command runs exactly on an approval, a prompt is never reused for another request |
| CoverageAudit.AuditIgnoresOrder | scripts/report_v4_fresh_book_offline_coverage.py:130-356 | acceptance and the whole report are the same for every permutation of the lines |
| CoverageAudit.AcceptedReportIgnoresOrder | scripts/report_v4_fresh_book_offline_coverage.py:130-356 | two accepted audits of the same lines, in whatever order, whatever accumulators, start and end they were accepted with, give one and the same report |
| CoverageAudit.FollowUpsMatchPredictions | scripts/report_v4_fresh_book_offline_coverage.py:258-269 | accepted predictions and follow-ups correspond one to one under equal ids, and no two share an id |
| CoverageAudit.FunnelAddsUp | scripts/report_v4_fresh_book_offline_coverage.py:271-310 | seen markets split into predictions, misses and ineligibles, predictions into evaluated and quote-missing, and every breakdown sums to what it splits |
| CoverageAudit.TwoHourWindowsAddUp | scripts/report_v4_fresh_book_offline_coverage.py:245-257 | the two-hour windows sum to the seen markets and to the ineligible ones |
| CommutingFold.FoldIgnoresOrder | scripts/report_v4_fresh_book_offline_coverage.py:130-220 | a fold whose steps commute gives one result for every order of its records |
| CommutingFold.FailureStays | scripts/report_v4_fresh_book_offline_coverage.py:130-220 | a record that is refused refuses every longer list of records |
| Distribution.StatsIgnoreOrder | scripts/report_v4_fresh_book_offline_coverage.py:76-86 | the distribution of a list depends on its values only |
| Distribution.StatsMean | scripts/report_v4_fresh_book_offline_coverage.py:76-86 | minimum, median and upper rank are ordered values within the list, and the extremes are attained |
| Distribution.Distribute | scripts/report_v4_fresh_book_offline_coverage.py:76-86 | computes the distribution from the sorted list |
| CoverageRun.AuditLines | scripts/report_v4_fresh_book_offline_coverage.py:112-356 | the single pass reports exactly when the evidence is accepted, and then exactly the specified report |
| CoverageRun.FunnelAudit.Read | scripts/report_v4_fresh_book_offline_coverage.py:130-220 | one line moves every accumulator as the specification says, or refuses the file |
| CoverageRun.FunnelAudit.ReadAll | scripts/report_v4_fresh_book_offline_coverage.py:130-220 | all lines, one after the other |
| CoverageRun.FunnelAudit.Check | scripts/report_v4_fresh_book_offline_coverage.py:222-310 | the checks after the pass hold exactly if the accumulators reconcile |
| PaperPnl.LoadConserves | scripts/report_v4_fresh_book_pnl.py:534-560 | kept trades are the first of their ids, and kept and duplicates are all trades read |
| PaperPnl.LoadFailsOnConflict | scripts/report_v4_fresh_book_pnl.py:552-558 | loading fails if and only if a trade is malformed or two trades of one id differ |
| PaperPnl.MetricsConsistent | scripts/report_v4_fresh_book_pnl.py:608-641 | settled and pending are all trades, and realized is gross profit less gross loss, neither negative |
| PaperPnl.CohortsAddUp | scripts/report_v4_fresh_book_pnl.py:690-699 | splitting the trades in two splits every measure |
| PaperPnl.LoadTrades | scripts/report_v3_fresh_book_pnl.py:80-120 | the loading loop computes the specified dictionary and duplicate count |
| PaperPnl.ComputeMetrics | scripts/report_v4_fresh_book_pnl.py:608-641 | the accumulating loop computes every measure |
| PaperPnl.CountTrade | scripts/report_v4_fresh_book_pnl.py:615-635 | one trade adds its share to every measure |
| Merging.MergeKeeps | scripts/report_v4_fresh_book_pnl.py:665-678 | an entry is in the merged dictionary if and only if it is in one of the merged ones |
| Merging.MergeConserves | scripts/report_v4_fresh_book_pnl.py:665-678 | entries of all dictionaries are the merged entries and the duplicates across them |
| Merging.MergeIgnoresOrder | scripts/report_v4_fresh_book_pnl.py:665-678 | whether dictionaries merge, and into what, does not depend on their order |
| Merging.MergeInto | scripts/report_v4_fresh_book_pnl.py:669-678 | merging one dictionary fails exactly on a conflict, and counts the shared entries |
| Merging.MergeAll | scripts/report_v3_fresh_book_pnl.py:227-240 | merging all of them, with the duplicates across them |
| V3Reports.LoadersCorrespond | scripts/report_v3_fresh_book_trades.py:60-92 | where both loaders accept a file they keep the same predictions, each from one record |
| V3Reports.LedgerMatchesTrades | scripts/report_v3_fresh_book_trades.py:155-281 | a prediction has a ledger row if and only if its trade is settled, with the same profit |
| V3Reports.ReportsAgree | scripts/report_v3_fresh_book_trades.py:155-281 | when both reports succeed, the ledger has as many rows as the report counts settled trades, and its profits add up to the realized profit |
| V3Reports.LedgerNeedsSeparateFiles | scripts/report_v3_fresh_book_trades.py:228-271 | the ledger exists if and only if no settled prediction is in two files, since rows carry their file number |
| V3Reports.LoadTradeRecords | scripts/report_v3_fresh_book_trades.py:60-92 | the loop keeps the first record of each prediction and fails on a different one |
| V3Reports.FileRows | scripts/report_v3_fresh_book_trades.py:171-261 | the rows of one file: one for each labelled prediction, or a failure if a number is missing |
| V3Reports.MergeLedger | scripts/report_v3_fresh_book_trades.py:169-271 | the ledger of all files, or a failure exactly when rows conflict |
| V3Reports.AtMostTotal | scripts/report_v3_fresh_book_trades.py:273-278 | market start and prediction id order the rows totally |
| V3Reports.Place | scripts/report_v3_fresh_book_trades.py:273-278 | a row goes to its place in the order |
| V3Reports.Canonical | scripts/report_v3_fresh_book_trades.py:273-280 | the ledger is in order and lists every row once |
| V4Report.CohortsFollowTheEdge | scripts/report_v4_fresh_book_pnl.py:494-502 | every trade with an edge is in the cohort its edge belongs to |
| V4Report.ReportConserves | scripts/report_v4_fresh_book_pnl.py:650-737 | epoch trades are cumulative trades and duplicates across epochs; settled and pending are all; realized is profit less loss; the two cohorts sum to the cumulative metrics |
| V4Report.CumulativeIgnoresFileOrder | scripts/report_v4_fresh_book_pnl.py:665-737 | whether there is a report, and its counts, trades, duplicates across epochs and every measure of the metrics and both edge cohorts, do not depend on the order of the files |
| V4Report.CheckReasons | scripts/report_v4_fresh_book_pnl.py:443-454 | the breakdown of ineligible sources fails exactly if one of them has no reasons or an unexpected one |
| V4Report.LoadEpoch | scripts/report_v4_fresh_book_pnl.py:516-573 | the loop over one file: event counts and trades with duplicates; it fails on a malformed or conflicting trade and on an ineligible source without reasons or with an unexpected one |
| V4Report.ReportEpoch | scripts/report_v4_fresh_book_pnl.py:679-688 | the report of one epoch |
| V4Report.BuildReport | scripts/report_v4_fresh_book_pnl.py:650-737 | the report exists exactly if every file loads and the files merge, and is then the specified one |
| V4Report.EvenlySpacedSample | scripts/report_v4_fresh_book_pnl.py:313-323 | a sample of the given size with the first and the last item, or all items |
| V4Report.SampleIsEven | scripts/report_v4_fresh_book_pnl.py:320-323 | consecutive sampled positions differ by the average gap rounded down or up, and by one at least |
| KeysetPaging.NextWindow | scripts/audit_phase14_v4_forward_history_readonly.py:160-180 | the next page starts exactly where this one ended, whatever the page size divides |
| KeysetPaging.FetchPage | scripts/audit_phase14_v4_forward_history_readonly.py:162-179 | a page extends the rows read so far, and a short page ends the table |
| KeysetPaging.OldestIsLeast | scripts/audit_phase14_v4_forward_history_readonly.py:217-220 | the running oldest end is the least end of all pending markets |
| KeysetPaging.InspectMarketOffsets | scripts/audit_phase14_v4_forward_history_readonly.py:136-149 | exactly the markets whose offsets are not the four expected ones, each once |
| KeysetPaging.ScanMarkets | scripts/audit_phase14_v4_forward_history_readonly.py:186-227 | the paged scan terminates and returns what one unpaged filter returns; it is given up exactly if a whole scan looks at the clock more often than it is in time, once before each page query and once before each offsets query |
| KeysetPaging.ScanFeatures | scripts/audit_phase14_v4_forward_history_readonly.py:157-183 | the same for the features: count, violations and the first examples |
| BlockerSampling.BuildReport | scripts/report_v4_dedupe_reindex_blockers.py:265-460 | the sampling loop computes the observations of every pid with all their counters, sets and greatest ages, the pid sets and the sample counts |
| BlockerSampling.Observe | scripts/report_v4_dedupe_reindex_blockers.py:301-365 | one row extends the entry of its pid |
| BlockerSampling.CountSamples | scripts/report_v4_dedupe_reindex_blockers.py:294-296 | least, greatest and nonzero sample sizes |
| BlockerSampling.ObservedIffSampled | scripts/report_v4_dedupe_reindex_blockers.py:301-330 | a pid has an entry if and only if it was in some sample |
| BlockerSampling.ClassesAddUp | scripts/report_v4_dedupe_reindex_blockers.py:347 | the query classes of an entry add up to the rows it was seen in |
| BlockerSampling.FullFractionIsPersistent | scripts/report_v4_dedupe_reindex_blockers.py:373-389 | a sample fraction of one means the pid was in every sample, and then it is persistent |
| BlockerSampling.CleanIffLastSampleEmpty | scripts/run_v4_dedupe_pk_reindex_rollout.py:354-363 | a bounded window ends clean if and only if its last sample held no long transaction |
| ReindexRollout.NothingFailedBeforeReindex | scripts/run_v4_dedupe_pk_reindex_rollout.py:475-528 | before a reindex nothing had failed, the whole plan was carried out, every timer was stopped, and the latest readiness report passed |
| ReindexRollout.GoodMeans | scripts/run_v4_dedupe_pk_reindex_rollout.py:475-598 | a log went well if and only if no answer in it was bad |
| ReindexRollout.ReindexIsRemembered | scripts/run_v4_dedupe_pk_reindex_rollout.py:522-528 | every reindex in a log is in the history with the state it was sent in |
| ReindexRollout.AllAttemptedIff | scripts/run_v4_dedupe_pk_reindex_rollout.py:563-580 | from any base, every timer gets its start attempt if and only if no restore command before the last start raises |
| ReindexRollout.AttemptsStopAt | scripts/run_v4_dedupe_pk_reindex_rollout.py:563-580 | the restoring loop attempts one timer more than those whose commands did not raise |
| ReindexRollout.LeaveTimersDown | scripts/run_v4_dedupe_pk_reindex_rollout.py:563-580 | a rollout that goes well up to one restore command that raises, and ends with two of its three stopped timers never started |
| ReindexRollout.SmoothlyTried | scripts/run_v4_dedupe_pk_reindex_rollout.py:475-558 | where every answer lets the plan go on, the try block is carried to its end with all three timers stopped, and the restoring starts right after the plan |
| ReindexRollout.SmoothlyReturned | scripts/run_v4_dedupe_pk_reindex_rollout.py:421-598 | where all answers to the whole plan do, the rollout goes well |
| ReindexRollout.Rollout.QuiesceTimers | scripts/run_v4_dedupe_pk_reindex_rollout.py:476-483 | the timers stopped are those whose stop returned, in order |
| ReindexRollout.Rollout.RequirePreflight | scripts/run_v4_dedupe_pk_reindex_rollout.py:366-406 | goes on if and only if the report passes, or only long transactions block, the bounded window ends with an empty sample and the second report passes |
| ReindexRollout.Rollout.CheckReadiness | scripts/run_v4_dedupe_pk_reindex_rollout.py:493-500 | the caller goes on only with a report that passes |
| ReindexRollout.Rollout.Prepare | scripts/run_v4_dedupe_pk_reindex_rollout.py:475-520 | up to the reindex: success means the state the reindex needs |
| ReindexRollout.Rollout.Carry | scripts/run_v4_dedupe_pk_reindex_rollout.py:475-558 | the try block sends at most one reindex, and only in that state |
| ReindexRollout.Rollout.RestoreTimers | scripts/run_v4_dedupe_pk_reindex_rollout.py:563-580 | every timer is started in turn until a command raises; the exact number of attempts |
| ReindexRollout.Rollout.Finally | scripts/run_v4_dedupe_pk_reindex_rollout.py:563-589 | the restored flag is set exactly if all three timers were stopped, started and seen active |
| ReindexRollout.Rollout.RunRollout | scripts/run_v4_dedupe_pk_reindex_rollout.py:421-598 | the rollout returns if and only if every answer was good; however it ends, the restoring begins at the first start in the log, with the timer stopped last, stopped timers are restarted in reverse order, and all of them if and only if no restore command before the last start raises |

## Left out

- ReceiverTheorems.RunSafe: threads interleave between durable writes and lock operations; the class methods follow one thread at a time, and what other threads do in between is covered by the transition system only.
- SourceTheorems.AtMostOneUnresolved: counts publications whose wait was not given up, because the code does give waits up; SkippedExactly says when, OneUnresolvedFrom that it does not happen without a duplicate in the gap.
- SourceTheorems.NoPublishWhileUnsettled: excepts results that went astray, because the code does publish beside them; AstrayExactly says which those are, PublishesOnlyWhenSettled that there are none without the two races.
- ReplayAgreement.ReplayCheckFiresIff: with one approval message per order, and in a one-shot root for results that answer an approval of their own order; ReplayPassesIffSameDecision holds for any two approval results, DirectReplayPassesIff for direct ones.
- ReceiverDirect.DirectResultsHashAlike: from when the result is settled; answers given before, to deliveries that run beside the first execution, may carry another settlement of a cancellation.
- SourceLoop.Source.Start: for receipts whose identifiers are not empty and carry no outer white space; SourceScans.ScanAtStart says what a start does with any others.
- SourceLoop.Source.ScanAtStartUp: as for Source.Start.
- ApprovalListener.DecisionIsFinal: the listener is taken to be the only process writing its state directory, since its files are replaced without an exclusive create.
- ApprovalListener.Listener.WaitForDecision: takes a finite list of polling rounds; a list without a decision stands for a listener that is still waiting.
- ClaimWorker.Worker.ClaimPendingOnce: an entry whose bytes cannot be decoded raises out of the pass, so the entries after it are not reached; the pass is then an interrupted one.
- KeysetPaging.ScanMarkets: the table does not change during the scan, and the time budget is the number of clock checks that are in time.
- V4Report.CheckReasons: the counters of the breakdown of ineligible sources are left out.
- V3Reports.Canonical: rows are ordered by market start and prediction id and their numbering is their position; numbers and dates are not rendered as text.
- BlockerSampling.BuildReport: times are sample numbers, query texts arrive classified, and names kept only to be counted are kept as names.
- ReindexRollout.Rollout.RunRollout: each check that can only return or raise is one command; the contents of the evidence files are not modelled.
- Distribution.StatsOf: the rank of the upper percentile is computed over the reals, where the code rounds in floating point.
- Receiver start-up recovery and message loss are steps of the transition system; they have no class method.
- Message signing and verification, envelope formats, authorization documents, expiry checks and environment guards: boolean outcomes.
- Pub/Sub, Telegram, the exchange client, the ledger and the labels database: their answers are parameters or nondeterministic choices.
- File modes, symbolic links, fsync, size limits and JSON encoding.
- The staging of Telegram candidates and the overlap of preparing and approving in the source.
- Latencies, printed reports, source timing diagnostics and feature inspection rules.
- Decimal precision and rounding.
