# Verified model of the durable-execution kernel and the Kuberic control plane

This project models four parts of the repository in Dafny and proves what they promise.

**The durable-execution kernel.** A host replays a deterministic workflow against a stored checkpoint and advances by
compare-and-swap. `Protocol` is the transition system: any number of hosts, each possibly waiting for the answer to a
write, over one store whose answers may be lost and whose writes may land late; hosts crash and restart at any point.
The reference is `Replay.Direct`, the workflow run directly on a sequence of results. The host's branches are functions
(`Host`), the methods of the class in `DurableHosts` are proved to compute them, and `PerformingIsAProtocolRun` ties
the object to the transition system. The size reservations are exact arithmetic over the JSON text
(section 7 of RFC 8259) and its Base64 form (section 4 of RFC 4648) with 64-bit overflow; `Sizes` says in terms of that
text what can be stored, loaded and reserved. `Progress` proves that every write is a step along the direct run, and
`Duties` that it is the step that is due: what the direct run asks for next, unless a stated limit forbids it.
In `Proposal` the fields `observed` and `limits`, and in `System` the fields `written`, `observed`, `grants` and
`reported`, are history: no step depends on them.

**The key-value store's persistence.** A data directory shows a content after every file operation, and a process may
die after any of them, also while it opens. The methods of `KvState` list every content shown; `KvRecovery` proves what
any run of calls and crashes recovers, against the fold of the surviving operations.

**Replica removal.** `Removal` and `RemovalProgress` hold the intent and the progress with their validation.
`RemovalTrace` states which step may follow which, and which effect is owed after what was seen, from the rules of the
protocol alone; the class in `RemovalCoordinator` is proved to keep that order and to pay what it owes over an
environment whose every answer (clock, runtime snapshot, authority, effect and peer replies) is arbitrary.
`StageRequests` validates the request for a peer stage, `ConfigurationFence` is the text that ties a Retire request to
the intent, and `RetireRequest` says when the coordinator's own request holds up.
`AgentState` and `ReplicaAgents` model the agent that admits the action and listens to the
coordinator; `PeerStages` is the Retire stage on the removed replica. Whatever stops the coordinator is on its trace
too, with the reading it rests on: a run has had a setback exactly if it holds such a step (`Hampered`), so that a
refusal without one can be ruled out.

**Smaller cores.** The external rendering of activity identities and its inverse, canonical JSON key order, the
driver's recovery and snapshot, and the pod runtime's access status and tracked slot. Each await of the pod runtime
requires its safety predicate, so that it holds at the awaits and not only between commands.

Where the code differs from what its comments suggest, the code is modelled, and the exact condition is proved.

- A rollback of the key-value store to a target below its snapshot keeps what the snapshot covers: `RollbackIsExact`,
  with the directory in `RollbackBelowASnapshotKeepsIt`.
- An authority revoked at shutdown is granted again by progress that was already queued: `RevocationLasts` and
  `RevocationEnds`, with the agent in `QueuedProgressGrantsAgain`.
- A quorum is computed on 32 bits: `MajorityIsMajority` and `QuorumsMeet`, with the removal in
  `QuorumsApartInLargeCrowd`.
- A Retire request is checked against the fence as text, and a comma in a retained name or address makes the check
  fail at the sender, after the commit: `CommittedProgressRetires` and `AcceptedIsReadable`, with the removal in
  `AcceptedRemovalThatCannotRetire`.

Some methods call a function that mirrors a short branch of the original; what the original promises is then proved
about that function. Verify with `dafny verify dfyconfig.toml`.

## Model

| member | source | states |
|---|---|---|
| `Identity.ToExternalId` | durable-execution/src/identity.rs:332-350 | the string built piece by piece is the rendering that `Parse` inverts |
| `Identity.PushHex` | durable-execution/src/identity.rs:376-380 | appends exactly the two-digit lower-case hexadecimal form of every byte |
| `Identity.ParseOfRendered` | durable-execution/src/identity.rs:331-350 | parsing a rendering gives back execution, sequence, name, version, input and bound, for names and inputs of any length |
| `Identity.RenderingIsInjective` | durable-execution/src/identity.rs:331-350 | two logical activities with the same external id are the same activity |
| `Base64.DecodeOfEncode` | durable-execution/src/identity.rs:25-32 | decoding the stored form of exact bytes gives the bytes back (section 4 of RFC 4648) |
| `Base64.EncodeOfDecode` | durable-execution/src/identity.rs:34-45 | whatever the strict decoder accepts is the one canonical encoding of the bytes it returns |
| `Base64.EncodedLenIsExact` | durable-execution/src/checkpoint.rs:88-89 | the checked length formula is the length of the encoding, or reports overflow |
| `Checkpoint.ValidateActiveHistory` | durable-execution/src/checkpoint.rs:535-561 | reports the first record that is out of sequence, over its bound, or pending before the end |
| `Checkpoint.AcceptedHistoriesAreLinear` | durable-execution/src/checkpoint.rs:535-561 | validation accepts exactly the histories numbered from zero, completed except possibly at the end, and within their bounds |
| `Checkpoint.EncodedLenIsExact` | durable-execution/src/checkpoint.rs:87-97 | the computed length is the length of the JSON envelope around the Base64 of the JSON payload, or that length overflows |
| `Checkpoint.TerminalProjectionCovers` | durable-execution/src/checkpoint.rs:275-308 | every in-bound terminal form, success or failure, at every completed count, fits the admission projection |
| `Checkpoint.TerminalProjectionIsReached` | durable-execution/src/checkpoint.rs:275-308 | the admission projection is tight: some in-bound outcome needs all of it |
| `Checkpoint.ActivityProjectionCovers` | durable-execution/src/checkpoint.rs:310-344 | every in-bound result of the last activity fits the exposure projection |
| `Sizes.StorableIsEncoded` | durable-execution/src/checkpoint.rs:68-76 | encoding succeeds exactly on payloads whose text fits the limit, whose records are linear and few enough, and whose capacity holds every in-bound outcome at every count |
| `Sizes.LoadableIsDecoded` | durable-execution/src/checkpoint.rs:99-131 | decoding succeeds exactly on such payloads of the right version and execution |
| `Sizes.ReservableIsReserved` | durable-execution/src/checkpoint.rs:310-344 | the reservation made at exposure succeeds if and only if every in-bound result of the activity will fit |
| `Workflow.WorkflowContext.PollActivity` | durable-execution/src/workflow.rs:89-132 | one poll answers from the history at the cursor, or records why it cannot; a decided context stays as it is |
| `Replay.PollBody` | durable-execution/src/replay.rs:93-101 | polling the body over the history stops where the recursive definition of the replay stops |
| `Replay.EvaluateTurn` | durable-execution/src/replay.rs:55-159 | one evaluation validates, replays and classifies as specified |
| `Replay.RunResumes` | durable-execution/src/workflow.rs:89-132 | a direct run that waits for a result continues from the same call once the result is there |
| `Replay.ReplayFindsDirectRun` | durable-execution/src/replay.rs:55-159 | replaying a history that agrees with a direct run neither diverges nor leaves records over: it stops exactly where the direct run stands |
| `Store.InMemoryCheckpointStore.Load` | durable-execution/src/in_memory.rs:82-91 | an armed error is reported once; otherwise the stored checkpoint is returned |
| `Store.InMemoryCheckpointStore.CompareAndSwap` | durable-execution/src/in_memory.rs:93-145 | applies only on the expected revision, with a fresh revision, and reports as the armed fault says |
| `Store.InMemoryCheckpointStore.FailCompareAndSwapAfter` | durable-execution/src/in_memory.rs:49-60 | arming a fault replaces the previous one and its countdown |
| `Store.RevisionsStayDistinct` | durable-execution/src/in_memory.rs:121-137 | a write never reuses a revision, so a revision names one content for ever |
| `DurableHosts.DurableHost.NextAttempt` | durable-execution/src/host.rs:781-789 | attempt counters start above zero and are never handed out twice |
| `DurableHosts.DurableHost.PrepareExposure` | durable-execution/src/host.rs:667-699 | reserves the maximum result before an attempt is spent |
| `DurableHosts.DurableHost.PrepareTurn` | durable-execution/src/host.rs:189-431 | the branch of a turn between its load and its compare-and-swap |
| `DurableHosts.DurableHost.PrepareActing` | durable-execution/src/host.rs:238-302 | what a turn does with its evaluation: schedule, expose, complete, or report |
| `DurableHosts.DurableHost.PrepareObserveAndTurn` | durable-execution/src/host.rs:526-644 | validates the observation, then replays over it |
| `DurableHosts.DurableHost.PrepareProgress` | durable-execution/src/host.rs:578-643 | what follows a recorded observation: exposure, completion, quarantine or a report |
| `DurableHosts.DurableHost.Commit` | durable-execution/src/host.rs:647-779 | only an accepted compare-and-swap is reported as progress, for its purpose and at its revision; conflict, unknown outcome and failure have one report each, which names the boundary of the write |
| `DurableHosts.DurableHost.Perform` | durable-execution/src/host.rs:189-644 | one operation is a load, a plan made from what was loaded, and at most one compare-and-swap; on a checkpoint along the direct run it does exactly what is due |
| `DurableHosts.PerformingFulfils` | durable-execution/src/host.rs:189-644 | whatever an operation does with an agreeing checkpoint was due, and the report tells the store's answers apart |
| `DurableHosts.PerformingIsAProtocolRun` | durable-execution/src/host.rs:189-644 | what the host object does alone is a run of the transition system the theorems below speak about |
| `Progress.EvaluationIsFaithful` | durable-execution/src/replay.rs:103-158 | on a stored state that agrees with the direct run, every evaluation says what that run does next |
| `Progress.ObservationRecords` | durable-execution/src/host.rs:433-517 | an accepted observation records exactly its result for the exposed activity it names, and stays on the direct run |
| `Duties.EveryPlanIsDue` | durable-execution/src/host.rs:189-644 | every operation plans exactly what is due: a pending scheduled record is exposed, a waiting run is scheduled by a turn and exposed by a fused one, a finished run is completed, an end or an exposed record is answered from the checkpoint; each gives way only to a stated size, record or bound condition, and the attempt counter moves exactly with an exposure |
| `Duties.RecordingIsDue` | durable-execution/src/host.rs:433-517 | an observation is recorded exactly when it names the exposed final record, is within its bound and can be stored, and is otherwise refused for the reason that holds |
| `Duties.RefusedExactlyWhenItDoesNotFit` | durable-execution/src/host.rs:189-644 | a checkpoint is refused if and only if it cannot be loaded or the next step of the direct run cannot be stored, reserved or bounded |
| `Duties.EveryPlanIsSound` | durable-execution/src/host.rs:189-644 | whatever a host does with an agreeing checkpoint is a write one step further along the direct run, or an honest answer; a refusal of the checkpoint or of an observation is honest only if what is due cannot be stored, reserved or bounded, or does not match |
| `Protocol.EveryRunKeepsInvariant` | durable-execution/src/host.rs:189-644 | the system invariant holds after every interleaving of loads, swaps, unknown outcomes, late writes, crashes and restarts |
| `Protocol.EveryRunDoesWhatIsDue` | durable-execution/src/host.rs:189-644 | in every reachable state every operation that can load answers, or waits for, exactly what is due with what is stored |
| `Protocol.RunsRefineDirectExecution` | durable-execution/src/host.rs:189-644 | every stored history is the direct sequential run on the results recorded so far; a stored outcome is that run's outcome |
| `Protocol.NoRunReportsNondeterminism` | durable-execution/src/replay.rs:118-140 | no turn ever finds a mismatching activity or unused history; a body that never suspends without asking is never called nondeterministic |
| `Protocol.ReportedOutcomeIsTheDirectOne` | durable-execution/src/host.rs:725-779 | every reported completion is the outcome of the direct run and is what the store holds |
| `Protocol.AtMostOnePermitPerPosition` | durable-execution/src/host.rs:94-115 | across all hosts and entry points at most one permit exists for a position, and it names the final record stored at its revision |
| `Protocol.CheckpointsOnlyMoveForward` | durable-execution/src/host.rs:433-644 | contract, earlier specs, attempts and results never change, records only advance, terminal is final |
| `Protocol.TerminalCountsReplacedHistory` | durable-execution/src/checkpoint.rs:230-244 | a terminal checkpoint counts exactly the records of the history it replaced |
| `Protocol.StoredCheckpointsStayLoadable` | durable-execution/src/checkpoint.rs:99-131 | what is stored can be loaded by every host whose limits are no smaller than the writer's |
| `Protocol.ExposedResultsAreAlwaysRecordable` | durable-execution/src/host.rs:433-517 | in every run an exposed activity's in-bound result is never refused by `observe` of a host with limits no smaller than the exposing host's |
| `Reservation.ExposedResultFits` | durable-execution/src/host.rs:680-686 | the reservation made at exposure is enough for the observation |
| `Reservation.LoadableMeansCompletable` | durable-execution/src/checkpoint.rs:346-375 | a host that can load an execution can encode every in-bound outcome of it, at every count |
| `Reservation.InBoundCompletionIsProposed` | durable-execution/src/host.rs:744-779 | finishing a loadable execution is refused exactly when the outcome is over its declared bound |
| `Reservation.AdmissionMeansCompletable` | durable-execution/src/replay.rs:66-82 | a run without activities can be finished from absence once it is admitted |
| `Reservation.EveryWriteFits` | durable-execution/src/host.rs:667-779 | every write a host proposes fits its own limits, with room for the activity it exposes |
| `CanonicalJson.SameMeansOneForm` | durable-execution/src/typed.rs:197-217 | documents that differ only in object key order, at any depth, have one canonical form |
| `CanonicalJson.OneFormMeansSame` | durable-execution/src/typed.rs:197-217 | and only they: one canonical form means equal up to key order |
| `CanonicalJson.CanonOnlyReorders` | durable-execution/src/typed.rs:197-217 | canonicalizing changes key order alone, and doing it twice changes nothing more |
| `CanonicalJson.CanonIsWellFormed` | durable-execution/src/typed.rs:203-210 | no key is lost or doubled |
| `CanonicalJson.LookupsSurvive` | durable-execution/src/typed.rs:197-217 | every path leads to the canonical form of what it led to before, arrays included, or still nowhere |
| `KvStore.KvState.Open` | examples/kvstore/src/state.rs:30-51 | opening repairs the log and stands at the snapshot plus the readable newer entries, committed up to the snapshot; every directory content on the way is listed |
| `KvStore.KvState.ReplayWal` | examples/kvstore/src/persistence.rs:66-98 | replay skips entries not newer than the table and ends at the first unreadable line |
| `KvStore.KvState.TruncateWalToValid` | examples/kvstore/src/persistence.rs:103-133 | the log is replaced by its longest readable prefix |
| `KvStore.KvState.ApplyOp` | examples/kvstore/src/state.rs:55-71 | one line is appended, which can be torn on the way; a put maps its key to its value and a delete removes it, every other key answers as before |
| `KvStore.KvState.SetCommittedLsn` | examples/kvstore/src/state.rs:90-94 | the committed number is a running maximum |
| `KvStore.KvState.Checkpoint` | examples/kvstore/src/state.rs:98-117 | skipped while uncommitted entries exist; otherwise the snapshot is replaced before the log is emptied |
| `KvStore.KvState.RollbackTo` | examples/kvstore/src/state.rs:121-148 | reloads the snapshot, replays up to the target and rewrites the log |
| `KvStore.KvState.RewriteWalUpTo` | examples/kvstore/src/persistence.rs:171-200 | the log keeps exactly the readable entries at or below the target, and the store appends to the new file |
| `KvRecovery.FoldAnswersLookups` | examples/kvstore/src/state.rs:71-88 | for every log and key the fold of the log maps the key to a value if and only if the last entry that names the key puts that value |
| `KvRecovery.RecoveryIsTheFold` | examples/kvstore/src/persistence.rs:41-98 | opening a directory that stands for a log recovers the fold of that log |
| `KvRecovery.RollbackRepresents` | examples/kvstore/src/state.rs:121-148 | what a rollback leaves in memory is what reopening the rewritten directory recovers |
| `KvRecovery.RollbackIsExact` | examples/kvstore/src/state.rs:121-148 | a rollback leaves exactly the operations at or below its target if and only if no snapshot lies above it |
| `KvRecovery.RollbackBelowASnapshotKeepsIt` | examples/kvstore/src/state.rs:124-127 | a concrete directory where rolling back below the snapshot keeps the later operation |
| `KvRecovery.EveryRunRecovers` | examples/kvstore/src/state.rs:30-148 | after any run of opens, writes, commits, checkpoints, rollbacks and crashes at any file operation, every lookup in the reopened table, and in a live one, is answered by the last surviving operation on the key, and the snapshot is never ahead of the committed number |
| `KvRecovery.ReturnedWritesSurvive` | examples/kvstore/src/state.rs:53-71 | a write that returned is recovered at every later point unless a rollback below it was asked for |
| `Configurations.Materialize` | kuberic-core/src/replica_lifecycle.rs:73-107 | fails exactly when a member waits for a copy without an LSN, naming the first; otherwise every member, sorted by id |
| `Configurations.InstallingIsRecognised` | kuberic-core/src/types.rs:378-394 | what the runtime reports after installing a materialized descriptor is the status the descriptor expects, ties and order included |
| `Configurations.StatusForgetsOrder` | kuberic-core/src/replica_lifecycle.rs:109-125 | with distinct ids the status does not depend on the order of members |
| `Configurations.StatusIsStrictlySorted` | kuberic-core/src/replica_lifecycle.rs:109-125 | the status lists the members' identities with strictly increasing ids |
| `Configurations.SignatureForgetsOrder` | kuberic-core/src/replica_lifecycle.rs:45-71 | the signature never depends on the order of members |
| `Removal.MajorityIsMajority` | kuberic-core/src/remove_replica.rs:519-520 | the quorum computed on 32 bits is a majority exactly for sets that fit in 32 bits |
| `Removal.ValidateDescriptor` | kuberic-core/src/remove_replica.rs:518-554 | accepts exactly majority quorums over distinct, stable members with usable endpoints; otherwise the error is the first fault of the first faulty member |
| `Removal.ValidateRelationship` | kuberic-core/src/remove_replica.rs:556-618 | accepts exactly the removals of one exact up target with everything else retained; otherwise the error is the first way in which they differ from one |
| `Removal.Validate` | kuberic-core/src/remove_replica.rs:70-118 | the whole validation against the endpoint grammar and the signature text of the intent itself; a refusal names the first fault, in the order the parts are looked at |
| `Removal.RemovesExactlyTheTarget` | kuberic-core/src/remove_replica.rs:571-617 | an accepted removal takes exactly the target out of the previous set and changes no other member |
| `Removal.QuorumsMeet` | kuberic-core/src/remove_replica.rs:518-528 | every write quorum of the previous set meets every one of the reduced set if and only if the previous set can be counted on 32 bits |
| `RemovalExamples.QuorumsApartInLargeCrowd` | kuberic-core/src/remove_replica.rs:518-528 | an accepted removal from 2^32 replicas, whose computed previous quorum is one replica and whose quorums do not all meet |
| `RemovalExamples.CrowdIsAccepted` | kuberic-core/src/remove_replica.rs:70-118 | for every number of secondaries from two on there is an intent that the whole validation accepts |
| `Removal.RetainedUpFormBothQuorums` | kuberic-core/src/remove_replica.rs:631-643 | the retained replicas that are up form both quorums without the target |
| `Removal.ConfigurationsAreToldApart` | kuberic-core/src/replica_agent.rs:3298-3315 | the three configurations of an accepted intent are classified as themselves once installed |
| `RemovalProgress.NormalizeRemoveError` | kuberic-core/src/remove_replica.rs:418-427 | a message over the bound is cut at a character boundary |
| `RemovalProgress.NormalizedKeepsMost` | kuberic-core/src/remove_replica.rs:418-427 | what is kept is the longest prefix of whole characters within the bound |
| `RemovalProgress.RetirementExpiryIsSound` | kuberic-core/src/remove_replica.rs:144-154 | a commit gets an expiry exactly within the deadline and without overflow; it lies between the commit and both limits, and grows with the commit |
| `RemovalProgress.TerminalResultsExclude` | kuberic-core/src/remove_replica.rs:370-415 | valid progress supports one terminal result, except that a compensation may also be incomplete |
| `RemovalProgress.TerminalNeedsTheLastPhases` | kuberic-core/src/remove_replica.rs:370-415 | progress supports some terminal result exactly in the two phases a removal ends in, with their evidence |
| `RetireRequest.CommittedProgressRetires` | kuberic-core/src/replica_agent.rs:3164-3196 | the Retire request made from an accepted intent and any valid committed progress, fences and signatures included, passes its own validation if and only if its fence can be read back |
| `RetireRequest.AcceptedIsReadable` | kuberic-core/src/replica_lifecycle.rs:429-469 | unless the text of a member imitates the separator of the fence, the fence can be read back if and only if no retained name or address holds a comma |
| `RetireRequest.AcceptedRemovalThatCannotRetire` | kuberic-core/src/replica_lifecycle.rs:429-469 | an accepted removal at the address http://r:1/a,b whose fence cannot be read back, so that none of its Retire requests is ever sent |
| `StageRequests.ValidateRequest` | kuberic-core/src/replica_lifecycle.rs:240-354 | accepts exactly the requests with every text, two different replicas, the fields of their kind and stage, and the signature of their own fields |
| `StageRequests.ValidateProjection` | kuberic-core/src/replica_lifecycle.rs:385-414 | accepts exactly the current configurations with a possible quorum and identified members in strictly growing order, although each id is compared with the last one only |
| `StageRequests.ValidateAgainstFence` | kuberic-core/src/replica_lifecycle.rs:429-469 | accepts exactly the projections whose quorum, members and count are found in the text between the first separator and the second |
| `RemovalCoordinator.Coordinator.Gate` | kuberic-core/src/replica_agent.rs:3317-3351 | passes only with authority, on the exact writable primary in an allowed configuration, before the deadline it is given, and refuses only on a setback |
| `RemovalCoordinator.Coordinator.Execute` | kuberic-core/src/replica_agent.rs:3439-3477 | sends its call exactly once and before its limit, or records that the time for it was up; refuses only on a setback |
| `RemovalCoordinator.Coordinator.Publish` | kuberic-core/src/replica_agent.rs:3411-3437 | publishes exactly valid progress, once, with the next sequence number, and goes on if and only if the authority is granted |
| `RemovalCoordinator.Coordinator.ObserveCommit` | kuberic-core/src/replica_agent.rs:2829-2877 | records the commit once, behind a gate that sees reduced Current |
| `RemovalCoordinator.Coordinator.InstallCatchUpConfiguration` | kuberic-core/src/replica_agent.rs:2340-2416 | ends in the catch-up configuration or at the commit, or after a setback |
| `RemovalCoordinator.Coordinator.WaitForCatchUpQuorum` | kuberic-core/src/replica_agent.rs:2418-2496 | ends with the tracked quorum seen to have succeeded, or at the commit, or after a setback |
| `RemovalCoordinator.Coordinator.InstallCurrentConfiguration` | kuberic-core/src/replica_agent.rs:2498-2581 | marks the dispatch before it sends, and sends once |
| `RemovalCoordinator.Coordinator.Recover` | kuberic-core/src/replica_agent.rs:2590-2645 | after a setback it first looks: reduced Current ends at the commit or refuses; anything else refuses once the installation may have been sent, and otherwise enters a compensation, unless none is possible any more |
| `RemovalCoordinator.Coordinator.EnterCompensation` | kuberic-core/src/replica_agent.rs:2800-2826 | enters with a bounded expiry, and never once the commit is recorded |
| `RemovalCoordinator.Coordinator.Compensate` | kuberic-core/src/replica_agent.rs:2653-2798 | ends compensated only on seeing previous Current, incomplete only past its expiry |
| `RemovalCoordinator.Coordinator.RemoveTargetConnection` | kuberic-core/src/replica_agent.rs:2894-2942 | ends only with the exact connection seen absent, published as such |
| `RemovalCoordinator.Coordinator.EnsureTargetRetirement` | kuberic-core/src/replica_agent.rs:3026-3256 | settles as completed only on seeing the exact target closed, otherwise only past the signed expiry or, in a forced removal, without any address; whenever the exact target is seen to need the request it is sent, unless the call deadline is behind; refuses without a setback only when the target is asked and the fence cannot be read |
| `RemovalCoordinator.Coordinator.RequestRetirement` | kuberic-core/src/replica_agent.rs:3164-3256 | a target that needs the Retire request is sent it before the expiry, or its time is up; it is left owed only on a refusal with an unreadable fence |
| `RemovalCoordinator.Coordinator.SendRetire` | kuberic-core/src/replica_agent.rs:3164-3205 | sends nothing when the request fails its own validation, which happens exactly when the fence cannot be read; with a readable fence it refuses only on a setback |
| `RemovalCoordinator.Coordinator.Attest` | kuberic-core/src/replica_agent.rs:2977-3023 | a last gate and a last look at the connection come before the result |
| `RemovalCoordinator.Coordinator.Run` | kuberic-core/src/replica_agent.rs:2179-2326 | every run for an accepted intent keeps the safety order, leaves no effect owed except a request with an unreadable fence, and reports a result only with its evidence; a run without a setback commits, except where a reachable target has to be asked with an unreadable fence |
| `RemovalTrace.AtMostOneInstallAndNoRestore` | kuberic-core/src/replica_agent.rs:2526-2631 | reduced Current is sent at most once, and never in the same run as the restoration |
| `RemovalTrace.DebtsArePaid` | kuberic-core/src/replica_agent.rs:2340-2796 | installation, quorum wait, restoration, removal of the connection and the Retire request are sent at once where what was seen calls for them, unless their time is up |
| `RemovalTrace.EveryNeedIsAnswered` | kuberic-core/src/replica_agent.rs:3101-3205 | in a run that reports a result, every status of the exact target that was up and knew no Retire request is followed by that request, with the published commit and expiry, unless its deadline was behind |
| `RemovalTrace.RetirementIsReported` | kuberic-core/src/replica_agent.rs:3095-3255 | what is published about the retirement of a reachable target, state and error, is what the last answer before it told, with nothing but gates in between |
| `RemovalTrace.HamperedByAStep` | kuberic-core/src/replica_agent.rs:3317-3477 | a run that was stopped holds the step that stopped it: authority lost, a deadline behind, a runtime or configuration that does not fit, a call that failed or came too late |
| `RemovalTrace.NothingIsSentTooLate` | kuberic-core/src/replica_agent.rs:3439-3477 | no installation is sent after the overall deadline, no restoration after the compensation expiry, and no status or Retire request after the retirement expiry |
| `RemovalTrace.InstallFollowsTheQuorum` | kuberic-core/src/replica_agent.rs:2418-2525 | reduced Current is sent only after the tracked quorum wait was seen to have succeeded in the catch-up configuration, and right after the dispatch was published |
| `RemovalTrace.CommitIsFinal` | kuberic-core/src/replica_agent.rs:2746-2756 | after a published commit nothing is restored, reinstalled or compensated, and its time never changes |
| `RemovalTrace.PublishedProgressGains` | kuberic-core/src/replica_agent.rs:3392-3437 | published progress only gains over any stretch of a run |
| `RemovalTrace.CommittedNeverCompensated` | kuberic-core/src/remove_replica.rs:386-413 | a run that published a commit ends committed, clean or degraded, if it reports a result |
| `AgentState.ForeignEventsAreIgnored` | kuberic-core/src/replica_agent.rs:1389-1418 | events of other generations, actions or attempts leave the active action as it was |
| `AgentState.EventsAreFollowed` | kuberic-core/src/replica_agent.rs:1389-1528 | an event in sequence advances the progress or ends the action with the state, result, error class and message its update calls for; any other event changes nothing |
| `AgentState.AgentReportsTheCoordinatorsResult` | kuberic-core/src/replica_agent.rs:1445-1528 | the check made on the last progress the agent took never overrides the result the coordinator reached, whatever other events come in between |
| `AgentState.AgentReportsTheCoordinatorsFailure` | kuberic-core/src/replica_agent.rs:1445-1528 | a coordinator that fails is reported as a failed action with its own normalized message, on the last progress it published |
| `AgentState.RevocationLasts` | kuberic-core/src/replica_agent.rs:1465-1475 | while the action stays in flight, an authority revoked at shutdown stays revoked if and only if the events still to come do not hold the next progress of its coordinator |
| `AgentState.RevocationEnds` | kuberic-core/src/replica_agent.rs:1389-1475 | whatever the events do to the action, a revoked authority is granted again at some moment if and only if the first event the agent takes is valid progress |
| `ReplicaAgents.ReplicaAgent.AcceptCorrelated` | kuberic-core/src/replica_agent.rs:547-797 | admits exactly a new request at the current version with both slots free (a removal: exactly an accepted intent for this agent, in time), uses its version once, and places it in flight or ended under its own id and signature; a repetition is answered with what is known, a refusal names a reason that holds, and a version already used changes nothing |
| `ReplicaAgents.ReplicaAgent.AcceptRemoval` | kuberic-core/src/replica_agent.rs:799-1045 | admits exactly an accepted intent that names this agent at its current version, in time if it can start; a coordinator starts only on the exact live primary in one of the configurations |
| `ReplicaAgents.ReplicaAgent.AcceptPeerStage` | kuberic-core/src/replica_agent.rs:1047-1269 | admits exactly a valid new request for this agent at the current peer version, behind the sender fence, in time, under the message id, signature and stage of the request, this generation and the new peer version; a message seen before is answered with its own record, except for a conflict or a completed Retire whose postcondition no longer holds |
| `ReplicaAgents.DeliverStageTwice` | kuberic-core/src/replica_agent.rs:1097-1222 | a stage request delivered again right after its admission is answered with its own record, in progress |
| `ReplicaAgents.RequestTwice` | kuberic-core/src/replica_agent.rs:547-797 | an action requested again right after its admission is answered with what became of it |
| `ReplicaAgents.ReplicaAgent.HandleCompletion` | kuberic-core/src/replica_agent.rs:1626-1673 | only the effect in flight ends its action, with one observation of the same identity, signature, version and progress: completed with the value or the earlier result if and only if it succeeded, failed with that class and the normalized message otherwise; a waiting requester gets it |
| `ReplicaAgents.ReplicaAgent.HandleCoordinatorEvent` | kuberic-core/src/replica_agent.rs:1389-1528 | an event out of sequence changes nothing; one in sequence advances the action or ends it once, as its update says |
| `ReplicaAgents.ReplicaAgent.HandlePeerCompletion` | kuberic-core/src/replica_agent.rs:1342-1387 | only the stage in flight is ended, with its own record in the given state, retained if and only if that state is terminal |
| `ReplicaAgents.ReplicaAgent.BeginShutdown` | kuberic-core/src/replica_agent.rs:1675-1692 | revokes the coordinator's authority, once |
| `ReplicaAgents.TerminalsAreUnique` | kuberic-core/src/replica_agent.rs:1757-1770 | every admitted version has at most one terminal observation, and none while it is in flight |
| `ReplicaAgents.WindowSlides` | kuberic-core/src/replica_agent.rs:1757-1762 | the retained window is always the newest sixteen terminals |
| `ReplicaAgents.QueuedProgressGrantsAgain` | kuberic-core/src/replica_agent.rs:1675-1692 | for every removal accepted by a new agent: admitted, revoked at shutdown, and granted again by the first progress of its coordinator, taken in afterwards |
| `ReplicaAgents.ShutdownDuringSmallRemoval` | kuberic-core/src/replica_agent.rs:1675-1692 | one such removal, of two secondaries |
| `PeerStages.RunRetire` | kuberic-core/src/replica_agent.rs:1909-1967 | the result is the one the trace calls for: stale without an authorization or the exact target, done if and only if the last look saw the closed postcondition, failed or late otherwise, with a demotion for a secondary and a close for an open target without role |
| `PeerStages.EffectsAreAuthorized` | kuberic-core/src/replica_agent.rs:1909-1967 | each effect comes right behind an authorization and a look at the exact target: the demotion of a secondary, the close of an open target that has given up its role |
| `PeerStages.Authorize` | kuberic-core/src/replica_agent.rs:1971-2066 | the sender must be the exact live primary with the parent action active and the signed projection installed |
| `PeerStages.OneDemotionThenOneClose` | kuberic-core/src/replica_agent.rs:1917-1956 | at most one demotion and one close, in that order |
| `Driver.PartitionDriver.Recover` | kuberic-core/src/driver.rs:97-260 | succeeds exactly on consistent snapshots with matching handles and statuses; every member then has its handle and role, every secondary is configured as its handle and status say; otherwise the error names a fault the input has, the snapshot's before the handles' before the first mismatching status |
| `Driver.PartitionDriver.GetStableSnapshot` | kuberic-core/src/driver.rs:264-343 | succeeds exactly on a stable topology, and lists each replica once, sorted by id |
| `Driver.RecoveredIsPresentable` | kuberic-core/src/driver.rs:216-259 | what recovery builds is a stable topology |
| `Driver.RoundTrip` | kuberic-core/src/driver.rs:97-343 | recovery followed by a snapshot gives back the input, sorted by id and without election metadata, whatever the order of members and handles |
| `Pod.PodRuntime.Open` | kuberic-core/src/pod.rs:750-794 | resets role and configuration first; the service and then the replicator are asked, and only both answers give a new replicator without write access |
| `Pod.PodRuntime.ChangeRole` | kuberic-core/src/pod.rs:796-852 | write access only for a recorded and published primary at every await; a promotion asks the replicator first, a demotion gives up access before it asks the service; only both answers record role and epoch |
| `Pod.PodRuntime.InstallConfiguration` | kuberic-core/src/pod.rs:378-451 | the configuration is recorded, and a primary gets write access, exactly when the replicator took it |
| `Pod.PodRuntime.UpdateEpoch` | kuberic-core/src/pod.rs:892-903 | the epoch is recorded exactly when the replicator took it |
| `Pod.PodRuntime.RevokeWriteStatus` | kuberic-core/src/pod.rs:489-499 | an open pod keeps its read status and has its writes pending |
| `Pod.PodRuntime.CancelTracked` | kuberic-core/src/pod.rs:652-675 | only the execution in the slot is asked to stop, a build without a call and a quorum wait through the replicator; the slot and the observations stay as they are |
| `Pod.PodRuntime.Close` | kuberic-core/src/pod.rs:854-890 | tells service and replicator, and always ends closed with the shared access taken away, whatever is answered |
| `Pod.PodRuntime.StartTrackedBuild` | kuberic-core/src/pod.rs:509-590 | takes the free slot exactly for a new key and execution on an open pod; a repeated start is answered from the observation, a slot in use with busy, the same execution for another target with a conflict |
| `Pod.PodRuntime.StartTrackedQuorum` | kuberic-core/src/pod.rs:592-650 | the same for the tracked quorum wait, by execution alone |
| `Pod.PodRuntime.HandleTrackedCompletion` | kuberic-core/src/pod.rs:677-737 | an answer for the execution in the slot frees it and settles the observation of the answer's kind with its state and, for a build, the reported copy LSN; slot and observations agree afterwards if and only if that was the kind of the slot |
| `Pod.DemoteAndClose` | kuberic-core/src/pod.rs:796-890 | a demotion that succeeds and a close establish the postcondition the Retire stage has to observe; a demotion that fails was refused by the last one asked and leaves role, epoch and access |

## Left out

- The Kubernetes store, the gRPC clients and servers, the operator and the reconciler: input and output over libraries; the replicator and the user service are an environment that answers or refuses.
- The add-replica coordinator and the Prepare, Activate and Cleanup stages: their intents do not relate the previous and current member sets, so they carry fewer whole-run guarantees than removal.
- Parsing of stored JSON: an envelope carries its payload as a value, and `PayloadText` is the text the length arithmetic is about. A payload that is not valid JSON cannot be stored here.
- Workflow bodies that await something else than an activity: they appear only as a body that suspends.
- Provider faults after which a write lands without ever being reported: covered more generally, since a write whose outcome is unknown may land at any later time in the transition system.
- Deletion of stored checkpoints: the store contract here has no delete.
- Exhaustion of attempt, control, peer and execution counters at their 64-bit maximum: stated as preconditions; the original stops with a panic or saturates there.
- Endpoint grammar and the signatures of actions other than removals: endpoint validity and those signatures are parameters.
- RetireRequest.AcceptedIsReadable: says nothing where the name or address of a member holds the separator of the fence itself, because such a text is read as the configuration it imitates, right or wrong.
- RetireRequest.CommittedProgressRetires: speaks about requests to a reachable target only; no request is made to another.
- Input and output errors of the key-value store that do not end the process, and entries applied out of order: writes succeed or the process dies, and sequence numbers increase.
- RemovalCoordinator.Coordinator.Run: promises safety on every run and a result on every run without a setback; it does not promise that a wait ends, since the environment may never answer.
- Pod.PodRuntime.ChangeRole: assumes that the pod runtime alone sets the access status; other runtimes in the repository are not part of this model.
- Local fault records, election and deactivation metadata, metrics, logging and real time.
