# LongHub Manager: a verified model

LongHub Manager is a Windows control plane for OpenClaw. This project models the parts of it that hold
state machines, transactions or codecs, and proves what they keep over every run.

- **Manager Agent** (`AgentModel`, `AgentEngine`, `AgentSession`, `AgentHistory`, `AgentApproval`,
  `AgentBudget`, `AgentResponses`, `AgentAnswers`, `AgentTruth`, `SessionTable`, `AgentRequests`,
  `AgentInterleaving`). A session is a message history whose calls and results stay paired, a one-shot
  approval that can suspend half way through a batch, a round budget and a compactor. The model's
  replies, the clock, tool outcomes and random IDs are arbitrary functions of how far the session has
  come. `AgentSession` is the engine's object with its loops; the functions of `AgentEngine` say what its
  methods compute, `AgentAnswers` tells every outcome of them by the outside's answers alone,
  `AgentTruth` where every message comes from, and the other modules what runs of them keep.
  `AgentRequests` puts the bounded table in front of them, and `AgentInterleaving` lets requests overlap
  under the two kinds of lock.
- **Signed update and rollback** (`UpdateManifest`, `ManagerVersions`, `Rollout`, `UpdateRecovery`,
  `RecoveryProtocol`, `HealthyUpdate`, `RollbackOutcome`, `UpdateCoordinator`, `UpdateOutcomes`). The
  recovery record is followed across arbitrary boots, crashes and failing file operations, up to whether
  a rollback ever happens; the coordinator's lock regions interleave in any order.
- **Configuration transaction** (`ConfigBackup`, `ConfigTransaction`, `SampleConfig`, `ConfigStore`,
  `SampleCodec`). Checkpoint, mutation, validation and rollback over files, where any step can fail and a
  crash can fall between any two.
- **Gateway ownership and the scheduled task** (`GatewayOwnership`, `ScheduledTask`, `Unicode`,
  `TaskEncoding`, `Xml`, `TaskXml`, `TaskReading`, `TaskRoundTrip`). An ownership flag raced over by
  unlocked status calls, and a registration protocol over a store that others edit, with the document
  codec underneath.
- **Stream and orders** (`EventStream`, `EventReader`, `PageVersions`, `Decimal`). Event framing against
  the page's incremental reader under any fragmentation, and the page's version order.

Code that works by changing things in place is a class or a method with loops, proved against a
specification function; what the program promises is then proved about that function, or about logs of
events that `Runs` follows through every run.

## Where the documentation and the code differ

The model follows the code. `AgentBudget.HistoryCanExceedEighty` contradicts the limit of 80 messages in
`internal/manageragent/DESIGN.md`. `RollbackOutcome.FourthAttemptIsFinal`,
`RollbackOutcome.InterruptedRollbackStays` and `RollbackOutcome.InstallingWaitsForTarget` contradict the
bounded rollback of `internal/managerupdate/README.md` and the continued counting of its `DESIGN.md`;
`FourthAttemptReached`, `InterruptedRollbackReached` and `WaitingReached` are runs that get there, and
the exact conditions are `RolledBackExactlyWhen`, `RecoveryProtocol.FourthAttempt` and
`RecoveryProtocol.LimitHolds`. That a set ownership flag means a launch after the latest clearing fails
in `GatewayOwnership.ClearingBetweenLaunchAndWrite`, and that an own launch stays owned in
`OwnershipLostToALateClearing`; `FlagMeansLaunch` and `OwnershipLostExactlyWhen` say exactly when.
`GatewayOwnership.ProbeProvenRestartIsOwned` contradicts the comment at `internal/runtime/gateway.go`
lines 195-196. `TaskRoundTrip.OtherDeclarationIsRefused` contradicts the comment at
`internal/runtime/process_control.go` lines 374-375: UTF-16 is decoded, but a document that also declares
UTF-16 is refused by the XML decoder, and `ScheduledTask.RegisteredButRefused` says what becomes of a
task that is reported so. `PageVersions.LeadingZeroExample` shows two versions that are each older than
the other. `SampleCodec.EscapingExceedsLimit` is a save whose result cannot be read, and
`EmptyFragmentLosesSlash` one that is read differently; `ConfigStore.SavedIsReadExactlyWhen` says that
there is no third way.

## Model

| member | source | states |
|---|---|---|
| `AgentModel.ValidateModelMessage` | internal/manageragent/model.go:322-344 | A reply is accepted, unchanged, exactly when it has at most 16 calls with distinct non-empty IDs and names within their limits; otherwise the first failing check decides the error |
| `AgentModel.CheckCalls` | internal/manageragent/model.go:331-342 | The loop over the calls stops at the first one that is malformed or reuses an earlier ID |
| `AgentModel.ResponsesInput` | internal/manageragent/model.go:291-320 | The nested loops produce, message by message, the stored raw items or the text, call and output items |
| `AgentResponses.InputPairs` | internal/manageragent/model.go:291-320 | For a history without stored raw items, every output item follows its own call and the calls without an output are those the history leaves unanswered, in order |
| `AgentResponses.InputKeepsEverything` | internal/manageragent/model.go:291-320 | For such a history the input holds every text with its role, every call with its name and arguments, and every output, in order and nothing else of these |
| `AgentHistory.ScanIsPairing` | internal/manageragent/engine.go:345-388 | The one-pass scan accepts exactly the histories in which each assistant message with calls is followed by one result per call, in call order and with the same ID, before anything else |
| `AgentHistory.BatchPairs` | internal/manageragent/engine.go:345-388 | A batch answers its calls in order and leaves unanswered exactly the suspended call and those behind it |
| `AgentHistory.CompactionPairs` | internal/manageragent/engine.go:483-495 | Compaction keeps the pairing, because it cuts only at a user message and a user message has no unanswered call before it |
| `AgentHistory.OperationPairs` | internal/manageragent/engine.go:166-238 | A turn or an approval keeps the history paired exactly when no random approval ID was refused during it |
| `AgentHistory.LifePairs` | internal/manageragent/engine.go:166-238 | Over every run of turns and approvals in which no ID is refused, calls and results are paired and the only open calls are the pending one and those behind it |
| `AgentAnswers.BatchTells` | internal/manageragent/engine.go:345-388 | A batch answers its calls one by one, each by what became of it, shows a step for each, runs exactly the free ones, and stops at the first that needs approval, suspended with the calls behind it or failed for want of an ID |
| `AgentAnswers.TurnTells` | internal/manageragent/engine.go:166-189 | A turn, error by error and round by round, by the answers of model, tools and random IDs alone: what joins the history, what is shown, and how it ends, up to the thirteenth call |
| `AgentAnswers.ResolveTells` | internal/manageragent/engine.go:195-249 | An approval in the same way: the settled call, the rest of its batch, the rounds, and the fixed summary exactly when these fail |
| `AgentAnswers.ReplyIsLastMessage` | internal/manageragent/engine.go:257-343 | Over every operation a text reply is the trimmed content of the last message of the session, an assistant message without calls, and is not empty |
| `AgentAnswers.PlainAnswer` | internal/manageragent/engine.go:171-280 | When the model answers at once with usable text the turn succeeds with exactly that text, and the history gains the trimmed message and the reply |
| `AgentTruth.HistoryIsGenuine` | internal/manageragent/engine.go:166-388 | Over every run every user message was asked, every assistant message is a reply of the model to a logged call, and every tool message answers, by position, a call of the message before it and tells what became of it |
| `AgentTruth.AnswerNamesItsCall` | internal/manageragent/engine.go:345-388 | In such a history a result's ID names one call of its message, the one it stands for |
| `AgentApproval.OperationGate` | internal/manageragent/engine.go:195-238 | One operation keeps the approval gate, and grants one execution, of the pending call, exactly when it resolves that approval with approved true |
| `AgentApproval.LifeGate` | internal/manageragent/engine.go:166-238 | The gate holds in every state of every run |
| `AgentApproval.LoggedBy` | internal/manageragent/engine.go:166-238 | Every event of a run was logged by one identifiable operation |
| `AgentApproval.ExecutionNeedsItsApproval` | internal/manageragent/engine.go:195-238 | Every execution of a tool that needs approval happens inside a resolve call with approved true whose ID is the pending approval, right after that resolution and its suspension |
| `AgentApproval.SuspensionRunsAtMostOnce` | internal/manageragent/engine.go:353-387 | Nothing follows a suspension but its resolution; an approved call runs once and then never again, a denied one never |
| `AgentBudget.TurnBudget` | internal/manageragent/engine.go:257-343 | One turn makes at most 13 model calls and 192 tool executions |
| `AgentBudget.ResolveBudget` | internal/manageragent/engine.go:195-238 | One approval resolution makes at most 13 model calls and 208 tool executions |
| `AgentBudget.LifeSmallPending` | internal/manageragent/engine.go:345-388 | In every reachable state the calls behind a suspended one are few enough for those bounds |
| `AgentBudget.CompactionBound` | internal/manageragent/engine.go:483-495 | A longer history is cut to at most 80 messages starting at a user message exactly when one is among its last 80, and otherwise not at all; what remains is always the newest part |
| `AgentBudget.DoneIsSettled` | internal/manageragent/engine.go:166-238 | After every response marked done nothing is pending and the history has at most 80 messages or no user message among its last 80 |
| `AgentBudget.HistoryCanExceedEighty` | internal/manageragent/engine.go:483-495 | A first turn can end, marked done, with 97 messages in the history, against the documented limit of 80 |
| `AgentBudget.BusyModelExists` | internal/manageragent/engine.go:257-343 | Such a model reply and environment exist: seven unknown tools in every round, all acceptable |
| `AgentBudget.SummariesTellTheTruth` | internal/manageragent/engine.go:195-249 | Resolving the pending approval always answers, its first step tells whether the tool ran and succeeded, and a fixed summary never contradicts it |
| `AgentSession.AgentSession.constructor` | internal/manageragent/engine.go:95-100 | A new session has no messages and nothing pending |
| `AgentSession.AgentSession.Compact` | internal/manageragent/engine.go:483-495 | The backward search and the cut leave what the compaction function says |
| `AgentSession.AgentSession.HandleCall` | internal/manageragent/engine.go:353-387 | One call is answered, executed, suspended or refused an ID, in place, as the specification says |
| `AgentSession.AgentSession.ProcessCalls` | internal/manageragent/engine.go:345-388 | The loop over a batch ends where the specification of the whole batch ends |
| `AgentSession.AgentSession.Complete` | internal/manageragent/engine.go:257-289 | One model call is logged and gives a reply only if the client accepts it |
| `AgentSession.AgentSession.Continue` | internal/manageragent/engine.go:257-289 | The round loop in place refines the recursive rounds, whose course AgentAnswers.ContinueTells gives |
| `AgentAnswers.ContinueTells` | internal/manageragent/engine.go:257-343 | Full rounds, each with a usable reply and all its calls answered, and then one end: no usable reply, blank text, text, a pause, a refused ID, or after twelve the call without tools |
| `AgentSession.AgentSession.FinalizeAtRoundLimit` | internal/manageragent/engine.go:291-343 | The thirteenth call runs without tools and any unusable answer becomes the fixed summary |
| `AgentSession.AgentSession.Turn` | internal/manageragent/engine.go:171-184 | A turn in place, on a session already found, refines the specified turn, whose every outcome AgentAnswers.TurnTells gives |
| `AgentSession.AgentSession.ApprovalFallback` | internal/manageragent/engine.go:240-249 | The summary when the model fails after an approval |
| `AgentSession.AgentSession.Settle` | internal/manageragent/engine.go:195-226 | The pending call is taken, executed or denied, and answered |
| `AgentSession.AgentSession.Resume` | internal/manageragent/engine.go:226-238 | The calls behind the settled one go on, then the rounds |
| `AgentSession.AgentSession.ResolveApproval` | internal/manageragent/engine.go:195-238 | A resolution in place refines the specified one; an ID that does not match changes nothing |
| `SessionTable.Sessions.PruneExpired` | internal/manageragent/engine.go:460-467 | The loop removes exactly the sessions older than six hours |
| `SessionTable.Sessions.OldestSession` | internal/manageragent/engine.go:469-481 | The scan with the empty string as its sentinel finds a session no newer than any other, because no key is empty |
| `SessionTable.Sessions.EvictForNewSession` | internal/manageragent/engine.go:469-481 | Fewer than 32 sessions stay, no more go than must, and each that goes is no newer than every survivor |
| `SessionTable.Sessions.Session` | internal/manageragent/engine.go:431-451 | Looking up a live session removes only expired ones; an unknown or empty ID makes room and enters |
| `SessionTable.Sessions.SessionExisting` | internal/manageragent/engine.go:453-458 | Looking up for an approval never creates and removes only expired sessions |
| `SessionTable.Sessions.Reset` | internal/manageragent/engine.go:251-255 | Resetting removes that session and no other |
| `SessionTable.TableStaysBounded` | internal/manageragent/engine.go:431-481 | Over every run the table holds at most 32 sessions and no empty key |
| `SessionTable.OnlyExpiredOrCrowdedOut` | internal/manageragent/engine.go:431-481 | A live session loses its place only when 32 are live and only if no survivor is older |
| `AgentRequests.Engine.FindOld` | internal/manageragent/engine.go:431-451 | Looking up a session drops the expired ones and changes no other |
| `AgentRequests.Engine.FindNew` | internal/manageragent/engine.go:431-446 | A new session enters, under the random ID, once room is made; without an ID nothing enters |
| `AgentRequests.Engine.Turn` | internal/manageragent/engine.go:166-189 | The whole call when no other request comes between: an invalid message touches nothing, an unknown ID fails, and a new session stays only if its turn succeeds |
| `AgentRequests.Engine.ResolveApproval` | internal/manageragent/engine.go:195-238 | The whole call when no other request comes between: the lookup, then the resolution of that session and of no other |
| `AgentRequests.FailedFirstTurnLeavesNothing` | internal/manageragent/engine.go:185-187 | After a failed turn without an ID every session there is was there before, unchanged |
| `AgentRequests.OldSessionStays` | internal/manageragent/engine.go:171-189 | A turn that no other request meets never loses its own session, failed or not, unless it had expired, and changes no other |
| `AgentInterleaving.TurnAlone` | internal/manageragent/engine.go:166-189 | What the whole turn does is what its steps under the two locks do when no other request comes between them |
| `AgentInterleaving.ResolveAlone` | internal/manageragent/engine.go:195-238 | And so for an approval |
| `AgentInterleaving.EverySessionLives` | internal/manageragent/engine.go:166-255 | Under every interleaving of lookups, operations, expiries, evictions and resets the table holds at most 32 sessions, and every session, in the table or gone from it, is the end of a life of its own, with calls and results paired unless an ID was refused in it |
| `AgentInterleaving.OneAtATime` | internal/manageragent/engine.go:171-189 | Two operations are never at work on one session |
| `AgentInterleaving.LostOnlyWhen` | internal/manageragent/engine.go:431-481 | Under every interleaving an ID loses its session only to a reset of it, to the undoing of a failed first turn under it, or to a lookup that finds it expired, or needs its room with 32 live and none that stays older, or draws its ID |
| `AgentInterleaving.ExpiredAreDropped` | internal/manageragent/engine.go:431-467 | A lookup by ID leaves in the table exactly the sessions updated within six hours |
| `AgentInterleaving.FailedFirstTurnStaysOut` | internal/manageragent/engine.go:185-187 | The session of a failed first turn, once taken out, is never in the table again |
| `AgentInterleaving.TurnOutlivesItsSession` | internal/manageragent/engine.go:166-189 | From nothing, a turn succeeds and is answered although its session was reset while it waited |
| `ManagerVersions.CompareVersions` | internal/managerupdate/manifest.go:193-216 | The three-step comparison gives the lexicographic order of the parsed triples, or an error when either string is not a version |
| `ManagerVersions.NewerIsStrictTotalOrder` | internal/managerupdate/manifest.go:193-216 | The order is irreflexive, antisymmetric, transitive and total, and 0 exactly for identical strings |
| `ManagerVersions.NewerIsHeavier` | internal/managerupdate/manifest.go:193-216 | Newer is greater as one number with the parts as digits to the base 10^9 |
| `ManagerVersions.VersionIsThreeNumerals` | internal/managerupdate/manifest.go:193-216 | A version is three numerals without leading zeros, of at most nine digits, with dots between, and its parts are their values |
| `ManagerVersions.SamePartsSameVersion` | internal/managerupdate/manifest.go:193-216 | Two version strings with equal parsed triples are the same string |
| `ManagerVersions.PartsAreSmall` | internal/managerupdate/manifest.go:193-216 | Every parsed part is below 10^9, so 64-bit parsing never fails on a version |
| `Decimal.CanonicalInjective` | internal/managerupdate/manifest.go:193-216 | Reading numerals without leading zeros is injective |
| `Rollout.Eligible` | internal/managerupdate/manifest.go:218-235 | Eligibility errors exactly on a bad seed or identity of an active rollout, and the shortcut at 10,000 agrees with the general rule |
| `Rollout.WideningKeepsEveryone` | internal/managerupdate/manifest.go:218-235 | Raising the basis points takes the release away from nobody |
| `Rollout.SelectedPrefixes` | internal/managerupdate/manifest.go:218-235 | At b basis points exactly b*429496 + min(b, 7296) of the 2^32 hash prefixes are eligible |
| `UpdateRecovery.RecoveryStore.Read` | internal/managerupdate/state.go:103-142 | What a read makes of an absent, unparsable, ill-formed or well-formed record |
| `UpdateRecovery.RecoveryStore.Prepare` | internal/managerupdate/state.go:56-101 | All checks in order, and a write only where nothing was recorded |
| `UpdateRecovery.RecoveryStore.RecordTargetStartup` | internal/managerupdate/state.go:153-175 | A target start is counted, the previous version ends a rollback, anything else is refused |
| `UpdateRecovery.RecoveryStore.BeginRollback` | internal/managerupdate/state.go:177-188 | The phase and its reason are rewritten and nothing else |
| `UpdateRecovery.RecoveryStore.MarkHealthy` | internal/managerupdate/state.go:190-205 | The record is removed for a healthy target in the middle of its installation, as HealthyUpdate.HealthyExactly says |
| `HealthyUpdate.HealthyExactly` | internal/managerupdate/state.go:190-205 | Exactly a healthy target in the middle of its installation is cleared; no record is no error; in every other case the file stays and the caller is told |
| `HealthyUpdate.StartExactly` | internal/managerupdate/state.go:153-175 | Exactly what a recorded start does: counts, ends a rollback, finds nothing, or changes nothing and fails |
| `HealthyUpdate.BeginExactly` | internal/managerupdate/state.go:177-188 | A rollback begins exactly on a readable record, and changes its phase and reason only |
| `HealthyUpdate.PrepareExactly` | internal/managerupdate/state.go:56-101 | An update is prepared exactly when nothing is on record and it may be prepared, and the record is the one of the request |
| `HealthyUpdate.HealthyTargetIsCleared` | internal/managerupdate/coordinator.go:181-221 | In every run a working health window of a watching target ends with the record gone and logged as cleared |
| `HealthyUpdate.PreviousVersionEndsRollback` | internal/managerupdate/state.go:161-169 | In every run a working start of the previous version under a rollback ends with the record gone |
| `HealthyUpdate.HealthyIsNeverRolledBack` | internal/managerupdate/coordinator.go:181-221 | A target whose health window passes on each of its starts is never rolled back, whatever else crashes or fails |
| `RecoveryProtocol.RecoverOnStartup` | internal/managerupdate/coordinator.go:181-221 | The start-up method is the four protocol steps in order, stopping at the first error |
| `RecoveryProtocol.HistoryConsistent` | internal/managerupdate/coordinator.go:181-221 | Over every run of boots, crashes, faults and steps the record is what the events since the last Prepare add up to, and every event happened when it may |
| `RecoveryProtocol.FileSincePrepare` | internal/managerupdate/state.go:56-205 | Whenever a record is on disk it is the one of the last Prepare, never cleared since, unchanged but for phase and reason, with its attempts equal to the recorded target starts |
| `RecoveryProtocol.ClearedOnlyByRight` | internal/managerupdate/state.go:153-205 | The record is cleared only by a healthy target in phase installing or by the previous version in phase rollback |
| `RecoveryProtocol.RollbackOnlyAfterThreeStarts` | internal/managerupdate/coordinator.go:192-204 | A rollback launch starts the recorded previous installer, on the third recorded start, right after it was verified and the phase reached the disk |
| `RecoveryProtocol.FourthAttempt` | internal/managerupdate/state.go:153-175 | The limit of three is passed exactly when a target start is recorded while three are recorded and no rollback has begun |
| `RecoveryProtocol.LimitHolds` | internal/managerupdate/state.go:153-175 | A run never records a fourth start exactly as long as no target start is read and written while three are recorded and no rollback has begun |
| `RecoveryProtocol.EveryStartCounts` | internal/managerupdate/state.go:153-175 | Each recorded start uses up one of three, and exactly the one that leaves none orders the rollback |
| `RollbackOutcome.FourthAttemptIsFinal` | internal/managerupdate/state.go:103-142 | After a fourth recorded start, over every continuation of every run, the record stays as it is and nothing is recorded, rolled back, cleared or prepared again, against the documented bounded rollback |
| `RollbackOutcome.InterruptedRollbackStays` | internal/managerupdate/state.go:161-169 | Over every continuation a rollback that reached the disk but was not launched by the same process is never launched: nothing changes until the previous version, started by other means, clears it |
| `RollbackOutcome.InstallingWaitsForTarget` | internal/managerupdate/state.go:161-169 | Over every run, until the target is booted, an update on record is neither counted, cleared nor replaced, against the documented counting after a failed installer |
| `RollbackOutcome.RolledBackExactlyWhen` | internal/managerupdate/coordinator.go:192-204 | From a third recorded start on, until the previous version clears the record, the rollback installer has been launched exactly if the process of that start verified it, wrote the phase and launched it without a crash or failure in between |
| `RollbackOutcome.FourthAttemptReached` | internal/managerupdate/coordinator.go:192-204 | From nothing, for every acceptable update: whether the third start crashes, fails to verify or fails to write, a run reaches the fourth recorded start |
| `RollbackOutcome.InterruptedRollbackReached` | internal/managerupdate/coordinator.go:192-204 | From nothing, a run reaches a rollback on disk with no process to launch it |
| `RollbackOutcome.WaitingReached` | internal/managerupdate/state.go:161-169 | From nothing, a run reaches an update being installed met by the previous version |
| `RollbackOutcome.AcceptedRequestExists` | internal/managerupdate/state.go:56-101 | There are updates that Prepare accepts, so those runs exist |
| `UpdateCoordinator.Coordinator.CommitRefresh` | internal/managerupdate/coordinator.go:86-110 | The refresh region replaces candidate, path, state and error, or on failure only state and error |
| `UpdateCoordinator.Coordinator.CommitDownload` | internal/managerupdate/coordinator.go:122-134 | The download region stores the path whatever candidate is current by then |
| `UpdateCoordinator.Coordinator.Fail` | internal/managerupdate/coordinator.go:223-229 | A failure changes only state and error |
| `UpdateCoordinator.Coordinator.CommitApply` | internal/managerupdate/coordinator.go:166-170 | The end of Apply changes only state and error |
| `UpdateCoordinator.Coordinator.Download` | internal/managerupdate/coordinator.go:112-134 | A download with no other call in between changes the shared fields and the disk as its steps say |
| `UpdateCoordinator.InstallerFetched` | internal/managerupdate/client.go:161-228 | A download that succeeds leaves the very file of the manifest at its path, and every file that was there is left alone |
| `UpdateCoordinator.DownloadIsItsSteps` | internal/managerupdate/coordinator.go:112-134 | A whole Download is its lock regions and client steps, from any state of the other calls |
| `UpdateCoordinator.Coordinator.Apply` | internal/managerupdate/coordinator.go:136-175 | An Apply with no other call in between: checked, prepared, handed over, in that order, stopping at the first failure |
| `UpdateCoordinator.ApplyIsItsSteps` | internal/managerupdate/coordinator.go:136-175 | A whole Apply is its lock regions and the steps between them, from any state of the other calls |
| `UpdateCoordinator.CheckOffers` | internal/managerupdate/client.go:67-92 | What Check calls available and eligible is signed, of the asked channel, strictly newer and selected by its rollout |
| `UpdateOutcomes.RefreshExactly` | internal/managerupdate/coordinator.go:86-110 | What a refresh leaves, by the answer alone: available exactly when newer and selected, rollout_pending exactly when newer and not selected, current for any other good answer, and otherwise the candidate stays |
| `UpdateOutcomes.SelectedReleaseIsOffered` | internal/managerupdate/client.go:66-93 | A signed newer release on the channel whose rollout has reached this machine is ready, and the state is available |
| `UpdateOutcomes.DownloadExactly` | internal/managerupdate/coordinator.go:112-134 | A confirmed download of a ready candidate ends ready exactly when its installer was there, or nothing was and the very bytes came; otherwise no file changes |
| `UpdateOutcomes.ApplyExactly` | internal/managerupdate/coordinator.go:136-179 | An Apply hands over exactly when it was asked to, the way back is there, the update may be prepared and nothing was on record; otherwise it says where it stopped |
| `UpdateOutcomes.UpdateGoesThrough` | internal/managerupdate/coordinator.go:86-179 | With nothing in the way an update is found, downloaded and handed over, its record on disk |
| `UpdateOutcomes.UpdateExists` | internal/managerupdate/coordinator.go:86-179 | Such an update there is, on either channel |
| `UpdateCoordinator.PrepareWrites` | internal/managerupdate/state.go:56-101 | Prepare writes only over no record, and then the record names the request and the file matches its manifest |
| `UpdateCoordinator.LaunchesAreSound` | internal/managerupdate/coordinator.go:86-175 | Under every interleaving at most one installer is handed over per process; its candidate is signed, selected and strictly newer, and the pending record names that candidate and file then and ever after |
| `UpdateCoordinator.RecordBlocksApply` | internal/managerupdate/coordinator.go:154-162 | With another version's update on record the process hands over nothing |
| `UpdateCoordinator.NoSecondChance` | internal/managerupdate/coordinator.go:154-165 | After one hand-over, started or failed, no later step of any interleaving hands over anything or changes the record |
| `UpdateCoordinator.SpoiledOnlyByReplacing` | internal/managerupdate/client.go:161-228 | A verified file stops matching exactly when another program writes it differently or a download renames a different release of the same file name over it |
| `UpdateCoordinator.LaunchesAreGenuine` | internal/managerupdate/coordinator.go:136-175 | Where nothing replaces a prepared file before its launch, every installer handed over matches the signed manifest of the taken candidate |
| `UpdateCoordinator.ReadyWithAnotherFile` | internal/managerupdate/coordinator.go:122-134 | A download that ends after a refresh reports the new candidate ready with the old one's file |
| `UpdateCoordinator.AnotherFileIsRefused` | internal/managerupdate/state.go:76-81 | Apply then prepares nothing unless that file is the new candidate's own |
| `ConfigBackup.Manager.ReadActive` | internal/configbackup/manager.go:262-274 | Only a regular file within the limit is read, and always when nothing fails |
| `ConfigBackup.Manager.WriteBackup` | internal/configbackup/manager.go:309-337 | Content, then metadata, under an unused ID; on failure no metadata appears |
| `ConfigBackup.Manager.Commit` | internal/configbackup/manager.go:379-412 | A rename or removal happens whole or not at all and is recorded in order |
| `ConfigBackup.Manager.Backup` | internal/configbackup/manager.go:115-121 | A successful snapshot holds exactly the active bytes and the active file is untouched |
| `ConfigBackup.Manager.ReadBackup` | internal/configbackup/manager.go:276-295 | A backup is read exactly when its metadata and content are intact |
| `ConfigBackup.Manager.Validate` | internal/configbackup/manager.go:339-360 | The candidate is written aside and accepted only by the validator's word |
| `ConfigBackup.Manager.ValidateActive` | internal/configbackup/manager.go:143-160 | Success means the active bytes exist and were accepted |
| `ConfigBackup.Manager.BeginMutation` | internal/configbackup/manager.go:126-139 | A checkpoint from which the present state can be put back; without faults exactly for an absent or readable file |
| `ConfigBackup.Manager.SaveActive` | internal/configbackup/manager.go:201-214 | What a restore replaces is saved first, or known to be absent |
| `ConfigBackup.Manager.ReadyToRestore` | internal/configbackup/manager.go:193-226 | Up to the rename the configuration is untouched and candidate and replaced bytes are in the store |
| `ConfigBackup.Manager.Restore` | internal/configbackup/manager.go:193-231 | Success puts back the whole validated backup with a safety copy of what it replaced; failure leaves the configuration as it was |
| `ConfigBackup.Manager.RollbackMutation` | internal/configbackup/manager.go:164-189 | Success restores the checkpoint's state byte for byte, absence included; it happens whenever nothing fails and the checkpoint is still acceptable |
| `ConfigBackup.KeptExactlyWhenUnused` | internal/configbackup/manager.go:309-341 | Writing content under an ID leaves earlier backups as they were exactly when none has that ID and other bytes |
| `ConfigBackup.SnapshotsAreKept` | internal/configbackup/manager.go:193-337 | Over any run with crashes between any two file steps no earlier snapshot is removed or changed |
| `ConfigBackup.MetadataIsNeverAlone` | internal/configbackup/manager.go:309-337 | Every metadata file written has its content, with matching length and digest |
| `ConfigBackup.ActiveComesFrom` | internal/configbackup/manager.go:193-231 | The configuration is only ever a mutation's result, nothing, or an intact validated backup |
| `ConfigBackup.CrashDuringRestore` | internal/configbackup/manager.go:193-231 | Cut short anywhere, a restore leaves the old configuration or the whole backup |
| `ConfigBackup.SafetyBackupHoldsReplaced` | internal/configbackup/manager.go:201-231 | Whatever happens later, a restore's safety backup holds exactly the bytes it replaced |
| `ConfigTransaction.MutateAndValidate` | internal/httpapi/manage.go:113-120 | Mutation and validation: success means the new configuration exists and was accepted |
| `ConfigTransaction.RollBack` | internal/configbackup/manager.go:164-189 | The rollback of a transaction puts the former configuration back exactly when nothing fails, it is still acceptable and what replaced it can be saved or removed |
| `ConfigTransaction.RunConfigMutation` | internal/httpapi/manage.go:97-149 | The management transaction meets the specification, its response tells the outcome, and without faults and with a steady validator the outcome is the decision function of the three configurations |
| `ConfigTransaction.RunRepairTransaction` | internal/httpapi/agent.go:178-218 | The repair transaction, a body of its own, meets the same specification and the same decision function |
| `SampleConfig.SampleIsFresh` | internal/configbackup/manager.go:414-420 | Counting upward gives fresh IDs for all 16^32 draws on an empty store, so the assumption on IDs can be met |
| `SampleConfig.TwoTransactions` | internal/httpapi/manage.go:97-149 | From any configuration, with any two mutations and any validator, both transactions run one after the other in such a store, and each ends, in response and configuration, as its decision says |
| `ConfigTransaction.ResponseMeans` | internal/httpapi/manage.go:97-149 | Status 200 means a validated configuration, rolled_back means exactly the former one or absence, 500 means its checkpoint is still intact in the store |
| `ConfigTransaction.StuckExactlyWhen` | internal/configbackup/manager.go:164-231 | Without faults the client sees 200, or 500, exactly in the cases named by the configurations and the validator; after 500 the change stays in place and the store still holds what was there before |
| `ConfigTransaction.MutationResponse` | internal/httpapi/manage.go:110-148 | Status and flags tell the four outcomes apart |
| `ConfigTransaction.RepairResponse` | internal/httpapi/agent.go:184-217 | The same for a repair |
| `ConfigTransaction.CodesTellErrors` | internal/httpapi/manage.go:97-149 | What was wrong before anything changed can be told from the code |
| `ConfigStore.Store.SaveWithProtocol` | internal/manageragent/config.go:90-136 | Both stores change or neither does; the one exception needs two failures; without faults it succeeds exactly on acceptable input |
| `ConfigStore.Store.Delete` | internal/manageragent/config.go:143-160 | Both stores are emptied or neither is, unless the compensating write fails too |
| `ConfigStore.Store.Credentials` | internal/manageragent/config.go:68-84 | What is returned is what both stores say |
| `ConfigStore.Store.RestoreOptionalFile` | internal/manageragent/config.go:249-257 | The former file, or its absence, is put back |
| `ConfigStore.WantedExactly` | internal/manageragent/config.go:90-136 | A save is taken exactly when address, model, protocol and key may be saved, and then with the printed address, the trimmed model and the protocol that was named |
| `ConfigStore.CredentialsExactly` | internal/manageragent/config.go:68-84 | Credentials are given out exactly when both stores hold usable ones, and which |
| `Text.TrimExactly` | internal/manageragent/config.go:206-220 | Trimming takes away all the space at both ends and nothing else |
| `ConfigStore.SavedIsRead` | internal/manageragent/config.go:162-191 | After a save the credentials are the saved ones with the new or kept key exactly when the stored address is read back as itself |
| `ConfigStore.SavedIsReadAs` | internal/manageragent/config.go:162-220 | What the credentials are after every successful save: a file or address too long, or the saved configuration with its printed address trimmed |
| `ConfigStore.SavedIsReadExactlyWhen` | internal/manageragent/config.go:206-220 | A saved configuration is read as saved exactly when its printed address ends in no slash or space and is within the limit that was checked before printing |
| `SampleCodec.SampleIsLawful` | internal/manageragent/config.go:206-220 | A codec exists that meets every assumption of these two |
| `SampleCodec.EmptyFragmentLosesSlash` | internal/manageragent/config.go:206-220 | https://h/# is saved as https://h/ and read as https://h |
| `SampleCodec.EscapingExceedsLimit` | internal/manageragent/config.go:206-220 | An address with 340 to 1019 accented letters is saved, and cannot be read back |
| `ConfigStore.DeletedIsNotConfigured` | internal/manageragent/config.go:68-84 | After a delete there is nothing to use |
| `GatewayOwnership.StatusOf` | internal/runtime/gateway.go:547-595 | A status is managed only for a running Gateway that is flagged or probe-proven |
| `GatewayOwnership.Judge` | internal/runtime/gateway.go:458-533 | A command goes ahead only with confirmation and on the Gateway state it needs |
| `GatewayOwnership.StatusExactly` | internal/runtime/gateway.go:547-595 | State, running, managed and proven by the observation, the flag and the probe alone |
| `GatewayOwnership.JudgeExactly` | internal/runtime/gateway.go:458-533 | By what was observed a call reaches OpenClaw exactly when confirmed, the state is known and the command applies; every other call has nothing to do or its own refusal |
| `GatewayOwnership.RestOfCall` | internal/runtime/gateway.go:458-533 | In the machine, too, a call that is left alone does exactly its events and lets the lock go |
| `GatewayOwnership.CommandsAreConfirmed` | internal/runtime/gateway.go:458-533 | Under every interleaving a command reaches OpenClaw only inside a confirmed control call for it, as that call's only one |
| `GatewayOwnership.TaskChangesAreConfirmed` | internal/runtime/gateway.go:398-444 | Under every interleaving the autostart task is changed only inside a confirmed call for that change, as its one event after the inspection |
| `GatewayOwnership.HooksBracketLaunches` | internal/runtime/gateway.go:484-518 | The opening hook, the launch and the closing hook with its result follow one another with nothing but status clearings between |
| `GatewayOwnership.HooksOnlyForLaunches` | internal/runtime/gateway.go:484-518 | No hook runs except for a launch that follows |
| `GatewayOwnership.HistoryConsistent` | internal/runtime/gateway.go:398-626 | In every interleaving of control calls, task enrolments and status calls the flag is the last write and every event happened when it may |
| `GatewayOwnership.FlagMeansLaunch` | internal/runtime/gateway.go:398-561 | Whenever the flag is set and no write is due, the last successful command is a confirmed launch of a stopped Gateway or a restart of a flagged or proven one, its own write set the flag, and every clearing since the launch is a status call's between the two; so the launch is later than the latest clearing exactly when none fell there |
| `GatewayOwnership.OnlyAnOwnLaunchSetsTheFlag` | internal/runtime/gateway.go:490-524 | Only a control call's write after such a launch sets the flag; every other step leaves or clears it |
| `GatewayOwnership.ClearingBetweenLaunchAndWrite` | internal/runtime/gateway.go:547-561 | From nothing, a run reaches a set flag whose launch is older than the latest clearing |
| `GatewayOwnership.OwnershipLostExactlyWhen` | internal/runtime/gateway.go:547-561 | After an own launch the flag is gone exactly when something cleared it after the write; if the Gateway stayed up, exactly when a status call that was told before the launch that nothing runs did |
| `GatewayOwnership.OwnershipLostToALateClearing` | internal/runtime/gateway.go:557-561 | From nothing, a run ends with the Manager taking the Gateway it started for an external one |
| `GatewayOwnership.ProbeProvenRestartIsOwned` | internal/runtime/gateway.go:515-524 | A confirmed restart of a probe-proven Gateway sets the flag, against the comment at lines 195-196 |
| `GatewayOwnership.CallIsLawful` | internal/runtime/gateway.go:458-533 | A whole control call is a lawful sequence of events |
| `GatewayOwnership.EnrolmentIsLawful` | internal/runtime/gateway.go:398-444 | A whole call that enrols or removes the task is a lawful sequence of events |
| `GatewayOwnership.GatewayManager.Inspect` | internal/runtime/gateway.go:547-595 | An inspection only ever clears the flag, whatever status calls do meanwhile |
| `GatewayOwnership.GatewayManager.ControlGateway` | internal/runtime/gateway.go:458-533 | The command runs exactly when the call reaches OpenClaw by what was observed, with its hooks and its write; every other call is answered with the status or its own refusal; undisturbed, the flag is the write unless the second inspection finds nothing running |
| `GatewayOwnership.GatewayManager.ChangeEnrolment` | internal/runtime/gateway.go:398-444 | Enrolling or removing the task performs exactly the events of its policy, needs confirmation and never sets the flag |
| `Unicode.DecodeEncoded` | internal/runtime/process_control.go:464-466 | UTF-8 decoding undoes encoding |
| `Unicode.EncodeDecoded` | internal/runtime/process_control.go:464-466 | Only the shortest forms decode |
| `Unicode.DecodeUnits` | internal/runtime/process_control.go:433-441 | UTF-16 decoding undoes encoding |
| `Unicode.Utf16Growth` | internal/runtime/process_control.go:433-441 | Two bytes of UTF-16 become at most three of UTF-8 |
| `TaskEncoding.NormalizeScheduledTaskXML` | internal/runtime/process_control.go:420-468 | The loops over the buffers compute the normalisation function |
| `TaskEncoding.AcceptedIsPlain` | internal/runtime/process_control.go:420-468 | Every accepted input yields NUL-free valid UTF-8, at most 9/4 as long |
| `TaskEncoding.EncodingsAgree` | internal/runtime/process_control.go:420-468 | UTF-8 with or without mark and both marked UTF-16 forms of a text come to the same UTF-8 |
| `TaskEncoding.UnmarkedUtf16` | internal/runtime/process_control.go:443-466 | UTF-16 without its mark is read exactly when the second character is below U+0100 |
| `Xml.UnescapeEscaped` | internal/runtime/process_control.go:515-518 | Escaping then unescaping is the identity on XML text and keeps everything XML can hold |
| `Xml.EscapedHasNoMarkup` | internal/runtime/process_control.go:515-518 | No escaped command can open or close an element |
| `Xml.ReadPrinted` | internal/runtime/process_control.go:396-408 | Any printable tree is read back element by element and text by text |
| `TaskRoundTrip.DocumentIsRead` | internal/runtime/process_control.go:377-418 | The built document is read as exactly the fixed path, marker and arguments and the command |
| `TaskRoundTrip.DocumentIsReadAsKept` | internal/runtime/process_control.go:515-551 | For any command it is read as what XML keeps of the command |
| `TaskRoundTrip.BuildsExactly` | internal/runtime/process_control.go:511-561 | Building succeeds exactly for commands of the action contract made of XML characters within the size limit, and the result is read as that command |
| `TaskRoundTrip.FormsAreReadAlike` | internal/runtime/process_control.go:377-418 | All marked forms of a document are read alike |
| `TaskRoundTrip.OtherEncodingIsRefused` | internal/runtime/process_control.go:396-400 | A document that declares an encoding other than UTF-8 is refused |
| `TaskRoundTrip.OtherDeclarationIsRefused` | internal/runtime/process_control.go:420-468 | So is its UTF-16 form, although it is brought to UTF-8 first, against the comment at lines 374-375 |
| `TaskRoundTrip.Utf16IsOtherEncoding` | internal/runtime/process_control.go:373-376 | The declaration "UTF-16" is such a one |
| `TaskReading.TreeIsItsTokens` | internal/runtime/process_control.go:377-418 | A tree is read only from its own tags: every opening tag has its closing tag, in order, with nothing left out or added but declarations |
| `TaskReading.DefinitionExactly` | internal/runtime/process_control.go:377-418 | A Task without an Exec, or with a second one anywhere in its Actions, is refused; command and arguments are those of the one there is |
| `TaskReading.OneExecIsEnough` | internal/runtime/process_control.go:377-418 | And with just one there is a definition |
| `TaskReading.FieldIsTheLast` | internal/runtime/process_control.go:377-418 | A field is the text of the last element of its name |
| `TaskReading.ActionExactly` | internal/runtime/process_control.go:479-509 | The action is the Manager's own exactly for a trimmed absolute path on a drive whose last part is one of its two file names in any case, with the one argument |
| `TaskReading.PathExactly` | internal/runtime/process_control.go:470-477 | The task path matches up to case and the slant of its separators |
| `TaskEncoding.SizesRefused` | internal/runtime/process_control.go:420-468 | Nothing, and more than the limit, is refused whatever it holds |
| `ScheduledTask.Controller.InspectOwnership` | internal/runtime/process_control.go:188-238 | One query; ownership is LongHub exactly when the answer proves path, marker and action, external exactly when it says not found |
| `ScheduledTask.Controller.Register` | internal/runtime/process_control.go:134-142 | A task that is there is never replaced |
| `ScheduledTask.Controller.Delete` | internal/runtime/process_control.go:134-142 | Deleting removes the task at the path or fails and changes nothing |
| `ScheduledTask.Controller.EnsureScheduledTask` | internal/runtime/process_control.go:257-293 | At most ask, register where nothing was found, ask again; success only if the last query proved the identity; an invalid command touches nothing; undisturbed, the exact store and error |
| `ScheduledTask.Controller.RemoveScheduledTask` | internal/runtime/process_control.go:298-323 | A delete only after the query of the same call gave a complete proof |
| `ScheduledTask.OwnChangesOnly` | internal/runtime/process_control.go:257-323 | Whatever others do between the steps, Ensure alters no store that holds a task and Remove deletes only after proof |
| `ScheduledTask.BuiltIsProven` | internal/runtime/process_control.go:511-561 | What the Manager registers is its own proof |
| `ScheduledTask.ProvenExactly` | internal/runtime/process_control.go:188-238 | A report proves the task exactly when it can be read and has the Manager's path, marker and action |
| `ScheduledTask.RefusalExactly` | internal/runtime/process_control.go:257-323 | An unreadable report is a failed inspection, a readable one that proves nothing another owner's |
| `ScheduledTask.EnsureThenRemove` | internal/runtime/process_control.go:257-323 | Undisturbed, Ensure succeeds from absence again and again, and Remove then returns to absence |
| `ScheduledTask.EnsureIsIdempotent` | internal/runtime/process_control.go:257-293 | On any store a second Ensure changes nothing and says the same |
| `ScheduledTask.ForeignTaskStays` | internal/runtime/process_control.go:257-323 | A task that is not proven survives every sequence of both |
| `ScheduledTask.ProvenInEveryForm` | internal/runtime/process_control.go:188-238 | Proof does not depend on the reported encoding |
| `ScheduledTask.OtherDeclarationProvesNothing` | internal/runtime/process_control.go:285-292 | A host that reports documents declaring UTF-16 never yields a proof |
| `ScheduledTask.RegisteredButRefused` | internal/runtime/process_control.go:257-323 | Undisturbed and from absence, Ensure succeeds exactly when the report of what it registered proves it; if no report ever does, the task is registered, the Ensure fails, every later Ensure and Remove fails, and the task stays |
| `ScheduledTask.OtherDeclarationRefuses` | internal/runtime/process_control.go:257-323 | A host that reports the task in UTF-16 under a declaration of that encoding is such a host |
| `EventStream.StreamAgentReply` | internal/httpapi/agent_stream.go:133-157 | At most 160 non-empty pieces whose text is a prefix of the reply, all of it unless cancelled |
| `EventStream.Writer.WriteEvent` | internal/httpapi/agent_stream.go:94-108 | After one failed write nothing more is written |
| `EventStream.Writer.StreamAgentRun` | internal/httpapi/agent_stream.go:74-131 | What is written is the script of the run, or after a failed write a beginning of it |
| `EventReader.DecodesPrefix` | internal/httpapi/web/index.html:1306-1307 | Of any beginning of the bytes the decoder gives a beginning of the text and holds the rest |
| `EventReader.CutOfMore` | internal/httpapi/web/index.html:1308-1313 | Cutting at blank lines can stop and go on anywhere |
| `EventReader.CutStream` | internal/httpapi/web/index.html:1308-1313 | The server's stream cuts into exactly its frames with nothing left |
| `EventReader.EveryMoment` | internal/httpapi/web/index.html:1305-1315 | At every moment the page has handed on exactly the first few events, in order |
| `EventReader.EveryFragmentation` | internal/httpapi/web/index.html:1279-1318 | Under every fragmentation the page ends with what the written events amount to and an empty buffer |
| `EventReader.AnswerArrives` | internal/httpapi/web/index.html:1279-1318 | A whole answer arrives event by event, and the text shown is the concatenated pieces |
| `EventReader.FailureArrives` | internal/httpapi/web/index.html:1279-1318 | A run that fails arrives as its events and then the failure the server named |
| `EventReader.InterruptionIsTold` | internal/httpapi/web/index.html:1279-1318 | A stream that ends without done and without an error is told as interrupted |
| `EventReader.UnfinishedBlockCounts` | internal/httpapi/web/index.html:1279-1318 | A stream cut off before the blank line of its last frame still counts that frame |
| `EventReader.ScriptAnnounces` | internal/httpapi/agent_stream.go:74-131 | An answer is announced before its first piece, and its last event is the done with the rest |
| `EventReader.DrainBuffer` | internal/httpapi/web/index.html:1309-1313 | The inner loop consumes the blocks the cutting function gives, up to an exception |
| `EventReader.StreamAgentRequest` | internal/httpapi/web/index.html:1291-1317 | The nested loops compute the reading function |
| `PageVersions.CompareOpenClawVersions` | internal/httpapi/web/index.html:1508-1530 | The loops answer the precedence of section 11 of Semantic Versioning 2.0.0, stated over core numbers, identifiers and characters, and nothing exactly when either string does not parse |
| `PageVersions.CompareIsPrecedence` | internal/httpapi/web/index.html:1508-1530 | Cores lexicographically by number; with equal cores a release above its prereleases; otherwise the first differing identifiers, numeric by value and below the rest, the rest by character, and a proper prefix below |
| `PageVersions.ParsedIsWritten` | internal/httpapi/web/index.html:1502-1506 | What parses is a core, a prerelease and build metadata written one after the other, and its parts are what was written |
| `PageVersions.WrittenParses` | internal/httpapi/web/index.html:1502-1506 | And everything written so parses into its parts |
| `PageVersions.AntisymmetricUnlessConfused` | internal/httpapi/web/index.html:1508-1530 | For all versions swapping negates the answer exactly when the first differing identifiers are not two numerals taken for the same number |
| `PageVersions.StrictTotalOrder` | internal/httpapi/web/index.html:1508-1530 | On versions without leading zeros or unsafe integers it is antisymmetric and 0 exactly for equal core and prerelease |
| `PageVersions.Transitive` | internal/httpapi/web/index.html:1508-1530 | It is transitive, over every core the page parses and over safe identifier lists of any length |
| `PageVersions.LeadingZeroConfuses` | internal/httpapi/web/index.html:1508-1530 | Whatever the core, core-01 and core-1 both parse and each is taken for the older |
| `PageVersions.LeadingZeroExample` | internal/httpapi/web/index.html:1508-1530 | Of 1.0.0-01 and 1.0.0-1 each is taken for the older |
| `PageVersions.BuildIsIgnored` | internal/httpapi/web/index.html:1502-1506 | Build metadata changes neither parsing nor comparison |

## Left out

- Foreign calls: WebView2, tray, PowerShell, `schtasks`, the Credential Manager, npm and OpenClaw itself are arbitrary answers to the step that calls them.
- HTTP routing, authentication, headers and request decoding, and the network code of the model and update clients.
- SHA-256, Ed25519, PEM, base64, JSON and URL parsing are functions given from outside; timestamps are only valid or not.
- Sanitising and truncating tool results and error texts, and the event sink of the engine: the texts a model sees are whatever the environment says.
- ConfigBackup.Manager.WriteBackup: that the random IDs drawn before the store's `horizon` are unused and differ is assumed; a colliding draw overwrites the earlier backup (`KeptExactlyWhenUnused`). `SampleConfig.SampleIsFresh` shows stores that meet this.
- A random ID can be refused in the model of the engine, not in that of the backups, where it would only be one more failing step.
- Creation times, and the order of `List`, which compares trimmed timestamps as text.
- Temporary files a crash leaves behind: no reader ever looks at them.
- Tampering with the backup directory while a transaction holds the configuration lock.
- Two control calls at once: the action lock admits one, so the second is a call that has not begun.
- UpdateCoordinator.LaunchesAreGenuine: between Prepare and the launch the code takes no lock, so it holds for runs in which nothing replaces the prepared file; `SpoiledOnlyByReplacing` says exactly which steps those are.
- UpdateCoordinator.LaunchesAreSound: only this process writes the pending record; a second Manager process is not modelled.
- ScheduledTask.OwnChangesOnly: a task that others put in place between Remove's proof and its delete is deleted unproven; the code takes no lock there.
- ScheduledTask.EnsureThenRemove: Task Scheduler is taken to report a document that proves the same as the one it was given; `RegisteredButRefused` is the case where it does not.
- Xml.ReadPrinted: comments, CDATA sections, DOCTYPE, namespace prefixes and `>` inside attribute values are refused or not told apart, and attribute syntax is not checked, where Go's decoder does more; none of them occurs in a built document.
- TaskXml: letters are compared without case for ASCII only, which is all the fixed names hold.
- EventReader.EveryFragmentation: malformed UTF-8 and a leading byte-order mark, which the server never sends, are decoded only approximately.
- EventReader.EveryMoment: says nothing of the last unfinished block of a stream that was cut off; `UnfinishedBlockCounts` does when it is a whole frame but for its blank line.
- PageVersions: the white space that trimming removes is Go's set, which differs from the page's in two characters that no version holds.
- AgentRequests.Engine.Turn: holds each session as its value, which AgentSession shows is what the object ends with, and is the call that meets no other; AgentInterleaving has the others.
- AgentInterleaving.EverySessionLives: while an operation is at work its session's timestamp is taken to be anything, where the code only moves it forward with the clock.
- ConfigStore.SavedIsRead: that JSON gives back the strings it was given is assumed.
- ConfigStore.SavedIsReadExactlyWhen: that a printed address, once trimmed, is printed as it stands, and that JSON writes at most six bytes for one, is assumed of `net/url` and `encoding/json`.
- SampleCodec: its addresses are a table of what `net/url` prints for them, not a parser.
- `InstallPreflight`, management argument assembly, inventory and skill tables: guard chains whose claims are one-branch readings.
