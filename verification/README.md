# Verified model of the Manager's control plane

This project models the crash-recoverable parts of the Manager and its small
concurrent resource managers, and proves what holds over every run of them.
`dafny verify dfyconfig.toml` checks everything.

## What is modelled

- **Credential rotation** (`RotationSaga`, `RotationWorld`, `RotationRuns`,
  `RotationSafety`, `RotationLoop`, `RotationGrants`, `RotationTheorems`,
  `RotationProgress`, `RotationRace`, `RotationExamples`): journal, registry row,
  credential store, the Agent's own view of its credentials, requests in flight and any
  number of recovery workers, as a transition system.  One action is one storage call, one remote effect
  or one message.  Safety is proved for every run in which a swap that takes effect is
  made by a worker that still has the current claim, and one event loop, on which the
  stretch between two awaits is not interrupted, is proved to be enough for that.
  Claims that validations were granted may be presented at any time, as the journal
  accepts them.  Fencing is proved for every run.  What recovery achieves is decided
  exactly.
- **Registration of new Agents** (`EnrollmentSaga`, `EnrollmentSafety`,
  `EnrollmentRows`, `EnrollmentTheorems`, `EnrollmentProgress`,
  `EnrollmentExamples`): activation, commit and compensation by any number of workers,
  beside other Agents that are registered, edited, rotated and removed.
- **Agent removal** (`RemovalSaga`, `RemovalRuns`): the same at the level of
  single calls, for any number of workers, with arbitrary changes of the row by
  others.
- **The enrollment journal** (`Journal`, `JournalWrites`, `JournalRuns`,
  `JournalExamples`): the full row, the CHECK constraints, the validation before
  whole-row writes, and every statement that writes a row, over whole histories
  including stale snapshots.
- **CLI submissions and receipts** (`CliSubmission`, `Receipt`, `ReceiptRuns`).
- **Gateway tickets and slots** (`GatewaySpec`, `Gateway`, `GatewayRuns`): classes
  proved against a specification, and a system of requests, sessions and removals
  around them.
- **Crash-atomic files**: the credential store (`CredentialStore`), the identity
  bootstrap (`InstanceIdentity`) and the one-time import (`YamlImport`).  A process
  may stop before any file or database operation; completed operations persist.  In
  the store each operation may also fail.
- **Algorithms**: login rate limit (`LoginRateLimit`), JSON nesting
  (`JsonNesting`), upstream paths (`UpstreamPath`, `Utf8`), sentinel search
  (`Readiness`).

## What the proofs found

These properties do not hold of the code as it stands; each has a concrete
counterexample and the condition under which it does hold.  The conditions are exact
except that rotation may survive a swap without the current claim, or a rewound
revision, by luck.

- The registry swap checks the row but neither owner nor revision of the recovery
  claim, so a worker whose claim is gone may swap
  (`RotationRace.InterruptedSwapIsUnsafe`); rotation is safe when swaps are made under
  the current claim (`RotationTheorems.HeldSwapsAreSafe`), which one event loop
  ensures (`RotationTheorems.ExclusiveRunsAreHeld`, `RotationTheorems.RotationIsSafe`).
- The compare of the instance identity in the swap never matches NULL, so an Agent
  registered without one is activated and then compensated
  (`RotationExamples.ImportedAgentIsCompensated`) and never rotated
  (`RotationProgress.NoInstanceNoRotation`); which rotations do get through is
  `RotationProgress.RecoveryCompletesExactlyWhen`.
- A removal that stopped right after deleting its file, and whose next attempt to
  delete fails, goes back to a phase that needs the deleted file
  (`RemovalRuns.SomeRemovalsAreStranded`, `RemovalRuns.ResumeCompletes`).
- The expiry at the start of every creation does not clear a CLI claim, which the
  schema forbids in an expired row, so the sweep of a creation is refused exactly while
  an overdue claim is there (`JournalExamples.OverdueClaimBlocksCreation`,
  `JournalRuns.CreationBlockedByOverdueClaim`).
- `_validate_job` admits IPv6 scopes that the schema refuses
  (`JournalExamples.ScopedAddressIsRefused`, `Journal.ValidMeetsSchema`).
- The write that ends a validation is not fenced and can bring back an older
  recovery revision, after which a claim repeats an earlier owner and revision
  (`JournalExamples.ClaimGrantedTwice`, `JournalRuns.RevisionFallsIffRewound`).  The
  validation's old claim can then fail an activated job
  (`JournalExamples.StrayClaimFailsActivatedJob`) and the cleanup delete the credential
  that the row names (`RotationExamples.StrayClaimIsUnsafe`,
  `RotationTheorems.FailureHarmsExactlyWhen`).  Fencing among recovery workers survives
  it (`RotationTheorems.Fencing`), and nothing of the kind happens while no revision is
  rewound (`RotationTheorems.UnrewoundRunsAreHarmless`).
- A conflict at the commit of a new Agent starts a compensation that is not recorded: if
  it is cut off and the conflict goes away, the next recovery registers the Agent with a
  credential that was revoked, or whose file is gone
  (`EnrollmentExamples.CompensatedIsRegistered`,
  `EnrollmentTheorems.CommitIsSafeExactlyWhen`).
- The commit finds a conflict before it looks at the claim, and the compensation revokes
  before it renews, so a worker that has lost its job may revoke a registered credential
  (`EnrollmentExamples.StaleWorkerRevokes`,
  `EnrollmentTheorems.RevocationIsSafeExactlyWhen`); on one event loop it does not
  (`EnrollmentTheorems.RegistrationIsSafe`).
- A failed local bootstrap may take a job back before its activation request
  (`JournalExamples.ExpiredAfterRequest`, `JournalRuns.ReopenedIffRestartable`).
- A put that fails after it has linked its file leaves a credential behind
  (`CredentialStore.LeakingPut`, `CredentialStore.Store.Put`), in the import
  (`YamlImport.UnreferencedCredentialsAreGone`) as in CLI submissions
  (`CliSubmission.LeaksExactlyByFault`).
- An import of no Agents may report True without having committed
  (`YamlImport.EmptyImportMisreports`, `YamlImport.TrueMeansCommittedUnlessEmpty`).

## Assumptions

- Identifiers, references, nonces and inode numbers drawn at random are fresh; they
  and the clock are arguments.
- A storage call of the transition systems takes effect as a whole or not at all;
  locks and transactions make each call atomic.
- Remote activation works on a waiting credential, revocation is final, both are
  idempotent, may be lost, and may take effect at any time after they were sent.
- Times of the rate limiter and its token counts are real numbers.
- Texts are sequences of Unicode scalar values.
- Closing a database connection and releasing a file lock do not fail.
- Canonical IP address text is known only by its alphabet, its length and an
  optional scope.

## Model

| member | source | states |
|---|---|---|
| `RotationTheorems.RotationIsSafe` | backend/ic_env_guard/enrollment/orchestrator.py:2230-2417 | with workers on one event loop, in every run of crashes, lease expiries, lost replies, delayed effects and late validations in which no validation writes back an older revision, the registry row names a stored credential, and a managed one is active on the Agent |
| `RotationTheorems.HeldSwapsAreSafe` | backend/ic_env_guard/storage/manager_registry.py:454-512 | the same however workers interrupt each other and revisions are rewound, as long as every swap that takes effect is made by a worker that still has the current owner and revision of its job, which the swap does not check, and no validation's claim fails an activated job whose new credential the row names |
| `RotationTheorems.UnrewoundRunsAreHarmless` | backend/ic_env_guard/storage/enrollment_journal.py:1117-1151 | while no revision is rewound, interrupted or not, no validation does that |
| `RotationGrants.UnrewoundClaimsEnd` | backend/ic_env_guard/storage/enrollment_journal.py:1064-1151 | while no revision is rewound, no claim granted to a validation is accepted on an activated job, although renewing, releasing and failing do not look at the state |
| `RotationTheorems.FailureHarmsExactlyWhen` | backend/ic_env_guard/storage/enrollment_journal.py:1117-1151 | where a validation's claim is accepted to fail a job, the cleanup of the job leaves the row usable if and only if the job was not activated with the row naming its new credential |
| `RotationTheorems.ExclusiveRunsAreHeld` | backend/ic_env_guard/enrollment/orchestrator.py:2286-2301 | one event loop supplies the missing check of the swap: on it every run in which no validation does harm is one of held swaps |
| `RotationLoop.ExclusiveSwapsAreHeld` | backend/ic_env_guard/enrollment/orchestrator.py:1888-1994 | between two awaits the claim that opened the stretch stays the current one, so a swap is made by the holder even when revisions are rewound |
| `RotationTheorems.SwapAfterActivation` | backend/ic_env_guard/enrollment/orchestrator.py:2286-2301 | the row takes another managed credential only by the swap of an activated job, and that credential is stored, active and was never named before |
| `RotationTheorems.RevokesOnlyRetired` | backend/ic_env_guard/enrollment/orchestrator.py:2302-2325 | a revocation leaves only for an old credential after the row has taken the new one, or for a new credential that can no longer be swapped in and that the row names at no time, before or after |
| `RotationTheorems.RetiredForGood` | backend/ic_env_guard/enrollment/orchestrator.py:2343-2359 | what was once sent for revocation, and what has left the store, the row never names again |
| `RotationProgress.RecoveryCompletesExactlyWhen` | backend/ic_env_guard/enrollment/orchestrator.py:2230-2417 | at any point of any such run, a worker alone whose calls succeed consumes a claimable job, with the row naming the new credential, if and only if at the claim the new credential is stored, the identity check passes and the row is as captured or already swapped; it fails the job, with the new credential revoked and deleted and the row untouched, exactly when the checks pass and the row is otherwise; else it releases the job |
| `RotationProgress.RecoveryEnds` | backend/ic_env_guard/enrollment/orchestrator.py:2230-2417 | each of the three ends in full: on completion the old credential is revoked and deleted as well |
| `RotationProgress.StartsUnlessIdentityChanged` | backend/ic_env_guard/enrollment/orchestrator.py:2230-2251 | of a saved job the new credential is always stored, and not revoked while it can be swapped in, so only the identity check can hold it up |
| `RotationProgress.NoInstanceNoRotation` | backend/ic_env_guard/storage/manager_registry.py:454-540 | a job captured from a row without instance identity is never swapped in, since the update compares with NULL, and recovery of it revokes and deletes the new credential of a legacy Agent |
| `RotationExamples.ImportedAgentIsCompensated` | backend/ic_env_guard/enrollment/orchestrator.py:2361-2417 | a reachable run from a legacy row without identity: activated, then failed, revoked and deleted, although nobody has changed the row |
| `RotationTheorems.InstanceNeverChanges` | backend/ic_env_guard/enrollment/orchestrator.py:2230-2236 | no rotation changes the instance identity of the registered Agent |
| `RotationTheorems.Fencing` | backend/ic_env_guard/storage/enrollment_journal.py:998-1099 | in every state of every run, interrupted or not and rewound or not, at most one worker holds a job's current owner and revision, and its copy is the row |
| `RotationTheorems.LostForGood` | backend/ic_env_guard/storage/enrollment_journal.py:1064-1099 | a worker that lost its job does not get it back without a new claim |
| `RotationTheorems.StaleWritesNothing` | backend/ic_env_guard/storage/enrollment_journal.py:778-829 | a worker whose owner and revision are no longer current writes no job, and its next renewal ends it |
| `RotationTheorems.StaleChangesNothing` | backend/ic_env_guard/enrollment/orchestrator.py:1888-1994 | between awaits uninterrupted, such a worker also leaves the registry row alone and sends the Agent nothing |
| `RotationRace.InterruptedSwapIsUnsafe` | backend/ic_env_guard/storage/manager_registry.py:454-512 | a reachable run without any validation in which another worker comes between reading and swapping the row ends with the row naming a revoked credential; its swap is made by a worker whose claim is gone |
| `RotationExamples.StrayClaimIsUnsafe` | backend/ic_env_guard/storage/enrollment_journal.py:1117-1151 | a reachable run on one event loop: a validation is granted a claim and renews it, the write that ends the dispatch rewinds the revision, the recovery worker comes to the same owner and revision after its swap, the validation's claim fails the job, and the cleanup deletes the credential that the row names |
| `RotationWorld.EventKeeps` | backend/ic_env_guard/storage/enrollment_journal.py:477-618 | starting, claiming for validation, verifying (with a rewound revision), consuming, cancelling and cleaning up rotations, renaming, replacing a legacy token, orphan cleanup and effects on the Agent keep the world invariant and disturb no saved job |
| `RotationWorld.PresentKeeps` | backend/ic_env_guard/storage/enrollment_journal.py:1064-1151 | a validation that renews, releases or fails with its claim keeps the world invariant, on saved jobs too, unless it does that harm |
| `RotationWorld.SwapKeeps` | backend/ic_env_guard/storage/manager_registry.py:484-512 | the swap of an activated job keeps every world invariant: the row's credential stored and active, revoked ones out of reach, names never reused |
| `RotationWorld.SendRevokeKeeps` | backend/ic_env_guard/enrollment/orchestrator.py:2313-2325 | a revocation does no harm when the row does not name the credential and no job can swap it in |
| `RotationWorld.DropRefKeeps` | backend/ic_env_guard/enrollment/orchestrator.py:2343-2348 | a reference that neither the row nor an open job has may be deleted |
| `RotationRuns.StepFences` | backend/ic_env_guard/storage/enrollment_journal.py:1064-1099 | every step, interrupted or not, keeps one holder per job and every copy equal to or older than its row |
| `RotationRuns.PerformShape` | backend/ic_env_guard/enrollment/orchestrator.py:1931-1994 | each step of a worker leaves the journal alone or rewrites its own job under the current owner and revision, raising the revision by one |
| `RotationSafety.RevokeOldSound` | backend/ic_env_guard/enrollment/orchestrator.py:2313-2325 | after a successful renewal the old credential is revoked, when the row has left it |
| `RotationSafety.MarkChangedSound` | backend/ic_env_guard/enrollment/orchestrator.py:2361-2376 | a lost swap is marked under the fence before the new credential is revoked |
| `RotationSafety.MarkFailedSound` | backend/ic_env_guard/enrollment/orchestrator.py:2395-2417 | a compensated job is closed before its new credential is deleted, which is then nobody's |
| `RotationSafety.StepKeeps` | backend/ic_env_guard/enrollment/orchestrator.py:2230-2417 | every action whose swap, if any, is held and whose presented claim, if any, does no harm keeps the whole invariant of world, fence and worker positions |
| `EnrollmentTheorems.RegisteredAfterActivation` | backend/ic_env_guard/storage/manager_registry.py:245-303 | in every run, interrupted or not, an enrollment gets its registry row only by the commit of a worker with the current owner and revision of the activated job, after the Agent has heard of the credential, while no other row has the endpoint or instance, and together with the end of the job |
| `EnrollmentTheorems.RegisteredAtMostOnce` | backend/ic_env_guard/storage/manager_registry.py:245-303 | in every run an enrollment is registered at most once |
| `EnrollmentTheorems.RegisteredAreUsable` | backend/ic_env_guard/enrollment/orchestrator.py:2055-2228 | however workers interrupt each other, as long as no commit takes effect after its credential was revoked or deleted and no worker revokes or deletes what a row names, every registered Agent's credential is stored and active |
| `EnrollmentTheorems.RegistrationIsSafe` | backend/ic_env_guard/enrollment/orchestrator.py:2055-2228 | on one event loop the former is enough: whoever compensates holds its job, and no row names its credential |
| `EnrollmentTheorems.RetiredForGood` | backend/ic_env_guard/enrollment/orchestrator.py:2173-2228 | in such runs, what was sent for revocation and what has left the store no row has in any later state |
| `EnrollmentTheorems.CommitIsSafeExactlyWhen` | backend/ic_env_guard/storage/manager_registry.py:245-303 | a commit leaves all rows usable, whatever the Agents still act on, if and only if its credential is stored and was not sent for revocation |
| `EnrollmentTheorems.RevocationIsSafeExactlyWhen` | backend/ic_env_guard/enrollment/orchestrator.py:2173-2192 | a revocation sent to compensate a conflict leaves all rows usable, whatever the Agents act on, if and only if no row names the credential |
| `EnrollmentTheorems.StepGood` | backend/ic_env_guard/enrollment/orchestrator.py:2055-2228 | every step that is careful in this sense keeps rows, requested jobs and their credentials in order |
| `EnrollmentSafety.StepBasic` | backend/ic_env_guard/enrollment/orchestrator.py:2055-2228 | every step keeps each worker's copy equal to or older than its job, jobs ending once, and activated jobs known to their Agents |
| `EnrollmentExamples.CompensatedIsRegistered` | backend/ic_env_guard/enrollment/orchestrator.py:2112-2172 | a reachable run on one event loop: a conflict starts the compensation, the process stops, the Agent in the way is removed, and recovery registers the new Agent with the revoked credential |
| `EnrollmentExamples.StaleWorkerRevokes` | backend/ic_env_guard/enrollment/orchestrator.py:2155-2192 | a reachable interrupted run: a worker finds its Agent registered by another and renamed since, and revokes the registered credential without looking at its claim |
| `EnrollmentProgress.RecoveryRegistersExactlyWhen` | backend/ic_env_guard/enrollment/orchestrator.py:2055-2228 | at any point of any run, a worker alone whose calls succeed registers the Agent of a claimable job if and only if at the claim no other row has its endpoint or instance and the token of an activation still to be requested is stored; else it revokes, deletes and fails, or, without the token, releases an activated job and fails a requested one |
| `RemovalRuns.RowDeletedAfterRevoke` | backend/ic_env_guard/enrollment/orchestrator.py:1012-1069 | workers never rewrite the row; one deletes it only for a removal that captured exactly this revision and credential and after the revocation succeeded (or for a local-only or legacy removal) |
| `RemovalRuns.FileDeletedAfterRow` | backend/ic_env_guard/enrollment/orchestrator.py:1089-1109 | a credential file is deleted only when the row does not name it, and the row never does again |
| `RemovalRuns.CompletedForGood` | backend/ic_env_guard/enrollment/orchestrator.py:1106-1111 | a completed removal stays completed, revoked where needed, with file gone and row not naming it |
| `RemovalRuns.ResumeCompletes` | backend/ic_env_guard/enrollment/orchestrator.py:1012-1111 | resuming alone and without failures from any recorded phase completes the removal if and only if the token of an outstanding revocation is stored and the row is absent or still the captured one with no rotation in the way |
| `RemovalRuns.ResumeCompletesInOrder` | backend/ic_env_guard/storage/mutation_fence.py:8-42 | when the rest of the Manager respects the mutation fence, a resumption can only fail to complete when row and file are both gone already while the revocation must be repeated |
| `RemovalRuns.SomeRemovalsAreStranded` | backend/ic_env_guard/enrollment/orchestrator.py:1089-1109 | such a removal is reachable by one worker at a time and a failing call without effect |
| `RemovalRuns.ChangedRowStays` | backend/ic_env_guard/enrollment/orchestrator.py:1063-1085 | over any run, however often and by however many workers a removal is resumed, while its row is not the captured one it is not completed and nobody but the changer of the row deletes it |
| `RemovalRuns.ChangedRowOutlastsResume` | backend/ic_env_guard/enrollment/orchestrator.py:1063-1085 | one undisturbed resumption ends with the removal not completed and the row in place |
| `RemovalSaga.StepKeeps` | backend/ic_env_guard/storage/removal_journal.py:177-211 | every call of any number of workers, and whatever happens to row, files and rotations, keeps what the recorded phases promise |
| `Journal.ValidMeetsSchema` | backend/ic_env_guard/control_plane_migrations/0013_local_socket_bootstrap.py:98-249 | a row that passed validation meets every CHECK constraint if and only if its addresses have no scope and its old revision is positive |
| `JournalWrites.WritesMeetSchema` | backend/ic_env_guard/storage/enrollment_journal.py:778-829 | whatever statement runs, and however old the snapshot it was built from, the row written meets every CHECK constraint exactly when it neither brings an address with a scope nor expires a row without clearing its CLI claim |
| `JournalWrites.BareExpiry` | backend/ic_env_guard/storage/enrollment_journal.py:362-371 | the bulk expiry of the creation statements meets the schema if and only if the row has no CLI claim |
| `JournalWrites.RewriteMeetsSchema` | backend/ic_env_guard/enrollment/orchestrator.py:1668-1749 | whole-row writes, from claiming to consuming, meet the schema |
| `JournalWrites.StatementMeetsSchema` | backend/ic_env_guard/storage/enrollment_journal.py:998-1214 | column updates, from claiming to cleanup, meet the schema |
| `JournalRuns.HistoryMeetsSchema` | backend/ic_env_guard/control_plane_migrations/0013_local_socket_bootstrap.py:98-249 | every version of a row in any history meets all CHECK constraints, and exactly the named writes are refused |
| `JournalRuns.CreationBlockedByOverdueClaim` | backend/ic_env_guard/storage/enrollment_journal.py:362-386 | the sweep of a creation is refused, and the creation with it, exactly while some CLI submission is overdue with its claim not yet cleared |
| `JournalRuns.NeverClosedOnceRequested` | backend/ic_env_guard/enrollment/jobs.py:23-30 | a job whose activation was requested is never cancelled or expired while no local bootstrap is started again |
| `JournalRuns.ReopenedIffRestartable` | backend/ic_env_guard/storage/enrollment_journal.py:631-741 | some write takes such a job back if and only if it is a failed local bootstrap job without credential |
| `JournalRuns.RevisionFallsIffRewound` | backend/ic_env_guard/storage/enrollment_journal.py:778-829 | the recovery revision falls exactly when an unfenced whole-row write brings back an older one |
| `JournalRuns.ClaimsAreUnique` | backend/ic_env_guard/storage/enrollment_journal.py:998-1062 | while nothing rewinds, no two claims carry the same revision |
| `JournalExamples.ClaimGrantedTwice` | backend/ic_env_guard/enrollment/orchestrator.py:1728-1749 | a history in which a validation that ends while recovery holds the job rewinds the revision, and the next claim repeats the first one's owner and revision |
| `JournalExamples.StrayClaimFailsActivatedJob` | backend/ic_env_guard/storage/enrollment_journal.py:1117-1151 | a history in which a claim renewed before such a rewinding is accepted again and fails an activated job |
| `JournalExamples.OverdueClaimBlocksCreation` | backend/ic_env_guard/storage/enrollment_journal.py:362-386 | a history that ends in an overdue CLI claim, with which the sweep of every creation is refused |
| `JournalExamples.ScopedAddressIsRefused` | backend/ic_env_guard/control_plane_migrations/0013_local_socket_bootstrap.py:98-249 | a row that passes validation and that the schema refuses: address fe80::1%e |
| `JournalExamples.ExpiredAfterRequest` | backend/ic_env_guard/storage/enrollment_journal.py:631-747 | a history through a restartable row: a job whose activation was requested fails, is started again and expires |
| `Receipt.HashedBytes` | backend/ic_env_guard/enrollment/orchestrator.py:2526-2545 | the loop over the fields computes the prefix followed by every field after its four-byte length, and fails exactly for a field too long to be framed |
| `Receipt.FieldsInjective` | backend/ic_env_guard/enrollment/orchestrator.py:2526-2545 | the five framed fields determine the enrollment, nonce, user, fingerprint and address |
| `Receipt.FramedInjective` | backend/ic_env_guard/enrollment/orchestrator.py:2540-2544 | length-prefixed framing is injective |
| `Receipt.DecimalInjective` | backend/ic_env_guard/enrollment/orchestrator.py:2538 | decimal notation is injective |
| `ReceiptRuns.ReceiptAgreesWithClaim` | backend/ic_env_guard/enrollment/orchestrator.py:1181-1251 | after consumption a client matches the receipt exactly when it matched the live claim, if the hash does not confuse these two |
| `ReceiptRuns.ClaimCarried` | backend/ic_env_guard/enrollment/orchestrator.py:1945-1961 | from the version that has it on, every version of the row carries the claim until the job ends, and a consumed job has its receipt |
| `ReceiptRuns.VerifyingAgrees` | backend/ic_env_guard/enrollment/orchestrator.py:1728-1749 | all versions of a row under verification carry the same claim, so the snapshot written back after the await does too |
| `CliSubmission.PublishedAtMostOnce` | backend/ic_env_guard/enrollment/orchestrator.py:1143-1311 | however many clients connect, reconnect and submit with one nonce, at most one helper token is published for a claim |
| `CliSubmission.LosersLeaveNothing` | backend/ic_env_guard/enrollment/orchestrator.py:1668-1727 | in a run without crash, failing deletion or put that stored before failing, the store holds nothing new but the job's credential and what submissions still under way hold |
| `CliSubmission.StepStore` | backend/ic_env_guard/enrollment/orchestrator.py:1338-1390 | every credential in the store is another's, the job's, held by a submission, or leaked by a fault |
| `CliSubmission.LeaksExactlyByFault` | backend/ic_env_guard/enrollment/orchestrator.py:1724-1727 | a credential is leaked exactly by such a fault |
| `GatewayRuns.SlotConservation` | backend/ic_env_guard/agents/terminal_proxy.py:63-299 | after any run the occupied slots are exactly those held by a request, reservation, unused ticket, active session or legacy acquirer, each held once, and both limits are respected |
| `GatewayRuns.RemovalInterlock` | backend/ic_env_guard/agents/terminal_proxy.py:197-226 | while an Agent is marked no record names it, and the mark belongs to exactly one removal under way |
| `GatewayRuns.MarksChangeOnlyByTheirRemoval` | backend/ic_env_guard/enrollment/orchestrator.py:983-1005 | a mark appears only on an unused Agent and goes only with the removal that set it |
| `GatewayRuns.AcceptedForItsBinding` | backend/ic_env_guard/agents/terminal_proxy.py:161-189 | a ticket is accepted only before it expires, for the actor, Agent, terminal and path it was committed for, with the route its reservation captured |
| `GatewayRuns.AcceptedAtMostOnce` | backend/ic_env_guard/agents/terminal_proxy.py:143-189 | over any run a ticket is accepted at most once |
| `GatewayRuns.StepKeeps` | backend/ic_env_guard/api/agent_terminals.py:358-467 | every step of requests, sessions, removals, pruning and legacy acquirers keeps the invariant |
| `Gateway.GatewayTicketStore.Reserve` | backend/ic_env_guard/agents/terminal_proxy.py:63-94 | computes the specified reservation or refusal, slot release included |
| `Gateway.GatewayTicketStore.ReleaseReservation` | backend/ic_env_guard/agents/terminal_proxy.py:96-101 | gives back the slot of an uncommitted reservation |
| `Gateway.GatewayTicketStore.Commit` | backend/ic_env_guard/agents/terminal_proxy.py:103-141 | turns a reservation into a ticket under the specified checks, or drops it |
| `Gateway.GatewayTicketStore.ConsumeForWebsocket` | backend/ic_env_guard/agents/terminal_proxy.py:161-189 | spends a ticket, or gives the specified refusal, and moves an accepted one to the active sessions |
| `Gateway.GatewayTicketStore.ReleaseActive` | backend/ic_env_guard/agents/terminal_proxy.py:191-195 | ends a session and frees its slot once |
| `Gateway.GatewayTicketStore.BeginRemoval` | backend/ic_env_guard/agents/terminal_proxy.py:197-203 | marks an Agent exactly when it is neither in use nor marked |
| `Gateway.GatewayTicketStore.AbortRemoval` | backend/ic_env_guard/agents/terminal_proxy.py:205-210 | clears the mark |
| `Gateway.GatewayTicketStore.HasUsage` | backend/ic_env_guard/agents/terminal_proxy.py:212-215 | reports use after pruning |
| `Gateway.GatewayTicketStore.PruneExpired` | backend/ic_env_guard/agents/terminal_proxy.py:236-252 | the two loops drop exactly the expired records and free exactly their slots |
| `Gateway.GatewayProxyLimiter.Reserve` | backend/ic_env_guard/agents/terminal_proxy.py:284-290 | occupies a slot if there is room |
| `Gateway.GatewayProxyLimiter.TryAcquire` | backend/ic_env_guard/agents/terminal_proxy.py:276-282 | acquires a slot without a record |
| `Gateway.GatewayProxyLimiter.Release` | backend/ic_env_guard/agents/terminal_proxy.py:292-299 | frees a slot, at most once |
| `Gateway.GatewayProxyLimiter.ReleaseLegacy` | backend/ic_env_guard/agents/terminal_proxy.py:292-299 | without a slot, frees the one acquired last without a record |
| `CredentialStore.Store.Put` | backend/ic_env_guard/enrollment/credential_store.py:109-117 | wherever the process stops or an operation fails, the published credentials are those of before, or those and one new reference with the whole secret; for a reference not yet in use, the latter exactly when the link is made, and success exactly when the two operations after it are carried out too |
| `CredentialStore.Store.Replace` | backend/ic_env_guard/enrollment/credential_store.py:132-138 | the reference holds the new secret exactly when the rename is made and the old one otherwise, whatever the call reports; success exactly when the directory is flushed too; others are untouched |
| `CredentialStore.Store.WriteTemporary` | backend/ic_env_guard/enrollment/credential_store.py:345-376 | the chunked write changes no published credential and leaves at most its own temporary name; it succeeds, with the whole secret, exactly when all its operations are carried out |
| `CredentialStore.Store.PublishNew` | backend/ic_env_guard/enrollment/credential_store.py:378-394 | the whole secret is published exactly when the link is made, also when a later unlink or flush stops or fails |
| `CredentialStore.LeakingPut` | backend/ic_env_guard/enrollment/credential_store.py:378-394 | a put that is refused although its reference holds the secret: the flush after the link fails |
| `CredentialStore.Store.Delete` | backend/ic_env_guard/enrollment/credential_store.py:140-149 | the reference goes exactly when the unlink is made, whatever the call reports, and nothing else does |
| `CredentialStore.Store.Recover` | backend/ic_env_guard/enrollment/credential_store.py:271-299 | at the next start every temporary file goes, without touching a reference and without error unless an operation fails |
| `CredentialStore.TidyIsRecoverable` | backend/ic_env_guard/enrollment/credential_store.py:281-291 | what any crash leaves passes the link-count checks of the recovery |
| `CredentialStore.Store.CleanupOrphans` | backend/ic_env_guard/enrollment/credential_store.py:163-182 | when it ends exactly the existing references that are retained are left, and on the way no retained one is lost |
| `CredentialStore.Store.Lifetime` | backend/ic_env_guard/enrollment/credential_store.py:81-182 | over any sequence of calls that fail or crash anywhere every reference holds, whole, what it held at the outset or what some call supplied |
| `InstanceIdentity.Disk.Start` | backend/ic_env_guard/bootstrap/identity.py:147-175 | one start, cut off anywhere: the disk stays consistent, an identity is published at most once, a start on the path in use is never refused, and where an identity must exist none is drawn |
| `InstanceIdentity.Disk.History` | backend/ic_env_guard/bootstrap/identity.py:277-318 | over any history of crashing starts at most one identity is published, every start that comes through reports it, and with one configured path none is refused |
| `YamlImport.NoReferencedCredentialDeleted` | backend/ic_env_guard/fleet/importer.py:60-131 | wherever the import fails or races, no credential named by registry or enrollment journal is deleted and no other credential is touched |
| `YamlImport.UnreferencedCredentialsAreGone` | backend/ic_env_guard/fleet/importer.py:60-131 | unless the outcome is reported as uncertain or a cleanup as failed, every new credential left was named by the database, except exactly when a put failed after it had stored its credential |
| `YamlImport.ImportedMeansCommitted` | backend/ic_env_guard/fleet/importer.py:282-339 | True means that the call's rows and marker were committed in one transaction, when there were rows |
| `YamlImport.EmptyImportMisreports` | backend/ic_env_guard/fleet/importer.py:325-337 | with an empty inventory a failed commit is reported as done when another process has set the marker |
| `YamlImport.TrueMeansCommittedUnlessEmpty` | backend/ic_env_guard/fleet/importer.py:282-339 | over all failures and interferences, True means committed if and only if the inventory is not empty |
| `YamlImport.Manager.ImportOnce` | backend/ic_env_guard/fleet/importer.py:60-131 | the import with its loops over puts, rows and deletions computes the outcome the lemmas are about |
| `YamlImport.Manager.OwnReferences` | backend/ic_env_guard/fleet/importer.py:390-409 | the verification loop finds all references exactly when all rows are the call's own |
| `YamlImport.Manager.DeleteAll` | backend/ic_env_guard/fleet/importer.py:439-448 | every deletion is tried whatever became of the others |
| `LoginRateLimit.LoginRateLimiter.Allow` | backend/ic_env_guard/auth/rate_limit.py:36-54 | computes one visit of the table and keeps list and dictionary in agreement and within max_sources |
| `LoginRateLimit.Create` | backend/ic_env_guard/auth/rate_limit.py:15-30 | refuses settings that are not positive |
| `LoginRateLimit.RateBound` | backend/ic_env_guard/auth/rate_limit.py:36-54 | a source whose bucket is not forgotten is admitted at most capacity + T/refill_seconds times in any span T |
| `LoginRateLimit.SilenceAdmits` | backend/ic_env_guard/auth/rate_limit.py:36-54 | a source silent for refill_seconds is admitted |
| `LoginRateLimit.ForgottenOnlyAfterOthers` | backend/ic_env_guard/auth/rate_limit.py:39-50 | a bucket is evicted only after max_sources different other sources have called since its last call |
| `LoginRateLimit.RunInvariant` | backend/ic_env_guard/auth/rate_limit.py:36-54 | after any calls the table is within its size, ordered by last calls, with every bucket between 0 and capacity |
| `JsonNesting.RejectsExactlyDeepTexts` | backend/ic_env_guard/agents/client.py:469-489 | on every JSON text the scanner rejects exactly when nesting exceeds 64 |
| `JsonNesting.ValidateJsonNesting` | backend/ic_env_guard/agents/client.py:469-489 | the loop decides the specified scan |
| `JsonNesting.ScanString` | backend/ic_env_guard/agents/client.py:474-482 | a string leaves the scanner where it was, whatever brackets, quotes and escapes it contains |
| `JsonNesting.ScanValue` | backend/ic_env_guard/agents/client.py:469-489 | a value of depth n scanned at depth d ends at d, or is rejected exactly when d + n exceeds 64 |
| `UpstreamPath.AcceptedPathsAreStable` | backend/ic_env_guard/agents/client.py:430-462 | for an accepted path no decoded segment is empty, dot or dot-dot, and decoding again changes nothing |
| `UpstreamPath.DecodeCommutesWithSplit` | backend/ic_env_guard/agents/client.py:448-459 | for an accepted path percent-decoding commutes with splitting on slashes |
| `UpstreamPath.NothingToDecode` | backend/ic_env_guard/agents/client.py:460 | text without an escape decodes to itself |
| `UpstreamPath.ReachableExactlyLegal` | backend/ic_env_guard/agents/client.py:430-462 | the texts an accepted path can decode to are exactly the legal ones |
| `UpstreamPath.LegalTextIsReachable` | backend/ic_env_guard/agents/client.py:430-462 | quoting every legal text gives an accepted path that decodes to it |
| `Readiness.AwaitSentinel` | backend/ic_env_guard/development/readiness.py:159-171 | the loop that keeps only the last len-1 characters returns at exactly the first message after which the whole output contains the sentinel, unless the byte limit is hit first |
| `Readiness.TailSuffices` | backend/ic_env_guard/development/readiness.py:168-171 | what has been forgotten cannot take part in a new occurrence |
| `Readiness.Search` | backend/ic_env_guard/development/readiness.py:169 | the substring test |
| `Readiness.VerdictIsUnique` | backend/ic_env_guard/development/readiness.py:159-171 | the property stated of the loop admits one verdict only |

## Left out

- Routes, audit events, error codes and messages, display dictionaries: no state beyond what is modelled.
- HTTP, WebSocket, SSH and Unix socket transport: remote calls are steps that succeed, fail or lose their reply.
- SQL text, SQLAlchemy and running migrations: statements are guarded updates of rows; migrations are counted.
- File modes, owners, symbolic links and inode races: facts of the operating system.
- Short-lived temporary files of the intent and the identity file: their random names are never read again.
- Registration begins with the request for activation, with a fresh stored credential; rotation and removal of registered Agents are single steps there, and a validation's late claim may renew or fail any open job.
- Rotation merges the states before verification ends into one and stores the new credential in the same step; `update_agent` stores, commits and deletes in one step.
- GatewayRuns: one limiter; slot objects are their identifiers; live sockets are not modelled, only ticket records.
- CliSubmission: a publish whose commit took effect unseen deletes the credential it has published, as the code does; the job's later states are one phase.
- RotationTheorems.RotationIsSafe: no removal of the Agent runs.
- RotationProgress.RecoveryCompletesExactlyWhen, and EnrollmentProgress.RecoveryRegistersExactlyWhen likewise: no other worker, event or failure comes between the claim and the end, and the Agent acts on every request before its reply.
- RotationTheorems.StaleChangesNothing: a worker that has recorded its compensation may still delete the new credential, which nobody names any more.
- ReceiptRuns.ClaimCarried: the claim and the receipt are those of writes made within one stretch between awaits, apart from the write that ends a validation.
- "No remote credential is ever left over": not promised after unknown remote outcomes.
- Discovery, configuration, metrics, front end, demo service and log redaction.
