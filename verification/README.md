# Sentinel: verified models of its exactly-once protocols and kernels

The repository drives authorized security requests through small, crash-tolerant protocols
(SQLite rows, JSON ledgers, private files) and a few algorithmic kernels. This project models those
parts in Dafny and proves what they are for: that a request leaves at most once, that a revocation
wins, that a crash is recovered to one final state or refused, that two implementations of a queue
are the same queue, that a diff, a ranking or a packing is the right one.

`dafny verify dfyconfig.toml` checks everything.

## How the model is built

* A database, manifest or directory at one moment is a value; what one transaction, command or
  durable write does to it is a function; a run is a sequence of steps. The object that updates its
  fields in place is a class, and each of its methods is proved equal to that function. The lemmas
  about runs therefore speak about the methods.
* Crashes are either steps of a run (`ExecutorRuns`, `B3Attempts`) or a number of durable writes a
  process survives (`CiPublication`, `AuditRecovery`); any sequence of calls, each with its own
  number, is then a crash-and-retry history.
* `BEGIN IMMEDIATE` blocks and `with connection:` blocks are single steps. The three autocommit
  statements of `_transition`, when it is called outside a block, are three steps.
* Digests are injective, so a stored digest is modelled by what it digests or compared as a value.
  Timestamps and scores are reals. Clocks, tokens, the network, file contents from outside and
  provider answers are parameters.

| module | what it models |
|---|---|
| `Basics`, `Order` | shared values; Python's string order and `sorted` |
| `RequestStore`, `ExecutorRuns` | the executor's store, and every interleaving of executors, openers, settlements and crashes |
| `CharterExecutor`, `ExecuteAsRun` | `execute` with its results, and its refinement to those interleavings |
| `Luhn`, `ResponseGuard`, `Receipt` | card checksum, redaction counts and preview guard, receipt contract |
| `EffectLedger`, `RunManifest`, `ManifestRuns`, `CiPublication` | the run manifest: effect automaton, stage machine, what whole runs of its commands promise, CI publication |
| `AuditRecovery` | recovery across files, store and manifest |
| `HostBroker`, `SqliteBroker`, `BrokerRuns` | the abstract command queue, its dictionary form, its SQLite form with caches; what whole runs of it promise |
| `B3Attempts`, `B3Dispatch`, `DispatchAsRun`, `B3Consensus` | reservation store under interleaving; one dispatch beside other processes, and as steps of that interleaving; the three-reading consensus |
| `SealedIntake`, `ComparisonPair` | sealing and resolving a tree; the rename-detecting diff |
| `Packing`, `Chunking`, `Retrieval`, `RankingMetrics` | the retrieval kernels |
| `FuzzBudget`, `PairPublication` | request budgets; all-or-nothing publication of two files |

## Where the code does less than one would expect

Each of these is proved, with a concrete failing state or an exact condition.

* Terminal request rows are meant to be final. At the granularity of statements a late `UPDATE` of
  `unknown()` brings a settled row back (`ExecutorRuns.TerminalStableExactly`,
  `TerminalCanBeOverwritten`, `OverwriteStateReachable`); at the granularity of transactions they
  are final (`TerminalIsFinal`).
* The sixty-second quota counts rows strictly newer than a minute. A half-open minute never holds
  more than five; a closed one may hold ten, and more than five only with rows at both ends
  (`RequestStore.ClosedWindowBounded`, `ExecutorRuns.ClosedWindowReachesTen`).
* A crash between the two limited audit reports leaves a directory no later call recovers
  (`AuditRecovery.TornForever`). So does a crash between the last two statements of `unknown()`:
  `ExecutorRuns.UnloggedExactly` and `UnloggedReachable` say when, `AuditRecovery.UnloggedIsPermanent`
  for how long.
* A failed `INSERT` leaves the SQLite broker's caches naming a command that does not exist, and its
  envelope is refused exactly until that process reopens the file (`SqliteBroker.PoisonLastsExactly`).
* A tree with admitted files below `auth/` and beside it as `auth.ts` is copied and published, and
  then refused by the final resolution (`SealedIntake.SealResolvesExactly`, `FolderBesideFile`).
* Heading paths are true ancestors only if headings cut the stack where sections close
  (`Chunking.StackIsPathExactly`, `BlocksFiledTruly`); two second-level headings at the top already
  break it.
* The fuzz budget of 500 is tested between targets, so it holds for every gateway only if the
  targets cannot cost more together (`FuzzBudget.NominalBudgetExactly`); a run may count 540, and a
  resumed thread 1039 (`RunBoundTight`, `ThreadBoundTight`).
* Pair publication compares inodes and then unlinks by name; a file that takes the name in between
  is lost, and a destination may be replaced after its link (`PairPublication.AllOrNothingExactly`,
  `WindowLosesFile`).

The SQLite broker's claim, authorization and result are single transactions on a table that is the
abstract queue itself, so they refine it by construction; what has to be proved there is the
submission with its caches.

## Model

| member | source | states |
|---|---|---|
| RequestStore.NonceDurableExactly | agent/charter_requests.py:314-353 | an approval nonce is stored by this consumption exactly when the outcome was prepared, rejected or revoked; every other refusal leaves the whole store untouched |
| RequestStore.RevocationsExactly | agent/charter_requests.py:325-332 | a request becomes revoked by exactly one kind of authorization, a verified new decision to revoke it, and a rejection is recorded for exactly a verified new decision to reject; no revocation is replaced |
| RequestStore.ReservedExactly | agent/charter_requests.py:314-353 | a request is reserved if and only if the approval is verified, new and approving, the request unrevoked, fresh and unexpired, and both quotas leave room; its row records it as approved; each refusal if and only if it is the first thing missing |
| RequestStore.DispatchOnlyFromPrepared | agent/charter_requests.py:356-374 | dispatch commits exactly for a prepared, unrevoked row; a revoked one in flight is terminal at once; anything else is refused and changes nothing; no other row and no other table changes |
| RequestStore.RecoverySettles | agent/charter_requests.py:267-275 | after opening, a prepared row is terminal and a dispatched one unknown, everything else of every row and table is kept, and every change is in the event log |
| RequestStore.AuthorizedTouchesOwnRow | agent/charter_requests.py:320-349 | a reservation creates a prepared row only for a fresh id and touches no other row; a refusal changes no row |
| RequestStore.CommitRespectsRevocation | agent/charter_requests.py:296-308 | once revoked and not yet dispatched, no transaction or single statement a process issues logs a dispatch |
| RequestStore.CommitKeepsTerminal | agent/charter_requests.py:296-308 | a terminal row survives every statement but the unguarded UPDATE of `unknown()`, and keeps its receipt |
| RequestStore.CommitMovesForward | agent/charter_requests.py:296-398 | every transaction leaves a row where it is or moves it one allowed edge and logs that; an unknown row ends only with the receipt of its settlement; no log entry is lost |
| RequestStore.LateUpdateLosesSettlement | agent/charter_requests.py:303-308 | recovery, audit settlement and then a late UPDATE take one row from terminal back to unknown |
| RequestStore.AuthorizeKeepsQuotas | agent/charter_requests.py:339-349 | authorization keeps at most five rows in every half-open minute, whatever the clock order, and one POST row per run |
| RequestStore.CommitKeepsQuotas | agent/charter_requests.py:267-396 | so does every other transaction and statement |
| RequestStore.ClosedWindowBounded | agent/charter_requests.py:339-340 | a closed minute holds at most ten rows, and more than five only with rows at both of its ends |
| RequestStore.CrashLeavesUnlogged | agent/charter_requests.py:306-308 | after the UPDATE of `unknown()` without its INSERT the row's state is not logged, and reopening does not repair it |
| RequestStore.Store.Open | agent/charter_requests.py:267-275 | opening a store file yields the recovered database |
| RequestStore.Store.Transition | agent/charter_requests.py:296-308 | moves and logs the row exactly along the allowed edges, else changes nothing |
| RequestStore.Store.AuthorizePrepare | agent/charter_requests.py:314-353 | statement by statement with rollbacks: the new database and the outcome are those of the authorization transaction |
| RequestStore.Store.DispatchIfNotRevoked | agent/charter_requests.py:356-374 | likewise for the dispatch transaction |
| RequestStore.Store.TerminalizeFrom | agent/charter_requests.py:383-398 | settles with the receipt exactly from the expected state, else changes nothing |
| ExecutorRuns.StepKeepsInv | agent/charter_requests.py:267-308 | every step of every process, opener and settlement keeps the invariant that ties rows, program counters, mints and sends |
| ExecutorRuns.AtMostOnce | agent/charter_requests.py:523-565 | in every interleaving, crashes and reopenings included, a request is sent at most once, after its one mint; what each row state says about contact made |
| ExecutorRuns.RevocationWins | agent/charter_requests.py:325-374 | once some step of a run consumed a verified, new approval to revoke a request that is not yet dispatched, at no later moment is it dispatched, minted for or sent |
| ExecutorRuns.RevokedExactly | agent/charter_requests.py:325-328 | in every run from the empty store a request is revoked if and only if some step consumed a verified, new approval to revoke it |
| ExecutorRuns.RowWasReserved | agent/charter_requests.py:344-349 | in every run each row goes back to one step that consumed a verified, new, approving approval for exactly that request |
| ExecutorRuns.SentWasApproved | agent/charter_requests.py:523-565 | so nothing is minted for or sent that such a step did not reserve |
| ExecutorRuns.ReceiptWasRecorded | agent/charter_requests.py:383-398 | in every run a stored receipt is one that an answer to that executor or an audit gave for that very request |
| ExecutorRuns.NonceSpentOnce | agent/charter_requests.py:320-353 | in every run from the empty store a nonce is stored exactly when one consumption of it ended prepared, revoked or rejected, and never two |
| ExecutorRuns.QuotasHold | agent/charter_requests.py:339-343 | at every moment of every run both quotas hold |
| ExecutorRuns.ClosedWindowHolds | agent/charter_requests.py:339-340 | so in every run the two bounds on a closed minute hold |
| ExecutorRuns.ClosedWindowReachesTen | agent/charter_requests.py:339-340 | and ten is met: a run from the empty store reserves five at 0 and five at 60 |
| ExecutorRuns.TerminalStableExactly | agent/charter_requests.py:296-308 | a terminal row stays terminal in every continuation if and only if no process stands between the SELECT and the UPDATE of `unknown()` for it; the same condition decides whether row and receipt stay as they are |
| ExecutorRuns.TerminalIsFinal | agent/charter_requests.py:356-398 | with the settlements as transactions a terminal row and its receipt never change again |
| ExecutorRuns.TerminalCanBeOverwritten | agent/charter_requests.py:303-308 | an opener and an audit settle the row while an executor still holds its stale read |
| ExecutorRuns.LateUpdate | agent/charter_requests.py:306-307 | that executor's UPDATE then makes the settled row unknown |
| ExecutorRuns.OverwriteStateReachable | agent/charter_requests.py:544-552 | the state this starts from is reached by one executor whose request failed |
| ExecutorRuns.UnloggedReachable | agent/charter_requests.py:303-308 | a run from the empty store, with one crash and one reopening, reaches an unknown row whose state is not in the event log |
| ExecutorRuns.UnloggedExactly | agent/charter_requests.py:303-308 | in every run from the empty store an unknown row is unlogged if and only if no step logged it and some process that had written it stopped before its INSERT |
| CharterExecutor.CallSettles | agent/charter_requests.py:523-565 | the target is called only for a fresh id, a new approving nonce and no revocation, at most once; afterwards the row is unknown, or terminal with the receipt exactly when a capped response arrived |
| CharterExecutor.CalledExactly | agent/charter_requests.py:523-565 | exactly when a token is minted and the target called, and what row and receipt then say: unknown for a call without a capped answer, terminal with the receipt for one with it, terminal without a receipt when nothing was sent |
| CharterExecutor.ErrorsExactly | agent/charter_requests.py:523-577 | each error if and only if its cause, and no error exactly for a capped answer with a 2xx status to a GET or a 4xx status to a POST |
| CharterExecutor.NeverTwice | agent/charter_requests.py:523-537 | executing the same request again, with any approval, mints and calls nothing |
| CharterExecutor.Execute | agent/charter_requests.py:523-577 | store, call counts and error are as specified; every returned result is accepted unchanged by the caller's contract, carries status, size and stored receipt, and for a GET exactly the guard's verdict on the body |
| CharterExecutor.AcceptableMeans | agent/charter_requests.py:566-577 | what a returned result says of this response: its request, status, size and stored receipt; a preview of the body exactly if nothing in the body fired |
| CharterExecutor.CallTarget | agent/charter_requests.py:538-577 | the part after the linearization point settles the row on every branch |
| CharterExecutor.Describe | agent/charter_requests.py:566-577 | the result object of a response within policy is acceptable for the same spec |
| ExecuteAsRun.ExecuteIsOneRun | agent/charter_requests.py:523-565 | `execute` left alone is one run of the interleaving model: same database, mints and sends |
| ExecuteAsRun.SettlesUndisturbed | agent/charter_requests.py:303-308 | the three autocommit statements, undisturbed, equal one move |
| ExecuteAsRun.BackIsCalled | agent/charter_requests.py:538-561 | from a committed dispatch on, the process's actions do what the call does |
| EffectLedger.MemoryReadsHistories | scripts/sentinel-manifest.py:352-367 | the per-pair automaton accepts a history if and only if it is one of the designed ones: four for the import, nine for the executor |
| EffectLedger.ValidEffectLedger | scripts/sentinel-manifest.py:335-400 | the dict-and-set loop accepts exactly the ledgers whose events are well formed, whose projections are designed histories, whose outcomes match their intents and whose settled stages have an outcome |
| EffectLedger.OutcomesAnswerIntents | scripts/sentinel-manifest.py:345-374 | in an accepted ledger every outcome and recovery answers an earlier prepared event of its pair, an outcome one with the same intent, and exactly observations and recoveries carry an observation |
| EffectLedger.UnresolvedEffect | scripts/sentinel-manifest.py:403-407 | true exactly if some pair's history ends prepared or unknown |
| EffectLedger.ResolvedHistories | scripts/sentinel-manifest.py:403-407 | which histories remain in an admissible ledger without unresolved effects |
| EffectLedger.RecoveryAdmissible | scripts/sentinel-manifest.py:361-366 | a hanging executor history takes a recovery event and the whole ledger stays admissible |
| RunManifest.ValidArtifactLedger | scripts/sentinel-manifest.py:283-332 | accepts exactly the ledgers whose checkpoints answer, in order, for the settled stages, with new paths, matching files and the stage's contract |
| RunManifest.LedgerPathsDistinct | scripts/sentinel-manifest.py:294-310 | no artifact path is checkpointed twice across the whole ledger |
| RunManifest.Validate | scripts/sentinel-manifest.py:499-523 | decides validity of stages, skips, both ledgers and the recovered shape |
| RunManifest.RunKeepsBound | scripts/sentinel-manifest.py:826-865 | on every run whose files stay once written, the manifest remains valid and both ledgers remain bound to the files; only the last recorded stage can have failed |
| RunManifest.CheckStage | scripts/sentinel-manifest.py:826-856 | accepts exactly the stage in turn whose trial copy validates against the files |
| RunManifest.StageInTurnPasses | scripts/sentinel-manifest.py:826-856 | progress: the stage in turn passes whenever its artifacts are new, match and meet the contract, and a remote stage has its outcome |
| RunManifest.AllGoodExtends | scripts/sentinel-manifest.py:838-845 | one more good checkpoint keeps the whole ledger good |
| RunManifest.RunKeepsClean | scripts/sentinel-manifest.py:849-856 | along every run a pending manifest records only passed stages and listed skips |
| RunManifest.CleanIsPassedPrefix | scripts/sentinel-manifest.py:283-299 | a valid pending manifest without skips records exactly a passed prefix of the order, checkpoint by checkpoint |
| RunManifest.ResumeIsSound | scripts/sentinel-manifest.py:981-990 | on every run from `init_v2`, a successful resume is by the run's own identity and means an all-passed checkpointed prefix with unchanged files, every effect history closed under a passed stage, and as next stage the first one not recorded, of which no effect is on record |
| RunManifest.ManifestFile.StageV2 | scripts/sentinel-manifest.py:826-856 | the manifest after the command, and when the command is refused |
| RunManifest.ManifestFile.Effect | scripts/sentinel-manifest.py:859-865 | appends the event exactly if manifest, trial ledger and files allow it |
| RunManifest.ManifestFile.AuthorizeResume | scripts/sentinel-manifest.py:981-990 | succeeds exactly if resume is allowed, and names the next stage |
| RunManifest.ManifestFile.Finalize | scripts/sentinel-manifest.py:1097-1113 | passes the run exactly if every stage passed and nothing is unresolved |
| ManifestRuns.PassedRunIsComplete | scripts/sentinel-manifest.py:1097-1113 | on every run from `init_v2` whose files stay, a manifest that says passed is that of a local run with every stage of the order passed and its checkpoint in place, no skips, every effect history closed and bound to the files |
| ManifestRuns.FinalizesExactly | scripts/sentinel-manifest.py:1097-1113 | and a run is finalized if and only if it is pending and local, all its stages passed, none was skipped and no effect is open |
| ManifestRuns.FinalizeIsSound | scripts/sentinel-manifest.py:1097-1113 | finalizing looks at the files itself: on every run, whatever became of the files, what it passes is complete with the files it saw |
| ManifestRuns.TamperedIsRefused | scripts/sentinel-manifest.py:294-310 | what could be resumed or finalized no longer can once a file that a checkpoint, an intent or an observation names is missing or has other bytes |
| ManifestRuns.PassedStageHasArtifacts | scripts/sentinel-manifest.py:283-332 | on every run a stage that passed has its artifacts, each of the kind its contract names |
| ManifestRuns.ResultIsTrue | scripts/sentinel-manifest.py:826-865 | on every run the result is failed exactly if a stage failed, rejected exactly if one was rejected, and passed only with all stages settled |
| ManifestRuns.ResumesExactly | scripts/sentinel-manifest.py:981-990 | a run whose files stay is resumed if and only if it is pending without skips, the claimed identity is its own, no effect is open and each effect's stage passed |
| ManifestRuns.RecordsAreTrue | scripts/sentinel-manifest.py:826-865 | on every run the recorded stages are a prefix of the order, the skips are exactly the skipped ones, and a remote stage passed only with an outcome on record |
| ManifestRuns.EndedIsFinal | scripts/sentinel-manifest.py:826-865 | once the result is not pending no command changes the manifest |
| ManifestRuns.StageInTurnEnds | scripts/sentinel-manifest.py:826-856 | the stage in turn may always be recorded as failed, rejected or skipped |
| ManifestRuns.EffectAddsExactly | scripts/sentinel-manifest.py:859-865 | an effect event is recorded if and only if the run is pending and the event is well formed, continues its history by the design, answers the prepared intent, and names files of the right kinds that are there; a recovery moreover speaks of the request of its intent |
| CiPublication.CheckpointStable | scripts/sentinel-manifest.py:695-733 | candidate and binding bytes are the same at every publication checkpoint, so a restart derives them again |
| CiPublication.AllowedAdvances | scripts/sentinel-manifest.py:739-764 | from every allowed state the next durable write leads to an allowed state one write closer to the same final state |
| CiPublication.PublishesExactly | scripts/sentinel-manifest.py:713-766 | an uninterrupted call publishes if and only if the state is allowed, and then reaches the one final state |
| CiPublication.PublishedMeans | scripts/sentinel-manifest.py:695-766 | whatever the directory held, a call that says published leaves a manifest that is the pending one with result passed, no action sent and the digests of the two inputs, all four stages passed, without skips or requests, and the binding of exactly that manifest |
| CiPublication.PublishableExactly | scripts/sentinel-manifest.py:713-737 | a valid, never published manifest may be published if and only if it is a pending CI run of the four stages, all passed, without skips or requests, and the inputs are there, the artifact the admitted one |
| CiPublication.RecoveryCompletes | scripts/sentinel-manifest.py:713-766 | after any number of interrupted calls, the run is final or one uninterrupted call makes it so |
| CiPublication.FinalIsTerminal | scripts/sentinel-manifest.py:716-717 | a published run refuses every further call unchanged |
| CiPublication.ForeignIsStuck | scripts/sentinel-manifest.py:743-757 | foreign candidate or binding bytes are never an allowed state |
| CiPublication.ForeignUntouched | scripts/sentinel-manifest.py:743-757 | from a state that is not allowed no sequence of calls changes candidate or binding, publishes, or moves the manifest beyond a first recorded plan |
| CiPublication.PublishedVerifies | scripts/sentinel-manifest.py:769-792 | the final state passes `ci_verify` exactly if the normalized file parses |
| CiPublication.VerifiedMeans | scripts/sentinel-manifest.py:769-792 | what verification accepts: a valid CI manifest over exactly these inputs, and one that says passed has all four stages passed, no skips and no requests |
| CiPublication.MalformedIsRefused | scripts/sentinel-manifest.py:470-489 | a manifest with an invalid body, a handoff or checkpoint where none may be, a blank digest in them or a wrong output digest is neither published nor verified, whatever else the directory holds |
| CiPublication.BindingPinsRun | scripts/sentinel-manifest.py:687-692 | two verifying runs with one binding have the same manifest and the same inputs |
| CiPublication.CheckPublishable | scripts/sentinel-manifest.py:714-737 | decides whether the call may proceed past its anchors |
| CiPublication.RunDir.CiPublish | scripts/sentinel-manifest.py:713-766 | file by file, with a crash after any durable write: directory and outcome are those of the call, and on success the manifest and binding are those a published run has to have |
| CiPublication.RunDir.FromPlanned | scripts/sentinel-manifest.py:740-750 | the planned checkpoint: no binding, candidate written or compared |
| CiPublication.RunDir.FromCandidate | scripts/sentinel-manifest.py:751-759 | the candidate checkpoint: binding written or compared |
| CiPublication.RunDir.FromBinding | scripts/sentinel-manifest.py:760-766 | the binding checkpoint: the candidate replaces the manifest |
| AuditRecovery.FailedRunIsHealthy | scripts/sentinel-manifest.py:868-905 | for every manifest a local run left with a failed executor, an uninterrupted call can finish the directory if and only if it is in a phase; stranded without any recovery file it is in the first one |
| AuditRecovery.AuditPathsAreFresh | scripts/sentinel-manifest.py:283-332 | a good ledger of a run whose executor failed names none of the three audit paths |
| AuditRecovery.BindAccepted | scripts/sentinel-manifest.py:868-941 | in the last phase `recover_audit` accepts what the driver derives: nothing else can block it |
| AuditRecovery.BindingMeans | scripts/sentinel-manifest.py:868-941 | whatever event and checkpoint are offered, what is bound answers the last executor effect of a failed local run with the audit file and the settled row of the request the spec names, without normal artifacts |
| AuditRecovery.CallEndsExactly | scripts/sentinel-demo.sh:961-1059 | from each phase and for each number of surviving writes: finished, healthy, or torn exactly between the two reports |
| AuditRecovery.HealthyFinishes | scripts/sentinel-demo.sh:961-1059 | an uninterrupted call finishes every healthy directory |
| AuditRecovery.CallIsForward | agent/charter_audit_recovery.py:168-248 | in any directory, finished or not: files only appear, a terminal row stays, a row ends only by the audit file, and the manifest changes only to the failed run with its executor recovered: one checkpoint over the three audit files and one event that answers the stranded effect; a call that finishes leaves a recovered run |
| AuditRecovery.RunStaysWhole | agent/charter_audit_recovery.py:168-248 | through any crashes and any store traffic of other requests a healthy directory stays finishable or finished, unless a call died between the reports |
| AuditRecovery.TornIsPermanent | agent/charter_audit_recovery.py:189-190 | a directory with one limited report is refused by every call |
| AuditRecovery.TornForever | agent/charter_audit_recovery.py:189-190 | and stays so in every run |
| AuditRecovery.UnloggedBlocks | agent/charter_audit_recovery.py:133-135 | an unknown row without its log entry puts its directory in no phase of recovery |
| AuditRecovery.UnloggedIsPermanent | agent/charter_audit_recovery.py:133-135 | through any calls and any commits but that log entry and settlements of this request, the row stays unlogged, manifest and files stay as they are, and every further call is refused |
| AuditRecovery.RecoveredIsAuditOnly | scripts/sentinel-manifest.py:951-978 | a recovered run is a local one with exactly the first seven stages passed, whose executor rests on the audit contract and none of its normal artifacts; spec, audit, reports and settled row name one request, and every effect on record names files that are there |
| AuditRecovery.CheckBinding | scripts/sentinel-manifest.py:868-941 | publishes only when event, files, store row and stranded effect all bind |
| AuditRecovery.VerifyRecovered | scripts/sentinel-manifest.py:951-978 | decides the recovered terminal state |
| AuditRecovery.RecoveryRun.Drive | scripts/sentinel-demo.sh:961-1059 | one driver call in a process that survives a number of durable writes |
| AuditRecovery.RecoveryRun.AcquireAudit | agent/charter_audit_recovery.py:197-235 | opens the store, which recovers it, and publishes the audit only if the source proves one request |
| AuditRecovery.RecoveryRun.Terminalize | agent/charter_audit_recovery.py:238-248 | settles only from the durable audit file, with its source digest as receipt |
| AuditRecovery.RecoveryRun.PublishReports | scripts/sentinel-demo.sh:1015-1045 | two reports, one write after the other |
| AuditRecovery.RecoveryRun.BindManifest | scripts/sentinel-demo.sh:1046-1058 | the manifest binding as the last write |
| Luhn.CheckLuhn | agent/pii.py:99-111 | one pass from the right decides the Luhn condition on 13 to 19 digits |
| Luhn.SingleErrorDetected | agent/pii.py:103-111 | one wrong digit always invalidates a valid number |
| Luhn.TranspositionDetected | agent/pii.py:103-111 | swapping neighbours goes unnoticed exactly for equal digits and for 0 beside 9 |
| ResponseGuard.BoundedPrefix | agent/charter_response_guard.py:88-98 | the longest prefix within 256 scalars and 512 UTF-8 bytes, marked truncated exactly if it is proper |
| ResponseGuard.Budget | agent/pii.py:123-137 | replacing matches that each hold k characters of a class pays for the count out of those in the text |
| ResponseGuard.DigitsPay | agent/pii.py:139-184 | all card findings at thirteen digits and phone findings at eight are covered by the digits of the original text |
| ResponseGuard.ShapesPay | agent/pii.py:185-187 | emails, tokens and identifiers are covered by the @, dots and hyphens of the original text |
| ResponseGuard.TallyBounded | agent/charter_response_guard.py:115-125 | hence no reason is counted more often than the text has characters |
| ResponseGuard.TalliesPay | agent/pii.py:139-187 | each reason's count is paid for in characters of its own shape: 13 digits a card, 8 a phone, one @ an address, two dots a token, four hyphens an identifier |
| ResponseGuard.Collect | agent/charter_response_guard.py:116-122 | the dictionary holds exactly the positive sums of the findings |
| ResponseGuard.VerdictUnique | agent/charter_response_guard.py:101-129 | the guard's contract admits only one decision for a body and content type |
| ResponseGuard.AcceptedExactly | agent/charter_response_guard.py:101-129 | a preview is accepted if and only if the media type is admitted, the body is UTF-8 and no card, phone, address, token, identifier, bare number or attempt fires in it |
| ResponseGuard.AcceptedPreview | agent/charter_response_guard.py:88-129 | an accepted preview is the beginning of the text, at most 256 scalars and 512 bytes, and all of it or so much that one more scalar would be too long |
| ResponseGuard.GuardResponsePreview | agent/charter_response_guard.py:101-129 | quarantine with the exact count of every reason if there is any, else the longest acceptable prefix |
| Receipt.AcceptedUnchanged | agent/charter_receipt.py:109-149 | both validators return what they accept unchanged |
| Receipt.AcceptedMeans | agent/charter_receipt.py:88-149 | what either validator accepts names the request and has a status its method allows and a size within the cap; a v2 object is a GET's with a fitting preview or positive counts, any other result a POST's |
| Receipt.BothAcceptExactlyV2 | agent/charter_receipt.py:128-149 | executor result and stored receipt agree on exactly the GET v2 receipts |
| Receipt.GuardReceivable | agent/charter_receipt.py:88-106 | every verdict of the guard on a capped body is a valid preview or has counts between 1 and 65536 |
| HostBroker.StepKeepsInv | workbench/host_broker.py:281-543 | every operation and restart keeps ids and envelopes unique and all claimed commands ahead of all queued ones |
| HostBroker.AtMostOnce | workbench/host_broker.py:439-543 | on every run a command is claimed at most once, its capability authorizes at most once, and it gets at most one result |
| HostBroker.ClaimIsFirstIn | workbench/host_broker.py:442-468 | a claim takes the earliest queued command: all before it were claimed, all from it on wait |
| HostBroker.RunEvolves | workbench/host_broker.py:536-543 | commands are never lost or reordered and no status goes back |
| HostBroker.EqualEnvelopesShare | workbench/host_broker.py:305-331 | a later equal envelope is answered with the first command's id exactly for its owner, and queues nothing |
| HostBroker.MemoryBroker.SubmitCommand | workbench/host_broker.py:318-358 | the dictionaries submit as the abstract queue does |
| HostBroker.MemoryBroker.ClaimNextForWorker | workbench/host_broker.py:439-449 | the dictionaries claim as the abstract queue does |
| HostBroker.MemoryBroker.AuthorizeWorkerClaim | workbench/host_broker.py:477-492 | the dictionaries authorize as the abstract queue does |
| HostBroker.MemoryBroker.FinishWorkerCommand | workbench/host_broker.py:518-534 | the dictionaries finish as the abstract queue does |
| SqliteBroker.SubmitRefines | workbench/host_broker.py:318-358 | with caches that agree with the table a submission is the abstract one, unless its INSERT fails |
| SqliteBroker.AgreementExactly | workbench/host_broker.py:332-357 | the caches go on agreeing if and only if this was not a failed INSERT |
| SqliteBroker.AgreementStable | workbench/host_broker.py:318-331 | nothing other processes do to the table disturbs agreement |
| SqliteBroker.FailedInsertPoisons | workbench/host_broker.py:332-357 | a failed INSERT leaves the envelope cached under an id no row has |
| SqliteBroker.AnswersAreRemembered | workbench/host_broker.py:318-358 | what is answered or queued is cached: the envelope with its command, the command with its owner |
| SqliteBroker.PoisonRefuses | workbench/host_broker.py:318-331 | an envelope cached under an id no row has is refused to everybody and queued for nobody: its own session is told the command is unknown, all others that they do not own it |
| SqliteBroker.PoisonLastsExactly | workbench/host_broker.py:318-331 | whatever this and all other processes submit, claim or finish, it stays so exactly until that process reopens the file |
| SqliteBroker.ClusterRefines | workbench/host_broker.py:281-543 | any number of processes over one table, restarts included, refine one abstract queue as long as no INSERT fails |
| SqliteBroker.Broker.constructor | workbench/host_broker.py:536-543 | opening fails running commands when asked to recover, with empty caches |
| SqliteBroker.Broker.RequireOwner | workbench/host_broker.py:415-426 | ownership from the cache or the table, caching what it reads |
| SqliteBroker.Broker.SubmitCommand | workbench/host_broker.py:318-358 | table, caches and answer of one submission, with caches filled before the INSERT |
| SqliteBroker.Broker.ClaimNextForWorker | workbench/host_broker.py:450-474 | the claim transaction on the table, which is the abstract queue itself |
| SqliteBroker.Broker.AuthorizeWorkerClaim | workbench/host_broker.py:493-515 | the guarded UPDATE of an authorization on that table |
| SqliteBroker.Broker.FinishWorkerCommand | workbench/host_broker.py:518-534 | the guarded UPDATE of a result on that table |
| BrokerRuns.ResultsExactly | workbench/host_broker.py:518-543 | in every legal run a command is succeeded if and only if a success was reported for it while it ran, and failed if and only if a failure was, or a restart found it running |
| BrokerRuns.FinishAnswers | workbench/host_broker.py:518-534 | a report is accepted exactly for a running command and answered with the status then on record; an unknown command and one that is not running are told apart |
| BrokerRuns.SubmitAnswers | workbench/host_broker.py:305-358 | a new envelope is queued under the new id; a known one is answered with its command and status to its owner and refused to every other session; what is not admitted is refused |
| BrokerRuns.JobWasSubmitted | workbench/host_broker.py:305-358 | in every run each job goes back to an admitted submission of its own envelope, session and id |
| BrokerRuns.SubmittedHasJob | workbench/host_broker.py:305-358 | and from every admitted submission on there is a job for its envelope |
| BrokerRuns.AuthorizesExactly | workbench/host_broker.py:477-515 | in every legal run a worker is authorized if and only if the command still runs, some claim handed out this capability for it, and nobody was authorized for it before |
| BrokerRuns.ClaimsIfAny | workbench/host_broker.py:439-474 | a claim comes back empty exactly if nothing is queued |
| Order.Sort | workbench/comparison_pair.py:64-65 | `sorted` on distinct keys gives the ascending list of the same elements |
| Order.AscendingUnique | workbench/intake.py:397-398 | a set has one ascending list, so comparing with the sorted list is testing the order |
| B3Attempts.StepKeepsInv | workbench/b3_attempt_store.py:66-219 | every step of every process, opener and revocation keeps keys unique, processes apart and calls accounted for |
| B3Attempts.AtMostOneCall | workbench/b3_dispatcher.py:183-248 | over the store's lifetime a key has one attempt and at most one provider call, made after it left `reserved` |
| B3Attempts.RunEvolves | workbench/b3_attempt_store.py:158-219 | attempts are never removed, keep key and profile, and never return to an earlier status |
| B3Attempts.EndsSettled | workbench/b3_dispatcher.py:206-248 | a dispatch that ends by itself leaves its attempt succeeded, failed or unknown |
| B3Attempts.StatusTells | workbench/b3_attempt_store.py:118-219 | in every legal run the status tells what happened: reserved and failed attempts were never dispatched or called, succeeded ones were called exactly once, unknown ones were dispatched |
| B3Attempts.RevocationWins | workbench/b3_attempt_store.py:112-141 | a reserved attempt of a profile already revoked is never dispatched and never called for |
| B3Attempts.EarnedOnce | workbench/b3_dispatcher.py:206-248 | in every legal run at most one settlement turns an attempt of a given key into a succeeded one |
| B3Attempts.SucceededWasEarned | workbench/b3_dispatcher.py:206-248 | and every succeeded attempt was turned by such a settlement of its own key |
| B3Attempts.MigrationKeepsOutcomes | workbench/b3_attempt_store.py:221-257 | migration and recovery keep every settled outcome and unique keys, and block no real unit |
| B3Dispatch.DispatchSettles | workbench/b3_dispatcher.py:183-248 | whatever others commit between its statements: at most one call, only for a healthy route, an admitted egress, a free key and an unrevoked profile; an attempt made is failed without a call, succeeded exactly when there is a receipt, unknown otherwise; and without a call there was one of these reasons |
| DispatchAsRun.DispatchIsOneRun | workbench/b3_dispatcher.py:183-248 | in every legal run of the interleaving model the steps of one dispatch, with any steps of others between them, have an effect its contract allows |
| DispatchAsRun.DispatchExactly | workbench/b3_dispatcher.py:183-248 | in every legal run a dispatch for a free key calls the provider if and only if egress was admitted and the profile not revoked before the dispatch step, and returns a receipt if and only if moreover the answer is usable and nobody restarted the store before the settlement; what status it leaves in each case |
| DispatchAsRun.ReceiptIsEarned | workbench/b3_dispatcher.py:227-248 | a receipt stands for the settlement that turned an attempt of its key into a succeeded one |
| DispatchAsRun.OneReceiptPerKey | workbench/b3_dispatcher.py:183-248 | of two dispatches for one key, however they interleave, at most one returns a receipt |
| DispatchAsRun.InterleavedConsensus | workbench/ai_arm.py:25-59 | two consensus processes for one run and selection, interleaved step by step in any way, do not both get all their receipts |
| B3Dispatch.AttemptStore.Reserve | workbench/b3_attempt_store.py:66-110 | reserves under a new id exactly if the key is free |
| B3Dispatch.AttemptStore.MarkDispatched | workbench/b3_attempt_store.py:118-141 | dispatches exactly a reserved attempt of the same, unrevoked profile |
| B3Dispatch.AttemptStore.Transition | workbench/b3_attempt_store.py:158-182 | one guarded UPDATE |
| B3Dispatch.Dispatcher.Dispatch | workbench/b3_dispatcher.py:183-248 | store, provider calls and receipt of every branch, with any commits of other processes between its statements |
| B3Consensus.RecurrenceConserves | workbench/ai_arm.py:37-55 | the recurrence counts sum to all proposals of all receipts |
| B3Consensus.VotesAreReceipts | workbench/ai_arm.py:50-55 | a unit's votes are the receipts that name it |
| B3Consensus.NonAnswersAreReceipts | workbench/ai_arm.py:50-51 | and the non-answers are the receipts that name nothing |
| B3Consensus.WorklistMeans | workbench/ai_arm.py:56-59 | a worklist is twelve units with two receipts or more, by falling number of receipts and rising id, and no unit left out has more |
| B3Consensus.WorklistUnique | workbench/ai_arm.py:56-59 | the receipts determine the worklist |
| B3Consensus.SelectWorklist | workbench/ai_arm.py:56-59 | the first twelve ids in at least two receipts by falling count and rising id; none if there are fewer |
| B3Consensus.CountProposals | workbench/ai_arm.py:52-55 | counting one receipt keeps the dictionary equal to the votes |
| B3Consensus.ReadUnit | workbench/ai_arm.py:41-55 | one dispatch of the loops adds its receipt, its votes and its settled attempt |
| B3Consensus.Read | workbench/ai_arm.py:40-55 | one pass reads every unit once, in order, with one call each |
| B3Consensus.ReadAll | workbench/ai_arm.py:39-55 | three passes: 3n receipts for exactly the planned readings, 3n calls, 3n succeeded attempts |
| B3Consensus.RunConsensus | workbench/ai_arm.py:25-59 | beside any other processes on the store, a success stands for three readings of at least twelve units, counted without loss, and the one worklist they determine |
| B3Consensus.SucceedsAtMostOnce | workbench/ai_arm.py:25-59 | over the lifetime of a store, two successes for one run and selection could only be of one process and overlap in time, which one process does not do |
| SealedIntake.CopyDirectory | workbench/intake.py:127-197 | the recursive walk yields exactly the admitted files depth first and copies them, or gives up exactly on a violation |
| SealedIntake.CopyEntry | workbench/intake.py:141-196 | the same for one directory entry |
| SealedIntake.WalkFindsExactly | workbench/intake.py:127-197 | the walk records a path with some contents if and only if the tree has an admitted file at that place |
| SealedIntake.ViolatesExactly | workbench/intake.py:141-196 | admission refuses a tree if and only if something at some place of it is forbidden or an unsafe ignored entry |
| SealedIntake.WalkOrderIsPathOrder | workbench/intake.py:138-197 | the walk lists paths in path order if and only if no yielding folder has a yielding sibling named with it and a character below the separator |
| SealedIntake.CheckInventory | workbench/intake.py:377-398 | the entry loop accepts exactly non-empty lists of safe, distinct paths in order |
| SealedIntake.PathOkExactly | workbench/intake.py:385-396 | a path is safe if and only if it is relative, not empty and none of its segments is a parent step |
| SealedIntake.ResolvesExactly | workbench/intake.py:340-452 | whatever the store holds, a snapshot resolves if and only if its manifest is the one its id digests, the profile is that of the seal, the inventory is a non-empty list of safe paths in order, and the stored files are exactly the listed ones with the listed contents |
| SealedIntake.AlteredNeverResolves | workbench/intake.py:407-452 | a snapshot that resolves does not resolve once its stored files are changed, added to or removed from |
| SealedIntake.SealResolvesExactly | workbench/intake.py:71-103 | sealing then resolving succeeds if and only if nothing in the tree violates admission, some file is admitted, and no such siblings exist |
| SealedIntake.SealedFilesExact | workbench/intake.py:379-414 | what resolves is exactly the admitted file map, and earlier snapshots stay intact |
| SealedIntake.FolderBesideFile | workbench/intake.py:397-398 | `auth/` beside `auth.ts` never seals |
| SealedIntake.EvidenceRoot.ResolveSnapshot | workbench/intake.py:340-452 | resolves exactly the snapshots that the store holds intact for that profile, and returns their stored files |
| SealedIntake.EvidenceRoot.SealRegisteredRoot | workbench/intake.py:71-103 | the verdict, and that snapshot and manifest are published before the final check may refuse them |
| Packing.Pack | rag/chunking.py:57-81 | pieces of 1 to max characters, nothing lost or reordered, and no packing with fewer pieces when every part fits |
| Packing.KeptExactly | rag/chunking.py:57-63 | exactly as many paragraphs are packed as are not empty, and never an empty one |
| Packing.KeptInOrder | rag/chunking.py:57-63 | and their text is that of the input in order |
| Packing.Cut | rag/chunking.py:66-72 | an overlong paragraph is sliced without loss |
| Packing.OneMoreNeeded | rag/chunking.py:73-76 | where the open piece cannot take a paragraph, every packing needs one piece more |
| Packing.Restrict | rag/chunking.py:57-81 | a packing of all paragraphs gives one of any prefix with no more pieces |
| Chunking.StackIsPathExactly | rag/chunking.py:46-50 | the heading stack is the true path throughout if and only if every heading cuts it where the open sections close |
| Chunking.ProperNestingIsTrue | rag/chunking.py:46-50 | which holds when levels start at one and never skip downward |
| Chunking.TwoSiblingsBelowNothing | rag/chunking.py:50-50 | two second-level headings at the top: the first is filed as ancestor of the second |
| Chunking.LineHasBlock | rag/chunking.py:41-53 | every line that is not a heading lies in exactly one block, and the blocks are disjoint and in the order of their lines |
| Chunking.InFenceExactly | rag/chunking.py:41-45 | a line counts as fenced if and only if an odd number of fence lines stand before it |
| Chunking.BlocksFiledTruly | rag/chunking.py:37-53 | each block is filed under the true path of each of its lines if and only if every heading cuts the stack where the open sections close |
| Chunking.ChunksUnderTruePaths | rag/chunking.py:25-54 | when levels start at one and never skip, every chunk is a piece of one block and carries the true ancestor path of all its lines |
| Chunking.ChunkMarkdown | rag/chunking.py:25-54 | the chunks are the blocks in order, each packed and filed under its path; with proper nesting every returned chunk is under its true path |
| ComparisonPair.RenamesBijective | workbench/comparison_pair.py:75-82 | renames are one-to-one and keep the digest |
| ComparisonPair.RenamedExactly | workbench/comparison_pair.py:75-82 | a gone path is renamed if and only if its digest is gone once on each side |
| ComparisonPair.DiffPartitions | workbench/comparison_pair.py:83-89 | every base path is exactly one of deleted, renamed, modified, unchanged, and every candidate path likewise |
| ComparisonPair.DiffMirrors | workbench/comparison_pair.py:64-89 | swapping the snapshots mirrors the diff |
| ComparisonPair.DiffSaysWhatChanged | workbench/comparison_pair.py:64-89 | a path both snapshots have is listed as modified if and only if its bytes differ; renames move the same bytes from a gone path to a new one; the diff is empty if and only if the snapshots are equal |
| ComparisonPair.ByDigest | workbench/comparison_pair.py:69-74 | the dictionary groups the paths by digest in order |
| ComparisonPair.FindRenames | workbench/comparison_pair.py:66-82 | finds exactly the renames and leaves exactly the true deletions and additions |
| ComparisonPair.BuildDiff | workbench/comparison_pair.py:62-89 | the four sorted lists hold exactly what the definitions say |
| Retrieval.DominanceRespected | rag/retrieve.py:168-174 | ahead in every list that holds the other means a strictly higher score |
| Retrieval.AgreementWinsExactly | rag/retrieve.py:22-23 | for lists of depth at most c, items in both lists beat items in one if and only if c < rrf_k + 2, as 30 and 60 do |
| Retrieval.RrfFuse | rag/retrieve.py:165-180 | each id of the union once with its exact fused score, by falling score, ties by first appearance |
| Retrieval.TiesByFirstAppearance | rag/retrieve.py:165-180 | of two ranked ids the earlier has the higher fused score, or the same and was seen first when the lists are read one after the other |
| Retrieval.HybridSearch | rag/retrieve.py:183-192 | refused for impossible depths; else the first k of the fusion in order, none left out scoring higher, and all of it if there are not k |
| RankingMetrics.RankedDocKeys | rag/evaluate.py:31-39 | the seen-set loop gives the first appearances |
| RankingMetrics.FirstSeenKeepsOrder | rag/evaluate.py:31-39 | deduplication keeps the order of first appearance |
| RankingMetrics.QueryMetrics | rag/evaluate.py:42-54 | the comprehensions and sums give the three metrics |
| RankingMetrics.MetricsInRange | rag/evaluate.py:42-54 | all three lie between 0 and 1 |
| RankingMetrics.RecallIsOneExactly | rag/evaluate.py:46-49 | recall is 1 if and only if something is expected and all of it is among the first k |
| RankingMetrics.RecallExactly | rag/evaluate.py:46-49 | recall is the share of the expected documents that stand among the first k, and 0 when nothing is expected |
| RankingMetrics.NdcgIsShare | rag/evaluate.py:51-54 | nDCG is the gain collected by the first k over what a best ranking collects, and 0 when nothing can be found |
| RankingMetrics.DcgAdds | rag/evaluate.py:51-52 | the gain of two disjoint expected sets is the sum of their gains |
| RankingMetrics.DcgOfOne | rag/evaluate.py:51-52 | and a single expected document gains what its position gains |
| RankingMetrics.NdcgIsOneExactly | rag/evaluate.py:51-54 | nDCG is 1 if and only if something can be found and the first min(expected, k) results exist and are all expected |
| RankingMetrics.ReciprocalRankExactly | rag/evaluate.py:48-50 | the reciprocal rank is 1 / (r + 1) if and only if r is the first position among the first k with an expected result, and 0 if and only if there is none |
| RankingMetrics.ReciprocalRankIsOneExactly | rag/evaluate.py:48-50 | reciprocal rank is 1 if and only if the first result is expected |
| FuzzBudget.PrioritizedIsReordering | agent/fuzz.py:108-114 | prioritizing loses no payload and puts every injection payload first |
| FuzzBudget.KillSwitchStops | agent/fuzz.py:154-167 | no probe follows three failures in a row |
| FuzzBudget.OnlyKillSwitchStops | agent/fuzz.py:154-167 | and nothing but three failures in a row stops the payloads of a target early |
| FuzzBudget.SentInOrder | agent/fuzz.py:155-168 | each outcome belongs to the payload at its position |
| FuzzBudget.VisitExactly | agent/fuzz.py:108-168 | a target is probed only after an answered baseline, with up to forty payloads, the injection classes first and each kind in corpus order for an injection target and the plain corpus otherwise, and stops earlier exactly by the kill switch |
| FuzzBudget.VisitedInOrder | agent/fuzz.py:137-168 | targets are visited in order, each while the count is below 500 |
| FuzzBudget.EndsByBudget | agent/fuzz.py:137-168 | and a run ends before the last target only with the count at 500 or more |
| FuzzBudget.SignalsExactly | agent/fuzz.py:160-178 | a key is signalled if and only if some answer of some visited target showed its kind under its payload class |
| FuzzBudget.CountsExactly | agent/fuzz.py:170-173 | each signal of a kind counts once |
| FuzzBudget.RunBounded | agent/fuzz.py:137-168 | a run counts at most 500 + min(40, corpus) requests |
| FuzzBudget.Run | agent/fuzz.py:117-181 | the visits, the count, the signal counts, and each (path, class, kind) reported exactly once |
| FuzzBudget.FuzzNode | agent/supervisor.py:224-251 | charges the run to the checkpointed budget, and does nothing at the ceiling |
| FuzzBudget.RunBoundTight | agent/fuzz.py:137-168 | that bound is met by some gateway: 540 for forty payloads or more |
| FuzzBudget.ThreadBounded | agent/supervisor.py:472-479 | over any number of resumes at most 2 * 500 - 1 + min(40, corpus), and nothing after the ceiling |
| FuzzBudget.ThreadBoundTight | agent/supervisor.py:472-479 | that bound is met in two rounds, one to 499 and one to the bound of a run |
| FuzzBudget.NominalBudgetExactly | agent/fuzz.py:34-36 | 500 counted requests suffice for every gateway if and only if there is no payload or the targets times 1 + min(40, corpus) are at most 500 |
| PairPublication.StepTouchesOwn | agent/charter_contracts.py:193-214 | which names a step may change: its staging names, an absent destination, the first destination once |
| PairPublication.ForeignLostExactly | agent/charter_contracts.py:165-171 | a foreign file is lost if and only if it takes the first name between comparison and unlink |
| PairPublication.WindowLosesFile | agent/charter_contracts.py:165-171 | a run of the transaction with one foreign replacement loses that file |
| PairPublication.SuccessIsTwoLinks | agent/charter_contracts.py:193-214 | success means both links were made, in order, each while its destination was absent |
| PairPublication.NothingLeftBehind | agent/charter_contracts.py:165-214 | whatever others do at the destinations, a transaction that gave up leaves neither of its files at either |
| PairPublication.AllOrNothingExactly | agent/charter_contracts.py:174-214 | the outcome is both files or neither and nothing foreign removed, if and only if: after success nobody touched a destination since its link; after giving up nobody bound the first destination last between comparison and unlink |
| PairPublication.QuietOutcome | agent/charter_contracts.py:174-214 | undisturbed at its destinations it ends with both files or with what was there, both exactly if neither name was taken, and without staging names |
| PairPublication.Directory.WritePair | agent/charter_contracts.py:174-214 | with others between any two of its calls the method does one run of the step system, and refuses equal destinations |

## Left out

- Cryptography, OAuth, HTTP, Docker, git and model calls: a signature check, a token mint, a target or provider answer and a gateway log are given outcomes.
- SQL parsing, schema inspection, lock retries, fsync, file modes, symbolic links and mount checks; a table is a map with atomic transactions and statements.
- JSON shape validation and artifact parsing: what a file parses as is a set of kinds, and shape errors of one ledger event are one flag.
- `valid`: metrics, resources, profile, identity fields and the sensitive-text scan; manifests of version 1. The output digest is modelled in `CiPublication` only.
- `_media_reason`: the verdict on the content type is given; only its effect on the guard is modelled.
- Regular expressions: matchers with the characters a match must hold. The tabular card pass is one such matcher followed by what re-joining the lines loses.
- Broker bootstrap, sessions, origin and request tokens, and the allowlists: whether a submission is admitted is given, and fresh command ids are assumed unused.
- Argument type checks, and the length check of the configuration digest in `run_b3_consensus`.
- Provider route health, prompt construction and the field checks of a response: given as outcomes; that a response names distinct admitted units is modelled.
- `audit_candidate` and `parse_kong_file_log`: whether the log proves exactly one bounded request is given.
- A chunk carries its section as the list of titles. Markdown line classification and splitting a buffer at blank lines are given; fences, the stack, the flush and the packing are modelled.
- `retrieve_charter`, the dense and lexical searches, and the loop that feeds the metrics.
- `math.log2`: any strictly falling positive gain. Rounding of floating-point numbers.
- The fuzz corpus, signal detection, payload order report and guidance text.
- `ingest` and `store`: documents and chunks are inserted or updated by digest, and chunks whose digest is gone are deleted. The grouping of aggregate findings in `week3_analysis`.
- RunManifest.Validate: does not check metrics, resources, profile and identity fields, the sensitive-text scan or the output digest.
- ExecuteAsRun.ExecuteIsOneRun: for a valid spec and an API key; without them `execute` touches nothing.
