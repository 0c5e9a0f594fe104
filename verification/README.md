# DSX control plane and node engines: a verified model

The system leases typed jobs (provision, back up, upload, restore, clean up) from handlers over D1
tables to agents, which hand them to root-owned engines on a node. This project models both halves,
and the ownership marker where they meet, and proves what their combination promises.

Verify everything with `dafny verify dfyconfig.toml` (Dafny 4.11).

## Modules

| file | models |
|---|---|
| `Runs.dfy` | runs of a transition relation: invariants, relations between two points of a run, reachability |
| `BackupLeg.dfy`, `BackupArtifacts.dfy`, `BackupHandlers.dfy` | the backup and upload handlers, one database call at a time, any number interleaved, any of them stopping anywhere; then each of them alone, from its first call to its last |
| `RestoreGates.dfy` | the artifact lists between a verified backup and its restore, the manifest checks, the replay comparisons |
| `LeasedJobs.dfy`, `Replays.dfy`, `HandlerRules.dfy`, `ControlPlane.dfy` | the five job machines at handler granularity: claim, expire, report, route, retry, event logs; what the handlers answer and store, replays included; what each handler does to reachable tables, in the columns themselves; then the handlers as methods on the tables |
| `NodeState.dfy` | one node: databases with owner and marker, filestores, and every external command with a nondeterministic outcome |
| `Provisioner.dfy`, `CleanupEngine.dfy`, `BackupEngine.dfy`, `RestoreEngine.dfy`, `Filestore.dfy` | the engines as classes over that node, with the archive and its extraction |
| `NodeIsolation.dfy` | any sequence of requests on one node |
| `Ownership.dfy` | control plane, agent and node together |
| `TrialLifecycle.dfy`, `ExpiryScan.dfy` | trials over whole runs, and the scheduled scan |
| `Conversion.dfy`, `Placement.dfy`, `RuntimePorts.dfy`, `DerivedNames.dfy` | conversions, node selection, port pairs, derived names |

## How to read the model

- A command of a node engine answers, exits with a bad code, or raises, and what does not answer may
  still have taken effect. `Node.faults` collects the kinds of command that misbehaved during one
  request; an engine's `Effect` predicate relates the state before, the reply, the state after and
  these faults. With no fault a provisioning, cleanup, backup or restore succeeds exactly when it is `Eligible`.
- Lemmas about what the engines can do speak about `Effect`, which the engine methods are proved to satisfy; for
  the outcomes they name it states exactly when these are possible.
- Tokens and ids are fresh, hashing is injective, the clock never runs backwards. Ids are shared
  between tables only by a restore and the provisioning row its trigger inserts.
- Rows that a query returns are parameters, constrained by a predicate that states the query.
- The node's server works one request at a time, in order; the agent may crash, give up or lose an
  answer between any two steps.

## Where the code does less than it seems to promise

Each of these is a lemma with a concrete run or an exact condition.

- A backup claim that stops between its lease insert and its dispatch leaves the job queued and leased.
  The claim skips it because it is leased, the expiry scan because it is queued: it is never handed
  out again (`OrphanIsReachable`, `OrphanIsForever`, `QueuedLeaseIsLiveIffHeld`).
- The batch of a `prepared` report replaces the artifact rows even when the job has moved on. Two different
  reports racing under one lease leave rows that contradict the job row (`DisagreeingReportsAreReachable`);
  written after the verification, a report with another dump leaves a verified backup whose row no longer
  describes its object (`LateBatchIsReachable`). Over a run a prepared backup stays consistent exactly when
  every later batch has the total and hash of its job row (`ConsistentIffBatchesFit`), and a verified one stays
  restorable exactly when every later batch has the digests of the uploaded objects
  (`RestorableIffBatchesFit`); with one handler at a time both always hold (`SerialBackupsAreRestorable`).
- Database names lose their unique suffix when prefix and slug are long (`LongSlugsShareAName`,
  `NamesDifferIff`). With a shared name a retried cleanup meets a foreign marker and can only fail
  (`SharedNameMismatch`), and so does the cleanup of a tenant that got a second provisioning job after a lost
  report (`TwoJobsMismatch`);
  `OwnershipAgreement` therefore asks for one job and a name of its own, of the tenant it speaks about only.
- A createdb or pg_restore that times out, or an exception outside ProvisionerError after createdb, leaks an
  unmarked database (`LeakIsReachable`), which then blocks its name for good (`LeakIsForever`).
- An exception outside the two families the restore catches leaves the staging folder behind
  (`StagingLeftoverIsReachable`), and so does a failing rmtree (`FailedRemovalIsReachable`); nothing removes it
  and further attempts of that restore stop at it (`StagingLeftoverIsForever`).
- The 21st lapsed trial cleanup lease, and any that lapses between the two sweeps of one claim, is swept by the
  handler for test tenants, which does not set trial_state; that trial can never be cleaned (`TooManyStrandOne`,
  `LateLapseStrandsOne`, `StrandedIsForever`). A sweep of that handler keeps all trials in order exactly when it
  finds none of them (`SweepStaysClosedIff`).
- A report with a lapsed upload token deletes its own lease row; it changes nothing else (`StaleLeasesAreFenced`).
- Retries and restore reservations do not ask for room on a node (`UncheckedAssignment`).

## Model

| member | source | states |
|---|---|---|
| `BackupLeg.BackupLegSafety` | deploy/cloudflare/src/backupOperations.ts:220-507 | in every reachable state of interleaved, stoppable backup and upload handlers a lease row means queued, dispatched or running, dispatched or running means a lease row, and no job was handed out twice |
| `BackupLeg.RunMovesForward` | deploy/cloudflare/src/backupOperations.ts:391-502 | between any two points of a run a job never returns to an earlier state, a prepared one can only be verified, and a failed or verified row never changes |
| `BackupLeg.OrphanIsForever` | deploy/cloudflare/src/backupOperations.ts:267-300 | a queued, leased job that no handler holds is never handed out afterwards |
| `BackupLeg.QueuedLeaseIsLiveIffHeld` | deploy/cloudflare/src/backupOperations.ts:267-318 | a queued, leased job can still be handed out exactly when a handler stands between its lease insert and its dispatch |
| `BackupLeg.OrphanIsReachable` | deploy/cloudflare/src/backupOperations.ts:267-288 | such an orphan is reachable: the claim stops after its insert |
| `BackupHandlers.ReportAlone` | deploy/cloudflare/src/backupOperations.ts:377-502 | a backup report whose three calls meet no other handler is accepted exactly under the job's own live lease, on its node, from dispatched or running, a prepared one from running; then it moves the job, extends or removes the lease and stores the artifacts, and otherwise it changes nothing |
| `BackupHandlers.UploadReportAlone` | deploy/cloudflare/src/backupUploadOperations.ts:409-455 | an upload report without the node's token changes nothing, one with a lapsed lease removes that, a running one extends it, a failed one removes it, a verified one goes on exactly when the backup is prepared on the node |
| `BackupHandlers.UploadMatchAlone` | deploy/cloudflare/src/backupUploadOperations.ts:342-518 | returned objects are stored, and the backup is verified, exactly when each is one of its three artifacts by size and hash under its own key |
| `BackupHandlers.ClaimAlone` | deploy/cloudflare/src/backupOperations.ts:267-329 | a claim whose calls meet no other handler leases, dispatches and counts a queued job of the node without a lease, exactly when there is one |
| `BackupHandlers.UploadClaimAlone` | deploy/cloudflare/src/backupUploadOperations.ts:271-340 | an upload claim leases a prepared backup of the node with three artifacts and no upload lease, exactly when there is one, and leaves the backup as it is |
| `BackupArtifacts.VerifiedIsRestorable` | deploy/cloudflare/src/backupUploadOperations.ts:456-518 | in every interleaving in which the batches written for a job carry the same digests, a prepared backup has exactly three artifacts with them that sum to the stored total with the stored manifest hash, and every row of a verified one points at an object under the right key with exactly that digest |
| `BackupArtifacts.IntactIffBatchesAgree` | deploy/cloudflare/src/backupOperations.ts:426-478 | over any run a backup stays as prepared with digests d, and restorable once verified, exactly when every prepared batch that reaches it, however late, carries d |
| `BackupArtifacts.SerialBackupsAreRestorable` | deploy/cloudflare/src/backupUploadOperations.ts:342-518 | when handlers run one at a time, each of which may still stop anywhere, every prepared backup is consistent and every verified one restorable, with no hypothesis on the reports |
| `BackupArtifacts.LateBatch` | deploy/cloudflare/src/backupOperations.ts:459-476 | a late batch keeps a prepared backup consistent exactly when it has the stored total and manifest hash, and a verified one restorable exactly when its digests are those of the uploaded objects |
| `BackupArtifacts.ConsistentIffBatchesFit` | deploy/cloudflare/src/backupOperations.ts:426-478 | over every run the rows of a backup fit its job row throughout exactly when every batch after the first has the total and manifest hash of the job row |
| `BackupArtifacts.RestorableIffBatchesFit` | deploy/cloudflare/src/backupUploadOperations.ts:456-518 | from its verification on a backup stays restorable throughout a run, late upload reports included, exactly when every batch still written for it has the digests of the uploaded objects |
| `BackupArtifacts.DisagreeingReportsAreReachable` | deploy/cloudflare/src/backupOperations.ts:377-478 | a run in which two differing reports on one live lease leave a prepared job whose rows contradict it |
| `BackupArtifacts.LateBatchIsReachable` | deploy/cloudflare/src/backupOperations.ts:426-478 | for every first report, a run in which a second one with the same total and manifest hash is written after the verification: the backup is verified and consistent, but not restorable |
| `RestoreGates.CheckList` | deploy/cloudflare/src/restores.ts:198-209 | the loop accepts exactly the lists with each of the three kinds once whose items all pass the given check |
| `RestoreGates.ArtifactsAreValid` | deploy/cloudflare/src/restoreOperations.ts:255-276 | accepts exactly the lists with each kind once, safe sizes, hashes, versions, the backup's own object keys, the stored total and the stored manifest hash |
| `RestoreGates.ValidateManifest` | services/node_agent/dsx_node_agent/restore_service.py:287-308 | accepts exactly two entries, dump and archive in any order, each with its file name, size and hash |
| `RestoreGates.LocalAcceptsGate` | services/node_agent/dsx_node_agent/restore_operation.py:364-384 | a claim payload that passed the control plane's gate is accepted by the privileged parser once the object columns are dropped |
| `RestoreGates.GateOkIff` | deploy/cloudflare/src/restoreOperations.ts:255-276 | the restore claim lets out exactly three artifacts of different kinds, each with hash, version, a safe size and its own key under this backup, that add up to the stored safe total and carry the stored manifest hash; a foreign key, another total or another manifest hash is refused |
| `RestoreGates.ManifestOkIff` | services/node_agent/dsx_node_agent/restore_service.py:287-308 | a manifest is accepted exactly when it has an entry for the dump and one for the archive, each under its own file name with the size and hash of the listed artifact |
| `RestoreGates.VerifiedPassesEveryGate` | services/node_agent/dsx_node_agent/restore_service.py:143-171 | in every run of handlers one at a time, and in every interleaved run in which the batches written for the backup agree, a verified backup passes both restore gates, the agent's and the privileged parser, and the manifest of its artifacts passes both manifest validators |
| `RestoreGates.WorkspaceManifestPasses` | services/node_agent/dsx_node_agent/backup_service.py:426-452 | when the engine prepared a workspace and the batches written for the backup carry its digests, the manifest file in that workspace passes both manifest validators for the artifacts of the restore claim |
| `RestoreGates.ReplayComparesSets` | deploy/cloudflare/src/backupOperations.ts:349-355 | comparing two artifact lists sorted by kind is comparing them as sets, whatever their orders |
| `RestoreGates.PreparedReplayIff` | deploy/cloudflare/src/backupOperations.ts:331-356 | without a lease a prepared report is accepted exactly when the backup is prepared and it equals the stored result under any order |
| `RestoreGates.VerifiedReplayIff` | deploy/cloudflare/src/backupUploadOperations.ts:362-387 | the same for a verified report of a verified backup, node, object keys and versions included |
| `RestoreGates.PreparedReplays` | deploy/cloudflare/src/backupOperations.ts:384-389 | in every interleaving in which the batches written for the backup agree, their report is accepted again as long as the backup is prepared |
| `LeasedJobs.LeasesMirrorWork` | deploy/cloudflare/src/nodeOperations.ts:230-280 | after every handler a provisioning, backup, restore or cleanup lease exists exactly when its job is dispatched or running, on the job's node, and an upload lease only while prepared |
| `LeasedJobs.ResultReachesItsLease` | deploy/cloudflare/src/app.ts:50-83 | a result is routed to the machine whose lease it holds, although a restore and its materialised provisioning row share an id |
| `LeasedJobs.DeadTokenChangesNothing` | deploy/cloudflare/src/backupUploadOperations.ts:420-431 | a report with a token no live lease carries changes no job, no log, no result and no lease but, at most, the lapsed upload lease of that token |
| `LeasedJobs.StaleLeasesAreFenced` | deploy/cloudflare/src/restoreOperations.ts:194-221 | once a token is dead it stays so over every run, requeues and reclaims included, and no report with it changes a job, a log, a result or another lease |
| `LeasedJobs.ValidatedAtMostOnce` | deploy/cloudflare/migrations/0013_phase4_restore_cleanup_identity.sql:7-19 | a restore's log has at most one validated event, exactly when it is validated, and exactly then it has its one ready provisioning row |
| `LeasedJobs.TriggerFires` | deploy/cloudflare/migrations/0013_phase4_restore_cleanup_identity.sql:7-32 | the trigger inserts in exactly the step in which its restore becomes validated: a ready row for the restore's tenant on its node with a single event, which no later step changes |
| `LeasedJobs.EventLogIsExact` | deploy/cloudflare/src/provisioning.ts:120-128 | every job's events form a chain along its machine's edges that ends at the state column, and attempt counts the dispatches |
| `LeasedJobs.FinalRowsAreFrozen` | deploy/cloudflare/src/provisioning.ts:120-128 | ready, verified, validated and cleaned rows and their logs never change again |
| `LeasedJobs.DoneKeepsInv` | deploy/cloudflare/src/restoreOperations.ts:488-535 | an accepted terminal report keeps leases, ids, tokens and logs in order, the inserted ready row included |
| `LeasedJobs.ExpireAllKeepsInv` | deploy/cloudflare/src/restoreOperations.ts:194-221 | so does an expiry loop over any rows |
| `HandlerRules.SweepMeans` | deploy/cloudflare/src/nodeOperations.ts:178-217 | in every reachable state, after a sweep each swept provisioning, backup or cleanup row has failed from dispatched or running, each swept restore is queued again, the backup of a swept upload keeps its state; each of them has one more event, exactly the swept leases, all lapsed leases of the node, are gone, and nothing else has changed |
| `HandlerRules.ClaimMeans` | deploy/cloudflare/src/backupOperations.ts:252-329 | a claim that hands out an operation takes a row of its node that is placed, retrying, queued or, for an upload, prepared, and has no lease but one this claim has swept; it leases and dispatches it under a fresh token, counts the attempt of all but uploads and cleanups, and only sweeps every other row |
| `HandlerRules.SweepIff` | deploy/cloudflare/src/restoreOperations.ts:194-203 | in every reachable state a claim may sweep any lapsed leases of its machine on its node, each once, at most 20: their rows are always in flight, whether the query asks for that or not |
| `HandlerRules.AcceptedIff` | deploy/cloudflare/src/nodeOperations.ts:315-343 | under a live lease on the node a running report is always accepted; a failed one exactly from dispatched or running, of a cleanup from running, of an upload while prepared; a result exactly from running, of a restore also from dispatched, of an upload while prepared, when it is the stored database name, a valid artifact list, or exactly artifacts that were prepared, under the backup's own keys |
| `HandlerRules.BackupIsParsedIff` | deploy/cloudflare/src/backupOperations.ts:119-199 | a backup report is parsed exactly when it lists the three artifacts once each with hashes, safe sizes that add up to its total, the manifest's own hash and no object columns |
| `HandlerRules.RunningMeans` | deploy/cloudflare/src/nodeOperations.ts:328-365 | a running report under a live lease moves a dispatched row to running with its event, extends the lease, and changes nothing else |
| `HandlerRules.FailureMeans` | deploy/cloudflare/src/cleanupOperations.ts:240-330 | a failed report under a live lease fails the row with its event and removes the lease, leaves an upload's backup prepared, changes nothing for a dispatched cleanup, and nothing else |
| `HandlerRules.ResultMeans` | deploy/cloudflare/src/backupUploadOperations.ts:456-518 | an accepted result completes its row with one event, an upload's or restore's with two, removes the lease, stores a backup's or upload's result, and inserts a validated restore's ready provisioning row; one that is not accepted changes nothing under a live lease |
| `HandlerRules.RetryIff` | deploy/cloudflare/src/provisioningRetry.ts:83-125 | in every reachable state exactly the failed provisionings and cleanups can be retried, becoming retrying and queued, with one event and no other change |
| `HandlerRules.StateChangeHasCause` | deploy/cloudflare/src/app.ts:50-83 | every state change of a row in a reachable state has one cause: a placement, a claim of its machine, a report under its own live lease from the states that allow it, a lapsed lease, or a retry |
| `HandlerRules.NewRowHasCause` | deploy/cloudflare/migrations/0013_phase4_restore_cleanup_identity.sql:7-32 | every new row is a requested one, queued or placed without attempts, or the ready row of a restore whose result arrives under its live lease |
| `HandlerRules.CompletionIsReported` | deploy/cloudflare/src/restoreOperations.ts:378-535 | over every run a row that is ready, prepared, verified, validated or cleaned got there by a result reported under a live lease of it, of its upload, or of its restore, and has been in that state ever since |
| `HandlerRules.LogsFollowSteps` | deploy/cloudflare/src/provisioning.ts:120-128 | in every reachable state consecutive events of a log are steps its machine takes, each listed, and a log begins with a creation or the restore trigger |
| `ControlPlane.Database.MarkExpired` | deploy/cloudflare/src/nodeOperations.ts:191-217 | the expiry loop fails each swept provisioning, backup and cleanup row, queues each swept restore again, leaves the backup of a swept upload as it was, removes exactly the swept leases, and writes the fold of one expiry per row |
| `ControlPlane.Database.ClaimOperation` | deploy/cloudflare/src/nodeOperations.ts:220-291 | a claim is one step of the machine: sweep, lease insert, dispatch; it returns the candidate exactly when that is still claimable after the sweep |
| `ControlPlane.Database.ReportResult` | deploy/cloudflare/src/backupOperations.ts:358-507 | a report writes and answers what the machine's report function says, which the `HandlerRules` rows state in the columns themselves |
| `Replays.AppliedReportMeans` | deploy/cloudflare/src/restoreOperations.ts:378-535 | an accepted report moves its row to the reported state and stores its result, extends the lease when running and removes it otherwise, and changes nothing else but the row a validated restore materialises |
| `Replays.RejectedReportMeans` | deploy/cloudflare/src/backupUploadOperations.ts:389-431 | a report that is not accepted changes nothing but a lapsed upload lease of its own token |
| `Replays.ReplayedIff` | deploy/cloudflare/src/restoreOperations.ts:361-408 | without a lease a prepared, verified or validated report is accepted exactly when its row is in that state and the report equals the stored result, artifacts in any order; uploads and restores must come from the row's node |
| `Replays.NoReplayUnderLease` | deploy/cloudflare/src/backupUploadOperations.ts:409-431 | while another or a lapsed lease of the node exists, a report of any machine but a backup is turned down, stored result or not |
| `Replays.AcceptedResultReplays` | deploy/cloudflare/src/backupUploadOperations.ts:362-418 | lost acknowledgements are harmless: at any later point of a run, sending an accepted verified or validated report again is accepted and changes nothing; for a prepared one exactly as long as the backup is prepared and no upload of it is leased on the node |
| `Replays.RunKeepsResults` | deploy/cloudflare/src/backupOperations.ts:331-356 | over every run the result of a prepared backup, of a verified upload and the name of a restore stay as stored |
| `ControlPlane.Database.PostOperationResult` | deploy/cloudflare/src/app.ts:50-83 | the ordered handlers behave and answer like the one machine the result is routed to |
| `ControlPlane.Database.RetryJob` | deploy/cloudflare/src/provisioningRetry.ts:83-115 | only a failed provisioning or cleanup is retried, as one step |
| `NodeState.Node.CheckOwned` | services/node_agent/dsx_node_agent/provisioner_service.py:206-217 | passes only a database with the expected owner and full marker; the owner is compared first, and without faults the answer is exactly the first difference |
| `NodeState.Node.ValidateModules` | services/node_agent/dsx_node_agent/provisioner.py:443-464 | passes only when every module is installed, and with working queries whenever it is |
| `Provisioner.ProvisioningEngine.PrepareFilestore` | services/node_agent/dsx_node_agent/provisioner.py:483-509 | keeps an existing folder; else makes a new one with exactly the golden folder's files, or none where there is no golden folder, owned by the profile's user and without links; a refusal leaves nothing unless rmtree failed or an exception escaped |
| `Provisioner.ProvisioningEngine.CloneDatabase` | services/node_agent/dsx_node_agent/provisioner.py:517-564 | success is the golden contents under the profile's owner; a failure leaves a database only after a createdb, pg_restore timeout or dropdb fault or an escaped exception, and never a marker of its own |
| `Provisioner.ProvisioningEngine.FillDatabase` | services/node_agent/dsx_node_agent/provisioner.py:591-602 | after the clone: filestore, marker, schema and module checks, and what each failure leaves for the rollback flags |
| `Provisioner.ProvisioningEngine.Replay` | services/node_agent/dsx_node_agent/provisioner.py:587-593 | an existing database is never written, and is accepted only under the request's tenant and template |
| `Provisioner.ProvisioningEngine.Build` | services/node_agent/dsx_node_agent/provisioner.py:595-606 | the try block ends with the ready state, or with the flags, and the database and filestore, its exception handler goes by |
| `Provisioner.ProvisioningEngine.Materialise` | services/node_agent/dsx_node_agent/provisioner.py:595-612 | an absent database is built completely or rolled back, up to the named faults |
| `Provisioner.ProvisioningEngine.Provision` | services/node_agent/dsx_node_agent/provisioner.py:566-612 | ready gives exactly the golden contents under the exact marker and the prepared filestore; existing databases never change, and nothing does when the golden one is no Odoo database; a new one is left by a failure only after the named faults, escaped exceptions included, with the contents these can leave; without faults it is ready exactly when eligible, refuses a foreign marker with a name conflict exactly when there is one, and a failure on an absent database changes nothing |
| `Provisioner.ReadyMeans` | services/node_agent/dsx_node_agent/provisioner.py:566-606 | a ready reply of either engine means an allowed request, a golden Odoo database, and a tenant database that is the untouched one under its tenant and template or a new copy of the golden contents under exactly the request's marker, with all requested modules |
| `Provisioner.ReadyFilestore` | services/node_agent/dsx_node_agent/provisioner.py:483-509 | after a ready reply a filestore that was there is as it was; a new one holds exactly the golden folder's files, or none where there is no golden folder and the profile allows that, belongs to the profile's user and has no links; no other filestore changed |
| `Provisioner.ReadyIff` | services/node_agent/dsx_node_agent/provisioner.py:566-612 | without faults these conditions on config, request and state are exactly when a request is answered ready |
| `Provisioner.TurnedDownMeans` | services/node_agent/dsx_node_agent/provisioner.py:566-606 | without faults an allowed request is turned down for the first of: no golden database, one that is no Odoo database, another marker or none on a database of that name, something else at its filestore's name, no folder to copy and none allowed to be empty, modules that are not installed |
| `Provisioner.SafeProvisioningEngine.Rollback` | services/node_agent/dsx_node_agent/runtime_service_safe.py:14-39 | touches only a database whose marker names the request's tenant and template, and reports success only when the database is gone |
| `Provisioner.SafeProvisioningEngine.Provision` | services/node_agent/dsx_node_agent/runtime_service_safe.py:41-60 | a trial that cannot be activated is withdrawn again: from a vacant name and without faults nothing is left |
| `Provisioner.WithdrawalMeans` | services/node_agent/dsx_node_agent/runtime_service_safe.py:14-60 | a database that was there is only ever withdrawn whole, by a failed trial request on a node for trials, under its own tenant and template; and a trial that cannot be activated without other faults is withdrawn with its folder, even one that was there before |
| `Cleanup.CleanupEngine.DropQuarantined` | services/node_agent/dsx_node_agent/provisioner_service.py:227-247 | the filestore is moved away and comes back unless the drop raised, went unnoticed or the move back failed |
| `Cleanup.CleanupEngine.Clean` | services/node_agent/dsx_node_agent/provisioner_service.py:191-253 | cleaned removes exactly the owned database and its sound filestore; without faults it does so exactly when eligible, reports an owner mismatch exactly for another owner and a marker mismatch exactly for the owner with another marker; a failure after no dangerous fault changes nothing |
| `Cleanup.CleanupEngine.CleanWithRuntime` | services/node_agent/dsx_node_agent/runtime_service.py:457-489 | the runtime engine's cleanup keeps the same promises |
| `Cleanup.CleanedIff` | services/node_agent/dsx_node_agent/provisioner_service.py:191-253 | without faults a request is answered cleaned exactly when it is allowed, the database has the profile's owner and exactly the marker of the tenant's provisioning, its filestore is a real folder of the profile's user without links, and the quarantine name is free; every other request changes nothing |
| `Cleanup.TurnedDownMeans` | services/node_agent/dsx_node_agent/provisioner_service.py:203-226 | without faults an allowed request is turned down for the first of: no database, another owner, another marker, an unsound filestore, a taken quarantine name |
| `Cleanup.FailedCleanupMeans` | services/node_agent/dsx_node_agent/provisioner_service.py:219-253 | a failed cleanup changes something only after a dropdb, inventory or rmtree fault, and then the database is as it was or gone and the filestore is in place, or whole in quarantine unless its removal had begun |
| `Backup.BackupEngine.Fill` | services/node_agent/dsx_node_agent/backup_service.py:417-452 | a filled workspace holds the tenant's present contents, an archive of its present filestore, and a manifest of both; without faults it is filled whenever the folder can be walked |
| `Backup.BackupEngine.Run` | services/node_agent/dsx_node_agent/backup_service.py:379-458 | prepared only for the owned database with a sound filestore and a complete workspace, and without faults exactly then; an existing workspace is never rewritten; a failure removes the new one |
| `Backup.PreparedMeans` | services/node_agent/dsx_node_agent/backup_service.py:379-458 | a prepared reply means the owned database under exactly its marker with a sound folder, and a workspace whose manifest names request and artifacts; a new one holds the present contents and an archive of the present files, one that was there and every other are as they were |
| `Backup.PreparedIff` | services/node_agent/dsx_node_agent/backup_service.py:379-458 | without faults a request is answered prepared exactly when it is allowed, the database and folder are the tenant's own, and its workspace is complete or absent with a folder that can be walked; every other request changes no workspace |
| `Backup.TurnedDownMeans` | services/node_agent/dsx_node_agent/backup_service.py:379-458 | without faults an allowed request is turned down for the first of: no database, another owner, another marker, an unsound filestore, an incomplete workspace, a folder that cannot be walked |
| `Filestore.PartsOfJoin` | services/node_agent/dsx_node_agent/restore_service.py:447-452 | joining safe path parts and taking the member name apart again gives the parts back |
| `Filestore.ExtractionIsBounded` | services/node_agent/dsx_node_agent/restore_service.py:454-504 | for every member list each extracted path stays inside staging, the files hold exactly the counted bytes, and neither limit is passed |
| `Filestore.ArchiveRoundTrip` | services/node_agent/dsx_node_agent/backup_service.py:243-256 | extracting the archive of a filestore into empty staging rebuilds its path-to-content map, and succeeds exactly within 1,000,000 members and 50 GiB |
| `Filestore.AcceptIff` | services/node_agent/dsx_node_agent/restore_service.py:443-500 | a member is accepted exactly when fewer than 1,000,000 came before it, it is a regular file or directory whose relative name has no ".." and begins with the source database, no file is in its way, and a file's path is new, its content as long as its header says and the total within 50 GiB |
| `Filestore.RejectMeans` | services/node_agent/dsx_node_agent/restore_service.py:443-500 | the error of a rejected member names what is wrong with it |
| `Filestore.ExtractionHolds` | services/node_agent/dsx_node_agent/restore_service.py:454-504 | after a complete extraction every regular member's content is the file at its path, every file is a regular member's, and there were at most 1,000,000 members |
| `Filestore.Staging.Mkdir` | services/node_agent/dsx_node_agent/restore_service.py:479-486 | a failing mkdir leaves at most some of the missing ancestors |
| `Filestore.Staging.WriteFile` | services/node_agent/dsx_node_agent/restore_service.py:487-500 | the chunk loop writes the member's content exactly, or reports it truncated or oversized, never writing more than its size |
| `Filestore.Staging.PlaceMember` | services/node_agent/dsx_node_agent/restore_service.py:478-500 | one new member is placed as the specification places it, or rejected with its error |
| `Filestore.Staging.Extract` | services/node_agent/dsx_node_agent/restore_service.py:454-504 | the loop with its counters computes the fold over the members, and however it ends nothing is written outside staging or beyond the limit; an exception it does not catch leaves exactly the members before it and at most whole chunks of the next |
| `Restore.RestoreEngine.ValidatedReplay` | services/node_agent/dsx_node_agent/restore_service.py:512-531 | recognises a finished restore exactly, and an absent database, up to faults |
| `Restore.RestoreEngine.Stage` | services/node_agent/dsx_node_agent/restore_service.py:561-569 | staging holds the extracted archive under the tenant's account, what an interrupted extraction has written when an exception escapes, or some folder of its own |
| `Restore.RestoreEngine.Adopt` | services/node_agent/dsx_node_agent/restore_service.py:573-591 | the restored contents must be the source's before the target marker replaces the source marker |
| `Restore.RestoreEngine.Load` | services/node_agent/dsx_node_agent/restore_service.py:411-441 | creates at most the target database, with no marker, the dump's or the target's |
| `Restore.RestoreEngine.Recover` | services/node_agent/dsx_node_agent/restore_service.py:594-609 | with inventory, drop and removal working the recovery removes the database and the staging folder and nothing else |
| `Restore.RestoreEngine.Build` | services/node_agent/dsx_node_agent/restore_service.py:565-593 | the try block ends in the restored state or leaves only what the recovery removes |
| `Restore.RestoreEngine.Run` | services/node_agent/dsx_node_agent/restore_service.py:533-609 | all or nothing: validated gives exactly the target database with target marker and the extracted filestore; a failure changes nothing unless inventory, drop or removal failed or an exception escaped, which leaves an interrupted extraction in staging and nothing else, and never leaves a final filestore; without faults it validates exactly when eligible |
| `Restore.ValidatedMeans` | services/node_agent/dsx_node_agent/restore_service.py:512-593 | a validated reply means an allowed request and either the restored database, owned, marked, complete and untouched, or a new one that is the dump under exactly the target's marker, which carried exactly the source's, with the extracted archive as filestore |
| `Restore.ValidatedIff` | services/node_agent/dsx_node_agent/restore_service.py:533-609 | without faults these conditions are exactly when a request is answered validated; every other request changes nothing |
| `Restore.TurnedDownMeans` | services/node_agent/dsx_node_agent/restore_service.py:512-593 | without faults an allowed request is turned down, for a database that is there by the first thing it lacks to be the restored one, otherwise by a taken filestore or staging name, a rejected archive, or what is wrong with the dump |
| `Restore.FailedRestoreMeans` | services/node_agent/dsx_node_agent/restore_service.py:594-609 | a failed restore changes something only on a free name and after a dropdb, inventory or rmtree fault or an escaped exception, and leaves at most the target database without a foreign marker and the staging folder, never the final filestore |
| `NodeIsolation.GoldenIsolation` | services/node_agent/dsx_node_agent/provisioner.py:566-612 | whatever the requests, profiles, prefixes and faults, no golden database or filestore changes |
| `NodeIsolation.DestroysOnlyItsOwn` | services/node_agent/dsx_node_agent/provisioner_service.py:199-253 | a database present before a request is never altered; it is destroyed only by a cleanup under the profile's owner and exactly the marker the cleanup names, or by a trial rollback whose tenant and template its marker names |
| `NodeIsolation.LeakIsReachable` | services/node_agent/dsx_node_agent/provisioner.py:536-564 | for every single fault but one of dropdb and every database: a failed provisioning on an absent name can leave that database exactly when the golden one is an Odoo database and the fault is a raising createdb (a blank one), an exception escaping after createdb (a blank or complete one) or a raising pg_restore (any unmarked one) |
| `NodeIsolation.LeakIsForever` | services/node_agent/dsx_node_agent/provisioner.py:538-564 | an unmarked database is never removed or adopted by any later request, and every request for its name fails |
| `NodeIsolation.StagingLeftoverIsReachable` | services/node_agent/dsx_node_agent/restore_service.py:443-504 | from every state in which a restore can start, an exception that escapes can leave a staging folder with given files exactly when an interrupted extraction of its archive writes them |
| `NodeIsolation.FailedRemovalIsReachable` | services/node_agent/dsx_node_agent/restore_service.py:594-598 | from every state in which a restore would succeed, a failing chown followed by a failing rmtree leaves the staging folder |
| `NodeIsolation.StagingLeftoverIsForever` | services/node_agent/dsx_node_agent/restore_service.py:561-563 | a staging folder left behind is never removed, and blocks its restore while the target database is absent |
| `NodeIsolation.RestoreReplays` | services/node_agent/dsx_node_agent/restore_service.py:549-557 | repeating a validated restore without faults validates again and changes nothing |
| `NodeIsolation.CleanupUndoesProvision` | services/node_agent/dsx_node_agent/provisioner_service.py:191-253 | cleaning up a fresh provisioning restores the node's state |
| `NodeIsolation.RestoreOfBackup` | services/node_agent/dsx_node_agent/backup_service.py:417-452 | a validated restore of a backup is the source's database under the target's marker and the source's filestore |
| `NodeIsolation.BackupCanBeRestored` | services/node_agent/dsx_node_agent/restore_service.py:561-593 | with free names, installed modules and no faults the restore of a backup validates exactly when the filestore is within the limits |
| `Ownership.OwnershipAgreement` | services/node_agent/dsx_node_agent/provisioner.py:416-441 | in every reachable joint state, for a tenant with one provisioning or restore job under a name no other tenant has, and whatever jobs, retries and names the others have: its ready database is absent or marked exactly with its tenant, template and ready provisioning id |
| `Ownership.NoMarkerMismatch` | services/node_agent/dsx_node_agent/provisioner_service.py:211-217 | so no cleanup or backup request of that tenant fails with a marker mismatch unless the marker query itself failed |
| `Ownership.ReadyRowsAreCompletedJobs` | deploy/cloudflare/src/cleanup.ts:118-127 | in every reachable joint state, whatever jobs and names the tenants have, the ready provisioning rows are exactly those of completed provisionings and restores |
| `Ownership.SharedNameMismatch` | deploy/cloudflare/src/nodeOperations.ts:137-141 | from every node on which two tenants can be provisioned under one name, a run leads to a retried cleanup of the first that without faults can only fail: with a marker mismatch when their profiles have one owner, with an owner mismatch otherwise |
| `Ownership.TwoJobsMismatch` | deploy/cloudflare/src/provisioning.ts:394-471 | from every node on which a tenant can be provisioned, a run with a second job of that tenant leads to a cleanup that without faults can only fail with a marker mismatch |
| `Ownership.ReportKeepsInv` | services/node_agent/dsx_node_agent/main.py:97-134 | a report, accepted or turned down, acknowledged or not, keeps the agreement |
| `Ownership.BeginKeepsInv` | services/node_agent/dsx_node_agent/main.py:44-78 | so do the running report and the request that follows it |
| `Ownership.ServeKeepsInv` | services/node_agent/dsx_node_agent/provisioner_service.py:256-291 | so does every request the server carries out, whatever its faults |
| `Ownership.StateHasCause` | services/node_agent/dsx_node_agent/main.py:44-134 | in the joint machine every state change of a row has one cause: a claim, the running report of the agent that claimed it, that agent's terminal report under the row's lease from a state that allows it, a lapsed lease, or a retry |
| `Ownership.ReportOnTenant` | deploy/cloudflare/src/nodeOperations.ts:415-446 | an accepted report makes its tenant ready under the row's database name, decommissioned without one, or failed, a failed restore's without its name; a backup's leaves it alone |
| `Ownership.TenantHasCause` | deploy/cloudflare/src/cleanup.ts:73-95 | every other change of a tenant's row is a new job for a pending or failed tenant, a cleanup request that suspends the ready tenant of that database, a lapsed lease of its provisioning or cleanup, or a retry that takes up the failed tenant |
| `Ownership.StepsMoveRows` | deploy/cloudflare/src/nodeOperations.ts:198-213 | what each request, claim, lapsed lease and retry leaves of its row, its lease and its tenant |
| `TrialLifecycle.MoveStaysClosed` | deploy/cloudflare/src/nodeOperations.ts:401-425 | every handler that concerns one trial keeps its status, trial state, job, cleanup and leases in the closed set, and its cleanup after the end of the trial |
| `TrialLifecycle.ProvisioningMoves` | deploy/cloudflare/src/nodeOperations.ts:401-446 | when each provisioning handler may run on a trial of the closed set, and all it changes: becoming ready starts 259,200,000 ms, failing and retrying leave it its node |
| `TrialLifecycle.EndingMoves` | deploy/cloudflare/src/trialExpiration.ts:26-135 | a trial of the closed set expires three days after its job finished and no earlier, its cleanup is queued for its own node and database as long as that node is active, and is dispatched and started under a lease |
| `TrialLifecycle.LapsedIff` | deploy/cloudflare/src/trialCleanupOperations.ts:88-100 | in the closed set the lapsed cleanups of a node are exactly its suspended trials with a lease that has run out |
| `TrialLifecycle.SweepStaysClosedIff` | deploy/cloudflare/src/cleanupOperations.ts:127-157 | a sweep keeps all trials in the closed set exactly when it is the trial handler's or finds no trial |
| `TrialLifecycle.FewLeaveNothing` | deploy/cloudflare/src/trialCleanupOperations.ts:88-100 | with at most 20 lapsed leases the trial handler's sweep leaves none for the handler after it |
| `TrialLifecycle.TrialsStayClosed` | deploy/cloudflare/src/trialCleanupOperations.ts:88-134 | over every run in which no trial cleanup lease is lapsed when the handler for test tenants sweeps, each trial stays in the closed set, one whose job is ready expires exactly three days after it finished, a cleaned one has no node and no database, and no cleanup is older than that expiry |
| `TrialLifecycle.StrandedIsForever` | deploy/cloudflare/src/trialCleanupAdmin.ts:47-59 | a trial failed without its trial state is never retried or cleaned |
| `TrialLifecycle.TooManyStrandOne` | deploy/cloudflare/src/trialCleanupOperations.ts:88-100 | with 21 lapsed leases the two sweeps of a claim strand a trial |
| `TrialLifecycle.LateLapseStrandsOne` | deploy/cloudflare/src/cleanupOperations.ts:114-127 | one lease that lapses between the two sweeps of a claim strands its trial |
| `TrialLifecycle.TrialTable.MarkExpiredLeases` | deploy/cloudflare/src/trialCleanupOperations.ts:102-133 | the loop fails each of its rows, the cleanup and the tenant, and in the trial handler the trial state too; it writes the fold over its rows |
| `TrialLifecycle.TrialTable.Claim` | deploy/cloudflare/src/trialCleanupOperations.ts:136-213 | a claim is the trial sweep and then a dispatch of its candidate, exactly when that is a pending, queued, unleased cleanup, or a second reading of the clock and the other sweep |
| `TrialLifecycle.TrialTable.ReportResult` | deploy/cloudflare/src/trialCleanupOperations.ts:276-319 | a terminal report is accepted only from running, as one step |
| `TrialLifecycle.TrialTable.RetryTrialCleanup` | deploy/cloudflare/src/trialCleanupAdmin.ts:61-110 | retries exactly the eligible cleanups, as one step |
| `ExpiryScan.Scheduler.ExpireDue` | deploy/cloudflare/src/trialExpiration.ts:155-159 | the first loop suspends and expires every row of the due query and no other, and counts them |
| `ExpiryScan.Scheduler.QueueAwaiting` | deploy/cloudflare/src/trialExpiration.ts:171-174 | the second loop queues a cleanup for the row's own node and database when it has both, its job is ready there and the node is active, and marks one that is there already; it touches no other row |
| `ExpiryScan.Scheduler.Reconcile` | deploy/cloudflare/src/trialExpiration.ts:138-177 | one tick expires the due rows, reports their number and the number of trials now waiting for cleanup |
| `ExpiryScan.TickMeans` | deploy/cloudflare/src/trialExpiration.ts:26-51 | a tick suspends the taken trials, leaves other due trials due and touches no trial that is neither due nor expired |
| `ExpiryScan.DueMeans` | deploy/cloudflare/src/trialExpiration.ts:26-34 | in every reachable state the due trials are exactly the ready, active ones whose provisioning finished at least three days before |
| `ExpiryScan.HandlerSparesDue` | deploy/cloudflare/src/trialExpiration.ts:36-51 | no handler but the scan takes a trial out of the active ones, and none brings an expired one back |
| `ExpiryScan.ScanDrains` | deploy/cloudflare/src/trialExpiration.ts:138-159 | n due trials are expired in exactly ceil(n / 50) ticks, whatever other handlers run between the ticks, when no further one becomes due |
| `ExpiryScan.ScanIsPossible` | deploy/cloudflare/src/trialExpiration.ts:138-159 | from every state a tick is possible that takes the earliest 50 due trials, or all of them |
| `ExpiryScan.EarliestFirst` | deploy/cloudflare/src/trialExpiration.ts:143-153 | earlier ticks take earlier expiries, and no trial twice, other handlers in between included |
| `Conversion.AtMostOneActiveConversion` | deploy/cloudflare/src/trialConversion.ts:300-309 | a trial never has two conversions in requested, approved, provisioning or ready |
| `Conversion.ConversionsMoveForward` | deploy/cloudflare/src/trialConversionReconcile.ts:52-80 | conversion states never move backwards and terminal ones never move |
| `Conversion.ReadyConversionHasReadyJob` | deploy/cloudflare/src/trialConversionReconcile.ts:18-80 | a ready conversion's linked job is ready, then and forever after |
| `Conversion.ClosedGateHolds` | deploy/cloudflare/src/productionPlacement.ts:159-194 | while production was never enabled no conversion job leaves queued or gains a node, and no conversion passes approval |
| `Conversion.StepHasCause` | deploy/cloudflare/src/productionPlacement.ts:159-271 | in every run a conversion is requested only for a convertible trial without an active one, approved only as a requested clean production of a trial, placed only through the open gate with its queued production job and pending tenant, and reconciled only with its own job past queued |
| `Conversion.Control.CreateConversion` | deploy/cloudflare/src/trialConversion.ts:292-329 | creates exactly for a convertible trial without an active conversion |
| `Conversion.Control.ApproveCleanProduction` | deploy/cloudflare/src/trialConversion.ts:352-461 | approves exactly a requested clean-production conversion of that trial, with its target tenant and queued job |
| `Conversion.Control.PlaceProduction` | deploy/cloudflare/src/productionPlacement.ts:159-271 | places exactly when the gate is open, the conversion is an approved clean production whose target is the job's tenant, the job is its queued, unplaced production job, the tenant pending without a node, and the node eligible; then conversion, job and tenant move together |
| `Conversion.Control.ReconcileJob` | deploy/cloudflare/src/trialConversionReconcile.ts:52-110 | changes a conversion exactly when its linked job is ready or failed, or is past queued while the conversion is only approved, and then to ready, failed or provisioning |
| `Conversion.Control.ReconcileActive` | deploy/cloudflare/src/trialConversionReconcile.ts:112-135 | the loop is a run of such steps after which none of its rows calls for a change |
| `Placement.SelectIsOptimal` | deploy/cloudflare/src/provisioning.ts:257-296 | null exactly when no candidate is eligible, else the eligible candidate with the least tenants per place, tenant count over 10000 without a limit, among those with most free disk beyond the reserved, then most memory, then the least id |
| `Placement.EligibleIff` | deploy/cloudflare/src/provisioning.ts:263-277 | a candidate is eligible exactly when it is active, of the role and pool, seen at most offlineSeconds ago, has room for one more tenant, and has reported memory and disk of which beyond the reserved the required are available |
| `Placement.SelectIgnoresOrder` | deploy/cloudflare/src/provisioning.ts:257-296 | the choice does not depend on the candidates' order |
| `Placement.PlacementKeepsLimits` | deploy/cloudflare/src/provisioning.ts:416-461 | over any run of placements no node exceeds max_tenants |
| `Placement.UncheckedAssignment` | deploy/cloudflare/src/provisioningRetry.ts:113-117 | an assignment without the check keeps the limits exactly when the tenant is there already or there is room |
| `Placement.LeavingFreesAPlace` | deploy/cloudflare/src/provisioning.ts:416-461 | a tenant that leaves its node or is decommissioned there frees exactly its own place |
| `RuntimePorts.RuntimeLifecycle.AllocatePorts` | services/node_agent/dsx_node_agent/runtime_service.py:210-227 | returns the lowest pair of the range that no live runtime uses and both ports of which are bindable, and fails only when there is none |
| `RuntimePorts.RuntimeLifecycle.Ensure` | services/node_agent/dsx_node_agent/runtime_service.py:359-410 | keeps all live pairs disjoint and in range, keeps a runtime's ports, gives a new one the lowest free pair, and touches no other runtime |
| `RuntimePorts.RuntimeLifecycle.Remove` | services/node_agent/dsx_node_agent/runtime_service.py:412-441 | removes only the named runtime, with the expected owner when one is given, and never the source |
| `RuntimePorts.RuntimeLifecycle.Materialise` | services/node_agent/dsx_node_agent/runtime_service.py:387-398 | a failed materialisation leaves nothing, or a directory without a marker or with this one |
| `RuntimePorts.Pigeonhole` | services/node_agent/dsx_node_agent/runtime_service.py:97-108 | there are never more live runtimes than ceil((end - start) / 2) pairs, and all pairs are taken exactly when there are as many |
| `RuntimePorts.ExhaustedIffAllTaken` | services/node_agent/dsx_node_agent/runtime_service.py:218-227 | with every port bindable no pair is free exactly when that many runtimes are live |
| `DerivedNames.RestoreNameAlwaysFits` | deploy/cloudflare/src/restores.ts:171-196 | a restore database name exists exactly for a prefix of 3 to 44 characters that begins with a letter and has only a-z, 0-9 and underscores, and eight hex digits; then it has at most 63 such characters and keeps prefix and suffix, and the last guard never throws |
| `DerivedNames.RestoreNameMeans` | deploy/cloudflare/src/restores.ts:171-196 | for a slug of alphanumeric words with other characters between and around them, the name's middle part is the words joined by single underscores when that fits, and otherwise its longest beginning within the budget that does not end in an underscore; `tenant` for a slug without words |
| `DerivedNames.SlugHasWords` | deploy/cloudflare/src/restores.ts:179-184 | every slug is made of such words |
| `DerivedNames.ProductionSlugAlwaysFits` | deploy/cloudflare/src/trialConversion.ts:138-153 | the production slug always has 2 to 64 characters and satisfies SAFE_SLUG |
| `DerivedNames.ProductionSlugMeans` | deploy/cloudflare/src/trialConversion.ts:138-153 | a production slug is what lies between the first and the last alphanumeric character, other characters as dashes one by one, cut to the budget without a dash at the end, or `trial` when fewer than two characters are left; then `-prod-` and up to eight hex digits, or eight zeros |
| `DerivedNames.ShortSlugSurvives` | deploy/cloudflare/src/restores.ts:179-191 | an alphanumeric slug within the budget appears unchanged between prefix and suffix |
| `DerivedNames.SafeSlugSurvives` | deploy/cloudflare/src/trialConversion.ts:142-152 | a valid trial slug within the budget is the beginning of its production slug |
| `DerivedNames.NamesDifferIff` | deploy/cloudflare/src/nodeOperations.ts:137-141 | with one prefix and slug two tenants' database names differ exactly when their suffixes differ before the cut |
| `DerivedNames.UnderscoredMeans` | deploy/cloudflare/src/nodeOperations.ts:137-141 | in a provisioned database's name each dash of the slug becomes an underscore and each character outside a-z, 0-9, dash and underscore is dropped |
| `DerivedNames.LongSlugsShareAName` | deploy/cloudflare/src/nodeOperations.ts:137-141 | two slugs that agree on the first 63 characters of the name share one database name, whatever their tenants |

## Left out

- `apps/web`, `apps/api`, alerts, health history, metrics, inventory, heartbeats, enrolment: one-branch facts or I/O.
- HTTP, JSON, bearer tokens, regular expressions of the typed parsers: a handler starts after authentication and parsing, with the artifact, identity and size checks the theorems need.
- The outbox stage and purge steps and the upload executor: copies whose result the control plane checks against the stored artifacts.
- systemd units, nginx routes and health probes: one nondeterministic outcome of `Ensure` and `Remove`.
- The agent's run loop is modelled as the agent's moves of the joint machine, without its renewal timer: a lease may lapse at any moment instead.
- Rows of audit events and `updated_at` columns.
- Liveness: the LIMIT-bounded scans can be kept busy by rows that never progress, so no theorem says that a queued job is eventually served.
- Ownership.OwnershipAgreement: one node, whose jobs all come from this control plane; `SharedNameMismatch` and `TwoJobsMismatch` show that its two hypotheses on the tenant are needed.
- LeasedJobs.EventLogIsExact: at handler granularity; a handler that stops between two of its own batches can leave a state without its event, and cleanup jobs have no attempt column to compare.
- LeasedJobs.LeasesMirrorWork: at handler granularity; `QueuedLeaseIsLiveIffHeld` shows what a claim stopped midway leaves behind.
- BackupArtifacts.VerifiedIsRestorable: assumes that the prepared batches of one job agree, which `IntactIffBatchesAgree` shows to be the exact condition; `SerialBackupsAreRestorable` does without it.
- Replays.AcceptedResultReplays: at handler granularity; between single database calls a differing batch can replace the stored result of a backup, and `RestoreGates.PreparedReplays` gives the interleaved form for batches that agree.
- NodeIsolation.LeakIsReachable: stated over the engine's contract, so the commands' outcomes are those the model allows; leftovers of a failing dropdb are bounded by `Provisioner.Effect` only.
- RestoreGates.ValidateManifest: the manifest's identity and schema fields, which are compared one by one for equality, are not modelled.
- TrialLifecycle.TrialsStayClosed: assumes that the handler for test tenants meets no lapsed trial lease; `TooManyStrandOne` and `LateLapseStrandsOne` show it is needed. A trial has only the provisioning job its request made.
- Restore.RestoreEngine.Run: the checksum and manifest validation of the downloaded files is a parameter (`inbox`), and its list checks are in `RestoreGates`.
- Backup.BackupEngine.Fill: the order in which the archive walks the folder is a parameter, and a folder with hard links has none.
- Filestore.ArchiveRoundTrip: plain files and directories without hard links, since a hard link is archived as a member the restore rejects.
- Placement.SelectIsOptimal: ratios and capacities are reals, so floating-point rounding is not modelled; node ids are compared as numbers where the source compares strings.
- DerivedNames.RestoreNameAlwaysFits: starts from the lower-cased strings, so it holds for whatever a case mapping yields.
- ControlPlane.Database.ClaimOperation: which of several claimable rows the insert picks (the oldest) is left open, and so are the claims that give their lease back because an artifact list or a template is no longer valid.
- ControlPlane.Database.RetryJob: the checks that the node is active and the tenant's row still fits are made before it.
- TrialLifecycle.TrialTable.Claim: the node of the claimed row and the order of the pick are left open.
- TrialLifecycle.TrialTable.ReportResult: starts after the token and expiry check, which `Replays` models for all machines.
- TrialLifecycle.TrialTable.RetryTrialCleanup: starts after the check that the node is active.
- Conversion.Control.ApproveCleanProduction: its idempotent replay and the template lookup, which write nothing.
- Conversion.Control.PlaceProduction: whether the chosen node is eligible is a parameter; the rules are in `Placement`.
- Tenant columns outside trials are modelled in `Ownership` only; the control-plane class holds jobs, leases and events.
