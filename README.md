# Backup and restore of cStor volumes, and the zfs/zpool command builders

This project models the backup/restore subsystem of the OpenEBS control plane
(maya) and proves properties of that model:

- **The job records.** These are the `CStorBackup`, `CStorBackupCompleted`
  (the "last completed backup" ledger) and `CStorRestore` custom resources.
  Each has a wrapper that talks to the API server (`backup.dfy`, `restore.dfy`).
  Each also has the predicate helpers that validate requests
  (`backup_predicate.dfy`, `restore_predicate.dfy`).
- **The API-server endpoints.** The backup endpoint (`backup_endpoint.dfy`)
  schedules a backup on the pool of a healthy replica. It also answers status
  reads, probing the pool's node and pod and resolving a stalled job from the
  ledger. The restore endpoint (`restore_endpoint.dfy`) fans a restore out to
  every replica of the volume. It folds the per-replica restores into one
  status.
- **The per-pool controllers.** These are `backup_controller.dfy` and
  `restore_controller.dfy`. Each has informer callbacks that enqueue
  `namespace/name` keys with an operation. A worker step drives a job
  Pending → Init → InProgress → Done/Failed. A startup pass resolves jobs left
  over from a previous run.
- **The zfs/zpool command builders.** These are `zfs_command.dfy` (what they
  share), `zfs_snapshot.dfy`, `zfs_destroy.dfy`, `zpool_add.dfy` and
  `zpool_status.dfy`. Each builder takes its settings through `With…` setters.
  `Validate` runs the builder's checks, `Build` assembles the command line and
  `Execute` hands it to the zfs or zpool binary.

The API server is a value, `Store.World`. It holds the three kinds of objects
by key and a script of the server's answers: one accept/reject per
Get/Create/Update, with every call past the end of the script accepted. It also
holds the log of transfers handed to the storage engine. `Store.ApiServer` is
the same state as a mutable object. The wrappers, controllers and handlers are
methods on it, each proved to make exactly one `…Step` function's change. The
properties are lemmas about those step functions.

Each row of "## Findings" is modelled both ways: a member that follows the
code as written and a corrected one. Operations that contain a defect take a
flag, or come in a pair, that selects which version they use:

- `BackupEndpoint.DeployBackup` and `BackupEndpoint.Create` take `asWritten`.
- `RestoreEndpoint.GetRestoreStatus` and `RestoreEndpoint.Get` take
  `keepFailed`; `false` is the code as written.
- Each builder has `Build`/`Execute` (intended) and
  `BuildAsWritten`/`ExecuteAsWritten` (as written).

The lemmas that describe successful behaviour (`CreateHandlerEffect`,
`GetRestoreStatusSettled`, `ExecuteRunsIffChecksPass`, …) are about the
intended versions. In two more places the logic is not what a reader of the
design would expect, and the model follows the code:

- Backup update events are not filtered by pool ownership: the check at
  `cmd/cstor-pool-mgmt/controller/backup/new_backup_controller.go:214-218` is
  commented out.
- The restore endpoint's status read lists every restore in the namespace. Its
  label selector is commented out at
  `cmd/maya-apiserver/app/server/restore_endpoint_v1alpha1.go:182-186`.

## Model

| member | source | states |
|---|---|---|
| Apis.Cause | pkg/backup/v1alpha1/utils.go:15-18 | the cause of an error is never itself a wrapping layer |
| Apis.SplitMetaNamespaceKey | cmd/cstor-pool-mgmt/controller/backup/handler.go:156-164 | a key splits exactly when it has at most one '/'; a key without '/' is a bare name in the empty namespace; both parts are '/'-free; a malformed key is an InvalidKey error |
| Apis.SplitMetaNamespaceKeyRoundTrip | cmd/cstor-pool-mgmt/controller/backup/new_backup_controller.go:129-138 | the key the event handlers enqueue splits back into the object's namespace and name |
| Store.StepsKeepWellKeyed | pkg/backup/v1alpha1/kubernetes_client.go:24-54 | no Get, Create, Update or transfer moves a stored object away from its own key |
| Store.UpdateBackupWrites | pkg/backup/v1alpha1/kubernetes_client.go:48-54 | an update succeeds exactly when the server accepts it and the job exists, writes only that job, and consumes one answer |
| Store.UpdateRestoreWrites | pkg/restore/v1alpha1/restore.go:155-163 | an update of a restore succeeds exactly when accepted and the restore exists, and writes only that restore |
| Store.ApiServer.constructor | pkg/backup/v1alpha1/kubernetes_client.go:24-54 | the client starts in the given world |
| Store.ApiServer.GetBackup | pkg/backup/v1alpha1/kubernetes_client.go:25-30 | the read returns the stored job when accepted and present, and changes nothing but the answer count |
| Store.ApiServer.CreateBackup | pkg/backup/v1alpha1/kubernetes_client.go:41-46 | a create stores the job when accepted and the name is free, and fails otherwise |
| Store.ApiServer.UpdateBackup | pkg/backup/v1alpha1/kubernetes_client.go:49-54 | an update replaces an existing job when accepted, and fails otherwise |
| Store.ApiServer.GetCompleted | pkg/backup/v1alpha1/utils.go:25-27 | reads the ledger record under its key |
| Store.ApiServer.CreateCompleted | pkg/backup/v1alpha1/utils.go:58-60 | creates a ledger record under a free key |
| Store.ApiServer.UpdateCompleted | pkg/backup/v1alpha1/utils.go:72-74 | replaces an existing ledger record |
| Store.ApiServer.GetRestore | pkg/restore/v1alpha1/restore.go:133-141 | reads a restore under its key |
| Store.ApiServer.CreateRestore | pkg/restore/v1alpha1/restore.go:144-152 | creates a restore under a free key |
| Store.ApiServer.UpdateRestore | pkg/restore/v1alpha1/restore.go:155-163 | replaces an existing restore |
| Store.ApiServer.StartTransfer | cmd/cstor-pool-mgmt/controller/backup/handler.go:107-110 | appends the transfer to the storage engine's log and changes nothing else |
| Backup.DeriveObjName | pkg/backup/v1alpha1/backup.go:97-99 | the job name is the snapshot name, a '-', then the volume name |
| Backup.CompletedBackupName | pkg/backup/v1alpha1/backup.go:103-105 | the ledger name is the schedule name, a '-', then the volume name |
| Backup.LedgerKeyIgnoresSnapshot | pkg/backup/v1alpha1/backup.go:103-105 | every snapshot of one schedule and volume shares one ledger record |
| Backup.AtMostOneStatus | pkg/backup/v1alpha1/backup.go:108-131 | a job is in at most one of Pending/InProgress/Init/Done/Failed, and in exactly one when its status is one of them |
| Backup.LastTransferredSnapStep | pkg/backup/v1alpha1/utils.go:21-36 | the ledger's last snapshot when the record exists; "" and no error when it is missing; "" and the error when the read fails |
| Backup.UpdateCompletedBackupStep | pkg/backup/v1alpha1/utils.go:39-76 | only the ledger changes and only on success; two calls are consumed; keys stay well formed |
| Backup.UpdateCompletedBackupLedgerOnly | pkg/backup/v1alpha1/utils.go:39-76 | the ledger update depends only on the ledger and on the server's answers |
| Backup.UpdateCompletedBackupEffect | pkg/backup/v1alpha1/utils.go:43-75 | on success the record is created with the job's snapshot if it was missing, and otherwise shifted: last → previous, job's snapshot → last |
| Backup.LedgerRoundTrip | pkg/backup/v1alpha1/utils.go:21-76 | after a successful update the next ledger read returns the job's snapshot |
| Backup.LedgerTwoUpdates | pkg/backup/v1alpha1/utils.go:70-75 | two successful updates of one schedule leave the second snapshot as last and the first as previous |
| Backup.UpdateCompletedBackupAfterFailedRead | pkg/backup/v1alpha1/utils.go:43-65 | a rejected read of an existing record leads to a create that fails with AlreadyExists and leaves the ledger |
| Backup.SetPrevSnapNameFromLastBackupStep | pkg/backup/v1alpha1/backup.go:145-153 | only prevSnapName may change, and only on success |
| Backup.SetPrevSnapNameFromLedger | pkg/backup/v1alpha1/backup.go:145-153 | on an accepted read, prevSnapName becomes the ledger's last snapshot ("" without a record) |
| Backup.UpdateCRStatusStep | pkg/backup/v1alpha1/backup.go:189-197 | a status write of a job never touches the ledger, restores or transfers; on success it consumes two calls |
| Backup.UpdateCRStatusEffect | pkg/backup/v1alpha1/backup.go:189-197 | a status write succeeds exactly when both calls are accepted and the job exists; it changes only that job's status, and nothing on failure |
| Backup.CStorBackup.constructor | pkg/backup/v1alpha1/backup.go:17-20 | the wrapper holds the object and the client |
| Backup.CStorBackup.SetStatus | pkg/backup/v1alpha1/backup.go:68-71 | only the status changes |
| Backup.CStorBackup.SetLabel | pkg/backup/v1alpha1/backup.go:85-88 | the label map is replaced and nothing else changes |
| Backup.CStorBackup.SetPrevSnapName | pkg/backup/v1alpha1/backup.go:47-50 | only prevSnapName changes |
| Backup.CStorBackup.SetObjName | pkg/backup/v1alpha1/backup.go:92-94 | the name becomes DeriveObjName of the object |
| Backup.CStorBackup.GetLastTransferredSnapName | pkg/backup/v1alpha1/utils.go:21-36 | makes exactly the LastTransferredSnapStep change and answer |
| Backup.CStorBackup.UpdateCompletedBackup | pkg/backup/v1alpha1/utils.go:39-76 | makes exactly the UpdateCompletedBackupStep change and answer |
| Backup.CStorBackup.SetPrevSnapNameFromLastBackup | pkg/backup/v1alpha1/backup.go:145-153 | makes exactly the SetPrevSnapNameFromLastBackupStep change to store and object |
| Backup.CStorBackup.GetCR | pkg/backup/v1alpha1/backup.go:156-164 | reads the named job of the wrapper's namespace |
| Backup.CStorBackup.CreateCR | pkg/backup/v1alpha1/backup.go:167-175 | creates the given job |
| Backup.CStorBackup.UpdateCR | pkg/backup/v1alpha1/backup.go:178-186 | updates the given job |
| Backup.CStorBackup.UpdateCRStatus | pkg/backup/v1alpha1/backup.go:189-197 | reads the named job and writes it back with the new status |
| BackupPredicates.IsBackupNameSet | pkg/backup/v1alpha1/predicate.go:7-11 | holds exactly when the schedule name is non-empty |
| BackupPredicates.IsVolumeNameSet | pkg/backup/v1alpha1/predicate.go:14-18 | holds exactly when the volume name is non-empty |
| BackupPredicates.IsSnapNameSet | pkg/backup/v1alpha1/predicate.go:21-25 | holds exactly when the snapshot name is non-empty |
| BackupPredicates.IsPrevSnapNameSet | pkg/backup/v1alpha1/predicate.go:28-32 | holds exactly when the previous snapshot name is non-empty |
| BackupPredicates.IsNamespaceSet | pkg/backup/v1alpha1/predicate.go:35-39 | holds exactly when the namespace is non-empty |
| BackupPredicates.IsBackupDestSet | pkg/backup/v1alpha1/predicate.go:42-46 | holds exactly when the destination is non-empty |
| BackupPredicates.IsPendingStatus | pkg/backup/v1alpha1/predicate.go:49-53 | holds exactly when the record's status is `Pending` |
| BackupPredicates.IsInProgressStatus | pkg/backup/v1alpha1/predicate.go:56-60 | holds exactly when the record's status is `InProgress` |
| BackupPredicates.IsInitStatus | pkg/backup/v1alpha1/predicate.go:63-67 | holds exactly when the record's status is `Init` |
| BackupPredicates.IsDoneStatus | pkg/backup/v1alpha1/predicate.go:70-74 | holds exactly when the record's status is `Done` |
| BackupPredicates.IsFailedStatus | pkg/backup/v1alpha1/predicate.go:77-81 | holds exactly when the record's status is `Failed` |
| BackupPredicates.IsDestroyEvent | pkg/backup/v1alpha1/predicate.go:84-88 | holds exactly when the record is being deleted |
| BackupPredicates.IsOnlyStatusChange | pkg/backup/v1alpha1/predicate.go:91-95 | holds exactly when the record has the new object's spec and a different status |
| BackupController.EventOperation | cmd/cstor-pool-mgmt/controller/backup/new_backup_controller.go:185-261 | add → Add; an update is ignored exactly when the resource version is unchanged, and is Destroy exactly when the object is being deleted, else Sync; delete → nothing |
| BackupController.Enqueued | cmd/cstor-pool-mgmt/controller/backup/new_backup_controller.go:129-138 | at most one item is queued, exactly when the event asks for an operation, and it carries that operation |
| BackupController.EnqueuedKeyFindsObject | cmd/cstor-pool-mgmt/controller/backup/handler.go:156-164 | the queued key splits back into the object's namespace and name |
| BackupController.GetResourceStep | cmd/cstor-pool-mgmt/controller/backup/handler.go:156-189 | a malformed key gives neither a job nor an error and touches nothing; a well-formed key costs one read |
| BackupController.HandleOpsOtherOps | cmd/cstor-pool-mgmt/controller/backup/handler.go:59-71 | Destroy and unknown operations change nothing and return nil |
| BackupController.ProcessBackupMalformedKey | cmd/cstor-pool-mgmt/controller/backup/handler.go:35-56 | a malformed key is a nil-resource error and changes nothing |
| BackupController.HandleOpsAddEffect | cmd/cstor-pool-mgmt/controller/backup/handler.go:74-90 | Add writes Init for a Pending job and Invalid for any other, exactly when both calls are accepted; it never touches the ledger or starts a transfer |
| BackupController.HandleOpsSyncNotInit | cmd/cstor-pool-mgmt/controller/backup/handler.go:93-100 | Sync of a job that is not Init does nothing |
| BackupController.HandleOpsSyncInProgressRejected | cmd/cstor-pool-mgmt/controller/backup/handler.go:100-106 | when the InProgress write fails, the error is returned and no transfer starts |
| BackupController.HandleOpsSyncTransferFailed | cmd/cstor-pool-mgmt/controller/backup/handler.go:107-124 | a failed transfer is logged once, the ledger is untouched, and Failed is written; the result is nil exactly when that write succeeds |
| BackupController.RecordSuccessEffect | cmd/cstor-pool-mgmt/controller/backup/handler.go:126-150 | after a transfer, Done is written whenever its calls go through, whatever the ledger update returned |
| BackupController.HandleOpsSyncTransferSucceeded | cmd/cstor-pool-mgmt/controller/backup/handler.go:93-153 | a successful transfer is logged, the ledger gets the job's update, and the job ends Done with a nil result |
| BackupController.FindLastBackupStatStep | cmd/cstor-pool-mgmt/controller/backup/new_backup_controller.go:263-279 | always Done or Failed; Done exactly when the read is accepted and the ledger's last snapshot is the job's; an error exactly when the read fails |
| BackupController.CleanupItemEffect | cmd/cstor-pool-mgmt/controller/backup/new_backup_controller.go:156-180 | one listed job: only its own record may change, and only to the listed object marked Done or Failed; a Done job changes nothing; with every call accepted it gets in-progress → ledger-derived status, others → Failed |
| BackupController.CleanupEffect | cmd/cstor-pool-mgmt/controller/backup/new_backup_controller.go:141-182 | the startup pass never changes the ledger, restores, transfers or job set; unlisted and Done jobs stay; every other job stays or ends Done/Failed |
| BackupController.CleanupHealthy | cmd/cstor-pool-mgmt/controller/backup/new_backup_controller.go:141-182 | with every call accepted, each listed job that exists and is not Done gets exactly its cleaned status |
| BackupController.LifecycleSucceeds | cmd/cstor-pool-mgmt/controller/backup/handler.go:35-153 | a Pending job added and then synced with a successful transfer ends Done, is transferred once, and the ledger's last snapshot is then the job's |
| BackupController.FindLastBackupStat | cmd/cstor-pool-mgmt/controller/backup/new_backup_controller.go:263-279 | makes exactly the FindLastBackupStatStep change and answer |
| BackupController.Controller.constructor | cmd/cstor-pool-mgmt/controller/backup/new_backup_controller.go:126-138 | the controller starts with an empty queue |
| BackupController.Controller.EnqueueBackup | cmd/cstor-pool-mgmt/controller/backup/new_backup_controller.go:129-138 | appends a copy of the load carrying the job's key; the shared load is not changed |
| BackupController.Controller.CleanupOldBackup | cmd/cstor-pool-mgmt/controller/backup/new_backup_controller.go:141-182 | makes exactly the CleanupOldBackupStep change: nothing when the list fails, else the fold over the list |
| BackupController.Controller.BackupAddFunc | cmd/cstor-pool-mgmt/controller/backup/new_backup_controller.go:185-207 | sets the shared operation to Add and queues what Enqueued says |
| BackupController.Controller.BackupUpdateFunc | cmd/cstor-pool-mgmt/controller/backup/new_backup_controller.go:210-250 | queues what Enqueued says and sets the shared operation only when an operation is queued |
| BackupController.Controller.BackupDeleteFunc | cmd/cstor-pool-mgmt/controller/backup/new_backup_controller.go:252-261 | queues nothing |
| BackupController.Controller.GetResource | cmd/cstor-pool-mgmt/controller/backup/handler.go:156-189 | makes exactly the GetResourceStep change; a fresh wrapper of the read job, or null |
| BackupController.Controller.HandleOpsAdd | cmd/cstor-pool-mgmt/controller/backup/handler.go:74-90 | makes exactly the HandleOpsAddStep change and answer |
| BackupController.Controller.HandleOpsSync | cmd/cstor-pool-mgmt/controller/backup/handler.go:93-153 | makes exactly the HandleOpsSyncStep change and answer |
| BackupController.Controller.HandleOps | cmd/cstor-pool-mgmt/controller/backup/handler.go:59-71 | makes exactly the HandleOpsStep change and answer |
| BackupController.Controller.ProcessBackup | cmd/cstor-pool-mgmt/controller/backup/handler.go:35-56 | makes exactly the ProcessBackupStep change and answer |
| BackupEndpoint.PodSearch | cmd/maya-apiserver/app/server/backup_endpoint_v1alpha1.go:264-276 | the first pod whose first container carries the CStor ID; NoPod exactly when every pod was passed over; an index panic only when some pod has no container |
| BackupEndpoint.PodOfCStorID | cmd/maya-apiserver/app/server/backup_endpoint_v1alpha1.go:254-277 | the found pod is listed and carries the ID; each error case holds exactly when its cause does |
| BackupEndpoint.FindPodFromCStorID | cmd/maya-apiserver/app/server/backup_endpoint_v1alpha1.go:254-277 | the pod loop returns PodOfCStorID |
| BackupEndpoint.PoolNodeDown | cmd/maya-apiserver/app/server/backup_endpoint_v1alpha1.go:195-227 | an unfinished probe reports down with its error; a finished one reports down exactly when some Ready condition of the pod's node is not True |
| BackupEndpoint.CheckIfPoolNodeDown | cmd/maya-apiserver/app/server/backup_endpoint_v1alpha1.go:195-227 | the condition loop returns PoolNodeDown |
| BackupEndpoint.MgmtStatusSearch | cmd/maya-apiserver/app/server/backup_endpoint_v1alpha1.go:241-248 | the first container status of the pool-management container |
| BackupEndpoint.PoolPodDown | cmd/maya-apiserver/app/server/backup_endpoint_v1alpha1.go:231-251 | an unfinished probe reports down with its error; a finished one reports down exactly when the management container is missing or not ready |
| BackupEndpoint.CheckIfPoolPodDown | cmd/maya-apiserver/app/server/backup_endpoint_v1alpha1.go:231-251 | the status loop returns PoolPodDown |
| BackupEndpoint.VolumeReplicas | cmd/maya-apiserver/app/server/backup_endpoint_v1alpha1.go:305-312 | exactly the replicas labelled with the volume |
| BackupEndpoint.ReplicaSearch | cmd/maya-apiserver/app/server/backup_endpoint_v1alpha1.go:318-324 | the first online replica of the volume; None exactly when there is none |
| BackupEndpoint.HealthyReplica | cmd/maya-apiserver/app/server/backup_endpoint_v1alpha1.go:299-325 | the chosen replica is listed, serves the volume and is online; NoHealthyReplica exactly when none is; client and list failures are their own errors |
| BackupEndpoint.FindHealthyCVR | cmd/maya-apiserver/app/server/backup_endpoint_v1alpha1.go:299-325 | the replica loop returns HealthyReplica |
| BackupEndpoint.LastBackupStatStep | cmd/maya-apiserver/app/server/backup_endpoint_v1alpha1.go:381-395 | always Done or Failed; Done exactly when the read is accepted and the ledger's last snapshot is the job's; the error is quoted |
| BackupEndpoint.ResolveStalledEffect | cmd/maya-apiserver/app/server/backup_endpoint_v1alpha1.go:175-189 | resolving a stalled job changes at most that job's status |
| BackupEndpoint.FetchUpdatedBackupEffect | cmd/maya-apiserver/app/server/backup_endpoint_v1alpha1.go:157-191 | whatever the store and orchestrator answer, a read changes at most the job's own status |
| BackupEndpoint.FetchSettledJob | cmd/maya-apiserver/app/server/backup_endpoint_v1alpha1.go:157-170 | a Done or Failed job is answered as stored with no write; a failed or missing read is a quoted error |
| BackupEndpoint.FetchProbeFailure | cmd/maya-apiserver/app/server/backup_endpoint_v1alpha1.go:171-174 | a running job whose pool cannot be probed is an error carrying both probe errors, with no write |
| BackupEndpoint.FetchRunningJob | cmd/maya-apiserver/app/server/backup_endpoint_v1alpha1.go:157-191 | a running job on a pool that is up is answered as stored |
| BackupEndpoint.FetchStalledJob | cmd/maya-apiserver/app/server/backup_endpoint_v1alpha1.go:175-189 | a running job on a pool that is down gets Done if the ledger's last snapshot is its own and Failed otherwise, written and answered |
| BackupEndpoint.FindLastBackupStat | cmd/maya-apiserver/app/server/backup_endpoint_v1alpha1.go:381-395 | makes exactly the LastBackupStatStep change and answer |
| BackupEndpoint.FetchUpdatedBackup | cmd/maya-apiserver/app/server/backup_endpoint_v1alpha1.go:157-191 | makes exactly the FetchUpdatedBackupStep change and answer |
| BackupEndpoint.DeployLabels | cmd/maya-apiserver/app/server/backup_endpoint_v1alpha1.go:335-340 | a scheduled job is labelled with the replica's pool UID and volume and the schedule name, and nothing else |
| BackupEndpoint.DeployStepsStep | cmd/maya-apiserver/app/server/backup_endpoint_v1alpha1.go:329-351 | scheduling keeps the job's key and ledger key |
| BackupEndpoint.DeployBackupAsWrittenStep | cmd/maya-apiserver/app/server/backup_endpoint_v1alpha1.go:329-354 | as written, deployBackup never reports success |
| BackupEndpoint.DeployBackupStep | cmd/maya-apiserver/app/server/backup_endpoint_v1alpha1.go:329-354 | as intended, success exactly when the create of the Pending job went through |
| BackupEndpoint.DeployCreatesPendingJob | cmd/maya-apiserver/app/server/backup_endpoint_v1alpha1.go:329-351 | a free name is created as the Pending job for the chosen replica, with the ledger's last snapshot as its previous one |
| BackupEndpoint.DeployAsWrittenFailsAfterCreate | cmd/maya-apiserver/app/server/backup_endpoint_v1alpha1.go:347-353 | the Pending job is stored, and yet the as-written call fails (a nil-pointer panic) |
| BackupEndpoint.DeploySucceedsAfterCreate | cmd/maya-apiserver/app/server/backup_endpoint_v1alpha1.go:347-353 | with the intended success path, the same call succeeds and stores the Pending job |
| BackupEndpoint.DeployRefusals | cmd/maya-apiserver/app/server/backup_endpoint_v1alpha1.go:329-354 | no healthy replica means no write and that error; a taken name leaves the jobs and reports an error |
| BackupEndpoint.DeployBackup | cmd/maya-apiserver/app/server/backup_endpoint_v1alpha1.go:329-354 | makes exactly the change of DeployBackupAsWrittenStep (as written) or DeployBackupStep (as intended) to store and job, as selected |
| BackupEndpoint.CreateChecksFields | cmd/maya-apiserver/app/server/backup_endpoint_v1alpha1.go:88-96 | a create request passes exactly when schedule, snapshot, destination, previous snapshot, namespace and volume are all set |
| BackupEndpoint.GetChecksFields | cmd/maya-apiserver/app/server/backup_endpoint_v1alpha1.go:126-132 | a get request passes exactly when schedule, namespace and volume are set |
| BackupEndpoint.CreateHandlerEffect | cmd/maya-apiserver/app/server/backup_endpoint_v1alpha1.go:81-115 | with the intended deploy, an incomplete request or failed snapshot is a 400 with no write; a schedulable one is served and leaves its Pending job |
| BackupEndpoint.CreateHandlerAsWritten | cmd/maya-apiserver/app/server/backup_endpoint_v1alpha1.go:81-115 | as written, every POST is refused; a schedulable one stores its Pending job and is then a 400 for the nil-error dereference |
| BackupEndpoint.GetHandlerAnswers | cmd/maya-apiserver/app/server/backup_endpoint_v1alpha1.go:118-153 | a missing job is a 400 not-found; a valid Done or Failed job is served as stored |
| BackupEndpoint.Create | cmd/maya-apiserver/app/server/backup_endpoint_v1alpha1.go:81-115 | makes exactly the CreateStep change and answer, with the deploy as written or as intended as selected |
| BackupEndpoint.Get | cmd/maya-apiserver/app/server/backup_endpoint_v1alpha1.go:118-153 | makes exactly the GetStep change and answer |
| Restore.ObjName | pkg/restore/v1alpha1/restore.go:82-84 | the restore name is the restore name, a '-', then the UUID |
| Restore.AtMostOneStatus | pkg/restore/v1alpha1/restore.go:97-120 | a restore is in at most one of the five states, and in exactly one when its status is one of them |
| Restore.UpdateCRStatusStep | pkg/restore/v1alpha1/restore.go:166-174 | a status write touches only restores; on success it consumes two calls |
| Restore.UpdateCRStatusEffect | pkg/restore/v1alpha1/restore.go:166-174 | succeeds exactly when both calls are accepted and the restore exists; only its status changes, and nothing on failure |
| Restore.CStorRestore.constructor | pkg/restore/v1alpha1/restore.go:23-26 | the wrapper holds the object and the client |
| Restore.CStorRestore.SetStatus | pkg/restore/v1alpha1/restore.go:58-61 | only the status changes |
| Restore.CStorRestore.SetLabel | pkg/restore/v1alpha1/restore.go:75-78 | the label map is replaced |
| Restore.CStorRestore.SetObjName | pkg/restore/v1alpha1/restore.go:82-89 | the name becomes ObjName with the fresh UUID |
| Restore.CStorRestore.CopySpec | pkg/restore/v1alpha1/restore.go:92-94 | takes over the other restore's spec; name, labels and status stay |
| Restore.CStorRestore.GetCR | pkg/restore/v1alpha1/restore.go:133-141 | reads the named restore of the wrapper's namespace |
| Restore.CStorRestore.CreateCR | pkg/restore/v1alpha1/restore.go:144-152 | creates the given restore |
| Restore.CStorRestore.UpdateCR | pkg/restore/v1alpha1/restore.go:155-163 | updates the given restore |
| Restore.CStorRestore.UpdateCRStatus | pkg/restore/v1alpha1/restore.go:166-174 | reads the named restore and writes it back with the new status |
| RestorePredicates.IsRestoreNameSet | pkg/restore/v1alpha1/predicate.go:7-11 | holds exactly when the restore name is non-empty |
| RestorePredicates.IsVolumeNameSet | pkg/restore/v1alpha1/predicate.go:14-18 | holds exactly when the volume name is non-empty |
| RestorePredicates.IsNamespaceSet | pkg/restore/v1alpha1/predicate.go:21-25 | holds exactly when the namespace is non-empty |
| RestorePredicates.IsRestoreSrcSet | pkg/restore/v1alpha1/predicate.go:28-32 | holds exactly when the source is non-empty |
| RestorePredicates.IsPendingStatus | pkg/restore/v1alpha1/predicate.go:35-39 | holds exactly when the record's status is `Pending` |
| RestorePredicates.IsInProgressStatus | pkg/restore/v1alpha1/predicate.go:42-46 | holds exactly when the record's status is `InProgress` |
| RestorePredicates.IsInitStatus | pkg/restore/v1alpha1/predicate.go:49-53 | holds exactly when the record's status is `Init` |
| RestorePredicates.IsDoneStatus | pkg/restore/v1alpha1/predicate.go:56-60 | holds exactly when the record's status is `Done` |
| RestorePredicates.IsFailedStatus | pkg/restore/v1alpha1/predicate.go:63-67 | holds exactly when the record's status is `Failed` |
| RestorePredicates.IsDestroyEvent | pkg/restore/v1alpha1/predicate.go:70-74 | holds exactly when the record is being deleted |
| RestorePredicates.IsOnlyStatusChange | pkg/restore/v1alpha1/predicate.go:77-81 | holds exactly when the record has the new object's spec and a different status |
| RestoreController.EventOperation | cmd/cstor-pool-mgmt/controller/restore/new_restore_controller.go:138-253 | only restores of this pool are queued; an update is queued exactly when the status changed, as Destroy exactly when deleting; delete queues nothing |
| RestoreController.Enqueued | cmd/cstor-pool-mgmt/controller/restore/new_restore_controller.go:126-135 | at most one item, exactly when an operation is asked for, with the object's key and that operation |
| RestoreController.ForeignRestoreIgnored | cmd/cstor-pool-mgmt/controller/restore/new_restore_controller.go:138-200 | a restore of another pool instance is never queued |
| RestoreController.SameStatusIgnored | cmd/cstor-pool-mgmt/controller/restore/new_restore_controller.go:162-200 | an update that leaves the status as it was queues nothing |
| RestoreController.GetResourceStep | cmd/cstor-pool-mgmt/controller/restore/handler.go:134-146 | a malformed key gives neither a restore nor an error and touches nothing |
| RestoreController.HandleOpsOtherOps | cmd/cstor-pool-mgmt/controller/restore/handler.go:52-67 | Destroy and unknown operations do nothing |
| RestoreController.ProcessRestoreMalformedKey | cmd/cstor-pool-mgmt/controller/restore/handler.go:35-67 | a malformed key makes Add and Sync dereference the missing restore and touches nothing |
| RestoreController.HandleOpsAddEffect | cmd/cstor-pool-mgmt/controller/restore/handler.go:70-83 | Add writes Init for Pending and Invalid otherwise, exactly when both calls are accepted; errors come back wrapped |
| RestoreController.HandleOpsSyncNotInit | cmd/cstor-pool-mgmt/controller/restore/handler.go:86-131 | Sync of a restore that is not Init does nothing |
| RestoreController.HandleOpsSyncInProgressRejected | cmd/cstor-pool-mgmt/controller/restore/handler.go:86-98 | when the InProgress write fails, a quoted error is returned and no restore transfer starts |
| RestoreController.HandleOpsSyncTransferFailed | cmd/cstor-pool-mgmt/controller/restore/handler.go:99-113 | a failed transfer gives nil whatever happens next; Failed is written when accepted |
| RestoreController.HandleOpsSyncTransferSucceeded | cmd/cstor-pool-mgmt/controller/restore/handler.go:114-131 | a successful transfer is recorded Done exactly when its calls go through; otherwise a quoted error and the restore stays InProgress |
| RestoreController.CleanupItemEffect | cmd/cstor-pool-mgmt/controller/restore/new_restore_controller.go:215-236 | one listed restore: only it may change, only to itself marked Failed; Done restores stay |
| RestoreController.CleanupEffect | cmd/cstor-pool-mgmt/controller/restore/new_restore_controller.go:203-237 | the startup pass leaves jobs, ledger, transfers, the restore set, unlisted and Done restores; every other restore stays or ends Failed |
| RestoreController.CleanupHealthy | cmd/cstor-pool-mgmt/controller/restore/new_restore_controller.go:203-237 | with every call accepted, every listed restore that exists and is not Done ends Failed |
| RestoreController.Controller.constructor | cmd/cstor-pool-mgmt/controller/restore/new_restore_controller.go:64-121 | the controller starts with its client and CStor ID and an empty queue |
| RestoreController.Controller.EnqueueCStorRestore | cmd/cstor-pool-mgmt/controller/restore/new_restore_controller.go:126-135 | appends a copy of the load carrying the restore's key |
| RestoreController.Controller.CleanupOldRestore | cmd/cstor-pool-mgmt/controller/restore/new_restore_controller.go:203-237 | makes exactly the CleanupOldRestoreStep change |
| RestoreController.Controller.RestoreAddFunc | cmd/cstor-pool-mgmt/controller/restore/new_restore_controller.go:138-160 | queues what Enqueued says; the shared operation becomes Add only for this pool's restores |
| RestoreController.Controller.RestoreUpdateFunc | cmd/cstor-pool-mgmt/controller/restore/new_restore_controller.go:162-200 | queues what Enqueued says and sets the shared operation only when queueing |
| RestoreController.Controller.RestoreDeleteFunc | cmd/cstor-pool-mgmt/controller/restore/new_restore_controller.go:239-253 | queues nothing |
| RestoreController.Controller.GetResource | cmd/cstor-pool-mgmt/controller/restore/handler.go:134-146 | makes exactly the GetResourceStep change; a fresh wrapper or null |
| RestoreController.Controller.HandleOpsAdd | cmd/cstor-pool-mgmt/controller/restore/handler.go:70-83 | makes exactly the HandleOpsAddStep change and answer |
| RestoreController.Controller.HandleOpsSync | cmd/cstor-pool-mgmt/controller/restore/handler.go:86-131 | makes exactly the HandleOpsSyncStep change and answer |
| RestoreController.Controller.HandleOps | cmd/cstor-pool-mgmt/controller/restore/handler.go:52-67 | with a restore, the HandleOpsStep change; without one, nothing changes and Add/Sync fail |
| RestoreController.Controller.ProcessRestore | cmd/cstor-pool-mgmt/controller/restore/handler.go:35-49 | makes exactly the ProcessRestoreStep change and answer |
| RestoreEndpoint.RestoreLabels | cmd/maya-apiserver/app/server/restore_endpoint_v1alpha1.go:100-105 | a replica's restore is labelled with its pool UID, volume and the restore name, and nothing else |
| RestoreEndpoint.ReplicaRestoreKeysDiffer | pkg/restore/v1alpha1/restore.go:82-84 | distinct UUIDs give distinct restore keys |
| RestoreEndpoint.RestoreForReplicaStep | cmd/maya-apiserver/app/server/restore_endpoint_v1alpha1.go:94-134 | one pass keeps the request's spec and namespace and touches only restores |
| RestoreEndpoint.RestoreForReplicaHealthy | cmd/maya-apiserver/app/server/restore_endpoint_v1alpha1.go:94-134 | with every call accepted, one pass stores the Pending restore for its replica and touches no other restore |
| RestoreEndpoint.FanOutStep | cmd/maya-apiserver/app/server/restore_endpoint_v1alpha1.go:94-134 | the loop keeps the request's spec and namespace and touches only restores |
| RestoreEndpoint.FanOutHealthy | cmd/maya-apiserver/app/server/restore_endpoint_v1alpha1.go:94-136 | with every call accepted and distinct UUIDs, every replica gets its Pending restore and every other restore stays |
| RestoreEndpoint.CreateRestoreResourceHealthy | cmd/maya-apiserver/app/server/restore_endpoint_v1alpha1.go:78-137 | with every call accepted, every replica of the volume gets its Pending restore, and only replicas of that volume |
| RestoreEndpoint.CreateRestoreResourceRefusals | cmd/maya-apiserver/app/server/restore_endpoint_v1alpha1.go:84-92 | without a client or a replica list it is a 500 and nothing is written; no replica means no write and success |
| RestoreEndpoint.RestoreForReplica | cmd/maya-apiserver/app/server/restore_endpoint_v1alpha1.go:94-134 | makes exactly the RestoreForReplicaStep change |
| RestoreEndpoint.CreateRestoreResource | cmd/maya-apiserver/app/server/restore_endpoint_v1alpha1.go:78-137 | makes exactly the CreateRestoreResourceStep change |
| RestoreEndpoint.CVRRestoreStatus | cmd/maya-apiserver/app/server/restore_endpoint_v1alpha1.go:226-243 | a Done or Failed restore keeps its status; otherwise it is its own status, InProgress or Failed |
| RestoreEndpoint.RecordStatusStep | cmd/maya-apiserver/app/server/restore_endpoint_v1alpha1.go:197-208 | one listed restore counts as its CVRRestoreStatus; nothing is written unless it needs the Failed write-back |
| RestoreEndpoint.RecordStatusEffect | cmd/maya-apiserver/app/server/restore_endpoint_v1alpha1.go:197-208 | only the listed restore may change, and only to itself marked Failed; with every call accepted the write-back happens |
| RestoreEndpoint.CVRStatuses | cmd/maya-apiserver/app/server/restore_endpoint_v1alpha1.go:196-197 | one status per listed restore, each its CVRRestoreStatus |
| RestoreEndpoint.Combine | cmd/maya-apiserver/app/server/restore_endpoint_v1alpha1.go:199-215 | the new answer is the restore's status, except that the intended fold keeps Failed against a later Done |
| RestoreEndpoint.StatusFold | cmd/maya-apiserver/app/server/restore_endpoint_v1alpha1.go:196-222 | the loop answers FoldStatuses of the statuses and touches only restores |
| RestoreEndpoint.FoldStatusesAsWritten | cmd/maya-apiserver/app/server/restore_endpoint_v1alpha1.go:196-222 | as written, InProgress when any restore counts as InProgress, else the last restore's status |
| RestoreEndpoint.FoldStatusesKeepsFailed | cmd/maya-apiserver/app/server/restore_endpoint_v1alpha1.go:210-215 | as intended, when all restores are settled, Failed exactly when one failed and Done otherwise |
| RestoreEndpoint.GetRestoreStatusAsWritten | cmd/maya-apiserver/app/server/restore_endpoint_v1alpha1.go:180-224 | the GET as written: InProgress if any, "" for no restore, else the last restore's status |
| RestoreEndpoint.GetRestoreStatusSettled | cmd/maya-apiserver/app/server/restore_endpoint_v1alpha1.go:180-224 | the intended GET over settled restores: Done exactly when all are Done, Failed exactly when one failed |
| RestoreEndpoint.FailedThenDone | cmd/maya-apiserver/app/server/restore_endpoint_v1alpha1.go:210-215 | Failed then Done answers Done as written and Failed as intended |
| RestoreEndpoint.StatusFoldEffect | cmd/maya-apiserver/app/server/restore_endpoint_v1alpha1.go:196-222 | the status read writes nothing but listed restores marked Failed; the restore set and unlisted restores stay |
| RestoreEndpoint.StatusFoldWritesFailed | cmd/maya-apiserver/app/server/restore_endpoint_v1alpha1.go:203-208 | with every call accepted, a listed restore that needs the write-back and is reached ends Failed |
| RestoreEndpoint.GetCVRRestoreStatus | cmd/maya-apiserver/app/server/restore_endpoint_v1alpha1.go:226-243 | returns CVRRestoreStatus |
| RestoreEndpoint.RecordStatus | cmd/maya-apiserver/app/server/restore_endpoint_v1alpha1.go:197-208 | makes exactly the RecordStatusStep change and answer |
| RestoreEndpoint.GetRestoreStatus | cmd/maya-apiserver/app/server/restore_endpoint_v1alpha1.go:180-224 | the loop with early exit makes exactly the GetRestoreStatusStep change and answer, with the fold as written or as intended as selected |
| RestoreEndpoint.CreateChecksFields | cmd/maya-apiserver/app/server/restore_endpoint_v1alpha1.go:63-72 | a create request passes exactly when restore name, volume, namespace and source are set |
| RestoreEndpoint.GetChecksFields | cmd/maya-apiserver/app/server/restore_endpoint_v1alpha1.go:152-161 | a get request passes exactly when restore name, namespace and volume are set |
| RestoreEndpoint.HandlersRefuseIncompleteRequests | cmd/maya-apiserver/app/server/restore_endpoint_v1alpha1.go:55-161 | a request missing a checked field is a 400 and writes nothing, with either status fold |
| RestoreEndpoint.Create | cmd/maya-apiserver/app/server/restore_endpoint_v1alpha1.go:55-75 | makes exactly the CreateStep change and answer |
| RestoreEndpoint.GetHandlerFailedThenDone | cmd/maya-apiserver/app/server/restore_endpoint_v1alpha1.go:140-222 | a complete GET over a Failed then a Done restore is served Done as written and Failed as intended |
| RestoreEndpoint.Get | cmd/maya-apiserver/app/server/restore_endpoint_v1alpha1.go:140-178 | makes exactly the GetStep change and answer, with the status fold as written or as intended as selected |
| ZfsCommand.AppendAll | pkg/zfs/v1alpha1/zpool/add/builder.go:117-127 | appending fragments one by one gives the line followed by their concatenation |
| ZfsCommand.WriteByValueLosesFragments | pkg/zfs/v1alpha1/zfs/snapshot/builder.go:227-232 | as written, appendCommand leaves the caller's builder as it was whatever the fragments |
| ZfsCommand.WriteByPointerConcatenates | pkg/zfs/v1alpha1/zfs/snapshot/builder.go:227-232 | as intended, the builder ends up holding every fragment in order |
| ZfsCommand.Failing | pkg/zfs/v1alpha1/zfs/snapshot/builder.go:162-171 | exactly the positions of the checks that fail, in increasing order |
| ZfsCommand.Recorded | pkg/zfs/v1alpha1/zfs/snapshot/builder.go:162-171 | as intended, the error is nil exactly when it was nil and nothing failed, and reports the old failures followed by the new |
| ZfsCommand.RecordedAsWritten | pkg/zfs/v1alpha1/zfs/snapshot/builder.go:166 | as written, a nil error stays nil; an existing error is extended |
| ZfsCommand.ValidateChecks | pkg/zfs/v1alpha1/zpool/add/builder.go:90-99 | the intended loop evaluates every check in order and records every failure |
| ZfsCommand.ValidateChecksAsWritten | pkg/zfs/v1alpha1/zpool/add/builder.go:90-99 | the loop as written gives RecordedAsWritten |
| ZfsCommand.FailedCheckIsLost | pkg/zfs/v1alpha1/zfs/snapshot/builder.go:162-171 | with a nil error and a failing check, the failure is lost as written and reported as intended |
| ZfsCommand.ValidatedNilIffAllPass | pkg/zfs/v1alpha1/zfs/snapshot/builder.go:162-171 | as intended, the error is nil exactly when it was nil and every check holds |
| ZfsCommand.ExecuteStep | pkg/zfs/v1alpha1/zfs/snapshot/builder.go:174-181 | refused exactly when Build reported an error, with that error; otherwise the binary runs with the command line as its argument |
| ZfsCommand.ExecuteRunsIffChecksPass | pkg/zfs/v1alpha1/zfs/snapshot/builder.go:174-181 | as intended, a fresh builder runs its command exactly when every check holds |
| ZfsCommand.ExecuteAsWrittenAlwaysRuns | pkg/zfs/v1alpha1/zfs/snapshot/builder.go:174-181 | as written, a fresh builder runs its command whatever its checks say |
| ZpoolAdd.IsVdevListSet | pkg/zfs/v1alpha1/zpool/add/predicate.go:23-27 | holds exactly when some vdev is given |
| ZpoolAdd.IsPropertySet | pkg/zfs/v1alpha1/zpool/add/predicate.go:30-34 | holds exactly when some property is given |
| ZpoolAdd.IsPoolSet | pkg/zfs/v1alpha1/zpool/add/predicate.go:37-41 | holds exactly when the pool is named |
| ZpoolAdd.IsCommandSet | pkg/zfs/v1alpha1/zpool/add/predicate.go:44-48 | holds exactly when the command is non-empty |
| ZpoolAdd.Fragments | pkg/zfs/v1alpha1/zpool/add/builder.go:112-131 | ` add `, one ` -o p ` per property in order, the pool, then one ` v ` per vdev in order |
| ZpoolAdd.CommandLineLayout | pkg/zfs/v1alpha1/zpool/add/builder.go:112-131 | the line is the operation and property flags, then the pool, then the vdevs, starting with ` add ` |
| ZpoolAdd.BuildLosesCommand | pkg/zfs/v1alpha1/zpool/add/builder.go:112-139 | as written the line is empty; as intended it is the non-empty concatenation |
| ZpoolAdd.WriteFragments | pkg/zfs/v1alpha1/zpool/add/builder.go:112-128 | the intended appends give the concatenation of the fragments |
| ZpoolAdd.PoolExpansion.constructor | pkg/zfs/v1alpha1/zpool/add/builder.go:55-57 | a new builder is empty, with no check and no error |
| ZpoolAdd.PoolExpansion.WithCheck | pkg/zfs/v1alpha1/zpool/add/builder.go:60-63 | appends the checks; nothing else changes |
| ZpoolAdd.PoolExpansion.WithVdevList | pkg/zfs/v1alpha1/zpool/add/builder.go:66-69 | appends the vdev; afterwards IsVdevListSet holds |
| ZpoolAdd.PoolExpansion.WithProperty | pkg/zfs/v1alpha1/zpool/add/builder.go:72-75 | appends `key=value`; afterwards IsPropertySet holds |
| ZpoolAdd.PoolExpansion.WithPool | pkg/zfs/v1alpha1/zpool/add/builder.go:78-81 | sets only the pool |
| ZpoolAdd.PoolExpansion.WithCommand | pkg/zfs/v1alpha1/zpool/add/builder.go:84-87 | sets only the command |
| ZpoolAdd.PoolExpansion.Validate | pkg/zfs/v1alpha1/zpool/add/builder.go:90-99 | as intended, records every failing check; the settings stay |
| ZpoolAdd.PoolExpansion.ValidateAsWritten | pkg/zfs/v1alpha1/zpool/add/builder.go:90-99 | as written, a nil error stays nil |
| ZpoolAdd.PoolExpansion.Build | pkg/zfs/v1alpha1/zpool/add/builder.go:112-131 | as intended, the command becomes the concatenated fragments and the validation error is returned |
| ZpoolAdd.PoolExpansion.BuildAsWritten | pkg/zfs/v1alpha1/zpool/add/builder.go:112-139 | as written, the command becomes "" |
| ZpoolAdd.PoolExpansion.Execute | pkg/zfs/v1alpha1/zpool/add/builder.go:102-109 | refuses with the build error, or runs zpool with the intended command line |
| ZpoolAdd.PoolExpansion.ExecuteAsWritten | pkg/zfs/v1alpha1/zpool/add/builder.go:102-139 | as written, refuses exactly when the builder already had an error, and otherwise runs zpool with the empty command line, so a fresh builder always runs "" |
| ZfsDestroy.IsDryRunSet | pkg/zfs/cmd/v1alpha1/zfs/destroy/builder.go:118 | holds exactly when the dry-run flag is set |
| ZfsDestroy.IsRecursiveSet | pkg/zfs/cmd/v1alpha1/zfs/destroy/builder.go:122 | holds exactly when the recursive flag is set |
| ZfsDestroy.Fragments | pkg/zfs/cmd/v1alpha1/zfs/destroy/builder.go:112-130 | ` destroy `, ` -n` exactly for a dry run, ` -R ` exactly for a recursive destroy, then the name |
| ZfsDestroy.CommandEndsWithName | pkg/zfs/cmd/v1alpha1/zfs/destroy/builder.go:112-130 | the line ends with the name of what is destroyed |
| ZfsDestroy.BuildLosesCommand | pkg/zfs/cmd/v1alpha1/zfs/destroy/builder.go:112-138 | as written the line is empty; as intended it is the non-empty concatenation |
| ZfsDestroy.WriteFragments | pkg/zfs/cmd/v1alpha1/zfs/destroy/builder.go:112-126 | the intended appends give the concatenation of the fragments |
| ZfsDestroy.VolumeDestroy.constructor | pkg/zfs/cmd/v1alpha1/zfs/destroy/builder.go:57-59 | a new builder is empty, with no check and no error |
| ZfsDestroy.VolumeDestroy.WithCheck | pkg/zfs/cmd/v1alpha1/zfs/destroy/builder.go:62-65 | appends the checks; nothing else changes |
| ZfsDestroy.VolumeDestroy.WithDryRun | pkg/zfs/cmd/v1alpha1/zfs/destroy/builder.go:68-71 | sets only the dry-run flag |
| ZfsDestroy.VolumeDestroy.WithRecursive | pkg/zfs/cmd/v1alpha1/zfs/destroy/builder.go:74-77 | sets only the recursive flag |
| ZfsDestroy.VolumeDestroy.WithName | pkg/zfs/cmd/v1alpha1/zfs/destroy/builder.go:80-83 | sets only the name |
| ZfsDestroy.VolumeDestroy.WithCommand | pkg/zfs/cmd/v1alpha1/zfs/destroy/builder.go:86-89 | sets only the command |
| ZfsDestroy.VolumeDestroy.Validate | pkg/zfs/cmd/v1alpha1/zfs/destroy/builder.go:92-99 | as intended, records every failing check |
| ZfsDestroy.VolumeDestroy.ValidateAsWritten | pkg/zfs/cmd/v1alpha1/zfs/destroy/builder.go:92-99 | as written, a nil error stays nil |
| ZfsDestroy.VolumeDestroy.Build | pkg/zfs/cmd/v1alpha1/zfs/destroy/builder.go:112-130 | as intended, the command becomes the concatenated fragments |
| ZfsDestroy.VolumeDestroy.BuildAsWritten | pkg/zfs/cmd/v1alpha1/zfs/destroy/builder.go:112-138 | as written, the command becomes "" |
| ZfsDestroy.VolumeDestroy.Execute | pkg/zfs/cmd/v1alpha1/zfs/destroy/builder.go:102-109 | refuses with the build error, or runs zfs with the intended command line |
| ZfsDestroy.VolumeDestroy.ExecuteAsWritten | pkg/zfs/cmd/v1alpha1/zfs/destroy/builder.go:102-138 | as written, refuses exactly when the builder already had an error, and otherwise runs zfs with the empty command line, so a fresh builder always runs "" |
| ZpoolStatus.Fragments | pkg/zfs/v1alpha1/zpool/status/builder.go:94-103 | two fragments, the second the pool |
| ZpoolStatus.CommandLine | pkg/zfs/v1alpha1/zpool/status/builder.go:94-103 | the line is ` status ` followed by the pool |
| ZpoolStatus.BuildLosesCommand | pkg/zfs/v1alpha1/zpool/status/builder.go:94-111 | as written the line is empty; as intended it is ` status ` and the pool |
| ZpoolStatus.PoolStatus.constructor | pkg/zfs/v1alpha1/zpool/status/builder.go:49-51 | a new builder is empty, with no check and no error |
| ZpoolStatus.PoolStatus.WithCheck | pkg/zfs/v1alpha1/zpool/status/builder.go:54-57 | appends the checks |
| ZpoolStatus.PoolStatus.WithPool | pkg/zfs/v1alpha1/zpool/status/builder.go:60-63 | sets only the pool |
| ZpoolStatus.PoolStatus.WithCommand | pkg/zfs/v1alpha1/zpool/status/builder.go:66-69 | sets only the command |
| ZpoolStatus.PoolStatus.Validate | pkg/zfs/v1alpha1/zpool/status/builder.go:72-81 | as intended, records every failing check |
| ZpoolStatus.PoolStatus.ValidateAsWritten | pkg/zfs/v1alpha1/zpool/status/builder.go:72-81 | as written, a nil error stays nil |
| ZpoolStatus.PoolStatus.Build | pkg/zfs/v1alpha1/zpool/status/builder.go:94-103 | as intended, the command becomes ` status ` followed by the pool |
| ZpoolStatus.PoolStatus.BuildAsWritten | pkg/zfs/v1alpha1/zpool/status/builder.go:94-111 | as written, the command becomes "" |
| ZpoolStatus.PoolStatus.Execute | pkg/zfs/v1alpha1/zpool/status/builder.go:84-91 | refuses with the build error, or runs zpool with ` status ` and the pool |
| ZpoolStatus.PoolStatus.ExecuteAsWritten | pkg/zfs/v1alpha1/zpool/status/builder.go:84-111 | as written, refuses exactly when the builder already had an error, and otherwise runs zpool with the empty command line, so a fresh builder always runs "" |
| ZfsSnapshot.IsDedupSet | pkg/zfs/v1alpha1/zfs/snapshot/builder.go:191 | holds exactly when dedup is set |
| ZfsSnapshot.IsLastSnapshotSet | pkg/zfs/v1alpha1/zfs/snapshot/builder.go:195 | holds exactly when a last snapshot is named |
| ZfsSnapshot.IsRecursiveSet | pkg/zfs/v1alpha1/zfs/snapshot/builder.go:209 | holds exactly when the recursive flag is set |
| ZfsSnapshot.IsPropertySet | pkg/zfs/v1alpha1/zfs/snapshot/builder.go:213 | holds exactly when some property is given |
| ZfsSnapshot.Fragments | pkg/zfs/v1alpha1/zfs/snapshot/builder.go:184-224 | empty exactly for an unknown operation; snapshot: ` -r ` iff recursive, each property, then `dataset@snap`; send: ` -D ` iff dedup, ` -i @last ` iff a last snapshot, then `dataset@snap` and the nc pipe; receive: `dataset@snap` and the nc pipe |
| ZfsSnapshot.DryRunAndCompressionIgnored | pkg/zfs/v1alpha1/zfs/snapshot/builder.go:184-224 | the dry-run and compression settings never change the command line |
| ZfsSnapshot.SendAndReceiveAgree | pkg/zfs/v1alpha1/zfs/snapshot/builder.go:189-205 | a send and the receive of the same settings name the same snapshot and the same target |
| ZfsSnapshot.BuildLosesCommand | pkg/zfs/v1alpha1/zfs/snapshot/builder.go:184-232 | as written the line is empty; as intended it is the concatenation, non-empty for the three operations |
| ZfsSnapshot.WriteFragments | pkg/zfs/v1alpha1/zfs/snapshot/builder.go:188-220 | the intended appends give the concatenation of the fragments |
| ZfsSnapshot.WriteSend | pkg/zfs/v1alpha1/zfs/snapshot/builder.go:189-200 | the send appends give the concatenation of the send fragments |
| ZfsSnapshot.WriteRecv | pkg/zfs/v1alpha1/zfs/snapshot/builder.go:202-205 | the receive appends give the concatenation of the receive fragments |
| ZfsSnapshot.WriteSnap | pkg/zfs/v1alpha1/zfs/snapshot/builder.go:207-219 | the snapshot appends give the concatenation of the snapshot fragments |
| ZfsSnapshot.VolumeSnapshot.constructor | pkg/zfs/v1alpha1/zfs/snapshot/builder.go:85-87 | a new builder is empty, with no check and no error |
| ZfsSnapshot.VolumeSnapshot.WithCheck | pkg/zfs/v1alpha1/zfs/snapshot/builder.go:90-93 | appends the checks |
| ZfsSnapshot.VolumeSnapshot.WithProperty | pkg/zfs/v1alpha1/zfs/snapshot/builder.go:96-99 | appends `key=value`; afterwards IsPropertySet holds |
| ZfsSnapshot.VolumeSnapshot.WithRecursive | pkg/zfs/v1alpha1/zfs/snapshot/builder.go:102-105 | sets only the recursive flag |
| ZfsSnapshot.VolumeSnapshot.WithSnapshot | pkg/zfs/v1alpha1/zfs/snapshot/builder.go:108-111 | sets only the snapshot |
| ZfsSnapshot.VolumeSnapshot.WithDataset | pkg/zfs/v1alpha1/zfs/snapshot/builder.go:114-117 | sets only the dataset |
| ZfsSnapshot.VolumeSnapshot.WithOpType | pkg/zfs/v1alpha1/zfs/snapshot/builder.go:120-123 | sets only the operation type |
| ZfsSnapshot.VolumeSnapshot.WithTarget | pkg/zfs/v1alpha1/zfs/snapshot/builder.go:126-129 | sets only the target |
| ZfsSnapshot.VolumeSnapshot.WithDedup | pkg/zfs/v1alpha1/zfs/snapshot/builder.go:132-135 | sets only the dedup flag |
| ZfsSnapshot.VolumeSnapshot.WithLastSnapshot | pkg/zfs/v1alpha1/zfs/snapshot/builder.go:138-141 | sets only the last snapshot |
| ZfsSnapshot.VolumeSnapshot.WithDryRun | pkg/zfs/v1alpha1/zfs/snapshot/builder.go:144-147 | sets only the dry-run flag |
| ZfsSnapshot.VolumeSnapshot.WithEnableCompression | pkg/zfs/v1alpha1/zfs/snapshot/builder.go:150-153 | sets only the compression flag |
| ZfsSnapshot.VolumeSnapshot.WithCommand | pkg/zfs/v1alpha1/zfs/snapshot/builder.go:156-159 | sets only the command |
| ZfsSnapshot.VolumeSnapshot.Validate | pkg/zfs/v1alpha1/zfs/snapshot/builder.go:162-171 | as intended, records every failing check |
| ZfsSnapshot.VolumeSnapshot.ValidateAsWritten | pkg/zfs/v1alpha1/zfs/snapshot/builder.go:162-171 | as written, a nil error stays nil |
| ZfsSnapshot.VolumeSnapshot.Build | pkg/zfs/v1alpha1/zfs/snapshot/builder.go:184-224 | as intended, the command becomes the concatenated fragments of the operation |
| ZfsSnapshot.VolumeSnapshot.BuildAsWritten | pkg/zfs/v1alpha1/zfs/snapshot/builder.go:184-232 | as written, the command becomes "" |
| ZfsSnapshot.VolumeSnapshot.Execute | pkg/zfs/v1alpha1/zfs/snapshot/builder.go:174-181 | refuses with the build error, or runs zfs with the intended command line |
| ZfsSnapshot.VolumeSnapshot.ExecuteAsWritten | pkg/zfs/v1alpha1/zfs/snapshot/builder.go:162-232 | as written, refuses exactly when the builder already had an error, and otherwise runs zfs with the empty command line, so a fresh builder always runs "" |

## Left out

- The orchestrator is an input, an `Orchestrator` value.
  - So is the work queue: the queue is a sequence of items in the controller,
    with no rate limiting, no workers and no retry.
  - The informer, the event recorder and logging are not modelled.
  - The clientsets, list builders and generated client code are not part of
    this model. Lists are inputs (`None` when the list call fails).
  - The CRD install YAML is not part of this model either.
- The outcome of a storage-engine transfer is the input `transferOk`. Taking
  the volume snapshot (`createSnapshot`) is the input `snapshotOk`.
- The UUID generator is the parameter `uuid`. Distinct UUIDs are a
  precondition of the fan-out lemmas.
- Decoding the HTTP request body, and encoding and writing the response, are
  I/O and are left out. Every 400 error is modelled as quoting its cause.
- The backup GET checks are applied to the job read from the store, as the
  builder does. The restore GET checks are applied to the request.
- The restore status constants are not part of this model's sources. They are
  assumed to be the same strings as the backup ones.
- `checkIfRSTPoolNodeDown` and `checkIfRSTPoolPodDown` are modelled by their
  backup twins, `BackupEndpoint.PoolNodeDown` and `PoolPodDown`, on the
  restore's pool-UID label. The restore node probe reads a field that does not
  exist (restore_endpoint_v1alpha1.go:252), so it does not compile as written.
- In the backup handler, a failed transfer's error is shadowed, so Sync returns
  nil. In the restore handler, `ret` is never set. Both are modelled as written.
  The ledger update's error is swallowed.
- A malformed restore queue key makes Add and Sync dereference nil. This is
  modelled as the error `NilPointer`, standing for the panic.
- Backup ownership checks are commented out in the source, and so are absent
  here. `IsRightCStorPoolMgmt` compares the CStor ID with the backup's UID.
- `RegenerateObjName` only calls `SetObjName`, and is modelled by it.
- Plain getters (`GetObjName`, `GetStatus`, `GetLabel`, …) are field reads of
  the datatype.
- Builders:
  - Process output and the exit status of `exec.Command` are I/O. `Execute`
    returns which binary would run and with what argument; the whole command
    line is one argument, as in the source.
  - The `With…` setters return the receiver for chaining; that return value is
    not modelled.
  - `GetOpType` of the snapshot builder is not part of this model's sources. It
    is assumed to return the operation type.
  - The snapshot and destroy predicate files are not part of this model's
    sources. Their predicates are taken as "flag set" and "field non-empty",
    matching how `Build` uses them.
  - The `WriteString` failure path of `appendCommand` cannot happen for a
    `strings.Builder`, and is left out.
  - `zfs.ZFS`, `zfs.ZPOOL` and `bin.ZFS` are the values `Zfs` and `Zpool` of
    `Binary`.
- Updates ignore `resourceVersion`. A conflict from optimistic concurrency (a
  stale version) is not modelled. It can appear only as a rejection in the
  server's reply script.
- BackupEndpoint.CreateHandlerEffect, RestoreEndpoint.GetRestoreStatusSettled,
  ZfsCommand.ExecuteRunsIffChecksPass and the builders' `Build`/`Execute`
  describe the intended versions. The code as written is described by
  `CreateHandlerAsWritten`, `GetRestoreStatusAsWritten`/`GetHandlerFailedThenDone`
  and `BuildAsWritten`/`ExecuteAsWritten`.
- ZfsCommand.Failing: a failed check is reported by its position in the check
  list, not by the formatted `%v` of the function value. This is weaker than a
  message, because formatting a Go function value cannot be modelled.

## Findings

| source | as written | input that shows it | evidently intended | confidence | as-written member | corrected member |
|---|---|---|---|---|---|---|
| cmd/maya-apiserver/app/server/backup_endpoint_v1alpha1.go:347-353 | after a successful create, `deployBackup` formats `err.Error()` of the nil error, which panics; the job is stored but the request fails | a complete backup request for a free name on a volume with a healthy replica | a successful create returns nil | not executed | BackupEndpoint.DeployAsWrittenFailsAfterCreate | BackupEndpoint.DeploySucceedsAfterCreate |
| cmd/maya-apiserver/app/server/restore_endpoint_v1alpha1.go:196-222 | the fold overwrites the answer with each restore's status, so a later Done masks an earlier Failed | two replica restores, the first Failed and the second Done | the restore is Failed when any replica restore failed | not executed | RestoreEndpoint.FailedThenDone | RestoreEndpoint.GetRestoreStatusSettled |
| pkg/zfs/v1alpha1/zfs/snapshot/builder.go:227-232 | `appendCommand` takes the `strings.Builder` by value, so every fragment goes to a copy and `Command` is always "" (the same in zpool add, zfs destroy and zpool status) | any builder, e.g. a `zpool status` for pool `tank` | the command line is the concatenation of the fragments | not executed | ZfsCommand.WriteByValueLosesFragments | ZfsCommand.WriteByPointerConcatenates |
| pkg/zfs/v1alpha1/zfs/snapshot/builder.go:166 | `errors.Wrapf` of a nil error is nil, so a builder that starts without an error never records a failed check, and `Execute` runs anyway (the same in zpool add, zfs destroy and zpool status) | a fresh builder with one check that fails | a failed check makes `Build` return an error and `Execute` refuse | not executed | ZfsCommand.ExecuteAsWrittenAlwaysRuns | ZfsCommand.ExecuteRunsIffChecksPass |
