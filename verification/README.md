# Verified model of the CUBRID operator and its Instance Manager

A Dafny model of how a Kubernetes operator for CUBRID HA and the Instance Manager in
each of its Pods stay safe when a crash, a lost status write, a failed disk write or a
race comes between any two steps.

Protocols are transition systems: `Can` says when a step may be taken and `Next` what it
makes of the state, one effect on shared state per step, and the main results hold over
every run of them. Code that changes a record or a file step by step is a class whose
methods may take only such steps. What the outside answers is any value of an `Env` the
class is made with, or left open; a ghost count of faults says what holds when nothing
failed, and what a read answers and a write leaves is stated for failed writes too.

| files | system |
|---|---|
| `Operations`, `StoreRuns`, `OperationStore` | the durable operation store: records, ends kept in memory, records unreadable at start, crashes of the manager and of the power |
| `Ownership`, `Exposure`, `OwnershipLimits`, `Roots`, `DatabaseRoots`, `Durable` | the marker that decides when a half-made database directory may be removed, adopted or started; databases.txt; durable metadata files |
| `Stops`, `Readiness`, `Staging` | the stop of a member, the shared readiness check, backup staging |
| `BackupDispatch`, `Seeding`, `Recovery`, `Keys` | the operator's workflows over a stored status that may be stale or lost |
| `Replication`, `ObservationTimes`, `Roles`, `HAReady` | what the operator concludes from readings over time |
| `Artifacts`, `ManifestUri`, `Tokens` | backup artifacts, their URIs, and the token of the Instance Managers |

## Promises that need a condition

Each of these has a concrete case, and the exact condition under which the property holds.

- Started data can be removed. `createHADatabase` can unlink its marker and then fail to sync
  the directory. The data is started without a marker, and a power loss brings the marker back
  (`OwnershipLimits.StartedDataCondemned`). Where no such start came before, some run goes on from a
  start to the removal of what it started if and only if an unsynced removal covers the marker of an
  operation that is not on record as restored when the start is made (`Exposure.StartLosesDataIff`).
- A success of the shutdown command can be followed by a start, when its request is lost while the
  manager listens, or when the stop could not be recorded (`Stops.LostRequestStartsAgain`,
  `Stops.UnrecordedStopStartsAgain`). No start runs beside the command's own shutdown or is issued after
  its success if and only if, when the command goes unanswered, the stop is on record or the member is
  stopping, and no operation is between its look for the stop file and the end of its start
  (`Stops.UnansweredExact`). Operations that are at work before that look do no harm.
- A create that fails in place, and whose removal fails too, is answered as Pending although nothing
  runs it (`OperationStores.StrandedCreate`, `OperationStores.AnsweredRunning`).
- A request whose operation was admitted can find another record under its key: one that an earlier create
  left in place, that was removed, and that a power loss brings back (`OperationStores.FailedCreateComesBack`).
  Without a fault a retry is answered with its operation when that holds its key alone, whatever runs
  (`OperationStores.OperationStore.FindOrCreate`), and every other record under the key is one that no worker
  was ever started for (`OperationStores.AdmittedStays`).
- A stale read sends a start again after its operation is stored (`BackupDispatch.StaleReadSendsAgain`,
  `Seeding.StaleReadStartsAgain`, `Recovery.StaleReadStartsAgain`). A read of that version or a later one
  does not (`BackupDispatch.NoSendFromRecorded`, `Seeding.NoStartOnceSpent`, `Recovery.StartedOncePerAttempt`),
  and what a start is answered with is in the next write (`BackupDispatch.AnsweredIsRecorded`,
  `Seeding.AnsweredIsNotStartedAgain`, `Recovery.AnsweredIsNotStartedAgain`).
- A claim of backup staging removes the files of another operation once that has ended and no process
  holds them (`Staging.RemovesAnothers`, `Staging.RemovesOwnOrAbandoned`).
- A restore into a staging directory that exists keeps what is in it, so the directory holds exactly
  the artifact if and only if nothing else was there (`Artifacts.LeftoverStays`,
  `Artifacts.StagingDir.StageArtifact`).
- A member that starts with a token too old refuses every call (`Tokens.StaleStartStrands`). A member is
  reached for good if and only if it starts with the current token, or with the previous one while no
  reconcile that may drop it has asked that member (`Tokens.StartExact`).
- A stuck applier that is reported is no longer after one pass in which its member gives no answer that
  counts, and ReplicationHealthy can turn True (`Replication.UnansweredClears`, `HAReady.UnansweredTurnsTrue`).
  It stays reported if and only if every pass since saw the member as a slave or observed no roles at all
  (`Replication.StuckReported`), and the record of a reading lives under the same condition
  (`Replication.HistoryLives`).
- A bucket name with a slash passes the operator's own checks of a backup and is read as another bucket by
  a recovery (`ManifestUri.SlashInBucketAdmitted`, `ManifestUri.RoundTrip`). The API server refuses such a
  name today, so only a backup stored by an earlier release can carry one.
- `removeFile` reports success for a file that is not there, also when an earlier removal of it was
  never synced (`Durable.AbsentMayComeBack`). The success is durable if and only if the file was there or
  no unsynced change of the directory covers it (`Durable.Directory.RemoveFile`).

## Model

| member | source | states |
|---|---|---|
| `StoreRuns.InvKept` | internal/instancemanager/opstore.go:143-588 | every effect of the store on the volume or in memory, with a crash of the manager or of the power between any two, keeps its invariant |
| `StoreRuns.OneWorkerPerDatabase` | internal/instancemanager/opstore.go:143-209 | over every run at most one operation of a database has a running worker |
| `StoreRuns.OneWorkerPerKey` | internal/instancemanager/opstore.go:143-209 | over every run one worker is ever started under one kind and idempotency key: two seen under it are the same operation, which ran all the time in between |
| `OperationStores.OperationStore.Decode` | internal/instancemanager/opstore.go:504-530 | a record is found, not found, or a failure, and without a fault it fails only for a record without a key |
| `OperationStores.OperationStore.Peek` | internal/instancemanager/opstore.go:470-485 | without a fault the answer is exactly Peeked, and nothing but the fault count changes |
| `OperationStores.OperationStore.Read` | internal/instancemanager/opstore.go:489-550 | the answer is on record; an interrupted record is failed or the read fails; a kept end leaves the store alone |
| `OperationStores.OperationStore.Update` | internal/instancemanager/opstore.go:267-290 | success means the change is durable; failure means the record is the old one or the changed one, and needs a fault or a record without a key |
| `OperationStores.OperationStore.WriteKeptEnd` | internal/instancemanager/opstore.go:312-326 | a kept end is on record after success and still kept after failure |
| `OperationStores.OperationStore.Settle` | internal/instancemanager/opstore.go:300-308 | the worker is gone; its end is on record for good, or, after a fault, kept until it is written |
| `OperationStores.OperationStore.Get` | internal/instancemanager/opstore.go:253-263 | the answer equals what Peek answered before, whenever nothing it touches fails; an operation answered as running is run by a worker or stranded by a failed create |
| `OperationStores.OperationStore.WriteKeptEnds` | internal/instancemanager/opstore.go:143-209 | without a fault no kept end is left but those of records without a key |
| `OperationStores.OperationStore.List` | internal/instancemanager/opstore.go:402-432 | every record is listed as it is now or reported unreadable, and listing only ends records |
| `OperationStores.OperationStore.FindOrCreate` | internal/instancemanager/opstore.go:143-209 | a new operation is admitted only when no record holds its key and none that runs its database; a record under the key is answered before the database is judged; and without a fault a request whose operation holds its key alone is answered with that operation, whatever else runs |
| `OperationStores.OperationStore.Judge` | internal/instancemanager/opstore.go:157-196 | the verdict over the listed records, in order: the record that holds the key, then an unreadable one, then one that runs the database; and admit exactly when none speaks against it |
| `OperationStores.OperationStore.FindByKey` | internal/instancemanager/opstore.go:217-248 | exactly the operations under the key, each as recorded, and one that is not terminal truly runs |
| `OperationStores.OperationStore.ReconcileOnStart` | internal/instancemanager/opstore.go:372-397 | the manager comes up only when every record that says running was failed or is remembered as unread; every other record is as it was |
| `OperationStores.AnsweredRunning` | internal/instancemanager/opstore.go:253-326 | over every run a read answers an operation as running exactly when its worker runs, or its failed create could not be removed |
| `OperationStores.StrandedCreate` | internal/instancemanager/opstore.go:198-209 | that exception happens: a run of the code that leaves a Pending record nothing runs |
| `OperationStores.AdmittedStays` | internal/instancemanager/opstore.go:143-209 | over every run, from its admission an operation is on record under its request for good, and every other record under its key is one that no worker was started for |
| `OperationStores.FailedCreateComesBack` | internal/instancemanager/opstore.go:198-209 | such a record happens: a create that failed in place is asked again and admitted, and a power loss brings the first record back under the same key |
| `OperationStores.SettledIsAnswered` | internal/instancemanager/opstore.go:253-326 | over every run, once an end is written every read tells it, across restarts and power losses: a completed operation with its artifact, a failed one with its reason |
| `OperationStores.KnownIsAnswered` | internal/instancemanager/opstore.go:300-326 | and an end that could not be written is told by every read until the manager restarts |
| `Ownership.StepKept` | internal/instancemanager/ownership.go:194-334 | every step of a restore, an HA bootstrap, the resume, the entrypoint and a crash keeps the ownership invariant: data started in a directory that names an operation is durably on record as restored by it |
| `Exposure.StartLosesDataIff` | internal/instancemanager/habootstrap.go:212-259 | at every start of every run that no exposed start came before: some run goes on from it to the removal of the data it started if and only if it came over an unsynced removal of the marker of an operation that is not on record as restored |
| `Exposure.StepNames` | internal/instancemanager/ownership.go:194-334 | every step keeps whom a marker may name: an operation of this database, never a backup, that says it completed only if its data is on record as restored |
| `Ownership.RemovesOnlyDisposable` | internal/instancemanager/ownership.go:194-273 | over every run, with a crash between any two steps, what a step removes was never started, is not on record as restored, and was made by an operation of this manager |
| `Ownership.OnlyTheseRemove` | internal/instancemanager/server.go:1024-1142 | no step but the undo, the move aside and the removal of what was moved aside removes a directory |
| `Ownership.StartedDataStays` | internal/instancemanager/ownership.go:275-334 | over every run a directory whose data was started, or that somebody else made, stays for good |
| `Roots.MoveKept` | internal/instancemanager/ownership.go:251-268 | every step keeps the ownership invariant under power losses that also undo any directory made, renamed or removed since the database root was synced |
| `Roots.RemovesOnlyDisposable` | internal/instancemanager/ownership.go:194-273 | over every run with such power losses, what a step removes was never started, is not on record as restored, and was made by an operation of this manager |
| `Roots.StartedDataStays` | internal/instancemanager/ownership.go:45-61 | over every run with such power losses, a directory whose data was started, or that somebody else made, stays for good, since nothing is started before its directory and its marker are synced with the root |
| `Roots.RemovedComesBack` | internal/instancemanager/habootstrap.go:228-237 | such power losses happen: for any bootstrap, a run in which it makes a directory, cannot mark it and removes it again, and a power loss brings it back |
| `Ownership.AdmitKept` | internal/instancemanager/opstore.go:143-209 | a worker of a database begins only when no other works on it, and finds the invariant |
| `Ownership.RecordStep` | internal/instancemanager/server.go:1052-1117 | what each write of its own record lets a worker rely on, before anything is started |
| `Ownership.ReclaimStep` | internal/instancemanager/ownership.go:194-273 | a reclaim goes on to remove only the directory of a failed operation that recorded nothing as restored |
| `Ownership.AdoptStep` | internal/instancemanager/ownership.go:290-334 | an adoption goes on only for data that a failed restore of the same request has on record |
| `Ownership.TakeOverStep` | internal/instancemanager/ownership.go:322-333 | the directory is marked as the new owner's only after its record says restored |
| `Ownership.CompleteKept` | internal/instancemanager/server.go:1124-1140 | a restore settles as completed only with its data on record as restored, and clears the marker last |
| `Ownership.ResumeStartsRestored` | internal/instancemanager/server.go:1202-1256 | over every run the resume starts only data that an operation of this manager made and has on record as restored, in every image of the record that a power loss may leave |
| `OwnershipLimits.StartedDataCondemned` | internal/instancemanager/habootstrap.go:247-259 | such a start happens: a run from the first start of a member, with one failed directory sync and one power loss, that ends in the removal of started data |
| `DatabaseRoots.ReportMatchesReclaim` | internal/instancemanager/ownership.go:112-178 | the report says Waiting exactly when a reclaim would clear or remove, Refused only when it would refuse, and nothing exactly for no marker or a running operation |
| `DatabaseRoots.GuardsAreDecisions` | internal/instancemanager/ownership.go:194-273 | the guards of the ownership machine are the decisions of the reclaim, once ends are written |
| `DatabaseRoots.DatabaseRoot.Unfinished` | internal/instancemanager/ownership.go:112-178 | reads only; without a fault the report is the decision's, and a fault never turns it into Waiting or silence |
| `DatabaseRoots.DatabaseRoot.Reclaim` | internal/instancemanager/ownership.go:194-273 | directory, marker and the database's own lines of databases.txt go only as decided; a nil error means the decision was carried out; without a fault the error is the refusal |
| `DatabaseRoots.DatabaseRoot.MoveAside` | internal/instancemanager/ownership.go:251-268 | the directory leaves its name in one step, and is then removed or left aside |
| `DatabaseRoots.DatabaseRoot.AdoptRestored` | internal/instancemanager/ownership.go:290-334 | the marker changes to the new owner only once its record durably says restored; and without a fault data is taken over if and only if a failed restore of the same request has it on record |
| `DatabaseRoots.DatabaseRoot.IsListed` | internal/instancemanager/restore.go:307-330 | true exactly when a line of databases.txt registers the database |
| `DatabaseRoots.DatabaseRoot.Unregister` | internal/instancemanager/ownership.go:346-382 | the lines of the database go and no other, and the file goes only when nothing else is in it |
| `DatabaseRoots.KeptCounts` | internal/instancemanager/ownership.go:355-368 | of every line exactly as many copies stay as were there, and none of the database's |
| `DatabaseRoots.UndoRegistration` | internal/instancemanager/restore.go:382-411 | the undo of a registration gives back databases.txt as it was |
| `Durable.Directory.ReplaceFile` | internal/instancemanager/durable.go:38-59 | by the calls that fail: done, without effect, or in place; at no moment could a power loss leave anything but an earlier outcome or the whole data; no other entry changes, and a temporary file is left only when it cannot be opened or removed |
| `Durable.Directory.RemoveFile` | internal/instancemanager/durable.go:81-89 | the same of a removal; its success is durable if and only if the file was there or no unsynced change of the directory covers it |
| `Durable.AbsentMayComeBack` | internal/instancemanager/durable.go:81-89 | after a removal of any file that was not synced, the next removal reports success and the file may come back with a power loss |
| `Durable.PowerLossLeaves` | internal/instancemanager/durable.go:26-37 | what a power loss leaves under the name is one of the outcomes, and never torn |
| `Durable.WrittenIsReplaced` | internal/instancemanager/opstore.go:555-588 | the three outcomes of a record write in the store are the outcomes of replacing its file, for what is seen and for what a power loss may leave |
| `Stops.StepKept` | internal/instancemanager/operations.go:135-291 | every interleaved step of operations, stops, shutdown commands and the starting manager keeps the invariant; an unanswered command needs a state from which no start can be issued and in which none runs |
| `Stops.NoStartAfterSuccess` | internal/instancemanager/operations.go:135-176 | over every interleaving, once a command or Stop has returned success no start runs and none is issued, also with operations at work when the request was lost |
| `Stops.ShutdownAlone` | internal/instancemanager/operations.go:248-291 | while the shutdown commands that a success rests on are carried out, no start runs and none is issued |
| `Stops.SuccessRests` | internal/instancemanager/operations.go:135-160 | every success rests on such commands |
| `Stops.UnansweredExact` | internal/instancemanager/operations.go:254-291 | over every run and whatever follows, a command that nobody answers sees no start beside its shutdown and none after its success if and only if, then, the stop is on record or the member stopping, and no operation is between its look for the stop file and the end of its start |
| `Stops.NobodyListens` | cmd/instance-manager/main.go:80-100 | that condition holds when the stop is recorded and nobody listens, in every run |
| `Stops.LostRequestStartsAgain` | internal/instancemanager/operations.go:361-383 | it fails for a request that is lost while the manager listens: a start can come after the success |
| `Stops.UnrecordedStopStartsAgain` | cmd/instance-manager/main.go:80-100 | it fails for a stop that could not be recorded before the manager listens |
| `Stops.StopCanSucceed` | internal/instancemanager/operations.go:135-160 | from every reachable state a call of Stop can return success, whatever operations and callers are under way |
| `Stops.StoppedOnce` | internal/instancemanager/operations.go:135-160 | over every run a stop that succeeded is not run a second time: nobody takes the lock of Stop again, and a later caller returns success at once |
| `Stops.StoppingAdmitsNothing` | internal/instancemanager/operations.go:165-190 | once the member is stopping no operation is admitted in any run from there |
| `Stops.RecordedAdmitsNothing` | internal/instancemanager/operations.go:213-250 | a stop on record before the starting manager looks for it: no operation is admitted in any run from there |
| `Readiness.OneCommand` | internal/instancemanager/server.go:339-407 | at most one status command at a time, over every interleaving of requests |
| `Readiness.WaitersCounted` | internal/instancemanager/server.go:339-372 | while a check has not ended its waiter count is the number of requests that wait for it |
| `Readiness.NeverCancelledUnder` | internal/instancemanager/server.go:339-407 | a request that waits for a check or was answered by it finds it uncancelled at every moment |
| `Readiness.CancelledExact` | internal/instancemanager/server.go:339-372 | over every run the check that runs is cancelled if and only if no request waits for it |
| `Readiness.NoOldAnswer` | internal/instancemanager/server.go:334-407 | over every run a check answers only requests that were with it before its result was published |
| `Staging.UploadsOnlyOwn` | internal/instancemanager/server.go:730-842 | an upload reads the operation's own directory, and every file in it is its own |
| `Staging.DirectoryStays` | internal/instancemanager/staging.go:121-268 | until an operation itself removes it, its staging directory is there, whatever the others do |
| `Staging.RemovesOwnOrAbandoned` | internal/instancemanager/staging.go:57-86 | what goes is the remover's own, or abandoned: its operation has ended or is unknown, runs no more, and no process holds a file in it |
| `Staging.RemovesAnothers` | internal/instancemanager/staging.go:213-227 | for any two backups, a run in which one writes into its directory and ends, and the claim of the other removes what it wrote |
| `Staging.OverKept` | internal/instancemanager/staging.go:72-86 | what Get answers as ended stays so while the manager is up |
| `Staging.StepKept` | internal/instancemanager/staging.go:121-268 | every step of requests, workers, the starting manager and a crash keeps the staging invariant |
| `Staging.StagingRoot.OwnerLive` | internal/instancemanager/staging.go:57-86 | an entry is not live only when its operation has ended or is unknown and no process holds it; without a fault exactly then |
| `Staging.StagingRoot.SomeLive` | internal/instancemanager/staging.go:90-110 | no live entry means every entry of the destination is abandoned, and without a fault some is live exactly when one is not; nothing that is over changes |
| `Staging.StagingRoot.ReclaimDestination` | internal/instancemanager/staging.go:213-227 | entries go only from this destination and only when all of it is abandoned; without a fault it is then empty, and free exactly then |
| `Staging.StagingRoot.Claim` | internal/instancemanager/staging.go:184-206 | the operation's directory is made anew and empty and no other destination is touched; without a fault exactly when every entry was abandoned, and it is then the only one |
| `BackupDispatch.Reconciler.Reconcile` | internal/controller/cubridbackup_controller.go:140-219 | by what the reconcile finds: an invalid, orphaned or refused backup ends, a recorded operation is polled and the status follows its answer, a target on record is sent the start or waits within its bound, and a selected one is recorded before it is sent the start; at most one start; what is stored is that status when no write is lost |
| `BackupDispatch.Reconciler.StartBackup` | internal/controller/cubridbackup_controller.go:243-394 | the start goes to the target on record, or to the selected one once that is stored; an operation that answers it is on record, a conflict or a refusal leaves what the target holds, or ends or waits by the bound, and an error changes nothing |
| `BackupDispatch.Reconciler.WaitExpired` | internal/controller/cubridbackup_controller.go:460-466 | expired exactly when more than 30 minutes have passed since the recorded time, which is set when there is none |
| `BackupDispatch.Reconciler.Poll` | internal/controller/cubridbackup_controller.go:397-424 | the status follows the answer: the phase of the operation, its end with its artifact, or the bound on a missing record |
| `BackupDispatch.Reconciler.OperationMissing` | internal/controller/cubridbackup_controller.go:434-455 | the wait counts from the first missing answer, and the backup ends only after 30 minutes of it |
| `BackupDispatch.Reconciler.HoldRecordedTarget` | internal/controller/cubridbackup_controller.go:472-486 | an operation the target holds is on record and followed; without one the backup ends exactly when the bound has passed |
| `BackupDispatch.Reconciler.EndRecordedTargetWait` | internal/controller/cubridbackup_controller.go:504-524 | an operation the target holds is followed, and otherwise the backup ends |
| `BackupDispatch.Reconciler.Adopt` | internal/controller/cubridbackup_controller.go:529-542 | the operation the target holds is recorded and followed like a started one |
| `BackupDispatch.Reconciler.ClusterMissing` | internal/controller/cubridbackup_controller.go:776-794 | the backup ends exactly when it was started on a cluster or its wait is over |
| `BackupDispatch.OneTargetOneKey` | internal/controller/cubridbackup_controller.go:243-394 | over every run with stale reads and refused or lost writes, all starts go to one member under one key, each within 30 minutes of the one recorded time |
| `BackupDispatch.KeysApart` | internal/controller/cubridbackup_controller.go:651-655 | over all runs, the starts of two backups carry the same key if and only if namespace, name and uid are the same |
| `BackupDispatch.NoSendFromRecorded` | internal/controller/cubridbackup_controller.go:183-185 | no reconcile that reads a version with an operation, or a later one, sends the start |
| `BackupDispatch.AnsweredIsRecorded` | internal/controller/cubridbackup_controller.go:243-394 | over every run, a reconcile whose start was answered stores that operation with its next write; every later version has it, and no reconcile that reads one of them sends the start |
| `BackupDispatch.CompletedWasSeen` | internal/controller/cubridbackup_controller.go:397-424 | Completed is stored only when the target answered that operation as Completed with that artifact |
| `BackupDispatch.TerminalIsLast` | internal/controller/cubridbackup_controller.go:140-150 | nothing is stored after a terminal phase |
| `BackupDispatch.StaleReadSendsAgain` | internal/controller/cubridbackup_controller.go:243-394 | a stale read does send the start again after the operation is recorded, to the same member under the same key |
| `Roles.SeedSourceAmong` | internal/controller/habootstrap.go:273-295 | a source exactly when every holder answers freshly with a role and it is the only master |
| `Seeding.Bootstrapper.Reconcile` | internal/controller/habootstrap.go:195-264 | one reconcile writes only what evolves from the stored status; every start that an operation answered is spent in what it writes, but for a completed restore of another seed; the bootstrap operation is polled once on record and started otherwise, and the status follows its answer; a final status is left alone |
| `Seeding.Bootstrapper.SeedPeers` | internal/controller/habootstrap.go:381-421 | the peers that complete enter in order; configured exactly when every peer holds the database, and otherwise the first that does not is one step further |
| `Seeding.Bootstrapper.ChooseCopy` | internal/controller/habootstrap.go:441-505 | the copy on record goes on; of a later peer in a new round when the observed master has changed before its restore is started; and it says whether its source was on record |
| `Seeding.Bootstrapper.SelectSource` | internal/controller/habootstrap.go:354-368 | the source is the only master among the holder and all seeded members, and there is none exactly when no member is that |
| `Seeding.Bootstrapper.SeedBackup` | internal/controller/habootstrap.go:629-697 | the seed backup is polled once on record and started otherwise; the operation that answers is on record, and a failure ends the attempt |
| `Seeding.Bootstrapper.AskRestore` | internal/controller/habootstrap.go:505-600 | the restore is polled once on record, and started only after its backup completed and with its source on record |
| `Seeding.Bootstrapper.SeedMember` | internal/controller/habootstrap.go:441-600 | the copy to the member comes exactly as far as the answers take it: a running restore is on record, a failed one ends the attempt, and the member is appended only by a completed restore of the seed of its copy |
| `Seeding.Bootstrapper.FinishRestore` | internal/controller/habootstrap.go:567-600 | the answer of a restore is on record: running under its operation, failed as the end of the attempt, completed as the member; another seed's completed restore changes nothing |
| `Seeding.Bootstrapper.StepFailed` | internal/controller/habootstrap.go:90-103 | the next attempt, or the end after the third |
| `Seeding.Bootstrapper.CopyMissing` | internal/controller/habootstrap.go:114-133 | a missing record uses no attempt and starts nothing again |
| `Seeding.NoStartOnceSpent` | internal/controller/habootstrap.go:195-264 | over every run, once a version is stored in which a key is spent, no reconcile that reads it or a later one sends a start under that key |
| `Seeding.AnsweredIsNotStartedAgain` | internal/controller/habootstrap.go:195-264 | over every run, when a start was answered with an operation and the write of that reconcile takes effect, no reconcile that reads it or a later version sends a start under that key |
| `Seeding.StoredIsSpent` | internal/controller/habootstrap.go:441-697 | a stored operation of the bootstrap, of a seed backup or of a seed restore spends its key |
| `Seeding.FinalStays` | internal/controller/habootstrap.go:90-151 | attempts never fall and stay below three, and a stopped or configured database never changes again |
| `Seeding.SeededByProof` | internal/controller/habootstrap.go:573-600 | each seeded member entered by a completed restore, sent from an earlier version, of exactly the seed backup of the copy that the version before had on record |
| `Seeding.RestoreSourceOnRecord` | internal/controller/habootstrap.go:441-505 | a restore of a later member was started only with its source and round on record, and that source observed as the only master among all holders then |
| `Seeding.SeededFromMaster` | internal/controller/habootstrap.go:441-600 | over every run, for each later member on record as seeded its restore was sent before, for the copy the record rests on, by a reconcile that had that copy on record and observed its source as the only master among all holders |
| `Seeding.StaleReadStartsAgain` | internal/controller/habootstrap.go:195-264 | a reconcile that reads a version from before the operation was stored can send its start again |
| `Keys.KeysInjective` | internal/controller/habootstrap.go:78-84 | the key strings of one cluster are injective in the step, the attempt, the peer, the source and the round |
| `Keys.RecoveryKeysInjective` | internal/controller/bootstrap.go:310-316 | the recovery key is injective in the attempt |
| `Keys.RestoredSeedIdentifies` | internal/controller/habootstrap.go:323-341 | a manifest URI that ends as restoredSeed asks names one seed backup: one peer, source and round |
| `Recovery.Recoverer.Reconcile` | internal/controller/bootstrap.go:73-184 | by what the reconcile finds: a start is sent exactly when a restore is due and none is on record; the operation that answers is on record, a refusal ends the attempt, a recorded one is polled and followed; a final status is left alone |
| `Recovery.Recoverer.AttemptFailed` | internal/controller/bootstrap.go:191-204 | the next attempt without an operation, or the end after the third |
| `Recovery.Recoverer.FollowRestore` | internal/controller/bootstrap.go:161-184 | the status follows the poll: complete or on to the peers, the next attempt, the phase, or the bound on a missing record |
| `Recovery.Recoverer.OperationMissing` | internal/controller/bootstrap.go:214-236 | a missing record changes neither the attempt nor the operation |
| `Recovery.StartedOncePerAttempt` | internal/controller/bootstrap.go:73-184 | over every run, once the operation of an attempt is stored no reconcile that reads that version or a later one starts it; attempts stay below three; an end is final |
| `Recovery.AnsweredIsNotStartedAgain` | internal/controller/bootstrap.go:73-184 | over every run, when the start of an attempt was answered and the write of that reconcile takes effect, no reconcile that reads it or a later version starts that attempt |
| `Recovery.StaleReadStartsAgain` | internal/controller/bootstrap.go:73-184 | a reconcile that reads a version from before the operation was stored can send the start of the attempt again |
| `Replication.StallSound` | internal/controller/replication.go:127-213 | over every run of positioned readings, however each pass saw the member, a stall time is the time of a pass since which every pair of readings compared had the same source and the same position |
| `Replication.MovingNeverMarked` | internal/controller/replication.go:179-194 | an applier whose position always moves is never marked, through missed readings, unanswered and unobserved passes, other roles and restarts of the operator |
| `Replication.StuckReported` | internal/controller/replication.go:127-194 | of a stuck applier, however each pass saw its member: it is on record as stalled for a minute if and only if a reading found its copy grown so long ago and no pass since saw the member unanswered or in another role |
| `Replication.UnansweredClears` | internal/controller/haresolve.go:432-438 | one unanswered pass ends the report of a stuck applier, and the next reading does not bring it back |
| `Replication.IdleReported` | internal/controller/replication.go:161-172 | of an applier whose readings have no position: it is on record as stalled for a minute if and only if, in a series of readings that each find its count where the one before did, one came so long ago and its process has not changed since |
| `HAReady.StuckIsReported` | internal/controller/replication.go:270-309 | in a pass that reads a slave whose applier is stuck, ReplicationHealthy is False under exactly that condition of the stall; otherwise the slave is healthy unless changes fail or its copy stands |
| `HAReady.DeafIsReported` | internal/controller/replication.go:270-309 | in a pass that reads a slave, ReplicationHealthy is False if two such readings came, the second a minute ago; otherwise the slave is healthy unless changes fail or it is stalled |
| `HAReady.UnansweredTurnsTrue` | internal/controller/replication.go:270-309 | a run in which ReplicationHealthy is False for a stuck applier and, one unanswered pass later, True |
| `Replication.NotReceivingSound` | internal/controller/replication.go:234-261 | over every run, however each pass saw the member, if NotReceivingSince is t, every reading since the pass at t had one source and one end of the copy |
| `Replication.NotReceivingExact` | internal/controller/replication.go:234-261 | over every run, NotReceivingSince is the time of the second reading that found the master's log on a later page, of a copy whose source and end stayed the same since the first, in a record neither dropped nor expired since |
| `Replication.NotReceivingReported` | internal/controller/replication.go:234-261 | over every run in time order it is a minute old if and only if two such readings came, the second so long ago |
| `Replication.GrowthClears` | internal/controller/replication.go:234-261 | growth, a change of source or a copy that caught up clears it at once |
| `Replication.HistoryExact` | internal/controller/replication.go:129-138 | over every run there is a record if and only if there was a reading and every pass since observed no roles, or saw the member as a slave while the time written with the reading was not too old; it is what the last reading left, and shows that reading's counts, failures and applier |
| `Replication.HistoryLives` | internal/controller/haresolve.go:432-438 | within 120 seconds of the last real reading that record is there if and only if no pass since saw the member unanswered or in another role; later it is gone if and only if such a pass came, or one that saw a slave more than 150 seconds after the time written |
| `ObservationTimes.InstanceStatuses` | internal/controller/haresolve.go:393-451 | for every member in order: a role and readiness only on authority, a replication only for an authoritative slave and from its own history, the engine version of any fresh answer, and the time and unfinished database of its own answer or, without one, of the last |
| `ObservationTimes.ReadingPositions` | internal/controller/applierpositions.go:140-157 | of every member the reading to keep: none in another role, a slave's new one unless the kept one is too close, and otherwise the kept one |
| `ObservationTimes.PassIsStep` | internal/controller/haresolve.go:393-451 | the status that a pass gives a member and the reading it keeps are exactly one step of the runs over one member |
| `ObservationTimes.ApplierPositions.Readings` | internal/controller/applierpositions.go:69-82 | the kept readings that are not too old and not from the future |
| `ObservationTimes.ApplierPositions.Commit` | internal/controller/applierpositions.go:87-110 | exactly these readings are kept of the cluster, and none of an earlier one of its name |
| `ObservationTimes.ApplierPositions.Forget` | internal/controller/applierpositions.go:114-125 | no cluster of the name is kept, every other one is kept as it was, and nothing is new |
| `ObservationTimes.HoldObservationTimes` | internal/controller/haresolve.go:476-511 | what is written differs from what was observed in times alone, each less than 30 seconds behind, and only when it is the stored status unchanged |
| `ObservationTimes.WrittenStampLags` | internal/controller/haresolve.go:503-511 | so a reading is written with a time less than 30 seconds before its pass |
| `Roles.ResolvePrimary` | internal/controller/haresolve.go:341-386 | the loop gives the verdict, most severe reason first |
| `Roles.ResolvedIff` | internal/controller/haresolve.go:341-386 | a primary is named exactly when every member answers with authority and exactly one is master; it is that one |
| `Roles.ReasonsIff` | internal/controller/haresolve.go:341-386 | each reason, and that several members act as master, exactly by what the members answered, most severe first; no other reason names a primary |
| `Roles.OrderIndependent` | internal/controller/haresolve.go:341-386 | the verdict does not depend on the order of the members |
| `HAReady.ReplicationCondition` | internal/controller/replication.go:270-309 | the loop gives the condition, failures before stalls before a deaf copy |
| `HAReady.ReplicatesIff` | internal/controller/replication.go:270-309 | True exactly when there is a slave and every slave was read now and is healthy; False exactly when one that was read now is not |
| `HAReady.HAReadyCondition` | internal/controller/haresolve.go:146-179 | the loop gives the condition, by the evidence of this pass and the status before |
| `HAReady.UnreadRecently` | internal/controller/haresolve.go:199-209 | true exactly when every slave not read now has a reading younger than a minute |
| `HAReady.ReadyIff` | internal/controller/haresolve.go:146-209 | HAReady is True exactly with full direct evidence, or held from the True before; False exactly without a primary, with a reading against it, or held from the False before |
| `HAReady.TrueRestsOnEvidence` | internal/controller/haresolve.go:146-209 | over every run, reconciles that end before roles are observed included, HAReady is True only since a pass with full direct evidence; every reconcile since observed the roles, nothing it read spoke against it, and each missing reading was younger than 60 seconds |
| `HAReady.EvidenceMakesTrue` | internal/controller/haresolve.go:146-209 | and every such run makes it True |
| `Artifacts.TotalSize` | internal/instancemanager/manifest.go:90-96 | the sum of the listed sizes |
| `Artifacts.ValidateObjectKeys` | internal/instancemanager/manifest.go:190-214 | true exactly when every key is a clean path below backup/ and no key appears twice |
| `Artifacts.Uploader.UploadBackup` | internal/instancemanager/upload.go:90-162 | whatever fails, the object under the manifest's name is untouched, or it lists exactly this upload's files with their sizes and checksums, all of which were put before it; success exactly when there are files and no call failed |
| `Artifacts.FreshIsComplete` | internal/instancemanager/upload.go:90-162 | over every run of uploads, any of them cut off, a fresh attempt's prefix holds a manifest only if every object it lists is there with its size and checksum |
| `Artifacts.StagingDir.StageObject` | internal/instancemanager/restore.go:466-499 | success exactly when the whole object fits its entry; then it is what is staged, and otherwise what was written is removed |
| `Artifacts.StagingDir.StageArtifact` | internal/instancemanager/restore.go:431-462 | success exactly when the manifest verifies, its keys are valid and every answer fits its entry; then every listed file matches, nothing else changes, and the directory is the artifact if and only if it held nothing else before |
| `Artifacts.StagedExactly` | internal/instancemanager/restore.go:431-499 | listed files that match are exactly those of the upload the manifest describes, and the directory is they alone if and only if it held nothing else before |
| `Artifacts.StagedIsOneUpload` | internal/instancemanager/restore.go:73-85 | for any prefix of any run of uploads the staged files are those of the one upload that wrote the manifest, which is a full backup of this database and engine series and, for a seed, was taken by the named master, as master, in this cluster |
| `Artifacts.LeftoverStays` | internal/instancemanager/restore.go:162-172 | a staging that succeeds in a directory that held another file, and leaves it beside the artifact |
| `ManifestUri.UploadIsAccepted` | internal/controller/cubridbackup_controller.go:732-750 | for every bucket, prefix and attempt, if the destination is admitted then the URI of the upload is one a recovery accepts |
| `ManifestUri.RoundTrip` | internal/controller/bootstrap.go:360-369 | the recovery then reads the bucket and the key that were uploaded to if and only if the bucket has no slash |
| `ManifestUri.SlashInBucketAdmitted` | internal/controller/cubridbackup_controller.go:732-745 | a bucket with a slash is admitted |
| `ManifestUri.KeyParts` | internal/instancemanager/upload.go:56-58 | the uploaded key is the cleaned parts of the parent, the attempt and the manifest's name |
| `Tokens.TokenKeeper.Reconcile` | internal/controller/cubridcluster_controller.go:558-659 | a new token is made exactly when there is none, or none is kept as the previous one and one is due or asked for; it keeps the current one as the previous, which goes exactly when every member holds the current; what is stored is that, as far as no write is refused |
| `Tokens.TokenKeeper.MembersHoldToken` | internal/controller/cubridcluster_controller.go:694-729 | true exactly when every member was started after the rotation and accepts the token |
| `Tokens.MembersAreReached` | internal/controller/imclient.go:357-381 | over every run every running member holds the current or the previous token, and so one that a call tries; without a previous one, the current |
| `Tokens.StartExact` | internal/controller/cubridcluster_controller.go:694-729 | from every reachable state a member that starts with a token, however old, is reached by the calls for good if and only if it is the current one, or the previous one while no reconcile that may drop it has asked that member |
| `Tokens.StaleStartStrands` | internal/controller/cubridcluster_controller.go:694-729 | a run after which a member that was asked restarts with the previous token and is reached no more |
| `Tokens.DroppedWhenAllHold` | internal/controller/cubridcluster_controller.go:558-659 | the previous token is dropped only when every running member holds the current one |
| `Tokens.AcceptedTokens.Order` | internal/controller/imclient.go:582-588 | the same tokens, the one accepted last time first |
| `Tokens.AcceptedTokens.Send` | internal/controller/imclient.go:582-617 | the request takes effect at most once; it goes unanswered only when an answer is lost, and is otherwise accepted exactly when the member holds one of the tokens |

## Left out

- Ownership.RemovesOnlyDisposable: holds for runs in which no start comes over an unsynced removal of the marker of an operation not on record as restored; Exposure.StartLosesDataIff proves that such a start, and no other, can cost the data it starts.
- Ownership.StartedDataStays: the same runs.
- Roots.RemovesOnlyDisposable: the same runs.
- Ownership.StepKept: its power losses undo markers and records; Roots.MoveKept is the same with directories undone too.
- Exposure.StartLosesDataIff: the run before the start holds no earlier exposed start, after which the data of that one may be lost already; its power losses are those of Ownership.
- Roots.StartedDataStays: that a directory somebody else makes is synced, and that a database is found registered only once the root was synced after its directory was made, is assumed.
- Ownership.AdoptStep: which engine series the adopted data is of is left open; a refusal for it is one more way to give up.
- Stops.NoStartAfterSuccess: holds for runs in which a command that nobody answers finds a state from which no start can be issued and in which none runs; Stops.UnansweredExact proves that from every other state a start can follow.
- Stops.ShutdownAlone: the same runs.
- OperationStores.OperationStore.List: the order of directory entries is left open, so which of several refusals is answered is too.
- OperationStores.OperationStore.FindOrCreate: that nobody deletes record files, and that generated identities are new, is assumed.
- Staging.UploadsOnlyOwn: that a backup writes into its own directory alone is assumed of the CUBRID server.
- BackupDispatch.Reconciler.Reconcile: which member is selected, and whether it runs with the storage settings, is any value; roles, conditions and messages are left out.
- Seeding.SeededFromMaster: that a member runs no restore of a seed backup that no reconcile sent is assumed of the member.
- Seeding.Bootstrapper.AskRestore: whether a retry reuses an earlier attempt's seed backup is any answer of its lookup.
- Recovery.Recoverer.Reconcile: the seeding of the peers that follows the restore is one outcome; its own runs are those of Seeding.
- Replication.HistoryLives: a clock that goes back is covered by Replication.HistoryExact and not by the bounds in seconds.
- Replication.StuckReported: a change of the member list, and passes of a cluster whose high availability is off, are no part of the runs; times are whole seconds.
- Artifacts.Uploader.UploadBackup: an object's key is a prefix and a name, so that two prefixes never share a key is assumed, and the checksum is any injective function; a staged file is taken to be the same when it is hashed and when it is put.
- Artifacts.StagedIsOneUpload: versions are taken without surrounding white space.
- Tokens.MembersAreReached: holds for runs in which members start in time, which Tokens.StartExact proves to be exactly the starts that do no harm; the Secret is not emptied from outside.
- Tokens.TokenKeeper.Reconcile: the report of a deferred rotation and the refusal of a foreign Secret are events only.
- Kubernetes objects (Pods, Services, policies, budgets, Broker configuration): assembled from library types, without an invariant of their own.
- HTTP, JSON, logging, metrics, Events and condition messages: each call is modelled by the class of its answer.
- CUBRID commands, process groups, file locks and the parsing of command output: any outcome is covered.
- The image's entrypoint and the S3 service: a marked database is not started by the one, and the other is a map.
- The rolling update, engine-version guards, log-volume sizing and transition reports: short tables that would add only easy members.
- The choice of a backup target and of the log end it waits for: the dispatch does not depend on it.
- The validation of seed prefixes before an upload: a table of refusals over one string.
