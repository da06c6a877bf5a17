# The provisioning engine and its companions, modelled and proved

A node keeps the deployments its owners ask for in a durable store. Requests become jobs in a durable
FIFO; one loop takes the head job, validates it, carries it out workload by workload in the order of
the workload types, and only then drops it. The process may die at any moment, so a job may be started
any number of times. Around the engine there are a reconciler that compares the store with the chain,
a setter that keeps the reported capacity current, a reporter of consumed traffic, an upgrader and a
storage migration. This project models these parts and proves what they promise.

How it is organised:

- `Workloads`, `Outcomes`: the data, and how answers of workload managers become results.
- `Sorting`, `Plans`: in which order workloads and upgrade operations are visited.
- `Jobs`: what each job does to the deployment it targets, *write by write*. Every write is one atomic
  storage operation, so the states between the writes are exactly what a crash can leave behind.
- `Storage`, `Engine`, `Events`: the store, the queue, the engine and the reconciler as classes that
  change state step by step. Each engine method is proved against the effects of `Jobs`: the records,
  the sequence of all durable states (`trail`) and the sequence of provisioner calls.
- `Recorded`: what each kind of job records and whom it calls, by the answers of the provisioner and
  without reference to the definitions in `Jobs`.
- `Replay`, `Runs`, `Legality`, `Visits`, `Boot`, `Pausing`, `Reconcile`: the theorems about jobs and
  about whole runs of a transition system with crashes, failed dequeues, and requests arriving at any
  moment.
- `Running`, `Cycles`: the loop and the requests of the engine class *are* a run of that system, and
  whole cycles of the daemon (a start after a reboot; sync, drain, sync) composed of the class methods.
- `Capacity`, `Reporter`, `Upgrade`, `Migration`: the companions, with `Sums` for sums over sets and
  64-bit wrap-around. `Folds` does a step for each element of a sequence.
- `Witnesses`: concrete inputs on which a promise fails.

What follows from reading the theorems together:

- Replaying a crashed job is harmless (`CrashReplay`), hence at-least-once starts have exactly-once
  effect (`ExactlyOnce`), hence the engine class, under any sequence of requests and rounds, serves
  each of them and ends with the ledger of all jobs they queued (`Running.Daemon`).
- Where the code does not keep a promise on all inputs, the exact condition is proved, and `Witnesses`
  (or the module itself) has an input that fails:
  - Reconciliation settles if and only if one correction is enough for every deployment: to a pause,
    some ok workload answers paused or all give up being ok; to a resume, none stays paused (`Fixpoint`).
  - A provision, reinstall, pause or resume leaves a dead record alone if and only if the job is not
    refused or the record already is that refusal (`DeadStaysDead`).
  - A refused job leaves the last capacity report right if and only if it was zero (`RefusalGoesStale`),
    a failed send if and only if it said the same (`FailedSendGoesStale`), a restart if and only if
    the deployment is listed or its last report was zero (`RestartMissesUnlisted`), and a restart that
    cannot report if and only if the last report was right before (`SilentRestartReportsNothing`).
  - A pause or resume keeps the definition of a stored workload if and only if it does not overwrite it
    with a snapshot that has another one (`LockKeepsDefinition`). It overwrites whatever the manager
    answers, so a pause queued behind an update puts the old definition back.
  - Report windows tile time if and only if no report whose time was not stored was followed by another
    (`WindowsTile`, `CrashCountsTwice`).
  - No report is dropped unpublished if and only if at most one pusher empties the queue
    (`NoReportLost`). The reporter is started again after an error while the pusher before may still
    wait for a report, so there can be two.
  - After a migration that reports success and the removal of the old store, a deployment is kept if
    and only if its twin could be listed (`MigrateAndRemove`).
- An uninstall removes the deployment even if a workload manager failed to deprovision: the function
  that uninstalls a workload reports storage errors only, so the branch that keeps the deployment is
  never taken because of a manager (`DeprovisionLeavesNothing`).

## Model

| member | source | states |
|---|---|---|
| `Replay.CrashReplay` | pkg/provision/engine.go:493-567 | Crash replay is harmless: for every job, deployment and number of finished writes, running the job again from what the crash left gives the state of one uninterrupted run |
| `Replay.RepeatedCrashReplay` | pkg/provision/engine.go:493-567 | The same after any number of attempts, each cut short anywhere |
| `Replay.CellReplay` | pkg/provision/engine.go:674-850 | The same for one workload and one of its install, uninstall, update, pause or resume steps |
| `Replay.StepsPoints` | pkg/provision/engine.go:852-987 | At every crash point each workload is at a crash point of its own step and the others are as they were; after the last write all steps are complete |
| `Replay.DeprovisionLeavesNothing` | pkg/provision/engine.go:852-876 | An uninstall that runs to the end removes the deployment whatever the provisioner answers |
| `Runs.DurableFifo` | pkg/provision/engine.go:482-568 | Over every run with crashes and failed dequeues: enqueued = finished ++ queued; starts are in queue order, repeat only the current job, and every finished job was started |
| `Runs.ExactlyOnce` | pkg/provision/engine.go:482-568 | Whenever the head job has not been started, the store is what applying each creation and each finished job exactly once, in order, without interruption gives |
| `Runs.HeadRecovers` | pkg/provision/engine.go:493-567 | At any moment of any run, completing the head from what is stored gives one more uninterrupted job |
| `Running.RoundIsSteps` | pkg/provision/engine.go:493-567 | One round of the loop is a sequence of begin, write and dequeue steps of the transition system |
| `Running.PerformIsPut` | pkg/provision/engine.go:534-557 | What a job does to the stored records is what it does to the store of the transition system |
| `Running.RunRound` | pkg/provision/engine.go:493-567 | One round of the engine class extends the run of the system and ends in its state |
| `Running.Run` | pkg/provision/engine.go:482-568 | The loop is a run of the system; it drops one job per round whose dequeue works, and once the queue is empty every job took effect exactly once |
| `Running.Serve` | pkg/provision/engine.go:349-479 | Every request, a start and a round of the engine class is served, that is, changes the stored records and the queue as stated ask by ask; and it continues the run by creations, enqueues and steps of the loop |
| `Running.Daemon` | pkg/provision/engine.go:349-568 | Under any sequence of requests, starts and rounds with failing dequeues, each is served in turn; the history is a run of the system whose enqueued jobs are exactly those queued for the asks, so the theorems about runs hold of the class; and with an empty queue every job took effect exactly once |
| `Legality.JobTransition` | pkg/provision/engine.go:674-850 | Between any two writes of a job every workload keeps its record or makes a transition its job allows; a deployment disappears only with the last write of an uninstall |
| `Legality.OneWrite` | pkg/provision/engine.go:674-850 | Each write changes one workload name, by one write of that name's own step |
| `Legality.DeadStaysDead` | pkg/provision/engine.go:715-768 | A provision, reinstall, pause or resume job keeps a record in error or deleted the very same, from first write to last, if and only if the job is not refused or the record already is that refusal |
| `Legality.DeletionsComplete` | pkg/provision/engine.go:674-713 | No job that runs to its end leaves a record in state deleted: the name is gone with it |
| `Legality.LegalRuns` | pkg/provision/engine.go:482-568 | Every step of every run moves a workload only along a transition that a step of the job at work, on that workload, allows; a refused job only puts workloads in error |
| `Legality.OnlyTheseTouchTheDead` | pkg/provision/engine.go:674-850 | Over every run a record in error or deleted changes only by a refused job or by an uninstall or in-place update of that very workload, so an added workload never touches a dead record |
| `Legality.NoDeletedRecordSurvives` | pkg/provision/engine.go:674-713 | Over every run, whenever the head has not been started, no stored record is in state deleted |
| `Plans.Coverage` | pkg/provision/engine.go:852-949 | Install, unlock, uninstall and lock visit each workload of a known type exactly once; with all types known the visits are a permutation of the workloads |
| `Plans.Mirror` | pkg/provision/engine.go:852-949 | The type sequence of uninstall and lock is the reverse of that of install and of unlock |
| `Plans.VisitOrder` | pkg/provision/engine.go:852-949 | Installs and unlocks visit in non-decreasing startup index, uninstalls and locks in non-increasing index |
| `Plans.LargestFirst` | pkg/provision/engine.go:878-907 | Sorting mounts permutes them and, when all sizes decode, into descending size |
| `Plans.OperationOrder` | pkg/provision/engine.go:952-967 | The sorted operations are a stable permutation: removals first, in non-increasing index, then the others in non-decreasing index |
| `Sorting.SortIsStable` | pkg/provision/engine.go:964-966 | Sorting by a key ascends and keeps the order within each key |
| `Sorting.StableSortsAgree` | pkg/provision/engine.go:964-966 | An ascending arrangement that keeps the order within each key is unique, so every stable sort gives the modelled result |
| `Sorting.InsertionSort` | pkg/provision/engine.go:893-907 | The in-place sort leaves the array as the sorting function orders it |
| `Visits.InstallCalls` | pkg/provision/engine.go:715-768 | An install calls Provision on exactly the planned workloads not stored as deleted or in error, in plan order, and calls nothing else; a refused one calls nothing |
| `Visits.InstallCallOrder` | pkg/provision/engine.go:909-923 | These calls are in non-decreasing startup index, for every deployment; and the mounts of a type all of whose sizes decode are in descending size |
| `Visits.UpdateCallOrder` | pkg/provision/engine.go:969-987 | An update calls every Deprovision before every Provision and Update, deprovisions in non-increasing and the others in non-decreasing index |
| `Recorded.RefusedRecordsTheError` | pkg/provision/engine.go:508-525 | A provision, reinstall or update that fails validation calls nobody and writes once: every stored workload gets the error as its result, and nothing else changes |
| `Recorded.OthersAreNotValidated` | pkg/provision/engine.go:508-512 | An uninstall, pause or resume does the same whatever validation would say |
| `Recorded.InstallRecords` | pkg/provision/engine.go:715-768 | After a provision or reinstall that passes validation, each workload of a known type has the result its manager answered, an error with the data of the partial result if it failed, and its old record (init if it had none) if no action was needed; a record in error or deleted is kept |
| `Recorded.InstallLeavesOthers` | pkg/provision/engine.go:909-923 | Every other name keeps its record |
| `Recorded.UpdateRecords` | pkg/provision/engine.go:969-987 | The same for each operation of an update: an addition as above, a removal takes the name away or records the error of the manager, a change records the answer of the updater or keeps the stored result |
| `Recorded.UpdateLeavesOthers` | pkg/provision/engine.go:969-987 | Names without an operation keep their records |
| `Recorded.AdditionIsRecorded` | pkg/provision/engine.go:715-740 | A workload that is not stored is recorded in state init before its manager has answered |
| `Recorded.RemovalIsRecorded` | pkg/provision/engine.go:674-713 | A removal that works is first recorded as deleted by an update |
| `Recorded.UninstallIsRecorded` | pkg/provision/engine.go:674-713 | An uninstall records each stored workload of a known type as deleted with the reason given, or in error with the text of its manager, before the deployment disappears |
| `Recorded.UpdateCallsOps` | pkg/provision/engine.go:969-987 | An update makes exactly these calls: Provision for each addition not stored as deleted or in error, Deprovision for each removal of a stored name, Update for each change of a type that can be updated |
| `Recorded.JobCallsWorkloads` | pkg/provision/engine.go:852-949 | Every other job makes exactly the calls of the workloads of known types in its snapshot: Provision unless stored as deleted or in error, Deprovision if stored, Pause or Resume if stored as ok or paused |
| `Recorded.WorkloadCallOrder` | pkg/provision/engine.go:852-949 | Each call of an uninstall, pause or resume is made once; uninstalls and pauses call in non-increasing startup index, resumes in non-decreasing index |
| `Recorded.MissingDeployment` | pkg/provision/engine.go:674-850 | On a deployment that is not stored no job calls anybody, except that an update calls Update for its changes |
| `Boot.DrainSlots` | pkg/provision/engine.go:482-568 | Draining jobs for different deployments takes each deployment where its own job takes it and no other anywhere |
| `Boot.ReinstallsOnce` | pkg/provision/engine.go:630-672 | Draining the queue of a boot provisions each live workload of an active deployment exactly once and calls nothing else |
| `Cycles.Drain` | pkg/provision/engine.go:482-568 | The loop without faults ends in the drained store with the calls of the drained jobs |
| `Cycles.Reboot` | pkg/provision/engine.go:482-491 | The engine class, started after a reboot, makes exactly those calls |
| `Cycles.SyncTwice` | cmds/modules/provisiond/events.go:42-117 | Sync, drain and sync of the classes: the second sync enqueues nothing if and only if one correction is enough for every deployment |
| `Cycles.ServeSync` | cmds/modules/provisiond/events.go:42-117 | A sync of the classes continues the run of the system by its corrective jobs |
| `Pausing.PausePauses` | pkg/provision/engine.go:925-937 | A pause from a fresh snapshot gives each ok workload the state its manager answers, keeps its data, and leaves every other record as it is |
| `Pausing.ResumeResumes` | pkg/provision/engine.go:939-949 | The same for resuming paused workloads |
| `Pausing.LocksEach` | pkg/provision/engine.go:805-850 | What a pause or resume made from one state and run on another does to each name |
| `Pausing.PauseResumeRoundTrip` | pkg/provision/provisiner.go:148-198 | Pausing and then resuming from a snapshot read after the pause restores every workload's definition, state and data, and leaves those that were not ok untouched |
| `Pausing.EarlyResumeIsRefused` | pkg/provision/provisiner.go:175-178 | A resume whose snapshot shows no paused workload changes nothing |
| `Pausing.LockKeepsDefinition` | pkg/provision/engine.go:805-850 | For every pause or resume and every stored workload: it keeps its definition if and only if, whenever the job overwrites it (in the snapshot, of a known type, ok there for a pause or paused for a resume, stored as ok or paused), the snapshot has the same definition |
| `Reconcile.SyncIsIdle` | cmds/modules/provisiond/events.go:42-117 | A sync enqueues nothing if and only if every deployment agrees with the chain |
| `Reconcile.CorrectionSettles` | cmds/modules/provisiond/events.go:70-113 | A deployment agrees with the chain after its correction if and only if its managers' answers converge |
| `Reconcile.Fixpoint` | cmds/modules/provisiond/events.go:42-117 | After sync and drain, a second sync enqueues nothing if and only if one correction is enough for every deployment |
| `Reconcile.SyncConverges` | cmds/modules/provisiond/events.go:42-117 | With managers that answer pauses with paused and resumes with ok, the second sync enqueues nothing |
| `Events.IsLockedLists` | cmds/modules/provisiond/events.go:119-127 | The scan of a listing finds a paused workload exactly if the stored deployment has one |
| `Events.ContractEventHandler.Current` | cmds/modules/provisiond/events.go:26-40 | The stored deployments with an ok or paused workload, by contract |
| `Events.ContractEventHandler.Partition` | cmds/modules/provisiond/events.go:56-65 | The deployments the chain lists move to `running`, the others stay in `active` |
| `Events.ContractEventHandler.DeprovisionAll` | cmds/modules/provisiond/events.go:70-79 | One uninstall for each deployment the chain does not list |
| `Events.ContractEventHandler.Adjust` | cmds/modules/provisiond/events.go:85-113 | One pause or resume if the chain's lock flag and the deployment disagree, nothing if they agree or the chain cannot be asked |
| `Events.ContractEventHandler.Sync` | cmds/modules/provisiond/events.go:42-117 | Appends to the queue exactly one serving job per deployment in need, made from the deployment as stored, and no other job |
| `Engine.NativeEngine.ApplyStartupOrder` | pkg/provision/engine.go:168-189 | Succeeds exactly if the requested types are registered and distinct; then the order is a permutation of the registered types with the requested ones first, and the index is the position from one |
| `Engine.NativeEngine.InstallWorkload` | pkg/provision/engine.go:715-768 | Performs exactly the writes and calls of an install step, and fails exactly when that step fails; `Recorded.InstallRecords` and `Recorded.AdditionIsRecorded` say what these are |
| `Engine.NativeEngine.UninstallWorkload` | pkg/provision/engine.go:674-713 | The same for an uninstall step, telling a missing workload from a missing deployment; `Recorded.UninstallIsRecorded`, `Recorded.RemovalIsRecorded` and `Recorded.UpdateRecords` say what it records |
| `Engine.NativeEngine.UpdateWorkload` | pkg/provision/engine.go:770-803 | The same for an update step; `Recorded.UpdateRecords` says what it records |
| `Engine.NativeEngine.LockWorkload` | pkg/provision/engine.go:805-850 | The same for a pause or resume step |
| `Engine.NativeEngine.SortMountWorkloads` | pkg/provision/engine.go:893-907 | Sorts mounts in place, largest first |
| `Engine.NativeEngine.InstallDeployment` | pkg/provision/engine.go:909-923 | Performs the install steps of the plan one after the other |
| `Engine.NativeEngine.UninstallDeployment` | pkg/provision/engine.go:852-876 | Performs the uninstall steps of the reverse plan and, unless one fails, deletes the deployment |
| `Engine.NativeEngine.LockDeployment` | pkg/provision/engine.go:925-937 | Performs the pause steps of the reverse plan |
| `Engine.NativeEngine.UnlockDeployment` | pkg/provision/engine.go:939-949 | Performs the resume steps of the plan |
| `Engine.NativeEngine.SortOperations` | pkg/provision/engine.go:952-967 | Sorts operations in place by their key |
| `Engine.NativeEngine.UpdateDeployment` | pkg/provision/engine.go:969-987 | Performs the steps of the sorted operations |
| `Engine.NativeEngine.Provision` | pkg/provision/engine.go:350-365 | Refuses a nonzero version and an existing deployment without any change; otherwise stores the deployment with every workload in init and queues one job |
| `Storage.InitialStores` | pkg/provision/engine.go:350-365 | Each workload of a new deployment is stored as it was sent, with an empty result in state init |
| `Engine.NativeEngine.Pause` | pkg/provision/engine.go:368-385 | Queues one pause with a snapshot of the stored deployment, or reports that there is none |
| `Engine.NativeEngine.Resume` | pkg/provision/engine.go:388-405 | The same for a resume |
| `Engine.NativeEngine.Deprovision` | pkg/provision/engine.go:408-427 | The same for an uninstall with its reason |
| `Engine.NativeEngine.Update` | pkg/provision/engine.go:430-479 | For some copy of the stored deployment: the update is refused exactly if it has no upgrade, or one with an in-place update of a type that cannot be updated, and a refusal changes nothing; otherwise the new header is stored and one update from that copy is queued |
| `Engine.UnsupportedIsUnreachable` | pkg/provision/engine.go:770-774 | No update accepted by the call above reaches the branch for types that cannot be updated |
| `Engine.ActAllPerforms` | pkg/provision/engine.go:852-987 | Performing steps one after the other is performing the effect of all of them |
| `Engine.NativeEngine.RunOnce` | pkg/provision/engine.go:493-567 | One round performs exactly the head job's writes and calls, drops the head unless the disk fails, and notifies the callback unless the job is a provision, reinstall or update that fails validation; `Recorded.RefusedRecordsTheError` says what those do |
| `Engine.NativeEngine.RunBoot` | pkg/provision/engine.go:630-672 | Queues one reinstall for each active stored deployment and nothing for the others |
| `Storage.DeploymentStorage.Capacity` | cmds/modules/provisiond/events.go:27-39 | Exactly the deployments that have an ok or paused workload, each once |
| `Outcomes.Classification` | pkg/provision/provisiner.go:230-247 | For every error chain the state is that of the outermost response, error exactly if there is none, ok for nil; always one of ok, error, unchanged, paused |
| `Outcomes.FirstIsOutermost` | pkg/provision/provisiner.go:24-66 | Searching the chain answers with the response no other response is outside of |
| `Outcomes.LayerStates` | pkg/provision/provisiner.go:24-66 | The state of each kind of error by itself; wrapping does not change it |
| `Outcomes.TextHasAllLayers` | pkg/provision/provisiner.go:24-40 | The text of an error ends in the text of each of its layers, responses included |
| `Outcomes.NoActionIsALayer` | pkg/provision/provisiner.go:130-133 | The no-action sentinel is found exactly if it is one of the layers |
| `Outcomes.SetState` | pkg/provision/provisiner.go:230-247 | Sets state and the text of the whole chain, keeps the data |
| `Outcomes.BuildResult` | pkg/provision/provisiner.go:249-261 | Keeps the data the manager returned, with the classified state; fails with that state when the data cannot be encoded |
| `Outcomes.ProvisionerAnswers` | pkg/provision/provisiner.go:123-228 | Provisioning, updating and deprovisioning ask the manager of the type, or its updater; the data of an answer is kept, its state is that of the first response layer (error if there is none, ok without an error), a no-action layer means no action, data that cannot be encoded is a failure; unknown types and updates without an updater fail |
| `Outcomes.PauseOutcome` | pkg/provision/provisiner.go:148-172 | Pausing succeeds exactly for an ok snapshot of a known type, keeps the data, answers paused without a `Pauser` and otherwise the state and text of what the `Pauser` says; a refusal hands the result back |
| `Outcomes.ResumeOutcome` | pkg/provision/provisiner.go:175-198 | The same for resuming; and it undoes what a pause without a `Pauser` made: state and data come back |
| `Outcomes.MapProvisionerIsWellBehaved` | pkg/provision/provisiner.go:123-228 | Whatever the managers answer, every result the provisioner builds is ok, error, unchanged or paused |
| `Capacity.SumPermutes` | cmds/modules/provisiond/cap.go:47-76 | The sum does not depend on the order of the listing |
| `Capacity.UsesIsUnique` | cmds/modules/provisiond/cap.go:47-76 | A stored deployment has one amount |
| `Capacity.Consumption` | cmds/modules/provisiond/cap.go:47-76 | Per deployment, the 64-bit total over its ok and paused workloads whose capacity computes |
| `Capacity.TotalByWorkload` | cmds/modules/provisiond/cap.go:47-76 | Workload by workload, each of the four counters is added modulo 2^64, and only for a workload that is ok or paused and whose capacity computes |
| `Capacity.Send` | cmds/modules/provisiond/cap.go:78-94 | Calls until the first success and at most five times; fails exactly if the first five answers do |
| `Capacity.NeverSilentlyStale` | cmds/modules/provisiond/cap.go:27-126 | From any store with current reports, in every interleaving of engine, queue and setter with restarts anywhere, every stored contract that is not excused is pending, in hand, worked on (again, if a restart cut its job short), or last reported with its current use; at most 215 ids are pending; in quiet states the reports are current |
| `Capacity.FailedSendGoesStale` | cmds/modules/provisiond/cap.go:90-94 | After a report that cannot be sent, the last one is right if and only if it said the same |
| `Capacity.RestartMissesUnlisted` | cmds/modules/provisiond/main.go:224-292 | After a restart that reports, the last report of a deployment is right if and only if it has an ok or paused workload or its last report was zero |
| `Capacity.SilentRestartReportsNothing` | cmds/modules/provisiond/main.go:287-292 | After a restart whose report cannot be sent, the last report of a deployment is right if and only if it already was its use |
| `Capacity.RefusalGoesStale` | pkg/provision/engine.go:508-525 | After a job that fails validation, any last report is right if and only if it is zero |
| `Reporter.Aggregate` | cmds/modules/provisiond/reporter.go:285-328 | Each contract at most once, with its own sum, none zero, none missing; the total equals the sum of the truncated counters over the keys that parse, unless it overflows 64 bits |
| `Reporter.Collect` | cmds/modules/provisiond/reporter.go:293-317 | The entries after any order of iteration over the counters |
| `Reporter.ReportCounts` | cmds/modules/provisiond/reporter.go:293-328 | Each entry is the sum, modulo 2^64, of the truncated counters of the keys that parse to its contract; the total is that over all keys that parse; the key of the last report time never counts |
| `Reporter.NoSecondSkipped` | cmds/modules/provisiond/reporter.go:225-283 | Over every run with failures, restarts and crashes, windows last an hour or more, their lengths are exact, and every second since the first recorded time lies in some window |
| `Reporter.WaitIsExact` | cmds/modules/provisiond/reporter.go:236-266 | The wait ends at once if an hour has passed since the last report, and otherwise within the second in which it has |
| `Reporter.WindowIsWhole` | cmds/modules/provisiond/reporter.go:267-328 | A report is stamped with the second it is made in, and its window is the seconds from the start to that stamp |
| `Reporter.WindowsTile` | cmds/modules/provisiond/reporter.go:225-335 | Over every run, windows tile if and only if no report whose time was not stored (a crash, or a failing store after the hand-over) was followed by another; the same gap by gap, and for where the next report starts |
| `Reporter.CrashCountsTwice` | cmds/modules/provisiond/reporter.go:267-279 | A concrete run in which such a crash makes two windows equal |
| `Reporter.NoReportLost` | cmds/modules/provisiond/reporter.go:99-145 | Over all runs of pushes, failed publishes, failed dequeues and crashes, every removed report was published if and only if at most one pusher works on the queue |
| `Reporter.OnePusherInOrder` | cmds/modules/provisiond/reporter.go:99-145 | With one pusher, publications are in enqueue order, each repeats the current report or moves to the next, and nothing behind the head is published |
| `Reporter.QueueConserves` | cmds/modules/provisiond/reporter.go:99-145 | With any number of pushers, enqueued = removed ++ queued, and the same for their NRU |
| `Reporter.TwoPushersDrop` | cmds/modules/provisiond/reporter.go:104-120 | A concrete run in which two pushers publish one report and remove two |
| `Reporter.ConsumptionReporter.Push` | cmds/modules/provisiond/reporter.go:330-335 | Appends a report unless it is empty |
| `Reporter.ConsumptionReporter.PushOne` | cmds/modules/provisiond/reporter.go:99-121 | Publishes the head and removes it exactly if publishing and dequeueing work |
| `Reporter.ConsumptionReporter.Report` | cmds/modules/provisiond/reporter.go:285-335 | Queues exactly the report about the counters, or nothing if it is empty, with the timestamp of now and the window since the last report; the NRU in the queue grows by the sum of the counters |
| `Reporter.ConsumptionReporter.Round` | cmds/modules/provisiond/reporter.go:225-283 | One round extends the run of windows by the next window and the queue by its report; when handing over fails nothing moves, and when only storing the time fails the start does not advance |
| `Upgrade.Upgrader.UpdateTo` | pkg/upgrade/upgrade.go:324-393 | Succeeds exactly if every package absent from the current tag, zos only unless exempt, can be installed; then exactly these were, one by one: in listing order those that are not zos and after them, unless exempt, in listing order those that are; otherwise exactly those before the first that does not install; the tag stays |
| `Upgrade.PlanFollowsListing` | pkg/upgrade/upgrade.go:355-392 | The planned installs are the destinations at the increasing listing positions of exactly the new packages that are not zos, followed, exactly unless zos is exempt, by those of exactly the new zos packages |
| `Upgrade.PlanInstalls` | pkg/upgrade/upgrade.go:355-392 | All planned installs work if and only if every new package resolves (which is not asked of zos) and installs, zos only unless exempt |
| `Upgrade.NoZosBeforeOthers` | pkg/upgrade/upgrade.go:355-392 | An attempt in which a package that is not zos fails installs no zos |
| `Upgrade.Upgrader.InstallOthers` | pkg/upgrade/upgrade.go:355-378 | The first loop: everything that is not zos, with zos packages kept for later |
| `Upgrade.Upgrader.InstallLater` | pkg/upgrade/upgrade.go:384-392 | The second loop: the zos packages |
| `Upgrade.Upgrader.Update` | pkg/upgrade/upgrade.go:262-320 | The tag is recorded and a restart asked for exactly if the tag is new, rolled out, fully installed and recordable; what was installed is everything or what comes before the first failure; every durable state before the record has the old tag |
| `Upgrade.Attempts` | pkg/upgrade/upgrade.go:262-320 | Over any number of attempts the tag changes with the first complete one; in every durable state with the new tag, one single attempt has already installed everything it needs, and the record is the last durable state |
| `Migration.Migrator.MigrateOne` | cmds/modules/provisiond/migration.go:34-50 | Reads, writes to the new store and only then deletes: the durable states are pinned, one after the write and one after the deletion |
| `Migration.Migrator.MigrateTwin` | cmds/modules/provisiond/migration.go:24-52 | All deployments of a twin that can be read and written are in the new store; other twins are untouched |
| `Migration.Migrator.Migrate` | cmds/modules/provisiond/migration.go:17-61 | From the start to the end the stores change by copies and by deletions of what was copied, one at a time, and at every moment each deployment is in one of them; nil is returned exactly if no deployment of a listable twin failed, and then all of these are in the new store |
| `Migration.Migrator.MigrateAndRemove` | cmds/modules/provisiond/main.go:198-214 | After a nil return and the removal of the old store, a deployment survives if and only if its twin could be listed or the new store had it before |
| `Witnesses.SyncNeverSettles` | cmds/modules/provisiond/events.go:100-111 | A manager that answers a pause with nil: the second sync enqueues again |
| `Witnesses.RefusedStaysReported` | pkg/provision/engine.go:511-525 | A refused job on a deployment with a nonzero report, which is wrong afterwards |
| `Witnesses.RefusedInstallRewritesDeleted` | pkg/provision/engine.go:511-525 | A refused reinstall turns a deleted record into an error |
| `Witnesses.PauseUndoesUpdate` | pkg/provision/engine.go:805-850 | A pause queued behind an update puts the old definition back |
| `Witnesses.RestartMissesRefused` | cmds/modules/provisiond/main.go:224-292 | A run from current reports: a refused reinstall, and a restart that reports, after which the last report is wrong |
| `Witnesses.SilentRestartForgets` | cmds/modules/provisiond/main.go:287-292 | A run from current reports: a reinstall that fails, and a restart that cannot report while its id is pending |
| `Witnesses.FailedSendForgets` | cmds/modules/provisiond/cap.go:90-94 | A run from current reports: a reinstall that fails, and a report of it that cannot be sent |
| `Witnesses.UnlistedIsGone` | cmds/modules/provisiond/migration.go:23-28 | A migration that succeeds while a twin cannot be listed, after which its deployment is gone |

## Left out

- Timestamps of results and the transaction log of each workload: the store keeps the current record, and `trail` records every durable state in order.
- I/O faults of the store: its operations are atomic and fail only for a missing deployment or workload. The store itself, the disk queue, the metrics store, the hub client and the workload types are not part of this model; they appear with the contracts their callers rely on (`ByType` filters in order, `Upgrade` yields at most one operation per name, ok and paused count as okay).
- Validation (hashes, signatures, the contract lookup) is an oracle: for each job, nothing or an error, the same answer whenever the job is started again.
- Answers of workload managers are functions of operation and workload, as crash replay needs.
- Contract ids are not reused: no deployment is created while the head job, once started, is about its id.
- Deleting the queue on a start after a reboot, and errors of peeking: the model starts with the queue as it is.
- `DecommissionCached` bypasses the queue and the callback and may run beside the loop.
- Texts of the errors that the provisioner itself builds leave out the workload id.
- Panics in the callback, retry delays, backoff, logging and contexts.
- Engine.NativeEngine.SortMountWorkloads: orders mounts as insertion sort does, as Go does for short slices; among mounts of equal size, or when some size does not decode, a longer slice may come out in another order.
- Capacity.Consumption: has no counter for public IP addresses.
- Capacity.NeverSilentlyStale: excuses, until they are loaded again, contracts whose job failed validation, whose report could not be sent, or whose pending report a restart forgot, because the promise is false for them.
- Reporter.Aggregate: takes counters that are not negative, and truncates them to unbounded integers before adding modulo 2^64; converting a float beyond 64 bits is not modelled.
- Reporter.ConsumptionReporter.Round: a failing read or first store of the report time, which ends the loop and changes nothing.
- Upgrade.Upgrader.Update: reads of the current and remote tags succeed, and the rollout decision (running mode, registrar version, test farms) is one flag; how one package is installed on disk is not modelled.
- Migration.Migrator.ByTwin: keeps ids sorted while it lists them, instead of listing and then sorting.
- Some methods (`InstallAll`, `UninstallAll`, `LockAll`, `WorkloadsToInstall`, `Partition`, `DeprovisionOne`, `DeprovisionAll`, `Adjust`, `AdjustAll`, `Collect`, `Nonzero`, `InstallOthers`, `InstallLater`, `MigrateOne`, `MigrateTwin`, `BootTwin`, `BootOne`, `RunRound`, `RunNext`, `ServeNext`, the `Serve` methods of single requests) are inner loops or loop bodies of one function of the source.
- The API for listing deployments, workload changes and IP addresses; the event stream that triggers reconciliation; metrics collection: they only read.
