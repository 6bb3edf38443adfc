# Verified models of DLA Launcher

Dafny models of the parts of DLA Launcher whose guarantees span several calls, threads or sessions, with proofs of
those guarantees. `dafny verify dfyconfig.toml` checks everything; nothing here runs the launcher.

- **Launch supervisor** (`LaunchSupervisor`, `LaunchSafety`, `LaunchTheorems`). A launch call, its monitor thread, stop
  requests, the active map and the store as a machine of atomic steps; any interleaving of any number of calls is a run.
  Saves, the executor and processes may fail at every step. `LaunchProgress` shows what goes through, `LaunchOutcomes`
  what answers and records say of a run. `LaunchSteps` and `LaunchService` write the same code as methods on mutable
  fields and show that they take exactly these steps.
- **Delivery jobs** (`DeliveryJobs` to `DeliveryService`, `NewestRelease`). The store of download jobs, driven by queue,
  resume, pause, cancel, remove, restart and a run split at each of its saves. `DeliveryService` is the service as it is
  written, with its loops, against that machine; `DeliveryOutcomes` says how each run is stored, `DeliveryFiles` follows
  the downloaded files through its runs, and `DeliveryControl` and `DeliveryRequests` the requests that pause or cancel
  while the worker runs jobs.
- **Workers** (`DeliveryWorker`, `ScanInstalls`, `ScanInstallWorker`). An atomic flag, a queue and a second look at the
  queue after the flag is released, with threads that stop between any two accesses.
- **Views** (`RevisionedViews`). Views that read a revision before the fields, and an interface that keeps the newest.
- **Key bindings** (`KeyCombos`, `KeyBindings` to `KeyBindingOutcomes`, `ShippedBindings`). Resolution by priority over an
  overlap relation that is not transitive, edits that rewrite other actions, and storage that drops defaults, for any
  table of actions with the stated properties; the shipped table is shown to have them. `KeyBindingDisputes` and
  `KeyBindingReloads` take any stored value, also one in which two actions want the same combination.
- **Grouped scanning** (`GroupedScan`), **installation scope and identity** (`InstallationScope`,
  `InstallationParts`, `InstallationIdentity`), **ranged media** (`MediaRange`).

Assumptions about what is not modelled: an activity, job or process handle identifier is new when it is given out
(`tauri2/src-tauri/src/commands.rs:603-607` draws a UUID for each launch); beginning an activity is refused exactly if
the installation has an active one (`tauri2/crates/dla-sqlite/src/launch.rs:16-43`); the catalog answers with a work
whose code equals the asked one up to ASCII case; an overrides value is written to storage and parsed unchanged; a query
of the interface replaces what is shown by its result; nothing but the delivery of jobs changes the files in a staging
folder, and the installer removes files but does not replace them.

What the code does differently from its comments, or from what one might expect:

- `is_finished` (`tauri2/crates/dla-domain/src/delivery.rs:38-45`) counts a failed job as finished, although it can be
  resumed. So the promise that a work with an unfinished job gets that job back does not give one unfinished job for
  each work: resuming a failed job beside its successor breaks it. And deleting the folder of either of the two, be it
  on a cancellation or at the end of a run, takes archives the other counts on and never fetches again, and so does
  downloading other contents under a name both have. A work in review is finished as well, and loses the archives its
  review needs when it is queued again and that job is cancelled or done. `DeliveryCounterexample` gives the runs,
  `DeliveryConflicts` and `DeliveryFiles` the exact conditions.
- An archive counted as complete is never looked for again (`DeliveryTheorems.CompleteIsNeverFetchedAgain`), but a job
  can lose it in more ways. The installer deletes the archives as soon as the installation is committed
  (`tauri2/src-tauri/src/delivery.rs:687-691`, `tauri2/crates/dla-application/src/package_preparation.rs:320-336`),
  and may fail after that; the job is then failed, resumed, and the installer called with nothing there. The same
  comes of a launcher that stops anywhere between that deletion, or that of the folder, and the save that the job is
  done; of a cancellation whose deletion stops midway; and of a release that lists one name twice. Each has its run in
  `DeliveryCounterexample`; `DeliveryFiles.StepKeepsFilesIff` says that with the first item these are all.
- A pause or cancellation that looks for the running job just before the worker takes it, and acts just after the job is
  saved as downloading, does nothing (`DeliveryControl.RequestCanBeLost`); nor does one that finds the running job and
  acts when its run is over (`DeliveryControl.FoundRequestCanBeLost`).
- Some problems are meant to stop the queue, so that the remaining jobs are not failed one after another
  (`tauri2/src-tauri/src/delivery.rs:239-248`). Unless the session ends, they do not: the worker leaves its loop,
  releases its flag, finds the next job queued and starts over (`DeliveryWorker.StoppedQueueGoesOn`).
- A cancelled scan can leave sources marked as being scanned: those of a folder whose marking follows the cancellation
  (`GroupedScan.ScanSources`).
- The view hooks read the cached view before they await a query's reply, so the comment that replies and events can
  cross holds for command replies and events, not for a query (`RevisionedViews.QueryCanGoBack`).
- A matched selection whose code is blank passes validation, and its scope is found when the whole root is one work; only
  the check of the detection (`tauri2/crates/dla-domain/src/installation.rs:290-301`) refuses it.
- An assignment to a slot beyond a full list takes the combination from its rivals and binds it to nobody. And where two
  stored overrides dispute a combination, taking it from one can give it to the other instead
  (`KeyBindingDisputes.DisputeForestalls`), and a reload can move it, as a list that has come to equal the defaults
  loses its priority (`KeyBindingReloads.ReloadCanSwap`).
- A batch without sources never leaves scanning.
- Range positions may carry a plus sign, and a last position or a suffix length of 2^64 or more is refused, although it
  reaches beyond any file and section 14.1.2 of RFC 9110 lets it stand for the rest of the file.

## Model

| member | source | states |
|---|---|---|
| `LaunchSafety.StepKeepsInv` | tauri2/crates/dla-application/src/launch.rs:203-632 | one inductive invariant over records, calls, channels, active map and processes is kept by every step of every launch call, monitor, stop request and restart, whichever acts |
| `LaunchTheorems.StatusOnlyMovesForward` | tauri2/crates/dla-application/src/launch.rs:203-278 | in any run the stored status of an activity only moves forward (Starting, Running, Stopping, terminal), its installation never changes, and a terminal record is never overwritten |
| `LaunchTheorems.AtMostOneActivityIsActive` | tauri2/crates/dla-application/src/launch.rs:236 | in every reachable store an installation has at most one active activity |
| `LaunchTheorems.LiveProcessHasOneOwner` | tauri2/crates/dla-application/src/launch.rs:334-402 | in every reachable world a live process sits in exactly one place (launch, hand-over channel, monitor) of exactly one call |
| `LaunchTheorems.NoOrphans` | tauri2/crates/dla-application/src/launch.rs:404-425 | once the launch that started a process has returned and its monitor has ended, or the launcher has restarted, the process has been reaped, unless terminate or wait failed on this very process or the launcher restarted; other processes do not matter |
| `LaunchTheorems.StopIsAnsweredOnce` | tauri2/crates/dla-application/src/launch.rs:280-318 | a stop request that was answered, refused or disconnected keeps that one answer in every later state |
| `LaunchTheorems.EndedMonitorLeavesNoRequest` | tauri2/crates/dla-application/src/launch.rs:535-595 | a request still waiting belongs to a call whose monitor has not ended, so an ended monitor leaves nobody waiting |
| `LaunchTheorems.OkStopEndsStopped` | tauri2/crates/dla-application/src/launch.rs:536-575 | over whole runs a stop answered with Ok is recorded as Stopped when the activity ends; it is Failed only if looking at that process failed and Interrupted only if the launcher restarted first |
| `LaunchTheorems.ActiveActivityIsRegisteredIff` | tauri2/crates/dla-application/src/launch.rs:239-277 | whatever its launch returned, an activity recorded as active is in the active map with its own process number exactly unless its last terminal save failed (three times in the monitor, or the single one in the launch); then its process is not alive and, the lock being sound, it is out of the map once removed |
| `LaunchTheorems.RegisteredActivityIsSupervised` | tauri2/crates/dla-application/src/launch.rs:620-632 | an entry of the active map has a hand-over under way or a monitor that still listens, unless the lock was poisoned |
| `LaunchTheorems.GivesUpAfterThreeFailures` | tauri2/crates/dla-application/src/launch.rs:598-613 | a monitor gives up on recording an end only after three failed saves of that end in the run |
| `LaunchProgress.LaunchGoesThrough` | tauri2/crates/dla-application/src/launch.rs:203-278 | an installation without an active activity can always be launched while the lock is sound: a run of steps begins it, starts and records the process, registers it and hands it to a monitor that polls, and the call returns Ok |
| `LaunchProgress.StopGoesThrough` | tauri2/crates/dla-application/src/launch.rs:280-318 | a stop of a registered activity whose monitor polls goes through: beginning with its look-up and its sending a run of steps answers it Ok, and the record is Stopped and the process reaped |
| `LaunchProgress.FailedStopIsAnswered` | tauri2/crates/dla-application/src/launch.rs:541-555 | a process that cannot be terminated leaves its request answered with an error, and is watched on |
| `LaunchOutcomes.ExitGoesThrough` | tauri2/crates/dla-application/src/launch.rs:556-595 | a process seen to exit is recorded as Exited, Failed or, if a stop was asked for, Stopped, with its process number, and reaped; its monitor ends and its activity leaves the active map if the lock is sound |
| `LaunchProgress.StopIsRefusedIff` | tauri2/crates/dla-application/src/launch.rs:280-300 | over whole runs a stop is refused exactly if the lock was poisoned or the activity not registered when it was looked up, or its monitor had ended when it was sent |
| `LaunchProgress.StopsAreAnsweredInOrder` | tauri2/crates/dla-application/src/launch.rs:541-550 | of two stops of one activity the one sent first is settled by the time the other is answered |
| `LaunchProgress.LockIsPoisonedIff` | tauri2/crates/dla-application/src/launch.rs:281-284 | the lock is poisoned exactly if some thread poisoned it and the launcher has not restarted since |
| `LaunchOutcomes.LaunchSucceedsIff` | tauri2/crates/dla-application/src/launch.rs:203-278 | over whole runs a launch that returned returned Ok exactly if nothing went wrong in its events: no save, start, spawn, registration or hand-over failed, and no other activity of the installation was active |
| `LaunchOutcomes.EndIsRecorded` | tauri2/crates/dla-application/src/launch.rs:536-575 | over whole runs: exited was seen to exit with code 0 and not stopped; stopped was stopped and seen to exit; failed was seen to exit otherwise, or its look or launch failed; interrupted saw a restart |
| `LaunchOutcomes.RegistrationFollows` | tauri2/crates/dla-application/src/launch.rs:620-632 | the active map changes only so: a launch registers its activity unless the lock is poisoned, its own removal takes it out unless the lock is, and a restart takes all out |
| `LaunchOutcomes.ProcessFollows` | tauri2/crates/dla-application/src/launch.rs:615-618 | a live process stays so until its reaping, a look that shows its exit or fails, or a restart says otherwise, and then it is reaped or given up for exactly the reason that event gives, for good |
| `LaunchService.Supervisor.Launch` | tauri2/crates/dla-application/src/launch.rs:203-278 | statement by statement the launch takes exactly steps of the machine; success leaves a Running record, registration and monitor for the started process, failure leaves the active map as it was and no process it started alive |
| `LaunchService.Supervisor.Supervise` | tauri2/crates/dla-application/src/launch.rs:334-402 | a started process ends up handed to a registered monitor, or not alive, with the active map unchanged and at most the Failed record saved |
| `LaunchService.Supervisor.RecordFailure` | tauri2/crates/dla-application/src/launch.rs:404-425 | after a failed launch the process is reaped or given up, the call has returned with an error, and the activity is recorded as Failed with its process number exactly if that could be saved |
| `LaunchService.Supervisor.Unregister` | tauri2/crates/dla-application/src/launch.rs:620-632 | the registration goes exactly if it has this process number and the lock is sound |
| `LaunchService.Supervisor.PersistTerminalActivity` | tauri2/crates/dla-application/src/launch.rs:598-613 | within three tries the end is stored as given, or all three failed and the record is as before |
| `LaunchService.Supervisor.AnswerWithStop` | tauri2/crates/dla-application/src/launch.rs:541-550 | the answer is Ok exactly if the Stopping record was saved, and an error, with the records as before, otherwise; no other request is touched |
| `LaunchService.Supervisor.EndMonitor` | tauri2/crates/dla-application/src/launch.rs:556-595 | the end is recorded if it can be, the registration goes, and every request still in the channel is disconnected |
| `LaunchService.Supervisor.MonitorProcess` | tauri2/crates/dla-application/src/launch.rs:524-596 | the loop takes exactly steps of the machine, ends exactly when a look at the process is not "still running", and leaves a terminal record unless it gave up, no live process and no registration |
| `NewestRelease.Newest` | tauri2/crates/dla-application/src/delivery.rs:156-203 | the release has the date and version of an entry that no other is dated after and, among equal dates, none of another version appears first after; its archives are those of exactly the entries with both, in order; it fails exactly if nothing is listed or a member cannot be verified |
| `NewestRelease.GroupByRelease` | tauri2/crates/dla-application/src/delivery.rs:157-164 | the loop collects, in order of first appearance, exactly the entries of each (date, version) |
| `NewestRelease.LatestGroup` | tauri2/crates/dla-application/src/delivery.rs:165-168 | the last of the groups with the greatest date |
| `NewestRelease.NewestIsUnique` | tauri2/crates/dla-application/src/delivery.rs:152-155 | there is only one newest release to choose |
| `NewestRelease.ArchivesKeepEveryEntry` | tauri2/crates/dla-application/src/delivery.rs:175-197 | the archives exist exactly if every entry has a name, a positive size and a whole SHA-256, one for each entry in order |
| `NewestRelease.RefusalNamesTheFirst` | tauri2/crates/dla-application/src/delivery.rs:184-188 | a refusal names the first entry that cannot be verified |
| `NewestRelease.ReleaseIsAt` | tauri2/crates/dla-application/src/delivery.rs:156-203 | told by the entries' own texts: date and version are the trimmed ones of an entry, no date is greater, and name, size and hash of each archive are those of its entry |
| `NewestRelease.RefusalIsOf` | tauri2/crates/dla-application/src/delivery.rs:175-197 | and a refusal names an entry of the newest release without a name, a positive size or a whole SHA-256, of which there is none before it |
| `DeliverySafety.StepKeepsInv` | tauri2/crates/dla-application/src/delivery.rs:248-563 | records, ledgers and the run under way stay consistent through every service call, every step of a run and a restart |
| `DeliveryTheorems.StoredJobsAreConsistent` | tauri2/crates/dla-application/src/delivery.rs:356-410 | in every reachable store: complete archives form a prefix, received bytes are their sum and at most the total (equal once installed), an installation is there exactly for Installed or NeedsReview, Failed has a problem, queued, running and paused jobs have none |
| `DeliveryTheorems.EachArchiveIsSavedOnce` | tauri2/crates/dla-application/src/delivery.rs:461-487 | over whole runs at most one download of an archive is saved, and it is complete exactly if one was |
| `DeliveryTheorems.CompleteIsNeverFetchedAgain` | tauri2/crates/dla-application/src/delivery.rs:461-465 | an archive saved as complete is never asked for again, whatever pauses, failures, resumptions and restarts follow |
| `DeliveryTheorems.RunningJobIsLeftAlone` | tauri2/crates/dla-application/src/delivery.rs:506-563 | while a job is stored as downloading or installing only its own run or a restart changes it, and nothing removes it |
| `DeliveryTheorems.InstallerGetsWholeReleases` | tauri2/crates/dla-application/src/delivery.rs:488-509 | the installer is called only for a job stored as installing with every archive located, complete and counted |
| `DeliveryTheorems.DoneIsForGood` | tauri2/crates/dla-application/src/delivery.rs:511-563 | a job installed, in review or cancelled is from then on the same record or gone |
| `DeliveryTheorems.RunAdvances` | tauri2/crates/dla-application/src/delivery.rs:412-510 | every step of a run lowers the steps left, which start at the number of archives plus five at most |
| `DeliveryTheorems.RunIsNeverStuck` | tauri2/crates/dla-application/src/delivery.rs:356-510 | a run under way always has a next step |
| `DeliveryTheorems.RunEndsOutOfTheQueue` | tauri2/crates/dla-application/src/delivery.rs:381-410 | unless the launcher restarts, a run ends by saving its job, which is then neither queued nor running |
| `DeliveryOutcomes.StoppedRunIsStored` | tauri2/crates/dla-application/src/delivery.rs:391-409 | whatever calls come in between, a run that stops is stored as its error asks, in the fields of the job: paused, cancelled, or failed with exactly its problem and detail, with the archives and bytes saved last |
| `DeliveryOutcomes.DeliveredRunIsStored` | tauri2/crates/dla-application/src/delivery.rs:374-390 | and one that delivers as installed, or in review for its reason, with exactly the installation that was made |
| `DeliveryOutcomes.QueuedJobStarts` | tauri2/crates/dla-application/src/delivery.rs:356-371 | a queued job that is started is downloading without a problem and finds, fetches or installs its archives, whichever is due; any other is left alone |
| `DeliveryOutcomes.ResumedJobGoesOn` | tauri2/crates/dla-application/src/delivery.rs:461-465 | a paused or failed job that is resumed and started has the archives it had and no problem, and goes on with the first that is not complete, or with finding or installing them |
| `DeliveryOutcomes.DeliveryGoesThrough` | tauri2/crates/dla-application/src/delivery.rs:285-410 | a work without an unfinished job whose newest release is verifiable can be queued, located, fetched and installed; its job is then stored with exactly the archives of the release, complete and with their paths, and the installation |
| `DeliveryConflicts.StepKeepsOneIff` | tauri2/crates/dla-application/src/delivery.rs:305-311 | starting from one unfinished job for each work, a step keeps that exactly unless it resumes a failed job while another unfinished job of its work exists |
| `DeliveryConflicts.AlwaysOneIff` | tauri2/crates/dla-application/src/delivery.rs:283-284 | over whole runs each work has at most one unfinished job throughout exactly if no such resumption happens |
| `DeliveryCounterexample.FailedJobMeetsItsSuccessor` | tauri2/crates/dla-application/src/delivery.rs:513-523 | for any verifiable work and any number of archives held: fail, queue again, and then resuming the failed job gives two unfinished jobs, and cancelling it deletes the folder of the queued one |
| `DeliveryCounterexample.CancellingTheSuccessorLosesFiles` | tauri2/crates/dla-application/src/delivery.rs:538-551 | cancelling that queued job deletes what the failed one counts as complete; resumed, the failed job reaches the installer with those archives gone |
| `DeliveryCounterexample.InstallingTheSuccessorLosesFiles` | tauri2/crates/dla-application/src/delivery.rs:386-391 | the same comes of the queued job being run and installed |
| `DeliveryCounterexample.FailedInstallationLosesFiles` | tauri2/src-tauri/src/delivery.rs:687-732 | an installer that deletes the archives it has unpacked and then meets a problem leaves a failed job with every archive complete and none there; resumed, it calls the installer without them |
| `DeliveryCounterexample.StoppingTheInstallerLosesFiles` | tauri2/src-tauri/src/delivery.rs:687-732 | a launcher that stops after the installer deleted the archives, and before it is back, queues the job again and does the same |
| `DeliveryCounterexample.RestartingForgetsTheEnd` | tauri2/crates/dla-application/src/delivery.rs:386-409 | and so does one that stops after a run deleted its folder and before it saved the job as installed |
| `DeliveryCounterexample.CancellingHalfwayLosesFiles` | tauri2/crates/dla-application/src/delivery.rs:538-551 | a cancellation whose deletion stops midway leaves the job as it was; resumed, it reaches the installer without the archives deleted by then |
| `DeliveryCounterexample.SameNameTwiceLosesFiles` | tauri2/crates/dla-application/src/delivery.rs:175-197 | a release with two archives of one name and different contents is taken; the second download replaces the first, and the installer is called without it |
| `DeliveryCounterexample.CancellingTakesFromReview` | tauri2/crates/dla-application/src/delivery.rs:305-311 | a work in review is queued again, and cancelling that job deletes the archives the review needs, although no job that may still run loses any |
| `DeliveryTrails.SomeWishIsValid` | tauri2/crates/dla-application/src/delivery.rs:152-203 | there are such requests: releases of two archives of any names, the same or different |
| `DeliveryConflicts.StagingIdentifies` | tauri2/crates/dla-application/src/delivery.rs:136-142 | two jobs share a staging folder exactly if they have the same code and the same install folder up to a final separator |
| `DeliveryConflicts.DiscardIsSafeIff` | tauri2/crates/dla-application/src/delivery.rs:386-398 | with one unfinished job for each work, deleting a folder, by cancellation or by a run, spares every other job that may still be run (or, if those count too, is in review) exactly unless it is shared with one and one of the two counts as finished |
| `DeliveryConflicts.DiscardsInRunsAreSafeIff` | tauri2/crates/dla-application/src/delivery.rs:538-551 | over whole runs without such a resumption every such deletion is safe exactly if no folder is deleted that a failed job, or one in review if those count, shares |
| `DeliveryFiles.StepKeepsFilesIff` | tauri2/crates/dla-application/src/delivery.rs:386-409 | following the downloaded files by name and digest, with deletions by service, run and installer that may stop midway, and stops of the launcher at any point: a step leaves every complete archive of every job that may still want it in its place exactly unless it removes or replaces one another such job counts on, or one of its own job that goes on, or the launcher stops when some of the run's job are gone |
| `DeliveryFiles.AlwaysKeptIff` | tauri2/crates/dla-application/src/delivery.rs:372-410 | over whole runs what is counted as complete is there throughout exactly if no event does any of these |
| `DeliveryFiles.EveryRunCanHappen` | tauri2/crates/dla-application/src/delivery.rs:356-410 | nothing is left out by following the files: every run of the machine is one of files too |
| `DeliveryFiles.HitsAreBesideFinished` | tauri2/crates/dla-application/src/delivery.rs:386-398 | with one unfinished job for each work, an event takes archives of another job only if one of the two has failed, or, if those count, is in review |
| `DeliveryFiles.InstallerFindsItsArchives` | tauri2/crates/dla-application/src/delivery.rs:488-509 | in a run in which nothing is lost every archive of the release is there, with the contents it was verified to have, when the installer is called |
| `DeliveryService.Service.Listing` | tauri2/crates/dla-application/src/delivery.rs:265-273 | every stored job once, oldest first |
| `DeliveryService.Service.NextQueued` | tauri2/crates/dla-application/src/delivery.rs:346-351 | the oldest queued job, or none exactly if nothing is queued |
| `DeliveryService.Service.Queue` | tauri2/crates/dla-application/src/delivery.rs:285-343 | a refusal says why, told by the input; a work with an unfinished job gets the oldest of them back and nothing changes; otherwise exactly one job is added, its fields those of the request and the newest release |
| `DeliveryService.Service.Resume` | tauri2/crates/dla-application/src/delivery.rs:513-523 | the new store, and the job as stored or an error exactly if there is none |
| `DeliveryService.Service.Pause` | tauri2/crates/dla-application/src/delivery.rs:526-534 | the new store, and the job as stored or an error exactly if there is none |
| `DeliveryService.Service.Cancel` | tauri2/crates/dla-application/src/delivery.rs:538-551 | the folder is deleted before the job is cancelled, exactly for waiting and failed jobs, and a failed deletion leaves the job |
| `DeliveryService.Service.Remove` | tauri2/crates/dla-application/src/delivery.rs:554-563 | only a finished job goes, and success means exactly that it went |
| `DeliveryService.Service.ReconcileAfterRestart` | tauri2/crates/dla-application/src/delivery.rs:248-262 | exactly the running jobs are queued again, and their number is returned |
| `DeliveryService.Service.CompletedBytes` | tauri2/crates/dla-application/src/delivery.rs:455-460 | the sizes of the complete archives add up |
| `DeliveryService.Service.FetchAll` | tauri2/crates/dla-application/src/delivery.rs:461-487 | the loop of fetches and saves is a run of the machine to the first stop or to the installation |
| `DeliveryService.Service.Deliver` | tauri2/crates/dla-application/src/delivery.rs:412-510 | locating, fetching and installing, with every early return, is a run of the machine |
| `DeliveryService.Service.Finish` | tauri2/crates/dla-application/src/delivery.rs:372-410 | for each outcome the job as stored, field by field, and whether the folder is asked to be deleted, before the save |
| `DeliveryService.Service.Run` | tauri2/crates/dla-application/src/delivery.rs:356-410 | one call is exactly a run of the machine made of its own events; it deletes the folders that run deletes and leaves its job out of the queue |
| `DeliveryControl.HeardRequestStopsTheRun` | tauri2/src-tauri/src/delivery.rs:363-403 | a pause or cancellation that found the control of the running job keeps that run, whatever comes after, from fetching another archive and from entering the installation |
| `DeliveryControl.RequestIsLostIff` | tauri2/src-tauri/src/delivery.rs:363-411 | one that found none takes effect exactly if its job waits (for a cancellation also paused or failed, its folder being deletable), and is lost on a run under way exactly if that run started between its two steps |
| `DeliveryControl.RequestCanBeLost` | tauri2/src-tauri/src/delivery.rs:452-480 | any waiting job can lose a request so |
| `DeliveryControl.FoundRequestIsLostIff` | tauri2/src-tauri/src/delivery.rs:363-403 | one that found a control changes no job, and its flag is never looked at by any later step exactly if the run of that control is at its end or over, or has not begun and its job is done or gone |
| `DeliveryControl.FoundRequestCanBeLost` | tauri2/src-tauri/src/delivery.rs:466-472 | any run whose end is being saved can lose a request so |
| `DeliveryControl.RunHasItsControl` | tauri2/src-tauri/src/delivery.rs:452-472 | in every reachable state a run under way has its own control at hand, and no other can be started beside it |
| `DeliveryRequests.FlagsAreRaisedIff` | tauri2/src-tauri/src/delivery.rs:110-125 | over any moves a flag of a control is raised exactly if it was, or a request of that kind that found this control has acted |
| `DeliveryRequests.ControlIsAtHandIff` | tauri2/src-tauri/src/delivery.rs:462-476 | over any moves a control can be found exactly if the worker took a job and has not dropped its control, nor stopped with the launcher, since |
| `DeliveryRequests.RequestsFindTheirOwn` | tauri2/src-tauri/src/delivery.rs:377-384 | over whole runs no request ever reaches the control of another job |
| `DeliveryRequests.RaisedFlagEndsTheRun` | tauri2/crates/dla-application/src/delivery.rs:465-491 | a run that looks at its control with a flag raised is stored as cancelled if a cancellation was asked for, and else as paused, with nothing else changed, whatever calls come in between |
| `DeliveryRequests.RequestGoesThrough` | tauri2/src-tauri/src/delivery.rs:386-411 | a request for a job whose run is between archives or before its installation goes through: it finds, it acts, the run ends at its next look, and only that job has changed |
| `DeliveryWorker.EventKeepsInv` | tauri2/src-tauri/src/delivery.rs:437-504 | every step of every thread and caller keeps the flag held by exactly one loop and the queue watched |
| `DeliveryWorker.OneThreadWorks` | tauri2/src-tauri/src/delivery.rs:437-450 | in every interleaving at most one thread is inside the work loop |
| `DeliveryWorker.NothingRunnableIsLeft` | tauri2/src-tauri/src/delivery.rs:443-449 | when all threads are done nothing is queued, or nobody is signed in: no wake-up is lost |
| `DeliveryWorker.NobodyIsStuck` | tauri2/src-tauri/src/delivery.rs:437-504 | a thread that is not done can always take its next step |
| `DeliveryWorker.StepsRunOut` | tauri2/src-tauri/src/delivery.rs:452-504 | each thread step leaves less to do, and nothing but a new job or a sign-in leaves more |
| `DeliveryWorker.RunsEndWithoutArrivals` | tauri2/src-tauri/src/delivery.rs:437-504 | without arrivals a run takes no more thread steps than there was left to do |
| `DeliveryWorker.QueuedIff` | tauri2/src-tauri/src/delivery.rs:437-504 | over whole runs a job is queued exactly if it was, and has neither been withdrawn nor started since |
| `DeliveryWorker.SignedInIff` | tauri2/src-tauri/src/delivery.rs:486-493 | over whole runs somebody is signed in exactly if somebody did, and nobody, and no run, signed out since |
| `DeliveryWorker.EverythingQueuedIsRun` | tauri2/src-tauri/src/delivery.rs:443-504 | while the session lasts, once all threads are done every job that was queued was started, once, however the runs ended: nothing stops the queue |
| `DeliveryWorker.JobIsRun` | tauri2/src-tauri/src/delivery.rs:437-504 | a job queued while somebody is signed in is run by threads alone, with all that waited before |
| `DeliveryWorker.SigningInRunsAll` | tauri2/src-tauri/src/delivery.rs:437-504 | and so are all that waited for a sign-in |
| `DeliveryWorker.StoppedQueueGoesOn` | tauri2/src-tauri/src/delivery.rs:239-248 | a run that ends with a problem meant to stop the queue does not stop it: with nobody doing anything the worker starts every job that is left |
| `DeliveryWorker.QueueCanBeMeantToStop` | tauri2/src-tauri/src/delivery.rs:494-496 | a run that gets there: two jobs queued, of which the first stops the queue |
| `ScanInstalls.EnqueueKeepsAgreement` | tauri2/src-tauri/src/scan_installs.rs:281-310 | after one is queued list, queue and flags still agree on every installation; it is listed as Queued, unless it was active, and the others as before |
| `ScanInstalls.EnqueueIs` | tauri2/src-tauri/src/scan_installs.rs:281-310 | told by list and queue: refused exactly if an entry of the installation is listed as waiting or under way; otherwise the new one is last in both, and the others stay, in order |
| `ScanInstalls.CancelKeepsAgreement` | tauri2/src-tauri/src/scan_installs.rs:344-372 | and after a cancellation: a waiting one is Cancelled, one under way keeps its status and has its flag raised, the others are as before, with their flags |
| `ScanInstalls.PopKeepsAgreement` | tauri2/src-tauri/src/scan_installs.rs:407-423 | and after the next is taken: it is Installing and its flag is down, the others are as before, with their flags |
| `ScanInstalls.FinishKeepsAgreement` | tauri2/src-tauri/src/scan_installs.rs:425-441 | and after one has ended: it has its final status and no flag, the others are as before, with their flags |
| `ScanInstalls.Controller.Enqueue` | tauri2/src-tauri/src/scan_installs.rs:281-310 | refused exactly if already waiting or under way; otherwise an earlier entry is replaced and the new one is last in list and queue |
| `ScanInstalls.Controller.SetStatus` | tauri2/src-tauri/src/scan_installs.rs:494-508 | only the first entry of the installation changes, to this status and detail |
| `ScanInstalls.Controller.Cancel` | tauri2/src-tauri/src/scan_installs.rs:344-363 | a waiting entry leaves the queue as cancelled; one under way has its flag raised; the answer tells which |
| `ScanInstalls.Controller.Next` | tauri2/src-tauri/src/scan_installs.rs:407-423 | takes the first of the queue, with its flag down, lists it as installing and changes nothing else |
| `ScanInstalls.Controller.Finish` | tauri2/src-tauri/src/scan_installs.rs:436-439 | drops the flag and records the end |
| `ScanInstallWorker.ListsAlwaysAgree` | tauri2/src-tauri/src/scan_installs.rs:281-441 | in every interleaving: identifiers unique, queued ones exactly the Queued entries, flags exactly the Installing entries, and at most one of these |
| `ScanInstallWorker.TakenInOrder` | tauri2/src-tauri/src/scan_installs.rs:303-307 | what the worker became busy with, followed by what waits in the queue, is what was accepted, in that order, without what cancellations took out, each for an entry of its own |
| `ScanInstallWorker.NothingIsLeftQueued` | tauri2/src-tauri/src/scan_installs.rs:384-405 | when all threads are done the queue is empty, no flag is left and every entry has a final status |
| `ScanInstallWorker.FlagIsRaisedIff` | tauri2/src-tauri/src/scan_installs.rs:407-423 | over whole runs the flag of the installation under way is raised exactly if a cancellation of it was asked for since it was taken |
| `ScanInstallWorker.WorkGoesThrough` | tauri2/src-tauri/src/scan_installs.rs:384-405 | from every reachable state the threads can go on until all are done, and then every installation that waited or was under way has ended as its step said, and every other entry is as it was |
| `ScanInstallWorker.InstallGoesThrough` | tauri2/src-tauri/src/scan_installs.rs:171-250 | an installation that is not waiting or under way can be added by a new caller, and threads alone bring it to its end |
| `ScanInstallWorker.RefusedCallerStartsNobody` | tauri2/src-tauri/src/scan_installs.rs:242-245 | a caller of whose installations none is taken on leaves nothing behind and starts no worker thread |
| `ScanInstallWorker.StepsRunOut` | tauri2/src-tauri/src/scan_installs.rs:390-403 | each thread step leaves less to do, and a cancellation never more |
| `ScanInstallWorker.RunsEndWithoutArrivals` | tauri2/src-tauri/src/scan_installs.rs:384-405 | with nothing added a run is no longer than its cancellations and what there was left to do |
| `RevisionedViews.StaysFaithful` | tauri2/src-tauri/src/delivery.rs:279-318 | as the revision is read before the fields and every write is counted after it, a view of the latest revision holds the current fields as far as read, unless a write is uncounted |
| `RevisionedViews.InterfaceConvergesIff` | tauri2/src-tauri/src/scan_installs.rs:143-169 | once all is quiet and every view has arrived in any order, the interface shows the final revision and fields exactly if following the arrivals the last one was folded into leads to one of the final revision, as it does if no query was overtaken |
| `RevisionedViews.NewestIsShownIff` | shared/ui/src/app/revisionedView.ts:1-4 | the newest arrived view is shown at all times exactly if no query is overtaken by a newer view while under way |
| `RevisionedViews.ShownIsLastNewest` | shared/ui/src/app/revisionedView.ts:1-4 | of the arrivals the last one was folded into, the last of the newest is shown |
| `RevisionedViews.QueryCanGoBack` | shared/ui/src/features/delivery/useDelivery.ts:17-21 | a run and an order of arrival, for any two values of a field, after which all is quiet and the old value stays shown: a query read what was shown before it awaited its reply |
| `KeyCombos.NormalizeCombo` | shared/ui/src/preferences/keyBindings.ts:292-311 | the loop gives the normal form, or nothing at the first part that is no modifier |
| `KeyCombos.NormalizeIff` | shared/ui/src/preferences/keyBindings.ts:292-311 | trimmed and in small letters a text is accepted exactly if it is a plus sign, or modifiers before a key that is none, of at most 80 units; and then as that key behind each of its modifiers once, in fixed order, meta as ctrl |
| `KeyCombos.NormalizeGivesNormal` | shared/ui/src/preferences/keyBindings.ts:292-311 | an accepted combination is its modifiers in fixed order before a trimmed small-letter key, at most 80 units long |
| `KeyCombos.NormalizeIsIdempotent` | shared/ui/src/preferences/keyBindings.ts:292-311 | normalizing twice is normalizing once |
| `KeyBindings.ResolveBindings` | shared/ui/src/preferences/keyBindings.ts:170-190 | the loop over fixed, overridden and other actions gives the specified bindings |
| `KeyBindings.MatchBinding` | shared/ui/src/preferences/keyBindings.ts:274-284 | the first action of the scope in table order whose list holds the combination, or none exactly if there is none |
| `KeyBindings.AssignBinding` | shared/ui/src/preferences/keyBindings.ts:226-249 | the loops over conflicts and padding give the specified overrides |
| `KeyBindings.Place` | shared/ui/src/preferences/keyBindings.ts:244-246 | padding, setting and dropping empty texts puts a combination in its slot or behind the last |
| `KeyBindingsTheorems.ResolutionHasNoConflicts` | shared/ui/src/preferences/keyBindings.ts:182-190 | for every overrides value no two actions with overlapping scopes keep the same combination |
| `KeyBindingsTheorems.OverlapIff` | shared/ui/src/preferences/keyBindings.ts:198-201 | two scopes overlap exactly if both are live on some page |
| `KeyBindingsTheorems.WantedIsHeldSomewhere` | shared/ui/src/preferences/keyBindings.ts:183-186 | a combination an action wants is dropped only if an action with an overlapping scope holds it |
| `KeyBindingsTheorems.MatchIsTheOnlyOne` | shared/ui/src/preferences/keyBindings.ts:274-284 | on any page at most one action of the live scopes is bound to a combination |
| `KeyBindingsTheorems.StrongGetsAll` | shared/ui/src/preferences/keyBindings.ts:176-190 | with clean overrides a fixed or overridden action gets its whole list |
| `KeyBindingsTheorems.WeakGetsTheRest` | shared/ui/src/preferences/keyBindings.ts:176-190 | and any other exactly its defaults that no fixed or overridden action wants |
| `KeyBindingEdits.AssignIs` | shared/ui/src/preferences/keyBindings.ts:226-249 | an assignment changes nothing, or it is accepted: known action, not fixed, new combination, no fixed rival |
| `KeyBindingEdits.AssignBinds` | shared/ui/src/preferences/keyBindings.ts:244-248 | with clean overrides an accepted assignment binds exactly the old list with the combination put in; the combination is bound if and only if the slot is below the action's slots or the list was not full, and then no overlapping action keeps it |
| `KeyBindingEdits.AssignTakesNothingElse` | shared/ui/src/preferences/keyBindings.ts:239-243 | the other actions lose nothing to an assignment but the combination itself |
| `KeyBindingDisputes.ClearUnbinds` | shared/ui/src/preferences/keyBindings.ts:251-262 | whatever the overrides, clearing a slot takes exactly that binding from the action |
| `KeyBindingOutcomes.AssigningIs` | shared/ui/src/preferences/keyBindings.ts:226-249 | told by the lists: assigning a text that is no combination, or one the action has, or a fixed action live beside it has, or to a fixed action, changes nothing; else the action gets its list with the combination put in, cut to its slots, each rival loses just the combination, and no other override changes |
| `KeyBindingOutcomes.ClearingIs` | shared/ui/src/preferences/keyBindings.ts:251-262 | clearing a slot leaves the action bound to exactly its other combinations, and every other override as it was; a fixed action is left alone |
| `KeyBindingOutcomes.ReloadingIs` | shared/ui/src/preferences/keyBindings.ts:154-168 | reloading drops exactly the overrides that repeat the defaults of their action |
| `KeyBindingEdits.AssignKeepsClean` | shared/ui/src/preferences/keyBindings.ts:238-248 | after an assignment clean overrides are still good lists that no two strong actions dispute |
| `KeyBindingDisputes.EditsKeepSane` | shared/ui/src/preferences/KeyBindingsProvider.tsx:29-49 | whatever was stored, and whatever edits follow, every override is a good list in normal form for an editable action |
| `KeyBindingDisputes.AssignBindsIff` | shared/ui/src/preferences/keyBindings.ts:226-249 | with such overrides, which may dispute combinations, an accepted assignment binds exactly if the combination has a place in the list and no earlier action with an override, in an overlapping scope, comes to hold it once it is taken from those that hold it now |
| `KeyBindingOutcomes.AssignedIsBoundIff` | shared/ui/src/preferences/KeyBindingsProvider.tsx:40-42 | the same of the edit itself: the text assigned is bound exactly if it has a place in the list and no action served earlier comes to hold it |
| `KeyBindingDisputes.CleanIsNotForestalled` | shared/ui/src/preferences/keyBindings.ts:226-249 | clean overrides never have such an action |
| `KeyBindingDisputes.DisputeForestalls` | shared/ui/src/preferences/keyBindings.ts:154-190 | two stored overrides that dispute a combination are read back as they are, and make an assignment of it to a later action of their scope bind it not to that action |
| `KeyBindingReloads.HoldsIff` | shared/ui/src/preferences/keyBindings.ts:170-190 | whatever the overrides, an action holds exactly what it wants and no action with an overlapping scope served before it holds: fixed ones first, then those with an override, then the rest, each in table order |
| `KeyBindingReloads.ReloadChangesNothingIff` | shared/ui/src/preferences/KeyBindingsProvider.tsx:29-34 | storing any such overrides and reading them back binds every action as before exactly if no action whose override repeats its defaults holds a combination that a later action with an override has once the first has lost its priority |
| `KeyBindingReloads.ReloadCanSwap` | shared/ui/src/preferences/keyBindings.ts:154-190 | two stored overrides, a clearing, and a reload after which a combination has gone from one action to the other |
| `KeyBindingStorage.SanitizeOverrides` | shared/ui/src/preferences/keyBindings.ts:154-168 | the loop over stored entries gives the specified overrides |
| `KeyBindingStorage.ReadBackIs` | shared/ui/src/preferences/keyBindings.ts:154-168 | told by what was stored: an editable action of the table gets the combinations its texts are accepted as, each once where it comes first, cut to its slots, unless that repeats its defaults; nothing else is read |
| `KeyBindingStorage.SanitizedIsGood` | shared/ui/src/preferences/keyBindings.ts:154-168 | whatever was stored, what is read back are lists in normal form without repetition, within their slots, of editable actions, that differ from the defaults |
| `KeyBindingStorage.SanitizingIsIdempotent` | shared/ui/src/preferences/keyBindings.ts:154-168 | storing and reading that again changes nothing |
| `KeyBindingStorage.RoundTrip` | shared/ui/src/preferences/keyBindings.ts:135-168 | storing and reading back clean overrides in normal form, as edits leave them, binds every action as before, although lists equal to defaults are dropped and lose their priority |
| `KeyBindingStorage.EditsKeepClean` | shared/ui/src/preferences/keyBindings.ts:226-268 | after any edits overrides are good lists in normal form of editable actions, and no two strong actions dispute a combination |
| `KeyBindingStorage.OverridesSurvive` | shared/ui/src/preferences/KeyBindingsProvider.tsx:37-48 | after any sequence of assign, clear, reset, reset-all and reload every stored list is bound in full |
| `KeyBindingStorage.ResetGivesDefaults` | shared/ui/src/preferences/keyBindings.ts:264-268 | a reset drops the override of its action and no other; the action is then bound to exactly its defaults that no other fixed or overridden action in an overlapping scope wants, and those keep their lists |
| `KeyBindingStorage.ResetAllGivesDefaults` | shared/ui/src/preferences/KeyBindingsProvider.tsx:46-47 | after resetting all every action of a good table is bound to exactly its defaults |
| `KeyBindingStorage.ReloadingChangesNothing` | shared/ui/src/preferences/KeyBindingsProvider.tsx:32-34 | after any such sequence a reload binds every action as before |
| `ShippedBindings.ShippedTableIsGood` | shared/ui/src/preferences/keyBindings.ts:17-55 | the 34 shipped actions have unique identifiers and defaults in normal form that fit their slots and conflict with no others |
| `GroupedScan.ScanSources` | tauri2/src-tauri/src/library_add.rs:255-347 | each folder is scanned at most once; uncancelled, each exactly once, and every source has exactly the outcome and findings of its folder's scan; cancelled at any moment, the sources not recorded have failed as cancelled, except those of a folder marked just after the cancellation, which stay marked as being scanned; the batch ends in review, cancelled, or, without sources, where it began |
| `GroupedScan.RecordGroup` | tauri2/src-tauri/src/library_add.rs:298-345 | all sources of a folder, and only those, get the outcome and their findings, also if a cancellation comes in between |
| `GroupedScan.GroupOf` | tauri2/src-tauri/src/library_add.rs:281-284 | the sources of a folder, in order |
| `GroupedScan.Choose` | tauri2/src-tauri/src/library_add.rs:304-314 | a picked archive gets, in order, the findings it asked for whose key nobody claimed before, a folder gets all |
| `GroupedScan.ChosenAreShares` | tauri2/crates/dla-application/src/library_add.rs:249-267 | told by files, keys and folders: a picked archive gets, in order, the archives found that hold a file of its name and whose key no earlier pick of the folder and no earlier finding of its own had |
| `GroupedScan.FindingsAreShared` | tauri2/src-tauri/src/library_add.rs:298-314 | no finding goes to two archives picked from one folder |
| `GroupedScan.FirstPickGetsIt` | tauri2/crates/dla-application/src/library_add.rs:249-267 | a finding some archive asked for goes to the first that did |
| `GroupedScan.Batch.SourceDone` | tauri2/crates/dla-application/src/library_add.rs:370-383 | the source is done, its findings are appended, and the batch goes to review exactly with its last source |
| `GroupedScan.Batch.SourceFailed` | tauri2/crates/dla-application/src/library_add.rs:385-392 | the source has failed with this error, and the batch goes to review exactly with its last source |
| `GroupedScan.Batch.Cancel` | tauri2/crates/dla-application/src/library_add.rs:517-530 | sources without outcome fail as cancelled, the others keep theirs |
| `InstallationScope.ScopeNamesOneWork` | tauri2/crates/dla-application/src/installation_from_scan.rs:351-399 | the results inside a stored installation's entries name at most one matched work |
| `InstallationScope.StoredNamesTheSelectedWork` | tauri2/crates/dla-application/src/installation_from_scan.rs:145-192 | whatever installation is stored for a matched selection, the results inside its entries name exactly the selected work |
| `InstallationScope.ScopeNamesTheSelectedWorkIff` | tauri2/crates/dla-application/src/installation_from_scan.rs:351-399 | the scope found before that, for a validated selection with an identity, names exactly the selected work if and only if its code is not blank |
| `InstallationScope.BlankCodeIsRefusedLast` | tauri2/crates/dla-application/src/installation_from_scan.rs:572-682 | a blank code gets through validation, identity and scope, and only the check of the identity before storing refuses it |
| `InstallationScope.OrdinaryCodeIsStored` | tauri2/crates/dla-application/src/installation_from_scan.rs:145-192 | an ordinary code is stored with its identity |
| `InstallationScope.FolderIsStored` | tauri2/crates/dla-application/src/installation_from_scan.rs:407-423 | a folder of a root with several works is stored under its own key, with the entries of that folder only |
| `InstallationScope.NaturalHasSelected` | tauri2/crates/dla-application/src/installation_from_scan.rs:366-383 | in an archive set, folder or file of its own the selected work is always among them |
| `InstallationParts.OneWorkIff` | tauri2/crates/dla-application/src/installation_from_scan.rs:407-438 | told by names, paths and codes: a root is one work exactly if its matched results agree on one and there is a single result or loose content at its top, playable, matched or nothing else |
| `InstallationParts.PartIff` | tauri2/crates/dla-application/src/installation_from_scan.rs:442-489 | the part an entry lies in, with its key: its archive set, the folder at the top of its path with all below, or itself |
| `InstallationParts.ScopeIff` | tauri2/crates/dla-application/src/installation_from_scan.rs:351-399 | what becomes of the entries of a selection: all of them, or, in order, those of that part, if the results in it agree on the selected work |
| `InstallationParts.StoredIff` | tauri2/crates/dla-application/src/installation_from_scan.rs:145-192 | an installation is stored with this scope and identity exactly if the selection is fresh and complete, the identity is that of the matched result with no part blank, and the scope is the one above |
| `InstallationIdentity.ScopedIdTellsItsKey` | tauri2/crates/dla-application/src/installation_from_scan.rs:338-349 | for one root the identifier tells the scope key, through UTF-8 and hexadecimal digits, and is never that of the whole root |
| `InstallationIdentity.ScopedIdReads` | tauri2/crates/dla-application/src/installation_from_scan.rs:338-349 | it reads installation-, the root, -scope- and two hexadecimal digits for each UTF-8 byte of the key |
| `InstallationIdentity.DifferentScopesDifferentIds` | tauri2/crates/dla-application/src/installation_from_scan.rs:479-489 | archive sets, folders and files of one root never share an identifier |
| `MediaRange.AcceptedRangesFit` | tauri2/src-tauri/src/media_protocol.rs:866-908 | an accepted range lies within the file, is not empty and covers at most a mebibyte |
| `MediaRange.OpenRange` | tauri2/src-tauri/src/media_protocol.rs:885-897 | "bytes=k-" is satisfied exactly if it starts within the file, and runs to its end or a mebibyte on |
| `MediaRange.ClosedRange` | tauri2/src-tauri/src/media_protocol.rs:885-900 | "bytes=a-b" is satisfied exactly if it is not empty, starts within the file and b is below 2^64; its end is cut to the file and to a mebibyte |
| `MediaRange.SuffixRange` | tauri2/src-tauri/src/media_protocol.rs:877-884 | "bytes=-n" is satisfied exactly if the file is not empty and n is positive and below 2^64, and starts n bytes from the end |
| `MediaRange.ParseRangeIff` | tauri2/src-tauri/src/media_protocol.rs:873-908 | every header text: it is answered by a range exactly if it writes an open, closed or suffix range the file can satisfy, each number as its decimal digits behind any zeros and an optional plus sign, and then by that range |
| `MediaRange.AcceptedIsByteRangeIff` | tauri2/src-tauri/src/media_protocol.rs:866-908 | an accepted header is a byte range of section 14.1.2 of RFC 9110 exactly if it holds no plus sign |
| `MediaRange.Serve` | tauri2/src-tauri/src/media_protocol.rs:115-138 | seeking and reading gives the bytes of the range |
| `MediaRange.ReassemblesTheFile` | tauri2/src-tauri/src/media_protocol.rs:115-138 | a client asking from k and again from behind each answer gets exactly the file from k in as many answers as it has mebibytes, rounded up |

## Left out

- DeliveryConflicts.AlwaysOneIff: starts from one unfinished job for each work; once the rule is broken it says nothing about when it holds again.
- DeliveryService.Service.Run: what the locator, the transfer, the installer and the user's control answer is left open, and it runs by itself; other calls between its saves are covered by the machine.
- LaunchService.Supervisor.MonitorProcess: what looking at the process gives is a finite list, so a process that never ends is only watched for as long as the list lasts.
- NewestRelease.Newest: texts are compared by their characters, which for UTF-8 is the order of their bytes.
- KeyCombos.NormalizeCombo: letters outside ASCII keep their case.
- GroupedScan.Choose: lower-casing file names is not modelled; the picked name and those of the findings are held lower-cased.
- DeliveryConflicts.StagingIdentifies: folders are compared as texts, not as a file system that ignores case would.
- DeliveryFiles.StepKeepsFilesIff: files deleted or changed by anything but the delivery of jobs, as by a preparation by hand, are left out, and so are parts of unfinished downloads.
- DeliveryControl.RequestIsLostIff: what the transfer and the installer make of a raised flag while they work is left open.
- DeliveryControl.FoundRequestIsLostIff: a flag that may still be looked at need not be; a run may reach its end, or the launcher stop, before it is.
- RevisionedViews.InterfaceConvergesIff: progress of the running download, which has no revision of its own, is not part of a view.
- Store failures of the delivery jobs and the workers: their store always answers; in the launch supervisor every save may fail.
- The gap between finding and saving a job inside one service call: those calls are single steps.
- 64-bit overflow of summed archive sizes: sums are unbounded.
- The 5-second stop timeout, poll intervals and progress throttling: a stop caller that gives up waiting changes nothing the model holds.
- Launch plans, adapters, durations, exit codes in records and history limits: each is told by one body alone.
- Timestamps beyond the order of creation, and the text of identifiers except those of scoped installations.
- Archive-set discovery, scanning, package preparation, SQLite, HTTP, Tauri events and React components: outside the model, or functions and parameters left open.
- Reuse of a whole root's identifier for a scoped installation when an older record matches.
- Calendar months and days of the catalog, placement of findings, jobs of a batch, subtitle and thumbnail responses.
