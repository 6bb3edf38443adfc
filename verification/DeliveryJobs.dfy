/**
 Delivery jobs, the store that keeps them, and the service calls that change
 them in one step. Identifiers and creation times are numbers in the order of
 the texts they stand for.
 */
module DeliveryJobs {
  import opened Wrappers
  import opened Text
  import opened NewestRelease

  type JobId = nat

  datatype Status = Queued | Downloading | Installing | Paused | Installed | NeedsReview | Failed | Cancelled {
    /** A failed job counts as finished, although it can still be resumed and cancelled. */
    predicate IsFinished() {
      Installed? || NeedsReview? || Failed? || Cancelled?
    }

    predicate IsRunning() {
      Downloading? || Installing?
    }
  }

  datatype Problem =
    | SignInRequired | Credentials | TooManyAttempts | Unreachable | NotInArchive | Allowance | Busy | DiskSpace
    | Corrupt | InstallFolder | Install | Unavailable

  datatype DeliveryError =
    | PausedError
    | CancelledError
    | ProblemError(problem: Problem, detail: string)
    | PersistenceError(text: string)

  datatype Job = Job(
    id: JobId,
    workCode: string,
    archives: seq<Archive>,
    installFolder: string,
    status: Status,
    received: nat,
    problem: Option<Problem>,
    detail: Option<string>,
    installation: Option<nat>,
    createdAt: nat)

  type Store = map<JobId, Job>

  function Total(archives: seq<Archive>): nat {
    if archives == [] then 0 else Total(archives[..|archives| - 1]) + archives[|archives| - 1].size
  }

  /** The bytes of the archives already downloaded and verified. */
  function Completed(archives: seq<Archive>): nat {
    if archives == [] then 0
    else
      var last := archives[|archives| - 1];
      Completed(archives[..|archives| - 1]) + if last.complete then last.size else 0
  }

  const STAGING_FOLDER: string := ".dla-downloads"

  /** Joining a plain relative name to a folder, which adds a separator unless one is there. */
  function JoinPath(base: string, name: string): string {
    if base == [] || base[|base| - 1] == '/' then base + name else base + "/" + name
  }

  function StagingFolder(installFolder: string, workCode: string): string {
    JoinPath(JoinPath(installFolder, STAGING_FOLDER), workCode)
  }

  predicate IsWorkCode(code: string) {
    code != [] && forall i | 0 <= i < |code| :: IsAlphanumeric(code[i])
  }

  function Staging(job: Job): string {
    StagingFolder(job.installFolder, job.workCode)
  }

  /** A job is done for good once installed, in review or cancelled; a failed one can be resumed. */
  predicate IsDone(job: Job) {
    job.status.Installed? || job.status.NeedsReview? || job.status.Cancelled?
  }

  /**
   Nothing wants the job's archives any more. With `review` those of a job in review
   still count, as its owner may yet prepare them by hand.
   */
  predicate IsOver(job: Job, review: bool) {
    IsDone(job) && !(review && job.status.NeedsReview?)
  }

  predicate SameWork(a: Job, b: Job) {
    SameIgnoringCase(a.workCode, b.workCode)
  }

  /** Oldest first: by creation time, then by identifier. */
  predicate OlderOrSame(a: Job, b: Job) {
    a.createdAt < b.createdAt || (a.createdAt == b.createdAt && a.id <= b.id)
  }

  datatype CatalogAnswer =
    | CatalogFailed(text: string)
    | NotListed
    | Listed(code: string, roms: seq<Rom>, release: Result<Release, ReleaseError>)

  /** What the catalog may answer for a code: a work of the same code up to ASCII case. */
  ghost predicate AnswersFor(answer: CatalogAnswer, code: string) {
    answer.Listed? ==> SameIgnoringCase(answer.code, code) && IsReleaseOf(answer.roms, answer.release)
  }

  /** Whether a work already has an unfinished job. */
  predicate HasUnfinished(jobs: Store, code: string) {
    exists id | id in jobs :: SameIgnoringCase(jobs[id].workCode, code) && !jobs[id].status.IsFinished()
  }

  function NewJob(id: JobId, code: string, archives: seq<Archive>, installFolder: string, now: nat): Job {
    Job(id, code, archives, installFolder, Queued, 0, None, None, None, now)
  }

  function AfterQueue(jobs: Store, typed: string, installFolder: string, id: JobId, now: nat,
      answer: CatalogAnswer): Store {
    var code := Trim(typed);
    if !IsWorkCode(code) || Trim(installFolder) == [] || HasUnfinished(jobs, code) then jobs
    else if answer.Listed? && answer.release.Ok?
    then jobs[id := NewJob(id, answer.code, answer.release.value.archives, installFolder, now)]
    else jobs
  }

  function AfterResume(jobs: Store, id: JobId): Store {
    if id in jobs && (jobs[id].status.Paused? || jobs[id].status.Failed?)
    then jobs[id := jobs[id].(status := Queued, problem := None, detail := None)]
    else jobs
  }

  function AfterPause(jobs: Store, id: JobId): Store {
    if id in jobs && jobs[id].status.Queued? then jobs[id := jobs[id].(status := Paused)] else jobs
  }

  predicate Cancellable(jobs: Store, id: JobId) {
    id in jobs && (jobs[id].status.Queued? || jobs[id].status.Paused? || jobs[id].status.Failed?)
  }

  /** A cancellation whose clean-up failed leaves the job as it was. */
  function AfterCancel(jobs: Store, id: JobId, discarded: bool): Store {
    if Cancellable(jobs, id) && discarded then jobs[id := jobs[id].(status := Cancelled)] else jobs
  }

  function AfterRemove(jobs: Store, id: JobId): Store {
    if id in jobs && jobs[id].status.IsFinished() then jobs - {id} else jobs
  }

  function Reconciled(job: Job): Job {
    if job.status.IsRunning() then job.(status := Queued) else job
  }

  function AfterReconcile(jobs: Store): Store {
    map id | id in jobs :: Reconciled(jobs[id])
  }
}
