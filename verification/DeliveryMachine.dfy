/**
 The delivery job machine: the store and the one run under way, split at each
 save. A run moves through its program by `RunEvent`s; the other events are
 service calls, each one step, and the restart of the launcher. What the
 adapters answer is carried by the event.
 */
module DeliveryMachine {
  import opened Wrappers
  import opened Text
  import opened NewestRelease
  import opened DeliveryJobs

  datatype LocalOutcome = InstalledAs(installation: nat) | ReviewOf(installation: nat, reason: string)

  datatype Outcome = Delivered(local: LocalOutcome) | Stopped(error: DeliveryError)

  datatype Pc =
    | Locate
    | Fetch(index: nat)
    | BeginInstall
    | CallInstaller
    | Conclude(outcome: Outcome)
    | SaveEnd

  /** A run under way: its own copy of the job and where it is. */
  datatype Runner = Runner(job: Job, pc: Pc)

  datatype Machine = Machine(jobs: Store, run: Option<Runner>, used: set<JobId>)

  const EMPTY := Machine(map[], None, {})

  datatype Event =
    | QueueWork(typed: string, installFolder: string, id: JobId, now: nat, answer: CatalogAnswer)
    | ResumeJob(id: JobId)
    | PauseJob(id: JobId)
    | CancelJob(id: JobId, discarded: bool)
    | RemoveJob(id: JobId)
    | Restart
    | StartRun(id: JobId)
    | LocateArchives(located: Result<seq<string>, DeliveryError>)
    | FetchArchive(check: Option<DeliveryError>, fetch: Option<DeliveryError>)
    | EnterInstalling(check: Option<DeliveryError>)
    | InstallArchives(installed: Result<LocalOutcome, DeliveryError>)
    | ConcludeRun
    | SaveRunEnd

  predicate IsRunEvent(e: Event) {
    e.StartRun? || e.LocateArchives? || e.FetchArchive? || e.EnterInstalling? || e.InstallArchives? || e.ConcludeRun?
    || e.SaveRunEnd?
  }

  ghost predicate Enabled(m: Machine, e: Event) {
    match e
    case QueueWork(typed, _, id, _, answer) => id !in m.used && AnswersFor(answer, Trim(typed))
    case StartRun(_) => m.run.None?
    case LocateArchives(_) => m.run.Some? && m.run.value.pc.Locate?
    case FetchArchive(_, _) =>
      m.run.Some? && m.run.value.pc.Fetch? && m.run.value.pc.index < |m.run.value.job.archives|
    case EnterInstalling(_) => m.run.Some? && m.run.value.pc.BeginInstall?
    case InstallArchives(_) => m.run.Some? && m.run.value.pc.CallInstaller?
    case ConcludeRun => m.run.Some? && m.run.value.pc.Conclude?
    case SaveRunEnd => m.run.Some? && m.run.value.pc.SaveEnd?
    case _ => true
  }

  predicate AllLocated(archives: seq<Archive>) {
    forall i | 0 <= i < |archives| :: archives[i].remotePath.Some?
  }

  /** The first archive at or after `index` that is not complete, or else the installation. */
  function FetchFrom(archives: seq<Archive>, index: nat): Pc
    decreases |archives| - index
  {
    if index >= |archives| then BeginInstall
    else if archives[index].complete then FetchFrom(archives, index + 1)
    else Fetch(index)
  }

  function WithPaths(archives: seq<Archive>, paths: seq<string>): seq<Archive>
    requires |paths| == |archives|
  {
    seq(|archives|, i requires 0 <= i < |archives| => archives[i].(remotePath := Some(paths[i])))
  }

  function Stop(r: Runner, error: DeliveryError): Runner {
    r.(pc := Conclude(Stopped(error)))
  }

  /** A run that saves its job in the middle of its work. */
  function Saving(m: Machine, job: Job, pc: Pc): Machine {
    m.(jobs := m.jobs[job.id := job], run := Some(Runner(job, pc)))
  }

  function Started(m: Machine, id: JobId): Machine {
    if id in m.jobs && m.jobs[id].status.Queued?
    then
      var job := m.jobs[id].(status := Downloading, problem := None, detail := None);
      Saving(m, job, if AllLocated(job.archives) then FetchFrom(job.archives, 0) else Locate)
    else m
  }

  const MISSING_FILES := "the DLA archive does not hold every file of this release"

  function Located(m: Machine, r: Runner, located: Result<seq<string>, DeliveryError>): Machine {
    match located
    case Err(error) => m.(run := Some(Stop(r, error)))
    case Ok(paths) =>
      if |paths| != |r.job.archives|
      then m.(run := Some(Stop(r, ProblemError(NotInArchive, MISSING_FILES))))
      else
        var job := r.job.(archives := WithPaths(r.job.archives, paths));
        Saving(m, job, FetchFrom(job.archives, 0))
  }

  function Fetched(m: Machine, r: Runner, check: Option<DeliveryError>, fetch: Option<DeliveryError>): Machine
    requires r.pc.Fetch? && r.pc.index < |r.job.archives|
  {
    var i := r.pc.index;
    if check.Some? then m.(run := Some(Stop(r, check.value)))
    else if fetch.Some? then m.(run := Some(Stop(r, fetch.value)))
    else
      var archives := r.job.archives[i := r.job.archives[i].(complete := true)];
      var job := r.job.(archives := archives, received := Completed(r.job.archives) + r.job.archives[i].size);
      Saving(m, job, FetchFrom(archives, i + 1))
  }

  /** The job as its run leaves it, before that is saved. */
  function Concluded(job: Job, outcome: Outcome): Job {
    match outcome
    case Delivered(InstalledAs(installation)) => job.(status := Installed, installation := Some(installation))
    case Delivered(ReviewOf(installation, reason)) =>
      job.(status := NeedsReview, installation := Some(installation), detail := Some(reason))
    case Stopped(PausedError) => job.(status := Paused)
    case Stopped(CancelledError) => job.(status := Cancelled)
    case Stopped(ProblemError(problem, detail)) =>
      job.(status := Failed, problem := Some(problem), detail := Some(detail))
    case Stopped(PersistenceError(text)) =>
      job.(status := Failed, problem := Some(Unavailable), detail := Some("delivery persistence failed: " + text))
  }

  function InstallingEntered(m: Machine, r: Runner, check: Option<DeliveryError>): Machine {
    if check.Some? then m.(run := Some(Stop(r, check.value)))
    else Saving(m, r.job.(status := Status.Installing), CallInstaller)
  }

  function InstallerAnswered(m: Machine, r: Runner, installed: Result<LocalOutcome, DeliveryError>): Machine {
    var outcome := match installed case Ok(local) => Delivered(local) case Err(error) => Stopped(error);
    m.(run := Some(r.(pc := Conclude(outcome))))
  }

  function RunConcluded(m: Machine, r: Runner, outcome: Outcome): Machine {
    m.(run := Some(Runner(Concluded(r.job, outcome), SaveEnd)))
  }

  function RunSaved(m: Machine, r: Runner): Machine {
    m.(jobs := m.jobs[r.job.id := r.job], run := None)
  }

  function Next(m: Machine, e: Event): Machine
    requires Enabled(m, e)
  {
    match e
    case QueueWork(typed, installFolder, id, now, answer) =>
      m.(jobs := AfterQueue(m.jobs, typed, installFolder, id, now, answer), used := m.used + {id})
    case ResumeJob(id) => m.(jobs := AfterResume(m.jobs, id))
    case PauseJob(id) => m.(jobs := AfterPause(m.jobs, id))
    case CancelJob(id, discarded) => m.(jobs := AfterCancel(m.jobs, id, discarded))
    case RemoveJob(id) => m.(jobs := AfterRemove(m.jobs, id))
    case Restart => m.(jobs := AfterReconcile(m.jobs), run := None)
    case StartRun(id) => Started(m, id)
    case LocateArchives(located) => Located(m, m.run.value, located)
    case FetchArchive(check, fetch) => Fetched(m, m.run.value, check, fetch)
    case EnterInstalling(check) => InstallingEntered(m, m.run.value, check)
    case InstallArchives(installed) => InstallerAnswered(m, m.run.value, installed)
    case ConcludeRun => RunConcluded(m, m.run.value, m.run.value.pc.outcome)
    case SaveRunEnd => RunSaved(m, m.run.value)
  }

  /** The job and staging folder an event asks to be deleted, if any: a cancelled job's, or a run's that ended so. */
  function Discards(m: Machine, e: Event): Option<Job> {
    match e
    case CancelJob(id, _) => if Cancellable(m.jobs, id) then Some(m.jobs[id]) else None
    case ConcludeRun =>
      if m.run.Some? && m.run.value.pc.Conclude? && DiscardsAfter(m.run.value.pc.outcome)
      then Some(m.run.value.job) else None
    case _ => None
  }

  predicate DiscardsAfter(outcome: Outcome) {
    outcome == Stopped(CancelledError) || (outcome.Delivered? && outcome.local.InstalledAs?)
  }

  /** The archive whose download an event asks for, if any. */
  function Fetches(m: Machine, e: Event): Option<(JobId, nat)> {
    if e.FetchArchive? && e.check.None? && m.run.Some? && m.run.value.pc.Fetch?
    then Some((m.run.value.job.id, m.run.value.pc.index))
    else None
  }

  ghost predicate Runnable(m: Machine, es: seq<Event>)
    decreases |es|
  {
    es == [] || (Enabled(m, es[0]) && Runnable(Next(m, es[0]), es[1..]))
  }

  ghost function Run(m: Machine, es: seq<Event>): Machine
    requires Runnable(m, es)
    decreases |es|
  {
    if es == [] then m else Run(Next(m, es[0]), es[1..])
  }
}
