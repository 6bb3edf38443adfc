/** What every step of the delivery machine keeps. */
module DeliverySafety {
  import opened Wrappers
  import opened Text
  import opened NewestRelease
  import opened DeliveryJobs
  import opened DeliveryMachine

  /** The complete archives come first. */
  ghost predicate CompletePrefix(archives: seq<Archive>) {
    forall i, j | 0 <= i < j < |archives| && archives[j].complete :: archives[i].complete
  }

  /** The download ledger: whole archives in order, and the bytes they add up to. */
  ghost predicate Ledger(job: Job) {
    CompletePrefix(job.archives) && job.received == Completed(job.archives)
  }

  ghost predicate AllComplete(archives: seq<Archive>) {
    forall i | 0 <= i < |archives| :: archives[i].complete
  }

  ghost predicate JobOk(job: Job) {
    && IsWorkCode(job.workCode)
    && Ledger(job)
    && (job.installation.Some? <==> job.status.Installed? || job.status.NeedsReview?)
    && (job.installation.Some? ==> AllComplete(job.archives))
    && (job.status.Failed? ==> job.problem.Some?)
    && (job.status.Queued? || job.status.IsRunning() || job.status.Paused? ==> job.problem.None?)
  }

  ghost predicate StoreOk(m: Machine) {
    forall id | id in m.jobs :: m.jobs[id].id == id && id in m.used && JobOk(m.jobs[id])
  }

  /** A run agrees with the store until its end is being saved. */
  ghost predicate RunOk(m: Machine, r: Runner) {
    && r.job.id in m.jobs
    && var stored := m.jobs[r.job.id];
       && stored.status.IsRunning()
       && (!r.pc.SaveEnd? ==> r.job == stored)
       && match r.pc
          case Locate => stored.status.Downloading?
          case Fetch(index) =>
            stored.status.Downloading? && AllLocated(r.job.archives) && index < |r.job.archives|
            && !r.job.archives[index].complete && (forall i | 0 <= i < index :: r.job.archives[i].complete)
          case BeginInstall => stored.status.Downloading? && AllLocated(r.job.archives) && AllComplete(r.job.archives)
          case CallInstaller => stored.status.Installing? && AllLocated(r.job.archives) && AllComplete(r.job.archives)
          case Conclude(outcome) => outcome.Delivered? ==> AllComplete(r.job.archives)
          case SaveEnd =>
            r.job.workCode == stored.workCode && r.job.installFolder == stored.installFolder
            && r.job.archives == stored.archives && JobOk(r.job)
            && !r.job.status.IsRunning() && !r.job.status.Queued?
  }

  /** Only the run under way has a job that is downloading or installing. */
  ghost predicate OnlyRunRuns(m: Machine) {
    forall id | id in m.jobs && m.jobs[id].status.IsRunning() :: m.run.Some? && m.run.value.job.id == id
  }

  ghost predicate Inv(m: Machine) {
    StoreOk(m) && OnlyRunRuns(m) && (m.run.Some? ==> RunOk(m, m.run.value))
  }

  lemma {:induction false} CompletedAtMostTotal(archives: seq<Archive>)
    ensures Completed(archives) <= Total(archives)
    ensures AllComplete(archives) ==> Completed(archives) == Total(archives)
  {
    if archives != [] {
      CompletedAtMostTotal(archives[..|archives| - 1]);
    }
  }

  lemma {:induction false} NothingCompleted(archives: seq<Archive>)
    requires forall a | a in archives :: !a.complete
    ensures Completed(archives) == 0
  {
    if archives != [] {
      NothingCompleted(archives[..|archives| - 1]);
    }
  }

  lemma {:induction false} CompletingAddsItsSize(archives: seq<Archive>, i: nat)
    requires i < |archives| && !archives[i].complete
    ensures Completed(archives[i := archives[i].(complete := true)]) == Completed(archives) + archives[i].size
  {
    var after := archives[i := archives[i].(complete := true)];
    var n := |archives| - 1;
    if i == n {
      assert after[..n] == archives[..n];
    } else {
      CompletingAddsItsSize(archives[..n], i);
      assert after[..n] == archives[..n][i := archives[i].(complete := true)];
    }
  }

  lemma {:induction false} PathsKeepCompleted(archives: seq<Archive>, paths: seq<string>)
    requires |paths| == |archives|
    ensures Completed(WithPaths(archives, paths)) == Completed(archives)
  {
    if archives != [] {
      var n := |archives| - 1;
      PathsKeepCompleted(archives[..n], paths[..n]);
      assert WithPaths(archives, paths)[..n] == WithPaths(archives[..n], paths[..n]);
    }
  }

  lemma {:induction false} FetchFromFindsTheFirst(archives: seq<Archive>, index: nat)
    requires index <= |archives| && forall i | 0 <= i < index :: archives[i].complete
    ensures match FetchFrom(archives, index)
      case Fetch(next) =>
        next < |archives| && !archives[next].complete && forall i | 0 <= i < next :: archives[i].complete
      case BeginInstall => AllComplete(archives)
      case _ => false
    decreases |archives| - index
  {
    if index < |archives| && archives[index].complete {
      FetchFromFindsTheFirst(archives, index + 1);
    }
  }

  lemma {:induction false} SameCodeIsWorkCode(code: string, other: string)
    requires IsWorkCode(code) && SameIgnoringCase(code, other)
    ensures IsWorkCode(other)
  {
    assert |Lower(code)| == |code| && |Lower(other)| == |other|;
    forall i | 0 <= i < |other|
      ensures IsAlphanumeric(other[i])
    {
      assert Lower(code)[i] == Lower(other)[i];
      assert IsAlphanumeric(code[i]);
    }
  }

  /** A job that is not running may be put in the store at any time. */
  lemma {:induction false} PutKeepsInv(m: Machine, job: Job)
    requires Inv(m) && JobOk(job) && !job.status.IsRunning() && job.id in m.used
    requires job.id in m.jobs ==> !m.jobs[job.id].status.IsRunning()
    ensures Inv(m.(jobs := m.jobs[job.id := job]))
  {
  }

  lemma {:induction false} TakingAnIdKeepsInv(m: Machine, id: JobId)
    requires Inv(m)
    ensures Inv(m.(used := m.used + {id}))
  {
  }

  lemma {:induction false} NewJobIsOk(code: string, installFolder: string, id: JobId, now: nat, answer: CatalogAnswer)
    requires IsWorkCode(code) && AnswersFor(answer, code) && answer.Listed? && answer.release.Ok?
    ensures JobOk(NewJob(id, answer.code, answer.release.value.archives, installFolder, now))
  {
    SameCodeIsWorkCode(code, answer.code);
    var roms := answer.roms;
    if roms != [] {
      var k :| IsNewest(roms, k) && answer.release == ReleaseWith(roms, k);
      ReleaseStartsEmpty(Members(roms, k));
    }
    NothingCompleted(answer.release.value.archives);
  }

  lemma {:induction false} QueueKeepsInv(m: Machine, typed: string, installFolder: string, id: JobId, now: nat,
      answer: CatalogAnswer)
    requires Inv(m) && id !in m.used && AnswersFor(answer, Trim(typed))
    ensures Inv(m.(jobs := AfterQueue(m.jobs, typed, installFolder, id, now, answer), used := m.used + {id}))
  {
    TakingAnIdKeepsInv(m, id);
    var code := Trim(typed);
    if IsWorkCode(code) && answer.Listed? && answer.release.Ok? {
      NewJobIsOk(code, installFolder, id, now, answer);
      PutKeepsInv(m.(used := m.used + {id}),
        NewJob(id, answer.code, answer.release.value.archives, installFolder, now));
    }
  }

  lemma {:induction false} ResumeKeepsInv(m: Machine, id: JobId)
    requires Inv(m)
    ensures Inv(m.(jobs := AfterResume(m.jobs, id)))
  {
    if id in m.jobs && (m.jobs[id].status.Paused? || m.jobs[id].status.Failed?) {
      PutKeepsInv(m, m.jobs[id].(status := Queued, problem := None, detail := None));
    }
  }

  lemma {:induction false} PauseKeepsInv(m: Machine, id: JobId)
    requires Inv(m)
    ensures Inv(m.(jobs := AfterPause(m.jobs, id)))
  {
    if id in m.jobs && m.jobs[id].status.Queued? {
      PutKeepsInv(m, m.jobs[id].(status := Paused));
    }
  }

  lemma {:induction false} CancelKeepsInv(m: Machine, id: JobId, discarded: bool)
    requires Inv(m)
    ensures Inv(m.(jobs := AfterCancel(m.jobs, id, discarded)))
  {
    if Cancellable(m.jobs, id) {
      PutKeepsInv(m, m.jobs[id].(status := Cancelled));
    }
  }

  lemma {:induction false} RemoveKeepsInv(m: Machine, id: JobId)
    requires Inv(m)
    ensures Inv(m.(jobs := AfterRemove(m.jobs, id)))
  {
  }

  lemma {:induction false} RestartKeepsInv(m: Machine)
    requires Inv(m)
    ensures Inv(m.(jobs := AfterReconcile(m.jobs), run := None))
  {
  }

  lemma {:induction false} StartKeepsInv(m: Machine, id: JobId)
    requires Inv(m) && m.run.None?
    ensures Inv(Started(m, id))
  {
    if id in m.jobs && m.jobs[id].status.Queued? {
      FetchFromFindsTheFirst(m.jobs[id].archives, 0);
    }
  }

  lemma {:induction false} LocateKeepsInv(m: Machine, r: Runner, located: Result<seq<string>, DeliveryError>)
    requires Inv(m) && m.run == Some(r) && r.pc.Locate?
    ensures Inv(Located(m, r, located))
  {
    if located.Ok? && |located.value| == |r.job.archives| {
      PathsKeepCompleted(r.job.archives, located.value);
      FetchFromFindsTheFirst(WithPaths(r.job.archives, located.value), 0);
    }
  }

  lemma {:induction false} FetchKeepsInv(m: Machine, r: Runner, check: Option<DeliveryError>,
      fetch: Option<DeliveryError>)
    requires Inv(m) && m.run == Some(r) && r.pc.Fetch? && r.pc.index < |r.job.archives|
    ensures Inv(Fetched(m, r, check, fetch))
  {
    if check.None? && fetch.None? {
      CompletingAddsItsSize(r.job.archives, r.pc.index);
      var archives, i := r.job.archives, r.pc.index;
      FetchFromFindsTheFirst(archives[i := archives[i].(complete := true)], i + 1);
    }
  }

  lemma {:induction false} EnterInstallingKeepsInv(m: Machine, r: Runner, check: Option<DeliveryError>)
    requires Inv(m) && m.run == Some(r) && r.pc.BeginInstall?
    ensures Inv(InstallingEntered(m, r, check))
  {
  }

  lemma {:induction false} ConcludeKeepsInv(m: Machine, r: Runner, outcome: Outcome)
    requires Inv(m) && m.run == Some(r) && r.pc == Conclude(outcome)
    ensures Inv(RunConcluded(m, r, outcome))
  {
  }

  lemma {:induction false} SaveEndKeepsInv(m: Machine, r: Runner)
    requires Inv(m) && m.run == Some(r) && r.pc.SaveEnd?
    ensures Inv(RunSaved(m, r))
  {
  }

  /** Every service call, every step of a run and a restart keep the invariant. */
  lemma {:induction false} StepKeepsInv(m: Machine, e: Event)
    requires Inv(m) && Enabled(m, e)
    ensures Inv(Next(m, e))
  {
    match e {
      case QueueWork(typed, installFolder, id, now, answer) => QueueKeepsInv(m, typed, installFolder, id, now, answer);
      case ResumeJob(id) => ResumeKeepsInv(m, id);
      case PauseJob(id) => PauseKeepsInv(m, id);
      case CancelJob(id, discarded) => CancelKeepsInv(m, id, discarded);
      case RemoveJob(id) => RemoveKeepsInv(m, id);
      case Restart => RestartKeepsInv(m);
      case StartRun(id) => StartKeepsInv(m, id);
      case LocateArchives(located) => LocateKeepsInv(m, m.run.value, located);
      case FetchArchive(check, fetch) => FetchKeepsInv(m, m.run.value, check, fetch);
      case EnterInstalling(check) => EnterInstallingKeepsInv(m, m.run.value, check);
      case InstallArchives(_) =>
      case ConcludeRun => ConcludeKeepsInv(m, m.run.value, m.run.value.pc.outcome);
      case SaveRunEnd => SaveEndKeepsInv(m, m.run.value);
    }
  }

  lemma {:induction false} RunKeepsInv(m: Machine, es: seq<Event>)
    requires Inv(m) && Runnable(m, es)
    ensures Inv(Run(m, es))
    decreases |es|
  {
    if es != [] {
      StepKeepsInv(m, es[0]);
      RunKeepsInv(Next(m, es[0]), es[1..]);
    }
  }
}
