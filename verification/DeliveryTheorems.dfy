/** What the delivery machine promises over whole runs. */
module DeliveryTheorems {
  import opened Wrappers
  import opened Text
  import opened NewestRelease
  import opened DeliveryJobs
  import opened DeliveryMachine
  import opened DeliverySafety

  // The record and the download ledger of each job.

  /** In every reachable store each job's record is consistent and its ledger adds up. */
  lemma {:induction false} StoredJobsAreConsistent(es: seq<Event>, id: JobId)
    requires Runnable(EMPTY, es) && id in Run(EMPTY, es).jobs
    ensures var job := Run(EMPTY, es).jobs[id];
      && CompletePrefix(job.archives)
      && job.received == Completed(job.archives) <= Total(job.archives)
      && (job.installation.Some? <==> job.status.Installed? || job.status.NeedsReview?)
      && (job.installation.Some? ==> job.received == Total(job.archives))
      && (job.status.Failed? ==> job.problem.Some?)
      && (job.status.Queued? || job.status.IsRunning() || job.status.Paused? ==> job.problem.None?)
  {
    RunKeepsInv(EMPTY, es);
    CompletedAtMostTotal(Run(EMPTY, es).jobs[id].archives);
  }

  /** Whether an event saves archive `i` of a job as downloaded. */
  predicate SavesArchive(m: Machine, e: Event, id: JobId, i: nat) {
    Fetches(m, e) == Some((id, i)) && e.fetch.None?
  }

  /** A run under way holds the archives its job is stored with. */
  lemma {:induction false} RunHoldsTheStoredArchives(m: Machine)
    requires Inv(m) && m.run.Some?
    ensures m.run.value.job.id in m.jobs && m.jobs[m.run.value.job.id].archives == m.run.value.job.archives
  {
  }

  /** A job's archives only change by becoming complete, each exactly when its download is saved. */
  ghost predicate ArchivesFollow(m: Machine, e: Event, after: Machine, id: JobId) {
    id in m.jobs && id in after.jobs ==>
      var before, now := m.jobs[id].archives, after.jobs[id].archives;
      && |now| == |before|
      && forall i | 0 <= i < |now| :: (now[i].complete <==> before[i].complete || SavesArchive(m, e, id, i))
  }

  lemma {:induction false} ServiceKeepsArchives(m: Machine, e: Event, id: JobId)
    requires Inv(m) && Enabled(m, e) && !IsRunEvent(e)
    ensures ArchivesFollow(m, e, Next(m, e), id)
  {
  }

  lemma {:induction false} RunFollowsArchives(m: Machine, e: Event, id: JobId)
    requires Inv(m) && Enabled(m, e) && IsRunEvent(e)
    ensures ArchivesFollow(m, e, Next(m, e), id)
  {
    hide Completed, FetchFrom, AllLocated, Total, CompletePrefix;
    if m.run.Some? {
      RunHoldsTheStoredArchives(m);
    }
  }

  /** Jobs come by being queued under a new identifier and go by being removed. */
  lemma {:induction false} StepComesAndGoes(m: Machine, e: Event)
    requires Inv(m) && Enabled(m, e)
    ensures m.used <= Next(m, e).used
    ensures forall id | id in Next(m, e).jobs :: id in m.jobs || id !in m.used
    ensures forall id | id in m.jobs :: id in Next(m, e).jobs || e == RemoveJob(id)
  {
    if m.run.Some? {
      RunHoldsTheStoredArchives(m);
    }
  }

  /** Archive `i` of a job is settled once it is saved as complete, or its job is gone for good. */
  predicate Settled(m: Machine, id: JobId, i: nat) {
    id in m.used && (id in m.jobs ==> i < |m.jobs[id].archives| && m.jobs[id].archives[i].complete)
  }

  /** An archive is fetched only while its job is stored and it is not complete. */
  lemma {:induction false} FetchesOnlyWhatIsMissing(m: Machine, e: Event, id: JobId, i: nat)
    requires Inv(m) && Enabled(m, e) && Fetches(m, e) == Some((id, i))
    ensures id in m.jobs && i < |m.jobs[id].archives| && !m.jobs[id].archives[i].complete
  {
    RunHoldsTheStoredArchives(m);
  }

  lemma {:induction false} SettledStays(m: Machine, e: Event, id: JobId, i: nat)
    requires Inv(m) && Enabled(m, e) && (Settled(m, id, i) || SavesArchive(m, e, id, i))
    ensures Settled(Next(m, e), id, i)
  {
    StepComesAndGoes(m, e);
    if IsRunEvent(e) {
      RunFollowsArchives(m, e, id);
    } else {
      ServiceKeepsArchives(m, e, id);
    }
    if SavesArchive(m, e, id, i) {
      FetchesOnlyWhatIsMissing(m, e, id, i);
    }
  }

  lemma {:induction false} OnlySavingSettles(m: Machine, e: Event, id: JobId, i: nat)
    requires Inv(m) && Enabled(m, e) && Settled(Next(m, e), id, i) && id in Next(m, e).jobs
    ensures id in m.jobs && (Settled(m, id, i) || SavesArchive(m, e, id, i))
  {
    StepComesAndGoes(m, e);
    if IsRunEvent(e) {
      RunFollowsArchives(m, e, id);
    } else {
      if id !in m.jobs {
        QueuedJobHasNothing(m, e, id);
      }
      ServiceKeepsArchives(m, e, id);
    }
  }

  lemma {:induction false} QueuedJobHasNothing(m: Machine, e: Event, id: JobId)
    requires Inv(m) && Enabled(m, e) && !IsRunEvent(e) && id !in m.jobs && id in Next(m, e).jobs
    ensures forall a | a in Next(m, e).jobs[id].archives :: !a.complete
  {
    var roms := e.answer.roms;
    if roms != [] {
      var k :| IsNewest(roms, k) && e.answer.release == ReleaseWith(roms, k);
      ReleaseStartsEmpty(Members(roms, k));
    }
  }

  ghost function SavedFetches(m: Machine, es: seq<Event>, id: JobId, i: nat): nat
    requires Runnable(m, es)
    decreases |es|
  {
    if es == [] then 0
    else (if SavesArchive(m, es[0], id, i) then 1 else 0) + SavedFetches(Next(m, es[0]), es[1..], id, i)
  }

  lemma {:induction false} SettledIsNotSavedAgain(m: Machine, es: seq<Event>, id: JobId, i: nat)
    requires Inv(m) && Runnable(m, es) && Settled(m, id, i)
    ensures SavedFetches(m, es, id, i) == 0 && Settled(Run(m, es), id, i)
    decreases |es|
  {
    if es != [] {
      StepKeepsInv(m, es[0]);
      SettledStays(m, es[0], id, i);
      if Fetches(m, es[0]) == Some((id, i)) {
        FetchesOnlyWhatIsMissing(m, es[0], id, i);
      }
      SettledIsNotSavedAgain(Next(m, es[0]), es[1..], id, i);
    }
  }

  /**
   Once an archive is saved as complete it is never asked for again, whatever pauses,
   failures and restarts follow.
   */
  lemma {:induction false} CompleteIsNeverFetchedAgain(m: Machine, es: seq<Event>, e: Event, id: JobId, i: nat)
    requires Inv(m) && Runnable(m, es) && Enabled(Run(m, es), e)
    requires id in m.jobs && i < |m.jobs[id].archives| && m.jobs[id].archives[i].complete
    ensures Fetches(Run(m, es), e) != Some((id, i))
  {
    SettledIsNotSavedAgain(m, es, id, i);
    RunKeepsInv(m, es);
    if Fetches(Run(m, es), e) == Some((id, i)) {
      FetchesOnlyWhatIsMissing(Run(m, es), e, id, i);
    }
  }

  lemma {:induction false} SavedAtMostOnce(m: Machine, es: seq<Event>, id: JobId, i: nat)
    requires Inv(m) && Runnable(m, es)
    ensures SavedFetches(m, es, id, i) <= 1
    ensures SavedFetches(m, es, id, i) == 1 ==> Settled(Run(m, es), id, i)
    ensures Settled(Run(m, es), id, i) && id in Run(m, es).jobs ==>
              SavedFetches(m, es, id, i) == 1 || Settled(m, id, i)
    decreases |es|
  {
    if es != [] {
      StepKeepsInv(m, es[0]);
      if Settled(Next(m, es[0]), id, i) {
        SettledIsNotSavedAgain(Next(m, es[0]), es[1..], id, i);
        StepComesAndGoes(m, es[0]);
        if id in Run(m, es).jobs {
          JobsOnlyGo(Next(m, es[0]), es[1..], id);
          OnlySavingSettles(m, es[0], id, i);
        }
      } else {
        if SavesArchive(m, es[0], id, i) {
          SettledStays(m, es[0], id, i);
        }
        SavedAtMostOnce(Next(m, es[0]), es[1..], id, i);
        if Settled(m, id, i) {
          SettledStays(m, es[0], id, i);
        }
      }
    }
  }

  /** A used identifier never gets a second job. */
  lemma {:induction false} JobsOnlyGo(m: Machine, es: seq<Event>, id: JobId)
    requires Inv(m) && Runnable(m, es) && id in m.used && id in Run(m, es).jobs
    ensures id in m.jobs
    decreases |es|
  {
    if es != [] {
      StepKeepsInv(m, es[0]);
      StepComesAndGoes(m, es[0]);
      JobsOnlyGo(Next(m, es[0]), es[1..], id);
    }
  }

  /** An archive of a stored job is complete exactly when one download of it was saved, and never is a second one. */
  lemma {:induction false} EachArchiveIsSavedOnce(es: seq<Event>, id: JobId, i: nat)
    requires Runnable(EMPTY, es)
    ensures SavedFetches(EMPTY, es, id, i) <= 1
    ensures id in Run(EMPTY, es).jobs && i < |Run(EMPTY, es).jobs[id].archives| ==>
              (Run(EMPTY, es).jobs[id].archives[i].complete <==> SavedFetches(EMPTY, es, id, i) == 1)
  {
    RunKeepsInv(EMPTY, es);
    SavedAtMostOnce(EMPTY, es, id, i);
  }

  // Who changes a job, and when.

  /**
   While a job is stored as downloading or installing, only its own run or a restart
   changes it, and nothing removes it.
   */
  lemma {:induction false} RunningJobIsLeftAlone(m: Machine, e: Event, id: JobId)
    requires Inv(m) && Enabled(m, e) && id in m.jobs && m.jobs[id].status.IsRunning()
    ensures id in Next(m, e).jobs
    ensures Next(m, e).jobs[id] != m.jobs[id] ==>
              e.Restart? || (IsRunEvent(e) && m.run.Some? && m.run.value.job.id == id)
  {
    if m.run.Some? {
      RunHoldsTheStoredArchives(m);
    }
  }

  /** The installer is only called for a job stored as installing, with every archive located, complete and counted. */
  lemma {:induction false} InstallerGetsWholeReleases(m: Machine, e: Event)
    requires Inv(m) && Enabled(m, e) && e.InstallArchives?
    ensures var job := m.run.value.job;
      && job.id in m.jobs && m.jobs[job.id] == job && job.status.Installing?
      && AllLocated(job.archives) && AllComplete(job.archives) && job.received == Total(job.archives)
  {
    CompletedAtMostTotal(m.run.value.job.archives);
  }

  lemma {:induction false} DoneStaysInStep(m: Machine, e: Event, id: JobId)
    requires Inv(m) && Enabled(m, e) && id in m.jobs && IsDone(m.jobs[id])
    ensures id in Next(m, e).jobs ==> Next(m, e).jobs[id] == m.jobs[id]
  {
    if m.run.Some? {
      RunHoldsTheStoredArchives(m);
    }
  }

  /** A job that is done is never written again: from then on it is the same record or gone. */
  lemma {:induction false} DoneIsForGood(m: Machine, es: seq<Event>, id: JobId)
    requires Inv(m) && Runnable(m, es) && id in m.jobs && IsDone(m.jobs[id])
    ensures id in Run(m, es).jobs ==> Run(m, es).jobs[id] == m.jobs[id]
    decreases |es|
  {
    if es != [] {
      StepKeepsInv(m, es[0]);
      StepComesAndGoes(m, es[0]);
      DoneStaysInStep(m, es[0], id);
      if id in Next(m, es[0]).jobs {
        DoneIsForGood(Next(m, es[0]), es[1..], id);
      } else if id in Run(m, es).jobs {
        JobsOnlyGo(Next(m, es[0]), es[1..], id);
      }
    }
  }

  // A run ends, and takes its job out of the queue.

  /** How many steps a run can still take. */
  function Remaining(m: Machine): nat {
    if m.run.None? then 0
    else
      var r := m.run.value;
      match r.pc
      case Locate => |r.job.archives| + 5
      case Fetch(index) => (if index < |r.job.archives| then |r.job.archives| - index else 0) + 4
      case BeginInstall => 4
      case CallInstaller => 3
      case Conclude(_) => 2
      case SaveEnd => 1
  }

  lemma {:induction false} FetchFromIsLater(archives: seq<Archive>, index: nat)
    ensures FetchFrom(archives, index).BeginInstall?
      || (FetchFrom(archives, index).Fetch? && index <= FetchFrom(archives, index).index < |archives|)
    decreases |archives| - index
  {
    if index < |archives| && archives[index].complete {
      FetchFromIsLater(archives, index + 1);
    }
  }

  lemma {:induction false} FetchingAdvances(m: Machine, r: Runner, check: Option<DeliveryError>,
      fetch: Option<DeliveryError>)
    requires m.run == Some(r) && r.pc.Fetch? && r.pc.index < |r.job.archives|
    ensures Remaining(Fetched(m, r, check, fetch)) < Remaining(m)
  {
    FetchFromIsLater(r.job.archives[r.pc.index := r.job.archives[r.pc.index].(complete := true)], r.pc.index + 1);
  }

  lemma {:induction false} LocatingAdvances(m: Machine, r: Runner, located: Result<seq<string>, DeliveryError>)
    requires m.run == Some(r) && r.pc.Locate?
    ensures Remaining(Located(m, r, located)) < Remaining(m)
  {
    if located.Ok? && |located.value| == |r.job.archives| {
      FetchFromIsLater(WithPaths(r.job.archives, located.value), 0);
    }
  }

  /** Every step of a run under way brings it closer to its end, so it takes at most the archives' number plus five. */
  lemma {:induction false} RunAdvances(m: Machine, e: Event)
    requires Inv(m) && Enabled(m, e) && IsRunEvent(e) && !e.StartRun?
    ensures Remaining(Next(m, e)) < Remaining(m) <= |m.run.value.job.archives| + 5
  {
    match e {
      case LocateArchives(located) => LocatingAdvances(m, m.run.value, located);
      case FetchArchive(check, fetch) => FetchingAdvances(m, m.run.value, check, fetch);
      case _ =>
    }
  }

  /** A run under way can always take a step. */
  lemma {:induction false} RunIsNeverStuck(m: Machine) returns (e: Event)
    requires Inv(m) && m.run.Some?
    ensures Enabled(m, e) && IsRunEvent(e) && !e.StartRun?
  {
    e := match m.run.value.pc
      case Locate => LocateArchives(Err(PausedError))
      case Fetch(_) => FetchArchive(None, None)
      case BeginInstall => EnterInstalling(None)
      case CallInstaller => InstallArchives(Err(PausedError))
      case Conclude(_) => ConcludeRun
      case SaveEnd => SaveRunEnd;
  }

  /** Unless the launcher restarts, a run ends by saving its job, which is then neither queued nor running. */
  lemma {:induction false} RunEndsOutOfTheQueue(m: Machine, e: Event)
    requires Inv(m) && Enabled(m, e) && m.run.Some? && Next(m, e).run.None?
    ensures e.Restart? || (e.SaveRunEnd? && m.run.value.job.id in Next(m, e).jobs
      && var job := Next(m, e).jobs[m.run.value.job.id]; !job.status.Queued? && !job.status.IsRunning())
  {
  }
}
