/** What runs of the delivery machine come to: how each outcome is stored, and where a job goes on. */
module DeliveryOutcomes {
  import opened Wrappers
  import opened Text
  import opened NewestRelease
  import opened DeliveryJobs
  import opened DeliveryMachine
  import opened DeliverySafety
  import opened DeliveryTheorems
  import opened DeliveryTrails

  // How a run's end is stored.

  /** An event that ends the work of a run with an error. */
  predicate StopsWith(m: Machine, e: Event, error: DeliveryError) {
    match e
    case LocateArchives(Err(cause)) => cause == error
    case LocateArchives(Ok(paths)) =>
      && m.run.Some? && |paths| != |m.run.value.job.archives|
      && error == ProblemError(NotInArchive, "the DLA archive does not hold every file of this release")
    case FetchArchive(Some(cause), _) => cause == error
    case FetchArchive(None, Some(cause)) => cause == error
    case EnterInstalling(Some(cause)) => cause == error
    case InstallArchives(Err(cause)) => cause == error
    case _ => false
  }

  /** Events beside a run: calls of the service. */
  ghost predicate AreCalls(es: seq<Event>) {
    forall e | e in es :: !IsRunEvent(e) && !e.Restart?
  }

  lemma {:induction false} CallLeavesRun(m: Machine, e: Event)
    requires Inv(m) && Enabled(m, e) && !IsRunEvent(e) && !e.Restart? && m.run.Some?
    ensures var id := m.run.value.job.id;
      && Next(m, e).run == m.run && id in m.jobs && id in Next(m, e).jobs && Next(m, e).jobs[id] == m.jobs[id]
  {
    RunHoldsTheStoredArchives(m);
    hide Ledger, CompletePrefix, AllLocated, AllComplete, IsWorkCode;
  }

  lemma {:induction false} CallsLeaveRun(m: Machine, es: seq<Event>)
    requires Inv(m) && Runnable(m, es) && AreCalls(es) && m.run.Some?
    ensures var id := m.run.value.job.id;
      && Run(m, es).run == m.run && id in m.jobs && id in Run(m, es).jobs && Run(m, es).jobs[id] == m.jobs[id]
    ensures Inv(Run(m, es))
    decreases |es|
  {
    hide Inv, Next, Enabled;
    if es != [] {
      StepKeepsInv(m, es[0]);
      CallLeavesRun(m, es[0]);
      CallsLeaveRun(Next(m, es[0]), es[1..]);
    } else {
      RunHoldsTheStoredArchives(m);
    }
  }

  /** A run ends after an event: it concludes and saves, with calls of the service in between. */
  ghost predicate Ends(m: Machine, e: Event, calls: seq<Event>, more: seq<Event>, after: Machine) {
    && Enabled(m, e) && AreCalls(calls) && Runnable(Next(m, e), calls)
    && var concluding := Run(Next(m, e), calls);
      && Enabled(concluding, ConcludeRun) && AreCalls(more) && Runnable(Next(concluding, ConcludeRun), more)
      && var ending := Run(Next(concluding, ConcludeRun), more);
        Enabled(ending, SaveRunEnd) && after == Next(ending, SaveRunEnd)
  }

  /** What a run's end leaves of its job: all but its status, its problem, its detail and its installation. */
  predicate KeepsRest(before: Job, now: Job) {
    && now.id == before.id && now.workCode == before.workCode && now.archives == before.archives
    && now.installFolder == before.installFolder && now.received == before.received && now.createdAt == before.createdAt
  }

  lemma {:induction false} EndIsStored(m: Machine, e: Event, calls: seq<Event>, more: seq<Event>, after: Machine,
      outcome: Outcome)
    requires Inv(m) && m.run.Some? && Ends(m, e, calls, more, after)
    requires Next(m, e) == m.(run := Some(m.run.value.(pc := Conclude(outcome))))
    ensures var job := m.run.value.job;
      && after.run.None? && job.id in m.jobs && job.id in after.jobs && m.jobs[job.id] == job
      && after.jobs[job.id] == Concluded(job, outcome)
  {
    RunEndsAs(m, e);
    StepKeepsInv(m, e);
    var m1 := Next(m, e);
    hide Inv, Next, Enabled;
    CallsLeaveRun(m1, calls);
    var m2 := Run(m1, calls);
    ConcludingIs(m2, m.run.value.(pc := Conclude(outcome)), outcome);
    StepKeepsInv(m2, ConcludeRun);
    CallsLeaveRun(Next(m2, ConcludeRun), more);
    SavingIs(Run(Next(m2, ConcludeRun), more), Runner(Concluded(m.run.value.job, outcome), SaveEnd));
    ConcludedIsItsOwn(m.run.value.job, outcome);
  }

  lemma {:induction false} RunEndsAs(m: Machine, e: Event)
    requires Inv(m) && m.run.Some? && Enabled(m, e) && Next(m, e).run.Some? && Next(m, e).run.value.pc.Conclude?
    requires Next(m, e).jobs == m.jobs && Next(m, e).run.value.job == m.run.value.job
    ensures m.run.value.job.id in m.jobs && m.jobs[m.run.value.job.id] == m.run.value.job
  {
    StepKeepsInv(m, e);
    assert RunOk(Next(m, e), Next(m, e).run.value);
    hide Next, Enabled;
  }

  lemma {:induction false} ConcludingIs(m: Machine, r: Runner, outcome: Outcome)
    requires m.run == Some(r) && r.pc == Conclude(outcome)
    ensures Enabled(m, ConcludeRun) && Next(m, ConcludeRun)
         == m.(run := Some(Runner(Concluded(r.job, outcome), SaveEnd)))
  {
    hide Concluded;
  }

  lemma {:induction false} SavingIs(m: Machine, r: Runner)
    requires m.run == Some(r) && r.pc.SaveEnd?
    ensures Enabled(m, SaveRunEnd) && Next(m, SaveRunEnd).run.None?
    ensures r.job.id in Next(m, SaveRunEnd).jobs && Next(m, SaveRunEnd).jobs[r.job.id] == r.job
  {
  }

  lemma {:induction false} ConcludedIsItsOwn(job: Job, outcome: Outcome)
    ensures Concluded(job, outcome).id == job.id
  {
  }

  /**
   A run that stops with an error is stored as that error asks, whatever calls come in
   between: paused, cancelled, or failed with exactly its problem and detail, and with
   the archives and the bytes it had saved last.
   */
  lemma {:induction false} StoppedRunIsStored(m: Machine, e: Event, error: DeliveryError, calls: seq<Event>,
      more: seq<Event>, after: Machine)
    requires Inv(m) && m.run.Some? && StopsWith(m, e, error) && Ends(m, e, calls, more, after)
    ensures var id := m.run.value.job.id;
      && after.run.None? && id in m.jobs && id in after.jobs && var before, now := m.jobs[id], after.jobs[id];
        && KeepsRest(before, now) && now.installation == None
        && match error
           case PausedError => now.status == Paused && now.problem == None && now.detail == before.detail
           case CancelledError => now.status == Cancelled && now.problem == None && now.detail == before.detail
           case ProblemError(problem, detail) =>
             now.status == Failed && now.problem == Some(problem) && now.detail == Some(detail)
           case PersistenceError(text) =>
             now.status == Failed && now.problem == Some(Unavailable)
             && now.detail == Some("delivery persistence failed: " + text)
  {
    StoppingIs(m, e, error);
    EndIsStored(m, e, calls, more, after, Stopped(error));
    RunningHasNoProblem(m);
    hide Inv, Next, Enabled;
  }

  lemma {:induction false} StoppingIs(m: Machine, e: Event, error: DeliveryError)
    requires m.run.Some? && Enabled(m, e) && StopsWith(m, e, error)
    ensures Next(m, e) == m.(run := Some(m.run.value.(pc := Conclude(Stopped(error)))))
  {
    hide FetchFrom, WithPaths, Completed;
  }

  lemma {:induction false} RunningHasNoProblem(m: Machine)
    requires Inv(m) && m.run.Some?
    ensures var id := m.run.value.job.id;
      id in m.jobs && m.jobs[id].problem == None && m.jobs[id].installation == None
  {
  }

  /** A run that ends with an installation is stored as installed, or in review for the reason given, with that one. */
  lemma {:induction false} DeliveredRunIsStored(m: Machine, local: LocalOutcome, calls: seq<Event>, more: seq<Event>,
      after: Machine)
    requires Inv(m) && m.run.Some? && Ends(m, InstallArchives(Ok(local)), calls, more, after)
    ensures var id := m.run.value.job.id;
      && after.run.None? && id in m.jobs && id in after.jobs && var before, now := m.jobs[id], after.jobs[id];
        && KeepsRest(before, now) && now.problem == None
        && match local
           case InstalledAs(n) => now.status == Installed && now.installation == Some(n) && now.detail == before.detail
           case ReviewOf(n, reason) =>
             now.status == NeedsReview && now.installation == Some(n) && now.detail == Some(reason)
  {
    EndIsStored(m, InstallArchives(Ok(local)), calls, more, after, Delivered(local));
    RunningHasNoProblem(m);
    hide Inv, Next, Enabled;
  }

  /** Such an end is always at hand. */
  lemma {:induction false} EndIsAtHand(m: Machine, e: Event, outcome: Outcome) returns (after: Machine)
    requires Inv(m) && m.run.Some? && Enabled(m, e)
    requires Next(m, e) == m.(run := Some(m.run.value.(pc := Conclude(outcome))))
    ensures Ends(m, e, [], [], after)
  {
    var m1 := Next(m, e);
    ConcludingIs(m1, m1.run.value, outcome);
    SavingIs(Next(m1, ConcludeRun), Next(m1, ConcludeRun).run.value);
    hide Inv, Next, Enabled;
    after := Next(Next(m1, ConcludeRun), SaveRunEnd);
  }

  // Where a job goes on.

  /** The first archive that is not complete, if any. */
  predicate IsFirstMissing(archives: seq<Archive>, k: nat) {
    k < |archives| && !archives[k].complete && forall i | 0 <= i < k :: archives[i].complete
  }

  /** A job under way goes on where it was: it locates its archives, fetches the first missing one, or installs. */
  predicate GoesOn(r: Runner) {
    match r.pc
    case Locate => exists i | 0 <= i < |r.job.archives| :: r.job.archives[i].remotePath == None
    case Fetch(k) => IsFirstMissing(r.job.archives, k) && forall a | a in r.job.archives :: a.remotePath.Some?
    case BeginInstall => forall a | a in r.job.archives :: a.complete && a.remotePath.Some?
    case _ => false
  }

  /** A queued job that is started is downloading without a problem and goes on; any other is left alone. */
  lemma {:induction false} QueuedJobStarts(m: Machine, id: JobId)
    requires Inv(m) && m.run.None?
    ensures Enabled(m, StartRun(id)) && var after := Next(m, StartRun(id));
      if id in m.jobs && m.jobs[id].status == Status.Queued
      then
        var job := m.jobs[id].(status := Downloading, problem := None, detail := None);
        after.jobs == m.jobs[id := job] && after.run.Some? && after.run.value.job == job && GoesOn(after.run.value)
      else after == m
  {
    if id in m.jobs {
      FetchFromFindsTheFirst(m.jobs[id].archives, 0);
    }
    hide FetchFrom, Ledger, CompletePrefix, IsWorkCode;
  }

  /**
   A paused or failed job that is resumed, and started, is downloading without a problem,
   has the archives it had, and goes on with the first that is not complete: it locates
   them if one has no path yet, and installs if all are complete.
   */
  lemma {:induction false} ResumedJobGoesOn(m: Machine, id: JobId)
    requires Inv(m) && m.run.None? && id in m.jobs && (m.jobs[id].status.Paused? || m.jobs[id].status.Failed?)
    ensures Enabled(m, ResumeJob(id)) && Enabled(Next(m, ResumeJob(id)), StartRun(id))
    ensures var after := Next(Next(m, ResumeJob(id)), StartRun(id));
      && id in after.jobs && after.run.Some? && after.run.value.job == after.jobs[id]
      && after.jobs[id] == m.jobs[id].(status := Downloading, problem := None, detail := None)
      && GoesOn(after.run.value)
  {
    StepKeepsInv(m, ResumeJob(id));
    QueuedJobStarts(Next(m, ResumeJob(id)), id);
    hide Inv, Started, GoesOn, FetchFrom;
  }

  // A delivery in which nothing fails.

  /** The job of a request that was installed, told by the request and the paths its archives were found at. */
  ghost predicate IsDelivered(job: Job, w: Wish, id: JobId, installation: nat) {
    && job.id == id && job.workCode == w.code && job.installFolder == w.folder && job.status == Installed
    && job.installation == Some(installation) && job.problem == None && job.received == Total(job.archives)
    && |job.archives| == |w.release.archives| == |w.paths|
    && forall i | 0 <= i < |job.archives| :: var archive := w.release.archives[i];
      job.archives[i] == Archive(archive.fileName, archive.size, archive.sha256, Some(w.paths[i]), true)
  }

  lemma {:induction false} FinishedIsDelivered(w: Wish, id: JobId, installation: nat)
    requires w.Fresh()
    ensures IsDelivered(w.Holding(id, Installed, |w.release.archives|).(installation := Some(installation)), w, id,
                        installation)
    ensures w.Holding(id, Installed, |w.release.archives|).id == id
  {
    CompletedAtMostTotal(w.Got(|w.release.archives|));
    hide Completed, Total;
  }

  lemma {:induction false} InstallingEnds(w: Wish, m: Machine, id: JobId, installation: nat)
    requires var job := w.Holding(id, Status.Installing, |w.release.archives|);
      m.run == Some(Runner(job, CallInstaller))
    ensures var e := InstallArchives(Ok(InstalledAs(installation))); var after := Next(m, e);
      && Enabled(m, e) && Enabled(after, ConcludeRun) && Enabled(Next(after, ConcludeRun), SaveRunEnd)
      && Next(Next(after, ConcludeRun), SaveRunEnd) == Put(m,
        w.Holding(id, Installed, |w.release.archives|).(installation := Some(installation))).(run := None)
  {
    hide Wish.Got, Completed;
  }

  lemma {:induction false} PutAgain(m: Machine, first: Job, pc: Pc, second: Job)
    requires first.id == second.id
    ensures Put(Running(m, first, pc), second).(run := None) == Put(m, second).(run := None)
  {
  }

  lemma {:induction false} PutIs(m: Machine, waiting: Job, job: Job, used: set<JobId>)
    requires waiting.id == job.id && m.run.None?
    ensures var after := Put(Put(m, waiting).(used := used), job).(run := None);
      after.run.None? && after.jobs == m.jobs[job.id := job]
  {
  }

  lemma {:induction false} NothingUnfinished(w: Wish, jobs: Store)
    requires forall other | other in jobs && SameIgnoringCase(jobs[other].workCode, w.code) ::
      jobs[other].status.IsFinished()
    ensures !HasUnfinished(jobs, w.code)
  {
  }

  lemma {:induction false} WaitingIsThere(w: Wish, m: Machine, id: JobId)
    requires m.run.None?
    ensures var after := DeliveryTrails.Queued(w, m, id);
      after.run.None? && id in after.jobs && after.jobs[id] == w.Waiting(id)
    ensures DeliveryTrails.Queued(w, m, id) == Put(m, w.Waiting(id)).(used := m.used + {id})
  {
  }

  /**
   A work without an unfinished job, whose newest release is verifiable, can be queued,
   located, fetched archive by archive and installed: its job is then stored with the
   archives of the release, each complete and with its path, and with the installation
   made of them, and no other job has changed.
   */
  lemma {:induction false} DeliveryGoesThrough(w: Wish, t: Trail, id: JobId, installation: nat) returns (t': Trail)
    requires w.Valid() && t.Leads() && t.m.run.None? && id !in t.m.used
    requires forall other | other in t.m.jobs && SameIgnoringCase(t.m.jobs[other].workCode, w.code) ::
      t.m.jobs[other].status.IsFinished()
    ensures t'.Leads() && t'.m.run.None? && id in t'.m.jobs && t'.m.jobs == t.m.jobs[id := t'.m.jobs[id]]
    ensures IsDelivered(t'.m.jobs[id], w, id, installation)
  {
    hide *;
    var n := |w.release.archives|;
    var first, last := w.Holding(id, Downloading, 0), w.Holding(id, Downloading, n);
    var whole := w.Holding(id, Status.Installing, n);
    var done := w.Holding(id, Installed, n).(installation := Some(installation));
    ReleaseIsFresh(w);
    NothingUnfinished(w, t.m.jobs);
    HoldingIsItsOwn(w, id, 0);
    HoldingIsItsOwn(w, id, n);
    var t1 := Queues(w, t, id);
    WaitingIsThere(w, t.m, id);
    t' := Locates(w, t1, id);
    RunningAgain(t1.m, first, NextPc(w, 0), first, NextPc(w, 0));
    t' := Downloads(w, t', id, 0, n);
    RunningAgain(t1.m, first, NextPc(w, 0), last, NextPc(w, n));
    RunningRuns(t1.m, last, NextPc(w, n));
    NextPcIs(w, n);
    t' := Enters(w, t', id);
    RunningAgain(t1.m, last, NextPc(w, n), whole, CallInstaller);
    RunningRuns(t1.m, whole, CallInstaller);
    InstallingEnds(w, t'.m, id, installation);
    t' := ThenPlainly(t', InstallArchives(Ok(InstalledAs(installation))));
    t' := ThenPlainly(t', ConcludeRun);
    t' := ThenPlainly(t', SaveRunEnd);
    FinishedIsDelivered(w, id, installation);
    assert done.id == id;
    PutAgain(t1.m, whole, CallInstaller, done);
    PutIs(t.m, w.Waiting(id), done, t.m.used + {id});
  }
}
