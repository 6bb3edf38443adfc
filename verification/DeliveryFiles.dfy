/**
 The downloaded files in the staging folders, followed through runs of the
 delivery machine: when the archives a job counts as complete are really there.
 A file is told by its folder, its name and the digest of its contents.
 */
module DeliveryFiles {
  import opened Wrappers
  import opened Text
  import opened NewestRelease
  import opened DeliveryJobs
  import opened DeliveryMachine
  import opened DeliverySafety
  import opened DeliveryTheorems
  import opened DeliveryConflicts

  /** The digest of each file, by folder and name. */
  type Files = map<(string, string), string>

  function FileOf(job: Job, i: nat): (string, string)
    requires i < |job.archives|
  {
    (Staging(job), job.archives[i].fileName)
  }

  /** Archive `i` of a job is in its place, with the contents it was verified to have. */
  predicate HasFile(job: Job, i: nat, files: Files)
    requires i < |job.archives|
  {
    FileOf(job, i) in files && files[FileOf(job, i)] == job.archives[i].sha256
  }

  predicate HasFiles(job: Job, files: Files) {
    forall i | 0 <= i < |job.archives| && job.archives[i].complete :: HasFile(job, i, files)
  }

  /**
   An event and what it does to the files: the names it removes from one folder, and
   whether it puts the archive being fetched in its place. A deletion may stop midway,
   and the launcher may stop in the middle of a download or of an installation.
   */
  datatype Happening = Happening(e: Event, removed: set<string>, wrote: bool)

  /** The store, the run under way and the files. */
  datatype World = World(m: Machine, files: Files)

  const START := World(EMPTY, map[])

  /**
   The job in whose folder an event may remove or replace files: one that is cancelled,
   or that of the run. The installer deletes the archives it has unpacked, whatever it
   then answers; a run that installed its job, or was cancelled, deletes the folder; and
   the launcher may stop in either, or in a download.
   */
  function Touched(m: Machine, e: Event): Option<Job> {
    match e
    case CancelJob(id, _) => if Cancellable(m.jobs, id) then Some(m.jobs[id]) else None
    case InstallArchives(_) => if m.run.Some? then Some(m.run.value.job) else None
    case ConcludeRun => Discards(m, e)
    case Restart =>
      if m.run.Some? && (m.run.value.pc.CallInstaller?
          || (m.run.value.pc.Conclude? && DiscardsAfter(m.run.value.pc.outcome)))
      then Some(m.run.value.job)
      else if Incoming(m, e).Some? then Some(m.run.value.job)
      else None
    case _ => if Incoming(m, e).Some? then Some(m.run.value.job) else None
  }

  /** The archive an event may write: the one being fetched. */
  function Incoming(m: Machine, e: Event): (archive: Option<Archive>)
    ensures archive.Some? ==> m.run.Some?
  {
    if ((e.FetchArchive? && e.check.None?) || e.Restart?) && m.run.Some? && m.run.value.pc.Fetch?
       && m.run.value.pc.index < |m.run.value.job.archives|
    then Some(m.run.value.job.archives[m.run.value.pc.index])
    else None
  }

  /**
   What can happen: a cancellation that goes through leaves nothing in the folder; a
   fetch removes nothing but a file of its archive's name with other contents, and one
   that succeeds has put the archive there.
   */
  ghost predicate CanHappen(w: World, h: Happening) {
    && Enabled(w.m, h.e)
    && (h.removed != {} ==> Touched(w.m, h.e).Some?)
    && (h.wrote ==> Incoming(w.m, h.e).Some?)
    && (h.e.CancelJob? && h.e.discarded && Cancellable(w.m.jobs, h.e.id) ==>
      forall f | f in w.files && f.0 == Staging(w.m.jobs[h.e.id]) :: f.1 in h.removed)
    && (Incoming(w.m, h.e).Some? ==>
      var archive := Incoming(w.m, h.e).value;
      var file := (Staging(w.m.run.value.job), archive.fileName);
      && h.removed <= {archive.fileName}
      && (h.removed != {} && file in w.files ==> w.files[file] != archive.sha256)
      && (h.e.FetchArchive? ==> (h.wrote <==> h.e.fetch.None?)))
  }

  function Without(files: Files, folder: string, names: set<string>): Files {
    map f | f in files && !(f.0 == folder && f.1 in names) :: files[f]
  }

  function FilesAfter(w: World, h: Happening): Files {
    var left :=
      if Touched(w.m, h.e).Some? then Without(w.files, Staging(Touched(w.m, h.e).value), h.removed) else w.files;
    if h.wrote && Incoming(w.m, h.e).Some?
    then
      var archive := Incoming(w.m, h.e).value;
      left[(Staging(w.m.run.value.job), archive.fileName) := archive.sha256]
    else left
  }

  ghost function After(w: World, h: Happening): World
    requires CanHappen(w, h)
  {
    World(Next(w.m, h.e), FilesAfter(w, h))
  }

  // Which archives are counted on.

  /** What a run makes of its job in the end, once that is decided. */
  function EndOf(r: Runner): Job {
    if r.pc.Conclude? then Concluded(r.job, r.pc.outcome) else r.job
  }

  /** A run is about to save that its job needs its archives no more. */
  predicate Ending(m: Machine, id: JobId, review: bool) {
    m.run.Some? && m.run.value.job.id == id && IsOver(EndOf(m.run.value), review)
  }

  predicate CountsOn(m: Machine, id: JobId, review: bool) {
    Needed(m.jobs, id, review) && !Ending(m, id, review)
  }

  /** Every archive counted as complete is there, for every job that may still want it. */
  ghost predicate Kept(w: World, review: bool) {
    forall id | CountsOn(w.m, id, review) :: HasFiles(w.m.jobs[id], w.files)
  }

  // What an event can spoil.

  /** An event removes or replaces the file of archive `i` of a job. */
  predicate Spoils(m: Machine, h: Happening, job: Job, i: nat)
    requires i < |job.archives|
  {
    && Touched(m, h.e).Some? && SharesStaging(job, Touched(m, h.e).value)
    && (job.archives[i].fileName in h.removed
        || (h.wrote && Incoming(m, h.e).Some? && job.archives[i].fileName == Incoming(m, h.e).value.fileName
            && job.archives[i].sha256 != Incoming(m, h.e).value.sha256))
  }

  predicate SpoilsSome(m: Machine, h: Happening, job: Job) {
    exists i | 0 <= i < |job.archives| :: job.archives[i].complete && Spoils(m, h, job, i)
  }

  /** Files of another job that may still want them: two jobs share the folder. */
  ghost predicate HitsAnother(m: Machine, h: Happening, review: bool) {
    Touched(m, h.e).Some? && exists other ::
      CountsOn(m, other, review) && other != Touched(m, h.e).value.id && SpoilsSome(m, h, m.jobs[other])
  }

  /** The job an event deletes files of goes on all the same. */
  predicate GoesOn(e: Event, review: bool) {
    match e
    case CancelJob(_, discarded) => !discarded
    case FetchArchive(_, fetch) => fetch != Some(CancelledError)
    case InstallArchives(Ok(InstalledAs(_))) => false
    case InstallArchives(Ok(ReviewOf(_, _))) => review
    case InstallArchives(Err(error)) => !error.CancelledError?
    case _ => false
  }

  /**
   Files of the job itself, which is not over: its cancellation stops midway, its
   installation fails after the archives were deleted, or its release has two archives
   of one name.
   */
  predicate HitsItself(m: Machine, h: Happening, review: bool) {
    Touched(m, h.e).Some? && GoesOn(h.e, review) && SpoilsSome(m, h, Touched(m, h.e).value)
  }

  /** The launcher stops with a run under way whose job has lost a complete archive: the job is queued again. */
  predicate ForgetsTheEnd(w: World, h: Happening) {
    h.e.Restart? && w.m.run.Some? && var job := w.m.run.value.job;
      exists i | 0 <= i < |job.archives| ::
        job.archives[i].complete && (!HasFile(job, i, w.files) || Spoils(w.m, h, job, i))
  }

  ghost predicate Loses(w: World, h: Happening, review: bool) {
    HitsAnother(w.m, h, review) || HitsItself(w.m, h, review) || ForgetsTheEnd(w, h)
  }

  // One step.

  /** What names a job's files never changes. */
  predicate SameNames(a: Job, b: Job) {
    a.workCode == b.workCode && a.installFolder == b.installFolder && |a.archives| == |b.archives|
    && forall i | 0 <= i < |a.archives| ::
      a.archives[i].fileName == b.archives[i].fileName && a.archives[i].sha256 == b.archives[i].sha256
  }

  lemma {:induction false} ServiceKeepsNames(m: Machine, e: Event, id: JobId)
    requires Inv(m) && Enabled(m, e) && !IsRunEvent(e) && id in m.jobs && id in Next(m, e).jobs
    ensures SameNames(m.jobs[id], Next(m, e).jobs[id])
  {
  }

  lemma {:induction false} LocatingKeepsNames(m: Machine, e: Event, id: JobId)
    requires Inv(m) && Enabled(m, e) && e.LocateArchives? && id in m.jobs && id in Next(m, e).jobs
    ensures SameNames(m.jobs[id], Next(m, e).jobs[id])
  {
    hide Completed, FetchFrom, AllLocated, AllComplete, JobOk;
  }

  lemma {:induction false} RunKeepsNames(m: Machine, e: Event, id: JobId)
    requires Inv(m) && Enabled(m, e) && IsRunEvent(e) && id in m.jobs && id in Next(m, e).jobs
    ensures SameNames(m.jobs[id], Next(m, e).jobs[id])
  {
    if e.LocateArchives? {
      LocatingKeepsNames(m, e, id);
    } else {
      hide Completed, FetchFrom, AllLocated, AllComplete, JobOk, WithPaths;
    }
  }

  /** A job keeps its names, and its archives become complete by being fetched. */
  lemma {:induction false} JobFollows(m: Machine, e: Event, id: JobId)
    requires Inv(m) && Enabled(m, e) && id in m.jobs && id in Next(m, e).jobs
    ensures SameNames(m.jobs[id], Next(m, e).jobs[id]) && ArchivesFollow(m, e, Next(m, e), id)
  {
    if IsRunEvent(e) {
      RunKeepsNames(m, e, id);
      RunFollowsArchives(m, e, id);
    } else {
      ServiceKeepsNames(m, e, id);
      ServiceKeepsArchives(m, e, id);
    }
  }

  /** A file that is in its place stays there exactly unless the event spoils it. */
  lemma {:induction false} FileStaysIff(w: World, h: Happening, job: Job, i: nat)
    requires CanHappen(w, h) && i < |job.archives| && HasFile(job, i, w.files) && IsWorkCode(job.workCode)
    requires Touched(w.m, h.e).Some? ==> IsWorkCode(Touched(w.m, h.e).value.workCode)
    ensures HasFile(job, i, FilesAfter(w, h)) <==> !Spoils(w.m, h, job, i)
  {
    IncomingIsTouched(w.m, h.e);
    if Touched(w.m, h.e).Some? {
      StagingIdentifies(job, Touched(w.m, h.e).value);
    }
    hide SharesStaging, Staging, Enabled, Touched, Incoming, Cancellable;
  }

  lemma {:induction false} IncomingIsTouched(m: Machine, e: Event)
    ensures Incoming(m, e).Some? ==> Touched(m, e) == Some(m.run.value.job)
  {
  }

  lemma {:induction false} TouchedIsStored(m: Machine, e: Event)
    requires Inv(m) && Enabled(m, e) && Touched(m, e).Some?
    ensures var job := Touched(m, e).value; job.id in m.jobs && m.jobs[job.id] == job && IsWorkCode(job.workCode)
  {
    hide Ledger, CompletePrefix, AllComplete, AllLocated;
  }

  /** An archive that is saved as complete by this step is in its place. */
  lemma {:induction false} SavedIsThere(w: World, h: Happening, id: JobId, i: nat)
    requires Inv(w.m) && CanHappen(w, h) && SavesArchive(w.m, h.e, id, i) && id in w.m.jobs
          && i < |w.m.jobs[id].archives|
    ensures HasFile(w.m.jobs[id], i, FilesAfter(w, h))
  {
    assert RunOk(w.m, w.m.run.value);
    assert w.m.jobs[id] == w.m.run.value.job;
    hide Inv, RunOk, JobOk, Staging;
  }

  /** A job that has its complete archives has them after the event too exactly unless it spoils one. */
  lemma {:induction false} HasFilesAfter(w: World, h: Happening, id: JobId)
    requires Inv(w.m) && CanHappen(w, h) && id in w.m.jobs && id in Next(w.m, h.e).jobs
    requires HasFiles(w.m.jobs[id], w.files)
    ensures HasFiles(Next(w.m, h.e).jobs[id], FilesAfter(w, h)) <==> !SpoilsSome(w.m, h, w.m.jobs[id])
  {
    var before, now, files := w.m.jobs[id], Next(w.m, h.e).jobs[id], FilesAfter(w, h);
    JobFollows(w.m, h.e, id);
    if Touched(w.m, h.e).Some? {
      TouchedIsStored(w.m, h.e);
    }
    assert IsWorkCode(before.workCode);
    forall i | 0 <= i < |before.archives|
      ensures before.archives[i].complete ==> (HasFile(before, i, files) <==> !Spoils(w.m, h, before, i))
      ensures now.archives[i].complete && !before.archives[i].complete ==> HasFile(before, i, files)
      ensures HasFile(now, i, files) == HasFile(before, i, files)
      ensures before.archives[i].complete ==> now.archives[i].complete
    {
      if before.archives[i].complete {
        FileStaysIff(w, h, before, i);
      } else if now.archives[i].complete {
        SavedIsThere(w, h, id, i);
      }
    }
    hide *;
  }

  // Which jobs count on their archives afterwards.

  lemma {:induction false} ServiceCountedBefore(m: Machine, e: Event, id: JobId, review: bool)
    requires Inv(m) && Enabled(m, e) && !IsRunEvent(e) && id in m.jobs && CountsOn(Next(m, e), id, review)
    requires e.Restart? ==> m.run.None? || m.run.value.job.id != id
    ensures CountsOn(m, id, review)
  {
    hide Completed, FetchFrom, AllLocated, CompletePrefix, WithPaths, Ledger, AllComplete, IsWorkCode, StagingFolder;
  }

  lemma {:induction false} RunCountedBefore(m: Machine, e: Event, id: JobId, review: bool)
    requires Inv(m) && Enabled(m, e) && IsRunEvent(e) && id in m.jobs && CountsOn(Next(m, e), id, review)
    ensures CountsOn(m, id, review)
  {
    hide Completed, FetchFrom, AllLocated, CompletePrefix, WithPaths, Ledger, AllComplete, IsWorkCode, StagingFolder;
  }

  /** No job begins to count on its archives but one that is queued new, or again after a restart. */
  lemma {:induction false} CountedBefore(m: Machine, e: Event, id: JobId, review: bool)
    requires Inv(m) && Enabled(m, e) && id in m.jobs && CountsOn(Next(m, e), id, review)
    requires e.Restart? ==> m.run.None? || m.run.value.job.id != id
    ensures CountsOn(m, id, review)
  {
    if IsRunEvent(e) {
      RunCountedBefore(m, e, id, review);
    } else {
      ServiceCountedBefore(m, e, id, review);
    }
  }

  /** An event that touches files changes no other job. */
  lemma {:induction false} OthersStillCount(m: Machine, e: Event, id: JobId, review: bool)
    requires Inv(m) && Enabled(m, e) && Touched(m, e).Some? && id != Touched(m, e).value.id && CountsOn(m, id, review)
    ensures CountsOn(Next(m, e), id, review)
  {
    hide Completed, FetchFrom, AllLocated, CompletePrefix, WithPaths, Ledger;
  }

  lemma {:induction false} FetchingCounts(m: Machine, e: Event, review: bool)
    requires Inv(m) && Enabled(m, e) && e.FetchArchive? && Touched(m, e).Some?
    ensures CountsOn(Next(m, e), m.run.value.job.id, review) <==> GoesOn(e, review)
  {
    var archives, i := m.run.value.job.archives, m.run.value.pc.index;
    FetchFromIsLater(archives[i := archives[i].(complete := true)], i + 1);
    hide Completed, FetchFrom, AllLocated, CompletePrefix, AllComplete, WithPaths, Ledger, StagingFolder, IsWorkCode;
  }

  lemma {:induction false} TouchedStillCountsIff(m: Machine, e: Event, review: bool)
    requires Inv(m) && Enabled(m, e) && Touched(m, e).Some? && !e.Restart?
    requires CountsOn(m, Touched(m, e).value.id, review)
    ensures CountsOn(Next(m, e), Touched(m, e).value.id, review) <==> GoesOn(e, review)
  {
    if e.FetchArchive? {
      FetchingCounts(m, e, review);
    } else {
      hide Completed, FetchFrom, AllLocated, CompletePrefix, AllComplete, WithPaths, Ledger, StagingFolder, IsWorkCode;
    }
  }

  lemma {:induction false} QueuedAgain(m: Machine, review: bool)
    requires Inv(m) && m.run.Some?
    ensures var job := m.run.value.job;
      && CountsOn(Next(m, Restart), job.id, review) && SameNames(Next(m, Restart).jobs[job.id], job)
      && Next(m, Restart).jobs[job.id].archives == job.archives
  {
    hide Completed, AllLocated, CompletePrefix, Ledger;
  }

  lemma {:induction false} NewJobsAreQueued(m: Machine, e: Event, id: JobId)
    requires Inv(m) && Enabled(m, e) && id !in m.jobs && id in Next(m, e).jobs
    ensures !IsRunEvent(e) && forall a | a in Next(m, e).jobs[id].archives :: !a.complete
  {
    if m.run.Some? {
      RunHoldsTheStoredArchives(m);
    }
    NotByARun(m, e, id);
    QueuedJobHasNothing(m, e, id);
  }

  lemma {:induction false} NotByARun(m: Machine, e: Event, id: JobId)
    requires Inv(m) && Enabled(m, e) && id !in m.jobs && id in Next(m, e).jobs
    ensures !IsRunEvent(e)
  {
    if m.run.Some? {
      RunHoldsTheStoredArchives(m);
    }
  }

  /** Nothing is fetched while a file is missing that the run under way counts as complete. */
  lemma {:induction false} OnlyFetchesBringFiles(w: World, h: Happening, job: Job, i: nat, review: bool)
    requires Inv(w.m) && CanHappen(w, h) && Kept(w, review) && w.m.run.Some? && w.m.run.value.job == job
    requires i < |job.archives| && job.archives[i].complete && !HasFile(job, i, w.files)
    ensures !HasFile(job, i, FilesAfter(w, h))
  {
    var r := w.m.run.value;
    assert RunOk(w.m, r);
    hide Inv, JobOk, Staging;
  }

  /** A restart leaves the job under way its archives exactly unless one is missing or is spoiled just then. */
  lemma {:induction false} RunFilesStayIff(w: World, h: Happening, review: bool)
    requires Inv(w.m) && CanHappen(w, h) && Kept(w, review) && h.e.Restart? && w.m.run.Some?
    ensures HasFiles(w.m.run.value.job, FilesAfter(w, h)) <==> !ForgetsTheEnd(w, h)
  {
    var job, files := w.m.run.value.job, FilesAfter(w, h);
    assert IsWorkCode(job.workCode) by {
      assert RunOk(w.m, w.m.run.value);
    }
    if Touched(w.m, h.e).Some? {
      TouchedIsStored(w.m, h.e);
    }
    hide Staging, Enabled, Inv;
    forall i | 0 <= i < |job.archives| && job.archives[i].complete
      ensures HasFile(job, i, files) <==> HasFile(job, i, w.files) && !Spoils(w.m, h, job, i)
    {
      if HasFile(job, i, w.files) {
        FileStaysIff(w, h, job, i);
      } else {
        OnlyFetchesBringFiles(w, h, job, i, review);
      }
    }
  }

  /** What an event that loses nothing leaves: each job that counts on its archives has them. */
  lemma {:induction false} KeepsUnlessItLoses(w: World, h: Happening, id: JobId, review: bool)
    requires Inv(w.m) && CanHappen(w, h) && Kept(w, review) && !Loses(w, h, review)
    requires CountsOn(Next(w.m, h.e), id, review)
    ensures HasFiles(Next(w.m, h.e).jobs[id], FilesAfter(w, h))
  {
    var m, e := w.m, h.e;
    if id !in m.jobs {
      NewJobsAreQueued(m, e, id);
    } else if e.Restart? && m.run.Some? && m.run.value.job.id == id {
      QueuedAgain(m, review);
      RunFilesStayIff(w, h, review);
    } else {
      CountedBefore(m, e, id, review);
      HasFilesAfter(w, h, id);
      if Touched(m, e).Some? && id == Touched(m, e).value.id {
        TouchedIsStored(m, e);
        TouchedStillCountsIff(m, e, review);
      }
      hide Inv, CanHappen, Next, FilesAfter, SpoilsSome, Touched, HasFiles;
    }
  }

  lemma {:induction false} HittingAnotherLoses(w: World, h: Happening, review: bool)
    requires Inv(w.m) && CanHappen(w, h) && Kept(w, review) && HitsAnother(w.m, h, review)
    ensures !Kept(After(w, h), review)
  {
    var m, e := w.m, h.e;
    var other :| CountsOn(m, other, review) && other != Touched(m, e).value.id && SpoilsSome(m, h, m.jobs[other]);
    OthersStillCount(m, e, other, review);
    HasFilesAfter(w, h, other);
    hide Inv, CanHappen, Next, FilesAfter, SpoilsSome, Touched, HasFiles, HitsAnother;
    assert !HasFiles(After(w, h).m.jobs[other], After(w, h).files);
  }

  lemma {:induction false} HittingItselfLoses(w: World, h: Happening, review: bool)
    requires Inv(w.m) && CanHappen(w, h) && Kept(w, review) && HitsItself(w.m, h, review)
    ensures !Kept(After(w, h), review)
  {
    var m, e := w.m, h.e;
    var job := Touched(m, e).value;
    TouchedIsStored(m, e);
    GoingOnCounts(m, e, review);
    TouchedStillCountsIff(m, e, review);
    HasFilesAfter(w, h, job.id);
    hide Inv, CanHappen, Next, FilesAfter, SpoilsSome, Touched, HasFiles, HitsItself, GoesOn;
    assert !HasFiles(After(w, h).m.jobs[job.id], After(w, h).files);
  }

  lemma {:induction false} GoingOnCounts(m: Machine, e: Event, review: bool)
    requires Inv(m) && Enabled(m, e) && Touched(m, e).Some? && GoesOn(e, review)
    ensures !e.Restart? && CountsOn(m, Touched(m, e).value.id, review)
  {
    hide Completed, FetchFrom, AllLocated, CompletePrefix, AllComplete, WithPaths, Ledger, StagingFolder, IsWorkCode;
  }

  lemma {:induction false} ForgettingLoses(w: World, h: Happening, review: bool)
    requires Inv(w.m) && CanHappen(w, h) && Kept(w, review) && ForgetsTheEnd(w, h)
    ensures !Kept(After(w, h), review)
  {
    QueuedAgain(w.m, review);
    RunFilesStayIff(w, h, review);
    var job, after := w.m.run.value.job, After(w, h);
    hide Inv, CanHappen, Next, FilesAfter, ForgetsTheEnd;
    assert HasFiles(after.m.jobs[job.id], after.files) == HasFiles(job, after.files);
  }

  /**
   An event leaves every complete archive of every job that may still want it in its
   place exactly unless it removes or replaces one that another job counts on, or one
   of its own job that goes on, or the launcher stops when some are gone already and
   queues their job again.
   */
  lemma {:induction false} StepKeepsFilesIff(w: World, h: Happening, review: bool)
    requires Inv(w.m) && CanHappen(w, h) && Kept(w, review)
    ensures Kept(After(w, h), review) <==> !Loses(w, h, review)
  {
    if HitsAnother(w.m, h, review) {
      HittingAnotherLoses(w, h, review);
    } else if HitsItself(w.m, h, review) {
      HittingItselfLoses(w, h, review);
    } else if ForgetsTheEnd(w, h) {
      ForgettingLoses(w, h, review);
    } else {
      hide Inv, CanHappen, Next, FilesAfter, CountsOn, HasFiles, ForgetsTheEnd, HitsItself, HitsAnother;
      forall id | CountsOn(After(w, h).m, id, review)
        ensures HasFiles(After(w, h).m.jobs[id], After(w, h).files)
      {
        KeepsUnlessItLoses(w, h, id, review);
      }
    }
  }

  // Whole runs.

  ghost predicate Possible(w: World, hs: seq<Happening>)
    decreases |hs|
  {
    hs == [] || (CanHappen(w, hs[0]) && Possible(After(w, hs[0]), hs[1..]))
  }

  ghost function AfterAll(w: World, hs: seq<Happening>): World
    requires Possible(w, hs)
    decreases |hs|
  {
    if hs == [] then w else AfterAll(After(w, hs[0]), hs[1..])
  }

  function EventsOf(hs: seq<Happening>): seq<Event> {
    if hs == [] then [] else [hs[0].e] + EventsOf(hs[1..])
  }

  /** What can happen is a run of the machine. */
  lemma {:induction false} HappeningsAreARun(w: World, hs: seq<Happening>)
    requires Possible(w, hs)
    ensures Runnable(w.m, EventsOf(hs)) && Run(w.m, EventsOf(hs)) == AfterAll(w, hs).m
    decreases |hs|
  {
    hide Enabled, Next, FilesAfter, CanHappen;
    if hs != [] {
      CanHappenIsEnabled(w, hs[0]);
      HappeningsAreARun(After(w, hs[0]), hs[1..]);
      assert EventsOf(hs)[1..] == EventsOf(hs[1..]);
    }
  }

  lemma {:induction false} CanHappenIsEnabled(w: World, h: Happening)
    requires CanHappen(w, h)
    ensures Enabled(w.m, h.e) && After(w, h).m == Next(w.m, h.e)
  {
  }

  /** An event that deletes no more than it says it did. */
  function Plainly(w: World, e: Event): Happening {
    if e.CancelJob? && e.discarded && Cancellable(w.m.jobs, e.id)
    then Happening(e, set f | f in w.files && f.0 == Staging(w.m.jobs[e.id]) :: f.1, false)
    else Happening(e, {}, e.FetchArchive? && e.check.None? && e.fetch.None? && Incoming(w.m, e).Some?)
  }

  lemma {:induction false} PlainlyCanHappen(w: World, e: Event)
    requires Enabled(w.m, e)
    ensures CanHappen(w, Plainly(w, e))
  {
    hide Enabled, Staging;
  }

  /** And every run of the machine can happen. */
  lemma {:induction false} EveryRunCanHappen(w: World, es: seq<Event>) returns (hs: seq<Happening>)
    requires Runnable(w.m, es)
    ensures Possible(w, hs) && EventsOf(hs) == es
    decreases |es|
  {
    hide Enabled, Next, FilesAfter, CanHappen, Plainly;
    if es == [] {
      hs := [];
    } else {
      var h := Plainly(w, es[0]);
      PlainlyCanHappen(w, es[0]);
      PlainlyIsIt(w, es[0]);
      CanHappenIsEnabled(w, h);
      var rest := EveryRunCanHappen(After(w, h), es[1..]);
      hs := [h] + rest;
      assert hs[1..] == rest;
    }
  }

  lemma {:induction false} PlainlyIsIt(w: World, e: Event)
    ensures Plainly(w, e).e == e
  {
  }

  ghost predicate AlwaysKept(w: World, hs: seq<Happening>, review: bool)
    requires Possible(w, hs)
    decreases |hs|
  {
    Kept(w, review) && (hs == [] || AlwaysKept(After(w, hs[0]), hs[1..], review))
  }

  ghost predicate NeverLoses(w: World, hs: seq<Happening>, review: bool)
    requires Possible(w, hs)
    decreases |hs|
  {
    hs == [] || (!Loses(w, hs[0], review) && NeverLoses(After(w, hs[0]), hs[1..], review))
  }

  /**
   Over whole runs: what is counted as complete is there throughout exactly if no
   event loses any of it.
   */
  lemma {:induction false} AlwaysKeptIff(w: World, hs: seq<Happening>, review: bool)
    requires Inv(w.m) && Kept(w, review) && Possible(w, hs)
    ensures AlwaysKept(w, hs, review) <==> NeverLoses(w, hs, review)
    ensures NeverLoses(w, hs, review) ==> Kept(AfterAll(w, hs), review)
    decreases |hs|
  {
    hide Next, Enabled, Inv, FilesAfter, Kept, Loses, CanHappen;
    if hs != [] {
      CanHappenIsEnabled(w, hs[0]);
      StepKeepsInv(w.m, hs[0].e);
      StepKeepsFilesIff(w, hs[0], review);
      if !Loses(w, hs[0], review) {
        AlwaysKeptIff(After(w, hs[0]), hs[1..], review);
      } else {
        NotKeptAnyMore(After(w, hs[0]), hs[1..], review);
      }
    }
  }

  lemma {:induction false} NotKeptAnyMore(w: World, hs: seq<Happening>, review: bool)
    requires Possible(w, hs) && !Kept(w, review)
    ensures !AlwaysKept(w, hs, review)
  {
  }

  lemma {:induction false} NothingIsKept(review: bool)
    ensures Inv(START.m) && Kept(START, review)
  {
  }

  /**
   In every run in which nothing is lost, each archive of the release is in its place,
   with the contents it was verified to have, when the installer is called.
   */
  lemma {:induction false} InstallerFindsItsArchives(hs: seq<Happening>, e: Event, review: bool)
    requires Possible(START, hs) && NeverLoses(START, hs, review)
    requires Enabled(AfterAll(START, hs).m, e) && e.InstallArchives?
    ensures var w := AfterAll(START, hs);
      forall i | 0 <= i < |w.m.run.value.job.archives| :: HasFile(w.m.run.value.job, i, w.files)
  {
    NothingIsKept(review);
    HappeningsAreARun(START, hs);
    RunKeepsInv(EMPTY, EventsOf(hs));
    AlwaysKeptIff(START, hs, review);
    var w := AfterAll(START, hs);
    InstallerGetsWholeReleases(w.m, e);
    assert CountsOn(w.m, w.m.run.value.job.id, review);
    assert HasFiles(w.m.run.value.job, w.files);
  }

  /**
   While each work has one unfinished job, another job's archives can only be hit when
   one of the two counts as finished all the same.
   */
  lemma {:induction false} HitsAreBesideFinished(w: World, h: Happening, review: bool)
    requires Inv(w.m) && OneUnfinished(w.m.jobs) && CanHappen(w, h) && HitsAnother(w.m, h, review)
    ensures FinishedSharesFolder(w.m, Touched(w.m, h.e).value, review)
  {
    var m, job := w.m, Touched(w.m, h.e).value;
    var other :| CountsOn(m, other, review) && other != job.id && SpoilsSome(m, h, m.jobs[other]);
    TouchedIsStored(m, h.e);
    SharingIsBesideFinished(m, job, review);
    StagingIdentifies(m.jobs[other], job);
    hide FinishedSharesFolder, SharesStaging, Staging;
    assert !DiscardIsSafe(m, job, review);
  }
}
