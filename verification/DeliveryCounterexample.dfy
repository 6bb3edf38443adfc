/**
 Runs in which a promise of the delivery service is broken: a download fails, its
 work is queued again, and the failed job is then resumed or cancelled beside its
 successor, or outlives it; the installer fails after it has deleted the archives; the
 launcher stops after a deletion and before its job is saved as done; a cancellation
 stops midway; or a release has two archives of one name.
 */
module DeliveryCounterexample {
  import opened Wrappers
  import opened Text
  import opened NewestRelease
  import opened DeliveryJobs
  import opened DeliveryMachine
  import opened DeliverySafety
  import opened DeliveryConflicts
  import opened DeliveryFiles
  import opened DeliveryTrails

  lemma {:induction false} NothingAndMore(keys: set<(string, string)>)
    ensures {} + keys == keys
  {
  }

  // A failed job and its successor.

  lemma {:induction false} FirstIsQueued(w: Wish) returns (t: Trail)
    requires w.Valid()
    ensures t.Leads() && t.m == Machine(map[0 := w.Waiting(0)], None, {0}) && t.files == map[]
  {
    t := NoStep();
    t := Queues(w, t, 0);
  }

  lemma {:induction false} OnlyOneJob(m: Machine, waiting: Job, first: Job, last: Job, broken: Job, pc: Pc, end: Pc)
    requires m == Machine(map[0 := waiting], None, {0}) && first.id == 0 && last.id == 0 && broken.id == 0
    ensures Running(m, first, pc) == Running(Running(m, first, pc), first, pc)
    ensures Put(Running(Running(m, first, pc), last, end), broken).(run := None) == Machine(map[0 := broken], None, {0})
  {
  }

  /** A work is queued and fails after `k` archives. */
  lemma {:induction false} Fails(w: Wish, k: nat) returns (t: Trail)
    requires w.Valid() && k < |w.release.archives|
    ensures t.Leads() && t.m == Machine(map[0 := w.Broken(0, k)], None, {0}) && t.files.Keys == w.Downloaded(0, k)
  {
    hide *;
    ReleaseIsFresh(w);
    HoldingIsItsOwn(w, 0, 0);
    HoldingIsItsOwn(w, 0, k);
    NextPcIs(w, k);
    var first, last := w.Holding(0, Downloading, 0), w.Holding(0, Downloading, k);
    var t1 := FirstIsQueued(w);
    OnlyOneJob(t1.m, w.Waiting(0), first, last, w.Broken(0, k), NextPc(w, 0), NextPc(w, k));
    var t2 := Locates(w, t1, 0);
    var t3 := Downloads(w, t2, 0, 0, k);
    RunningRuns(t2.m, last, NextPc(w, k));
    t := Breaks(w, t3, 0, k);
    NothingAndMore(w.Downloaded(0, k));
  }

  /** And it is queued again. */
  lemma {:induction false} FailsAndIsQueuedAgain(w: Wish, k: nat) returns (t: Trail)
    requires w.Valid() && k < |w.release.archives|
    ensures t.Leads() && t.m == Machine(map[0 := w.Broken(0, k), 1 := w.Waiting(1)], None, {0, 1})
    ensures t.files.Keys == w.Downloaded(0, k)
  {
    var t1 := Fails(w, k);
    NothingUnfinished(w, t1.m, k);
    t := Queues(w, t1, 1);
    HoldingIsItsOwn(w, 1, k);
    assert t.m.jobs == map[0 := w.Broken(0, k), 1 := w.Waiting(1)];
  }

  lemma {:induction false} NothingUnfinished(w: Wish, m: Machine, k: nat)
    requires m == Machine(map[0 := w.Broken(0, k)], None, {0})
    ensures !HasUnfinished(m.jobs, w.code)
  {
  }

  /**
   For any work and any number of archives it held when it failed: resuming the failed
   job leaves the work with two unfinished jobs, and cancelling it instead deletes the
   folder of the queued one.
   */
  lemma {:induction false} FailedJobMeetsItsSuccessor(w: Wish, k: nat) returns (es: seq<Event>)
    requires w.Valid() && k < |w.release.archives|
    ensures Runnable(EMPTY, es) && NeverClashes(EMPTY, es)
    ensures var m := Run(EMPTY, es);
      && !OneUnfinished(Next(m, ResumeJob(0)).jobs)
      && Discards(m, CancelJob(0, true)).Some? && !DiscardIsSafe(m, Discards(m, CancelJob(0, true)).value, false)
  {
    var t := FailsAndIsQueuedAgain(w, k);
    es := EventsOf(t.hs);
    HappeningsAreARun(START, t.hs);
    hide Trail.Leads;
    var after := AfterResume(t.m.jobs, 0);
    assert Unfinished(after, 0) && Unfinished(after, 1) && SameWork(after[0], after[1]);
    assert Needed(t.m.jobs, 1, false) && Staging(t.m.jobs[1]) == Staging(t.m.jobs[0]);
  }

  /** The failed job is resumed once its successor is done for good, and runs on to the installer. */
  lemma {:induction false} RunsOn(w: Wish, t: Trail, k: nat) returns (t': Trail)
    requires k < |w.release.archives| && t.Leads() && t.m.run.None?
    requires 0 in t.m.jobs && t.m.jobs[0] == w.Broken(0, k)
          && (forall id | id in t.m.jobs && id != 0 :: IsDone(t.m.jobs[id]))
    ensures t'.Leads() && t.hs <= t'.hs && t'.files.Keys == t.files.Keys + w.Downloaded(k, |w.release.archives|)
    ensures t'.m.run == Some(Runner(w.Holding(0, Status.Installing, |w.release.archives|), CallInstaller))
  {
    assert !Clashes(t.m, ResumeJob(0)) by {
      assert forall other | Unfinished(t.m.jobs, other) :: other == 0;
    }
    var t1 := ThenResumes(t, 0);
    assert t1.m.jobs[0] == w.Holding(0, Status.Queued, k);
    RestartStep(w, t1.m, 0, k);
    HoldingIsItsOwn(w, 0, k);
    hide Trail.Leads, Next, Wish.Holding, Wish.Broken;
    var t2 := ThenPlainly(t1, StartRun(0));
    RunningAgain(t1.m, w.Holding(0, Downloading, k), NextPc(w, k), w.Holding(0, Downloading, k), NextPc(w, k));
    var t3 := Downloads(w, t2, 0, k, |w.release.archives|);
    t' := Enters(w, t3, 0);
  }

  /** The installer is called for a job although a file it counts on is gone. */
  ghost predicate CalledWithout(w: World, i: nat) {
    && Enabled(w.m, InstallArchives(Err(PausedError)))
    && var job := w.m.run.value.job;
      i < |job.archives| && job.archives[i].complete && !HasFile(job, i, w.files)
  }

  lemma {:induction false} LaterDownloadsDoNotHelp(w: Wish, world: World, k: nat)
    requires w.DistinctNames() && k <= |w.release.archives|
    requires world.files.Keys == w.Downloaded(k, |w.release.archives|)
    requires world.m.run == Some(Runner(w.Holding(0, Status.Installing, |w.release.archives|), CallInstaller))
    ensures forall i | 0 <= i < k :: CalledWithout(world, i)
  {
    var job := world.m.run.value.job;
    assert Staging(job) == w.Folder();
    hide StagingFolder, Completed;
    forall i | 0 <= i < k
      ensures FileOf(job, i) !in world.files
    {
      assert FileOf(job, i) == w.File(i);
      assert forall j | k <= j < |w.release.archives| :: w.File(j) != w.File(i);
    }
  }

  lemma {:induction false} NothingElse(w: Wish, keys: set<(string, string)>, k: nat, l: nat)
    requires keys == w.Downloaded(0, k) + w.Downloaded(0, l)
    ensures Others(keys, w.Folder()) == {}
  {
  }

  /** A run from the empty store in which an event loses files, and what followed. */
  ghost predicate LosesOnTheWay(before: seq<Happening>, h: Happening, hs: seq<Happening>) {
    && Possible(START, hs) && Runnable(EMPTY, EventsOf(hs)) && NeverClashes(EMPTY, EventsOf(hs))
    && before + [h] <= hs && Possible(START, before) && Loses(AfterAll(START, before), h, false)
  }

  ghost predicate ComesTo(hs: seq<Happening>, pc: Pc) {
    Possible(START, hs) && AfterAll(START, hs).m.run.Some? && AfterAll(START, hs).m.run.value.pc == pc
  }

  /** Two trails tell of a run that loses files on the way. */
  lemma {:induction false} SoItLoses(t: Trail, h: Happening, t': Trail)
    requires t.Leads() && t'.Leads() && t.hs + [h] <= t'.hs && Loses(World(t.m, t.files), h, false)
    ensures LosesOnTheWay(t.hs, h, t'.hs) && Possible(START, t'.hs) && AfterAll(START, t'.hs) == World(t'.m, t'.files)
    ensures t.m.run.Some? ==> ComesTo(t.hs, t.m.run.value.pc)
  {
    hide Possible, AfterAll, Runnable, EventsOf, DeliveryConflicts.NeverClashes, Loses;
  }

  lemma {:induction false} IsOf(t: Trail, e: Event, folder: string)
    ensures Emptying(t, e, folder).e == e && Only(e).e == e
  {
  }

  lemma {:induction false} LosesInOneWay(w: World, h: Happening)
    requires HitsAnother(w.m, h, false) || HitsItself(w.m, h, false) || ForgetsTheEnd(w, h)
    ensures Loses(w, h, false)
  {
  }

  /** A failed job that holds archives loses them with the folder of another job of its request. */
  lemma {:induction false} BrokenIsHit(w: Wish, m: Machine, h: Happening, k: nat)
    requires 0 < k < |w.release.archives| && 0 in m.jobs && m.jobs[0] == w.Broken(0, k) && Touched(m, h.e).Some?
    requires var job := Touched(m, h.e).value; job.id == 1 && job.workCode == w.code && job.installFolder == w.folder
    requires w.File(0).1 in h.removed && !Ending(m, 0, false)
    ensures HitsAnother(m, h, false)
  {
    assert m.jobs[0].archives[0].complete;
    assert Spoils(m, h, m.jobs[0], 0);
    assert CountsOn(m, 0, false) && SpoilsSome(m, h, m.jobs[0]);
  }

  lemma {:induction false} FirstIsAmong(w: Wish, files: Files, k: nat)
    requires w.Downloaded(0, k) <= files.Keys && 0 < k
    ensures w.File(0).1 in NamesIn(files, w.Folder())
  {
    assert w.File(0) in w.Downloaded(0, k);
  }

  lemma {:induction false} CancellingHits(w: Wish, t: Trail, k: nat)
    requires 0 < k < |w.release.archives| && t.files.Keys == w.Downloaded(0, k)
    requires t.m == Machine(map[0 := w.Broken(0, k), 1 := w.Waiting(1)], None, {0, 1})
    ensures HitsAnother(t.m, Emptying(t, CancelJob(1, true), w.Folder()), false)
  {
    FirstIsAmong(w, t.files, k);
    BrokenIsHit(w, t.m, Emptying(t, CancelJob(1, true), w.Folder()), k);
  }

  lemma {:induction false} ConcludingHits(w: Wish, t: Trail, k: nat)
    requires 0 < k < |w.release.archives| && w.Downloaded(0, k) <= t.files.Keys
    requires 0 in t.m.jobs && t.m.jobs[0] == w.Broken(0, k) && t.m.run == Some(w.Ending(1))
    ensures HitsAnother(t.m, Emptying(t, ConcludeRun, w.Folder()), false)
  {
    FirstIsAmong(w, t.files, k);
    BrokenIsHit(w, t.m, Emptying(t, ConcludeRun, w.Folder()), k);
  }

  /** The successor is cancelled while it waits. */
  lemma {:induction false} SuccessorIsCancelled(w: Wish, t: Trail, k: nat) returns (t': Trail)
    requires t.Leads() && t.m == Machine(map[0 := w.Broken(0, k), 1 := w.Waiting(1)], None, {0, 1})
    requires t.files.Keys == w.Downloaded(0, k)
    ensures t'.Leads() && t'.files.Keys == {} && t'.hs == t.hs + [Emptying(t, CancelJob(1, true), w.Folder())]
    ensures t'.m == t.m.(jobs := map[0 := w.Broken(0, k), 1 := w.Waiting(1).(status := Cancelled)])
  {
    hide Trail.Leads, StagingFolder;
    t' := ThenEmpties(t, CancelJob(1, true), w.Folder());
    assert w.Downloaded(0, 0) == {};
    NothingElse(w, t.files.Keys, k, 0);
    assert t'.m.jobs == map[0 := w.Broken(0, k), 1 := w.Waiting(1).(status := Cancelled)];
  }

  lemma {:induction false} OnlyBrokenIsLeft(w: Wish, m: Machine, k: nat, job: Job)
    requires m == Machine(map[0 := w.Broken(0, k), 1 := job], None, {0, 1}) && IsDone(job)
    ensures m.run.None? && 0 in m.jobs && m.jobs[0] == w.Broken(0, k)
    ensures forall id | id in m.jobs && id != 0 :: IsDone(m.jobs[id])
  {
  }

  /**
   A queued job is cancelled whose folder a failed job of the same work shares. The
   failed job is then resumed, which nothing forbids, and reaches the installer with
   every archive it had before counted as complete, and gone.
   */
  lemma {:induction false} CancellingTheSuccessorLosesFiles(w: Wish, k: nat)
        returns (before: seq<Happening>, h: Happening, hs: seq<Happening>)
    requires w.Valid() && w.DistinctNames() && 0 < k < |w.release.archives|
    ensures h.e == CancelJob(1, true) && LosesOnTheWay(before, h, hs)
    ensures forall i | 0 <= i < k :: CalledWithout(AfterAll(START, hs), i)
  {
    hide *;
    var t := FailsAndIsQueuedAgain(w, k);
    var t1 := SuccessorIsCancelled(w, t, k);
    h := Emptying(t, CancelJob(1, true), w.Folder());
    CancellingHits(w, t, k);
    LosesInOneWay(World(t.m, t.files), h);
    IsOf(t, CancelJob(1, true), w.Folder());
    OnlyBrokenIsLeft(w, t1.m, k, w.Waiting(1).(status := Cancelled));
    var t2 := RunsOn(w, t1, k);
    NothingAndMore(w.Downloaded(k, |w.release.archives|));
    LaterDownloadsDoNotHelp(w, World(t2.m, t2.files), k);
    SoItLoses(t, h, t2);
    before, hs := t.hs, t2.hs;
  }

  // A job that runs to its end.

  /** A queued job runs up to the installer. */
  lemma {:induction false} RunsToTheInstaller(w: Wish, t: Trail, id: JobId, k: nat) returns (t': Trail)
    requires w.Fresh() && t.Leads() && t.m.run.None? && id in t.m.jobs && t.m.jobs[id] == w.Waiting(id)
    requires k <= |w.release.archives| && t.files.Keys == w.Downloaded(0, k)
    ensures t'.Leads() && Others(t'.files.Keys, w.Folder()) == {}
    ensures t'.files.Keys == w.Downloaded(0, k) + w.Downloaded(0, |w.release.archives|)
    ensures t'.m == Running(t.m, w.Holding(id, Status.Installing, |w.release.archives|), CallInstaller)
  {
    hide *;
    var n := |w.release.archives|;
    var first, last := w.Holding(id, Downloading, 0), w.Holding(id, Downloading, n);
    HoldingIsItsOwn(w, id, 0);
    HoldingIsItsOwn(w, id, n);
    HoldingIsItsOwn(w, id, n);
    t' := Locates(w, t, id);
    RunningAgain(t.m, first, NextPc(w, 0), first, NextPc(w, 0));
    t' := Downloads(w, t', id, 0, n);
    RunningAgain(t.m, first, NextPc(w, 0), last, NextPc(w, n));
    RunningRuns(t.m, last, NextPc(w, n));
    NextPcIs(w, |w.release.archives|);
    t' := Enters(w, t', id);
    RunningAgain(t.m, last, NextPc(w, n), w.Holding(id, Status.Installing, n), CallInstaller);
    NothingElse(w, t'.files.Keys, k, n);
  }

  lemma {:induction false} ItIsThere(w: Wish, m: Machine, id: JobId, k: nat)
    requires m == Machine(map[0 := w.Broken(0, k), 1 := w.Waiting(1)], None, {0, 1}) && id == 1
    ensures id in m.jobs && m.jobs[id] == w.Waiting(id)
  {
  }

  lemma {:induction false} DoneOnceFinished(w: Wish, id: JobId)
    ensures IsDone(w.Finished(id)) && w.Finished(id).id == id
  {
  }

  lemma {:induction false} SuccessorRuns(w: Wish, m: Machine, k: nat, job: Job)
    requires m == Machine(map[0 := w.Broken(0, k), 1 := w.Waiting(1)], None, {0, 1}) && job.id == 1
    ensures Running(m, job, CallInstaller)
          == Machine(map[0 := w.Broken(0, k), 1 := job], Some(Runner(job, CallInstaller)), {0, 1})
  {
    hide Wish.Broken, Wish.Waiting;
    assert map[0 := w.Broken(0, k), 1 := w.Waiting(1)][1 := job] == map[0 := w.Broken(0, k), 1 := job];
  }

  lemma {:induction false} EndIsSaved(w: Wish, t: Trail, k: nat, job: Job) returns (t': Trail)
    requires t.Leads() && job.id == 1
    requires t.m == Machine(map[0 := w.Broken(0, k), 1 := job], Some(Runner(w.Finished(1), SaveEnd)), {0, 1})
    ensures t'.Leads() && t.hs <= t'.hs && t'.files == t.files
    ensures t'.m == Machine(map[0 := w.Broken(0, k), 1 := w.Finished(1)], None, {0, 1})
  {
    HoldingIsItsOwn(w, 1, k);
    hide Trail.Leads, Wish.Broken, Wish.Finished;
    t' := ThenPlainly(t, SaveRunEnd);
    assert t'.m.jobs == map[0 := w.Broken(0, k), 1 := w.Finished(1)];
  }

  /**
   The same comes of the successor's own run: once it is installed its folder goes, and
   with it what the failed job counts as complete.
   */
  lemma {:induction false} InstallingTheSuccessorLosesFiles(w: Wish, k: nat)
        returns (before: seq<Happening>, h: Happening, hs: seq<Happening>)
    requires w.Valid() && w.DistinctNames() && 0 < k < |w.release.archives|
    ensures h.e == ConcludeRun && LosesOnTheWay(before, h, hs)
    ensures forall i | 0 <= i < k :: CalledWithout(AfterAll(START, hs), i)
  {
    hide *;
    ReleaseIsFresh(w);
    HoldingIsItsOwn(w, 1, |w.release.archives|);
    var t := FailsAndIsQueuedAgain(w, k);
    var job := w.Holding(1, Status.Installing, |w.release.archives|);
    SuccessorRuns(w, t.m, k, job);
    ItIsThere(w, t.m, 1, k);
    var t1 := RunsToTheInstaller(w, t, 1, k);
    var ending := Succeeds(w, t1, 1);
    h := Emptying(ending, ConcludeRun, w.Folder());
    ConcludingHits(w, ending, k);
    LosesInOneWay(World(ending.m, ending.files), h);
    IsOf(ending, ConcludeRun, w.Folder());
    var t2 := Concludes(w, ending, 1);
    var t3 := EndIsSaved(w, t2, k, job);
    DoneOnceFinished(w, 1);
    OnlyBrokenIsLeft(w, t3.m, k, w.Finished(1));
    var t4 := RunsOn(w, t3, k);
    NothingAndMore(w.Downloaded(k, |w.release.archives|));
    LaterDownloadsDoNotHelp(w, World(t4.m, t4.files), k);
    SoItLoses(ending, h, t4);
    before, hs := ending.hs, t4.hs;
  }

  // A job that loses its own archives.

  lemma {:induction false} OnlyOneRuns(m: Machine, waiting: Job, job: Job)
    requires m == Machine(map[0 := waiting], None, {0}) && job.id == 0
    ensures Running(m, job, CallInstaller) == Machine(map[0 := job], Some(Runner(job, CallInstaller)), {0})
  {
  }

  /** The only job runs to the installer, and every file there is lies in its folder. */
  lemma {:induction false} RunsAlone(w: Wish) returns (t: Trail)
    requires w.Valid()
    ensures t.Leads() && Others(t.files.Keys, w.Folder()) == {} && w.Downloaded(0, |w.release.archives|) <= t.files.Keys
    ensures var job := w.Holding(0, Status.Installing, |w.release.archives|);
      t.m == Machine(map[0 := job], Some(Runner(job, CallInstaller)), {0})
  {
    hide *;
    ReleaseIsFresh(w);
    HoldingIsItsOwn(w, 0, |w.release.archives|);
    var t1 := FirstIsQueued(w);
    OnlyOneRuns(t1.m, w.Waiting(0), w.Holding(0, Status.Installing, |w.release.archives|));
    DownloadedGrows(w, 0, 0);
    t := RunsToTheInstaller(w, t1, 0, 0);
  }

  /** A job queued again with every archive counted as complete starts where it believes to be, at the installer. */
  lemma {:induction false} StartsAtTheInstaller(w: Wish, t: Trail) returns (t': Trail)
    requires t.Leads() && t.m == Machine(map[0 := w.Holding(0, Status.Queued, |w.release.archives|)], None, {0})
    ensures t'.Leads() && t.hs <= t'.hs && t'.files == t.files
    ensures t'.m.run == Some(Runner(w.Holding(0, Status.Installing, |w.release.archives|), CallInstaller))
  {
    var n := |w.release.archives|;
    RestartStep(w, t.m, 0, n);
    NextPcIs(w, |w.release.archives|);
    hide Trail.Leads, Next, Wish.Holding;
    var t1 := ThenPlainly(t, StartRun(0));
    t' := Enters(w, t1, 0);
  }

  lemma {:induction false} NothingIsThere(w: Wish, world: World)
    requires world.m.run == Some(Runner(w.Holding(0, Status.Installing, |w.release.archives|), CallInstaller))
    requires world.files.Keys == {}
    ensures forall i | 0 <= i < |w.release.archives| :: CalledWithout(world, i)
  {
  }

  /** What a run deletes of its own job's archives is lost if the job goes on, or the launcher stops. */
  lemma {:induction false} OwnFilesAreHit(w: Wish, m: Machine, h: Happening, review: bool)
    requires w.release.archives != [] && m.run.Some? && Touched(m, h.e) == Some(m.run.value.job)
    requires m.run.value.job == w.Holding(0, Status.Installing, |w.release.archives|) && w.File(0).1 in h.removed
    ensures GoesOn(h.e, review) ==> HitsItself(m, h, review)
    ensures forall files | h.e.Restart? :: ForgetsTheEnd(World(m, files), h)
  {
    var job := m.run.value.job;
    assert job.archives[0].complete && Spoils(m, h, job, 0);
    assert SpoilsSome(m, h, job);
  }

  lemma {:induction false} PutAlone(w: Wish, m: Machine)
    requires m.jobs.Keys == m.used == {0}
    ensures Put(m, w.Broken(0, |w.release.archives|)).(run := None)
            == Machine(map[0 := w.Broken(0, |w.release.archives|)], None, {0})
  {
  }

  lemma {:induction false} InstallerTouches(w: Wish, m: Machine)
    requires m.run == Some(Runner(w.Holding(0, Status.Installing, |w.release.archives|), CallInstaller))
    ensures Touched(m, w.Failing()) == Touched(m, Restart) == Some(m.run.value.job)
    ensures Staging(m.run.value.job) == w.Folder() && Incoming(m, Restart).None? && Enabled(m, Restart)
    ensures GoesOn(w.Failing(), false) && w.Failing().InstallArchives?
  {
  }

  lemma {:induction false} InstallerHits(w: Wish, t: Trail)
    requires w.Valid() && w.Downloaded(0, |w.release.archives|) <= t.files.Keys
    requires t.m.run == Some(Runner(w.Holding(0, Status.Installing, |w.release.archives|), CallInstaller))
    ensures HitsItself(t.m, Emptying(t, w.Failing(), w.Folder()), false)
    ensures ForgetsTheEnd(World(t.m, t.files), Emptying(t, Restart, w.Folder()))
    ensures Touched(t.m, Restart).Some? && Staging(Touched(t.m, Restart).value) == w.Folder()
    ensures Incoming(t.m, Restart).None? && Enabled(t.m, Restart)
  {
    hide *;
    SomeArchives(w);
    InstallerTouches(w, t.m);
    FirstIsAmong(w, t.files, |w.release.archives|);
    IsOf(t, w.Failing(), w.Folder());
    IsOf(t, Restart, w.Folder());
    RemovesNames(t, w.Failing(), w.Folder());
    RemovesNames(t, Restart, w.Folder());
    OwnFilesAreHit(w, t.m, Emptying(t, w.Failing(), w.Folder()), false);
    OwnFilesAreHit(w, t.m, Emptying(t, Restart, w.Folder()), false);
    assert Emptying(t, Restart, w.Folder()).e.Restart?;
    assert ForgetsTheEnd(World(t.m, t.files), Emptying(t, Restart, w.Folder()));
  }

  lemma {:induction false} SomeArchives(w: Wish)
    requires w.Valid()
    ensures w.release.archives != []
  {
  }

  lemma {:induction false} RemovesNames(t: Trail, e: Event, folder: string)
    ensures Emptying(t, e, folder).removed == NamesIn(t.files, folder)
  {
  }

  lemma {:induction false} BrokenIsQueuedAgain(w: Wish, m: Machine)
    requires m == Machine(map[0 := w.Broken(0, |w.release.archives|)], None, {0})
    ensures !Clashes(m, ResumeJob(0))
    ensures m.(jobs := AfterResume(m.jobs, 0))
            == Machine(map[0 := w.Holding(0, Status.Queued, |w.release.archives|)], None, {0})
  {
  }

  /**
   An installer has unpacked the archives and deleted them, as it is told to, and then
   meets a problem, such as an installation that is gone when its review is to be
   saved. The job fails, is resumed, and calls the installer without any archive.
   */
  lemma {:induction false} FailedInstallationLosesFiles(w: Wish)
        returns (before: seq<Happening>, h: Happening, hs: seq<Happening>)
    requires w.Valid()
    ensures h.e == w.Failing() && LosesOnTheWay(before, h, hs)
    ensures forall i | 0 <= i < |w.release.archives| :: CalledWithout(AfterAll(START, hs), i)
  {
    hide *;
    var t := RunsAlone(w);
    h := Emptying(t, w.Failing(), w.Folder());
    InstallerHits(w, t);
    LosesInOneWay(World(t.m, t.files), h);
    IsOf(t, w.Failing(), w.Folder());
    var t1 := FailsToInstall(w, t, 0);
    PutAlone(w, t.m);
    BrokenIsQueuedAgain(w, t1.m);
    var t2 := ThenResumes(t1, 0);
    var t3 := StartsAtTheInstaller(w, t2);
    NothingIsThere(w, World(t3.m, t3.files));
    SoItLoses(t, h, t3);
    before, hs := t.hs, t3.hs;
  }

  lemma {:induction false} RestartQueuesAgain(w: Wish, m: Machine, r: Runner)
    requires m == Machine(map[0 := w.Holding(0, Status.Installing, |w.release.archives|)], Some(r), {0})
    ensures Enabled(m, Restart)
    ensures Next(m, Restart) == Machine(map[0 := w.Holding(0, Status.Queued, |w.release.archives|)], None, {0})
  {
  }

  /**
   The launcher stops while the installer, having deleted the archives, is not yet back.
   It takes the job for one that holds every archive, and calls the installer without
   any of them.
   */
  lemma {:induction false} StoppingTheInstallerLosesFiles(w: Wish)
        returns (before: seq<Happening>, h: Happening, hs: seq<Happening>)
    requires w.Valid()
    ensures h.e == Restart && LosesOnTheWay(before, h, hs) && ComesTo(before, CallInstaller)
    ensures forall i | 0 <= i < |w.release.archives| :: CalledWithout(AfterAll(START, hs), i)
  {
    hide *;
    var t := RunsAlone(w);
    h := Emptying(t, Restart, w.Folder());
    InstallerHits(w, t);
    LosesInOneWay(World(t.m, t.files), h);
    IsOf(t, Restart, w.Folder());
    RestartQueuesAgain(w, t.m, t.m.run.value);
    var t1 := ThenEmpties(t, Restart, w.Folder());
    var t2 := StartsAtTheInstaller(w, t1);
    NothingIsThere(w, World(t2.m, t2.files));
    SoItLoses(t, h, t2);
    before, hs := t.hs, t2.hs;
  }

  lemma {:induction false} EndIsForgotten(w: Wish, m: Machine, files: Files)
    requires w.Valid() && files.Keys == {}
    requires m.run == Some(Runner(w.Finished(0), SaveEnd))
    ensures ForgetsTheEnd(World(m, files), Only(Restart))
  {
    assert w.Finished(0).archives[0].complete;
    assert !HasFile(w.Finished(0), 0, files);
  }

  /**
   A run installs its work and deletes the folder, and the launcher stops before the
   job is saved as installed. Back again, it does the same.
   */
  lemma {:induction false} RestartingForgetsTheEnd(w: Wish)
        returns (before: seq<Happening>, h: Happening, hs: seq<Happening>)
    requires w.Valid()
    ensures h.e == Restart && LosesOnTheWay(before, h, hs) && ComesTo(before, SaveEnd)
    ensures forall i | 0 <= i < |w.release.archives| :: CalledWithout(AfterAll(START, hs), i)
  {
    hide *;
    var t := RunsAlone(w);
    var ending := Succeeds(w, t, 0);
    var t3 := Concludes(w, ending, 0);
    EndIsForgotten(w, t3.m, t3.files);
    LosesInOneWay(World(t3.m, t3.files), Only(Restart));
    IsOf(t3, Restart, "");
    RestartQueuesAgain(w, t3.m, t3.m.run.value);
    var t4 := ThenPlainly(t3, Restart);
    var t5 := StartsAtTheInstaller(w, t4);
    NothingIsThere(w, World(t5.m, t5.files));
    SoItLoses(t3, Only(Restart), t5);
    before, h, hs := t3.hs, Only(Restart), t5.hs;
  }

  lemma {:induction false} HalfCancelled(w: Wish, t: Trail, k: nat) returns (h: Happening, t': Trail)
    requires 0 < k < |w.release.archives| && t.Leads()
    requires t.m == Machine(map[0 := w.Broken(0, k)], None, {0}) && t.files.Keys == w.Downloaded(0, k)
    ensures h.e == CancelJob(0, false) && t'.Leads() && t'.hs == t.hs + [h]
    ensures t'.m == t.m && t'.files.Keys == w.Downloaded(0, k) - {w.File(0)} && HitsItself(t.m, h, false)
  {
    h := Happening(CancelJob(0, false), {w.File(0).1}, false);
    assert w.Broken(0, k).archives[0].complete && Spoils(t.m, h, w.Broken(0, k), 0);
    assert Touched(t.m, h.e) == Some(w.Broken(0, k)) && SpoilsSome(t.m, h, w.Broken(0, k));
    assert Staging(w.Broken(0, k)) == w.Folder();
    hide Trail.Leads, StagingFolder, Wish.Broken;
    t' := Then(t, h);
    assert t'.files == Without(t.files, w.Folder(), {w.File(0).1});
  }

  lemma {:induction false} OneIsMissing(w: Wish, world: World, k: nat)
    requires w.DistinctNames() && 0 < k < |w.release.archives|
    requires world.files.Keys == w.Downloaded(0, k) - {w.File(0)} + w.Downloaded(k, |w.release.archives|)
    requires world.m.run == Some(Runner(w.Holding(0, Status.Installing, |w.release.archives|), CallInstaller))
    ensures CalledWithout(world, 0)
  {
    var job := world.m.run.value.job;
    assert Staging(job) == w.Folder();
    hide StagingFolder, Completed;
    assert FileOf(job, 0) == w.File(0);
    assert forall j | k <= j < |w.release.archives| :: w.File(j) != w.File(0);
  }

  /**
   A failed job is cancelled, and the deletion stops after its first archive. The job
   stays as it was; resumed, it reaches the installer without that archive.
   */
  lemma {:induction false} CancellingHalfwayLosesFiles(w: Wish, k: nat)
        returns (before: seq<Happening>, h: Happening, hs: seq<Happening>)
    requires w.Valid() && w.DistinctNames() && 0 < k < |w.release.archives|
    ensures h.e == CancelJob(0, false) && LosesOnTheWay(before, h, hs)
    ensures CalledWithout(AfterAll(START, hs), 0)
  {
    hide *;
    var t := Fails(w, k);
    var t1;
    h, t1 := HalfCancelled(w, t, k);
    LosesInOneWay(World(t.m, t.files), h);
    var t2 := RunsOn(w, t1, k);
    OneIsMissing(w, World(t2.m, t2.files), k);
    SoItLoses(t, h, t2);
    before, hs := t.hs, t2.hs;
  }

  // A release with two archives of one name.

  lemma {:induction false} SecondOverwrites(w: Wish, t: Trail) returns (h: Happening, t': Trail)
    requires t.Leads() && w.SameNameTwice()
    requires t.m.run == Some(Runner(w.Holding(0, Downloading, 1), Fetch(1)))
    ensures h.e == FetchArchive(None, None) && t'.Leads() && t'.hs == t.hs + [h] && HitsItself(t.m, h, false)
    ensures t'.files == t.files[w.File(1) := w.release.archives[1].sha256]
    ensures t'.m == Running(t.m, w.Holding(0, Downloading, 2), NextPc(w, 2))
  {
    h := Happening(FetchArchive(None, None), {}, true);
    var job := w.Holding(0, Downloading, 1);
    assert job.archives[0].complete && Spoils(t.m, h, job, 0);
    assert SpoilsSome(t.m, h, job);
    t' := ThenDownloads(w, t, 0, 1);
  }

  lemma {:induction false} FirstIsReplaced(w: Wish, world: World)
    requires w.SameNameTwice()
    requires w.File(1) in world.files && world.files[w.File(1)] == w.release.archives[1].sha256
    requires world.m.run == Some(Runner(w.Holding(0, Status.Installing, |w.release.archives|), CallInstaller))
    ensures CalledWithout(world, 0)
  {
    var job := world.m.run.value.job;
    assert Staging(job) == w.Folder();
    hide StagingFolder, Completed;
    assert FileOf(job, 0) == w.File(1) && job.archives[0].sha256 == w.release.archives[0].sha256;
  }

  lemma {:induction false} SameNameIsTwo(w: Wish)
    requires w.SameNameTwice()
    ensures |w.release.archives| == 2 && NextPc(w, 0) == Fetch(0) && NextPc(w, 1) == Fetch(1)
    ensures NextPc(w, 2) == BeginInstall
  {
  }

  /**
   A release lists two archives of one name and different contents. The second
   download replaces the first, and the installer is called without it.
   */
  lemma {:induction false} SameNameTwiceLosesFiles(w: Wish)
        returns (before: seq<Happening>, h: Happening, hs: seq<Happening>)
    requires w.Valid() && w.SameNameTwice()
    ensures h.e == FetchArchive(None, None) && LosesOnTheWay(before, h, hs)
    ensures CalledWithout(AfterAll(START, hs), 0)
  {
    hide *;
    ReleaseIsFresh(w);
    SameNameIsTwo(w);
    HoldingIsItsOwn(w, 0, 0);
    HoldingIsItsOwn(w, 0, 1);
    var t1 := FirstIsQueued(w);
    var t2 := Locates(w, t1, 0);
    RunningRuns(t1.m, w.Holding(0, Downloading, 0), Fetch(0));
    var t := ThenDownloads(w, t2, 0, 0);
    RunningRuns(t2.m, w.Holding(0, Downloading, 1), Fetch(1));
    var t3;
    h, t3 := SecondOverwrites(w, t);
    LosesInOneWay(World(t.m, t.files), h);
    RunningRuns(t.m, w.Holding(0, Downloading, 2), BeginInstall);
    var t4 := Enters(w, t3, 0);
    RunningRuns(t3.m, w.Holding(0, Status.Installing, 2), CallInstaller);
    FirstIsReplaced(w, World(t4.m, t4.files));
    SoItLoses(t, h, t4);
    before, hs := t.hs, t4.hs;
  }

  // A job in review.

  lemma {:induction false} ToReview(w: Wish, t: Trail) returns (t': Trail)
    requires t.Leads()
    requires var job := w.Holding(0, Status.Installing, |w.release.archives|);
      t.m == Machine(map[0 := job], Some(Runner(job, CallInstaller)), {0})
    ensures t'.Leads() && t'.files == t.files && t'.m == Machine(map[0 := w.Reviewed(0)], None, {0})
  {
    hide Trail.Leads, StagingFolder, Wish.Got, Completed;
    t' := ThenPlainly(t, InstallArchives(Ok(ReviewOf(0, w.detail))));
    t' := ThenPlainly(t', ConcludeRun);
    t' := ThenPlainly(t', SaveRunEnd);
    assert t'.m.jobs == map[0 := w.Reviewed(0)];
  }

  /** An event takes files from a job in review, and from no job that may still run. */
  ghost predicate TakesFromReview(w: World, h: Happening) {
    && CanHappen(w, h) && Loses(w, h, true) && !Loses(w, h, false)
    && 0 in w.m.jobs && w.m.jobs[0].status.NeedsReview? && !HasFiles(w.m.jobs[0], After(w, h).files)
  }

  lemma {:induction false} ReviewedIsSpoiled(w: Wish, m: Machine, h: Happening)
    requires w.release.archives != [] && h.e == CancelJob(1, true) && w.File(0).1 in h.removed
    requires m == Machine(map[0 := w.Reviewed(0), 1 := w.Waiting(1)], None, {0, 1})
    ensures HitsAnother(m, h, true) && !HitsAnother(m, h, false)
  {
    var job := w.Reviewed(0);
    assert job.archives[0].complete && Spoils(m, h, job, 0);
    assert SpoilsSome(m, h, job) && CountsOn(m, 0, true);
    hide SpoilsSome, Spoils;
    assert forall id | CountsOn(m, id, false) :: id == 1;
  }

  lemma {:induction false} CancelledCanHappen(w: Wish, t: Trail)
    requires 1 in t.m.jobs && t.m.jobs[1] == w.Waiting(1)
    ensures CanHappen(World(t.m, t.files), Emptying(t, CancelJob(1, true), w.Folder()))
  {
    hide StagingFolder;
  }

  /** A file that an event removes, and writes no other for, is gone. */
  lemma {:induction false} RemovedIsGone(world: World, h: Happening, job: Job, i: nat)
    requires i < |job.archives| && Touched(world.m, h.e).Some? && Staging(Touched(world.m, h.e).value) == Staging(job)
    requires job.archives[i].fileName in h.removed && !h.wrote
    ensures !HasFile(job, i, FilesAfter(world, h))
  {
    hide Touched, Incoming, Staging;
  }

  lemma {:induction false} NothingElseLoses(world: World, h: Happening)
    requires h.e == CancelJob(1, true) && !HitsAnother(world.m, h, false)
    ensures !Loses(world, h, false)
  {
  }

  lemma {:induction false} ReviewedMissesOne(w: Wish, t: Trail)
    requires w.release.archives != [] && w.File(0).1 in Emptying(t, CancelJob(1, true), w.Folder()).removed
    requires Touched(t.m, CancelJob(1, true)) == Some(w.Waiting(1))
    ensures !HasFiles(w.Reviewed(0), FilesAfter(World(t.m, t.files), Emptying(t, CancelJob(1, true), w.Folder())))
  {
    var job := w.Reviewed(0);
    assert job.archives[0].complete && job.archives[0].fileName == w.File(0).1;
    assert Staging(job) == Staging(w.Waiting(1));
    RemovedIsGone(World(t.m, t.files), Emptying(t, CancelJob(1, true), w.Folder()), job, 0);
    hide FilesAfter, Staging, Wish.Reviewed, Wish.Waiting;
  }

  lemma {:induction false} CancellingTouches(w: Wish, m: Machine)
    requires m == Machine(map[0 := w.Reviewed(0), 1 := w.Waiting(1)], None, {0, 1})
    ensures Touched(m, CancelJob(1, true)) == Some(w.Waiting(1)) && 1 in m.jobs && m.jobs[1] == w.Waiting(1)
    ensures 0 in m.jobs && m.jobs[0] == w.Reviewed(0) && m.jobs[0].status.NeedsReview?
  {
    hide Wish.Got, Completed;
  }

  lemma {:induction false} ReviewedIsHit(w: Wish, t: Trail)
    requires w.Valid() && w.Downloaded(0, |w.release.archives|) <= t.files.Keys
    requires t.m == Machine(map[0 := w.Reviewed(0), 1 := w.Waiting(1)], None, {0, 1})
    ensures TakesFromReview(World(t.m, t.files), Emptying(t, CancelJob(1, true), w.Folder()))
  {
    hide *;
    var h := Emptying(t, CancelJob(1, true), w.Folder());
    SomeArchives(w);
    FirstIsAmong(w, t.files, |w.release.archives|);
    RemovesNames(t, CancelJob(1, true), w.Folder());
    IsOf(t, CancelJob(1, true), w.Folder());
    CancellingTouches(w, t.m);
    CancelledCanHappen(w, t);
    ReviewedIsSpoiled(w, t.m, h);
    NothingElseLoses(World(t.m, t.files), h);
    ReviewedMissesOne(w, t);
    SoItTakes(World(t.m, t.files), h);
  }

  lemma {:induction false} SoItTakes(world: World, h: Happening)
    requires CanHappen(world, h) && HitsAnother(world.m, h, true) && !Loses(world, h, false)
    requires 0 in world.m.jobs && world.m.jobs[0].status.NeedsReview?
    requires !HasFiles(world.m.jobs[0], FilesAfter(world, h))
    ensures TakesFromReview(world, h)
  {
    hide CanHappen, HitsAnother, HitsItself, ForgetsTheEnd, HasFiles, FilesAfter, Next;
  }

  lemma {:induction false} ReviewedIsFinished(w: Wish, m: Machine)
    requires m == Machine(map[0 := w.Reviewed(0)], None, {0})
    ensures !HasUnfinished(m.jobs, w.code)
    ensures DeliveryTrails.Queued(w, m, 1)
            == Machine(map[0 := w.Reviewed(0), 1 := w.Waiting(1)], None, {0, 1})
  {
    assert DeliveryTrails.Queued(w, m, 1).jobs == map[0 := w.Reviewed(0), 1 := w.Waiting(1)];
  }

  /**
   A work whose archives wait for a review is queued again, and that job is cancelled:
   what the review needs is gone, although no job that may still run has lost anything.
   */
  lemma {:induction false} CancellingTakesFromReview(w: Wish) returns (hs: seq<Happening>, h: Happening)
    requires w.Valid()
    ensures h.e == CancelJob(1, true) && Possible(START, hs) && TakesFromReview(AfterAll(START, hs), h)
  {
    hide *;
    var t1 := RunsAlone(w);
    var t2 := ToReview(w, t1);
    ReviewedIsFinished(w, t2.m);
    var t := Queues(w, t2, 1);
    h := Emptying(t, CancelJob(1, true), w.Folder());
    IsOf(t, CancelJob(1, true), w.Folder());
    ReviewedIsHit(w, t);
    WhereItLeads(t);
    hs := t.hs;
  }

  lemma {:induction false} WhereItLeads(t: Trail)
    requires t.Leads()
    ensures Possible(START, t.hs) && AfterAll(START, t.hs) == World(t.m, t.files)
  {
  }
}
