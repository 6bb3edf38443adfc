/**
 Runs of the delivery machine from an empty store, put together event by event: a
 work is queued, located, downloaded as far as one likes, and fails or is installed.
 */
module DeliveryTrails {
  import opened Wrappers
  import opened Text
  import opened NewestRelease
  import opened DeliveryJobs
  import opened DeliveryMachine
  import opened DeliverySafety
  import opened DeliveryConflicts
  import opened DeliveryFiles

  /** A request for a work whose newest release the catalog knows and can verify, and what its runs meet. */
  datatype Wish = Wish(code: string, folder: string, roms: seq<Rom>, release: Release, paths: seq<string>,
                       problem: Problem, detail: string)
  {
    ghost predicate Valid() {
      && IsWorkCode(code) && IsTrimmed(code, IsWhiteSpace) && Trim(folder) != []
      && IsReleaseOf(roms, Ok(release)) && release.archives != [] && |paths| == |release.archives|
    }

    /** What is said of its archives: none is located or downloaded yet, and each has a path. */
    predicate Fresh() {
      release.archives != [] && |paths| == |release.archives|
      && forall i | 0 <= i < |release.archives| :: release.archives[i].remotePath.None? && !release.archives[i].complete
    }

    ghost predicate DistinctNames() {
      forall i, j | 0 <= i < j < |release.archives| :: release.archives[i].fileName != release.archives[j].fileName
    }

    /** Two archives of one name and different contents. */
    predicate SameNameTwice() {
      && |release.archives| == 2 && release.archives[0].fileName == release.archives[1].fileName
      && release.archives[0].sha256 != release.archives[1].sha256
    }

    function Queueing(id: JobId): Event {
      QueueWork(code, folder, id, id, Listed(code, roms, Ok(release)))
    }

    function Waiting(id: JobId): Job {
      NewJob(id, code, release.archives, folder, id)
    }

    /** The archives once they are located and the first `k` are downloaded. */
    function Got(k: nat): seq<Archive> {
      seq(|release.archives|, i requires 0 <= i < |release.archives| =>
        release.archives[i].(remotePath := Some(if i < |paths| then paths[i] else ""), complete := i < k))
    }

    function Holding(id: JobId, status: Status, k: nat): Job {
      Waiting(id).(status := status, archives := Got(k), received := Completed(Got(k)))
    }

    function Broken(id: JobId, k: nat): Job {
      Holding(id, Status.Failed, k).(problem := Some(problem), detail := Some(detail))
    }

    /** A run whose installation has just succeeded. */
    function Ending(id: JobId): Runner {
      Runner(Holding(id, Status.Installing, |release.archives|), Conclude(Delivered(InstalledAs(0))))
    }

    function Finished(id: JobId): Job {
      Holding(id, Installed, |release.archives|).(installation := Some(0))
    }

    /** A job that ended in review. */
    function Reviewed(id: JobId): Job {
      Holding(id, NeedsReview, |release.archives|).(installation := Some(0), detail := Some(detail))
    }

    function Failing(): Event {
      InstallArchives(Err(ProblemError(problem, detail)))
    }

    function Folder(): string {
      StagingFolder(folder, code)
    }

    function File(i: nat): (string, string) {
      (Folder(), if i < |release.archives| then release.archives[i].fileName else "")
    }

    /** The downloaded files of the archives from `k` to `l`. */
    function Downloaded(k: nat, l: nat): set<(string, string)> {
      set i | k <= i < l :: File(i)
    }
  }

  lemma {:induction false} GoodRom(name: string, digit: char)
    requires name != [] && IsTrimmed(name, IsWhiteSpace) && digit in "ab"
    ensures var rom := Rom(name, "1", seq(64, i => digit), "", "");
      Verifiable(rom) && ArchiveOf(rom).fileName == name && ArchiveOf(rom).sha256 == rom.sha256
  {
    var hash := seq(64, i => digit);
    TrimmedStays(name, IsWhiteSpace);
    TrimmedStays("1", IsWhiteSpace);
    TrimmedStays(hash, IsWhiteSpace);
    assert Lower(hash) == hash;
    assert Digits("1") == 1 by {
      assert "1"[..0] == "";
    }
  }

  lemma {:induction false} TwoArchives(a: Rom, b: Rom)
    requires Verifiable(a) && Verifiable(b)
    ensures Archives([a, b]) == Ok([ArchiveOf(a), ArchiveOf(b)])
  {
    hide Verifiable, ArchiveOf;
    assert [a, b][1..] == [b] && [b][1..] == [];
    assert [ArchiveOf(b)] + [] == [ArchiveOf(b)];
    assert Archives([b]) == Ok([ArchiveOf(b)]);
    assert [ArchiveOf(a)] + [ArchiveOf(b)] == [ArchiveOf(a), ArchiveOf(b)];
  }

  lemma {:induction false} OneRelease(a: Rom, b: Rom)
    requires Verifiable(a) && Verifiable(b) && KeyOf(a) == KeyOf(b)
    ensures IsReleaseOf([a, b], Ok(Release(KeyOf(a), [ArchiveOf(a), ArchiveOf(b)])))
  {
    var roms, key := [a, b], KeyOf(a);
    TwoArchives(a, b);
    hide Verifiable, ArchiveOf, KeyOf;
    assert Members([a], key) == [a] by {
      assert [a][..0] == [];
    }
    assert Members(roms, key) == roms by {
      assert roms[..1] == [a];
    }
    assert IsNewest(roms, key) by {
      assert KeyOf(roms[0]) == key;
    }
    assert Ok(Release(key, [ArchiveOf(a), ArchiveOf(b)])) == ReleaseWith(roms, key);
  }

  /** There are such requests, with two archives of any names and of different contents. */
  lemma {:induction false} SomeWishIsValid(first: string, second: string) returns (w: Wish)
    requires first != [] && IsTrimmed(first, IsWhiteSpace) && second != [] && IsTrimmed(second, IsWhiteSpace)
    ensures w.Valid() && |w.release.archives| == 2
    ensures if first == second then w.SameNameTwice() else w.DistinctNames()
  {
    var a, b := Rom(first, "1", seq(64, i => 'a'), "", ""), Rom(second, "1", seq(64, i => 'b'), "", "");
    GoodRom(first, 'a');
    GoodRom(second, 'b');
    assert a.sha256[0] != b.sha256[0];
    assert KeyOf(a) == KeyOf(b);
    OneRelease(a, b);
    CodeIsGood();
    hide *;
    w := Wish("x", "x", [a, b], Release(KeyOf(a), [ArchiveOf(a), ArchiveOf(b)]), ["a", "b"], Unreachable, "");
    ValidIf(w);
    TwoNames(w);
  }

  lemma {:induction false} TwoNames(w: Wish)
    requires |w.release.archives| == 2 && w.release.archives[0].sha256 != w.release.archives[1].sha256
    ensures if w.release.archives[0].fileName == w.release.archives[1].fileName
        then w.SameNameTwice() else w.DistinctNames()
  {
  }

  lemma {:induction false} ValidIf(w: Wish)
    requires IsWorkCode(w.code) && IsTrimmed(w.code, IsWhiteSpace) && Trim(w.folder) != []
    requires IsReleaseOf(w.roms, Ok(w.release)) && w.release.archives != [] && |w.paths| == |w.release.archives|
    ensures w.Valid()
  {
  }

  lemma {:induction false} CodeIsGood()
    ensures IsWorkCode("x") && IsTrimmed("x", IsWhiteSpace) && Trim("x") != []
  {
    TrimmedStays("x", IsWhiteSpace);
  }

  /** A run from the empty store in which no failed job is resumed beside another, and where it leads. */
  datatype Trail = Trail(hs: seq<Happening>, m: Machine, files: Files) {
    ghost predicate Leads() {
      && Possible(START, hs) && AfterAll(START, hs) == World(m, files)
      && Runnable(EMPTY, EventsOf(hs)) && NeverClashes(EMPTY, EventsOf(hs))
    }
  }

  lemma {:induction false} GoOn(w: World, hs: seq<Happening>, h: Happening)
    requires Possible(w, hs) && CanHappen(AfterAll(w, hs), h)
    ensures Possible(w, hs + [h]) && AfterAll(w, hs + [h]) == After(AfterAll(w, hs), h)
    ensures EventsOf(hs + [h]) == EventsOf(hs) + [h.e]
    decreases |hs|
  {
    hide After, CanHappen;
    if hs == [] {
      assert [] + [h] == [h] && [h][1..] == [];
      assert EventsOf([h]) == [h.e] + EventsOf([]);
    } else {
      GoOn(After(w, hs[0]), hs[1..], h);
      assert (hs + [h])[1..] == hs[1..] + [h];
    }
  }

  lemma {:induction false} ClashesLast(m: Machine, es: seq<Event>, e: Event)
    requires Runnable(m, es) && Runnable(m, es + [e])
    ensures Enabled(Run(m, es), e)
    ensures NeverClashes(m, es + [e]) <==> NeverClashes(m, es) && !Clashes(Run(m, es), e)
    decreases |es|
  {
    hide Next, Enabled, Clashes;
    if es == [] {
      assert [] + [e] == [e] && [e][1..] == [];
    } else {
      assert (es + [e])[1..] == es[1..] + [e];
      ClashesLast(Next(m, es[0]), es[1..], e);
    }
  }

  lemma {:induction false} Then(t: Trail, h: Happening) returns (t': Trail)
    requires t.Leads() && CanHappen(World(t.m, t.files), h) && (h.e.ResumeJob? ==> !Clashes(t.m, h.e))
    ensures t'.Leads() && t'.hs == t.hs + [h]
    ensures t'.m == After(World(t.m, t.files), h).m && t'.files == After(World(t.m, t.files), h).files
  {
    hide After, CanHappen;
    GoOn(START, t.hs, h);
    HappeningsAreARun(START, t.hs);
    HappeningsAreARun(START, t.hs + [h]);
    ClashesLast(EMPTY, EventsOf(t.hs), h.e);
    var now := After(World(t.m, t.files), h);
    t' := Trail(t.hs + [h], now.m, now.files);
  }

  /** An event that happens without a change of files. */
  function Only(e: Event): Happening {
    Happening(e, {}, false)
  }

  lemma {:induction false} OnlyCanHappen(w: World, e: Event)
    requires Enabled(w.m, e) && !e.CancelJob? && (e.FetchArchive? ==> e.fetch.Some?)
    ensures CanHappen(w, Only(e)) && After(w, Only(e)) == World(Next(w.m, e), w.files)
  {
    hide Enabled, Next, Touched, Incoming, Staging;
    assert forall folder :: Without(w.files, folder, {}) == w.files;
  }

  /** It happens next. */
  lemma {:induction false} ThenPlainly(t: Trail, e: Event) returns (t': Trail)
    requires t.Leads() && Enabled(t.m, e) && !e.CancelJob? && (e.FetchArchive? ==> e.fetch.Some?)
    requires e.ResumeJob? ==> !Clashes(t.m, e)
    ensures t'.Leads() && t' == Trail(t.hs + [Only(e)], Next(t.m, e), t.files)
  {
    hide Trail.Leads, Next, Enabled;
    OnlyCanHappen(World(t.m, t.files), e);
    t' := Then(t, Only(e));
  }

  lemma {:induction false} ThenResumes(t: Trail, id: JobId) returns (t': Trail)
    requires t.Leads() && !Clashes(t.m, ResumeJob(id))
    ensures t'.Leads() && t.hs <= t'.hs && t'.m == t.m.(jobs := AfterResume(t.m.jobs, id)) && t'.files == t.files
  {
    hide Trail.Leads, AfterResume, Clashes;
    t' := ThenPlainly(t, ResumeJob(id));
  }

  lemma {:induction false} NoStep() returns (t: Trail)
    ensures t == Trail([], EMPTY, map[]) && t.Leads()
  {
    t := Trail([], EMPTY, map[]);
  }

  lemma {:induction false} ReleaseIsFresh(w: Wish)
    requires w.Valid()
    ensures w.Fresh()
  {
    var k :| IsNewest(w.roms, k) && Ok(w.release) == ReleaseWith(w.roms, k);
    ReleaseStartsEmpty(Members(w.roms, k));
  }

  /** What a new job's archives become by being located. */
  lemma {:induction false} GotNone(w: Wish)
    requires w.Fresh()
    ensures WithPaths(w.release.archives, w.paths) == w.Got(0) && Completed(w.Got(0)) == 0
    ensures Completed(w.release.archives) == 0 && |w.paths| == |w.release.archives|
  {
    NothingCompleted(w.Got(0));
    NothingCompleted(w.release.archives);
  }

  /** What downloading the next archive makes of them. */
  lemma {:induction false} GotNext(w: Wish, k: nat)
    requires k < |w.release.archives|
    ensures w.Got(k)[k := w.Got(k)[k].(complete := true)] == w.Got(k + 1)
    ensures Completed(w.Got(k + 1)) == Completed(w.Got(k)) + w.Got(k)[k].size
  {
    CompletingAddsItsSize(w.Got(k), k);
  }

  /** Where a run goes on after the first `k` archives. */
  function NextPc(w: Wish, k: nat): Pc {
    if k < |w.release.archives| then Fetch(k) else BeginInstall
  }

  lemma {:induction false} FetchFromNext(w: Wish, from: nat, k: nat)
    requires from <= k <= |w.release.archives|
    ensures FetchFrom(w.Got(k), from) == NextPc(w, k)
    decreases k - from
  {
    if from < k {
      FetchFromNext(w, from + 1, k);
    }
  }

  // Steps on the way.

  function Put(m: Machine, job: Job): Machine {
    m.(jobs := m.jobs[job.id := job])
  }

  /** A run under way with its job as stored. */
  function Running(m: Machine, job: Job, pc: Pc): Machine {
    Put(m, job).(run := Some(Runner(job, pc)))
  }

  function Queued(w: Wish, m: Machine, id: JobId): Machine {
    Put(m, w.Waiting(id)).(used := m.used + {id})
  }

  lemma {:induction false} QueueStep(w: Wish, m: Machine, id: JobId)
    requires w.Valid() && id !in m.used && !HasUnfinished(m.jobs, w.code)
    ensures Enabled(m, w.Queueing(id)) && Next(m, w.Queueing(id)) == Queued(w, m, id)
  {
    TrimmedStays(w.code, IsWhiteSpace);
  }

  lemma {:induction false} Queues(w: Wish, t: Trail, id: JobId) returns (t': Trail)
    requires w.Valid() && t.Leads() && id !in t.m.used && !HasUnfinished(t.m.jobs, w.code)
    ensures t'.Leads() && t'.m == Queued(w, t.m, id) && t'.files == t.files
  {
    QueueStep(w, t.m, id);
    hide Trail.Leads, Next, Enabled, Wish.Valid, HasUnfinished;
    t' := ThenPlainly(t, w.Queueing(id));
  }

  lemma {:induction false} StartStep(w: Wish, m: Machine, id: JobId)
    requires w.Fresh() && m.run.None? && id in m.jobs && m.jobs[id] == w.Waiting(id)
    ensures Next(m, StartRun(id)) == Running(m, w.Waiting(id).(status := Downloading), Locate)
  {
    var job := w.Waiting(id).(status := Downloading);
    assert job.archives[0].remotePath.None?;
    assert !AllLocated(job.archives);
    hide FetchFrom, AllLocated, Wish.Fresh;
    assert Next(m, StartRun(id)) == Started(m, id);
  }

  lemma {:induction false} LocateStep(w: Wish, m: Machine, id: JobId)
    requires |w.paths| == |w.release.archives| && WithPaths(w.release.archives, w.paths) == w.Got(0)
    requires Completed(w.Got(0)) == 0 && FetchFrom(w.Got(0), 0) == NextPc(w, 0)
    requires m.run == Some(Runner(w.Waiting(id).(status := Downloading), Locate))
    ensures Next(m, LocateArchives(Ok(w.paths))) == Running(m, w.Holding(id, Downloading, 0), NextPc(w, 0))
  {
    hide Completed, FetchFrom, WithPaths, Wish.Got;
    assert Next(m, LocateArchives(Ok(w.paths))) == Located(m, m.run.value, Ok(w.paths));
    hide Next;
  }

  lemma {:induction false} RestartStep(w: Wish, m: Machine, id: JobId, k: nat)
    requires m.run.None? && id in m.jobs && k <= |w.release.archives| && m.jobs[id] == w.Holding(id, Status.Queued, k)
    ensures Next(m, StartRun(id)) == Running(m, w.Holding(id, Downloading, k), NextPc(w, k))
  {
    assert AllLocated(w.Got(k));
    FetchFromNext(w, 0, k);
    hide Completed, FetchFrom, AllLocated, Wish.Got;
  }

  lemma {:induction false} DownloadStep(w: Wish, m: Machine, id: JobId, k: nat)
    requires k < |w.release.archives| && m.run == Some(Runner(w.Holding(id, Downloading, k), Fetch(k)))
    ensures var e := FetchArchive(None, None);
      Enabled(m, e) && Next(m, e) == Running(m, w.Holding(id, Downloading, k + 1), NextPc(w, k + 1))
    ensures Incoming(m, FetchArchive(None, None)) == Some(w.Got(k)[k])
  {
    GotNext(w, k);
    FetchFromNext(w, k + 1, k + 1);
    hide Completed, FetchFrom, StagingFolder, Wish.Got;
  }

  /** The next archive is downloaded. */
  lemma {:induction false} ThenDownloads(w: Wish, t: Trail, id: JobId, k: nat) returns (t': Trail)
    requires t.Leads() && k < |w.release.archives|
    requires t.m.run == Some(Runner(w.Holding(id, Downloading, k), Fetch(k)))
    ensures t'.Leads() && t'.hs == t.hs + [Happening(FetchArchive(None, None), {}, true)]
    ensures t'.files == t.files[w.File(k) := w.release.archives[k].sha256]
    ensures t'.m == Running(t.m, w.Holding(id, Downloading, k + 1), NextPc(w, k + 1))
  {
    DownloadStep(w, t.m, id, k);
    var h := Happening(FetchArchive(None, None), {}, true);
    assert Staging(t.m.run.value.job) == w.Folder();
    assert forall folder :: Without(t.files, folder, {}) == t.files;
    hide Trail.Leads, Next, Enabled, Completed, StagingFolder, Wish.Holding, Running;
    t' := Then(t, h);
  }

  function Breaking(w: Wish): Event {
    FetchArchive(None, Some(ProblemError(w.problem, w.detail)))
  }

  lemma {:induction false} BreakSteps(w: Wish, m: Machine, id: JobId, k: nat)
    requires k < |w.release.archives| && m.run == Some(Runner(w.Holding(id, Downloading, k), Fetch(k)))
    ensures Enabled(m, Breaking(w)) && Enabled(Next(m, Breaking(w)), ConcludeRun)
    ensures var m2 := Next(Next(m, Breaking(w)), ConcludeRun);
      m2 == m.(run := Some(Runner(w.Broken(id, k), SaveEnd))) && Enabled(m2, SaveRunEnd)
    ensures Breaking(w).FetchArchive? && Breaking(w).fetch.Some?
  {
    assert |w.Got(k)| == |w.release.archives|;
    hide Completed, Wish.Got;
  }

  lemma {:induction false} BrokenIsSaved(w: Wish, m: Machine, id: JobId, k: nat)
    requires m.run == Some(Runner(w.Broken(id, k), SaveEnd))
    ensures Enabled(m, SaveRunEnd) && Next(m, SaveRunEnd) == Put(m, w.Broken(id, k)).(run := None)
  {
    hide Completed, Wish.Got;
  }

  lemma {:induction false} PutElsewhere(m: Machine, job: Job, run: Option<Runner>)
    ensures Put(m.(run := run), job).(run := None) == Put(m, job).(run := None)
  {
  }

  /** A job not started before starts and has its archives located. */
  lemma {:induction false} Locates(w: Wish, t: Trail, id: JobId) returns (t': Trail)
    requires w.Fresh() && t.Leads() && t.m.run.None? && id in t.m.jobs && t.m.jobs[id] == w.Waiting(id)
    ensures t'.Leads() && t'.files == t.files && t'.m == Running(t.m, w.Holding(id, Downloading, 0), NextPc(w, 0))
  {
    hide *;
    StartStep(w, t.m, id);
    RunsCanBegin(w, t.m, id);
    HoldingIsItsOwn(w, id, 0);
    var t1 := ThenPlainly(t, StartRun(id));
    RunningRuns(t.m, w.Waiting(id).(status := Downloading), Locate);
    GotNone(w);
    FetchFromNext(w, 0, 0);
    LocateStep(w, t1.m, id);
    RunsCanBegin(w, t1.m, id);
    t' := ThenPlainly(t1, LocateArchives(Ok(w.paths)));
    RunningAgain(t.m, w.Waiting(id).(status := Downloading), Locate, w.Holding(id, Downloading, 0), NextPc(w, 0));
  }

  lemma {:induction false} RunsCanBegin(w: Wish, m: Machine, id: JobId)
    ensures m.run.None? ==> Enabled(m, StartRun(id))
    ensures m.run.Some? && m.run.value.pc.Locate? ==> Enabled(m, LocateArchives(Ok(w.paths)))
  {
  }

  lemma {:induction false} NextPcIs(w: Wish, k: nat)
    ensures NextPc(w, k) == if k < |w.release.archives| then Fetch(k) else BeginInstall
  {
  }

  lemma {:induction false} DownloadedGrows(w: Wish, k: nat, l: nat)
    requires k <= l
    ensures w.Downloaded(k, l) == if k < l then {w.File(k)} + w.Downloaded(k + 1, l) else {}
  {
  }

  lemma {:induction false} HoldingIsItsOwn(w: Wish, id: JobId, k: nat)
    ensures w.Holding(id, Downloading, k).id == w.Holding(id, Status.Installing, k).id == id
    ensures w.Waiting(id).id == w.Broken(id, k).id == w.Finished(id).id == id
  {
  }

  lemma {:induction false} RunningRuns(m: Machine, job: Job, pc: Pc)
    ensures var after := Running(m, job, pc);
      after.run == Some(Runner(job, pc)) && job.id in after.jobs && after.jobs[job.id] == job
  {
  }

  lemma {:induction false} RunningAgain(m: Machine, first: Job, pc: Pc, second: Job, next: Pc)
    requires first.id == second.id
    ensures Running(Running(m, first, pc), second, next) == Running(m, second, next)
  {
  }

  /** The archives from `k` to `l` are downloaded one after another. */
  lemma {:induction false} Downloads(w: Wish, t: Trail, id: JobId, k: nat, l: nat) returns (t': Trail)
    requires t.Leads() && k <= l <= |w.release.archives|
    requires t.m == Running(t.m, w.Holding(id, Downloading, k), NextPc(w, k))
    ensures t'.Leads() && t.hs <= t'.hs && t'.files.Keys == t.files.Keys + w.Downloaded(k, l)
    ensures t'.m == Running(t.m, w.Holding(id, Downloading, l), NextPc(w, l))
    decreases l - k
  {
    hide *;
    if k == l {
      t' := t;
      DownloadedGrows(w, k, k);
    } else {
      var job, next := w.Holding(id, Downloading, k), w.Holding(id, Downloading, k + 1);
      RunningRuns(t.m, job, NextPc(w, k));
      NextPcIs(w, k);
      var t1 := ThenDownloads(w, t, id, k);
      assert t1.files.Keys == t.files.Keys + {w.File(k)};
      HoldingIsItsOwn(w, id, k);
      HoldingIsItsOwn(w, id, k + 1);
      HoldingIsItsOwn(w, id, l);
      RunningAgain(t.m, next, NextPc(w, k + 1), next, NextPc(w, k + 1));
      t' := Downloads(w, t1, id, k + 1, l);
      RunningAgain(t.m, next, NextPc(w, k + 1), w.Holding(id, Downloading, l), NextPc(w, l));
      DownloadedGrows(w, k, l);
    }
  }

  /** A run that met a problem at archive `k` records it. */
  lemma {:induction false} Breaks(w: Wish, t: Trail, id: JobId, k: nat) returns (t': Trail)
    requires t.Leads() && k < |w.release.archives|
    requires t.m.run == Some(Runner(w.Holding(id, Downloading, k), Fetch(k)))
    ensures t'.Leads() && t'.files == t.files && t'.m == Put(t.m, w.Broken(id, k)).(run := None)
  {
    hide *;
    BreakSteps(w, t.m, id, k);
    t' := ThenPlainly(t, Breaking(w));
    t' := ThenPlainly(t', ConcludeRun);
    BrokenIsSaved(w, t'.m, id, k);
    PutElsewhere(t.m, w.Broken(id, k), t'.m.run);
    t' := ThenPlainly(t', SaveRunEnd);
  }

  /** All archives are there and the installer is about to be called. */
  lemma {:induction false} Enters(w: Wish, t: Trail, id: JobId) returns (t': Trail)
    requires t.Leads() && t.m.run == Some(Runner(w.Holding(id, Downloading, |w.release.archives|), BeginInstall))
    ensures t'.Leads() && t.hs <= t'.hs && t'.files == t.files
    ensures t'.m == Running(t.m, w.Holding(id, Status.Installing, |w.release.archives|), CallInstaller)
  {
    hide Trail.Leads;
    t' := ThenPlainly(t, EnterInstalling(None));
  }

  lemma {:induction false} Succeeds(w: Wish, t: Trail, id: JobId) returns (t': Trail)
    requires t.Leads() && t.m.run == Some(Runner(w.Holding(id, Status.Installing, |w.release.archives|), CallInstaller))
    ensures t'.Leads() && t'.m == t.m.(run := Some(w.Ending(id))) && t'.files == t.files
  {
    hide Trail.Leads, StagingFolder;
    t' := ThenPlainly(t, InstallArchives(Ok(InstalledAs(0))));
  }

  // Deletions.

  function Others(keys: set<(string, string)>, folder: string): set<(string, string)> {
    set f | f in keys && f.0 != folder
  }

  /** The names of the files in a folder. */
  function NamesIn(files: Files, folder: string): set<string> {
    set f | f in files && f.0 == folder :: f.1
  }

  /** An event that empties the folder of its job. */
  function Emptying(t: Trail, e: Event, folder: string): Happening {
    Happening(e, NamesIn(t.files, folder), false)
  }

  /** A deletion of a job's folder by its cancellation, its run or its installer. */
  lemma {:induction false} ThenEmpties(t: Trail, e: Event, folder: string) returns (t': Trail)
    requires t.Leads() && Enabled(t.m, e) && !e.ResumeJob? && Incoming(t.m, e).None?
    requires Touched(t.m, e).Some? && Staging(Touched(t.m, e).value) == folder
    ensures t'.Leads() && t'.hs == t.hs + [Emptying(t, e, folder)] && t'.m == Next(t.m, e)
    ensures t'.files.Keys == Others(t.files.Keys, folder)
  {
    hide Trail.Leads, StagingFolder, Next, Enabled;
    var h := Emptying(t, e, folder);
    assert CanHappen(World(t.m, t.files), h);
    t' := Then(t, h);
    assert t'.files == Without(t.files, folder, h.removed);
    assert forall f | f in t.files && f.0 == folder :: f.1 in h.removed;
  }

  /** A run whose installation succeeded deletes its folder. */
  lemma {:induction false} Concludes(w: Wish, t: Trail, id: JobId) returns (t': Trail)
    requires t.Leads() && t.m.run == Some(w.Ending(id))
    ensures t'.Leads() && t'.hs == t.hs + [Emptying(t, ConcludeRun, w.Folder())]
    ensures t'.files.Keys == Others(t.files.Keys, w.Folder())
    ensures t'.m == t.m.(run := Some(Runner(w.Finished(id), SaveEnd)))
  {
    hide Trail.Leads, StagingFolder;
    t' := ThenEmpties(t, ConcludeRun, w.Folder());
  }

  /** An installer that has deleted the archives reports a problem, which is recorded. */
  lemma {:induction false} FailsToInstall(w: Wish, t: Trail, id: JobId) returns (t': Trail)
    requires t.Leads() && t.m.run == Some(Runner(w.Holding(id, Status.Installing, |w.release.archives|), CallInstaller))
    ensures t'.Leads() && t.hs + [Emptying(t, w.Failing(), w.Folder())] <= t'.hs
    ensures t'.files.Keys == Others(t.files.Keys, w.Folder())
    ensures t'.m == Put(t.m, w.Broken(id, |w.release.archives|)).(run := None)
  {
    hide Trail.Leads, StagingFolder;
    t' := ThenEmpties(t, w.Failing(), w.Folder());
    t' := ThenPlainly(t', ConcludeRun);
    t' := ThenPlainly(t', SaveRunEnd);
  }
}
