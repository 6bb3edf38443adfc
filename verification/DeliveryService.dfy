/**
 The delivery service as it is called: its store is updated in place, job by
 job. Its methods are shown to take exactly the steps of the delivery machine.
 Answers of the locator, the transfer and the installer are left open.
 */
module DeliveryService {
  import opened Wrappers
  import opened Text
  import opened NewestRelease
  import opened DeliveryJobs
  import opened DeliveryMachine
  import opened DeliverySafety

  /** By creation time, and by identifier where that is the same. */
  ghost predicate SortedByAge(list: seq<Job>) {
    forall i, j | 0 <= i < j < |list| ::
      list[i].createdAt < list[j].createdAt || (list[i].createdAt == list[j].createdAt && list[i].id <= list[j].id)
  }

  /** A list holds the jobs of a store, each once, oldest first. */
  ghost predicate ListsAll(list: seq<Job>, jobs: Store) {
    && SortedByAge(list)
    && (forall job | job in list :: job.id in jobs && jobs[job.id] == job)
    && (forall id | id in jobs :: jobs[id] in list)
    && |list| == |jobs|
  }

  function Insert(list: seq<Job>, job: Job): seq<Job> {
    if list == [] || OlderOrSame(job, list[0]) then [job] + list else [list[0]] + Insert(list[1..], job)
  }

  lemma {:induction false} InsertAdds(list: seq<Job>, job: Job)
    ensures |Insert(list, job)| == |list| + 1
    ensures forall other :: other in Insert(list, job) <==> other == job || other in list
  {
    if list != [] && !OlderOrSame(job, list[0]) {
      InsertAdds(list[1..], job);
      assert list == [list[0]] + list[1..];
    }
  }

  lemma {:induction false} InsertSorts(list: seq<Job>, job: Job)
    requires SortedByAge(list)
    ensures SortedByAge(Insert(list, job))
  {
    if list != [] {
      if OlderOrSame(job, list[0]) {
        assert forall i | 0 < i < |list| :: OlderOrSame(list[0], list[i]);
      } else {
        InsertSorts(list[1..], job);
        InsertAdds(list[1..], job);
        var rest := Insert(list[1..], job);
        forall i | 0 <= i < |rest|
          ensures OlderOrSame(list[0], rest[i])
        {
          assert rest[i] in rest;
        }
      }
    }
  }

  /** The oldest of the jobs that satisfy a condition, if one does. */
  ghost predicate IsOldest(found: Option<Job>, jobs: Store, wanted: Job -> bool) {
    match found
    case None => forall id | id in jobs :: !wanted(jobs[id])
    case Some(job) =>
      job.id in jobs && jobs[job.id] == job && wanted(job)
      && forall id | id in jobs && wanted(jobs[id]) ::
        job.createdAt < jobs[id].createdAt || (job.createdAt == jobs[id].createdAt && job.id <= id)
  }

  predicate IsQueued(job: Job) {
    job.status.Queued?
  }

  function Running(jobs: Store): set<JobId> {
    set id | id in jobs && jobs[id].status.IsRunning()
  }

  lemma {:induction false} RunningLess(jobs: Store, left: set<JobId>, id: JobId)
    requires id in left && id in jobs
    ensures |Running(jobs) - (left - {id})| == |Running(jobs) - left| + if jobs[id].status.IsRunning() then 1 else 0
  {
    if jobs[id].status.IsRunning() {
      assert Running(jobs) - (left - {id}) == (Running(jobs) - left) + {id};
    } else {
      assert Running(jobs) - (left - {id}) == Running(jobs) - left;
    }
  }

  /** The store while a restart is being reconciled, with the jobs in `left` still to be looked at. */
  function PartlyReconciled(jobs: Store, left: set<JobId>): Store {
    map id | id in jobs :: if id in left then jobs[id] else Reconciled(jobs[id])
  }

  lemma {:induction false} EverythingLeft(jobs: Store)
    ensures PartlyReconciled(jobs, jobs.Keys) == jobs && Running(jobs) - jobs.Keys == {}
  {
  }

  lemma {:induction false} NothingLeft(jobs: Store)
    ensures PartlyReconciled(jobs, {}) == AfterReconcile(jobs) && Running(jobs) - {} == Running(jobs)
  {
  }

  lemma {:induction false} OneMoreReconciled(jobs: Store, left: set<JobId>, id: JobId)
    requires id in jobs && id in left
    ensures PartlyReconciled(jobs, left)[id] == jobs[id]
    ensures PartlyReconciled(jobs, left - {id}) == PartlyReconciled(jobs, left)[id := Reconciled(jobs[id])]
    ensures !jobs[id].status.IsRunning() ==> PartlyReconciled(jobs, left - {id}) == PartlyReconciled(jobs, left)
  {
  }

  /** The staging folder an event asks to be deleted, if any. */
  function DiscardedIn(m: Machine, e: Event): seq<string> {
    match Discards(m, e) case Some(job) => [Staging(job)] case None => []
  }

  ghost function DiscardedBy(m: Machine, es: seq<Event>): seq<string>
    requires Runnable(m, es)
    decreases |es|
  {
    if es == [] then [] else DiscardedIn(m, es[0]) + DiscardedBy(Next(m, es[0]), es[1..])
  }

  /** The machine gets from one state to another by the events of a run, deleting these folders. */
  ghost predicate Reaches(m: Machine, es: seq<Event>, after: Machine, folders: seq<string>) {
    Runnable(m, es) && Run(m, es) == after && DiscardedBy(m, es) == folders && forall e | e in es :: IsRunEvent(e)
  }

  lemma {:induction false} RunOneMore(m: Machine, es: seq<Event>, e: Event)
    requires Runnable(m, es) && Enabled(Run(m, es), e)
    ensures Runnable(m, es + [e]) && Run(m, es + [e]) == Next(Run(m, es), e)
    ensures DiscardedBy(m, es + [e]) == DiscardedBy(m, es) + DiscardedIn(Run(m, es), e)
    decreases |es|
  {
    if es == [] {
      assert [e][1..] == [];
      assert es + [e] == [e];
      assert DiscardedBy(m, [e]) == DiscardedIn(m, e) + DiscardedBy(Next(m, e), []);
    } else {
      RunOneMore(Next(m, es[0]), es[1..], e);
      assert (es + [e])[1..] == es[1..] + [e];
    }
  }

  lemma {:induction false} ReachesOneMore(m: Machine, es: seq<Event>, at: Machine, folders: seq<string>, e: Event)
    returns (more: seq<Event>)
    requires Reaches(m, es, at, folders) && Enabled(at, e) && IsRunEvent(e)
    ensures Reaches(m, more, Next(at, e), folders + DiscardedIn(at, e)) && more == es + [e]
  {
    RunOneMore(m, es, e);
    more := es + [e];
  }

  lemma {:induction false} ReachesOne(m: Machine, e: Event)
    requires Enabled(m, e) && IsRunEvent(e)
    ensures Reaches(m, [e], Next(m, e), DiscardedIn(m, e))
  {
    var es := ReachesOneMore(m, [], m, [], e);
    assert es == [e];
    assert [] + DiscardedIn(m, e) == DiscardedIn(m, e);
  }

  lemma {:induction false} NothingDeletedYet(m: Machine)
    ensures DiscardedBy(m, []) == []
  {
  }

  lemma {:induction false} DiscardedFirst(m: Machine, es: seq<Event>)
    requires Runnable(m, es) && es != []
    ensures DiscardedBy(m, es) == DiscardedIn(m, es[0]) + DiscardedBy(Next(m, es[0]), es[1..])
  {
    hide Next, Enabled, DiscardedIn;
  }

  lemma {:induction false} RunMore(m: Machine, es: seq<Event>, rest: seq<Event>)
    requires Runnable(m, es) && Runnable(Run(m, es), rest)
    ensures Runnable(m, es + rest) && Run(m, es + rest) == Run(Run(m, es), rest)
    ensures DiscardedBy(m, es + rest) == DiscardedBy(m, es) + DiscardedBy(Run(m, es), rest)
    decreases |es|
  {
    hide Next, Enabled, DiscardedIn, DiscardedBy;
    if es == [] {
      assert es + rest == rest;
      NothingDeletedYet(m);
    } else {
      RunMore(Next(m, es[0]), es[1..], rest);
      assert (es + rest)[0] == es[0] && (es + rest)[1..] == es[1..] + rest;
      DiscardedFirst(m, es);
      DiscardedFirst(m, es + rest);
    }
  }

  lemma {:induction false} ReachesMore(m: Machine, es: seq<Event>, at: Machine, rest: seq<Event>, after: Machine)
    returns (more: seq<Event>)
    requires Reaches(m, es, at, []) && Reaches(at, rest, after, [])
    ensures Reaches(m, more, after, []) && more == es + rest
  {
    RunMore(m, es, rest);
    more := es + rest;
  }

  lemma {:induction false} ReachesOn(m: Machine, es: seq<Event>, at: Machine, rest: seq<Event>, after: Machine,
      folders: seq<string>)
    returns (more: seq<Event>)
    requires Reaches(m, es, at, []) && Reaches(at, rest, after, folders)
    ensures Reaches(m, more, after, folders) && more == es + rest
  {
    hide Next, Enabled, Discards;
    RunMore(m, es, rest);
    more := es + rest;
    assert [] + folders == folders;
  }

  lemma {:induction false} Stay(m: Machine) returns (es: seq<Event>)
    ensures Reaches(m, es, m, [])
  {
    es := [];
  }

  lemma {:induction false} ReachedInv(m: Machine, es: seq<Event>, folders: seq<string>, after: Machine)
    requires Inv(m) && Reaches(m, es, after, folders)
    ensures Inv(after)
  {
    RunKeepsInv(m, es);
  }

  lemma {:induction false} EndsInTwo(m: Machine, job: Job, outcome: Outcome)
    requires m.run == Some(Runner(job, Conclude(outcome)))
    ensures var es := [ConcludeRun, SaveRunEnd]; var last := Concluded(job, outcome);
      && Runnable(m, es) && Run(m, es) == m.(jobs := m.jobs[last.id := last], run := None)
      && DiscardedBy(m, es) == if DiscardsAfter(outcome) then [Staging(job)] else []
  {
    ReachesOne(m, ConcludeRun);
    var ending := RunConcluded(m, Runner(job, Conclude(outcome)), outcome);
    RunOneMore(m, [ConcludeRun], SaveRunEnd);
    assert [ConcludeRun] + [SaveRunEnd] == [ConcludeRun, SaveRunEnd];
  }

  const NO_SUCH_DOWNLOAD := ProblemError(Unavailable, "no such download")

  function ReleaseText(error: ReleaseError): string {
    match error
    case NothingListed => "the catalog lists no archive for this work"
    case Unverifiable(name) => "the catalog has no size or SHA-256 for " + name
  }

  class Service {
    var jobs: Store
    /** Identifiers given to jobs so far. */
    ghost var used: set<JobId>
    /** The staging folders deleted so far, in order. */
    var discarded: seq<string>

    constructor ()
      ensures jobs == map[] && used == {} && discarded == []
    {
      jobs, used, discarded := map[], {}, [];
    }

    ghost function State(): Machine
      reads this
    {
      Machine(jobs, None, used)
    }

    method Listing() returns (list: seq<Job>)
      requires Inv(State())
      ensures ListsAll(list, jobs)
    {
      list := [];
      var left := jobs.Keys;
      while left != {}
        invariant left <= jobs.Keys && SortedByAge(list) && |list| + |left| == |jobs|
        invariant forall job | job in list :: job.id in jobs && jobs[job.id] == job
        invariant forall id | id in jobs :: id in left || jobs[id] in list
        decreases |left|
      {
        var id :| id in left;
        left := left - {id};
        InsertAdds(list, jobs[id]);
        InsertSorts(list, jobs[id]);
        list := Insert(list, jobs[id]);
      }
    }

    method First(wanted: Job -> bool) returns (found: Option<Job>)
      requires Inv(State())
      ensures IsOldest(found, jobs, wanted)
    {
      var list := Listing();
      for n := 0 to |list|
        invariant forall i | 0 <= i < n :: !wanted(list[i])
      {
        if wanted(list[n]) {
          forall id | id in jobs && wanted(jobs[id])
            ensures list[n].createdAt < jobs[id].createdAt
              || (list[n].createdAt == jobs[id].createdAt && list[n].id <= id)
          {
            var i :| 0 <= i < |list| && list[i] == jobs[id];
          }
          assert list[n] in list;
          return Some(list[n]);
        }
      }
      return None;
    }

    /** The oldest queued job, if any. */
    method NextQueued() returns (found: Option<Job>)
      requires Inv(State())
      ensures IsOldest(found, jobs, IsQueued)
    {
      found := First(IsQueued);
    }

    /** A work that already has an unfinished job gets the oldest of them back instead of a second one. */
    method Queue(typed: string, installFolder: string, id: JobId, now: nat, answer: CatalogAnswer)
      returns (r: Result<Job, DeliveryError>)
      requires Inv(State()) && id !in used && AnswersFor(answer, Trim(typed))
      modifies this`jobs, this`used
      ensures Inv(State()) && used == old(used) + {id}
      ensures State() == Next(old(State()), QueueWork(typed, installFolder, id, now, answer))
      ensures r.Ok? ==> r.value.id in jobs && jobs[r.value.id] == r.value && !r.value.status.IsFinished()
                        && SameIgnoringCase(r.value.workCode, Trim(typed))
      ensures r.Ok? <==> HasUnfinished(jobs, Trim(typed)) && IsWorkCode(Trim(typed)) && Trim(installFolder) != []
      ensures r.Err? ==> jobs == old(jobs) && r.error.ProblemError?
      ensures !IsWorkCode(Trim(typed)) ==> r == Err(ProblemError(NotInArchive, "not a catalog work code"))
      ensures IsWorkCode(Trim(typed)) && Trim(installFolder) == [] ==>
                r == Err(ProblemError(InstallFolder, "choose an install folder first"))
      ensures r.Err? && IsWorkCode(Trim(typed)) && Trim(installFolder) != [] ==>
                r.error == ProblemError(NotInArchive,
                  match answer
                  case CatalogFailed(text) => text
                  case Listed(_, _, Err(Unverifiable(name))) => "the catalog has no size or SHA-256 for " + name
                  case Listed(_, _, Err(NothingListed)) => "the catalog lists no archive for this work"
                  case _ => "the work is not in the catalog")
      ensures r.Ok? && HasUnfinished(old(jobs), Trim(typed)) ==>
                jobs == old(jobs) && IsOldest(Some(r.value), jobs, (job: Job) =>
                  SameIgnoringCase(job.workCode, Trim(typed)) && !job.status.IsFinished())
      ensures r.Ok? && !HasUnfinished(old(jobs), Trim(typed)) ==>
                && jobs == old(jobs)[id := r.value] && r.value.status == Queued && answer.Listed? && answer.release.Ok?
                && r.value.id == id && r.value.workCode == answer.code
                  && r.value.archives == answer.release.value.archives
                && r.value.installFolder == installFolder && r.value.createdAt == now && r.value.received == 0
                && r.value.problem == None && r.value.detail == None && r.value.installation == None
    {
      QueueKeepsInv(State(), typed, installFolder, id, now, answer);
      used := used + {id};
      var code := Trim(typed);
      if !IsWorkCode(code) {
        return Err(ProblemError(NotInArchive, "not a catalog work code"));
      }
      if Trim(installFolder) == [] {
        return Err(ProblemError(InstallFolder, "choose an install folder first"));
      }
      TakingAnIdKeepsInv(old(State()), id);
      var wanted := (job: Job) => SameIgnoringCase(job.workCode, code) && !job.status.IsFinished();
      var existing := First(wanted);
      if existing.Some? {
        assert wanted(existing.value);
        return Ok(existing.value);
      }
      assert forall other | other in jobs :: !wanted(jobs[other]);
      match answer {
        case CatalogFailed(text) => return Err(ProblemError(NotInArchive, text));
        case NotListed => return Err(ProblemError(NotInArchive, "the work is not in the catalog"));
        case Listed(listed, _, release) =>
          if release.Err? {
            return Err(ProblemError(NotInArchive, ReleaseText(release.error)));
          }
          var job := NewJob(id, listed, release.value.archives, installFolder, now);
          jobs := jobs[id := job];
          r := Ok(job);
          assert jobs[id] == job;
      }
    }

    method Resume(id: JobId) returns (r: Result<Job, DeliveryError>)
      requires Inv(State())
      modifies this`jobs
      ensures Inv(State()) && State() == Next(old(State()), ResumeJob(id))
      ensures jobs == if id in old(jobs) && old(jobs)[id].status in {Status.Paused, Failed}
        then old(jobs)[id := old(jobs)[id].(status := Queued, problem := None, detail := None)]
        else old(jobs)
      ensures if id in jobs then r == Ok(jobs[id]) else r == Err(NO_SUCH_DOWNLOAD)
    {
      ResumeKeepsInv(State(), id);
      if id !in jobs {
        return Err(NO_SUCH_DOWNLOAD);
      }
      var job := jobs[id];
      if job.status.Paused? || job.status.Failed? {
        job := job.(status := Queued, problem := None, detail := None);
        jobs := jobs[id := job];
      }
      r := Ok(job);
    }

    method Pause(id: JobId) returns (r: Result<Job, DeliveryError>)
      requires Inv(State())
      modifies this`jobs
      ensures Inv(State()) && State() == Next(old(State()), PauseJob(id))
      ensures jobs == if id in old(jobs) && old(jobs)[id].status == Queued
        then old(jobs)[id := old(jobs)[id].(status := Status.Paused)]
        else old(jobs)
      ensures if id in jobs then r == Ok(jobs[id]) else r == Err(NO_SUCH_DOWNLOAD)
    {
      PauseKeepsInv(State(), id);
      if id !in jobs {
        return Err(NO_SUCH_DOWNLOAD);
      }
      var job := jobs[id];
      if job.status.Queued? {
        job := job.(status := Status.Paused);
        jobs := jobs[id := job];
      }
      r := Ok(job);
    }

    /**
     Deletes what a waiting or failed job downloaded, then cancels it; if the deletion
     fails the job stays as it was.
     */
    method Cancel(id: JobId) returns (r: Result<Job, DeliveryError>, deleted: bool)
      requires Inv(State())
      modifies this`jobs, this`discarded
      ensures Inv(State()) && State() == Next(old(State()), CancelJob(id, deleted))
      ensures discarded == old(discarded) + old(DiscardedIn(State(), CancelJob(id, true)))
      ensures if id in old(jobs) && old(jobs)[id].status in {Queued, Status.Paused, Failed}
        then
          && discarded == old(discarded) + [Staging(old(jobs)[id])] && (r.Ok? <==> deleted)
          && jobs == if deleted then old(jobs)[id := old(jobs)[id].(status := Cancelled)] else old(jobs)
        else discarded == old(discarded) && jobs == old(jobs) && (r.Ok? <==> id in jobs)
      ensures id in jobs && r.Ok? ==> r.value == jobs[id]
      ensures id !in jobs ==> r == Err(NO_SUCH_DOWNLOAD)
    {
      CancelKeepsInv(State(), id, true);
      deleted := true;
      if id !in jobs {
        return Err(NO_SUCH_DOWNLOAD), false;
      }
      var job := jobs[id];
      if job.status.Queued? || job.status.Paused? || job.status.Failed? {
        discarded := discarded + [Staging(job)];
        var failure: Option<DeliveryError> := *;
        if failure.Some? {
          return Err(failure.value), false;
        }
        job := job.(status := Cancelled);
        jobs := jobs[id := job];
      }
      r := Ok(job);
    }

    method Remove(id: JobId) returns (r: Result<(), DeliveryError>)
      requires Inv(State())
      modifies this`jobs
      ensures Inv(State()) && State() == Next(old(State()), RemoveJob(id))
      ensures if id in old(jobs) && old(jobs)[id].status in {Installed, NeedsReview, Failed, Cancelled}
        then r == Ok(()) && jobs == old(jobs) - {id}
        else r.Err? && jobs == old(jobs)
      ensures id !in old(jobs) ==> r == Err(NO_SUCH_DOWNLOAD)
    {
      RemoveKeepsInv(State(), id);
      if id !in jobs {
        return Err(NO_SUCH_DOWNLOAD);
      }
      if !jobs[id].status.IsFinished() {
        return Err(ProblemError(Unavailable, "cancel the download before removing it"));
      }
      jobs := jobs - {id};
      r := Ok(());
    }

    /** Queues again what a closed launcher left running; `m` is how far that launcher had come. */
    method ReconcileAfterRestart(ghost m: Machine) returns (count: nat)
      requires Inv(m) && m.jobs == jobs && m.used == used
      modifies this`jobs
      ensures Inv(State()) && State() == Next(m, Restart)
      ensures jobs.Keys == old(jobs).Keys && forall id | id in jobs ::
        jobs[id] == if old(jobs)[id].status in {Downloading, Status.Installing}
          then old(jobs)[id].(status := Queued)
          else old(jobs)[id]
      ensures count == |set id | id in old(jobs) && old(jobs)[id].status in {Downloading, Status.Installing}|
    {
      RestartKeepsInv(m);
      assert Running(jobs) == set id | id in jobs && jobs[id].status in {Downloading, Status.Installing};
      count := QueueRunningAgain();
    }

    method QueueRunningAgain() returns (count: nat)
      modifies this`jobs
      ensures jobs == AfterReconcile(old(jobs))
      ensures count == |Running(old(jobs))|
    {
      ghost var before := jobs;
      count := 0;
      var left := jobs.Keys;
      EverythingLeft(before);
      while left != {}
        invariant left <= before.Keys && jobs == PartlyReconciled(before, left)
        invariant count == |Running(before) - left|
        decreases |left|
      {
        var id :| id in left;
        RunningLess(before, left, id);
        OneMoreReconciled(before, left, id);
        left := left - {id};
        if jobs[id].status.IsRunning() {
          jobs := jobs[id := jobs[id].(status := Queued)];
          count := count + 1;
        }
      }
      NothingLeft(before);
    }

    method CompletedBytes(archives: seq<Archive>) returns (done: nat)
      ensures done == Completed(archives)
    {
      done := 0;
      for n := 0 to |archives|
        invariant done == Completed(archives[..n])
      {
        assert archives[..n + 1][..n] == archives[..n];
        if archives[n].complete {
          done := done + archives[n].size;
        }
      }
      assert archives[..|archives|] == archives;
    }

    method SetPaths(archives: seq<Archive>, paths: seq<string>) returns (located: seq<Archive>)
      requires |paths| == |archives|
      ensures located == WithPaths(archives, paths)
    {
      located := archives;
      for n := 0 to |archives|
        invariant |located| == |archives|
        invariant forall i | 0 <= i < |archives| ::
              located[i] == if i < n then WithPaths(archives, paths)[i] else archives[i]
      {
        located := located[n := located[n].(remotePath := Some(paths[n]))];
      }
    }

    /** Finds the remote path of every archive, if one is missing. */
    method Locate(initial: Job, ghost m: Machine) returns (job: Job, error: Option<DeliveryError>, ghost es: seq<Event>)
      requires m.jobs == jobs && m.used == used
      requires m.run == Some(Runner(initial, if AllLocated(initial.archives) then FetchFrom(initial.archives, 0)
            else Pc.Locate))
      modifies this`jobs
      ensures job.id == initial.id
      ensures error.None? ==> Reaches(m, es, Machine(jobs, Some(Runner(job, FetchFrom(job.archives, 0))), used), [])
      ensures error.Some? ==> Reaches(m, es, Machine(jobs, Some(Runner(job, Conclude(Stopped(error.value)))), used), [])
    {
      job, error, es := initial, None, [];
      if !AllLocated(job.archives) {
        var located: Result<seq<string>, DeliveryError> := *;
        es := [LocateArchives(located)];
        ReachesOne(m, es[0]);
        match located {
          case Err(failure) => error := Some(failure);
          case Ok(paths) =>
            if |paths| != |job.archives| {
              return job, Some(ProblemError(NotInArchive, MISSING_FILES)), es;
            }
            var archives := SetPaths(job.archives, paths);
            job := job.(archives := archives);
            jobs := jobs[job.id := job];
        }
      }
    }

    /** Downloads every archive that is not complete, saving the job after each. */
    method FetchAll(initial: Job, ghost m: Machine)
      returns (job: Job, error: Option<DeliveryError>, ghost es: seq<Event>)
      requires m.jobs == jobs && m.used == used
      requires m.run == Some(Runner(initial, FetchFrom(initial.archives, 0)))
      modifies this`jobs
      ensures job.id == initial.id
      ensures error.None? ==> Reaches(m, es, Machine(jobs, Some(Runner(job, BeginInstall)), used), [])
      ensures error.Some? ==> Reaches(m, es, Machine(jobs, Some(Runner(job, Conclude(Stopped(error.value)))), used), [])
    {
      job, error, es := initial, None, [];
      var done := CompletedBytes(job.archives);
      for n := 0 to |initial.archives|
        invariant |job.archives| == |initial.archives| && job.id == initial.id
        invariant Reaches(m, es, Machine(jobs, Some(Runner(job, FetchFrom(job.archives, n))), used), [])
        invariant done == Completed(job.archives)
      {
        if job.archives[n].complete {
          continue;
        }
        ghost var at := Machine(jobs, Some(Runner(job, Fetch(n))), used);
        var check: Option<DeliveryError> := *;
        if check.Some? {
          es := ReachesOneMore(m, es, at, [], FetchArchive(check, None));
          return job, check, es;
        }
        var fetch: Option<DeliveryError> := *;
        es := ReachesOneMore(m, es, at, [], FetchArchive(None, fetch));
        if fetch.Some? {
          return job, fetch, es;
        }
        CompletingAddsItsSize(job.archives, n);
        done := done + job.archives[n].size;
        job := job.(archives := job.archives[n := job.archives[n].(complete := true)], received := done);
        jobs := jobs[job.id := job];
      }
    }

    /** Hands the whole release to the installer. */
    method Install(initial: Job, ghost m: Machine) returns (job: Job, outcome: Outcome, ghost es: seq<Event>)
      requires m.jobs == jobs && m.used == used && m.run == Some(Runner(initial, BeginInstall))
      modifies this`jobs
      ensures job.id == initial.id
      ensures Reaches(m, es, Machine(jobs, Some(Runner(job, Conclude(outcome))), used), [])
    {
      job := initial;
      var check: Option<DeliveryError> := *;
      es := [EnterInstalling(check)];
      ReachesOne(m, es[0]);
      if check.Some? {
        return job, Stopped(check.value), es;
      }
      job := job.(status := Installing);
      jobs := jobs[job.id := job];
      var installed: Result<LocalOutcome, DeliveryError> := *;
      es := ReachesOneMore(m, es, Machine(jobs, Some(Runner(job, CallInstaller)), used), [],
        InstallArchives(installed));
      outcome := match installed case Ok(local) => Delivered(local) case Err(error) => Stopped(error);
    }

    method Deliver(initial: Job, ghost m: Machine) returns (job: Job, outcome: Outcome, ghost es: seq<Event>)
      requires m.jobs == jobs && m.used == used
      requires m.run == Some(Runner(initial, if AllLocated(initial.archives) then FetchFrom(initial.archives, 0)
            else Pc.Locate))
      modifies this`jobs
      ensures job.id == initial.id
      ensures Reaches(m, es, Machine(jobs, Some(Runner(job, Conclude(outcome))), used), [])
    {
      var error;
      job, error, es := Locate(initial, m);
      if error.Some? {
        return job, Stopped(error.value), es;
      }
      ghost var more;
      ghost var located := Machine(jobs, Some(Runner(job, FetchFrom(job.archives, 0))), used);
      job, error, more := FetchAll(job, located);
      es := ReachesMore(m, es, located, more,
        State().(run := Some(Runner(job, if error.Some? then Conclude(Stopped(error.value)) else BeginInstall))));
      if error.Some? {
        return job, Stopped(error.value), es;
      }
      ghost var fetched := Machine(jobs, Some(Runner(job, BeginInstall)), used);
      job, outcome, more := Install(job, fetched);
      es := ReachesMore(m, es, fetched, more, Machine(jobs, Some(Runner(job, Conclude(outcome))), used));
    }

    /** Records how a run ended, deleting the staging folder of one that installed or was cancelled. */
    method Finish(initial: Job, outcome: Outcome, ghost m: Machine) returns (job: Job, ghost es: seq<Event>)
      requires m == Machine(jobs, Some(Runner(initial, Conclude(outcome))), used)
      modifies this`jobs, this`discarded
      ensures Reaches(m, es, State(), if DiscardsAfter(outcome) then [Staging(initial)] else [])
      ensures discarded == old(discarded) + if DiscardsAfter(outcome) then [Staging(initial)] else []
      ensures job == Concluded(initial, outcome) && jobs == old(jobs)[initial.id := job]
      ensures match outcome
        case Delivered(InstalledAs(n)) =>
          job == initial.(status := Installed, installation := Some(n))
          && discarded == old(discarded) + [Staging(initial)]
        case Delivered(ReviewOf(n, reason)) =>
          job == initial.(status := NeedsReview, installation := Some(n), detail := Some(reason))
          && discarded == old(discarded)
        case Stopped(PausedError) => job == initial.(status := Status.Paused) && discarded == old(discarded)
        case Stopped(CancelledError) =>
          job == initial.(status := Cancelled) && discarded == old(discarded) + [Staging(initial)]
        case Stopped(ProblemError(problem, detail)) =>
          job == initial.(status := Failed, problem := Some(problem), detail := Some(detail))
          && discarded == old(discarded)
        case Stopped(PersistenceError(text)) =>
          job == initial.(status := Failed, problem := Some(Unavailable),
            detail := Some("delivery persistence failed: " + text))
          && discarded == old(discarded)
    {
      job := initial;
      var staging := Staging(job);
      es := [ConcludeRun, SaveRunEnd];
      EndsInTwo(m, initial, outcome);
      match outcome {
        case Delivered(InstalledAs(installation)) =>
          job := job.(status := Installed, installation := Some(installation));
          discarded := discarded + [staging];
        case Delivered(ReviewOf(installation, reason)) =>
          job := job.(detail := Some(reason), status := NeedsReview, installation := Some(installation));
        case Stopped(PausedError) =>
          job := job.(status := Status.Paused);
        case Stopped(CancelledError) =>
          job := job.(status := Cancelled);
          discarded := discarded + [staging];
        case Stopped(ProblemError(problem, detail)) =>
          job := job.(status := Failed, problem := Some(problem), detail := Some(detail));
        case Stopped(PersistenceError(text)) =>
          job := job.(status := Failed, problem := Some(Unavailable),
            detail := Some("delivery persistence failed: " + text));
      }
      jobs := jobs[job.id := job];
    }

    /**
     Runs one job until it is installed, needs review, or stops. What it does
     to the store is exactly a run of the delivery machine, whose events `es`
     are all its own, and it deletes the folders that run deletes.
     */
    method Run(id: JobId) returns (r: Result<Job, DeliveryError>, ghost es: seq<Event>)
      requires Inv(State())
      modifies this`jobs, this`discarded
      ensures Inv(State()) && old(discarded) <= discarded
      ensures Reaches(old(State()), es, State(), discarded[|old(discarded)|..])
      ensures if id in jobs then r == Ok(jobs[id]) else r == Err(NO_SUCH_DOWNLOAD)
      ensures id in jobs ==> !jobs[id].status.Queued?
    {
      hide Reaches, RunOk, JobOk, DiscardsAfter;
      es := Stay(State());
      assert discarded[|discarded|..] == [];
      if id !in jobs {
        return Err(NO_SUCH_DOWNLOAD), es;
      }
      var job := jobs[id];
      if !job.status.Queued? {
        return Ok(job), es;
      }
      var outcome;
      ghost var m, concluding := State(), State();
      job, outcome, es, concluding := StartAndDeliver(id);
      ReachedInv(m, es, [], concluding);
      ghost var last;
      job, last := Finish(job, outcome, concluding);
      es := ReachesOn(m, es, concluding, last, State(), discarded[|old(discarded)|..]);
      ReachedInv(m, es, discarded[|old(discarded)|..], State());
      r := Ok(job);
    }

    method StartAndDeliver(id: JobId)
      returns (job: Job, outcome: Outcome, ghost es: seq<Event>, ghost concluding: Machine)
      requires id in jobs && jobs[id].id == id && jobs[id].status.Queued?
      modifies this`jobs
      ensures concluding == Machine(jobs, Some(Runner(job, Conclude(outcome))), used)
      ensures Reaches(old(State()), es, concluding, []) && job.id == id
    {
      ghost var m := State();
      job := jobs[id].(status := Downloading, problem := None, detail := None);
      jobs := jobs[id := job];
      ghost var more;
      ReachesOne(m, StartRun(id));
      job, outcome, more := Deliver(job, Started(m, id));
      concluding := Machine(jobs, Some(Runner(job, Conclude(outcome))), used);
      es := ReachesMore(m, [StartRun(id)], Started(m, id), more, concluding);
    }
  }
}
