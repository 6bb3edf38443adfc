/**
 When two unfinished jobs of one work can meet, and when deleting a staging
 folder can hit files another job still needs.
 */
module DeliveryConflicts {
  import opened Wrappers
  import opened Text
  import opened NewestRelease
  import opened DeliveryJobs
  import opened DeliveryMachine
  import opened DeliverySafety

  predicate Unfinished(jobs: Store, id: JobId) {
    id in jobs && !jobs[id].status.IsFinished()
  }

  ghost predicate OneUnfinished(jobs: Store) {
    forall a, b | Unfinished(jobs, a) && Unfinished(jobs, b) && SameWork(jobs[a], jobs[b]) :: a == b
  }

  /** Another unfinished job of the same work. */
  ghost predicate HasRival(jobs: Store, id: JobId)
    requires id in jobs
  {
    exists other :: Unfinished(jobs, other) && other != id && SameWork(jobs[other], jobs[id])
  }

  /** Resuming a failed job whose work has been queued again meanwhile. */
  ghost predicate Clashes(m: Machine, e: Event) {
    e.ResumeJob? && e.id in m.jobs && m.jobs[e.id].status.Failed? && HasRival(m.jobs, e.id)
  }

  /** Replacing one stored job by another of the same work. */
  lemma {:induction false} PutKeepsOne(jobs: Store, job: Job)
    requires OneUnfinished(jobs) && job.id in jobs && SameWork(job, jobs[job.id])
    requires job.status.IsFinished() || Unfinished(jobs, job.id) || !HasRival(jobs, job.id)
    ensures OneUnfinished(jobs[job.id := job])
  {
    var after := jobs[job.id := job];
    forall a, b | Unfinished(after, a) && Unfinished(after, b) && SameWork(after[a], after[b])
      ensures a == b
    {
      if a != job.id && b != job.id {
        assert Unfinished(jobs, a) && Unfinished(jobs, b);
      } else if a != b {
        var other := if a == job.id then b else a;
        assert Unfinished(jobs, other) && SameWork(jobs[other], jobs[job.id]);
      }
    }
  }

  lemma {:induction false} QueueKeepsOne(jobs: Store, typed: string, installFolder: string, id: JobId, now: nat,
      answer: CatalogAnswer)
    requires OneUnfinished(jobs) && id !in jobs && AnswersFor(answer, Trim(typed))
    ensures OneUnfinished(AfterQueue(jobs, typed, installFolder, id, now, answer))
  {
    var after := AfterQueue(jobs, typed, installFolder, id, now, answer);
    forall a, b | Unfinished(after, a) && Unfinished(after, b) && SameWork(after[a], after[b])
      ensures a == b
    {
      assert a != id ==> Unfinished(jobs, a);
      assert b != id ==> Unfinished(jobs, b);
    }
  }

  lemma {:induction false} ReconcileKeepsOne(jobs: Store)
    requires OneUnfinished(jobs)
    ensures OneUnfinished(AfterReconcile(jobs))
  {
    var after := AfterReconcile(jobs);
    forall a, b | Unfinished(after, a) && Unfinished(after, b) && SameWork(after[a], after[b])
      ensures a == b
    {
      assert Unfinished(jobs, a) && Unfinished(jobs, b);
    }
  }

  lemma {:induction false} RemoveKeepsOne(jobs: Store, id: JobId)
    requires OneUnfinished(jobs)
    ensures OneUnfinished(AfterRemove(jobs, id))
  {
    var after := AfterRemove(jobs, id);
    forall a, b | Unfinished(after, a) && Unfinished(after, b) && SameWork(after[a], after[b])
      ensures a == b
    {
      assert Unfinished(jobs, a) && Unfinished(jobs, b);
    }
  }

  lemma {:induction false} ResumeKeepsOneIff(jobs: Store, id: JobId)
    requires OneUnfinished(jobs) && (id in jobs ==> jobs[id].id == id)
    ensures OneUnfinished(AfterResume(jobs, id)) <==>
              !(id in jobs && jobs[id].status.Failed? && HasRival(jobs, id))
  {
    if id in jobs && (jobs[id].status.Paused? || jobs[id].status.Failed?) {
      var after := AfterResume(jobs, id);
      if HasRival(jobs, id) {
        var other: JobId :| Unfinished(jobs, other) && other != id && SameWork(jobs[other], jobs[id]);
        assert Unfinished(after, other) && Unfinished(after, id) && SameWork(after[other], after[id]);
        assert Unfinished(jobs, id) ==> other == id;
      } else {
        PutKeepsOne(jobs, jobs[id].(status := Queued, problem := None, detail := None));
      }
    }
  }

  /** What a step of a run does to the store: nothing, or one job put back under its own name. */
  ghost predicate PutsOne(m: Machine, after: Store, id: JobId) {
    after == m.jobs
    || (id in m.jobs && id in after && after == m.jobs[id := after[id]] && after[id].id == id
        && after[id].workCode == m.jobs[id].workCode && Unfinished(m.jobs, id))
  }

  /** The job a step of a run is about. */
  function RunJob(m: Machine, e: Event): JobId {
    if e.StartRun? then e.id else if m.run.Some? then m.run.value.job.id else 0
  }

  lemma {:induction false} PutsOneKeepsOne(m: Machine, after: Store, id: JobId)
    requires OneUnfinished(m.jobs) && PutsOne(m, after, id)
    ensures OneUnfinished(after)
  {
    if after != m.jobs {
      PutKeepsOne(m.jobs, after[id]);
    }
  }

  lemma {:induction false} StartPutsOne(m: Machine, id: JobId)
    requires Inv(m)
    ensures PutsOne(m, Started(m, id).jobs, id)
  {
  }

  lemma {:induction false} FetchPutsOne(m: Machine, r: Runner, check: Option<DeliveryError>,
      fetch: Option<DeliveryError>)
    requires Inv(m) && m.run == Some(r) && r.pc.Fetch? && r.pc.index < |r.job.archives|
    ensures PutsOne(m, Fetched(m, r, check, fetch).jobs, r.job.id)
  {
  }

  lemma {:induction false} LocatePutsOne(m: Machine, r: Runner, located: Result<seq<string>, DeliveryError>)
    requires Inv(m) && m.run == Some(r) && r.pc.Locate?
    ensures PutsOne(m, Located(m, r, located).jobs, r.job.id)
  {
    hide Completed, FetchFrom, CompletePrefix, WithPaths;
  }

  lemma {:induction false} SavePutsOne(m: Machine, r: Runner)
    requires Inv(m) && m.run == Some(r) && r.pc.SaveEnd?
    ensures PutsOne(m, RunSaved(m, r).jobs, r.job.id)
  {
    hide Completed, CompletePrefix;
  }

  lemma {:induction false} RunPutsOne(m: Machine, e: Event)
    requires Inv(m) && Enabled(m, e) && IsRunEvent(e)
    ensures PutsOne(m, Next(m, e).jobs, RunJob(m, e))
  {
    hide Completed, FetchFrom, AllLocated, CompletePrefix, WithPaths;
    match e {
      case StartRun(id) => StartPutsOne(m, id);
      case LocateArchives(located) => LocatePutsOne(m, m.run.value, located);
      case FetchArchive(check, fetch) => FetchPutsOne(m, m.run.value, check, fetch);
      case SaveRunEnd => SavePutsOne(m, m.run.value);
      case _ =>
    }
  }

  /** Among all events only that resumption breaks the rule of one unfinished job for each work. */
  lemma {:induction false} StepKeepsOneIff(m: Machine, e: Event)
    requires Inv(m) && Enabled(m, e) && OneUnfinished(m.jobs)
    ensures OneUnfinished(Next(m, e).jobs) <==> !Clashes(m, e)
  {
    match e {
      case QueueWork(typed, installFolder, id, now, answer) =>
        QueueKeepsOne(m.jobs, typed, installFolder, id, now, answer);
      case ResumeJob(id) => ResumeKeepsOneIff(m.jobs, id);
      case PauseJob(id) =>
        if id in m.jobs && m.jobs[id].status.Queued? {
          PutKeepsOne(m.jobs, m.jobs[id].(status := Paused));
        }
      case CancelJob(id, _) =>
        if Cancellable(m.jobs, id) {
          PutKeepsOne(m.jobs, m.jobs[id].(status := Cancelled));
        }
      case RemoveJob(id) => RemoveKeepsOne(m.jobs, id);
      case Restart => ReconcileKeepsOne(m.jobs);
      case _ =>
        RunPutsOne(m, e);
        PutsOneKeepsOne(m, Next(m, e).jobs, RunJob(m, e));
    }
  }

  ghost predicate AlwaysOne(m: Machine, es: seq<Event>)
    requires Runnable(m, es)
    decreases |es|
  {
    OneUnfinished(m.jobs) && (es == [] || AlwaysOne(Next(m, es[0]), es[1..]))
  }

  ghost predicate NeverClashes(m: Machine, es: seq<Event>)
    requires Runnable(m, es)
    decreases |es|
  {
    es == [] || (!Clashes(m, es[0]) && NeverClashes(Next(m, es[0]), es[1..]))
  }

  /**
   Over whole runs: each work has at most one unfinished job throughout exactly if no
   failed job is resumed beside another.
   */
  lemma {:induction false} AlwaysOneIff(m: Machine, es: seq<Event>)
    requires Inv(m) && OneUnfinished(m.jobs) && Runnable(m, es)
    ensures AlwaysOne(m, es) <==> NeverClashes(m, es)
    ensures NeverClashes(m, es) ==> OneUnfinished(Run(m, es).jobs)
    decreases |es|
  {
    if es != [] {
      StepKeepsInv(m, es[0]);
      StepKeepsOneIff(m, es[0]);
      if OneUnfinished(Next(m, es[0]).jobs) {
        AlwaysOneIff(Next(m, es[0]), es[1..]);
      }
    }
  }

  // Staging folders.

  /** A folder with the separator that joining puts after it. */
  function Prefix(folder: string): string {
    if folder == [] || folder[|folder| - 1] == '/' then folder else folder + "/"
  }

  predicate SharesStaging(a: Job, b: Job) {
    a.workCode == b.workCode && Prefix(a.installFolder) == Prefix(b.installFolder)
  }

  lemma {:induction false} LastPartIsUnique(a: string, code: string, b: string, other: string)
    requires '/' !in code && '/' !in other && a + "/" + code == b + "/" + other
    ensures a == b && code == other
  {
    var whole := a + "/" + code;
    assert whole[|a|] == '/' && whole[|b|] == '/';
    assert forall k | |a| < k < |whole| :: whole[k] == code[k - |a| - 1];
    assert forall k | |b| < k < |whole| :: whole[k] == other[k - |b| - 1];
    assert whole[..|a|] == a && whole[..|b|] == b;
    assert whole[|a| + 1..] == code && whole[|b| + 1..] == other;
  }

  lemma {:induction false} StagingSpelledOut(job: Job)
    ensures Staging(job) == Prefix(job.installFolder) + ".dla-downloads" + "/" + job.workCode
  {
    var base := JoinPath(job.installFolder, STAGING_FOLDER);
    assert base == Prefix(job.installFolder) + STAGING_FOLDER;
    assert base[|base| - 1] == STAGING_FOLDER[|STAGING_FOLDER| - 1];
  }

  /**
   Two jobs share a staging folder exactly if they have the same code and the same
   install folder up to its last separator.
   */
  lemma {:induction false} StagingIdentifies(a: Job, b: Job)
    requires IsWorkCode(a.workCode) && IsWorkCode(b.workCode)
    ensures Staging(a) == Staging(b) <==> SharesStaging(a, b)
  {
    StagingSpelledOut(a);
    StagingSpelledOut(b);
    if Staging(a) == Staging(b) {
      LastPartIsUnique(Prefix(a.installFolder) + STAGING_FOLDER, a.workCode,
                       Prefix(b.installFolder) + STAGING_FOLDER, b.workCode);
      var whole := Prefix(a.installFolder) + STAGING_FOLDER;
      assert whole[..|whole| - |STAGING_FOLDER|] == Prefix(a.installFolder);
      assert whole == Prefix(b.installFolder) + STAGING_FOLDER;
      assert whole[..|whole| - |STAGING_FOLDER|] == Prefix(b.installFolder);
    }
  }

  /** A job that runs, or may run again with the archives it has, or, with `review`, is in review. */
  predicate Needed(jobs: Store, id: JobId, review: bool) {
    id in jobs && !IsOver(jobs[id], review)
  }

  /** Deleting a job's staging folder leaves the files of every other job that needs its own alone. */
  ghost predicate DiscardIsSafe(m: Machine, job: Job, review: bool) {
    forall other | Needed(m.jobs, other, review) && other != job.id :: Staging(m.jobs[other]) != Staging(job)
  }

  /**
   A job that counts as finished and is needed all the same, the one discarded or
   another, stands against the deletion of a folder two jobs share: a failed one, or
   one in review.
   */
  ghost predicate FinishedSharesFolder(m: Machine, job: Job, review: bool) {
    exists other :: Needed(m.jobs, other, review) && other != job.id && SharesStaging(m.jobs[other], job)
      && (job.status.IsFinished() || m.jobs[other].status.IsFinished())
  }

  /** Two jobs that are needed share a folder only if one of them counts as finished. */
  lemma {:induction false} SharingIsBesideFinished(m: Machine, job: Job, review: bool)
    requires Inv(m) && OneUnfinished(m.jobs) && job.id in m.jobs && m.jobs[job.id] == job
    ensures DiscardIsSafe(m, job, review) <==> !FinishedSharesFolder(m, job, review)
  {
    forall other | Needed(m.jobs, other, review)
      ensures Staging(m.jobs[other]) == Staging(job) <==> SharesStaging(m.jobs[other], job)
      ensures SharesStaging(m.jobs[other], job) ==> SameWork(m.jobs[other], job)
    {
      StagingIdentifies(m.jobs[other], job);
    }
    assert !job.status.IsFinished() ==> Unfinished(m.jobs, job.id);
    assert forall other | Needed(m.jobs, other, review) && !m.jobs[other].status.IsFinished() ::
      Unfinished(m.jobs, other);
  }

  /**
   While each work has one unfinished job, a deletion spares every other job that
   needs its files exactly unless the folder is shared with one and one of the two
   counts as finished. Whether a cancellation or a run deletes makes no difference.
   */
  lemma {:induction false} DiscardIsSafeIff(m: Machine, e: Event, review: bool)
    requires Inv(m) && OneUnfinished(m.jobs) && Enabled(m, e) && Discards(m, e).Some?
    ensures DiscardIsSafe(m, Discards(m, e).value, review) <==>
              !FinishedSharesFolder(m, Discards(m, e).value, review)
  {
    assert m.jobs[Discards(m, e).value.id] == Discards(m, e).value;
    SharingIsBesideFinished(m, Discards(m, e).value, review);
  }

  ghost predicate DiscardsAreSafe(m: Machine, es: seq<Event>, review: bool)
    requires Runnable(m, es)
    decreases |es|
  {
    es == []
    || ((Discards(m, es[0]).Some? ==> DiscardIsSafe(m, Discards(m, es[0]).value, review))
        && DiscardsAreSafe(Next(m, es[0]), es[1..], review))
  }

  ghost predicate NeverDiscardsBesideFinished(m: Machine, es: seq<Event>, review: bool)
    requires Runnable(m, es)
    decreases |es|
  {
    es == []
    || ((Discards(m, es[0]).Some? ==> !FinishedSharesFolder(m, Discards(m, es[0]).value, review))
        && NeverDiscardsBesideFinished(Next(m, es[0]), es[1..], review))
  }

  /**
   Over whole runs in which no failed job is resumed beside another: every deletion is
   safe exactly if no folder is deleted that a failed job, or with `review` one in
   review, shares.
   */
  lemma {:induction false} DiscardsInRunsAreSafeIff(m: Machine, es: seq<Event>, review: bool)
    requires Inv(m) && OneUnfinished(m.jobs) && Runnable(m, es) && NeverClashes(m, es)
    ensures DiscardsAreSafe(m, es, review) <==> NeverDiscardsBesideFinished(m, es, review)
    decreases |es|
  {
    hide *;
    if es != [] {
      OneMore(m, es, review);
      StepKeepsInv(m, es[0]);
      StepKeepsOneIff(m, es[0]);
      if Discards(m, es[0]).Some? {
        DiscardIsSafeIff(m, es[0], review);
      }
      DiscardsInRunsAreSafeIff(Next(m, es[0]), es[1..], review);
    } else {
      NothingDiscarded(m, review);
    }
  }

  lemma {:induction false} NothingDiscarded(m: Machine, review: bool)
    ensures DiscardsAreSafe(m, [], review) && NeverDiscardsBesideFinished(m, [], review)
  {
  }

  lemma {:induction false} OneMore(m: Machine, es: seq<Event>, review: bool)
    requires Runnable(m, es) && es != []
    ensures Enabled(m, es[0]) && Runnable(Next(m, es[0]), es[1..])
    ensures NeverClashes(m, es) <==> !Clashes(m, es[0]) && NeverClashes(Next(m, es[0]), es[1..])
    ensures DiscardsAreSafe(m, es, review) <==>
              (Discards(m, es[0]).Some? ==> DiscardIsSafe(m, Discards(m, es[0]).value, review))
              && DiscardsAreSafe(Next(m, es[0]), es[1..], review)
    ensures NeverDiscardsBesideFinished(m, es, review) <==>
              (Discards(m, es[0]).Some? ==> !FinishedSharesFolder(m, Discards(m, es[0]).value, review))
              && NeverDiscardsBesideFinished(Next(m, es[0]), es[1..], review)
  {
    hide Next, Enabled, Discards, DiscardIsSafe, FinishedSharesFolder, Clashes;
  }
}
