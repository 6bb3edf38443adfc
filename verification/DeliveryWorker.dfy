/**
 The delivery controller's single worker: an atomic flag, the queue in the
 store, the session, and any number of threads that save a job or sign in and
 then kick the worker. Each step is one atomic access, so every interleaving is
 a run.
 */
module DeliveryWorker {

  type JobId = nat

  /** How a run leaves the loop: go on, stop the queue, or stop and sign out as well. */
  datatype Verdict = GoOn | StopQueue | SignOutToo

  datatype Pc =
    // In the work loop, holding the flag.
    | CheckSession
    | AskQueue
    | Chosen(job: JobId)
    | Working(job: JobId)
    | Ended(verdict: Verdict)
    | ReleaseFlag
    // After the loop.
    | RecheckSession
    | RecheckQueue
    // Kicking.
    | KickSession
    | KickFlag
    | Done

  /** The session, the queued jobs in the store, the flag, and every thread there has been. */
  datatype Controller = Controller(signedIn: bool, queued: set<JobId>, flag: bool, threads: seq<Pc>)

  const IDLE := Controller(false, {}, false, [])

  datatype Event =
    // What callers do before they kick: save a queued job, or sign in.
    | Arrive(job: JobId)
    | SignIn
    // What happens without a kick.
    | SignOut
    | Withdraw(job: JobId)
    // A step of thread `t`; `oldest` is the job the queue answers with, `verdict` how its run ended.
    | Step(t: nat, oldest: JobId, verdict: Verdict)

  predicate Holds(pc: Pc) {
    pc.CheckSession? || pc.AskQueue? || pc.Chosen? || pc.Working? || pc.Ended? || pc.ReleaseFlag?
  }

  /** A job whose run is under way is stored as running, so nobody queues it. */
  predicate Enabled(c: Controller, e: Event) {
    match e
    case Arrive(job) => forall i | 0 <= i < |c.threads| :: c.threads[i] != Working(job)
    case Step(t, oldest, _) =>
      t < |c.threads| && !c.threads[t].Done?
      && (c.threads[t].AskQueue? && c.queued != {} ==> oldest in c.queued)
    case _ => true
  }

  function At(c: Controller, t: nat, pc: Pc): Controller
    requires t < |c.threads|
  {
    c.(threads := c.threads[t := pc])
  }

  function Stepped(c: Controller, t: nat, oldest: JobId, verdict: Verdict): Controller
    requires t < |c.threads|
  {
    match c.threads[t]
    case CheckSession => At(c, t, if c.signedIn then AskQueue else ReleaseFlag)
    case AskQueue => At(c, t, if c.queued == {} then ReleaseFlag else Chosen(oldest))
    case Chosen(job) =>
      // A job that was withdrawn meanwhile is returned as it is, without running.
      if job in c.queued then At(c, t, Working(job)).(queued := c.queued - {job}) else At(c, t, Ended(verdict))
    case Working(_) => At(c, t, Ended(verdict))
    case Ended(GoOn) => At(c, t, CheckSession)
    case Ended(StopQueue) => At(c, t, ReleaseFlag)
    case Ended(SignOutToo) => At(c, t, ReleaseFlag).(signedIn := false)
    case ReleaseFlag => At(c, t, RecheckSession).(flag := false)
    case RecheckSession => At(c, t, if c.signedIn then RecheckQueue else Done)
    case RecheckQueue => At(c, t, if c.queued == {} then Done else KickSession)
    case KickSession => At(c, t, if c.signedIn then KickFlag else Done)
    case KickFlag =>
      if c.flag then At(c, t, Done)
      else At(c, t, Done).(flag := true, threads := c.threads[t := Done] + [CheckSession])
    case Done => c
  }

  function Next(c: Controller, e: Event): Controller
    requires Enabled(c, e)
  {
    match e
    case Arrive(job) => c.(queued := c.queued + {job}, threads := c.threads + [KickSession])
    case SignIn => c.(signedIn := true, threads := c.threads + [KickSession])
    case SignOut => c.(signedIn := false)
    case Withdraw(job) => c.(queued := c.queued - {job})
    case Step(t, oldest, verdict) => Stepped(c, t, oldest, verdict)
  }

  predicate Runnable(c: Controller, es: seq<Event>)
    decreases |es|
  {
    es == [] || (Enabled(c, es[0]) && Runnable(Next(c, es[0]), es[1..]))
  }

  function Run(c: Controller, es: seq<Event>): Controller
    requires Runnable(c, es)
    decreases |es|
  {
    if es == [] then c else Run(Next(c, es[0]), es[1..])
  }

  // Safety.

  ghost predicate HeldByOne(c: Controller) {
    && (forall i, j | 0 <= i < j < |c.threads| :: !(Holds(c.threads[i]) && Holds(c.threads[j])))
    && (c.flag <==> exists i | 0 <= i < |c.threads| :: Holds(c.threads[i]))
  }

  /** A thread that will look at the queue again, or kick. */
  predicate WillLook(pc: Pc) {
    pc.RecheckSession? || pc.RecheckQueue? || pc.KickSession? || pc.KickFlag?
  }

  predicate Runnables(c: Controller) {
    c.signedIn && c.queued != {}
  }

  ghost predicate Watched(c: Controller) {
    Runnables(c) ==> exists i | 0 <= i < |c.threads| :: Holds(c.threads[i]) || WillLook(c.threads[i])
  }

  ghost predicate Inv(c: Controller) {
    HeldByOne(c) && Watched(c)
  }

  /** A step moves one thread, and a kick that takes the flag adds one. */
  lemma {:induction false} StepMovesOneThread(c: Controller, t: nat, oldest: JobId, verdict: Verdict)
    requires t < |c.threads|
    ensures var after := Stepped(c, t, oldest, verdict);
      && |after.threads| >= |c.threads|
      && after.threads == c.threads[t := after.threads[t]]
           + if c.threads[t].KickFlag? && !c.flag then [CheckSession] else []
  {
  }

  /** A thread in the loop stays there or gives up the flag; one outside only takes it by starting a new one. */
  lemma {:induction false} StepMovesTheFlag(c: Controller, t: nat, oldest: JobId, verdict: Verdict)
    requires t < |c.threads|
    ensures var after := Stepped(c, t, oldest, verdict);
      && |after.threads| >= |c.threads|
      && (Holds(c.threads[t]) ==> after.flag == (c.flag && Holds(after.threads[t])))
      && (!Holds(c.threads[t]) ==> !Holds(after.threads[t]) && after.flag == (c.flag || c.threads[t].KickFlag?))
  {
  }

  lemma {:induction false} StepKeepsHeldByOne(c: Controller, t: nat, oldest: JobId, verdict: Verdict)
    requires HeldByOne(c) && t < |c.threads|
    ensures HeldByOne(Stepped(c, t, oldest, verdict))
  {
    var after := Stepped(c, t, oldest, verdict);
    StepMovesOneThread(c, t, oldest, verdict);
    StepMovesTheFlag(c, t, oldest, verdict);
    hide Stepped;
    if Holds(c.threads[t]) && Holds(after.threads[t]) {
      assert Holds(after.threads[t]);
    } else if after.flag && !c.flag {
      assert Holds(after.threads[|c.threads|]);
    } else if c.flag && after.flag {
      var i :| 0 <= i < |c.threads| && Holds(c.threads[i]);
      assert Holds(after.threads[i]);
    }
  }

  lemma {:induction false} StepKeepsWatched(c: Controller, t: nat, oldest: JobId, verdict: Verdict)
    requires Inv(c) && t < |c.threads|
    ensures Watched(Stepped(c, t, oldest, verdict))
  {
    var after := Stepped(c, t, oldest, verdict);
    if Runnables(after) {
      StepKeepsHeldByOne(c, t, oldest, verdict);
      var i :| 0 <= i < |c.threads| && (Holds(c.threads[i]) || WillLook(c.threads[i]));
      if i != t || Holds(after.threads[t]) || WillLook(after.threads[t]) {
        assert Holds(after.threads[i]) || WillLook(after.threads[i]);
      } else {
        assert after.flag;
        var j :| 0 <= j < |after.threads| && Holds(after.threads[j]);
      }
    }
  }

  /** Any step of any thread, and anything callers do, keeps the flag held by one thread and the queue watched. */
  lemma {:induction false} EventKeepsInv(c: Controller, e: Event)
    requires Inv(c) && Enabled(c, e)
    ensures Inv(Next(c, e))
  {
    var after := Next(c, e);
    if e.Step? {
      StepKeepsHeldByOne(c, e.t, e.oldest, e.verdict);
      StepKeepsWatched(c, e.t, e.oldest, e.verdict);
    } else {
      forall i | 0 <= i < |c.threads|
        ensures after.threads[i] == c.threads[i]
      {
      }
      if e.Arrive? || e.SignIn? {
        assert WillLook(after.threads[|c.threads|]);
      }
    }
  }

  lemma {:induction false} RunKeepsInv(c: Controller, es: seq<Event>)
    requires Inv(c) && Runnable(c, es)
    ensures Inv(Run(c, es))
    decreases |es|
  {
    if es != [] {
      EventKeepsInv(c, es[0]);
      RunKeepsInv(Next(c, es[0]), es[1..]);
    }
  }

  /** At most one thread is ever inside the work loop, so at most one job is running. */
  lemma {:induction false} OneThreadWorks(es: seq<Event>, i: nat, j: nat)
    requires Runnable(IDLE, es)
    requires i < |Run(IDLE, es).threads| && j < |Run(IDLE, es).threads|
    requires Holds(Run(IDLE, es).threads[i]) && Holds(Run(IDLE, es).threads[j])
    ensures i == j
  {
    RunKeepsInv(IDLE, es);
  }

  /** No wake-up is lost: when every thread is done, nothing queued can run. */
  lemma {:induction false} NothingRunnableIsLeft(es: seq<Event>)
    requires Runnable(IDLE, es) && forall i | 0 <= i < |Run(IDLE, es).threads| :: Run(IDLE, es).threads[i].Done?
    ensures !Run(IDLE, es).signedIn || Run(IDLE, es).queued == {}
  {
    RunKeepsInv(IDLE, es);
  }

  // Progress.

  /** A number for each state of affairs: a job can run, the queue is empty, the session has ended. */
  function ByState(signedIn: bool, queued: set<JobId>, runnable: nat, empty: nat, signedOut: nat): nat {
    if !signedIn then signedOut else if queued == {} then empty else runnable
  }

  /** How many steps a thread can take before the next job leaves the queue, at most. */
  function Rank(signedIn: bool, queued: set<JobId>, pc: Pc): nat {
    match pc
    case Chosen(job) => if job in queued then 4 else 32
    case Working(_) => 32
    case Ended(_) => 31
    case ReleaseFlag => ByState(signedIn, queued, 29, 13, 4)
    case RecheckSession => ByState(signedIn, queued, 28, 12, 3)
    case RecheckQueue => ByState(signedIn, queued, 27, 11, 2)
    case KickSession => ByState(signedIn, queued, 26, 17, 1)
    case KickFlag => ByState(signedIn, queued, 25, 16, 7)
    case CheckSession => ByState(signedIn, queued, 24, 15, 6)
    case AskQueue => ByState(signedIn, queued, 23, 14, 5)
    case Done => 0
  }

  function Ranks(signedIn: bool, queued: set<JobId>, pcs: seq<Pc>): nat {
    if pcs == [] then 0
    else Ranks(signedIn, queued, pcs[..|pcs| - 1]) + Rank(signedIn, queued, pcs[|pcs| - 1])
  }

  /** A bound on the steps the threads can still take: 40 for each queued job, and their ranks. */
  function Left(c: Controller): nat {
    40 * |c.queued| + Ranks(c.signedIn, c.queued, c.threads)
  }

  lemma {:induction false} RanksUpdate(s: bool, q: set<JobId>, pcs: seq<Pc>, t: nat, pc: Pc)
    requires t < |pcs|
    ensures Ranks(s, q, pcs[t := pc]) == Ranks(s, q, pcs) - Rank(s, q, pcs[t]) + Rank(s, q, pc)
  {
    var n := |pcs| - 1;
    if t == n {
      assert pcs[t := pc][..n] == pcs[..n];
    } else {
      RanksUpdate(s, q, pcs[..n], t, pc);
      assert pcs[t := pc][..n] == pcs[..n][t := pc];
    }
  }

  lemma {:induction false} RanksAppend(s: bool, q: set<JobId>, pcs: seq<Pc>, pc: Pc)
    ensures Ranks(s, q, pcs + [pc]) == Ranks(s, q, pcs) + Rank(s, q, pc)
  {
    assert (pcs + [pc])[..|pcs|] == pcs;
  }

  /** The session may end and the queue may shrink. */
  predicate Shrinks(s: bool, q: set<JobId>, s': bool, q': set<JobId>) {
    q' <= q && (s' ==> s)
  }

  /** Unless it has chosen the very job that left the queue, a thread's rank does not grow. */
  lemma {:induction false} RanksShrink(s: bool, q: set<JobId>, s': bool, q': set<JobId>, pcs: seq<Pc>)
    requires Shrinks(s, q, s', q') && forall i | 0 <= i < |pcs| && pcs[i].Chosen? && pcs[i].job in q :: pcs[i].job in q'
    ensures Ranks(s', q', pcs) <= Ranks(s, q, pcs)
  {
    if pcs != [] {
      RanksShrink(s, q, s', q', pcs[..|pcs| - 1]);
      RankShrinks(s, q, s', q', pcs[|pcs| - 1]);
    }
  }

  lemma {:induction false} RankShrinks(s: bool, q: set<JobId>, s': bool, q': set<JobId>, pc: Pc)
    requires Shrinks(s, q, s', q')
    ensures !(pc.Chosen? && pc.job in q && pc.job !in q') ==> Rank(s', q', pc) <= Rank(s, q, pc)
    ensures Rank(s', q', pc) <= Rank(s, q, pc) + 28
  {
  }

  /** As at most one thread has chosen a job, all of them together gain at most that one's. */
  lemma {:induction false} RanksShrinkButOne(s: bool, q: set<JobId>, s': bool, q': set<JobId>, pcs: seq<Pc>)
    requires Shrinks(s, q, s', q')
    requires forall i, j | 0 <= i < j < |pcs| :: !(Holds(pcs[i]) && Holds(pcs[j]))
    ensures Ranks(s', q', pcs) <= Ranks(s, q, pcs) + 28
  {
    if pcs != [] {
      var n := |pcs| - 1;
      RankShrinks(s, q, s', q', pcs[n]);
      if Holds(pcs[n]) {
        RanksShrink(s, q, s', q', pcs[..n]);
      } else {
        RanksShrinkButOne(s, q, s', q', pcs[..n]);
      }
    }
  }

  lemma {:induction false} LoopLowersRank(c: Controller, t: nat, oldest: JobId, verdict: Verdict)
    requires t < |c.threads| && !c.threads[t].Done? && (c.threads[t].AskQueue? && c.queued != {} ==> oldest in c.queued)
    requires Holds(c.threads[t]) && !(c.threads[t].Chosen? && c.threads[t].job in c.queued)
    ensures var after := Stepped(c, t, oldest, verdict);
      |after.threads| >= |c.threads|
      && Rank(c.signedIn, c.queued, after.threads[t])
           + (if c.threads[t].KickFlag? && !c.flag then Rank(c.signedIn, c.queued, CheckSession) else 0)
         < Rank(c.signedIn, c.queued, c.threads[t])
  {
  }

  lemma {:induction false} KickLowersRank(c: Controller, t: nat, oldest: JobId, verdict: Verdict)
    requires t < |c.threads| && !c.threads[t].Done? && (c.threads[t].AskQueue? && c.queued != {} ==> oldest in c.queued)
    requires !Holds(c.threads[t])
    ensures var after := Stepped(c, t, oldest, verdict);
      |after.threads| >= |c.threads|
      && Rank(c.signedIn, c.queued, after.threads[t])
           + (if c.threads[t].KickFlag? && !c.flag then Rank(c.signedIn, c.queued, CheckSession) else 0)
         < Rank(c.signedIn, c.queued, c.threads[t])
  {
  }

  lemma {:induction false} StepLowersRank(c: Controller, t: nat, oldest: JobId, verdict: Verdict)
    requires t < |c.threads| && !c.threads[t].Done? && (c.threads[t].AskQueue? && c.queued != {} ==> oldest in c.queued)
    requires !(c.threads[t].Chosen? && c.threads[t].job in c.queued)
    ensures var after := Stepped(c, t, oldest, verdict);
      |after.threads| >= |c.threads|
      && Rank(c.signedIn, c.queued, after.threads[t])
           + (if c.threads[t].KickFlag? && !c.flag then Rank(c.signedIn, c.queued, CheckSession) else 0)
         < Rank(c.signedIn, c.queued, c.threads[t])
  {
    hide Stepped, Rank, Holds;
    if Holds(c.threads[t]) {
      LoopLowersRank(c, t, oldest, verdict);
    } else {
      KickLowersRank(c, t, oldest, verdict);
    }
  }

  /** A step that changes neither the session nor the queue. */
  lemma {:induction false} OrdinaryStepAdvances(c: Controller, t: nat, oldest: JobId, verdict: Verdict)
    requires t < |c.threads| && !c.threads[t].Done? && (c.threads[t].AskQueue? && c.queued != {} ==> oldest in c.queued)
    requires !(c.threads[t].Chosen? && c.threads[t].job in c.queued) && c.threads[t] != Ended(SignOutToo)
    ensures Left(Stepped(c, t, oldest, verdict)) < Left(c)
  {
    var after := Stepped(c, t, oldest, verdict);
    assert after.signedIn == c.signedIn && after.queued == c.queued;
    StepMovesOneThread(c, t, oldest, verdict);
    StepLowersRank(c, t, oldest, verdict);
    hide Stepped, Rank;
    RanksUpdate(c.signedIn, c.queued, c.threads, t, after.threads[t]);
    if c.threads[t].KickFlag? && !c.flag {
      RanksAppend(c.signedIn, c.queued, c.threads[t := after.threads[t]], CheckSession);
    } else {
      assert after.threads == c.threads[t := after.threads[t]];
    }
  }

  lemma {:induction false} StartingAdvances(c: Controller, t: nat, oldest: JobId, verdict: Verdict)
    requires HeldByOne(c) && t < |c.threads| && c.threads[t].Chosen? && c.threads[t].job in c.queued
    ensures Left(Stepped(c, t, oldest, verdict)) < Left(c)
  {
    var after := Stepped(c, t, oldest, verdict);
    var job := c.threads[t].job;
    RanksUpdate(c.signedIn, c.queued, c.threads, t, Working(job));
    assert after.threads == c.threads[t := Working(job)];
    forall i | 0 <= i < |after.threads|
      ensures !after.threads[i].Chosen?
    {
      assert i != t ==> after.threads[i] == c.threads[i];
    }
    RanksShrink(c.signedIn, c.queued, c.signedIn, after.queued, after.threads);
    assert c.queued == after.queued + {job};
  }

  lemma {:induction false} SigningOutAdvances(c: Controller, t: nat, oldest: JobId, verdict: Verdict)
    requires t < |c.threads| && c.threads[t] == Ended(SignOutToo)
    ensures Left(Stepped(c, t, oldest, verdict)) < Left(c)
  {
    var after := Stepped(c, t, oldest, verdict);
    RanksUpdate(c.signedIn, c.queued, c.threads, t, ReleaseFlag);
    assert after.threads == c.threads[t := ReleaseFlag];
    RanksShrink(c.signedIn, c.queued, after.signedIn, after.queued, after.threads);
  }

  predicate IsArrival(e: Event) {
    e.Arrive? || e.SignIn?
  }

  /**
   Every thread step leaves less to do, and so does nothing but a new arrival or
   a new session leave more: with no new arrivals all threads are done after at
   most `Left` steps.
   */
  lemma {:induction false} StepsRunOut(c: Controller, e: Event)
    requires Inv(c) && Enabled(c, e) && !IsArrival(e)
    ensures Left(Next(c, e)) <= Left(c)
    ensures e.Step? ==> Left(Next(c, e)) < Left(c)
  {
    match e {
      case SignOut =>
        RanksShrink(c.signedIn, c.queued, false, c.queued, c.threads);
      case Withdraw(job) =>
        if job in c.queued {
          RanksShrinkButOne(c.signedIn, c.queued, c.signedIn, c.queued - {job}, c.threads);
          assert c.queued == c.queued - {job} + {job};
        } else {
          assert c.queued - {job} == c.queued;
        }
      case Step(t, oldest, verdict) =>
        if c.threads[t].Chosen? && c.threads[t].job in c.queued {
          StartingAdvances(c, t, oldest, verdict);
        } else if c.threads[t] == Ended(SignOutToo) {
          SigningOutAdvances(c, t, oldest, verdict);
        } else {
          OrdinaryStepAdvances(c, t, oldest, verdict);
        }
    }
  }

  function Steps(es: seq<Event>): nat {
    if es == [] then 0 else Steps(es[1..]) + if es[0].Step? then 1 else 0
  }

  /** Over whole runs without arrivals: the threads take no more steps than there was left to do. */
  lemma {:induction false} RunsEndWithoutArrivals(c: Controller, es: seq<Event>)
    requires Inv(c) && Runnable(c, es) && forall e | e in es :: !IsArrival(e)
    ensures Steps(es) + Left(Run(c, es)) <= Left(c)
    decreases |es|
  {
    if es != [] {
      StepsRunOut(c, es[0]);
      EventKeepsInv(c, es[0]);
      RunsEndWithoutArrivals(Next(c, es[0]), es[1..]);
    }
  }

  /** A thread that is not done can always take its next step. */
  lemma {:induction false} NobodyIsStuck(c: Controller, t: nat, verdict: Verdict) returns (e: Event)
    requires t < |c.threads| && !c.threads[t].Done?
    ensures e.Step? && e.t == t && e.verdict == verdict && Enabled(c, e)
  {
    if c.queued != {} {
      var oldest :| oldest in c.queued;
      e := Step(t, oldest, verdict);
    } else {
      e := Step(t, 0, verdict);
    }
  }

  // Which jobs are run.

  /** A step with which the run of a job starts. */
  predicate Starts(c: Controller, e: Event, job: JobId) {
    e.Step? && e.t < |c.threads| && c.threads[e.t] == Chosen(job) && job in c.queued
  }

  /** Whether a job waits: it was queued, and since then neither withdrawn nor started. */
  predicate Waits(c: Controller, es: seq<Event>, job: JobId, waiting: bool)
    requires Runnable(c, es)
    decreases |es|
  {
    if es == [] then waiting
    else
      Waits(Next(c, es[0]), es[1..], job,
            es[0] == Arrive(job) || (waiting && es[0] != Withdraw(job) && !Starts(c, es[0], job)))
  }

  lemma {:induction false} QueuedInRunIff(c: Controller, es: seq<Event>, job: JobId)
    requires Runnable(c, es)
    ensures job in Run(c, es).queued <==> Waits(c, es, job, job in c.queued)
    decreases |es|
  {
    if es != [] {
      QueuedInRunIff(Next(c, es[0]), es[1..], job);
    }
  }

  /** Over whole runs exactly the jobs that wait are queued. */
  lemma {:induction false} QueuedIff(es: seq<Event>, job: JobId)
    requires Runnable(IDLE, es)
    ensures job in Run(IDLE, es).queued <==> Waits(IDLE, es, job, false)
  {
    QueuedInRunIff(IDLE, es, job);
  }

  /** A run that ends the session, or somebody who does. */
  predicate EndsSession(c: Controller, e: Event) {
    e.SignOut? || (e.Step? && e.t < |c.threads| && c.threads[e.t] == Ended(SignOutToo))
  }

  predicate HasSession(c: Controller, es: seq<Event>, session: bool)
    requires Runnable(c, es)
    decreases |es|
  {
    if es == [] then session
    else HasSession(Next(c, es[0]), es[1..], es[0].SignIn? || (session && !EndsSession(c, es[0])))
  }

  lemma {:induction false} SignedInRunIff(c: Controller, es: seq<Event>)
    requires Runnable(c, es)
    ensures Run(c, es).signedIn <==> HasSession(c, es, c.signedIn)
    decreases |es|
  {
    if es != [] {
      SignedInRunIff(Next(c, es[0]), es[1..]);
    }
  }

  /** Over whole runs somebody is signed in exactly if nobody signed out since, and no run made them. */
  lemma {:induction false} SignedInIff(es: seq<Event>)
    requires Runnable(IDLE, es)
    ensures Run(IDLE, es).signedIn <==> HasSession(IDLE, es, false)
  {
    SignedInRunIff(IDLE, es);
  }

  /** How often the run of a job starts. */
  function StartsIn(c: Controller, es: seq<Event>, job: JobId): nat
    requires Runnable(c, es)
    decreases |es|
  {
    if es == [] then 0
    else StartsIn(Next(c, es[0]), es[1..], job) + if Starts(c, es[0], job) then 1 else 0
  }

  predicate AllDone(c: Controller) {
    forall t | 0 <= t < |c.threads| :: c.threads[t].Done?
  }

  /** The session goes on: nobody is about to sign out. */
  predicate StaysSignedIn(c: Controller) {
    c.signedIn && forall t | 0 <= t < |c.threads| :: c.threads[t] != Ended(SignOutToo)
  }

  /** Steps of threads whose runs do not end the session, though they may be meant to stop the queue. */
  predicate AreSteps(es: seq<Event>) {
    forall e | e in es :: e.Step? && !e.verdict.SignOutToo?
  }

  lemma {:induction false} StepsKeepSession(c: Controller, e: Event)
    requires StaysSignedIn(c) && Enabled(c, e) && e.Step? && !e.verdict.SignOutToo?
    ensures StaysSignedIn(Next(c, e))
    ensures forall job :: job in Next(c, e).queued <==> job in c.queued && !Starts(c, e, job)
  {
    StepMovesOneThread(c, e.t, e.oldest, e.verdict);
  }

  lemma {:induction false} StartsOnceLess(c: Controller, es: seq<Event>, job: JobId)
    requires Runnable(c, es) && AreSteps(es) && StaysSignedIn(c)
    ensures StaysSignedIn(Run(c, es))
    ensures StartsIn(c, es, job) == (if job in c.queued then 1 else 0) - (if job in Run(c, es).queued then 1 else 0)
    decreases |es|
  {
    hide Next, Enabled, StaysSignedIn;
    if es != [] {
      assert es[0] in es;
      StepsKeepSession(c, es[0]);
      StartsOnceLess(Next(c, es[0]), es[1..], job);
    }
  }

  /**
   While the session lasts the queue is never stopped: however runs end, also with a
   problem that is meant to stop it, once the threads are done every job that was queued
   was started, once, and none is left.
   */
  lemma {:induction false} EverythingQueuedIsRun(c: Controller, es: seq<Event>)
    requires Inv(c) && StaysSignedIn(c) && Runnable(c, es) && AreSteps(es) && AllDone(Run(c, es))
    ensures Run(c, es).signedIn && Run(c, es).queued == {}
    ensures forall job :: StartsIn(c, es, job) == if job in c.queued then 1 else 0
  {
    StartsOnceLess(c, es, 0);
    RunKeepsInv(c, es);
    assert Run(c, es).queued == {};
    forall job
      ensures StartsIn(c, es, job) == if job in c.queued then 1 else 0
    {
      StartsOnceLess(c, es, job);
    }
  }

  /** From any state the threads can go on until they are done, each run ending as given. */
  lemma {:induction false} ThreadsGetDone(c: Controller, verdict: Verdict) returns (es: seq<Event>)
    requires Inv(c)
    ensures Runnable(c, es) && AllDone(Run(c, es)) && forall e | e in es :: e.Step? && e.verdict == verdict
    decreases Left(c)
  {
    if AllDone(c) {
      es := [];
    } else {
      var t :| 0 <= t < |c.threads| && !c.threads[t].Done?;
      var e := NobodyIsStuck(c, t, verdict);
      hide Enabled, Next, Inv, AllDone, Left;
      EventKeepsInv(c, e);
      StepsRunOut(c, e);
      var rest := ThreadsGetDone(Next(c, e), verdict);
      es := [e] + rest;
      assert es[1..] == rest;
    }
  }

  /** A job that is queued while somebody is signed in can be run, with all that waited before. */
  lemma {:induction false} JobIsRun(c: Controller, job: JobId, verdict: Verdict) returns (es: seq<Event>)
    requires Inv(c) && StaysSignedIn(c) && Enabled(c, Arrive(job)) && !verdict.SignOutToo?
    ensures |es| > 0 && es[0] == Arrive(job) && Runnable(c, es) && AreSteps(es[1..]) && AllDone(Run(c, es))
    ensures Run(c, es).queued == {} && StartsIn(c, es, job) == 1
    ensures forall other | other in c.queued :: StartsIn(c, es, other) == 1
  {
    var arrived := Next(c, Arrive(job));
    EventKeepsInv(c, Arrive(job));
    assert StaysSignedIn(arrived) && arrived.queued == c.queued + {job};
    var rest := ThreadsGetDone(arrived, verdict);
    EverythingQueuedIsRun(arrived, rest);
    es := [Arrive(job)] + rest;
    assert es[1..] == rest;
  }

  /** And so can all jobs that wait for somebody to sign in, once that happens. */
  lemma {:induction false} SigningInRunsAll(c: Controller, verdict: Verdict) returns (es: seq<Event>)
    requires Inv(c) && !verdict.SignOutToo? && forall t | 0 <= t < |c.threads| :: c.threads[t] != Ended(SignOutToo)
    ensures |es| > 0 && es[0] == SignIn && Runnable(c, es) && AreSteps(es[1..]) && AllDone(Run(c, es))
    ensures Run(c, es).queued == {} && forall job | job in c.queued :: StartsIn(c, es, job) == 1
  {
    var arrived := Next(c, SignIn);
    EventKeepsInv(c, SignIn);
    assert StaysSignedIn(arrived) && arrived.queued == c.queued;
    var rest := ThreadsGetDone(arrived, verdict);
    EverythingQueuedIsRun(arrived, rest);
    es := [SignIn] + rest;
    assert es[1..] == rest;
  }

  /**
   So a run that ends with a problem meant to stop the queue does not: with nobody doing
   anything the worker goes on to the jobs that are left, and each is started, whatever
   becomes of it.
   */
  lemma {:induction false} StoppedQueueGoesOn(c: Controller, t: nat, verdict: Verdict) returns (es: seq<Event>)
    requires Inv(c) && c.signedIn && t < |c.threads| && c.threads[t] == Ended(StopQueue) && !verdict.SignOutToo?
    ensures Runnable(c, es) && AreSteps(es) && AllDone(Run(c, es))
    ensures forall job | job in c.queued :: StartsIn(c, es, job) == 1
  {
    forall i | 0 <= i < |c.threads|
      ensures c.threads[i] != Ended(SignOutToo)
    {
      assert Holds(c.threads[t]);
    }
    es := ThreadsGetDone(c, verdict);
    EverythingQueuedIsRun(c, es);
  }

  lemma {:induction false} AndThen(c: Controller, es: seq<Event>, e: Event)
    requires Runnable(c, es) && Enabled(Run(c, es), e)
    ensures Runnable(c, es + [e]) && Run(c, es + [e]) == Next(Run(c, es), e)
    decreases |es|
  {
    hide Enabled, Next;
    if es == [] {
      assert es + [e] == [e] && [e][1..] == [];
    } else {
      AndThen(Next(c, es[0]), es[1..], e);
      assert (es + [e])[1..] == es[1..] + [e];
    }
  }

  /** Thread `t` takes steps from its place to another, one after the other. */
  lemma {:induction false} Goes(es: seq<Event>, c: Controller, t: nat, job: JobId, verdict: Verdict, n: nat)
    returns (more: seq<Event>, after: Controller)
    requires Runnable(IDLE, es) && Run(IDLE, es) == c && t < |c.threads| && c.signedIn && job in c.queued
    requires n < 3 && c.threads[t] == [CheckSession, AskQueue, Chosen(job)][n]
    ensures Runnable(IDLE, more) && Run(IDLE, more) == after
    ensures after == c.(queued := c.queued - {job}, threads := c.threads[t := Ended(verdict)])
    decreases 3 - n
  {
    var e := Step(t, job, verdict);
    AndThen(IDLE, es, e);
    var next := Next(c, e);
    if n < 2 {
      assert next == c.(threads := c.threads[t := [CheckSession, AskQueue, Chosen(job)][n + 1]]);
      more, after := Goes(es + [e], next, t, job, verdict, n + 1);
      assert after.threads == c.threads[t := Ended(verdict)];
    } else {
      AndThen(IDLE, es + [e], e);
      more, after := es + [e] + [e], Next(next, e);
      assert after.threads == c.threads[t := Ended(verdict)];
    }
  }

  /** Such a state is there once two jobs are queued and the first of them stops the queue. */
  lemma {:induction false} QueueCanBeMeantToStop(first: JobId, second: JobId) returns (es: seq<Event>)
    requires first != second
    ensures Runnable(IDLE, es) && var c := Run(IDLE, es);
      c.signedIn && c.queued == {second} && |c.threads| > 3 && c.threads[3] == Ended(StopQueue)
  {
    var kick := Step(0, first, StopQueue);
    AndThen(IDLE, [], SignIn);
    AndThen(IDLE, [SignIn], Arrive(first));
    AndThen(IDLE, [SignIn] + [Arrive(first)], Arrive(second));
    es := [SignIn] + [Arrive(first)] + [Arrive(second)];
    assert [] + [SignIn] == [SignIn];
    AndThen(IDLE, es, kick);
    AndThen(IDLE, es + [kick], kick);
    var c := Run(IDLE, es + [kick] + [kick]);
    assert c.threads == [Done, KickSession, KickSession, CheckSession] && c.queued == {first, second};
    var after;
    es, after := Goes(es + [kick] + [kick], c, 3, first, StopQueue, 0);
    assert after.queued == {second};
  }
}
