/** What the launch supervisor promises over whole runs, under every interleaving. */
module LaunchTheorems {
  import opened Wrappers
  import opened LaunchSupervisor
  import opened LaunchSafety

  lemma {:induction false} EmptyWorldKeepsInv()
    ensures Inv(EMPTY)
  {
  }

  lemma {:induction false} RunKeepsInv(w: World, es: seq<Event>)
    requires Inv(w) && Runnable(w, es)
    ensures Inv(Run(w, es))
    decreases |es|
  {
    if es != [] {
      StepKeepsInv(w, es[0]);
      RunKeepsInv(Next(w, es[0]), es[1..]);
    }
  }

  /** Starting, Running, Stopping and an end, which is for good; steps may be left out. */
  predicate MayFollow(before: Status, after: Status) {
    match before
    case Starting => true
    case Running => after != Starting
    case Stopping => after != Starting && after != Running
    case _ => after == before
  }

  /** Every activity stored before is stored after, no earlier in its life, and unchanged if it had ended. */
  ghost predicate StoreMovesForward(before: map<ActivityId, Record>, after: map<ActivityId, Record>) {
    forall a | a in before ::
      && a in after
      && after[a].installation == before[a].installation
      && MayFollow(before[a].status, after[a].status)
      && (before[a].status !in {Starting, Running, Stopping} ==> after[a] == before[a])
  }

  lemma {:induction false} SharedStepMovesForward(w: World, e: Event)
    requires !IsCallEvent(e) && SharedEnabled(w, e)
    ensures StoreMovesForward(w.records, SharedNext(w, e).records)
  {
  }

  lemma {:induction false} TouchingMovesForward(w: World, w': World, a: ActivityId)
    requires OnlyTouches(w, w', a) && StoredForward(Lookup(w.records, a), Lookup(w'.records, a))
    ensures StoreMovesForward(w.records, w'.records)
  {
  }

  lemma {:induction false} StepMovesForward(w: World, e: Event)
    requires Inv(w) && Enabled(w, e)
    ensures StoreMovesForward(w.records, Next(w, e).records)
  {
    hide Inv, CallEffect, CallEnabled, Install, SharedNext, SharedEnabled, StoreMovesForward, OnlyTouches,
      StoredForward;
    if IsCallEvent(e) {
      CallEventKeepsProcesses(w, e);
      CallEventMovesForward(w, e);
      TouchingMovesForward(w, Next(w, e), e.a);
    } else {
      SharedStepMovesForward(w, e);
    }
  }

  /** In any run the stored status of an activity only moves forward and a terminal status is never overwritten. */
  lemma {:induction false} StatusOnlyMovesForward(w: World, es: seq<Event>)
    requires Inv(w) && Runnable(w, es)
    ensures StoreMovesForward(w.records, Run(w, es).records)
    decreases |es|
  {
    if es != [] {
      StepMovesForward(w, es[0]);
      StepKeepsInv(w, es[0]);
      hide Inv, Next, Enabled;
      StatusOnlyMovesForward(Next(w, es[0]), es[1..]);
    }
  }

  /** In every reachable world an installation has at most one active activity. */
  lemma {:induction false} AtMostOneActivityIsActive(es: seq<Event>, a: ActivityId, b: ActivityId)
    requires Runnable(EMPTY, es)
    requires var records := Run(EMPTY, es).records;
      && a in records && b in records && records[a].installation == records[b].installation
      && records[a].status.IsActive() && records[b].status.IsActive()
    ensures a == b
  {
    EmptyWorldKeepsInv();
    RunKeepsInv(EMPTY, es);
  }

  function One(b: bool): nat {
    if b then 1 else 0
  }

  /** In how many places of a call a handle sits: its launch, its hand-over channel, its monitor. */
  function Places(c: Call, h: Handle): nat {
    One(LaunchHolds(c.launch) == Some(h)) + One(c.handover == Some(h)) + One(MonitorHolds(c.monitor) == Some(h))
  }

  lemma {:induction false} HeldInOnePlace(v: View, h: Handle)
    requires v.LaunchOk() && v.MonitorOk()
    ensures Places(v.c, h) == One(Held(v.c) == Some(h))
  {
  }

  /**
   In every reachable world a live process sits in exactly one place of exactly
   one call: its launch, the hand-over channel or its monitor.
   */
  lemma {:induction false} LiveProcessHasOneOwner(es: seq<Event>, h: Handle)
    requires Runnable(EMPTY, es)
    requires IsLive(Run(EMPTY, es), h)
    ensures var w := Run(EMPTY, es);
      && w.processes[h].activity in w.calls
      && Places(w.calls[w.processes[h].activity], h) == 1
      && forall b | b in w.calls && b != w.processes[h].activity :: Places(w.calls[b], h) == 0
  {
    EmptyWorldKeepsInv();
    RunKeepsInv(EMPTY, es);
    var w := Run(EMPTY, es);
    HeldInOnePlace(ViewOf(w, w.processes[h].activity), h);
    forall b | b in w.calls && b != w.processes[h].activity
      ensures Places(w.calls[b], h) == 0
    {
      HeldInOnePlace(ViewOf(w, b), h);
      assert OwnsHeld(w, b);
    }
  }

  predicate IsLive(w: World, h: Handle) {
    h in w.processes && w.processes[h].state.Live?
  }

  /** The events by which a call's process can be lost: terminate or wait fails on it, or the launcher restarts. */
  predicate Loses(e: Event, a: ActivityId) {
    || (e.ReapAfterFailure? && e.a == a && !e.outcome.ReapDone?)
    || (e.TryWaiting? && e.a == a && e.wait.WaitError? && !e.wait.reap.ReapDone?)
    || e.Restart?
  }

  /** A process keeps its activity, and is not abandoned. */
  predicate HasNotLost(w: World, h: Handle, a: ActivityId) {
    h in w.processes && w.processes[h].activity == a && !w.processes[h].state.Abandoned?
  }

  lemma {:induction false} EffectLosesNothing(w: World, c: Call, e: Event)
    requires IsCallEvent(e) && CallEnabled(w, c, e) && !Loses(e, e.a)
    ensures var f := CallEffect(w, e.a, c, e); f.process.Some? ==> !f.process.value.1.state.Abandoned?
  {
    hide Unregistered, HasActive, EndStatus, OwnNumber;
  }

  lemma {:induction false} CallStepLosesNothing(w: World, e: Event, h: Handle)
    requires IsCallEvent(e) && Enabled(w, e) && !Loses(e, e.a)
    requires h in w.processes && !w.processes[h].state.Abandoned?
    ensures h in Next(w, e).processes ==> !Next(w, e).processes[h].state.Abandoned?
  {
    EffectLosesNothing(w, w.calls[e.a], e);
    hide CallEffect, CallEnabled;
  }

  lemma {:induction false} SharedStepLosesNothing(w: World, e: Event, h: Handle, a: ActivityId)
    requires !IsCallEvent(e) && SharedEnabled(w, e) && HasNotLost(w, h, a) && !e.Restart?
    ensures HasNotLost(SharedNext(w, e), h, a)
  {
  }

  lemma {:induction false} StepLosesNothing(w: World, e: Event, h: Handle, a: ActivityId)
    requires Inv(w) && Enabled(w, e) && HasNotLost(w, h, a) && !Loses(e, a)
    ensures HasNotLost(Next(w, e), h, a)
  {
    if IsCallEvent(e) {
      CallEventKeepsProcesses(w, e);
      if e.a == a {
        CallStepLosesNothing(w, e, h);
      }
      hide CallEffect, CallEnabled, Install, RecordsOk, ProcessesOk, ActiveOk, RequestsOk, AtMostOneActive, CallsOk;
    } else {
      SharedStepLosesNothing(w, e, h, a);
    }
  }

  lemma {:induction false} OnlyItsProcessIsNew(w: World, a: ActivityId, f: Effect, h: Handle)
    requires a in w.calls && h !in w.processes && h in Install(w, a, f).processes
    ensures f.process.Some? && f.process.value.0 == h && Install(w, a, f).processes[h] == f.process.value.1
  {
  }

  lemma {:induction false} SharedStepKeepsActivity(w: World, e: Event, h: Handle)
    requires !IsCallEvent(e) && SharedEnabled(w, e)
    ensures h in SharedNext(w, e).processes <==> h in w.processes
    ensures h in w.processes ==> SharedNext(w, e).processes[h].activity == w.processes[h].activity
  {
  }

  /** A process that is known stays known, under its activity, and a new one is alive. */
  lemma {:induction false} StepKeepsActivity(w: World, e: Event, h: Handle)
    requires Inv(w) && Enabled(w, e)
    ensures h in w.processes ==>
              h in Next(w, e).processes && Next(w, e).processes[h].activity == w.processes[h].activity
    ensures h !in w.processes && h in Next(w, e).processes ==> Next(w, e).processes[h].state.Live?
  {
    if IsCallEvent(e) {
      CallEventKeepsProcesses(w, e);
      if h !in w.processes && h in Next(w, e).processes {
        NewProcessesLive(w, w.calls[e.a], e);
        OnlyItsProcessIsNew(w, e.a, CallEffect(w, e.a, w.calls[e.a], e), h);
      }
      hide CallEffect, CallEnabled, Install, RecordsOk, ProcessesOk, ActiveOk, RequestsOk, AtMostOneActive, CallsOk;
    } else {
      SharedStepKeepsActivity(w, e, h);
    }
  }

  lemma {:induction false} NewProcessesLive(w: World, c: Call, e: Event)
    requires IsCallEvent(e) && CallEnabled(w, c, e)
    ensures var f := CallEffect(w, e.a, c, e);
      f.process.Some? && f.process.value.0 !in w.processes ==> f.process.value.1.state.Live?
  {
    hide Unregistered, HasActive, EndStatus, OwnNumber, AfterReap;
  }

  lemma {:induction false} RunKeepsActivity(w: World, es: seq<Event>, h: Handle)
    requires Inv(w) && Runnable(w, es) && h in w.processes
    ensures h in Run(w, es).processes && Run(w, es).processes[h].activity == w.processes[h].activity
    decreases |es|
  {
    if es != [] {
      StepKeepsInv(w, es[0]);
      StepKeepsActivity(w, es[0], h);
      RunKeepsActivity(Next(w, es[0]), es[1..], h);
    }
  }

  lemma {:induction false} RunLosesNothing(w: World, es: seq<Event>, h: Handle, a: ActivityId)
    requires Inv(w) && Runnable(w, es) && (h in w.processes ==> HasNotLost(w, h, a))
    requires h in Run(w, es).processes && Run(w, es).processes[h].activity == a && forall e | e in es :: !Loses(e, a)
    ensures HasNotLost(Run(w, es), h, a)
    decreases |es|
  {
    if es != [] {
      hide Next, Enabled, Inv;
      StepKeepsInv(w, es[0]);
      if h in w.processes {
        StepLosesNothing(w, es[0], h, a);
      } else if h in Next(w, es[0]).processes {
        StepKeepsActivity(w, es[0], h);
        RunKeepsActivity(Next(w, es[0]), es[1..], h);
      }
      RunLosesNothing(Next(w, es[0]), es[1..], h, a);
    }
  }

  predicate AtRest(c: Call) {
    c.launch.Returned? && (c.monitor.NotSpawned? || c.monitor.Ended?)
  }

  /**
   No orphan: once the launch that started a process has returned and its monitor has
   ended, the process has been reaped, unless terminate or wait failed on it or the
   launcher restarted; what happens to other processes does not matter.
   */
  lemma {:induction false} NoOrphans(es: seq<Event>, h: Handle)
    requires Runnable(EMPTY, es) && h in Run(EMPTY, es).processes
    requires var w := Run(EMPTY, es); var a := w.processes[h].activity; a in w.calls ==> AtRest(w.calls[a])
    ensures var w := Run(EMPTY, es);
      w.processes[h].state == Reaped || exists e | e in es :: Loses(e, w.processes[h].activity)
  {
    EmptyWorldKeepsInv();
    RunKeepsInv(EMPTY, es);
    var w := Run(EMPTY, es);
    var a := w.processes[h].activity;
    if a in w.calls {
      assert ViewOf(w, a).LaunchOk() && ViewOf(w, a).MonitorOk();
    }
    assert !w.processes[h].state.Live?;
    if forall e | e in es :: !Loses(e, a) {
      RunLosesNothing(EMPTY, es, h, a);
    }
  }

  lemma {:induction false} CallStepKeepsAnswers(w: World, a: ActivityId, f: Effect, m: RequestMove, q: RequestId)
    requires PendingWasSent(w) && a in w.calls && RequestsMove(w, a, f, m)
    requires q in w.requests && w.requests[q].state.Settled()
    ensures q in Install(w, a, f).requests && Install(w, a, f).requests[q] == w.requests[q]
  {
    var c := w.calls[a];
    assert !Pending(c, q);
    assert c.inbox != [] ==> Pending(c, c.inbox[0]);
  }

  lemma {:induction false} SharedStepKeepsAnswers(w: World, e: Event, q: RequestId)
    requires !IsCallEvent(e) && SharedEnabled(w, e) && q in w.requests && w.requests[q].state.Settled()
    ensures q in SharedNext(w, e).requests && SharedNext(w, e).requests[q] == w.requests[q]
  {
  }

  /** A settled stop request stays settled, with the same answer. */
  lemma {:induction false} StepKeepsAnswers(w: World, e: Event, q: RequestId)
    requires Inv(w) && Enabled(w, e) && q in w.requests && w.requests[q].state.Settled()
    ensures q in Next(w, e).requests && Next(w, e).requests[q] == w.requests[q]
  {
    if IsCallEvent(e) {
      CallEventMovesRequests(w, e);
      CallStepKeepsAnswers(w, e.a, CallEffect(w, e.a, w.calls[e.a], e), MoveOf(w.calls[e.a], e), q);
      hide CallEffect, CallEnabled, Install, RequestsMove, ProcessesOk, ActiveOk, AtMostOneActive, RecordsOk;
    } else {
      SharedStepKeepsAnswers(w, e, q);
    }
  }

  /** Each stop request is answered or disconnected at most once. */
  lemma {:induction false} StopIsAnsweredOnce(w: World, es: seq<Event>, q: RequestId)
    requires Inv(w) && Runnable(w, es) && q in w.requests && w.requests[q].state.Settled()
    ensures q in Run(w, es).requests && Run(w, es).requests[q] == w.requests[q]
    decreases |es|
  {
    if es != [] {
      StepKeepsAnswers(w, es[0], q);
      StepKeepsInv(w, es[0]);
      StopIsAnsweredOnce(Next(w, es[0]), es[1..], q);
    }
  }

  /** When a monitor has ended, no request sent to it is left without an answer or a disconnection. */
  lemma {:induction false} EndedMonitorLeavesNoRequest(es: seq<Event>, q: RequestId)
    requires Runnable(EMPTY, es) && q in Run(EMPTY, es).requests
    ensures var w := Run(EMPTY, es); var r := w.requests[q];
      r.state.Sent? ==> r.activity in w.calls && !w.calls[r.activity].monitor.Ended?
  {
    EmptyWorldKeepsInv();
    RunKeepsInv(EMPTY, es);
    var w := Run(EMPTY, es);
    assert RequestOk(w, w.requests[q], q);
    if w.requests[q].state.Sent? {
      assert ViewOf(w, w.requests[q].activity).MonitorOk();
    }
  }

  /** Whether looking at an activity's process failed in a run. */
  predicate WaitingFailed(es: seq<Event>, a: ActivityId) {
    exists e | e in es :: FailsWaiting(e, a)
  }

  predicate FailsWaiting(e: Event, a: ActivityId) {
    e.TryWaiting? && e.a == a && e.wait.WaitError?
  }

  predicate Told(w: World, q: RequestId, a: ActivityId) {
    q in w.requests && w.requests[q] == Request(a, Answered(true))
  }

  /** What a stopped activity may have ended as, if waiting on it has failed, or the launcher was restarted. */
  predicate StopKept(w: World, q: RequestId, a: ActivityId, waited: bool, restarted: bool) {
    && (a in w.calls && w.calls[a].waitFailed ==> waited)
    && (Told(w, q, a) && a in w.records && !w.records[a].status.IsActive() ==>
          match w.records[a].status
          case Stopped => true
          case Failed => waited
          case Interrupted => restarted
          case _ => false)
  }

  lemma {:induction false} EffectShowsWaiting(w: World, c: Call, e: Event)
    requires IsCallEvent(e) && CallEnabled(w, c, e)
    ensures CallEffect(w, e.a, c, e).call.waitFailed ==> c.waitFailed || FailsWaiting(e, e.a)
  {
    hide Unregistered, HasActive, EndStatus, OwnNumber, AfterReap;
  }

  lemma {:induction false} StepShowsWaiting(w: World, e: Event, a: ActivityId)
    requires Enabled(w, e)
    ensures a in Next(w, e).calls && Next(w, e).calls[a].waitFailed ==>
              (a in w.calls && w.calls[a].waitFailed) || FailsWaiting(e, a)
  {
    if IsCallEvent(e) {
      EffectShowsWaiting(w, w.calls[e.a], e);
      hide CallEffect, CallEnabled;
    }
  }

  /** A stop that was answered with Ok while its call is still there. */
  lemma {:induction false} ToldEndsAsAsked(w: World, q: RequestId, a: ActivityId)
    requires Inv(w) && Told(w, q, a)
    ensures a in w.records
    ensures a in w.calls && !w.records[a].status.IsActive() ==> EndsAsAsked(w.calls[a], w.records[a].status)
    ensures a in w.calls ==> w.calls[a].stopRequested
  {
    assert RequestOk(w, w.requests[q], q);
    if a in w.calls {
      assert ViewOf(w, a).LaunchOk() && ViewOf(w, a).MonitorOk();
    }
  }

  lemma {:induction false} SharedLeavesAlone(w: World, e: Event, q: RequestId, a: ActivityId)
    requires !IsCallEvent(e) && SharedEnabled(w, e) && !e.Restart? && a !in SharedNext(w, e).calls
    ensures a in SharedNext(w, e).records ==> a in w.records && w.records[a] == SharedNext(w, e).records[a]
    ensures Told(SharedNext(w, e), q, a) ==> Told(w, q, a)
  {
  }

  /** Without a call of its own, a recorded activity is left as it is, and nobody is told anything of it. */
  lemma {:induction false} GoneIsLeftAlone(w: World, e: Event, q: RequestId, a: ActivityId)
    requires Inv(w) && Enabled(w, e) && a in Next(w, e).records && a !in Next(w, e).calls && !e.Restart?
    requires Told(Next(w, e), q, a)
    ensures a in w.records && w.records[a] == Next(w, e).records[a] && Told(w, q, a)
  {
    if IsCallEvent(e) {
      CallEventKeepsProcesses(w, e);
      CallEventMovesRequests(w, e);
      OthersAreNotAnswered(w, e.a, CallEffect(w, e.a, w.calls[e.a], e), MoveOf(w.calls[e.a], e), q, a);
      hide CallEffect, CallEnabled, Install, RequestsMove, ProcessesOk, ActiveOk, AtMostOneActive, CallsOk;
    } else {
      SharedLeavesAlone(w, e, q, a);
    }
  }

  lemma {:induction false} OthersAreNotAnswered(w: World, a: ActivityId, f: Effect, m: RequestMove, q: RequestId,
        b: ActivityId)
    requires PendingWasSent(w) && a in w.calls && b != a && RequestsMove(w, a, f, m) && Told(Install(w, a, f), q, b)
    ensures Told(w, q, b)
  {
    var c := w.calls[a];
    assert c.inbox != [] ==> Pending(c, c.inbox[0]);
    assert InHand(c).Some? ==> Pending(c, InHand(c).value);
  }

  lemma {:induction false} StepKeepsStop(w: World, e: Event, q: RequestId, a: ActivityId, waited: bool, restarted: bool)
    requires Inv(w) && Enabled(w, e) && StopKept(w, q, a, waited, restarted)
    ensures StopKept(Next(w, e), q, a, waited || FailsWaiting(e, a), restarted || e.Restart?)
  {
    hide Next, Enabled, Inv, FailsWaiting;
    StepShowsWaiting(w, e, a);
    if Told(Next(w, e), q, a) {
      StepKeepsInv(w, e);
      ToldEndsAsAsked(Next(w, e), q, a);
      if a !in Next(w, e).calls {
        if e.Restart? {
          RestartTellsNobody(w, q, a);
          ToldEndsAsAsked(w, q, a);
          RestartInterrupts(w, a);
        } else {
          GoneIsLeftAlone(w, e, q, a);
        }
      }
    }
  }

  lemma {:induction false} RestartTellsNobody(w: World, q: RequestId, a: ActivityId)
    requires Told(Next(w, Restart), q, a)
    ensures Told(w, q, a)
  {
  }

  lemma {:induction false} RestartInterrupts(w: World, a: ActivityId)
    requires a in w.records
    ensures a in Next(w, Restart).records
    ensures Next(w, Restart).records[a].status == if w.records[a].status.IsActive() then Interrupted
          else w.records[a].status
  {
  }

  lemma {:induction false} RunKeepsStop(w: World, es: seq<Event>, q: RequestId, a: ActivityId, waited: bool,
        restarted: bool)
    requires Inv(w) && Runnable(w, es) && StopKept(w, q, a, waited, restarted)
    ensures StopKept(Run(w, es), q, a, waited || WaitingFailed(es, a), restarted || Restart in es)
    decreases |es|
  {
    if es != [] {
      hide Next, Enabled, Inv, StopKept, FailsWaiting;
      StepKeepsInv(w, es[0]);
      StepKeepsStop(w, es[0], q, a, waited, restarted);
      RunKeepsStop(Next(w, es[0]), es[1..], q, a, waited || FailsWaiting(es[0], a), restarted || es[0].Restart?);
      assert es == [es[0]] + es[1..];
      assert WaitingFailed(es, a) <==> FailsWaiting(es[0], a) || WaitingFailed(es[1..], a);
    }
  }

  /**
   A stop answered with Ok is recorded as Stopped when the activity ends, unless looking
   at the process failed, which is recorded as Failed, or the launcher was restarted
   before the end was seen, which is recorded as Interrupted.
   */
  lemma {:induction false} OkStopEndsStopped(es: seq<Event>, q: RequestId)
    requires Runnable(EMPTY, es) && q in Run(EMPTY, es).requests && Run(EMPTY, es).requests[q].state == Answered(true)
    ensures var w := Run(EMPTY, es); var a := w.requests[q].activity;
      a in w.records
      && match w.records[a].status
         case Starting | Running | Stopping | Stopped => true
         case Failed => WaitingFailed(es, a)
         case Interrupted => Restart in es
         case Exited => false
  {
    var a := Run(EMPTY, es).requests[q].activity;
    EmptyWorldKeepsInv();
    RunKeepsInv(EMPTY, es);
    ToldEndsAsAsked(Run(EMPTY, es), q, a);
    RunKeepsStop(EMPTY, es, q, a, false, false);
  }

  // The active map.

  function FailedEndSaves(es: seq<Event>, a: ActivityId): nat {
    if es == [] then 0
    else (if es[0] == PersistEnd(a, false) then 1 else 0) + FailedEndSaves(es[1..], a)
  }

  /** The monitor's own count of failed saves of an activity's end. */
  function FailuresOf(c: Call): nat {
    if c.gaveUp then 3 else if c.monitor.Persist? && c.monitor.attempt > 0 then c.monitor.attempt - 1 else 0
  }

  predicate FailsEndSave(e: Event, a: ActivityId) {
    e == SaveExecutionFailed(a, false) || e == SaveFailedStatus(a, false)
  }

  predicate LaunchEndUnsaved(es: seq<Event>, a: ActivityId) {
    exists e | e in es :: FailsEndSave(e, a)
  }

  /** The last save of an activity's end failed: three times in its monitor, or once in its launch. */
  predicate EndSaveFailed(es: seq<Event>, a: ActivityId) {
    FailedEndSaves(es, a) >= 3 || LaunchEndUnsaved(es, a)
  }

  lemma {:induction false} UnsavedInOneMore(es: seq<Event>, a: ActivityId)
    requires es != []
    ensures LaunchEndUnsaved(es, a) <==> FailsEndSave(es[0], a) || LaunchEndUnsaved(es[1..], a)
  {
    hide FailsEndSave;
    assert es == [es[0]] + es[1..];
  }

  /** How an activity's call knows of the `n` saves that failed in its monitor, and whether one failed in its launch. */
  predicate EndsSeen(w: World, a: ActivityId, n: nat, failed: bool) {
    && (a !in w.records ==> n == 0 && !failed)
    && (a in w.records && w.records[a].status.IsActive() ==>
          a in w.calls && n == FailuresOf(w.calls[a]) && (failed <==> w.calls[a].launch == Returned(false)))
    && (a in w.calls && w.calls[a].gaveUp ==> n >= 3)
  }

  function SeenWith(n: nat, e: Event, a: ActivityId): nat {
    n + if e == PersistEnd(a, false) then 1 else 0
  }

  lemma {:induction false} StartSeesEnds(w: World, e: Event, n: nat, failed: bool)
    requires e.BeginActivity? || e.ExecutePlan? || e.SaveExecutionFailed? || e.SaveRunningStatus?
    requires Enabled(w, e) && EndsSeen(w, e.a, n, failed)
    requires ViewOf(w, e.a).LaunchOk() && ViewOf(w, e.a).MonitorOk()
    ensures EndsSeen(Next(w, e), e.a, SeenWith(n, e, e.a), failed || FailsEndSave(e, e.a))
  {
    hide HasActive, AfterReap, Unregistered, Disconnect, Answer, EndStatus;
  }

  lemma {:induction false} SupervisionSeesEnds(w: World, e: Event, n: nat, failed: bool)
    requires e.ReapAfterFailure? || e.SaveFailedStatus? || e.SpawnMonitor? || e.RegisterActive?
    requires Enabled(w, e) && EndsSeen(w, e.a, n, failed)
    requires ViewOf(w, e.a).LaunchOk() && ViewOf(w, e.a).MonitorOk()
    ensures EndsSeen(Next(w, e), e.a, SeenWith(n, e, e.a), failed || FailsEndSave(e, e.a))
  {
    hide HasActive, AfterReap, Unregistered, Disconnect, Answer, EndStatus;
  }

  lemma {:induction false} HandingOverSeesEnds(w: World, e: Event, n: nat, failed: bool)
    requires e.SendProcess? || e.ReceiveProcess? || e.SendFails? || e.MonitorGone?
    requires Enabled(w, e) && EndsSeen(w, e.a, n, failed)
    requires ViewOf(w, e.a).LaunchOk() && ViewOf(w, e.a).MonitorOk()
    ensures EndsSeen(Next(w, e), e.a, SeenWith(n, e, e.a), failed || FailsEndSave(e, e.a))
  {
    hide HasActive, AfterReap, Unregistered, Disconnect, Answer, EndStatus;
  }

  lemma {:induction false} WatchingSeesEnds(w: World, e: Event, n: nat, failed: bool)
    requires e.PollCommands? || e.SaveStopping? || e.TryWaiting?
    requires Enabled(w, e) && EndsSeen(w, e.a, n, failed)
    requires ViewOf(w, e.a).LaunchOk() && ViewOf(w, e.a).MonitorOk()
    ensures EndsSeen(Next(w, e), e.a, SeenWith(n, e, e.a), failed || FailsEndSave(e, e.a))
  {
    hide HasActive, AfterReap, Unregistered, Disconnect, Answer, EndStatus;
  }

  lemma {:induction false} EndingSeesEnds(w: World, e: Event, n: nat, failed: bool)
    requires e.PersistEnd? || e.RemoveActive?
    requires Enabled(w, e) && EndsSeen(w, e.a, n, failed)
    requires ViewOf(w, e.a).LaunchOk() && ViewOf(w, e.a).MonitorOk()
    ensures EndsSeen(Next(w, e), e.a, SeenWith(n, e, e.a), failed || FailsEndSave(e, e.a))
  {
    hide HasActive, AfterReap, Unregistered, Disconnect, Answer, EndStatus;
  }

  lemma {:induction false} OthersSeeEnds(w: World, w': World, b: ActivityId, a: ActivityId, n: nat, failed: bool)
    requires OnlyTouches(w, w', b) && a != b && EndsSeen(w, a, n, failed)
    ensures EndsSeen(w', a, n, failed)
  {
  }

  lemma {:induction false} SharedStepSeesEnds(w: World, e: Event, a: ActivityId, n: nat, failed: bool)
    requires !IsCallEvent(e) && SharedEnabled(w, e) && EndsSeen(w, a, n, failed)
    ensures EndsSeen(SharedNext(w, e), a, n, failed)
  {
  }

  lemma {:induction false} OwnStepSeesEnds(w: World, e: Event, n: nat, failed: bool)
    requires IsCallEvent(e) && Enabled(w, e) && EndsSeen(w, e.a, n, failed)
    requires ViewOf(w, e.a).LaunchOk() && ViewOf(w, e.a).MonitorOk()
    ensures EndsSeen(Next(w, e), e.a, SeenWith(n, e, e.a), failed || FailsEndSave(e, e.a))
  {
    hide Next, EndsSeen, CallEnabled, FailsEndSave, SeenWith;
    if e.BeginActivity? || e.ExecutePlan? || e.SaveExecutionFailed? || e.SaveRunningStatus? {
      StartSeesEnds(w, e, n, failed);
    } else if IsEarly(e) {
      SupervisionSeesEnds(w, e, n, failed);
    } else if e.SendProcess? || e.ReceiveProcess? || e.SendFails? || e.MonitorGone? {
      HandingOverSeesEnds(w, e, n, failed);
    } else if e.PollCommands? || e.SaveStopping? || e.TryWaiting? {
      WatchingSeesEnds(w, e, n, failed);
    } else {
      EndingSeesEnds(w, e, n, failed);
    }
  }

  lemma {:induction false} StepSeesEnds(w: World, e: Event, a: ActivityId, n: nat, failed: bool)
    requires Inv(w) && Enabled(w, e) && EndsSeen(w, a, n, failed)
    ensures EndsSeen(Next(w, e), a, SeenWith(n, e, a), failed || FailsEndSave(e, a))
  {
    hide RecordsOk, ProcessesOk, ActiveOk, AtMostOneActive, RequestsOk, CallEnabled, CallEffect, EndsSeen, FailsEndSave;
    if !IsCallEvent(e) {
      SharedStepSeesEnds(w, e, a, n, failed);
      NoEndSave(e, a, n);
    } else if e.a != a {
      CallEventKeepsProcesses(w, e);
      OthersSeeEnds(w, Next(w, e), e.a, a, n, failed);
      NoEndSave(e, a, n);
    } else {
      assert ViewOf(w, a).LaunchOk() && ViewOf(w, a).MonitorOk();
      OwnStepSeesEnds(w, e, n, failed);
    }
  }

  lemma {:induction false} NoEndSave(e: Event, a: ActivityId, n: nat)
    requires !IsCallEvent(e) || e.a != a
    ensures SeenWith(n, e, a) == n && !FailsEndSave(e, a)
  {
  }

  lemma {:induction false} NoneUnsaved(a: ActivityId)
    ensures !LaunchEndUnsaved([], a)
  {
  }

  lemma {:induction false} RunSeesEnds(w: World, es: seq<Event>, a: ActivityId, n: nat, failed: bool)
    requires Inv(w) && Runnable(w, es) && EndsSeen(w, a, n, failed)
    ensures EndsSeen(Run(w, es), a, n + FailedEndSaves(es, a), failed || LaunchEndUnsaved(es, a))
    decreases |es|
  {
    hide Next, Enabled, Inv, EndsSeen, FailsEndSave, LaunchEndUnsaved;
    if es == [] {
      NoneUnsaved(a);
    } else {
      StepKeepsInv(w, es[0]);
      StepSeesEnds(w, es[0], a, n, failed);
      RunSeesEnds(Next(w, es[0]), es[1..], a, SeenWith(n, es[0], a), failed || FailsEndSave(es[0], a));
      UnsavedInOneMore(es, a);
    }
  }

  lemma {:induction false} NothingSeen(a: ActivityId)
    ensures EndsSeen(EMPTY, a, 0, false)
  {
  }

  /**
   Whatever a launch returned, an activity recorded as active can be stopped: it is in
   the active map with its own process number, exactly unless its last save as ended
   failed. Then its process is not alive, and it is gone from the map once its monitor
   has removed it, unless the lock was poisoned.
   */
  lemma {:induction false} ActiveActivityIsRegisteredIff(es: seq<Event>, a: ActivityId)
    requires Runnable(EMPTY, es)
    requires var w := Run(EMPTY, es);
      a in w.calls && w.calls[a].launch.Returned? && a in w.records && w.records[a].status.IsActive()
    ensures var w := Run(EMPTY, es);
      && (!EndSaveFailed(es, a) ==>
            && Held(w.calls[a]).Some? && Held(w.calls[a]).value in w.processes
            && a in w.active && w.active[a] == w.processes[Held(w.calls[a]).value].id)
      && (EndSaveFailed(es, a) ==>
            && (forall h | h in w.processes && w.processes[h].activity == a :: !w.processes[h].state.Live?)
            && (a !in w.active || w.poisoned || w.calls[a].monitor.Remove?))
  {
    EmptyWorldKeepsInv();
    RunKeepsInv(EMPTY, es);
    NothingSeen(a);
    RunSeesEnds(EMPTY, es, a, 0, false);
    hide Inv, EndsSeen, Run, Runnable, Held, FailedEndSaves, LaunchEndUnsaved;
    ActiveMeansEndUnsaved(Run(EMPTY, es), a, FailedEndSaves(es, a), LaunchEndUnsaved(es, a));
  }

  lemma {:induction false} ActiveMeansEndUnsaved(w: World, a: ActivityId, n: nat, failed: bool)
    requires Inv(w) && EndsSeen(w, a, n, failed)
    requires a in w.calls && w.calls[a].launch.Returned? && a in w.records && w.records[a].status.IsActive()
    ensures n < 3 && !failed ==>
              && Held(w.calls[a]).Some? && Held(w.calls[a]).value in w.processes
              && a in w.active && w.active[a] == w.processes[Held(w.calls[a]).value].id
    ensures n >= 3 || failed ==>
              && (forall h | h in w.processes && w.processes[h].activity == a :: !w.processes[h].state.Live?)
              && (a !in w.active || w.poisoned || w.calls[a].monitor.Remove?)
  {
    assert ViewOf(w, a).LaunchOk() && ViewOf(w, a).MonitorOk();
  }

  /** Nothing stale stays registered: an entry of the active map has a hand-over under way or a live monitor. */
  lemma {:induction false} RegisteredActivityIsSupervised(es: seq<Event>, a: ActivityId)
    requires Runnable(EMPTY, es) && a in Run(EMPTY, es).active
    ensures a in Run(EMPTY, es).calls && (Run(EMPTY, es).poisoned || Listening(Run(EMPTY, es).calls[a]))
  {
    EmptyWorldKeepsInv();
    RunKeepsInv(EMPTY, es);
  }

  /** A monitor gives up on recording an end only after three saves of it failed. */
  lemma {:induction false} GivesUpAfterThreeFailures(es: seq<Event>, a: ActivityId)
    requires Runnable(EMPTY, es) && a in Run(EMPTY, es).calls && Run(EMPTY, es).calls[a].gaveUp
    ensures FailedEndSaves(es, a) >= 3
  {
    EmptyWorldKeepsInv();
    NothingSeen(a);
    RunSeesEnds(EMPTY, es, a, 0, false);
    hide Inv, Run, Runnable, FailedEndSaves, LaunchEndUnsaved, FailuresOf;
  }
}
