/** How launches and activities end, told by the events that made them end so. */
module LaunchOutcomes {
  import opened Wrappers
  import opened LaunchSupervisor
  import opened LaunchSafety
  import opened LaunchTheorems
  import opened LaunchProgress

  // Launches.

  /** Something goes wrong in a launch of an activity. */
  predicate FailsLaunch(w: World, e: Event, a: ActivityId) {
    match e
    case Refuse(b, _, _) => b == a
    case BeginActivity(b, saved) =>
      b == a && a in w.calls && (!saved || exists c | c in w.records ::
        w.records[c].installation == w.calls[a].installation && w.records[c].status.IsActive())
    case ExecutePlan(b, started) => b == a && started.None?
    case SaveRunningStatus(b, saved) => b == a && !saved
    case SpawnMonitor(b, ok) => b == a && !ok
    case RegisterActive(b) => b == a && w.poisoned
    case SendFails(b) => b == a
    case _ => false
  }

  /** It did in a run, and the launcher was not restarted since. */
  ghost predicate FailedIn(w: World, es: seq<Event>, a: ActivityId)
    requires Runnable(w, es)
    decreases |es|
  {
    es != [] && ((FailsLaunch(w, es[0], a) && Restart !in es[1..]) || FailedIn(Next(w, es[0]), es[1..], a))
  }

  predicate IsFailing(l: LaunchPc) {
    l.SaveExecutionFailure? || l.Reap? || l.SaveFailure? || l == Returned(false)
  }

  lemma {:induction false} BeginningFailsIff(w: World, c: Call, e: Event)
    requires e.BeginActivity? && CallEnabled(w, c, e) && e.a in w.calls && w.calls[e.a] == c
    ensures IsFailing(CallEffect(w, e.a, c, e).call.launch) <==> IsFailing(c.launch) || FailsLaunch(w, e, e.a)
  {
  }

  lemma {:induction false} MonitorFailsNoLaunch(w: World, c: Call, e: Event)
    requires e.MonitorGone? || e.PollCommands? || e.SaveStopping? || e.TryWaiting? || e.PersistEnd? || e.RemoveActive?
    requires CallEnabled(w, c, e)
    ensures CallEffect(w, e.a, c, e).call.launch == c.launch && !FailsLaunch(w, e, e.a)
  {
    hide Unregistered, EndStatus, OwnNumber, AfterReap, HasActive;
  }

  lemma {:induction false} EffectFailsIff(w: World, c: Call, e: Event)
    requires IsCallEvent(e) && CallEnabled(w, c, e) && e.a in w.calls && w.calls[e.a] == c
    ensures IsFailing(CallEffect(w, e.a, c, e).call.launch) <==> IsFailing(c.launch) || FailsLaunch(w, e, e.a)
  {
    if e.BeginActivity? {
      BeginningFailsIff(w, c, e);
    } else if e.MonitorGone? || e.PollCommands? || e.SaveStopping? || e.TryWaiting? || e.PersistEnd?
      || e.RemoveActive? {
      MonitorFailsNoLaunch(w, c, e);
    } else {
      hide Unregistered, EndStatus, OwnNumber, AfterReap, HasActive;
    }
  }

  lemma {:induction false} CallEventFailsIff(w: World, e: Event)
    requires IsCallEvent(e) && Enabled(w, e)
    ensures e.a in Next(w, e).calls
    ensures IsFailing(Next(w, e).calls[e.a].launch) <==> IsFailing(w.calls[e.a].launch) || FailsLaunch(w, e, e.a)
  {
    EffectFailsIff(w, w.calls[e.a], e);
    hide CallEffect, CallEnabled, FailsLaunch, IsFailing, Disconnect, Answer;
  }

  lemma {:induction false} OthersDoNotFail(w: World, e: Event, a: ActivityId)
    requires Enabled(w, e) && (IsCallEvent(e) ==> e.a != a)
    ensures a in Next(w, e).calls ==>
              (IsFailing(Next(w, e).calls[a].launch) <==>
                (a in w.calls && IsFailing(w.calls[a].launch)) || FailsLaunch(w, e, a))
    ensures e.Restart? ==> a !in Next(w, e).calls
    ensures a in w.calls && !e.Restart? ==> a in Next(w, e).calls
    ensures a !in w.calls && a in Next(w, e).calls ==> e.Refuse? || e.StartCall?
  {
    hide CallEffect, CallEnabled, Disconnect, Answer;
  }

  /** What is known of a launch: it is on its way to fail exactly if something went wrong. */
  predicate LaunchTold(w: World, a: ActivityId, failed: bool) {
    if a in w.calls then IsFailing(w.calls[a].launch) <==> failed else !failed
  }

  lemma {:induction false} StepTellsLaunch(w: World, e: Event, a: ActivityId, failed: bool)
    requires Enabled(w, e) && LaunchTold(w, a, failed)
    ensures LaunchTold(Next(w, e), a, !e.Restart? && (failed || FailsLaunch(w, e, a)))
  {
    hide Next, Enabled;
    if IsCallEvent(e) && e.a == a {
      CallIsThere(w, e);
      CallEventFailsIff(w, e);
    } else {
      OthersDoNotFail(w, e, a);
      if a !in Next(w, e).calls && !e.Restart? {
        AbsentDoNotFail(w, e, a);
      }
    }
  }

  lemma {:induction false} CallIsThere(w: World, e: Event)
    requires Enabled(w, e) && IsCallEvent(e)
    ensures e.a in w.calls
  {
  }

  lemma {:induction false} AbsentDoNotFail(w: World, e: Event, a: ActivityId)
    requires Enabled(w, e) && a !in Next(w, e).calls && !e.Restart? && (IsCallEvent(e) ==> e.a != a)
    ensures !FailsLaunch(w, e, a) && a !in w.calls
  {
    hide CallEffect, CallEnabled, Disconnect, Answer;
  }

  lemma {:induction false} RunTellsLaunch(w: World, es: seq<Event>, a: ActivityId, failed: bool)
    requires Runnable(w, es) && LaunchTold(w, a, failed)
    ensures LaunchTold(Run(w, es), a, (failed && Restart !in es) || FailedIn(w, es, a))
    decreases |es|
  {
    hide Next, Enabled, LaunchTold;
    if es != [] {
      StepTellsLaunch(w, es[0], a, failed);
      RunTellsLaunch(Next(w, es[0]), es[1..], a, !es[0].Restart? && (failed || FailsLaunch(w, es[0], a)));
      assert es == [es[0]] + es[1..];
      hide FailsLaunch;
    }
  }

  /**
   Over whole runs: a launch that has returned was successful exactly if nothing went
   wrong in it: its plan was built, no other activity of the installation was active,
   its saves up to Running went through, it started, it got its monitor, the lock was
   sound, and the monitor was there to take the process.
   */
  lemma {:induction false} LaunchSucceedsIff(w: World, es: seq<Event>, a: ActivityId)
    requires Runnable(w, es) && a !in w.calls && a in Run(w, es).calls && Run(w, es).calls[a].launch.Returned?
    ensures Run(w, es).calls[a].launch.ok <==> !FailedIn(w, es, a)
  {
    RunTellsLaunch(w, es, a, false);
    hide FailedIn, Run, Runnable;
  }

  // Ends.

  /** A process was seen to exit with a code. */
  predicate SeesExit(e: Event, a: ActivityId, code: Option<int>) {
    e == TryWaiting(a, Exit(code))
  }

  /** A stop was carried out: a request was waiting and the process could be terminated. */
  predicate CarriesOutStop(w: World, e: Event, a: ActivityId) {
    e == PollCommands(a, true) && a in w.calls && w.calls[a].inbox != []
  }

  /** Looking at the process failed, or the launch failed and that was saved. */
  predicate ShowsFailure(e: Event, a: ActivityId) {
    FailsWaiting(e, a) || e == SaveExecutionFailed(a, true) || e == SaveFailedStatus(a, true)
    || (e.Refuse? && e.a == a && e.saved)
  }

  /** What a run has shown of an activity: the exit codes seen, and whether it was stopped, failed or interrupted. */
  datatype Shown = Shown(codes: set<Option<int>>, stopped: bool, failed: bool, restarted: bool)

  const NOTHING := Shown({}, false, false, false)

  function ShownBy(w: World, s: Shown, e: Event, a: ActivityId): Shown {
    Shown(
      if e.TryWaiting? && e.a == a && e.wait.Exit? then s.codes + {e.wait.code} else s.codes,
      s.stopped || CarriesOutStop(w, e, a), s.failed || ShowsFailure(e, a), s.restarted || e.Restart?)
  }

  ghost function ShownIn(w: World, s: Shown, es: seq<Event>, a: ActivityId): Shown
    requires Runnable(w, es)
    decreases |es|
  {
    if es == [] then s else ShownIn(Next(w, es[0]), ShownBy(w, s, es[0], a), es[1..], a)
  }

  /** An end that goes with what was shown. */
  predicate Fits(end: Status, s: Shown) {
    match end
    case Exited => s.codes == {Some(0)} && !s.stopped
    case Stopped => s.codes != {} && s.stopped
    case Failed => s.failed || (s.codes != {} && Some(0) !in s.codes && !s.stopped)
    case Interrupted => s.restarted
    case _ => true
  }

  predicate EndTold(w: World, a: ActivityId, s: Shown) {
    && (a !in w.records ==> s.codes == {} && !s.stopped && !s.failed)
    && (a in w.records ==> Fits(w.records[a].status, s))
    && (a in w.calls ==>
          && (w.calls[a].stopRequested <==> s.stopped)
          && (w.calls[a].monitor.Persist? ==> Fits(w.calls[a].monitor.end, s))
          && (!IsOver(w.calls[a].monitor) ==> s.codes == {}))
  }

  /** The monitor has seen its process end, or never got it. */
  predicate IsOver(m: MonitorPc) {
    m.Persist? || m.Remove? || m.Ended?
  }

  lemma {:induction false} StartTellsEnd(w: World, e: Event, s: Shown)
    requires e.BeginActivity? || e.ExecutePlan? || e.SaveExecutionFailed? || e.SaveRunningStatus?
    requires Enabled(w, e) && EndTold(w, e.a, s) && ViewOf(w, e.a).LaunchOk() && ViewOf(w, e.a).MonitorOk()
    ensures EndTold(Next(w, e), e.a, ShownBy(w, s, e, e.a))
  {
    hide HasActive, AfterReap, Unregistered, Disconnect, Answer, EndStatus;
  }

  lemma {:induction false} FailingTellsEnd(w: World, e: Event, s: Shown)
    requires e.ReapAfterFailure? || e.SaveFailedStatus?
    requires Enabled(w, e) && EndTold(w, e.a, s) && ViewOf(w, e.a).LaunchOk() && ViewOf(w, e.a).MonitorOk()
    ensures EndTold(Next(w, e), e.a, ShownBy(w, s, e, e.a))
  {
    hide HasActive, AfterReap, Unregistered, Disconnect, Answer, EndStatus;
  }

  lemma {:induction false} SupervisionTellsEnd(w: World, e: Event, s: Shown)
    requires e.SpawnMonitor? || e.RegisterActive?
    requires Enabled(w, e) && EndTold(w, e.a, s) && ViewOf(w, e.a).LaunchOk() && ViewOf(w, e.a).MonitorOk()
    ensures EndTold(Next(w, e), e.a, ShownBy(w, s, e, e.a))
  {
    hide HasActive, AfterReap, Unregistered, Disconnect, Answer, EndStatus;
  }

  lemma {:induction false} HandingOverTellsEnd(w: World, e: Event, s: Shown)
    requires e.SendProcess? || e.ReceiveProcess? || e.SendFails? || e.MonitorGone?
    requires Enabled(w, e) && EndTold(w, e.a, s) && ViewOf(w, e.a).LaunchOk() && ViewOf(w, e.a).MonitorOk()
    ensures EndTold(Next(w, e), e.a, ShownBy(w, s, e, e.a))
  {
    hide HasActive, AfterReap, Unregistered, Disconnect, Answer, EndStatus;
  }

  lemma {:induction false} StoppingTellsEnd(w: World, e: Event, s: Shown)
    requires e.PollCommands? || e.SaveStopping?
    requires Enabled(w, e) && EndTold(w, e.a, s) && ViewOf(w, e.a).LaunchOk() && ViewOf(w, e.a).MonitorOk()
    ensures EndTold(Next(w, e), e.a, ShownBy(w, s, e, e.a))
  {
    hide HasActive, AfterReap, Unregistered, Disconnect, Answer, EndStatus;
  }

  lemma {:induction false} WaitingTellsEnd(w: World, e: Event, s: Shown)
    requires e.TryWaiting?
    requires Enabled(w, e) && EndTold(w, e.a, s) && ViewOf(w, e.a).LaunchOk() && ViewOf(w, e.a).MonitorOk()
    ensures EndTold(Next(w, e), e.a, ShownBy(w, s, e, e.a))
  {
    hide HasActive, AfterReap, Unregistered, Disconnect, Answer;
  }

  lemma {:induction false} EndingTellsEnd(w: World, e: Event, s: Shown)
    requires e.PersistEnd? || e.RemoveActive?
    requires Enabled(w, e) && EndTold(w, e.a, s) && ViewOf(w, e.a).LaunchOk() && ViewOf(w, e.a).MonitorOk()
    ensures EndTold(Next(w, e), e.a, ShownBy(w, s, e, e.a))
  {
    hide HasActive, AfterReap, Unregistered, Disconnect, Answer, EndStatus;
  }

  lemma {:induction false} OthersTellEnd(w: World, w': World, b: ActivityId, a: ActivityId, s: Shown)
    requires OnlyTouches(w, w', b) && a != b && EndTold(w, a, s)
    ensures EndTold(w', a, s)
  {
  }

  lemma {:induction false} SharedStepTellsEnd(w: World, e: Event, a: ActivityId, s: Shown)
    requires !IsCallEvent(e) && SharedEnabled(w, e) && EndTold(w, a, s)
    ensures EndTold(SharedNext(w, e), a, ShownBy(w, s, e, a))
  {
  }

  lemma {:induction false} OwnStepTellsEnd(w: World, e: Event, s: Shown)
    requires IsCallEvent(e) && Enabled(w, e) && EndTold(w, e.a, s)
    requires ViewOf(w, e.a).LaunchOk() && ViewOf(w, e.a).MonitorOk()
    ensures EndTold(Next(w, e), e.a, ShownBy(w, s, e, e.a))
  {
    hide Next, EndTold, CallEnabled, ShownBy;
    if e.BeginActivity? || e.ExecutePlan? || e.SaveExecutionFailed? || e.SaveRunningStatus? {
      StartTellsEnd(w, e, s);
    } else if e.ReapAfterFailure? || e.SaveFailedStatus? {
      FailingTellsEnd(w, e, s);
    } else if e.SpawnMonitor? || e.RegisterActive? {
      SupervisionTellsEnd(w, e, s);
    } else if e.SendProcess? || e.ReceiveProcess? || e.SendFails? || e.MonitorGone? {
      HandingOverTellsEnd(w, e, s);
    } else if e.PollCommands? || e.SaveStopping? {
      StoppingTellsEnd(w, e, s);
    } else if e.TryWaiting? {
      WaitingTellsEnd(w, e, s);
    } else {
      EndingTellsEnd(w, e, s);
    }
  }

  lemma {:induction false} OthersShowNothing(w: World, s: Shown, e: Event, a: ActivityId)
    requires IsCallEvent(e) && e.a != a
    ensures ShownBy(w, s, e, a) == s
  {
  }

  lemma {:induction false} StepTellsEnd(w: World, e: Event, a: ActivityId, s: Shown)
    requires Inv(w) && Enabled(w, e) && EndTold(w, a, s)
    ensures EndTold(Next(w, e), a, ShownBy(w, s, e, a))
  {
    hide RecordsOk, ProcessesOk, ActiveOk, AtMostOneActive, RequestsOk, CallEnabled, CallEffect, EndTold, ShownBy;
    if !IsCallEvent(e) {
      SharedStepTellsEnd(w, e, a, s);
    } else if e.a != a {
      CallEventKeepsProcesses(w, e);
      OthersTellEnd(w, Next(w, e), e.a, a, s);
      OthersShowNothing(w, s, e, a);
    } else {
      assert ViewOf(w, a).LaunchOk() && ViewOf(w, a).MonitorOk();
      OwnStepTellsEnd(w, e, s);
    }
  }

  lemma {:induction false} RunTellsEnd(w: World, es: seq<Event>, a: ActivityId, s: Shown)
    requires Inv(w) && Runnable(w, es) && EndTold(w, a, s)
    ensures EndTold(Run(w, es), a, ShownIn(w, s, es, a))
    decreases |es|
  {
    hide Next, Enabled, Inv, EndTold, ShownBy;
    if es != [] {
      StepKeepsInv(w, es[0]);
      StepTellsEnd(w, es[0], a, s);
      RunTellsEnd(Next(w, es[0]), es[1..], a, ShownBy(w, s, es[0], a));
    }
  }

  /**
   Over whole runs: an activity recorded as exited was seen to exit with code 0 and was
   not stopped; one recorded as stopped was stopped and seen to exit; a failed one was
   seen to exit with another code, or without one, and was not stopped, unless looking
   at its process or its launch failed; and an interrupted one saw a restart.
   */
  lemma {:induction false} EndIsRecorded(es: seq<Event>, a: ActivityId)
    requires Runnable(EMPTY, es) && a in Run(EMPTY, es).records
    ensures Fits(Run(EMPTY, es).records[a].status, ShownIn(EMPTY, NOTHING, es, a))
  {
    EmptyWorldKeepsInv();
    RunTellsEnd(EMPTY, es, a, NOTHING);
    hide Run, Runnable, ShownIn;
  }

  // Registrations.

  /** An event that takes an activity out of the active map, the lock being sound. */
  predicate Removes(e: Event, a: ActivityId) {
    e == RemoveActive(a) || e == SendFails(a)
  }

  lemma {:induction false} CallRegistersIff(w: World, e: Event)
    requires IsCallEvent(e) && Enabled(w, e) && ViewOf(w, e.a).LaunchOk() && ViewOf(w, e.a).MonitorOk()
    ensures var f := CallEffect(w, e.a, w.calls[e.a], e);
      f.registration.Some? <==> if e.RegisterActive? then !w.poisoned || e.a in w.active
        else e.a in w.active && (w.poisoned || !Removes(e, e.a))
  {
    hide AfterReap, HasActive, EndStatus, OwnNumber;
  }

  lemma {:induction false} CallEventRegisters(w: World, e: Event, a: ActivityId)
    requires IsCallEvent(e) && Enabled(w, e)
    ensures a in Next(w, e).active <==>
              if a == e.a then CallEffect(w, e.a, w.calls[e.a], e).registration.Some? else a in w.active
  {
    hide CallEffect, CallEnabled, Disconnect, Answer;
  }

  lemma {:induction false} SharedEventRegisters(w: World, e: Event, a: ActivityId)
    requires !IsCallEvent(e) && Enabled(w, e)
    ensures a in Next(w, e).active <==> a in w.active && !e.Restart?
  {
    hide CallEffect, CallEnabled, Interrupt;
  }

  lemma {:induction false} CallIsOk(w: World, a: ActivityId)
    requires Inv(w) && a in w.calls
    ensures ViewOf(w, a).LaunchOk() && ViewOf(w, a).MonitorOk()
  {
    hide View.LaunchOk, View.MonitorOk, ViewOf;
  }

  /**
   The active map changes only so: a launch registers its activity unless the lock is
   poisoned, its removal takes it out unless the lock is, and a restart takes all out.
   */
  lemma {:induction false} RegistrationFollows(w: World, e: Event, a: ActivityId)
    requires Inv(w) && Enabled(w, e)
    ensures a in Next(w, e).active <==>
              !e.Restart? && if w.poisoned then a in w.active
                else e == RegisterActive(a) || (a in w.active && !Removes(e, a))
  {
    hide Next, CallEffect, CallEnabled, Inv, ViewOf, View.LaunchOk, View.MonitorOk;
    if IsCallEvent(e) {
      CallIsOk(w, e.a);
      CallRegistersIff(w, e);
      CallEventRegisters(w, e, a);
    } else {
      SharedEventRegisters(w, e, a);
    }
  }

  // Processes.

  /** The call of an activity is about to reap this process, or to look at it. */
  predicate IsAt(w: World, a: ActivityId, h: Handle) {
    a in w.calls && (w.calls[a].launch == Reap(h) || w.calls[a].monitor == TryWait(h))
  }

  /** What an event shows of a process that was alive: it was reaped, given up for a reason, or neither. */
  function ShownOf(w: World, e: Event, h: Handle): ProcessState {
    match e
    case ReapAfterFailure(a, ReapDone) => if IsAt(w, a, h) then Reaped else Live
    case ReapAfterFailure(a, CannotTerminate) => if IsAt(w, a, h) then Abandoned(TerminateFailed) else Live
    case ReapAfterFailure(a, CannotWait) => if IsAt(w, a, h) then Abandoned(WaitFailed) else Live
    case TryWaiting(a, Exit(_)) => if IsAt(w, a, h) then Reaped else Live
    case TryWaiting(a, WaitError(ReapDone)) => if IsAt(w, a, h) then Reaped else Live
    case TryWaiting(a, WaitError(CannotTerminate)) => if IsAt(w, a, h) then Abandoned(TerminateFailed) else Live
    case TryWaiting(a, WaitError(CannotWait)) => if IsAt(w, a, h) then Abandoned(WaitFailed) else Live
    case Restart => Abandoned(LauncherRestarted)
    case _ => Live
  }

  lemma {:induction false} EarlyEventShows(w: World, e: Event, h: Handle)
    requires IsEarly(e) && !e.ReapAfterFailure? && Enabled(w, e) && h in w.processes
    ensures h in Next(w, e).processes && Next(w, e).processes[h] ==
      if w.processes[h].state.Live? then w.processes[h].(state := ShownOf(w, e, h)) else w.processes[h]
  {
    hide HasActive, EndStatus, OwnNumber, Unregistered, Disconnect, Answer;
  }

  lemma {:induction false} ReapingShows(w: World, e: Event, h: Handle)
    requires e.ReapAfterFailure? && Enabled(w, e) && ViewOf(w, e.a).LaunchOk() && ViewOf(w, e.a).MonitorOk()
    requires h in w.processes
    ensures h in Next(w, e).processes && Next(w, e).processes[h] ==
      if w.processes[h].state.Live? then w.processes[h].(state := ShownOf(w, e, h)) else w.processes[h]
  {
    hide HasActive, EndStatus, OwnNumber, Unregistered, Disconnect, Answer;
  }

  lemma {:induction false} LateEventShows(w: World, e: Event, h: Handle)
    requires IsCallEvent(e) && !IsEarly(e) && Enabled(w, e) && ViewOf(w, e.a).MonitorOk() && h in w.processes
    ensures h in Next(w, e).processes && Next(w, e).processes[h] ==
      if w.processes[h].state.Live? then w.processes[h].(state := ShownOf(w, e, h)) else w.processes[h]
  {
    hide HasActive, EndStatus, OwnNumber, Unregistered, Disconnect, Answer;
  }

  lemma {:induction false} CallEventShows(w: World, e: Event, h: Handle)
    requires IsCallEvent(e) && Enabled(w, e) && ViewOf(w, e.a).LaunchOk() && ViewOf(w, e.a).MonitorOk()
    requires h in w.processes
    ensures h in Next(w, e).processes && Next(w, e).processes[h] ==
      if w.processes[h].state.Live? then w.processes[h].(state := ShownOf(w, e, h)) else w.processes[h]
  {
    hide Next, Enabled, ShownOf, ViewOf, View.LaunchOk, View.MonitorOk, CallEffect, CallEnabled;
    if e.ReapAfterFailure? {
      ReapingShows(w, e, h);
    } else if IsEarly(e) {
      EarlyEventShows(w, e, h);
    } else {
      LateEventShows(w, e, h);
    }
  }

  /** A live process stays so until an event shows otherwise, and from then on it stays as that event left it. */
  lemma {:induction false} ProcessFollows(w: World, e: Event, h: Handle)
    requires Inv(w) && Enabled(w, e) && h in w.processes
    ensures h in Next(w, e).processes && Next(w, e).processes[h] ==
      if w.processes[h].state.Live? then w.processes[h].(state := ShownOf(w, e, h)) else w.processes[h]
  {
    hide Next, CallEffect, CallEnabled, Inv, ViewOf, View.LaunchOk, View.MonitorOk, ShownOf;
    if IsCallEvent(e) {
      CallIsOk(w, e.a);
      CallEventShows(w, e, h);
    } else {
      SharedEventShows(w, e, h);
    }
  }

  lemma {:induction false} SharedEventShows(w: World, e: Event, h: Handle)
    requires !IsCallEvent(e) && Enabled(w, e) && h in w.processes
    ensures h in Next(w, e).processes && Next(w, e).processes[h] ==
      if w.processes[h].state.Live? then w.processes[h].(state := ShownOf(w, e, h)) else w.processes[h]
  {
    hide CallEffect, CallEnabled, Interrupt;
  }

  // An end that goes through.

  lemma {:induction false} ExitIsRecorded(w: World, a: ActivityId, code: Option<int>)
    requires a in w.calls && w.calls[a].monitor.TryWait? && w.calls[a].monitor.p in w.processes
    ensures var c, h := w.calls[a],
          w.calls[a].monitor.p; var e := TryWaiting(a, Exit(code)); var save := PersistEnd(a, true);
      && Enabled(w, e) && Enabled(Next(w, e), save) && var after := Next(Next(w, e), save);
        && after.active == w.active && after.poisoned == w.poisoned && a in after.calls
        && after.calls[a] == c.(monitor := Remove(h)) && a in after.records
        && after.records[a] == Record(c.installation,
             if c.stopRequested then Stopped else if code == Some(0) then Exited else Failed, Some(w.processes[h].id))
        && h in after.processes && after.processes[h] == w.processes[h].(state := Reaped)
  {
    var c, h := w.calls[a], w.calls[a].monitor.p;
    var next := Next(w, TryWaiting(a, Exit(code)));
    assert next.calls[a] == c.(monitor := Persist(h, EndStatus(c.stopRequested, code), 1)) && h in next.processes;
    assert next.processes[h] == w.processes[h].(state := Reaped) && next.active == w.active;
    EventInPlace(next, a, PersistEnd(a, true));
    hide Answer, Unregistered;
  }

  lemma {:induction false} MonitorGoes(w: World, a: ActivityId)
    requires a in w.calls && w.calls[a].monitor.Remove? && w.calls[a].monitor.p in w.processes
    ensures var e := RemoveActive(a); var after := Next(w, e);
      && Enabled(w, e) && after.records == w.records && after.processes == w.processes
      && a in after.calls && after.calls[a].monitor.Ended?
  {
    hide Unregistered, Disconnect;
    assert Put(w.records, a, Lookup(w.records, a)) == w.records;
  }

  /**
   A process that exits on its own, or after a stop, is recorded so, reaped, and its
   activity is taken out of the active map if the lock is sound.
   */
  lemma {:induction false} ExitGoesThrough(w: World, a: ActivityId, code: Option<int>)
    requires Inv(w) && Polls(w, a) && w.calls[a].inbox == []
    ensures var es := [PollCommands(a, true), TryWaiting(a, Exit(code)), PersistEnd(a, true), RemoveActive(a)];
      Runnable(w, es) && var c, h, after := w.calls[a], w.calls[a].monitor.p, Run(w, es);
        && a in after.records && after.records[a] == Record(c.installation,
             if c.stopRequested then Stopped else if code == Some(0) then Exited else Failed, Some(w.processes[h].id))
        && h in after.processes && after.processes[h].state == Reaped
        && a in after.calls && after.calls[a].monitor.Ended? && (!w.poisoned ==> a !in after.active)
  {
    hide Inv, Next, Enabled;
    var e1, e2, e3, e4 := PollCommands(a, true), TryWaiting(a, Exit(code)), PersistEnd(a, true), RemoveActive(a);
    NothingToDo(w, a);
    StepKeepsInv(w, e1);
    var w1 := Next(w, e1);
    ExitIsRecorded(w1, a, code);
    StepKeepsInv(w1, e2);
    var w3 := Next(Next(w1, e2), e3);
    StepKeepsInv(Next(w1, e2), e3);
    MonitorGoes(w3, a);
    RegistrationFollows(w3, e4, a);
    var last := Next(w3, e4);
    NothingMore(last);
    Prepend(w3, e4, last, [], last);
    Prepend(Next(w1, e2), e3, w3, [e4] + [], last);
    Prepend(w1, e2, Next(w1, e2), [e3] + ([e4] + []), last);
    Prepend(w, e1, w1, [e2] + ([e3] + ([e4] + [])), last);
    assert [e1, e2, e3, e4] == [e1] + ([e2] + ([e3] + ([e4] + [])));
  }
}
