/** What every step of the launch supervisor keeps, and what follows for whole runs. */
module LaunchSafety {
  import opened Wrappers
  import opened LaunchSupervisor

  function LaunchHolds(l: LaunchPc): Option<Handle> {
    match l
    case SaveRunning(p) => Some(p)
    case Spawn(p) => Some(p)
    case Register(p) => Some(p)
    case Send(p) => Some(p)
    case Reap(p) => Some(p)
    case _ => None
  }

  function MonitorHolds(m: MonitorPc): Option<Handle> {
    match m
    case Poll(p) => Some(p)
    case AnswerStop(p, _) => Some(p)
    case TryWait(p) => Some(p)
    case Persist(p, _, _) => Some(p)
    case Remove(p) => Some(p)
    case _ => None
  }

  /** The handle a call holds: in its launch, in its hand-over channel or in its monitor. */
  function Held(c: Call): Option<Handle> {
    if LaunchHolds(c.launch).Some? then LaunchHolds(c.launch)
    else if c.handover.Some? then c.handover
    else MonitorHolds(c.monitor)
  }

  /** What the invariant says about one activity, from its call, its record, its registration and the processes. */
  datatype View = View(c: Call, record: Option<Record>, registration: Option<ProcessId>,
                       processes: map<Handle, Process>)
  {
    predicate IsLive(p: Handle) {
      p in processes && processes[p].state.Live?
    }

    predicate HasStatus(statuses: set<Status>) {
      record.Some? && record.value.status in statuses
    }

    predicate Registered(p: Handle) {
      p in processes && registration == Some(processes[p].id)
    }

    predicate Unmonitored() {
      !c.stopRequested && !c.waitFailed && !c.gaveUp
    }

    predicate BeforeSpawn(statuses: set<Status>) {
      HasStatus(statuses) && Unmonitored() && c.handover.None? && c.monitor.NotSpawned? && c.inbox == []
    }

    predicate Spawned(p: Handle) {
      HasStatus({Running}) && Unmonitored() && (c.monitor.AwaitStart? || c.monitor.Ended?) && IsLive(p)
    }

    predicate MonitorIdle() {
      c.monitor.NotSpawned? || c.monitor.AwaitStart? || c.monitor.Ended?
    }

    predicate LaunchOk() {
      match c.launch
      case Begin => record.None? && Unmonitored() && c.handover.None? && c.monitor.NotSpawned? && c.inbox == []
      case Execute => BeforeSpawn({Starting})
      case SaveExecutionFailure => BeforeSpawn({Starting})
      case SaveRunning(p) => BeforeSpawn({Starting}) && IsLive(p)
      case Spawn(p) => BeforeSpawn({Running}) && IsLive(p)
      case Register(p) => Spawned(p) && c.handover.None?
      case Send(p) => Spawned(p) && c.handover.None? && Registered(p)
      case Sending => c.handover.Some? && Spawned(c.handover.value) && Registered(c.handover.value)
      case Reap(p) =>
        HasStatus({Starting, Running}) && Unmonitored() && c.handover.None? && MonitorIdle() && IsLive(p)
      case SaveFailure(p) => HasStatus({Starting, Running}) && Unmonitored() && c.handover.None? && MonitorIdle()
      case Returned(ok) =>
        c.handover.None? && if ok then !c.monitor.NotSpawned? && !c.monitor.AwaitStart? && record.Some?
                            else Unmonitored() && MonitorIdle()
    }

    predicate Monitoring(p: Handle) {
      c.launch == Returned(true) && Registered(p)
    }

    predicate MonitorOk() {
      && (c.launch == Returned(true) && record.Some? && !record.value.status.IsActive() ==>
            EndsAsAsked(c, record.value.status))
      && match c.monitor
         case NotSpawned => c.inbox == []
         case AwaitStart => true
         case Poll(p) =>
           Monitoring(p) && IsLive(p) && HasStatus({Running, Stopping}) && !c.gaveUp && !c.waitFailed
         case AnswerStop(p, _) =>
           Monitoring(p) && IsLive(p) && HasStatus({Running, Stopping}) && !c.gaveUp && !c.waitFailed
           && c.stopRequested
         case TryWait(p) =>
           Monitoring(p) && IsLive(p) && HasStatus({Running, Stopping}) && !c.gaveUp && !c.waitFailed
         case Persist(p, end, attempt) =>
           Monitoring(p) && !IsLive(p) && HasStatus({Running, Stopping}) && 1 <= attempt <= 3 && !c.gaveUp
           && !end.IsActive() && EndsAsAsked(c, end)
         case Remove(p) =>
           Monitoring(p) && !IsLive(p) && record.Some? && (record.value.status.IsActive() ==> c.gaveUp)
         case Ended =>
           c.inbox == []
           && (c.launch == Returned(true) ==> record.Some? && (record.value.status.IsActive() ==> c.gaveUp))
    }
  }

  function ViewOf(w: World, a: ActivityId): View
    requires a in w.calls
  {
    View(w.calls[a], Lookup(w.records, a), Lookup(w.active, a), w.processes)
  }

  predicate Supervising(m: MonitorPc) {
    MonitorHolds(m).Some?
  }

  /** A stop that was asked for ends in Stopped, unless waiting on the process failed. */
  predicate EndsAsAsked(c: Call, end: Status) {
    c.stopRequested ==> end == Stopped || (end == Failed && c.waitFailed)
  }

  ghost predicate CallsOk(w: World) {
    forall a | a in w.calls :: ViewOf(w, a).LaunchOk() && ViewOf(w, a).MonitorOk()
  }

  ghost predicate RecordsOk(w: World) {
    && (forall a | a in w.records && w.records[a].status.IsActive() :: a in w.calls)
    && (forall a | a in w.records && a in w.calls :: w.records[a].installation == w.calls[a].installation)
  }

  predicate OwnsHeld(w: World, a: ActivityId)
    requires a in w.calls
  {
    Held(w.calls[a]).Some? ==>
      Held(w.calls[a]).value in w.processes && w.processes[Held(w.calls[a]).value].activity == a
  }

  /** Every held handle is a process of that very call, and every live process is held by its call. */
  ghost predicate ProcessesOk(w: World) {
    && (forall a | a in w.calls :: OwnsHeld(w, a))
    && (forall h | h in w.processes && w.processes[h].state.Live? ::
          w.processes[h].activity in w.calls && Held(w.calls[w.processes[h].activity]) == Some(h))
  }

  predicate Listening(c: Call) {
    c.launch.Send? || c.launch.Sending? || Supervising(c.monitor)
  }

  ghost predicate ActiveOk(w: World) {
    forall a | a in w.active :: a in w.calls && (w.poisoned || Listening(w.calls[a]))
  }

  ghost predicate AtMostOneActive(records: map<ActivityId, Record>) {
    forall a, b | a in records && b in records && records[a].status.IsActive() && records[b].status.IsActive()
      && records[a].installation == records[b].installation :: a == b
  }

  ghost predicate Distinct(inbox: seq<RequestId>) {
    forall i, j | 0 <= i < j < |inbox| :: inbox[i] != inbox[j]
  }

  /** The request whose stop was carried out but not answered yet. */
  function InHand(c: Call): Option<RequestId> {
    if c.monitor.AnswerStop? then Some(c.monitor.request) else None
  }

  predicate Pending(c: Call, q: RequestId) {
    q in c.inbox || InHand(c) == Some(q)
  }

  /** Every pending request was sent to that very call, and waits there once. */
  ghost predicate PendingWasSent(w: World) {
    && (forall a | a in w.calls :: Distinct(w.calls[a].inbox)
          && (InHand(w.calls[a]).Some? ==> InHand(w.calls[a]).value !in w.calls[a].inbox))
    && (forall a, q | a in w.calls && Pending(w.calls[a], q) :: q in w.requests && w.requests[q] == Request(a, Sent))
  }

  /** Every sent request is pending at its call, and an Ok answer means the stop was carried out there. */
  ghost predicate SentIsPending(w: World) {
    forall q | q in w.requests :: RequestOk(w, w.requests[q], q)
  }

  predicate RequestOk(w: World, r: Request, q: RequestId) {
    && (r.state.Sent? ==> r.activity in w.calls && Pending(w.calls[r.activity], q))
    && (r.state == Answered(true) && r.activity in w.calls ==> w.calls[r.activity].stopRequested)
    && (r.state == Answered(true) ==> r.activity in w.records)
    && (r.state.LookedUp? ==> r.activity in w.calls && !w.calls[r.activity].monitor.NotSpawned?)
  }

  ghost predicate RequestsOk(w: World) {
    PendingWasSent(w) && SentIsPending(w)
  }

  ghost predicate Inv(w: World) {
    CallsOk(w) && RecordsOk(w) && ProcessesOk(w) && ActiveOk(w) && AtMostOneActive(w.records) && RequestsOk(w)
  }

  /** Nothing but one activity's own record, call, registration and processes differs between two worlds. */
  ghost predicate OnlyTouches(w: World, w': World, a: ActivityId) {
    && w.calls.Keys == w'.calls.Keys
    && (forall b | b in w.calls && b != a :: w'.calls[b] == w.calls[b])
    && (forall b | b != a :: b in w.records <==> b in w'.records)
    && (forall b | b in w.records && b != a :: w'.records[b] == w.records[b])
    && (forall b | b != a :: b in w.active <==> b in w'.active)
    && (forall b | b in w.active && b != a :: w'.active[b] == w.active[b])
    && (forall h | h in w.processes :: h in w'.processes && w'.processes[h].activity == w.processes[h].activity
          && w'.processes[h].id == w.processes[h].id)
    && (forall h | h in w.processes && w.processes[h].activity != a :: w'.processes[h] == w.processes[h])
    && (forall h | h in w'.processes && h !in w.processes :: w'.processes[h].activity == a)
    && w.poisoned == w'.poisoned
  }

  /** The view an effect leaves behind. */
  function Outcome(w: World, f: Effect): View {
    View(if f.disconnect then f.call.(monitor := Ended, inbox := []) else f.call, f.record, f.registration,
         match f.process case None => w.processes case Some((p, process)) => w.processes[p := process])
  }

  lemma {:induction false} InstallShows(w: World, a: ActivityId, f: Effect)
    requires a in w.calls
    ensures ViewOf(Install(w, a, f), a) == Outcome(w, f)
  {
  }

  lemma {:induction false} BeginningKeepsView(w: World, e: Event)
    requires e.BeginActivity? || e.ExecutePlan?
    requires Enabled(w, e) && ViewOf(w, e.a).LaunchOk() && ViewOf(w, e.a).MonitorOk()
    ensures var v := Outcome(w, CallEffect(w, e.a, w.calls[e.a], e)); v.LaunchOk() && v.MonitorOk()
  {
    hide AfterReap, Unregistered, EndStatus, OwnNumber;
  }

  lemma {:induction false} RecordingKeepsView(w: World, e: Event)
    requires e.SaveExecutionFailed? || e.SaveRunningStatus?
    requires Enabled(w, e) && ViewOf(w, e.a).LaunchOk() && ViewOf(w, e.a).MonitorOk()
    ensures var v := Outcome(w, CallEffect(w, e.a, w.calls[e.a], e)); v.LaunchOk() && v.MonitorOk()
  {
    hide AfterReap, Unregistered, EndStatus, OwnNumber, HasActive;
  }

  lemma {:induction false} StartingKeepsView(w: World, e: Event)
    requires e.BeginActivity? || e.ExecutePlan? || e.SaveExecutionFailed? || e.SaveRunningStatus?
    requires Enabled(w, e) && ViewOf(w, e.a).LaunchOk() && ViewOf(w, e.a).MonitorOk()
    ensures var v := Outcome(w, CallEffect(w, e.a, w.calls[e.a], e)); v.LaunchOk() && v.MonitorOk()
  {
    hide CallEffect, CallEnabled, View.LaunchOk, View.MonitorOk;
    if e.BeginActivity? || e.ExecutePlan? {
      BeginningKeepsView(w, e);
    } else {
      RecordingKeepsView(w, e);
    }
  }

  lemma {:induction false} FailingKeepsView(w: World, e: Event)
    requires e.ReapAfterFailure? || e.SaveFailedStatus? || e.SpawnMonitor? || e.RegisterActive?
    requires Enabled(w, e) && ViewOf(w, e.a).LaunchOk() && ViewOf(w, e.a).MonitorOk()
    ensures var v := Outcome(w, CallEffect(w, e.a, w.calls[e.a], e)); v.LaunchOk() && v.MonitorOk()
  {
    hide Unregistered, HasActive, EndStatus, EndsAsAsked;
  }

  lemma {:induction false} HandingOverKeepsView(w: World, e: Event)
    requires e.SendProcess? || e.ReceiveProcess? || e.SendFails? || e.MonitorGone?
    requires Enabled(w, e) && ViewOf(w, e.a).LaunchOk() && ViewOf(w, e.a).MonitorOk()
    ensures var v := Outcome(w, CallEffect(w, e.a, w.calls[e.a], e)); v.LaunchOk() && v.MonitorOk()
  {
    hide AfterReap, HasActive, EndStatus, OwnNumber;
  }

  lemma {:induction false} StoppingKeepsView(w: World, e: Event)
    requires e.PollCommands? || e.SaveStopping?
    requires Enabled(w, e) && ViewOf(w, e.a).LaunchOk() && ViewOf(w, e.a).MonitorOk()
    ensures var v := Outcome(w, CallEffect(w, e.a, w.calls[e.a], e)); v.LaunchOk() && v.MonitorOk()
  {
    hide AfterReap, HasActive, EndStatus, Unregistered;
  }

  lemma {:induction false} WaitingKeepsView(w: World, e: Event)
    requires e.TryWaiting?
    requires Enabled(w, e) && ViewOf(w, e.a).LaunchOk() && ViewOf(w, e.a).MonitorOk()
    ensures var v := Outcome(w, CallEffect(w, e.a, w.calls[e.a], e)); v.LaunchOk() && v.MonitorOk()
  {
    hide HasActive, Unregistered, OwnNumber;
  }

  lemma {:induction false} PersistingKeepsView(w: World, e: Event)
    requires e.PersistEnd?
    requires Enabled(w, e) && ViewOf(w, e.a).LaunchOk() && ViewOf(w, e.a).MonitorOk()
    ensures var v := Outcome(w, CallEffect(w, e.a, w.calls[e.a], e)); v.LaunchOk() && v.MonitorOk()
  {
    hide AfterReap, HasActive, EndStatus, Unregistered;
  }

  lemma {:induction false} RemovingKeepsView(w: World, e: Event)
    requires e.RemoveActive?
    requires Enabled(w, e) && ViewOf(w, e.a).LaunchOk() && ViewOf(w, e.a).MonitorOk()
    ensures var v := Outcome(w, CallEffect(w, e.a, w.calls[e.a], e)); v.LaunchOk() && v.MonitorOk()
  {
    hide AfterReap, HasActive, EndStatus, OwnNumber;
  }

  /** A process already known keeps its activity and its number. */
  predicate KeepsNumber(w: World, h: Handle, process: Process) {
    h in w.processes ==> w.processes[h].activity == process.activity && w.processes[h].id == process.id
  }

  lemma {:induction false} InstallTouches(w: World, a: ActivityId, f: Effect)
    requires a in w.calls
    requires f.process.Some? ==> f.process.value.1.activity == a && KeepsNumber(w, f.process.value.0, f.process.value.1)
    ensures OnlyTouches(w, Install(w, a, f), a)
  {
  }

  lemma {:induction false} EventKeepsView(w: World, e: Event)
    requires IsCallEvent(e) && Enabled(w, e) && ViewOf(w, e.a).LaunchOk() && ViewOf(w, e.a).MonitorOk()
    ensures ViewOf(Next(w, e), e.a).LaunchOk() && ViewOf(Next(w, e), e.a).MonitorOk()
  {
    hide CallEffect, CallEnabled, Install, View.LaunchOk, View.MonitorOk;
    if e.BeginActivity? || e.ExecutePlan? || e.SaveExecutionFailed? || e.SaveRunningStatus? {
      StartingKeepsView(w, e);
    } else if e.ReapAfterFailure? || e.SaveFailedStatus? || e.SpawnMonitor? || e.RegisterActive? {
      FailingKeepsView(w, e);
    } else if e.SendProcess? || e.ReceiveProcess? || e.SendFails? || e.MonitorGone? {
      HandingOverKeepsView(w, e);
    } else if e.PollCommands? || e.SaveStopping? {
      StoppingKeepsView(w, e);
    } else if e.TryWaiting? {
      WaitingKeepsView(w, e);
    } else if e.PersistEnd? {
      PersistingKeepsView(w, e);
    } else {
      RemovingKeepsView(w, e);
    }
    InstallShows(w, e.a, CallEffect(w, e.a, w.calls[e.a], e));
  }

  /**
   How an event may move its call's process handle: keep it, take up a new process, or
   let go of one that is not live.
   */
  predicate HandleMoves(w: World, a: ActivityId, f: Effect)
    requires a in w.calls
  {
    var before, after := Held(w.calls[a]), Held(Outcome(w, f).c);
    && (f.process.Some? ==> f.process.value.1.activity == a)
    && (f.process.Some? && f.process.value.0 in w.processes ==>
          before == Some(f.process.value.0) && f.process.value.1.id == w.processes[f.process.value.0].id)
    && (f.process.Some? && f.process.value.0 !in w.processes ==>
          before.None? && after == Some(f.process.value.0))
    && (after != before ==>
          if after.Some? then before.None? && f.process.Some? && after == Some(f.process.value.0)
          else !Outcome(w, f).IsLive(before.value))
  }

  lemma {:induction false} RecordingMovesHandle(w: World, e: Event)
    requires e.BeginActivity? || e.ExecutePlan? || e.SaveExecutionFailed? || e.SaveRunningStatus?
    requires Enabled(w, e) && OwnsHeld(w, e.a) && ViewOf(w, e.a).LaunchOk()
    ensures HandleMoves(w, e.a, CallEffect(w, e.a, w.calls[e.a], e))
  {
    hide AfterReap, Unregistered, HasActive, EndStatus, OwnNumber;
  }

  lemma {:induction false} SupervisingMovesHandle(w: World, e: Event)
    requires e.ReapAfterFailure? || e.SaveFailedStatus? || e.SpawnMonitor? || e.RegisterActive?
    requires Enabled(w, e) && OwnsHeld(w, e.a) && ViewOf(w, e.a).LaunchOk()
    ensures HandleMoves(w, e.a, CallEffect(w, e.a, w.calls[e.a], e))
  {
    hide Unregistered, HasActive, EndStatus, OwnNumber;
  }

  lemma {:induction false} StartingMovesHandle(w: World, e: Event)
    requires IsEarly(e)
    requires Enabled(w, e) && OwnsHeld(w, e.a) && ViewOf(w, e.a).LaunchOk()
    ensures HandleMoves(w, e.a, CallEffect(w, e.a, w.calls[e.a], e))
  {
    hide CallEffect, CallEnabled, View.LaunchOk, HandleMoves, OwnsHeld;
    if e.BeginActivity? || e.ExecutePlan? || e.SaveExecutionFailed? || e.SaveRunningStatus? {
      RecordingMovesHandle(w, e);
    } else {
      SupervisingMovesHandle(w, e);
    }
  }

  lemma {:induction false} HandingOverMovesHandle(w: World, e: Event)
    requires e.SendProcess? || e.ReceiveProcess? || e.SendFails? || e.MonitorGone?
    requires Enabled(w, e) && OwnsHeld(w, e.a) && ViewOf(w, e.a).LaunchOk() && ViewOf(w, e.a).MonitorOk()
    ensures HandleMoves(w, e.a, CallEffect(w, e.a, w.calls[e.a], e))
  {
    hide AfterReap, HasActive, EndStatus, OwnNumber, Unregistered;
  }

  lemma {:induction false} WaitingMovesHandle(w: World, e: Event)
    requires e.TryWaiting?
    requires Enabled(w, e) && OwnsHeld(w, e.a) && ViewOf(w, e.a).LaunchOk() && ViewOf(w, e.a).MonitorOk()
    ensures HandleMoves(w, e.a, CallEffect(w, e.a, w.calls[e.a], e))
  {
    hide HasActive, Unregistered, OwnNumber, EndStatus;
  }

  lemma {:induction false} MonitoringMovesHandle(w: World, e: Event)
    requires e.PollCommands? || e.SaveStopping? || e.PersistEnd? || e.RemoveActive?
    requires Enabled(w, e) && OwnsHeld(w, e.a) && ViewOf(w, e.a).LaunchOk() && ViewOf(w, e.a).MonitorOk()
    ensures HandleMoves(w, e.a, CallEffect(w, e.a, w.calls[e.a], e))
  {
    hide AfterReap, HasActive, EndStatus, OwnNumber, Unregistered;
  }

  lemma {:induction false} ViewFrame(v: View, v': View)
    requires v.c == v'.c && v.record == v'.record && v.registration == v'.registration
    requires v.LaunchOk() && v.MonitorOk()
    requires Held(v.c).Some? ==> var p := Held(v.c).value;
      p in v.processes && p in v'.processes && v'.processes[p] == v.processes[p]
    ensures v'.LaunchOk() && v'.MonitorOk()
  {
  }

  lemma {:induction false} OtherViewKept(w: World, w': World, a: ActivityId, b: ActivityId)
    requires ProcessesOk(w) && OnlyTouches(w, w', a) && b in w.calls && b != a
    requires ViewOf(w, b).LaunchOk() && ViewOf(w, b).MonitorOk()
    ensures ViewOf(w', b).LaunchOk() && ViewOf(w', b).MonitorOk()
  {
    ViewFrame(ViewOf(w, b), ViewOf(w', b));
  }

  lemma {:induction false} CallEventKeepsCalls(w: World, e: Event)
    requires Inv(w) && IsCallEvent(e) && Enabled(w, e)
    ensures CallsOk(Next(w, e))
  {
    EventKeepsView(w, e);
    CallEventKeepsProcesses(w, e);
    forall b | b in w.calls && b != e.a
      ensures ViewOf(Next(w, e), b).LaunchOk() && ViewOf(Next(w, e), b).MonitorOk()
    {
      OtherViewKept(w, Next(w, e), e.a, b);
    }
  }

  /** How one event may change the status stored for its own activity. */
  predicate StoredForward(before: Option<Record>, after: Option<Record>) {
    match before
    case None => after.None? || after.value.status.Starting? || after.value.status.Failed?
    case Some(r) =>
      && after.Some?
      && after.value.installation == r.installation
      && r.status.Stage() <= after.value.status.Stage()
      && (!r.status.IsActive() ==> after.value == r)
  }

  /** The events of a launch before its process is sent over. */
  predicate IsEarly(e: Event) {
    e.BeginActivity? || e.ExecutePlan? || e.SaveExecutionFailed? || e.SaveRunningStatus? || e.ReapAfterFailure?
    || e.SaveFailedStatus? || e.SpawnMonitor? || e.RegisterActive?
  }

  lemma {:induction false} LaunchMovesForward(w: World, e: Event)
    requires IsEarly(e)
    requires Enabled(w, e) && ViewOf(w, e.a).LaunchOk()
    requires e.a in w.records ==> w.records[e.a].installation == w.calls[e.a].installation
    ensures StoredForward(Lookup(w.records, e.a), CallEffect(w, e.a, w.calls[e.a], e).record)
  {
  }

  lemma {:induction false} MonitorMovesForward(w: World, e: Event)
    requires IsCallEvent(e) && !IsEarly(e)
    requires Enabled(w, e) && ViewOf(w, e.a).MonitorOk()
    requires e.a in w.records ==> w.records[e.a].installation == w.calls[e.a].installation
    ensures StoredForward(Lookup(w.records, e.a), CallEffect(w, e.a, w.calls[e.a], e).record)
  {
  }

  predicate KeepsInstallation(c: Call, f: Effect) {
    f.call.installation == c.installation && (f.record.Some? ==> f.record.value.installation == c.installation)
  }

  lemma {:induction false} EarlyKeepsInstallation(w: World, c: Call, e: Event)
    requires IsEarly(e) && CallEnabled(w, c, e)
    requires e.a in w.records ==> w.records[e.a].installation == c.installation
    ensures KeepsInstallation(c, CallEffect(w, e.a, c, e))
  {
    hide AfterReap, Unregistered, HasActive, EndStatus;
  }

  lemma {:induction false} LateKeepsInstallation(w: World, c: Call, e: Event)
    requires IsCallEvent(e) && !IsEarly(e) && CallEnabled(w, c, e)
    requires e.a in w.records ==> w.records[e.a].installation == c.installation
    ensures KeepsInstallation(c, CallEffect(w, e.a, c, e))
  {
    hide AfterReap, Unregistered, HasActive, EndStatus;
  }

  lemma {:induction false} CallEventStores(w: World, e: Event)
    requires IsCallEvent(e) && Enabled(w, e)
    requires e.a in w.records ==> w.records[e.a].installation == w.calls[e.a].installation
    ensures var f := CallEffect(w, e.a, w.calls[e.a], e);
      && Lookup(Next(w, e).records, e.a) == f.record
      && f.call.installation == w.calls[e.a].installation
      && (f.record.Some? ==> f.record.value.installation == w.calls[e.a].installation)
  {
    hide CallEffect;
    if IsEarly(e) {
      EarlyKeepsInstallation(w, w.calls[e.a], e);
    } else {
      LateKeepsInstallation(w, w.calls[e.a], e);
    }
  }

  lemma {:induction false} OnlyBeginActivates(w: World, e: Event)
    requires IsCallEvent(e) && Enabled(w, e) && ViewOf(w, e.a).LaunchOk() && ViewOf(w, e.a).MonitorOk()
    requires e.a !in w.records
    ensures var f := CallEffect(w, e.a, w.calls[e.a], e);
      f.record.Some? && f.record.value.status.IsActive() ==> !HasActive(w.records, w.calls[e.a].installation)
  {
    hide AfterReap, Unregistered, EndStatus, OwnNumber;
  }

  lemma {:induction false} RecordsLift(w: World, w': World, a: ActivityId)
    requires RecordsOk(w) && AtMostOneActive(w.records) && a in w.calls && OnlyTouches(w, w', a)
    requires w'.calls[a].installation == w.calls[a].installation
    requires StoredForward(Lookup(w.records, a), Lookup(w'.records, a))
    requires a in w'.records ==> w'.records[a].installation == w.calls[a].installation
    requires a !in w.records && a in w'.records && w'.records[a].status.IsActive() ==>
               !HasActive(w.records, w.calls[a].installation)
    ensures RecordsOk(w') && AtMostOneActive(w'.records)
  {
    forall b, b' | b in w'.records && b' in w'.records && w'.records[b].status.IsActive()
        && w'.records[b'].status.IsActive() && w'.records[b].installation == w'.records[b'].installation
      ensures b == b'
    {
      if b != b' {
        OthersAreNotActive(w, w', a, if b == a then b' else b);
      }
    }
  }

  /** Beside another active activity of its installation, a call's own record is not active. */
  lemma {:induction false} OthersAreNotActive(w: World, w': World, a: ActivityId, b: ActivityId)
    requires AtMostOneActive(w.records) && a in w.calls && OnlyTouches(w, w', a) && RecordsOk(w)
    requires w'.calls[a].installation == w.calls[a].installation
    requires StoredForward(Lookup(w.records, a), Lookup(w'.records, a))
    requires a in w'.records ==> w'.records[a].installation == w.calls[a].installation
    requires a !in w.records && a in w'.records && w'.records[a].status.IsActive() ==>
               !HasActive(w.records, w.calls[a].installation)
    requires b != a && b in w'.records && w'.records[b].status.IsActive()
    ensures !(a in w'.records && w'.records[a].status.IsActive()
          && w'.records[a].installation == w'.records[b].installation)
    ensures b in w.records && w.records[b] == w'.records[b]
  {
    assert b in w.records && w.records[b] == w'.records[b];
  }

  lemma {:induction false} CallEventMovesForward(w: World, e: Event)
    requires Inv(w) && IsCallEvent(e) && Enabled(w, e)
    ensures StoredForward(Lookup(w.records, e.a), Lookup(Next(w, e).records, e.a))
  {
    if e.BeginActivity? || e.ExecutePlan? || e.SaveExecutionFailed? || e.SaveRunningStatus?
      || e.ReapAfterFailure? || e.SaveFailedStatus? || e.SpawnMonitor? || e.RegisterActive? {
      LaunchMovesForward(w, e);
    } else {
      MonitorMovesForward(w, e);
    }
    CallEventStores(w, e);
  }

  lemma {:induction false} CallEventKeepsRecords(w: World, e: Event)
    requires Inv(w) && IsCallEvent(e) && Enabled(w, e)
    ensures RecordsOk(Next(w, e)) && AtMostOneActive(Next(w, e).records)
  {
    hide CallEffect, CallEnabled, OnlyTouches, StoredForward, ProcessesOk, ActiveOk, RequestsOk;
    CallEventKeepsProcesses(w, e);
    CallEventMovesForward(w, e);
    CallEventStores(w, e);
    if e.a !in w.records {
      OnlyBeginActivates(w, e);
    }
    RecordsLift(w, Next(w, e), e.a);
  }

  lemma {:induction false} ProcessesLift(w: World, a: ActivityId, f: Effect)
    requires ProcessesOk(w) && a in w.calls && HandleMoves(w, a, f)
    ensures OnlyTouches(w, Install(w, a, f), a) && ProcessesOk(Install(w, a, f))
  {
    InstallTouches(w, a, f);
    InstallShows(w, a, f);
  }

  lemma {:induction false} CallEventKeepsProcesses(w: World, e: Event)
    requires Inv(w) && IsCallEvent(e) && Enabled(w, e)
    ensures OnlyTouches(w, Next(w, e), e.a) && ProcessesOk(Next(w, e))
  {
    hide CallEffect, CallEnabled, Install, HandleMoves, OnlyTouches, RecordsOk, ActiveOk, RequestsOk, AtMostOneActive,
      OwnsHeld, View.LaunchOk, View.MonitorOk;
    if e.BeginActivity? || e.ExecutePlan? || e.SaveExecutionFailed? || e.SaveRunningStatus?
      || e.ReapAfterFailure? || e.SaveFailedStatus? || e.SpawnMonitor? || e.RegisterActive? {
      StartingMovesHandle(w, e);
    } else if e.SendProcess? || e.ReceiveProcess? || e.SendFails? || e.MonitorGone? {
      HandingOverMovesHandle(w, e);
    } else if e.TryWaiting? {
      WaitingMovesHandle(w, e);
    } else {
      MonitoringMovesHandle(w, e);
    }
    ProcessesLift(w, e.a, CallEffect(w, e.a, w.calls[e.a], e));
  }

  lemma {:induction false} RegistrationMeansListening(w: World, e: Event)
    requires IsCallEvent(e) && Enabled(w, e) && ViewOf(w, e.a).LaunchOk() && ViewOf(w, e.a).MonitorOk()
    requires e.a in w.active ==> w.poisoned || Listening(w.calls[e.a])
    ensures var f := CallEffect(w, e.a, w.calls[e.a], e);
      f.registration.Some? ==> w.poisoned || Listening(Outcome(w, f).c)
  {
    hide AfterReap, HasActive, EndStatus, OwnNumber;
  }

  lemma {:induction false} ActiveLift(w: World, w': World, a: ActivityId)
    requires ActiveOk(w) && a in w.calls && OnlyTouches(w, w', a)
    requires a in w'.active ==> w.poisoned || Listening(w'.calls[a])
    ensures ActiveOk(w')
  {
  }

  lemma {:induction false} CallEventKeepsActive(w: World, e: Event)
    requires Inv(w) && IsCallEvent(e) && Enabled(w, e)
    ensures ActiveOk(Next(w, e))
  {
    CallEventKeepsProcesses(w, e);
    RegistrationMeansListening(w, e);
    InstallShows(w, e.a, CallEffect(w, e.a, w.calls[e.a], e));
    ActiveLift(w, Next(w, e), e.a);
  }

  datatype RequestMove = Quiet | Take | Reject | Reply(ok: bool) | Drop

  /** What a call event does to the requests waiting on its call. */
  predicate RequestsMove(w: World, a: ActivityId, f: Effect, m: RequestMove)
    requires a in w.calls
  {
    var c, c' := w.calls[a], Outcome(w, f).c;
    && (c.stopRequested ==> c'.stopRequested)
    && (a in w.records ==> f.record.Some?)
    && (c'.monitor.NotSpawned? ==> c.monitor.NotSpawned?)
    && match m
       case Quiet => !f.disconnect && f.answer.None? && c'.inbox == c.inbox && InHand(c') == InHand(c)
       case Take =>
         !f.disconnect && f.answer.None? && c.inbox != [] && c'.inbox == c.inbox[1..]
         && InHand(c).None? && InHand(c') == Some(c.inbox[0])
       case Reject =>
         !f.disconnect && c.inbox != [] && f.answer == Some((c.inbox[0], false)) && c'.inbox == c.inbox[1..]
         && InHand(c).None? && InHand(c').None?
       case Reply(ok) =>
         !f.disconnect && InHand(c).Some? && f.answer == Some((InHand(c).value, ok)) && c'.inbox == c.inbox
         && InHand(c').None? && c.stopRequested && a in w.records
       case Drop => f.disconnect && f.call.inbox == c.inbox && c'.inbox == [] && InHand(c).None? && InHand(c').None?
  }

  function MoveOf(c: Call, e: Event): RequestMove {
    match e
    case MonitorGone(_) => Drop
    case RemoveActive(_) => Drop
    case PollCommands(_, terminated) => if c.inbox == [] then Quiet else if terminated then Take else Reject
    case SaveStopping(_, saved) => Reply(saved)
    case _ => Quiet
  }

  lemma {:induction false} LaunchMovesRequests(w: World, e: Event)
    requires IsCallEvent(e) && !(e.PollCommands? || e.SaveStopping? || e.MonitorGone? || e.RemoveActive?)
    requires Enabled(w, e) && ViewOf(w, e.a).LaunchOk() && ViewOf(w, e.a).MonitorOk()
    ensures RequestsMove(w, e.a, CallEffect(w, e.a, w.calls[e.a], e), Quiet)
  {
    hide AfterReap, Unregistered, HasActive, EndStatus, OwnNumber;
  }

  lemma {:induction false} MonitorMovesRequests(w: World, e: Event)
    requires e.PollCommands? || e.SaveStopping? || e.MonitorGone? || e.RemoveActive?
    requires Enabled(w, e) && ViewOf(w, e.a).LaunchOk() && ViewOf(w, e.a).MonitorOk()
    ensures RequestsMove(w, e.a, CallEffect(w, e.a, w.calls[e.a], e), MoveOf(w.calls[e.a], e))
  {
    hide AfterReap, HasActive, EndStatus, Unregistered, OwnNumber;
  }

  lemma {:induction false} CallEventMovesRequests(w: World, e: Event)
    requires IsCallEvent(e) && Enabled(w, e) && ViewOf(w, e.a).LaunchOk() && ViewOf(w, e.a).MonitorOk()
    ensures RequestsMove(w, e.a, CallEffect(w, e.a, w.calls[e.a], e), MoveOf(w.calls[e.a], e))
  {
    if e.PollCommands? || e.SaveStopping? || e.MonitorGone? || e.RemoveActive? {
      MonitorMovesRequests(w, e);
    } else {
      LaunchMovesRequests(w, e);
    }
  }

  lemma {:induction false} QuietLift(w: World, a: ActivityId, f: Effect)
    requires RequestsOk(w) && a in w.calls && RequestsMove(w, a, f, Quiet)
    ensures RequestsOk(Install(w, a, f))
  {
    var w' := Install(w, a, f);
    assert forall b, q | b in w.calls :: Pending(w'.calls[b], q) <==> Pending(w.calls[b], q);
  }

  lemma {:induction false} TakeLift(w: World, a: ActivityId, f: Effect)
    requires RequestsOk(w) && a in w.calls && RequestsMove(w, a, f, Take)
    ensures RequestsOk(Install(w, a, f))
  {
    var w', c := Install(w, a, f), w.calls[a];
    assert c.inbox == [c.inbox[0]] + c.inbox[1..];
    assert forall b, q | b in w.calls :: Pending(w'.calls[b], q) <==> Pending(w.calls[b], q);
  }

  /** One pending request of one call is answered; nothing else about requests changes. */
  lemma {:induction false} SettleLift(w: World, w': World, a: ActivityId, q: RequestId, ok: bool)
    requires RequestsOk(w) && a in w.calls && Pending(w.calls[a], q) && w'.calls.Keys == w.calls.Keys
    requires forall b | b in w.calls && b != a :: w'.calls[b] == w.calls[b]
    requires Distinct(w'.calls[a].inbox) && InHand(w'.calls[a]).None?
    requires forall r :: Pending(w'.calls[a], r) <==> Pending(w.calls[a], r) && r != q
    requires w'.requests == w.requests[q := Request(a, Answered(ok))]
    requires w.calls[a].stopRequested || ok ==> w'.calls[a].stopRequested
    requires w.records.Keys <= w'.records.Keys && (ok ==> a in w.records)
    requires w'.calls[a].monitor.NotSpawned? ==> w.calls[a].monitor.NotSpawned?
    ensures RequestsOk(w')
  {
    forall b, r | b in w'.calls && Pending(w'.calls[b], r)
      ensures r in w'.requests && w'.requests[r] == Request(b, Sent)
    {
      assert Pending(w.calls[b], r);
      assert w.requests[q] == Request(a, Sent) && w.requests[r] == Request(b, Sent);
    }
    forall r | r in w'.requests
      ensures RequestOk(w', w'.requests[r], r)
    {
      assert r != q ==> r in w.requests && RequestOk(w, w.requests[r], r);
    }
  }

  lemma {:induction false} RejectLift(w: World, a: ActivityId, f: Effect)
    requires RequestsOk(w) && a in w.calls && RequestsMove(w, a, f, Reject)
    ensures RequestsOk(Install(w, a, f))
  {
    var w', c := Install(w, a, f), w.calls[a];
    assert c.inbox == [c.inbox[0]] + c.inbox[1..];
    assert Pending(c, c.inbox[0]);
    SettleLift(w, w', a, c.inbox[0], false);
  }

  lemma {:induction false} ReplyLift(w: World, a: ActivityId, f: Effect, ok: bool)
    requires RequestsOk(w) && a in w.calls && RequestsMove(w, a, f, Reply(ok))
    ensures RequestsOk(Install(w, a, f))
  {
    var w', c := Install(w, a, f), w.calls[a];
    assert Pending(c, InHand(c).value);
    SettleLift(w, w', a, InHand(c).value, ok);
  }

  lemma {:induction false} DropLift(w: World, a: ActivityId, f: Effect)
    requires RequestsOk(w) && a in w.calls && RequestsMove(w, a, f, Drop)
    ensures RequestsOk(Install(w, a, f))
  {
    var w', c := Install(w, a, f), w.calls[a];
    assert forall b, q | b in w.calls :: Pending(w'.calls[b], q) <==> Pending(w.calls[b], q) && b != a;
    assert forall q | q in c.inbox :: Pending(c, q);
  }

  lemma {:induction false} CallEventKeepsRequests(w: World, e: Event)
    requires Inv(w) && IsCallEvent(e) && Enabled(w, e)
    ensures RequestsOk(Next(w, e))
  {
    CallEventMovesRequests(w, e);
    var f := CallEffect(w, e.a, w.calls[e.a], e);
    match MoveOf(w.calls[e.a], e) {
      case Quiet => QuietLift(w, e.a, f);
      case Take => TakeLift(w, e.a, f);
      case Reject => RejectLift(w, e.a, f);
      case Reply(ok) => ReplyLift(w, e.a, f, ok);
      case Drop => DropLift(w, e.a, f);
    }
  }

  /** A call that has just been made, or has been refused, joins the world. */
  predicate IsNewCall(c: Call) {
    (c.launch.Begin? || c.launch == Returned(false)) && c.handover.None? && c.monitor.NotSpawned? && c.inbox == []
    && !c.stopRequested && !c.waitFailed && !c.gaveUp
  }

  /** Worlds that differ by one new call and at most its failed record. */
  predicate Joins(w: World, w': World, a: ActivityId, c: Call) {
    && a !in w.calls && a !in w.records && IsNewCall(c) && w' == w.(calls := w.calls[a := c], records := w'.records)
    && (w'.records == w.records
        || (c.launch == Returned(false) && w'.records == w.records[a := Record(c.installation, Failed, None)]))
  }

  lemma {:induction false} JoinKeepsViews(w: World, w': World, a: ActivityId, c: Call)
    requires Inv(w) && Joins(w, w', a, c)
    ensures CallsOk(w')
  {
    assert a !in w.active;
    forall b | b in w.calls
      ensures ViewOf(w', b).LaunchOk() && ViewOf(w', b).MonitorOk()
    {
      assert ViewOf(w', b) == ViewOf(w, b);
    }
  }

  lemma {:induction false} JoinKeepsRecords(w: World, w': World, a: ActivityId, c: Call)
    requires RecordsOk(w) && AtMostOneActive(w.records) && Joins(w, w', a, c)
    ensures RecordsOk(w') && AtMostOneActive(w'.records)
  {
  }

  lemma {:induction false} JoinKeepsProcesses(w: World, w': World, a: ActivityId, c: Call)
    requires ProcessesOk(w) && ActiveOk(w) && Joins(w, w', a, c)
    ensures ProcessesOk(w') && ActiveOk(w')
  {
    assert Held(c).None?;
    forall b | b in w.calls
      ensures w'.calls[b] == w.calls[b] && OwnsHeld(w', b)
    {
      assert OwnsHeld(w, b);
    }
  }

  lemma {:induction false} JoinKeepsRequests(w: World, w': World, a: ActivityId, c: Call)
    requires RequestsOk(w) && Joins(w, w', a, c)
    ensures RequestsOk(w')
  {
    forall b, q | b in w'.calls && Pending(w'.calls[b], q)
      ensures q in w'.requests && w'.requests[q] == Request(b, Sent)
    {
      assert b in w.calls && Pending(w.calls[b], q);
    }
    forall q | q in w'.requests
      ensures RequestOk(w', w'.requests[q], q)
    {
      assert RequestOk(w, w.requests[q], q);
    }
  }

  lemma {:induction false} JoinKeepsInv(w: World, w': World, a: ActivityId, c: Call)
    requires Inv(w) && Joins(w, w', a, c)
    ensures Inv(w')
  {
    JoinKeepsViews(w, w', a, c);
    JoinKeepsRecords(w, w', a, c);
    JoinKeepsProcesses(w, w', a, c);
    JoinKeepsRequests(w, w', a, c);
  }

  /** A request joins a spawned call's inbox; nothing else in the call changes. */
  lemma {:induction false} InboxKeepsView(v: View, inbox: seq<RequestId>)
    requires v.LaunchOk() && v.MonitorOk() && !v.c.monitor.NotSpawned? && !v.c.monitor.Ended?
    ensures var v' := v.(c := v.c.(inbox := inbox)); v'.LaunchOk() && v'.MonitorOk()
  {
  }

  /** Worlds that differ by one request joining the inbox of a spawned call. */
  predicate Delivers(w: World, w': World, a: ActivityId, q: RequestId) {
    && a in w.calls && !w.calls[a].monitor.NotSpawned? && !w.calls[a].monitor.Ended?
    && q in w.requests && w.requests[q] == Request(a, LookedUp)
    && w' == w.(calls := w.calls[a := w.calls[a].(inbox := w.calls[a].inbox + [q])],
                requests := w.requests[q := Request(a, Sent)])
  }

  lemma {:induction false} DeliveryKeepsViews(w: World, w': World, a: ActivityId, q: RequestId)
    requires CallsOk(w) && Delivers(w, w', a, q)
    ensures CallsOk(w')
  {
    forall b | b in w.calls
      ensures ViewOf(w', b).LaunchOk() && ViewOf(w', b).MonitorOk()
    {
      if b == a {
        InboxKeepsView(ViewOf(w, a), w'.calls[a].inbox);
        assert ViewOf(w', a) == ViewOf(w, a).(c := w.calls[a].(inbox := w'.calls[a].inbox));
      } else {
        assert ViewOf(w', b) == ViewOf(w, b);
      }
    }
  }

  lemma {:induction false} DeliveryKeepsRest(w: World, w': World, a: ActivityId, q: RequestId)
    requires RecordsOk(w) && ProcessesOk(w) && ActiveOk(w) && Delivers(w, w', a, q)
    ensures RecordsOk(w') && ProcessesOk(w') && ActiveOk(w')
  {
    forall b | b in w.calls
      ensures Held(w'.calls[b]) == Held(w.calls[b]) && Listening(w'.calls[b]) == Listening(w.calls[b])
      ensures w'.calls[b].installation == w.calls[b].installation && OwnsHeld(w', b)
    {
      assert OwnsHeld(w, b);
    }
  }

  lemma {:induction false} PendingAfterSend(c: Call, q: RequestId)
    ensures forall r :: Pending(c.(inbox := c.inbox + [q]), r) <==> Pending(c, r) || r == q
    ensures InHand(c.(inbox := c.inbox + [q])) == InHand(c)
    ensures Distinct(c.inbox) && q !in c.inbox ==> Distinct(c.inbox + [q])
  {
  }

  lemma {:induction false} DeliveryKeepsRequests(w: World, w': World, a: ActivityId, q: RequestId)
    requires RequestsOk(w) && Delivers(w, w', a, q)
    ensures RequestsOk(w')
  {
    assert !Pending(w.calls[a], q);
    PendingAfterSend(w.calls[a], q);
    forall b, r | b in w'.calls && Pending(w'.calls[b], r)
      ensures r in w'.requests && w'.requests[r] == Request(b, Sent)
    {
      assert !(b == a && r == q) ==> Pending(w.calls[b], r);
    }
    forall r | r in w'.requests
      ensures RequestOk(w', w'.requests[r], r)
    {
      assert RequestOk(w, w.requests[r], r);
    }
  }

  /** Worlds that differ in their requests only. */
  predicate SameButRequests(w: World, w': World) {
    w' == w.(requests := w'.requests)
  }

  lemma {:induction false} RequestsDoNotMatterToCalls(w: World, w': World)
    requires SameButRequests(w, w') && CallsOk(w)
    ensures CallsOk(w')
  {
    forall b | b in w.calls
      ensures ViewOf(w', b).LaunchOk() && ViewOf(w', b).MonitorOk()
    {
      assert ViewOf(w', b) == ViewOf(w, b);
    }
  }

  lemma {:induction false} RequestsDoNotMatterElsewhere(w: World, w': World)
    requires SameButRequests(w, w') && RecordsOk(w) && ProcessesOk(w) && ActiveOk(w)
    ensures RecordsOk(w') && ProcessesOk(w') && ActiveOk(w')
  {
    assert forall b | b in w.calls :: OwnsHeld(w, b) ==> OwnsHeld(w', b);
  }

  lemma {:induction false} RequestChangeKeepsRequests(w: World, q: RequestId, r: Request)
    requires RequestsOk(w) && !r.state.Sent? && !r.state.Answered?
    requires q in w.requests ==> w.requests[q].state.LookedUp?
    requires r.state.LookedUp? ==> r.activity in w.calls && !w.calls[r.activity].monitor.NotSpawned?
    ensures RequestsOk(w.(requests := w.requests[q := r]))
  {
    var w' := w.(requests := w.requests[q := r]);
    forall p | p in w'.requests
      ensures RequestOk(w', w'.requests[p], p)
    {
      assert p != q ==> RequestOk(w, w.requests[p], p);
    }
  }

  /** Only the state of one request that is not pending changes. */
  lemma {:induction false} RequestChangeKeepsInv(w: World, q: RequestId, r: Request)
    requires Inv(w) && !r.state.Sent? && !r.state.Answered?
    requires q in w.requests ==> w.requests[q].state.LookedUp?
    requires r.state.LookedUp? ==> r.activity in w.calls && !w.calls[r.activity].monitor.NotSpawned?
    ensures Inv(w.(requests := w.requests[q := r]))
  {
    hide CallsOk, RecordsOk, ProcessesOk, ActiveOk, RequestsOk, AtMostOneActive;
    var w' := w.(requests := w.requests[q := r]);
    RequestsDoNotMatterToCalls(w, w');
    RequestsDoNotMatterElsewhere(w, w');
    RequestChangeKeepsRequests(w, q, r);
  }

  lemma {:induction false} LookUpKeepsInv(w: World, q: RequestId, a: ActivityId)
    requires Inv(w) && q !in w.requests
    ensures Inv(StopLookedUp(w, q, a))
  {
    if !w.poisoned && a in w.active {
      assert ViewOf(w, a).LaunchOk() && ViewOf(w, a).MonitorOk();
    }
    RequestChangeKeepsInv(w, q, Request(a, if !w.poisoned && a in w.active then LookedUp else Refused));
  }

  lemma {:induction false} SendStopKeepsInv(w: World, q: RequestId)
    requires Inv(w) && q in w.requests && w.requests[q].state.LookedUp?
    ensures Inv(StopSent(w, q))
  {
    var a := w.requests[q].activity;
    assert RequestOk(w, w.requests[q], q);
    if w.calls[a].monitor.Ended? {
      RequestChangeKeepsInv(w, q, Request(a, Refused));
    } else {
      DeliveryKeepsViews(w, StopSent(w, q), a, q);
      DeliveryKeepsRest(w, StopSent(w, q), a, q);
      DeliveryKeepsRequests(w, StopSent(w, q), a, q);
    }
  }

  lemma {:induction false} PoisonKeepsInv(w: World)
    requires Inv(w)
    ensures Inv(Poisoned(w))
  {
    var w' := Poisoned(w);
    forall b | b in w.calls
      ensures ViewOf(w', b).LaunchOk() && ViewOf(w', b).MonitorOk()
    {
      assert ViewOf(w', b) == ViewOf(w, b);
    }
    forall q | q in w'.requests
      ensures RequestOk(w', w'.requests[q], q)
    {
      assert RequestOk(w, w.requests[q], q);
    }
  }

  /** After a restart nothing is active any more, and the invariant holds again. */
  lemma {:induction false} RestartKeepsInv(w: World)
    requires Inv(w)
    ensures Inv(Restarted(w))
    ensures forall a | a in Restarted(w).records :: !Restarted(w).records[a].status.IsActive()
  {
    assert forall q | q in w.requests :: RequestOk(w, w.requests[q], q);
  }

  lemma {:induction false} CallEventKeepsInv(w: World, e: Event)
    requires Inv(w) && IsCallEvent(e) && Enabled(w, e)
    ensures Inv(Next(w, e))
  {
    CallEventKeepsCalls(w, e);
    CallEventKeepsRecords(w, e);
    CallEventKeepsProcesses(w, e);
    CallEventKeepsActive(w, e);
    CallEventKeepsRequests(w, e);
  }

  lemma {:induction false} SharedEventKeepsInv(w: World, e: Event)
    requires Inv(w) && !IsCallEvent(e) && SharedEnabled(w, e)
    ensures Inv(SharedNext(w, e))
  {
    match e {
      case Refuse(a, installation, saved) =>
        JoinKeepsInv(w, CallRefused(w, a, installation, saved), a, NewCall(installation).(launch := Returned(false)));
      case StartCall(a, installation) => JoinKeepsInv(w, CallStarted(w, a, installation), a, NewCall(installation));
      case LookUpStop(q, a) => LookUpKeepsInv(w, q, a);
      case SendStop(q) => SendStopKeepsInv(w, q);
      case PoisonLock => PoisonKeepsInv(w);
      case Restart => RestartKeepsInv(w);
    }
  }

  /** Every step, of whatever thread, keeps the invariant. */
  lemma {:induction false} StepKeepsInv(w: World, e: Event)
    requires Inv(w) && Enabled(w, e)
    ensures Inv(Next(w, e))
  {
    if IsCallEvent(e) {
      CallEventKeepsInv(w, e);
    } else {
      SharedEventKeepsInv(w, e);
    }
  }
}
