/**
 The launch supervisor as a step machine. Every launch call, every process
 monitor and every stop request advances by atomic steps, in any interleaving.
 A save that may fail, a process that may refuse to stop and a thread that may
 not start are outcomes carried by the event. One activity identifier belongs to
 one launch call, because the command layer draws a fresh UUID for each.
 */
module LaunchSupervisor {
  import opened Wrappers

  type ActivityId = nat
  type InstallationId = nat
  type ProcessId = nat
  /** A process handle: unlike the operating system's number, never reused. */
  type Handle = nat
  type RequestId = nat

  datatype Status = Starting | Running | Stopping | Exited | Failed | Stopped | Interrupted {
    predicate IsActive() {
      Starting? || Running? || Stopping?
    }

    /** How far along its life an activity is; the four terminal statuses share the last stage. */
    function Stage(): nat {
      match this
      case Starting => 0
      case Running => 1
      case Stopping => 2
      case _ => 3
    }
  }

  datatype Record = Record(installation: InstallationId, status: Status, process: Option<ProcessId>)

  datatype LaunchPc =
    | Begin
    | Execute
    | SaveExecutionFailure
    | SaveRunning(p: Handle)
    | Spawn(p: Handle)
    | Register(p: Handle)
    | Send(p: Handle)
    | Sending
    | Reap(p: Handle)
    | SaveFailure(p: Handle)
    | Returned(ok: bool)

  datatype MonitorPc =
    | NotSpawned
    | AwaitStart
    | Poll(p: Handle)
    | AnswerStop(p: Handle, request: RequestId)
    | TryWait(p: Handle)
    | Persist(p: Handle, end: Status, attempt: nat)
    | Remove(p: Handle)
    | Ended

  /** One launch call with its monitor thread, its hand-over channel and its command channel. */
  datatype Call = Call(
    installation: InstallationId,
    launch: LaunchPc,
    handover: Option<Handle>,
    monitor: MonitorPc,
    inbox: seq<RequestId>,
    stopRequested: bool,
    waitFailed: bool,
    gaveUp: bool)

  datatype AbandonCause = TerminateFailed | WaitFailed | LauncherRestarted

  datatype ProcessState = Live | Reaped | Abandoned(cause: AbandonCause)

  datatype Process = Process(activity: ActivityId, id: ProcessId, state: ProcessState)

  datatype RequestState = LookedUp | Sent | Answered(ok: bool) | Disconnected | Refused {
    predicate Settled() {
      Answered? || Disconnected? || Refused?
    }
  }

  datatype Request = Request(activity: ActivityId, state: RequestState)

  datatype World = World(
    records: map<ActivityId, Record>,
    calls: map<ActivityId, Call>,
    active: map<ActivityId, ProcessId>,
    processes: map<Handle, Process>,
    requests: map<RequestId, Request>,
    poisoned: bool)

  const EMPTY := World(map[], map[], map[], map[], map[], false)

  datatype ReapOutcome = ReapDone | CannotTerminate | CannotWait

  datatype WaitOutcome = StillRunning | Exit(code: Option<int>) | WaitError(reap: ReapOutcome)

  datatype Event =
    | Refuse(a: ActivityId, installation: InstallationId, saved: bool)
    | StartCall(a: ActivityId, installation: InstallationId)
    | BeginActivity(a: ActivityId, saved: bool)
    | ExecutePlan(a: ActivityId, started: Option<(Handle, ProcessId)>)
    | SaveExecutionFailed(a: ActivityId, saved: bool)
    | SaveRunningStatus(a: ActivityId, saved: bool)
    | ReapAfterFailure(a: ActivityId, outcome: ReapOutcome)
    | SaveFailedStatus(a: ActivityId, saved: bool)
    | SpawnMonitor(a: ActivityId, ok: bool)
    | RegisterActive(a: ActivityId)
    | SendProcess(a: ActivityId)
    | ReceiveProcess(a: ActivityId)
    | SendFails(a: ActivityId)
    | MonitorGone(a: ActivityId)
    | PollCommands(a: ActivityId, terminated: bool)
    | SaveStopping(a: ActivityId, saved: bool)
    | TryWaiting(a: ActivityId, wait: WaitOutcome)
    | PersistEnd(a: ActivityId, saved: bool)
    | RemoveActive(a: ActivityId)
    | LookUpStop(q: RequestId, a: ActivityId)
    | SendStop(q: RequestId)
    | PoisonLock
    | Restart

  /** The activity whose call or monitor an event belongs to, if it is one of those events. */
  predicate IsCallEvent(e: Event) {
    !e.Refuse? && !e.StartCall? && !e.LookUpStop? && !e.SendStop? && !e.PoisonLock? && !e.Restart?
  }

  predicate Enabled(w: World, e: Event) {
    if IsCallEvent(e) then e.a in w.calls && CallEnabled(w, w.calls[e.a], e) else SharedEnabled(w, e)
  }

  predicate SharedEnabled(w: World, e: Event)
    requires !IsCallEvent(e)
  {
    match e
    case Refuse(a, _, _) => a !in w.records && a !in w.calls
    case StartCall(a, _) => a !in w.records && a !in w.calls
    case LookUpStop(q, _) => q !in w.requests
    case SendStop(q) => q in w.requests && w.requests[q].state.LookedUp?
    case PoisonLock => true
    case Restart => true
  }

  predicate CallEnabled(w: World, c: Call, e: Event)
    requires IsCallEvent(e)
  {
    match e
    case BeginActivity(_, _) => c.launch.Begin?
    case ExecutePlan(_, started) =>
      c.launch.Execute? && (started.Some? ==> started.value.0 !in w.processes)
    case SaveExecutionFailed(_, _) => c.launch.SaveExecutionFailure?
    case SaveRunningStatus(_, _) => c.launch.SaveRunning? && c.launch.p in w.processes
    case ReapAfterFailure(_, _) => c.launch.Reap? && c.launch.p in w.processes
    case SaveFailedStatus(_, _) => c.launch.SaveFailure?
    case SpawnMonitor(_, _) => c.launch.Spawn?
    case RegisterActive(_) => c.launch.Register? && c.launch.p in w.processes
    case SendProcess(_) => c.launch.Send?
    case ReceiveProcess(_) => c.launch.Sending? && c.handover.Some? && c.monitor.AwaitStart?
    case SendFails(_) =>
      c.launch.Sending? && c.handover.Some? && c.monitor.Ended? && c.handover.value in w.processes
    case MonitorGone(_) => c.monitor.AwaitStart?
    case PollCommands(_, _) => c.monitor.Poll?
    case SaveStopping(_, _) => c.monitor.AnswerStop?
    case TryWaiting(_, _) => c.monitor.TryWait? && c.monitor.p in w.processes
    case PersistEnd(_, _) => c.monitor.Persist?
    case RemoveActive(_) => c.monitor.Remove? && c.monitor.p in w.processes
  }

  /** Whether the store holds an active activity of the installation, as begin_launch_activity asks. */
  predicate HasActive(records: map<ActivityId, Record>, installation: InstallationId) {
    exists b | b in records :: records[b].installation == installation && records[b].status.IsActive()
  }

  /**
   What an event of one call does: to the call itself, and to its own record,
   registration, process and stop request.
   */
  datatype Effect = Effect(
    call: Call,
    record: Option<Record>,
    registration: Option<ProcessId>,
    process: Option<(Handle, Process)>,
    answer: Option<(RequestId, bool)>,
    disconnect: bool)

  function Lookup<K, V>(m: map<K, V>, k: K): Option<V> {
    if k in m then Some(m[k]) else None
  }

  function Put<K, V>(m: map<K, V>, k: K, v: Option<V>): map<K, V> {
    match v
    case None => m - {k}
    case Some(x) => m[k := x]
  }

  /** The call becomes `c`; everything else stays as it is. */
  function Become(w: World, a: ActivityId, c: Call): Effect {
    Effect(c, Lookup(w.records, a), Lookup(w.active, a), None, None, false)
  }

  function AfterReap(outcome: ReapOutcome): ProcessState {
    match outcome
    case ReapDone => Reaped
    case CannotTerminate => Abandoned(TerminateFailed)
    case CannotWait => Abandoned(WaitFailed)
  }

  /** The status a monitor records for a process seen to exit. */
  function EndStatus(stopRequested: bool, code: Option<int>): Status {
    if stopRequested then Stopped
    else if code == Some(0) then Exited
    else Failed
  }

  /** remove_active: only a registration with the same process number goes, and only under a healthy lock. */
  function Unregistered(w: World, a: ActivityId, p: Handle): Option<ProcessId>
    requires p in w.processes
  {
    if !w.poisoned && Lookup(w.active, a) == Some(w.processes[p].id) then None else Lookup(w.active, a)
  }

  /** A dropped command receiver disconnects every request still waiting in it. */
  function Disconnect(requests: map<RequestId, Request>, inbox: seq<RequestId>): map<RequestId, Request> {
    map q | q in requests :: if q in inbox then requests[q].(state := Disconnected) else requests[q]
  }

  function Answer(requests: map<RequestId, Request>, answer: Option<(RequestId, bool)>): map<RequestId, Request> {
    match answer
    case None => requests
    case Some((q, ok)) => if q in requests then requests[q := requests[q].(state := Answered(ok))] else requests
  }

  /** Applies what one call's event did to the world it happened in. */
  function Install(w: World, a: ActivityId, f: Effect): World
    requires a in w.calls
  {
    World(
      Put(w.records, a, f.record),
      w.calls[a := if f.disconnect then f.call.(monitor := Ended, inbox := []) else f.call],
      Put(w.active, a, f.registration),
      (match f.process case None => w.processes case Some((p, process)) => w.processes[p := process]),
      (if f.disconnect then Disconnect(w.requests, f.call.inbox) else Answer(w.requests, f.answer)),
      w.poisoned)
  }

  function NewCall(installation: InstallationId): Call {
    Call(installation, Begin, None, NotSpawned, [], false, false, false)
  }

  function Interrupt(records: map<ActivityId, Record>): map<ActivityId, Record> {
    map a | a in records ::
      if records[a].status.IsActive() then records[a].(status := Interrupted) else records[a]
  }

  function Saved(c: Call, status: Status, process: Option<ProcessId>): Option<Record> {
    Some(Record(c.installation, status, process))
  }

  function Next(w: World, e: Event): World
    requires Enabled(w, e)
  {
    if IsCallEvent(e) then Install(w, e.a, CallEffect(w, e.a, w.calls[e.a], e)) else SharedNext(w, e)
  }

  function SharedNext(w: World, e: Event): World
    requires !IsCallEvent(e) && SharedEnabled(w, e)
  {
    match e
    case Refuse(a, installation, saved) => CallRefused(w, a, installation, saved)
    case StartCall(a, installation) => CallStarted(w, a, installation)
    case LookUpStop(q, a) => StopLookedUp(w, q, a)
    case SendStop(q) => StopSent(w, q)
    case PoisonLock => Poisoned(w)
    case Restart => Restarted(w)
  }

  /** A launch whose plan cannot be built only leaves a failed activity behind. */
  function CallRefused(w: World, a: ActivityId, installation: InstallationId, saved: bool): World {
    w.(calls := w.calls[a := NewCall(installation).(launch := Returned(false))],
       records := if saved then w.records[a := Record(installation, Failed, None)] else w.records)
  }

  function CallStarted(w: World, a: ActivityId, installation: InstallationId): World {
    w.(calls := w.calls[a := NewCall(installation)])
  }

  /** A stop request gets hold of the command channel only of a registered launch. */
  function StopLookedUp(w: World, q: RequestId, a: ActivityId): World {
    w.(requests := w.requests[q := Request(a, if !w.poisoned && a in w.active then LookedUp else Refused)])
  }

  /** Sending fails once the monitor has dropped its end of the channel. */
  function StopSent(w: World, q: RequestId): World
    requires q in w.requests
  {
    var a := w.requests[q].activity;
    if a in w.calls && !w.calls[a].monitor.Ended?
    then w.(calls := w.calls[a := w.calls[a].(inbox := w.calls[a].inbox + [q])],
            requests := w.requests[q := Request(a, Sent)])
    else w.(requests := w.requests[q := Request(a, Refused)])
  }

  function Poisoned(w: World): World {
    w.(poisoned := true)
  }

  /** The launcher stops and starts again: its threads are gone and reconcile_after_restart has run. */
  function Restarted(w: World): World {
    World(
      Interrupt(w.records), map[], map[],
      map p | p in w.processes ::
        if w.processes[p].state.Live? then w.processes[p].(state := Abandoned(LauncherRestarted)) else w.processes[p],
      map q | q in w.requests ::
        if w.requests[q].state.Settled() then w.requests[q] else w.requests[q].(state := Disconnected),
      false)
  }

  function CallEffect(w: World, a: ActivityId, c: Call, e: Event): Effect
    requires IsCallEvent(e) && CallEnabled(w, c, e)
  {
    match e
    case BeginActivity(_, saved) =>
      if HasActive(w.records, c.installation) || !saved
      then Become(w, a, c.(launch := Returned(false)))
      else Become(w, a, c.(launch := LaunchPc.Execute)).(record := Saved(c, Starting, None))
    case ExecutePlan(_, started) =>
      (match started
       case None => Become(w, a, c.(launch := SaveExecutionFailure))
       case Some((p, id)) =>
         Become(w, a, c.(launch := SaveRunning(p))).(process := Some((p, Process(a, id, Live)))))
    case SaveExecutionFailed(_, saved) =>
      var f := Become(w, a, c.(launch := Returned(false)));
      if saved then f.(record := Saved(c, Failed, None)) else f
    case SaveRunningStatus(_, saved) =>
      var p := c.launch.p;
      if saved
      then Become(w, a, c.(launch := Spawn(p))).(record := Saved(c, Running, Some(w.processes[p].id)))
      else Become(w, a, c.(launch := Reap(p)))
    case ReapAfterFailure(_, outcome) =>
      var p := c.launch.p;
      Become(w, a, c.(launch := SaveFailure(p)))
      .(process := Some((p, w.processes[p].(state := AfterReap(outcome)))))
    case SaveFailedStatus(_, saved) =>
      var f := Become(w, a, c.(launch := Returned(false)));
      if saved then f.(record := Saved(c, Failed, OwnNumber(w, c.launch.p))) else f
    case SpawnMonitor(_, ok) =>
      Become(w, a, if ok then c.(launch := Register(c.launch.p), monitor := AwaitStart)
                   else c.(launch := Reap(c.launch.p)))
    case RegisterActive(_) =>
      var p := c.launch.p;
      if w.poisoned then Become(w, a, c.(launch := Reap(p)))
      else Become(w, a, c.(launch := Send(p))).(registration := Some(w.processes[p].id))
    case SendProcess(_) => Become(w, a, c.(launch := Sending, handover := Some(c.launch.p)))
    case ReceiveProcess(_) =>
      Become(w, a, c.(launch := Returned(true), handover := None, monitor := Poll(c.handover.value)))
    case SendFails(_) =>
      var p := c.handover.value;
      Become(w, a, c.(launch := Reap(p), handover := None)).(registration := Unregistered(w, a, p))
    case MonitorGone(_) => Become(w, a, c).(disconnect := true)
    case PollCommands(_, terminated) =>
      var p := c.monitor.p;
      if c.inbox == [] then Become(w, a, c.(monitor := TryWait(p)))
      else if terminated
      then Become(w, a, c.(monitor := AnswerStop(p, c.inbox[0]), inbox := c.inbox[1..], stopRequested := true))
      else Become(w, a, c.(monitor := TryWait(p), inbox := c.inbox[1..])).(answer := Some((c.inbox[0], false)))
    case SaveStopping(_, saved) =>
      var p := c.monitor.p;
      var f := Become(w, a, c.(monitor := TryWait(p))).(answer := Some((c.monitor.request, saved)));
      if saved then f.(record := Saved(c, Stopping, OwnNumber(w, p))) else f
    case TryWaiting(_, wait) =>
      var p := c.monitor.p;
      (match wait
       case StillRunning => Become(w, a, c.(monitor := Poll(p)))
       case Exit(code) =>
         Become(w, a, c.(monitor := Persist(p, EndStatus(c.stopRequested, code), 1)))
         .(process := Some((p, w.processes[p].(state := Reaped))))
       case WaitError(reap) =>
         Become(w, a, c.(monitor := Persist(p, Failed, 1), waitFailed := true))
         .(process := Some((p, w.processes[p].(state := AfterReap(reap))))))
    case PersistEnd(_, saved) =>
      var Persist(p, end, attempt) := c.monitor;
      if saved then Become(w, a, c.(monitor := Remove(p))).(record := Saved(c, end, OwnNumber(w, p)))
      else if attempt < 3 then Become(w, a, c.(monitor := Persist(p, end, attempt + 1)))
      else Become(w, a, c.(monitor := Remove(p), gaveUp := true))
    case RemoveActive(_) =>
      Become(w, a, c).(registration := Unregistered(w, a, c.monitor.p), disconnect := true)
  }

  function OwnNumber(w: World, p: Handle): Option<ProcessId> {
    if p in w.processes then Some(w.processes[p].id) else None
  }

  /** A run: a sequence of events, each enabled where it happens. */
  predicate Runnable(w: World, es: seq<Event>)
    decreases |es|
  {
    es == [] || (Enabled(w, es[0]) && Runnable(Next(w, es[0]), es[1..]))
  }

  function Run(w: World, es: seq<Event>): World
    requires Runnable(w, es)
    decreases |es|
  {
    if es == [] then w else Run(Next(w, es[0]), es[1..])
  }
}
